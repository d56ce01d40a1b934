// What the saga's tests mean, field by field, and what comes of each.
module SagaFields {
  import opened Options
  import opened Manifests
  import opened Saga

  // ------------------------------------------------------------- the tests

  // An asset that holds exactly the job's payload, under the job's own marker, and
  // that everybody can see.
  predicate HoldsPayload(m: Manifest, me: Uuid, asset: Remote, marker: Uuid) {
    && m.sha1.Some? && asset.checksum.digest == m.sha1
    && m.size.Some? && asset.size == m.size
    && asset.owner == m.owner && asset.library == None
    && !asset.trashed && !asset.offline && asset.visibility != "hidden"
    && marker == me
  }

  lemma UploadMatchesIff(m: Manifest, me: Uuid, asset: Remote, marker: Uuid)
    ensures UploadMatches(m, me, asset, marker) <==> HoldsPayload(m, me, asset, marker)
  {
  }

  // The asset that the user replaced, as it was then; the trash flag, and the
  // time that goes with it, may be new where that is allowed.
  predicate IsTheSource(m: Manifest, asset: Remote, allowTrashed: bool) {
    && m.source.Some?
    && var s := m.source.value;
       && asset.id == s.asset && asset.checksum == s.checksum && asset.size.Some?
       && asset.owner == m.owner && s.owner == m.owner && asset.library == None && s.library == None
       && asset.motion == None && asset.created == s.created && asset.favorite == s.favorite
       && asset.visibility == s.visibility && asset.visibility != "hidden" && !asset.offline
       && (if asset.trashed then allowTrashed else asset.updatedAt == s.updatedAt)
  }

  lemma SourceMatchesIff(m: Manifest, asset: Remote, allowTrashed: bool)
    requires m.source.Some?
    ensures SourceMatches(m, asset, allowTrashed) <==> IsTheSource(m, asset, allowTrashed)
  {
  }

  // The candidate shows up where and how the source does.
  predicate LooksLike(source: Remote, candidate: Remote) {
    && candidate.created == source.created && candidate.localDate == source.localDate
    && candidate.favorite == source.favorite && candidate.visibility == source.visibility
    && candidate.motion == source.motion
  }

  lemma CandidateMatchesIff(source: Remote, candidate: Remote)
    ensures CandidateMatches(source, candidate) <==> LooksLike(source, candidate)
  {
  }

  // The source has the payload's content already.
  predicate SameContent(m: Manifest, source: Remote) {
    m.sha1.Some? && source.checksum.digest == m.sha1 && source.library == None
  }

  lemma SameManagedChecksumIff(m: Manifest, source: Remote)
    ensures SameManagedChecksum(m, source) <==> SameContent(m, source)
  {
  }

  // The catalog has the source in the trash and the candidate under its name.
  predicate ShowsCandidate(m: Manifest, me: Uuid, entries: Entries) {
    && m.source.Some? && m.candidate.Some? && m.state == Replacing && m.verified
    && var s, c := m.source.value, m.candidate.value;
       && s.asset in entries && c in entries
       && entries[s.asset].inode == s.inode && entries[s.asset].asset.trashed
       && IsTheSource(m, entries[s.asset].asset, true)
       && entries[c].name == s.name && entries[c].inode != s.inode
       && HoldsPayload(m, me, entries[c].asset, me) && LooksLike(entries[s.asset].asset, entries[c].asset)
  }

  lemma AlreadyPublishedIff(m: Manifest, me: Uuid, entries: Entries)
    requires m.source.Some?
    ensures AlreadyPublished(m, me, entries) <==> ShowsCandidate(m, me, entries)
  {
    hide UploadMatches, HoldsPayload, CandidateMatches, LooksLike, SourceMatches, IsTheSource;
    var s := m.source.value;
    if s.asset in entries { SourceMatchesIff(m, entries[s.asset].asset, true); }
    if m.candidate.Some? && m.candidate.value in entries {
      UploadMatchesIff(m, me, entries[m.candidate.value].asset, me);
      if s.asset in entries { CandidateMatchesIff(entries[s.asset].asset, entries[m.candidate.value].asset); }
    }
  }

  // The catalog has the source as it was when the user replaced it.
  predicate ShowsSource(m: Manifest, entries: Entries) {
    && m.source.Some?
    && var s := m.source.value;
       && s.asset in entries && m.name == s.name
       && entries[s.asset] == Entry(s.inode, s.name, entries[s.asset].asset, s.albums)
       && IsTheSource(m, entries[s.asset].asset, false)
  }

  lemma LocalSourceOkIff(m: Manifest, entries: Entries)
    requires m.source.Some?
    ensures LocalSourceOk(m, entries) <==> ShowsSource(m, entries)
  {
    hide SourceMatches, IsTheSource;
    var s := m.source.value;
    if s.asset in entries { SourceMatchesIff(m, entries[s.asset].asset, false); }
  }

  // ---------------------------------------------------------- the publication

  // The source in the trash, in no album and under another name that nobody has;
  // the candidate with a new inode under the source's name and in its albums; and
  // everything else as it was.
  predicate IsPublication(entries: Entries, next: int, source: Uuid, candidate: Remote, after: Entries, nextAfter: int)
  {
    && candidate.id != source && source in entries && candidate.id !in entries
    && source in after && candidate.id in after
    && after.Keys == entries.Keys + {candidate.id}
    && (forall id | id in entries && id != source :: after[id] == entries[id])
    && after[source].inode == entries[source].inode && after[source].albums == []
    && after[source].asset == entries[source].asset.(trashed := true)
    && (forall id | id in entries :: entries[id].name != after[source].name)
    && after[candidate.id] == Entry(next, entries[source].name, candidate, entries[source].albums)
    && nextAfter == next + 1
  }

  lemma PublishIsPublication(entries: Entries, next: int, source: Uuid, candidate: Remote, retired: string)
    requires Publishable(entries, source, candidate, retired)
    ensures IsPublication(entries, next, source, candidate, Publish(entries, next, source, candidate, retired),
            next + 1)
  {
    forall id | id in entries ensures entries[id].name in TakenNames(entries) {}
  }

  // ------------------------------------------------------ what comes of them

  // A reply that is not there is waited for, one that makes no sense is waited
  // for too unless a candidate could be at fault, and a refusal blocks the job.
  lemma FailIs<T>(w: World, reply: Saga.Reply<T>)
    ensures reply.Transient? ==> Fail(w, reply) == w.(pc := Retrying(UploadUnavailable))
    ensures reply.Rejected? ==> Fail(w, reply) == w.(pc := Blocking(UploadRejected))
    ensures reply.Malformed? ==>
              var m := w.run.job;
              Fail(w, reply) == w.(pc := if m.candidate.Some? && m.state != Replacing then Blocking(CandidateMismatch)
                                         else Retrying(AmbiguousResponse))
  {
  }

  // What a run asks before it does anything.
  lemma BeginIs(w: World, me: Uuid, in_: Input)
    ensures var m, t := w.run.job, AtBegin(w, me, in_);
            && t == w.(pc := t.pc)
            && t.pc == (if !in_.originOk then Blocking(ProfileMismatch)
                        else if !in_.mutationOn then Idle
                        else if !in_.ownerOk then Blocking(ProfileMismatch)
                        else if m.operation == Replacement
                                then (if in_.deleteOn then CheckLocal else Blocking(UploadRejected))
                        else if m.state != Replacing then TakeAttempt
                        else if m.candidate.Some? then ReadCandidate
                        else Blocking(LocalStateFailed))
  {
  }

  // The local tests of a replacement.
  lemma CheckLocalIs(w: World, me: Uuid, in_: Input)
    requires w.run.job.source.Some?
    ensures var m, t := w.run.job, AtCheckLocal(w, me, in_);
            if ShowsCandidate(m, me, w.entries) then t == w.(pc := Showing)
            else if ShowsSource(m, w.entries) then
              t == w.(run := w.run.(source := Some(w.entries[m.source.value.asset])), pc := ReadSource)
            else t == w.(pc := Blocking(CandidateMismatch))
  {
    hide AlreadyPublished, LocalSourceOk, ShowsCandidate;
    AlreadyPublishedIff(w.run.job, me, w.entries);
    LocalSourceOkIff(w.run.job, w.entries);
  }

  // A source that is not what it was blocks the job; one that has the payload's
  // content makes a job that was not attempted yet unnecessary.
  lemma ReadSourceIs(w: World, me: Uuid, in_: Input)
    requires w.run.job.source.Some? && w.run.source.Some?
    requires in_.asset.Ok? && in_.asset.value.id == w.run.source.value.asset.id
    ensures var m, t := w.run.job, AtReadSource(w, me, in_);
            && t == w.(trace := w.trace + [SawAsset(in_.asset.value)], pc := t.pc)
            && t.pc == (if !IsTheSource(m, in_.asset.value, m.state == Replacing && m.verified)
                        then Blocking(CandidateMismatch)
                        else if m.state == Pending && m.candidate == None && m.attempts == 0
                                && SameContent(m, w.run.source.value.asset) then Cancelling
                        else if m.state != Replacing then TakeAttempt
                        else if m.candidate.Some? then ReadCandidate
                        else Blocking(LocalStateFailed))
  {
    hide SourceMatches, IsTheSource, SameManagedChecksum, SameContent;
    var m := w.run.job;
    SourceMatchesIff(m, in_.asset.value, m.state == Replacing && m.verified);
    SameManagedChecksumIff(m, w.run.source.value.asset);
  }

  // A candidate that does not hold the payload, or that would not show up as the
  // source does, blocks the job.
  lemma ReadMarkerIs(w: World, me: Uuid, in_: Input)
    requires w.run.first.Some? && (w.run.job.operation == Replacement ==> w.run.source.Some?) && in_.marker.Ok?
    ensures var m, first, t := w.run.job, w.run.first.value, AtReadMarker(w, me, in_);
            && t == w.(trace := w.trace + [SawMarker(first.id, in_.marker.value)],
                       run := w.run.(marker := Some(in_.marker.value)), pc := t.pc)
            && t.pc == (if !HoldsPayload(m, me, first, in_.marker.value) then Blocking(CandidateMismatch)
                        else if m.operation == Ordinary then AddLocally
                        else if LooksLike(w.run.source.value.asset, first) then StartReplacing
                        else Blocking(CandidateMismatch))
  {
    hide UploadMatches, HoldsPayload, CandidateMatches, LooksLike;
    UploadMatchesIff(w.run.job, me, w.run.first.value, in_.marker.value);
    if w.run.source.Some? { CandidateMatchesIff(w.run.source.value.asset, w.run.first.value); }
  }

  // The source read again, before and after the albums and after the trash
  // request.
  lemma ReviewedSourceIs(w: World, me: Uuid, in_: Input)
    requires w.run.job.source.Some? && w.run.source.Some?
    requires in_.asset.Ok? && in_.asset.value.id == w.run.source.value.asset.id
    ensures var m, asset := w.run.job, in_.asset.value;
            var u := w.(trace := w.trace + [SawAsset(asset)], run := w.run.(seen := Some(asset)));
            && AtRereadSource(w, me, in_) ==
                 u.(pc := if !IsTheSource(m, asset, true) then Blocking(CandidateMismatch)
                          else if asset.trashed then ResumedAlbums1 else SourceAlbums1)
            && AtConfirmTrash(w, me, in_) ==
                 u.(pc := if !IsTheSource(m, asset, true) then Blocking(CandidateMismatch)
                          else if asset.trashed then RereadCandidate
                          else if w.run.trashError != Some(true) then Retrying(UploadUnavailable)
                          else if m.candidate.Some? && m.state != Replacing then Blocking(CandidateMismatch)
                          else Retrying(AmbiguousResponse))
    ensures var m, asset, r := w.run.job, in_.asset.value, w.run;
            AtConfirmSource(w, me, in_) ==
              w.(trace := w.trace + [SawAsset(asset)], run := w.run.(confirmed := Some(asset)),
                 pc := if IsTheSource(m, asset, false)
                          && r.album1 == r.album2 == r.album3 == r.album4 == m.source.value.albums
                       then Trashing else Blocking(CandidateMismatch))
  {
    hide SourceMatches, IsTheSource;
    SourceMatchesIff(w.run.job, in_.asset.value, true);
    SourceMatchesIff(w.run.job, in_.asset.value, false);
  }

  // The candidate read again after the source was seen in the trash.
  lemma RereadCandidateIs(w: World, me: Uuid, in_: Input)
    requires w.run.source.Some? && w.run.first.Some? && w.run.marker.Some?
    requires in_.asset.Ok? && in_.asset.value.id == w.run.first.value.id
    ensures var m, asset := w.run.job, in_.asset.value;
            AtRereadCandidate(w, me, in_) ==
              w.(trace := w.trace + [SawAsset(asset)], run := w.run.(again := Some(asset)),
                 pc := if HoldsPayload(m, me, asset, w.run.marker.value) && LooksLike(w.run.source.value.asset, asset)
                       then Publishing else Blocking(CandidateMismatch))
  {
    hide UploadMatches, HoldsPayload, CandidateMatches, LooksLike;
    UploadMatchesIff(w.run.job, me, in_.asset.value, w.run.marker.value);
    CandidateMatchesIff(w.run.source.value.asset, in_.asset.value);
  }

  // A refused trash request blocks the job; after any other reply the source is
  // looked at, and what the reply was decides only if it is not in the trash.
  lemma TrashingIs(w: World, me: Uuid, in_: Input)
    requires w.run.source.Some?
    ensures var t := AtTrashing(w, me, in_);
            && t == w.(trace := w.trace + [SentTrash(w.run.source.value.asset.id)], run := t.run, pc := t.pc)
            && (in_.ack.Rejected? ==> t.pc == Blocking(UploadRejected) && t.run == w.run)
            && (!in_.ack.Rejected? ==>
                  && t.pc == ConfirmTrash
                  && t.run == w.run.(trashError := if in_.ack.Ok? then None else Some(in_.ack == Malformed)))
  {
  }

  // A call that the queue takes goes on with the new manifest. A call that does
  // not fit the job any more ends the run, and one that would write a manifest
  // that is not valid blocks the job.
  lemma StoredIs(w: World, reply: Manifests.Reply, pc: Pc)
    requires w.job.Some?
    ensures var t := Stored(w, reply, pc);
            match reply
            case Written(m) => t == w.(job := Some(m), run := w.run.(job := m), pc := pc)
            case Kept => t == w.(run := w.run.(job := w.job.value), pc := pc)
            case Refused => t == w.(pc := Idle)
            case Invalid => t == w.(pc := Blocking(LocalStateFailed))
  {
  }

  // Local steps after the asset is in the catalog: one that fails blocks the job,
  // and only a replacement has a pin to hand over. A committed job whose removal
  // fails is left to the next startup.
  lemma LocalStepsAre(w: World, me: Uuid, in_: Input)
    ensures AtShowing(w, me, in_) == w.(pc := if !in_.localOk then Blocking(LocalStateFailed)
                                              else if w.run.job.operation == Replacement then Pinning else Committing)
    ensures AtPinning(w, me, in_) == w.(pc := if in_.localOk then Committing else Blocking(LocalStateFailed))
    ensures var goes := w.job.Some? && w.job.value.state == Committed && in_.localOk;
            AtRemoving(w, me, in_) == w.(job := if goes then None else w.job, pc := Idle)
  {
  }

  // When a publication goes through, whosever it is: both can be seen and only the
  // source is in the catalog, and nobody has the name that the source gets.
  lemma PublishableIff(entries: Entries, source: Uuid, candidate: Remote, retired: string)
    ensures Publishable(entries, source, candidate, retired) <==>
              && source in entries && candidate.id !in entries
              && (forall asset | asset in [entries[source].asset, candidate] ::
                    asset.size.Some? && !asset.trashed && !asset.offline && asset.visibility != "hidden")
              && forall id | id in entries :: entries[id].name != retired
  {
    if source in entries {
      assert forall asset :: asset in [entries[source].asset, candidate] <==>
                             asset == entries[source].asset || asset == candidate;
    }
    forall id | id in entries ensures entries[id].name in TakenNames(entries) {}
  }

  // The step publishes exactly if that is so and the catalog does not fail.
  lemma PublishingIs(w: World, me: Uuid, in_: Input)
    requires w.run.source.Some? && w.run.again.Some?
    ensures var source, candidate, t := w.run.source.value.asset.id, w.run.again.value, AtPublishing(w, me, in_);
            var retired := if source in w.entries then Retired(w.entries, source) else None;
            if in_.localOk && retired.Some? && Publishable(w.entries, source, candidate, retired.value) then
              && t.pc == Showing && t.published == w.published + [(source, candidate.id)] && t.job == w.job
              && IsPublication(w.entries, w.nextInode, source, candidate, t.entries, t.nextInode)
            else t == w.(pc := Blocking(LocalStateFailed))
  {
    hide Publishable, Publish, IsPublication, Retired;
    var source, candidate := w.run.source.value.asset.id, w.run.again.value;
    if source in w.entries && Retired(w.entries, source).Some? {
      var retired := Retired(w.entries, source).value;
      if Publishable(w.entries, source, candidate, retired) {
        PublishIsPublication(w.entries, w.nextInode, source, candidate, retired);
      }
    }
  }
}
