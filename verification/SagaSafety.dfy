// What holds whatever the server answers, wherever the worker crashes and
// whoever else calls the queue or changes the catalog.
module SagaSafety {
  import opened Options
  import opened Manifests
  import opened Saga
  import Names

  // ----------------------------------------------------------------- traces

  predicate EndsWith(trace: seq<Event>, tail: seq<Event>) {
    |tail| <= |trace| && trace[|trace| - |tail|..] == tail
  }

  lemma EndsWithPush(trace: seq<Event>, tail: seq<Event>, e: Event)
    requires EndsWith(trace, tail)
    ensures EndsWith(trace + [e], tail + [e])
  {
  }

  lemma EndsWithNothing(trace: seq<Event>)
    ensures EndsWith(trace, [])
  {
  }

  predicate Reviewing(pc: Pc) {
    || pc == RereadSource || pc == ResumedAlbums1 || pc == ResumedAlbums2 || pc == SourceAlbums1 || pc == SourceAlbums2
    || pc == Copying || pc == SourceAlbums3 || pc == SourceAlbums4 || pc == CandidateAlbums1 || pc == CandidateAlbums2
    || pc == ConfirmSource || pc == Trashing || pc == ConfirmTrash || pc == RereadCandidate || pc == Publishing
  }

  function Saw(asset: Option<Remote>): seq<Event> {
    if asset.Some? then [SawAsset(asset.value)] else []
  }

  function SawMarkerOf(r: Run): seq<Event> {
    if r.first.Some? && r.marker.Some? then [SawMarker(r.first.value.id, r.marker.value)] else []
  }

  function SourceId(r: Run): Uuid {
    if r.source.Some? then r.source.value.asset.id else 0
  }

  function CandidateId(r: Run): Uuid {
    if r.first.Some? then r.first.value.id else 0
  }

  function Recorded(r: Run): seq<Uuid> {
    if r.job.source.Some? then r.job.source.value.albums else []
  }

  // The candidate was read with its marker, and REPLACING is durable.
  function Reviewed(r: Run): seq<Event> {
    Saw(r.first) + SawMarkerOf(r) + [MadeReplacing]
  }

  // Then the source was read.
  function SeenTail(r: Run): seq<Event> {
    Reviewed(r) + Saw(r.seen)
  }

  // Then its albums, twice, both times those that were recorded; and they were
  // copied to the candidate.
  function CopiedTail(r: Run): seq<Event> {
    SeenTail(r) + [SawAlbums(SourceId(r), Recorded(r))] + [SawAlbums(SourceId(r), Recorded(r))]
    + [SentCopy(SourceId(r), CandidateId(r))]
  }

  // Everything that has to come before a trash request: after the copy the
  // albums of both were read twice, all of them the recorded ones, and the
  // source once more.
  function TrashTail(r: Run): seq<Event> {
    CopiedTail(r) + [SawAlbums(SourceId(r), Recorded(r))] + [SawAlbums(SourceId(r), Recorded(r))]
    + [SawAlbums(CandidateId(r), Recorded(r))] + [SawAlbums(CandidateId(r), Recorded(r))]
    + Saw(r.confirmed)
  }

  // What the trace of a run ends with at each of its points.
  function TailOf(pc: Pc, r: Run): seq<Event> {
    match pc
    case ReadMarker => Saw(r.first)
    case StartReplacing => Saw(r.first) + SawMarkerOf(r)
    case RereadSource => Reviewed(r)
    case ResumedAlbums1 => SeenTail(r)
    case ResumedAlbums2 => SeenTail(r) + [SawAlbums(CandidateId(r), r.album1)]
    case SourceAlbums1 => SeenTail(r)
    case SourceAlbums2 => SeenTail(r) + [SawAlbums(SourceId(r), r.album1)]
    case Copying => SeenTail(r) + [SawAlbums(SourceId(r), Recorded(r))] + [SawAlbums(SourceId(r), Recorded(r))]
    case SourceAlbums3 => CopiedTail(r)
    case SourceAlbums4 => CopiedTail(r) + [SawAlbums(SourceId(r), r.album1)]
    case CandidateAlbums1 => CopiedTail(r) + [SawAlbums(SourceId(r), r.album1)] + [SawAlbums(SourceId(r), r.album2)]
    case CandidateAlbums2 =>
      CopiedTail(r) + [SawAlbums(SourceId(r), r.album1)] + [SawAlbums(SourceId(r), r.album2)]
      + [SawAlbums(CandidateId(r), r.album3)]
    case ConfirmSource =>
      CopiedTail(r) + [SawAlbums(SourceId(r), r.album1)] + [SawAlbums(SourceId(r), r.album2)]
      + [SawAlbums(CandidateId(r), r.album3)] + [SawAlbums(CandidateId(r), r.album4)]
    case Trashing => TrashTail(r)
    case ConfirmTrash => [SentTrash(SourceId(r))]
    case _ => []
  }

  predicate TailOk(w: World) {
    match w.pc
    case RereadCandidate => TrashedBefore(w.run, w.trace)
    case Publishing =>
      && w.trace != [] && [w.trace[|w.trace| - 1]] == Saw(w.run.again)
      && TrashedBefore(w.run, w.trace[..|w.trace| - 1])
    case _ => EndsWith(w.trace, TailOf(w.pc, w.run))
  }

  // The source was seen in the trash: either right after a trash request, or by
  // a run that found it there and read the candidate's albums twice.
  predicate TrashedBefore(r: Run, trace: seq<Event>) {
    || EndsWith(trace, [SentTrash(SourceId(r))] + Saw(r.seen))
    || EndsWith(trace, SeenTail(r) + [SawAlbums(CandidateId(r), Recorded(r))]
                       + [SawAlbums(CandidateId(r), Recorded(r))])
  }

  // ------------------------------------------------------------ what is known

  predicate SeenOk(w: World) {
    && (Reviewing(w.pc) && w.pc != RereadSource ==> w.run.seen.Some?)
    && (w.pc == ResumedAlbums1 || w.pc == ResumedAlbums2 || w.pc == RereadCandidate || w.pc == Publishing ==>
          w.run.seen.Some? && w.run.seen.value.trashed && w.run.job.source.Some?
          && SourceMatches(w.run.job, w.run.seen.value, true))
  }

  // What the values that were read have been checked for.
  predicate ChecksOk(w: World, me: Uuid)
    requires Shaped(w)
  {
    var r := w.run;
    && (Reviewing(w.pc) || w.pc == StartReplacing ==>
          && UploadMatches(r.job, me, r.first.value, r.marker.value)
          && CandidateMatches(r.source.value.asset, r.first.value))
    && SeenOk(w)
    && (w.pc == Trashing ==> r.confirmed.Some? && SourceMatches(r.job, r.confirmed.value, false))
    && (w.pc == Publishing ==>
          && UploadMatches(r.job, me, r.again.value, r.marker.value)
          && CandidateMatches(r.source.value.asset, r.again.value))
  }

  // A replacement that was not attempted yet, with the source's own content.
  predicate JustLikeSource(r: Run) {
    && r.job.state == Pending && r.job.operation == Replacement && r.job.candidate == None && r.job.attempts == 0
    && r.source.Some? && SameManagedChecksum(r.job, r.source.value.asset)
  }

  // The durable manifest behind each point of a run.
  predicate StateOk(w: World) {
    var m := w.run.job;
    match w.pc
    case Cancelling => JustLikeSource(w.run)
    case Uploading => m.state == Attempting
    case Recording => m.state == Attempting
    case ReadCandidate => m.state == Attempting || m.state == Replacing
    case ReadMarker => m.state == Attempting || m.state == Replacing
    case AddLocally => m.operation == Ordinary && (m.state == Attempting || m.state == Replacing)
    case StartReplacing => m.state == Attempting || m.state == Replacing
    case Admitting => m.state == Attempting
    case Showing => m.state == Replacing || (m.operation == Ordinary && m.state == Attempting)
    case Pinning => m.state == Replacing
    case Committing => m.state == Replacing || (m.operation == Ordinary && m.state == Attempting)
    case Removing => m.state == Committed
    case _ => Reviewing(w.pc) ==> m.state == Replacing && m.verified
  }

  predicate Taken(m: Manifest) {
    m.state == Attempting || m.state == Replacing
  }

  // While a run works on an attempt nobody else changes the manifest; before
  // that, whoever changes it gives it another revision.
  predicate Synced(w: World) {
    w.pc != Idle ==>
      if w.run.job.state == Pending then
        w.job == None || w.job.value == w.run.job || w.job.value.revision > w.run.job.revision
      else (Taken(w.run.job) || w.run.job.state == Committed) && w.job == Some(w.run.job)
  }

  predicate JobsOk(w: World) {
    (w.job.Some? ==> Inv(w.job.value) && w.job.value.state != Cancelled) && (w.pc != Idle ==> Inv(w.run.job))
  }

  predicate Holding(pc: Pc) {
    || Reviewing(pc) || pc == ReadSource || pc == TakeAttempt || pc == Admitting || pc == Uploading || pc == Recording
    || pc == ReadCandidate || pc == ReadMarker || pc == StartReplacing || pc == Cancelling
  }

  // The catalog's row of the source is what the run found under the lock.
  predicate SourceHeld(w: World) {
    Holding(w.pc) && w.run.job.operation == Replacement ==>
      && w.run.source.Some? && w.run.job.source.Some?
      && var s := w.run.job.source.value;
         && w.run.source.value.asset.id == s.asset && s.asset in w.entries && w.entries[s.asset] == w.run.source.value
         && w.entries[s.asset].inode == s.inode && w.entries[s.asset].name == s.name
  }

  predicate CandidateHeld(w: World) {
    && (w.pc == ReadMarker || w.pc == StartReplacing || w.pc == AddLocally || Reviewing(w.pc) ==>
          w.run.first.Some? && w.run.job.candidate == Some(w.run.first.value.id))
    && (w.pc == Publishing ==> w.run.again.Some? && w.run.job.candidate == Some(w.run.again.value.id))
  }

  // The publications there were, and what the catalog shows of them.
  predicate HistoryOk(m: Manifest, published: seq<(Uuid, Uuid)>, entries: Entries, next: int) {
    && (published != [] ==>
          && m.operation == Replacement && m.source.Some? && m.candidate.Some?
          && forall p | p in published :: p == (m.source.value.asset, m.candidate.value))
    && (m.operation == Replacement && m.source.Some? ==>
          m.source.value.inode < next && (published == [] ==> !InSourcesPlace(m, entries)))
    && (m.state == Committed && m.operation == Replacement ==> published != [])
  }

  predicate PublicationsOk(w: World) {
    && (w.job.Some? ==> HistoryOk(w.job.value, w.published, w.entries, w.nextInode))
    && (Late(w) ==> w.published != [])
  }

  predicate Late(w: World) {
    w.run.job.operation == Replacement && (w.pc == Showing || w.pc == Pinning || w.pc == Committing)
  }

  predicate SagaInv(w: World, me: Uuid) {
    && Shaped(w) && JobsOk(w) && StateOk(w) && Synced(w) && CatalogOk(w.entries, w.nextInode)
    && SourceHeld(w) && CandidateHeld(w) && ChecksOk(w, me) && TailOk(w) && PublicationsOk(w)
  }

  // -------------------------------------------------------- what calls keep

  // What no call of the worker changes.
  predicate SameJob(m: Manifest, n: Manifest) {
    && n.owner == m.owner && n.size == m.size && n.sha1 == m.sha1 && n.operation == m.operation && n.source == m.source
    && n.name == m.name && (m.candidate.Some? ==> n.candidate == m.candidate)
  }

  lemma SameJobMatches(m: Manifest, n: Manifest, me: Uuid)
    requires SameJob(m, n)
    ensures forall asset, marker :: UploadMatches(m, me, asset, marker) == UploadMatches(n, me, asset, marker)
    ensures m.source.Some? ==> forall asset, allow :: SourceMatches(m, asset, allow) == SourceMatches(n, asset, allow)
  {
  }

  lemma InvShape(m: Manifest)
    requires Inv(m)
    ensures m.operation == Replacement ==> m.source.Some?
    ensures m.candidate.Some? ==> m.attempts >= 1
    ensures m.state == Replacing ==> m.verified && m.candidate.Some? && m.operation == Replacement
    ensures m.state == Pending ==> m.candidate == None
  {
    hide SafeName, ValidSource;
  }

  lemma AttemptFacts(m: Manifest, revision: int)
    requires Inv(m) && Attempt(m, Some(revision)).Succeeds()
    ensures var n := After(m, Attempt(m, Some(revision)));
            SameJob(m, n) && n.state == Attempting && n.candidate == m.candidate && m.revision == revision && Inv(n)
  {
    hide Inv, Valid;
    CallKeepsInv(m, OpAttempt(Some(revision)));
    assert Manifests.Next(m, OpAttempt(Some(revision))) == After(m, Attempt(m, Some(revision)));
  }

  lemma AdmitFacts(m: Manifest, provisional: Manifest)
    requires Inv(m) && Admit(m, provisional).Succeeds()
    ensures var n := After(m, Admit(m, provisional));
            SameJob(m, n) && n.state == m.state && n.candidate == m.candidate && Inv(n)
  {
    hide Inv, Valid;
    CallKeepsInv(m, OpAdmit(provisional));
    assert Manifests.Next(m, OpAdmit(provisional)) == After(m, Admit(m, provisional));
  }

  lemma RecordFacts(m: Manifest, candidate: Uuid)
    requires Inv(m) && RecordCandidate(m, candidate).Succeeds()
    ensures var n := After(m, RecordCandidate(m, candidate));
            SameJob(m, n) && n.state == Attempting && n.candidate == Some(candidate) && Inv(n)
  {
    hide Inv, Valid;
    CallKeepsInv(m, OpRecordCandidate(candidate));
    assert Manifests.Next(m, OpRecordCandidate(candidate)) == After(m, RecordCandidate(m, candidate));
  }

  lemma ReplacingFacts(m: Manifest)
    requires Inv(m) && BeginReplacing(m).Succeeds()
    ensures var n := After(m, BeginReplacing(m));
            SameJob(m, n) && n.state == Replacing && n.verified && n.candidate == m.candidate && Inv(n)
  {
    hide Inv, Valid;
    CallKeepsInv(m, OpBeginReplacing);
    InvShape(m);
    assert Manifests.Next(m, OpBeginReplacing) == After(m, BeginReplacing(m));
  }

  lemma CommitFacts(m: Manifest)
    requires Inv(m) && Commit(m).Succeeds()
    ensures var n := After(m, Commit(m));
            SameJob(m, n) && n.state == Committed && n.candidate == m.candidate && Inv(n)
  {
    hide Inv, Valid;
    CallKeepsInv(m, OpCommit);
    assert Manifests.Next(m, OpCommit) == After(m, Commit(m));
  }

  lemma BlockFacts(m: Manifest, code: ErrorCode)
    requires Inv(m)
    ensures var n := After(m, Block(m, code));
            SameJob(m, n) && n.candidate == m.candidate && Inv(n)
              && (n.state == Committed || n.state == Cancelled ==> n == m)
  {
    hide Inv, Valid;
    CallKeepsInv(m, OpBlock(code));
    assert Manifests.Next(m, OpBlock(code)) == After(m, Block(m, code));
  }

  lemma RetryFacts(m: Manifest, at: int, error: Option<ErrorCode>, wanted: Option<int>)
    requires Inv(m)
    ensures var n := After(m, Retry(m, at, error, wanted));
            && SameJob(m, n) && n.candidate == m.candidate && Inv(n)
            && (n.state == Committed || n.state == Cancelled ==> n == m)
            && (n != m ==> n.revision > m.revision)
  {
    hide Inv, Valid;
    CallKeepsInv(m, OpRetry(at, error, wanted));
    assert Manifests.Next(m, OpRetry(at, error, wanted)) == After(m, Retry(m, at, error, wanted));
  }

  // -------------------------------------------------------------- invariance

  // The run moves on, or ends, and nothing durable changes.
  predicate SameCore(w: World, v: World) {
    && v.job == w.job && v.entries == w.entries && v.nextInode == w.nextInode && v.published == w.published
    && v.run.job == w.run.job
  }

  predicate Leaving(pc: Pc) {
    pc == Idle || pc.Blocking? || pc.Retrying?
  }

  lemma NoTail(v: World)
    requires Leaving(v.pc) || v.pc == Begin || v.pc == Removing
    ensures TailOk(v)
  {
    EndsWithNothing(v.trace);
    hide EndsWith;
  }

  lemma LeavingOk(v: World, me: Uuid)
    requires Leaving(v.pc) && (v.run.job.operation == Replacement ==> v.run.job.source.Some?)
    ensures LocalOk(v, me)
  {
    NoTail(v);
    hide TailOk;
  }

  lemma Leave(w: World, v: World, me: Uuid)
    requires SagaInv(w, me) && w.pc != Idle && SameCore(w, v) && Leaving(v.pc)
    ensures SagaInv(v, me)
  {
    hide CandidateHeld, CatalogOk, ChecksOk, HistoryOk, Inv, LocalOk, SagaInv, Shaped, SourceHeld, StateOk, TailOk,
         Taken;
    Parts(w, me);
    AllParts(w, me);
    LeavingOk(v, me);
    AssembleInv(v, me);
  }

  predicate LocalOk(w: World, me: Uuid) {
    Shaped(w) && StateOk(w) && SourceHeld(w) && CandidateHeld(w) && ChecksOk(w, me) && TailOk(w)
  }

  lemma Advance(w: World, v: World, me: Uuid)
    requires SagaInv(w, me) && w.pc != Idle && v.pc != Idle && SameCore(w, v)
    requires LocalOk(v, me) && (Late(v) ==> v.published != [])
    ensures SagaInv(v, me)
  {
    hide Inv, CatalogOk, Shaped, StateOk, SourceHeld, CandidateHeld, ChecksOk, TailOk, HistoryOk;
  }

  lemma FailStops<T>(w: World, reply: Saga.Reply<T>)
    ensures Leaving(Fail(w, reply).pc) && SameCore(w, Fail(w, reply))
  {
  }

  // A point of a run that has nothing to remember.
  predicate Plain(pc: Pc) {
    pc == Begin || pc == CheckLocal || pc == Cancelling || pc == TakeAttempt || pc == Uploading || pc == Admitting
  }

  lemma PlainOk(v: World, me: Uuid)
    requires Plain(v.pc) && (v.run.job.operation == Replacement ==> v.run.job.source.Some?)
    requires v.pc == CheckLocal ==> v.run.job.operation == Replacement
    requires v.pc == Admitting || v.pc == Uploading ==> v.run.job.state == Attempting
    requires v.pc == Cancelling ==> JustLikeSource(v.run)
    requires SourceHeld(v)
    ensures LocalOk(v, me)
  {
    hide SourceHeld, JustLikeSource;
  }

  lemma Parts(w: World, me: Uuid)
    requires SagaInv(w, me) && w.pc != Idle
    ensures Inv(w.run.job) && Synced(w) && SourceHeld(w) && CandidateHeld(w) && StateOk(w) && Shaped(w)
    ensures w.run.job.operation == Replacement ==> w.run.job.source.Some?
    ensures w.job.Some? ==> Inv(w.job.value) && HistoryOk(w.job.value, w.published, w.entries, w.nextInode)
    ensures CatalogOk(w.entries, w.nextInode) && (Late(w) ==> w.published != [])
    ensures ChecksOk(w, me) && TailOk(w)
  {
    hide Inv, HistoryOk, Synced, SourceHeld, CandidateHeld, StateOk, CatalogOk, ChecksOk, TailOk;
  }

  lemma BeginInvariant(w: World, me: Uuid, in_: Input)
    requires SagaInv(w, me) && w.pc == Begin
    ensures SagaInv(AtBegin(w, me, in_), me)
  {
    hide SagaInv, Inv, LocalOk, HistoryOk, Synced, CandidateHeld, StateOk, Shaped, CatalogOk, ChecksOk, TailOk;
    var v := AtBegin(w, me, in_);
    Parts(w, me);
    InvShape(w.run.job);
    if Leaving(v.pc) {
      Leave(w, v, me);
    } else if v.pc == ReadCandidate {
      assert false;
    } else {
      PlainOk(v, me);
      Advance(w, v, me);
    }
  }

  lemma ShowingOk(v: World, me: Uuid)
    requires v.pc == Showing || v.pc == Pinning || v.pc == Committing
    requires v.run.job.operation == Replacement ==> v.run.job.source.Some?
    requires v.run.job.state == Replacing
             || (v.run.job.operation == Ordinary && v.run.job.state == Attempting && v.pc != Pinning)
    ensures LocalOk(v, me)
  {
  }

  lemma CheckLocalInvariant(w: World, me: Uuid, in_: Input)
    requires SagaInv(w, me) && w.pc == CheckLocal && w.run.job.source.Some?
    ensures SagaInv(AtCheckLocal(w, me, in_), me)
  {
    hide SagaInv, Inv, LocalOk, HistoryOk, Synced, CandidateHeld, StateOk, Shaped, CatalogOk, UploadMatches,
         CandidateMatches, SourceMatches, ChecksOk, TailOk;
    var v := AtCheckLocal(w, me, in_);
    Parts(w, me);
    InvShape(w.run.job);
    if Leaving(v.pc) {
      Leave(w, v, me);
    } else if v.pc == Showing {
      FoundPublished(w, me);
      ShowingOk(v, me);
      Advance(w, v, me);
    } else {
      ReadSourceOk(w, v, me);
      Advance(w, v, me);
    }
  }

  lemma ReadSourceOk(w: World, v: World, me: Uuid)
    requires SagaInv(w, me) && w.pc == CheckLocal && w.run.job.source.Some? && LocalSourceOk(w.run.job, w.entries)
    requires v == w.(run := w.run.(source := Some(w.entries[w.run.job.source.value.asset])), pc := ReadSource)
    ensures LocalOk(v, me)
  {
    hide Inv, UploadMatches, CandidateMatches, SourceMatches, HistoryOk;
  }

  // The catalog only shows the candidate under the source's old name after a
  // publication: nothing else renames the source.
  lemma FoundPublished(w: World, me: Uuid)
    requires SagaInv(w, me) && w.pc == CheckLocal && w.run.job.source.Some?
             && AlreadyPublished(w.run.job, me, w.entries)
    ensures w.published != []
  {
    hide Inv, UploadMatches, CandidateMatches, SourceMatches, TailOk, ChecksOk, StateOk;
  }

  lemma ReadSourceInvariant(w: World, me: Uuid, in_: Input)
    requires SagaInv(w, me) && w.pc == ReadSource && w.run.job.source.Some? && w.run.source.Some?
    ensures SagaInv(AtReadSource(w, me, in_), me)
  {
    hide SagaInv, Inv, LocalOk, HistoryOk, Synced, CandidateHeld, StateOk, Shaped, CatalogOk, UploadMatches,
         CandidateMatches, SourceMatches, ChecksOk, TailOk, SameManagedChecksum;
    var v := AtReadSource(w, me, in_);
    Parts(w, me);
    InvShape(w.run.job);
    if Leaving(v.pc) {
      Leave(w, v, me);
    } else if v.pc == ReadCandidate {
      ReadCandidateOk(v, me);
      Advance(w, v, me);
    } else {
      ReplacementReads(w);
      PlainOk(v, me);
      Advance(w, v, me);
    }
  }

  lemma ReplacementReads(w: World)
    requires w.pc == ReadSource && Shaped(w)
    ensures w.run.job.operation == Replacement
  {
  }

  lemma ReadCandidateOk(v: World, me: Uuid)
    requires v.pc == ReadCandidate && (v.run.job.operation == Replacement ==> v.run.job.source.Some?)
    requires v.run.job.state == Attempting || v.run.job.state == Replacing
    requires v.run.job.candidate.Some? && SourceHeld(v)
    ensures LocalOk(v, me)
  {
    hide SourceHeld;
  }

  lemma CancellingInvariant(w: World, me: Uuid, in_: Input)
    requires SagaInv(w, me) && w.pc == Cancelling
    ensures SagaInv(AtCancelling(w, me, in_), me)
  {
    hide SagaInv, Inv, Cancel;
    var v := AtCancelling(w, me, in_);
    if w.job.Some? && Cancel(w.job.value, w.run.job.name, w.run.job.revision).Written? {
      GoneOk(w, v, me);
    } else {
      Leave(w, v, me);
    }
  }

  lemma GoneOk(w: World, v: World, me: Uuid)
    requires SagaInv(w, me) && v.pc == Idle && v.job == None && v.run.job == w.run.job && v.entries == w.entries
    requires v.nextInode == w.nextInode
    ensures SagaInv(v, me)
  {
    hide Inv, CatalogOk, UploadMatches, SourceMatches, CandidateMatches, TailOk, HistoryOk;
    NoTail(v);
  }

  // ----------------------------------------------------------- queue calls

  lemma HistoryGoesOn(m: Manifest, n: Manifest, published: seq<(Uuid, Uuid)>, entries: Entries, next: int)
    requires HistoryOk(m, published, entries, next) && SameJob(m, n)
    requires n.state == Committed && n.operation == Replacement ==> published != []
    requires n.candidate == m.candidate || n.operation == Ordinary || !InSourcesPlace(n, entries)
    ensures HistoryOk(n, published, entries, next)
  {
  }

  // A queue call of the worker that succeeds, and the run goes on with it.
  lemma StoredInvariant(w: World, v: World, me: Uuid, m: Manifest)
    requires SagaInv(w, me) && w.pc != Idle && w.job.Some? && Inv(m) && SameJob(w.job.value, m)
    requires v.job == Some(m) && v.run.job == m && v.entries == w.entries && v.nextInode == w.nextInode
    requires v.published == w.published && v.pc != Idle && (Taken(m) || m.state == Committed)
    requires LocalOk(v, me) && (Late(v) ==> v.published != [])
    requires m.state == Committed && m.operation == Replacement ==> v.published != []
    requires m.candidate == w.job.value.candidate || m.operation == Ordinary || !InSourcesPlace(m, w.entries)
    ensures SagaInv(v, me)
  {
    hide SagaInv, Inv, InSourcesPlace, CatalogOk, HistoryOk, UploadMatches, SourceMatches, CandidateMatches, EndsWith,
         TrashedBefore, SameJob, StateOk, SourceHeld, CandidateHeld, ChecksOk, TailOk, Shaped;
    Parts(w, me);
    HistoryGoesOn(w.job.value, m, w.published, w.entries, w.nextInode);
    AssembleInv(v, me);
  }

  lemma AssembleInv(v: World, me: Uuid)
    requires LocalOk(v, me) && JobsOk(v) && Synced(v) && CatalogOk(v.entries, v.nextInode) && PublicationsOk(v)
    ensures SagaInv(v, me)
  {
    hide Shaped, StateOk, SourceHeld, CandidateHeld, ChecksOk, TailOk, JobsOk, Synced, CatalogOk, PublicationsOk;
  }

  lemma TakeAttemptInvariant(w: World, me: Uuid, in_: Input)
    requires SagaInv(w, me) && w.pc == TakeAttempt
    ensures SagaInv(AtTakeAttempt(w, me, in_), me)
  {
    hide SagaInv, Inv, LocalOk, HistoryOk, CandidateHeld, StateOk, Shaped, CatalogOk, ChecksOk, TailOk, SameJob,
         Attempt;
    Parts(w, me);
    var v := AtTakeAttempt(w, me, in_);
    if w.job.Some? && Attempt(w.job.value, Some(w.run.job.revision)).Succeeds() {
      AttemptFacts(w.job.value, w.run.job.revision);
      assert w.job.value == w.run.job;
      SourceStays(w, v);
      InvShape(v.run.job);
      PlainOk(v, me);
      StoredInvariant(w, v, me, v.run.job);
    } else {
      Leave(w, v, me);
    }
  }

  lemma SourceStays(w: World, v: World)
    requires SourceHeld(w) && Holding(w.pc) && SameJob(w.run.job, v.run.job)
    requires v.run.source == w.run.source && v.entries == w.entries
    ensures SourceHeld(v)
  {
  }

  lemma AdmittingInvariant(w: World, me: Uuid, in_: Input)
    requires SagaInv(w, me) && w.pc == Admitting
    ensures SagaInv(AtAdmitting(w, me, in_), me)
  {
    hide SagaInv, Inv, LocalOk, HistoryOk, CandidateHeld, Shaped, CatalogOk, ChecksOk, TailOk, SameJob, Admit;
    Parts(w, me);
    var v := AtAdmitting(w, me, in_);
    if w.job.Some? && Admit(w.job.value, w.run.job).Succeeds() {
      AdmitFacts(w.job.value, w.run.job);
      SourceStays(w, v);
      InvShape(v.run.job);
      if v.pc == Uploading { PlainOk(v, me); } else { ReadCandidateOk(v, me); }
      StoredInvariant(w, v, me, v.run.job);
    } else {
      Leave(w, v, me);
    }
  }

  lemma UploadingInvariant(w: World, me: Uuid, in_: Input)
    requires SagaInv(w, me) && w.pc == Uploading
    ensures SagaInv(AtUploading(w, me, in_), me)
  {
    hide SagaInv, Inv, LocalOk, HistoryOk, CandidateHeld, Shaped, CatalogOk, ChecksOk, TailOk;
    Parts(w, me);
    var v := AtUploading(w, me, in_);
    if in_.upload.Ok? {
      SourceStays(w, v);
      RecordingOk(v, me);
      Advance(w, v, me);
    } else {
      Leave(w, v, me);
    }
  }

  lemma RecordingOk(v: World, me: Uuid)
    requires v.pc == Recording && (v.run.job.operation == Replacement ==> v.run.job.source.Some?)
    requires v.run.job.state == Attempting && v.run.uploaded.Some? && SourceHeld(v)
    ensures LocalOk(v, me)
  {
    hide SourceHeld;
  }

  lemma RecordingInvariant(w: World, me: Uuid, in_: Input)
    requires SagaInv(w, me) && w.pc == Recording && w.run.uploaded.Some?
    ensures SagaInv(AtRecording(w, me, in_), me)
  {
    hide SagaInv, Inv, InSourcesPlace, LocalOk, HistoryOk, CandidateHeld, Shaped, CatalogOk, ChecksOk, TailOk, SameJob,
         RecordCandidate;
    Parts(w, me);
    var v := AtRecording(w, me, in_);
    if w.job.Some? && RecordCandidate(w.job.value, w.run.uploaded.value).Succeeds() {
      RecordFacts(w.job.value, w.run.uploaded.value);
      assert w.job.value == w.run.job;
      SourceStays(w, v);
      InvShape(v.run.job);
      ReadCandidateOk(v, me);
      SourceKeepsName(w, v.run.job);
      StoredInvariant(w, v, me, v.run.job);
    } else {
      Leave(w, v, me);
    }
  }

  // While the source has its name nobody else has it.
  lemma SourceKeepsName(w: World, m: Manifest)
    requires CatalogOk(w.entries, w.nextInode) && SourceHeld(w) && Holding(w.pc) && SameJob(w.run.job, m)
    ensures m.operation == Replacement ==> !InSourcesPlace(m, w.entries)
  {
  }

  // ---------------------------------------------------------- the candidate

  lemma ReadCandidateInvariant(w: World, me: Uuid, in_: Input)
    requires SagaInv(w, me) && w.pc == ReadCandidate && w.run.job.candidate.Some?
    ensures SagaInv(AtReadCandidate(w, me, in_), me)
  {
    hide SagaInv, Inv, LocalOk, HistoryOk, Shaped, CatalogOk, ChecksOk, TailOk, EndsWith;
    Parts(w, me);
    var v := AtReadCandidate(w, me, in_);
    if Leaving(v.pc) {
      Leave(w, v, me);
    } else {
      SourceStays(w, v);
      PushTail(w, v, SawAsset(v.run.first.value));
      ReadMarkerOk(v, me);
      Advance(w, v, me);
    }
  }

  lemma ReadMarkerOk(v: World, me: Uuid)
    requires v.pc == ReadMarker && v.run.first.Some? && (v.run.job.operation == Replacement ==> v.run.job.source.Some?)
    requires v.run.job.state == Attempting || v.run.job.state == Replacing
    requires v.run.job.candidate == Some(v.run.first.value.id) && SourceHeld(v)
    requires TailOk(v)
    ensures LocalOk(v, me)
  {
    hide TailOk;
  }

  lemma ReadMarkerInvariant(w: World, me: Uuid, in_: Input)
    requires SagaInv(w, me) && w.pc == ReadMarker && w.run.first.Some?
    requires w.run.job.operation == Replacement ==> w.run.source.Some?
    ensures SagaInv(AtReadMarker(w, me, in_), me)
  {
    hide CandidateId, CandidateMatches, CatalogOk, ChecksOk, CopiedTail, Fail, HistoryOk, Inv, JustLikeSource, LocalOk,
         Recorded, Reviewed, Saga.UploadMatches, SagaInv, Saw, SeenTail, Shaped, SourceHeld, SourceId, Synced, TailOk,
         TrashTail;
    Parts(w, me);
    InvShape(w.run.job);
    FailStops(w, in_.marker);
    var v := AtReadMarker(w, me, in_);
    if Leaving(v.pc) {
      Leave(w, v, me);
    } else if v.pc == AddLocally {
      AddLocallyOk(v, me);
      Advance(w, v, me);
    } else {
      var asset := w.run.first.value;
      SourceStays(w, v);
      PushTail(w, v, SawMarker(asset.id, in_.marker.value));
      StartReplacingOk(v, me);
      Advance(w, v, me);
    }
  }

  lemma AddLocallyOk(v: World, me: Uuid)
    requires v.pc == AddLocally && v.run.first.Some? && v.run.job.operation == Ordinary
    requires v.run.job.state == Attempting || v.run.job.state == Replacing
    requires v.run.job.candidate == Some(v.run.first.value.id)
    ensures LocalOk(v, me)
  {
  }

  lemma StartReplacingOk(v: World, me: Uuid)
    requires v.pc == StartReplacing && v.run.job.operation == Replacement && v.run.job.source.Some?
    requires v.run.source.Some? && v.run.first.Some? && v.run.marker.Some?
    requires v.run.job.state == Attempting || v.run.job.state == Replacing
    requires v.run.job.candidate == Some(v.run.first.value.id) && SourceHeld(v)
    requires UploadMatches(v.run.job, me, v.run.first.value, v.run.marker.value)
    requires CandidateMatches(v.run.source.value.asset, v.run.first.value)
    requires TailOk(v)
    ensures LocalOk(v, me)
  {
    hide TailOk, UploadMatches, CandidateMatches, SourceHeld;
  }

  lemma AddLocallyInvariant(w: World, me: Uuid, in_: Input)
    requires SagaInv(w, me) && w.pc == AddLocally && w.run.first.Some?
    ensures SagaInv(AtAddLocally(w, me, in_), me)
  {
    hide SagaInv, Inv, LocalOk, HistoryOk, CatalogOk, ChecksOk, TailOk, EndsWith, UploadMatches, CandidateMatches,
         Shaped;
    Parts(w, me);
    InvShape(w.run.job);
    var v := AtAddLocally(w, me, in_);
    if v.pc != Showing {
      Leave(w, v, me);
    } else {
      assert w.run.job.operation == Ordinary by { AddingIsOrdinary(w, me); }
      AddedRowIs(w.entries, w.nextInode, w.run.job.name, w.run.first.value);
      hide AddedRow;
      ShowingOk(v, me);
      AddedCatalogOk(w, v);
      OrdinaryHistory(w.run.job, w.published, w.entries, w.nextInode, v.entries, v.nextInode);
      AssembleInv(v, me);
    }
  }

  lemma AddingIsOrdinary(w: World, me: Uuid)
    requires SagaInv(w, me) && w.pc == AddLocally
    ensures w.run.job.operation == Ordinary
  {
    hide Inv, UploadMatches, CandidateMatches, CatalogOk, HistoryOk, TailOk;
  }

  // A known asset keeps its inode, its name and its albums; a new one gets the
  // next inode and a name that nobody has, the one asked for if that is free.
  lemma AddedRowIs(entries: Entries, next: int, requested: string, asset: Remote)
    ensures AddedRow(entries, next, requested, asset).Some? ==>
              var row := AddedRow(entries, next, requested, asset).value;
              && row.asset == asset
              && (asset.id in entries ==>
                    var was := entries[asset.id];
                    row.inode == was.inode && row.name == was.name && row.albums == was.albums)
              && (asset.id !in entries ==>
                    && row.inode == next && row.albums == []
                       && (forall id | id in entries :: entries[id].name != row.name)
                    && var name := Names.SafeFilename(requested, IdText(asset.id), Names.LIMIT);
                       (forall id | id in entries :: entries[id].name != name) ==> row.name == name)
  {
    hide Names.SafeFilename, Names.CollisionName;
    var base, taken := Names.SafeFilename(requested, IdText(asset.id), Names.LIMIT), TakenNames(entries);
    Names.SearchIsFree(base, IdText(asset.id), taken, 1, |taken| + 1);
    forall id | id in entries ensures entries[id].name in taken {}
  }

  lemma AddedCatalogOk(w: World, v: World)
    requires CatalogOk(w.entries, w.nextInode) && w.run.first.Some?
    requires var asset := w.run.first.value;
             && v.nextInode == (if asset.id in w.entries then w.nextInode else w.nextInode + 1) && asset.id in v.entries
             && v.entries == w.entries[asset.id := v.entries[asset.id]]
             && v.entries[asset.id].asset == asset
             && if asset.id in w.entries then
                  v.entries[asset.id].inode == w.entries[asset.id].inode
                    && v.entries[asset.id].name == w.entries[asset.id].name
                else
                  && v.entries[asset.id].inode == w.nextInode
                  && forall id | id in w.entries :: w.entries[id].name != v.entries[asset.id].name
    ensures CatalogOk(v.entries, v.nextInode)
  {
  }

  lemma OrdinaryHistory(m: Manifest, published: seq<(Uuid, Uuid)>, entries: Entries, next: int, after: Entries,
                        nextAfter: int)
    requires HistoryOk(m, published, entries, next) && m.operation == Ordinary
    ensures HistoryOk(m, published, after, nextAfter)
  {
  }

  lemma StartReplacingInvariant(w: World, me: Uuid, in_: Input)
    requires SagaInv(w, me) && w.pc == StartReplacing
    ensures SagaInv(AtStartReplacing(w, me, in_), me)
  {
    hide SagaInv, Inv, LocalOk, HistoryOk, CatalogOk, EndsWith, UploadMatches, CandidateMatches, BeginReplacing,
         SameJob, TailOk, Shaped;
    ShapedHere(w, me);
    Parts(w, me);
    var v := AtStartReplacing(w, me, in_);
    if w.job.Some? && BeginReplacing(w.job.value).Succeeds() {
      ReplacingFacts(w.job.value);
      SourceStays(w, v);
      SameJobMatches(w.run.job, v.run.job, me);
      PushTail(w, v, MadeReplacing);
      RereadSourceOk(w, v, me);
      StoredInvariant(w, v, me, v.run.job);
    } else {
      Leave(w, v, me);
    }
  }

  lemma RereadSourceOk(w: World, v: World, me: Uuid)
    requires SagaInv(w, me) && w.pc == StartReplacing && v.pc == RereadSource
    requires v.run.first.Some? && v.run.marker.Some?
    requires v.run == w.run.(job := v.run.job) && SameJob(w.run.job, v.run.job)
             && v.run.job.candidate == w.run.job.candidate
    requires v.run.job.state == Replacing && v.run.job.verified && SourceHeld(v)
    requires UploadMatches(v.run.job, me, v.run.first.value, v.run.marker.value)
    requires TailOk(v)
    ensures LocalOk(v, me)
  {
    hide Inv, TailOk, UploadMatches, CandidateMatches, CatalogOk, HistoryOk;
  }

  // ------------------------------------------------------------- the review

  // The trace grows by one event, and so does what it is expected to end with.
  lemma PushTail(w: World, v: World, e: Event)
    requires TailOk(w) && w.pc != RereadCandidate && w.pc != Publishing && v.pc != RereadCandidate && v.pc != Publishing
    requires v.trace == w.trace + [e] && TailOf(v.pc, v.run) == TailOf(w.pc, w.run) + [e]
    ensures TailOk(v)
  {
    hide TailOf, EndsWith;
    EndsWithPush(w.trace, TailOf(w.pc, w.run), e);
  }

  predicate SameSubject(w: World, v: World) {
    v.run.source == w.run.source && v.run.first == w.run.first && v.run.marker == w.run.marker
  }

  lemma ShapedHere(w: World, me: Uuid)
    requires SagaInv(w, me) && w.pc == StartReplacing
    ensures w.run.first.Some? && w.run.marker.Some? && w.run.source.Some? && w.run.job.source.Some?
    ensures UploadMatches(w.run.job, me, w.run.first.value, w.run.marker.value)
  {
    hide Inv, UploadMatches, CandidateMatches, CatalogOk, HistoryOk, TailOk;
  }

  lemma ReviewParts(w: World, me: Uuid)
    requires SagaInv(w, me) && Reviewing(w.pc)
    ensures w.run.source.Some? && w.run.first.Some? && w.run.marker.Some? && w.run.job.source.Some?
    ensures w.run.job.state == Replacing && w.run.job.verified && w.run.job.operation == Replacement
    ensures UploadMatches(w.run.job, me, w.run.first.value, w.run.marker.value)
    ensures CandidateMatches(w.run.source.value.asset, w.run.first.value)
    ensures w.run.job.candidate == Some(w.run.first.value.id) && SeenOk(w) && TailOk(w) && SourceHeld(w)
    ensures w.run.source.value.asset.id == w.run.job.source.value.asset && w.job == Some(w.run.job)
  {
    hide Inv, UploadMatches, CandidateMatches, CatalogOk, HistoryOk, TailOk, SeenOk;
  }

  lemma ReviewOk(w: World, v: World, me: Uuid)
    requires SagaInv(w, me) && Reviewing(w.pc) && Reviewing(v.pc) && v.pc != Publishing && SameCore(w, v)
             && SameSubject(w, v)
    requires SeenOk(v) && TailOk(v)
    requires v.pc == Trashing ==>
               v.run.confirmed.Some? && v.run.job.source.Some? && SourceMatches(v.run.job, v.run.confirmed.value, false)
    ensures LocalOk(v, me)
  {
    hide SagaInv, Inv, UploadMatches, CandidateMatches, SourceMatches, CatalogOk, HistoryOk, TailOk, SourceHeld, Synced,
         SeenOk;
    ReviewParts(w, me);
    SourceStays(w, v);
  }

  // A step of the review that finds nothing wrong.
  lemma ReviewGoesOn(w: World, v: World, me: Uuid, e: Event)
    requires SagaInv(w, me) && Reviewing(w.pc) && Reviewing(v.pc) && SameCore(w, v) && SameSubject(w, v)
    requires v.pc != RereadCandidate && v.pc != Publishing && w.pc != RereadCandidate && w.pc != Publishing
    requires SeenOk(v)
    requires v.pc == Trashing ==>
               v.run.confirmed.Some? && v.run.job.source.Some? && SourceMatches(v.run.job, v.run.confirmed.value, false)
    requires v.trace == w.trace + [e] && TailOf(v.pc, v.run) == TailOf(w.pc, w.run) + [e]
    ensures SagaInv(v, me)
  {
    hide CandidateMatches, LocalOk, Saga.SourceMatches, Saga.UploadMatches, SagaInv, SameCore, SameSubject, SeenOk,
         SourceHeld, TailOf, TailOk;
    ReviewParts(w, me);
    PushTail(w, v, e);
    ReviewOk(w, v, me);
    Advance(w, v, me);
  }

  lemma RereadSourceInvariant(w: World, me: Uuid, in_: Input)
    requires SagaInv(w, me) && w.pc == RereadSource && w.run.source.Some? && w.run.job.source.Some?
    ensures SagaInv(AtRereadSource(w, me, in_), me)
  {
    hide CandidateId, CopiedTail, ReadingSource, Recorded, Saga.SourceMatches, SagaInv, SourceId, TrashTail;
    var v := AtRereadSource(w, me, in_);
    if Leaving(v.pc) {
      Leave(w, v, me);
    } else {
      ReviewGoesOn(w, v, me, SawAsset(v.run.seen.value));
    }
  }

  // A step that reads one album list and does not look at it yet.
  lemma ListInvariant(w: World, me: Uuid, in_: Input, id: Uuid, which: nat, pc: Pc)
    requires SagaInv(w, me) && (1 <= which <= 4)
    requires || (w.pc == ResumedAlbums1 && which == 1 && pc == ResumedAlbums2 && id == CandidateId(w.run))
             || (w.pc == SourceAlbums1 && which == 1 && pc == SourceAlbums2 && id == SourceId(w.run))
             || (w.pc == SourceAlbums3 && which == 1 && pc == SourceAlbums4 && id == SourceId(w.run))
             || (w.pc == SourceAlbums4 && which == 2 && pc == CandidateAlbums1 && id == SourceId(w.run))
             || (w.pc == CandidateAlbums1 && which == 3 && pc == CandidateAlbums2 && id == CandidateId(w.run))
             || (w.pc == CandidateAlbums2 && which == 4 && pc == ConfirmSource && id == CandidateId(w.run))
    ensures SagaInv(ReadAlbums(w, in_, id, which, pc), me)
  {
    hide CandidateId, CandidateMatches, CopiedTail, Fail, Recorded, Reviewed, Saga.SourceMatches, Saga.UploadMatches,
         SagaInv, Saw, SawMarkerOf, SeenTail, SourceHeld, SourceId, TailOk, TrashTail;
    var v := ReadAlbums(w, in_, id, which, pc);
    if in_.albums.Ok? {
      ReviewParts(w, me);
      SameTails(w, v);
      ReviewGoesOn(w, v, me, SawAlbums(id, in_.albums.value));
    } else {
      FailStops(w, in_.albums);
      Leave(w, v, me);
    }
  }

  lemma SameTails(w: World, v: World)
    requires SameSubject(w, v) && v.run.seen == w.run.seen && v.run.job == w.run.job
    ensures SeenTail(v.run) == SeenTail(w.run) && Recorded(v.run) == Recorded(w.run)
    ensures SourceId(v.run) == SourceId(w.run) && CandidateId(v.run) == CandidateId(w.run)
    ensures CopiedTail(v.run) == CopiedTail(w.run)
  {
  }

  function SecondList(w: World, id: Uuid, list: seq<Uuid>, pc: Pc): World {
    Said(w, SawAlbums(id, list)).(run := w.run.(album2 := list), pc := pc)
  }

  // The second list of a pair does not come, or is not the first or not the
  // recorded one; or the run goes on.
  lemma CheckedAlbums(w: World, in_: Input, id: Uuid, pc: Pc)
    requires !Leaving(pc)
    ensures var v := CheckAlbums(ReadAlbums(w, in_, id, 2, pc), pc);
            || (Leaving(v.pc) && SameCore(w, v))
            || (&& in_.albums.Ok? && w.run.album1 == in_.albums.value == Albums(w)
                && v == SecondList(w, id, in_.albums.value, pc))
  {
    hide Fail;
    FailStops(w, in_.albums);
    if in_.albums.Ok? {
      assert ReadAlbums(w, in_, id, 2, pc) == SecondList(w, id, in_.albums.value, pc);
    }
  }

  lemma SourceCheckTail(w: World, v: World)
    requires w.pc == SourceAlbums2 && w.run.album1 == Albums(w)
    requires v == SecondList(w, SourceId(w.run), Albums(w), Copying)
    ensures TailOf(v.pc, v.run) == TailOf(w.pc, w.run) + [SawAlbums(SourceId(w.run), Albums(w))]
    ensures SameSubject(w, v) && SameCore(w, v) && (SeenOk(w) ==> SeenOk(v))
  {
    hide SeenTail, SourceId, CandidateId, SourceMatches;
    SameTails(w, v);
  }

  lemma SourceCheckInvariant(w: World, me: Uuid, in_: Input)
    requires SagaInv(w, me) && w.pc == SourceAlbums2
    ensures SagaInv(CheckAlbums(ReadAlbums(w, in_, SourceId(w.run), 2, Copying), Copying), me)
  {
    hide CandidateMatches, Saga.Albums, Saga.CheckAlbums, Saga.ReadAlbums, Saga.SourceMatches, Saga.UploadMatches,
         SagaInv, SameCore, SameSubject, SeenOk, SourceHeld, SourceId, TailOf, TailOk;
    var v := CheckAlbums(ReadAlbums(w, in_, SourceId(w.run), 2, Copying), Copying);
    CheckedAlbums(w, in_, SourceId(w.run), Copying);
    if Leaving(v.pc) {
      Leave(w, v, me);
    } else {
      ReviewParts(w, me);
      SourceCheckTail(w, v);
      ReviewGoesOn(w, v, me, SawAlbums(SourceId(w.run), Albums(w)));
    }
  }

  lemma ResumedCheckTail(w: World, v: World)
    requires w.pc == ResumedAlbums2 && w.run.album1 == Albums(w) && TailOk(w)
    requires v == SecondList(w, CandidateId(w.run), Albums(w), RereadCandidate)
    ensures TailOk(v) && SameSubject(w, v) && SameCore(w, v) && (SeenOk(w) ==> SeenOk(v))
  {
    hide SeenTail, SourceId, CandidateId, SourceMatches, EndsWith;
    EndsWithPush(w.trace, TailOf(w.pc, w.run), SawAlbums(CandidateId(w.run), Albums(w)));
    SameTails(w, v);
  }

  lemma ResumedCheckInvariant(w: World, me: Uuid, in_: Input)
    requires SagaInv(w, me) && w.pc == ResumedAlbums2
    ensures SagaInv(CheckAlbums(ReadAlbums(w, in_, CandidateId(w.run), 2, RereadCandidate), RereadCandidate), me)
  {
    hide CandidateId, CandidateMatches, LocalOk, Saga.Albums, Saga.CheckAlbums, Saga.ReadAlbums, Saga.SourceMatches,
         Saga.UploadMatches, SagaInv, SameCore, SameSubject, SeenOk, SourceHeld, TailOk;
    var v := CheckAlbums(ReadAlbums(w, in_, CandidateId(w.run), 2, RereadCandidate), RereadCandidate);
    CheckedAlbums(w, in_, CandidateId(w.run), RereadCandidate);
    if Leaving(v.pc) {
      Leave(w, v, me);
    } else {
      ReviewParts(w, me);
      ResumedCheckTail(w, v);
      ReviewOk(w, v, me);
      Advance(w, v, me);
    }
  }

  lemma CopyingInvariant(w: World, me: Uuid, in_: Input)
    requires SagaInv(w, me) && w.pc == Copying && w.run.source.Some? && w.run.first.Some?
    ensures SagaInv(AtCopying(w, me, in_), me)
  {
    hide CandidateMatches, Recorded, Reviewed, Saga.SourceMatches, Saga.UploadMatches, SagaInv, Saw, SawMarkerOf,
         SeenTail, SourceHeld, TailOk, TrashTail;
    var v := AtCopying(w, me, in_);
    if Leaving(v.pc) {
      Leave(w, v, me);
    } else {
      ReviewParts(w, me);
      ReviewGoesOn(w, v, me, SentCopy(SourceId(w.run), CandidateId(w.run)));
    }
  }

  lemma ConfirmedSource(w: World, me: Uuid, in_: Input)
    requires w.run.job.source.Some? && w.run.source.Some?
    ensures var v := AtConfirmSource(w, me, in_);
            || (Leaving(v.pc) && SameCore(w, v))
            || (&& in_.asset.Ok? && SourceMatches(w.run.job, in_.asset.value, false)
                && w.run.album1 == w.run.album2 == w.run.album3 == w.run.album4 == Albums(w)
                && v == Said(w, SawAsset(in_.asset.value)).(run := w.run.(confirmed := Some(in_.asset.value)),
                   pc := Trashing))
  {
    hide SourceMatches, Fail;
    FailStops(w, ReadingSource(w, in_));
  }

  lemma ConfirmSourceTail(w: World, v: World, asset: Remote)
    requires w.pc == ConfirmSource && w.run.album1 == w.run.album2 == w.run.album3 == w.run.album4 == Albums(w)
    requires v == Said(w, SawAsset(asset)).(run := w.run.(confirmed := Some(asset)), pc := Trashing)
    ensures TailOf(v.pc, v.run) == TailOf(w.pc, w.run) + [SawAsset(asset)]
    ensures SameSubject(w, v) && SameCore(w, v) && (SeenOk(w) ==> SeenOk(v))
  {
    hide SeenTail, SourceId, CandidateId, CopiedTail, SourceMatches;
    SameTails(w, v);
  }

  // The source's and the candidate's albums were each read twice after the copy;
  // only if all four lists are the recorded one is the source trashed.
  lemma ConfirmSourceInvariant(w: World, me: Uuid, in_: Input)
    requires SagaInv(w, me) && w.pc == ConfirmSource && w.run.source.Some? && w.run.job.source.Some?
    ensures SagaInv(AtConfirmSource(w, me, in_), me)
  {
    hide CandidateMatches, Saga.Albums, Saga.AtConfirmSource, Saga.SourceMatches, Saga.UploadMatches, SagaInv, SameCore,
         SameSubject, SeenOk, SourceHeld, TailOf, TailOk;
    var v := AtConfirmSource(w, me, in_);
    ConfirmedSource(w, me, in_);
    if Leaving(v.pc) {
      Leave(w, v, me);
    } else {
      ReviewParts(w, me);
      ConfirmSourceTail(w, v, in_.asset.value);
      ReviewGoesOn(w, v, me, SawAsset(in_.asset.value));
    }
  }

  // ------------------------------------------------------ trash and publish

  lemma TrashingInvariant(w: World, me: Uuid, in_: Input)
    requires SagaInv(w, me) && w.pc == Trashing && w.run.source.Some?
    ensures SagaInv(AtTrashing(w, me, in_), me)
  {
    hide CandidateId, CandidateMatches, CopiedTail, EndsWith, LocalOk, Recorded, Reviewed, Saga.SourceMatches,
         Saga.UploadMatches, SagaInv, Saw, SawMarkerOf, SeenTail, SourceHeld, TrashTail, TrashedBefore;
    var v := AtTrashing(w, me, in_);
    if Leaving(v.pc) {
      Leave(w, v, me);
    } else {
      ReviewParts(w, me);
      EndsWithNothing(w.trace);
      EndsWithPush(w.trace, [], SentTrash(SourceId(w.run)));
      assert [] + [SentTrash(SourceId(w.run))] == [SentTrash(SourceId(w.run))];
      ReviewOk(w, v, me);
      Advance(w, v, me);
    }
  }

  // What the reply to the trash request was matters only where the source is
  // not in the trash.
  lemma ConfirmedTrash(w: World, me: Uuid, in_: Input)
    requires w.run.job.source.Some? && w.run.source.Some?
    ensures var v := AtConfirmTrash(w, me, in_);
            || (Leaving(v.pc) && SameCore(w, v))
            || (&& in_.asset.Ok? && in_.asset.value.trashed && SourceMatches(w.run.job, in_.asset.value, true)
                && v == Said(w, SawAsset(in_.asset.value)).(run := w.run.(seen := Some(in_.asset.value)),
                   pc := RereadCandidate))
  {
    hide SourceMatches, Fail;
    FailStops(w, ReadingSource(w, in_));
    if ReadingSource(w, in_).Ok? {
      var u := Said(w, SawAsset(in_.asset.value)).(run := w.run.(seen := Some(in_.asset.value)));
      FailStops(u, Saga.Reply<bool>.Malformed);
      FailStops(u, Saga.Reply<bool>.Transient);
    }
  }

  lemma ConfirmTrashTail(w: World, v: World, asset: Remote)
    requires w.pc == ConfirmTrash && w.run.job.source.Some? && TailOk(w)
    requires asset.trashed && SourceMatches(w.run.job, asset, true)
    requires v == Said(w, SawAsset(asset)).(run := w.run.(seen := Some(asset)), pc := RereadCandidate)
    ensures TailOk(v) && SameSubject(w, v) && SameCore(w, v) && SeenOk(v)
  {
    hide SeenTail, SourceMatches, EndsWith, SourceId;
    EndsWithPush(w.trace, [SentTrash(SourceId(w.run))], SawAsset(asset));
    SameSource(w, v);
  }

  lemma ConfirmTrashInvariant(w: World, me: Uuid, in_: Input)
    requires SagaInv(w, me) && w.pc == ConfirmTrash && w.run.source.Some? && w.run.job.source.Some?
    ensures SagaInv(AtConfirmTrash(w, me, in_), me)
  {
    hide CandidateMatches, LocalOk, Saga.AtConfirmTrash, Saga.SourceMatches, Saga.UploadMatches, SagaInv, SameCore,
         SameSubject, SeenOk, SourceHeld, TailOk;
    var v := AtConfirmTrash(w, me, in_);
    ConfirmedTrash(w, me, in_);
    if Leaving(v.pc) {
      Leave(w, v, me);
    } else {
      ReviewParts(w, me);
      ConfirmTrashTail(w, v, in_.asset.value);
      ReviewOk(w, v, me);
      Advance(w, v, me);
    }
  }

  lemma SameSource(w: World, v: World)
    requires SameSubject(w, v)
    ensures SourceId(v.run) == SourceId(w.run)
  {
  }

  lemma RereadCandidateInvariant(w: World, me: Uuid, in_: Input)
    requires SagaInv(w, me) && w.pc == RereadCandidate && w.run.source.Some? && w.run.first.Some? && w.run.marker.Some?
    ensures SagaInv(AtRereadCandidate(w, me, in_), me)
  {
    hide CandidateMatches, Fail, LocalOk, Saga.UploadMatches, SagaInv, SeenOk, SourceHeld, TailOk;
    var v := AtRereadCandidate(w, me, in_);
    FailStops(w, AssetReply(in_.asset, w.run.first.value.id));
    if Leaving(v.pc) {
      Leave(w, v, me);
    } else {
      ReviewParts(w, me);
      TrashedStill(w, v);
      PublishingOk(w, v, me);
      Advance(w, v, me);
    }
  }

  lemma TrashedStill(w: World, v: World)
    requires w.pc == RereadCandidate && v.pc == Publishing && TailOk(w)
    requires v.run == w.run.(again := v.run.again) && v.run.again.Some?
    requires v.trace == w.trace + [SawAsset(v.run.again.value)]
    ensures TailOk(v)
  {
    hide EndsWith, SeenTail;
    assert v.trace[..|v.trace| - 1] == w.trace;
    SameTails(w, v);
  }

  lemma PublishingOk(w: World, v: World, me: Uuid)
    requires SagaInv(w, me) && w.pc == RereadCandidate && v.pc == Publishing && SameCore(w, v) && SameSubject(w, v)
    requires v.run == w.run.(again := v.run.again) && v.run.again.Some? && w.run.first.Some? && w.run.marker.Some?
    requires v.run.again.value.id == w.run.first.value.id && w.run.source.Some?
    requires UploadMatches(w.run.job, me, v.run.again.value, w.run.marker.value)
    requires CandidateMatches(w.run.source.value.asset, v.run.again.value)
    requires TailOk(v)
    ensures LocalOk(v, me)
  {
    hide SagaInv, Inv, UploadMatches, CandidateMatches, SourceMatches, CatalogOk, HistoryOk, TailOk, SourceHeld, Synced;
    ReviewParts(w, me);
    SourceStays(w, v);
  }

  lemma PublishedCatalogOk(entries: Entries, next: int, source: Uuid, candidate: Remote, retired: string)
    requires CatalogOk(entries, next) && Publishable(entries, source, candidate, retired)
    ensures CatalogOk(Publish(entries, next, source, candidate, retired), next + 1)
  {
    forall id | id in entries ensures entries[id].name in TakenNames(entries) {}
    hide Visible;
  }

  lemma PublishedHistory(m: Manifest, published: seq<(Uuid, Uuid)>, entries: Entries, next: int, after: Entries,
                         p: (Uuid, Uuid))
    requires HistoryOk(m, published, entries, next) && m.operation == Replacement && m.source.Some? && m.candidate.Some?
    requires p == (m.source.value.asset, m.candidate.value)
    ensures HistoryOk(m, published + [p], after, next + 1)
  {
  }

  lemma PublishingInvariant(w: World, me: Uuid, in_: Input)
    requires SagaInv(w, me) && w.pc == Publishing && w.run.source.Some? && w.run.again.Some?
    ensures SagaInv(AtPublishing(w, me, in_), me)
  {
    hide SagaInv, Inv, LocalOk, HistoryOk, CatalogOk, UploadMatches, CandidateMatches, SourceMatches, TailOk, ChecksOk,
         SeenOk, Publish, Publishable, Retired, SourceHeld, CandidateHeld, StateOk, Shaped;
    Parts(w, me);
    ReviewParts(w, me);
    PublishedIsCandidate(w, me);
    var v := AtPublishing(w, me, in_);
    if Leaving(v.pc) {
      Leave(w, v, me);
    } else {
      var source, candidate := w.run.source.value.asset.id, w.run.again.value;
      PublishedCatalogOk(w.entries, w.nextInode, source, candidate, Retired(w.entries, source).value);
      PublishedHistory(w.run.job, w.published, w.entries, w.nextInode, v.entries, (source, candidate.id));
      ShowingOk(v, me);
      AssembleInv(v, me);
    }
  }

  lemma PublishedIsCandidate(w: World, me: Uuid)
    requires SagaInv(w, me) && w.pc == Publishing
    ensures w.run.again.Some? && w.run.job.candidate == Some(w.run.again.value.id)
  {
    hide Inv, UploadMatches, CandidateMatches, CatalogOk, HistoryOk, TailOk;
  }

  // ------------------------------------------------------------- the end

  lemma EndInvariant(w: World, me: Uuid, in_: Input)
    requires SagaInv(w, me) && (w.pc == Showing || w.pc == Pinning)
    ensures w.pc == Showing ==> SagaInv(AtShowing(w, me, in_), me)
    ensures w.pc == Pinning ==> SagaInv(AtPinning(w, me, in_), me)
  {
    hide SagaInv, Inv, LocalOk, HistoryOk, CatalogOk, TailOk, ChecksOk, SourceHeld, CandidateHeld, Shaped;
    Parts(w, me);
    InvShape(w.run.job);
    var v := if w.pc == Showing then AtShowing(w, me, in_) else AtPinning(w, me, in_);
    if Leaving(v.pc) {
      Leave(w, v, me);
    } else {
      ShowingOk(v, me);
      Advance(w, v, me);
    }
  }

  lemma CommittingInvariant(w: World, me: Uuid, in_: Input)
    requires SagaInv(w, me) && w.pc == Committing
    ensures SagaInv(AtCommitting(w, me, in_), me)
  {
    hide SagaInv, Inv, LocalOk, HistoryOk, CatalogOk, TailOk, ChecksOk, SourceHeld, CandidateHeld, Shaped, Commit,
         SameJob;
    Parts(w, me);
    var v := AtCommitting(w, me, in_);
    if w.job.Some? && Commit(w.job.value).Succeeds() {
      CommitFacts(w.job.value);
      InvShape(v.run.job);
      RemovingOk(v, me);
      SameOperation(w.job.value, v.run.job);
      StoredInvariant(w, v, me, v.run.job);
    } else {
      Leave(w, v, me);
    }
  }

  lemma SameOperation(m: Manifest, n: Manifest)
    requires SameJob(m, n)
    ensures n.operation == m.operation
  {
  }

  lemma RemovingOk(v: World, me: Uuid)
    requires v.pc == Removing && v.run.job.state == Committed
             && (v.run.job.operation == Replacement ==> v.run.job.source.Some?)
    ensures LocalOk(v, me)
  {
  }

  lemma RemovingInvariant(w: World, me: Uuid, in_: Input)
    requires SagaInv(w, me) && w.pc == Removing
    ensures SagaInv(AtRemoving(w, me, in_), me)
  {
    hide SagaInv;
    var v := AtRemoving(w, me, in_);
    if v.job == None && w.job.Some? { GoneOk(w, v, me); } else { Leave(w, v, me); }
  }

  lemma LeavingInvariant(w: World, me: Uuid, in_: Input, code: ErrorCode)
    requires SagaInv(w, me) && (w.pc == Blocking(code) || w.pc == Retrying(code))
    ensures w.pc == Blocking(code) ==> SagaInv(AtBlocking(w, me, in_, code), me)
    ensures w.pc == Retrying(code) ==> SagaInv(AtRetrying(w, me, in_, code), me)
  {
    hide SagaInv, Inv, HistoryOk, CatalogOk, TailOk, ChecksOk, SourceHeld, CandidateHeld, Shaped, Block, Retry, SameJob,
         Synced;
    Parts(w, me);
    var v := if w.pc.Blocking? then AtBlocking(w, me, in_, code) else AtRetrying(w, me, in_, code);
    if w.job == None {
      Leave(w, v, me);
    } else {
      BlockFacts(w.job.value, code);
      RetryFacts(w.job.value, in_.now, Some(code), None);
      SettledInvariant(w, v, me, v.job.value);
    }
  }

  // The run is over with a manifest that the worker wrote last.
  lemma SettledInvariant(w: World, v: World, me: Uuid, m: Manifest)
    requires SagaInv(w, me) && w.pc != Idle && w.job.Some? && v == w.(job := Some(m), pc := Idle)
    requires SameJob(w.job.value, m) && Inv(m) && (m.state == Committed || m.state == Cancelled ==> m == w.job.value)
    requires m.candidate == w.job.value.candidate
    ensures SagaInv(v, me)
  {
    hide SagaInv, Inv, CatalogOk, HistoryOk, LocalOk, SameJob, SourceHeld, CandidateHeld, StateOk, Shaped, ChecksOk,
         TailOk, InSourcesPlace;
    Parts(w, me);
    AllParts(w, me);
    if m.state == Committed && m.operation == Replacement {
      CommittedHistory(m, w.published, w.entries, w.nextInode);
    }
    HistoryGoesOn(w.job.value, m, w.published, w.entries, w.nextInode);
    LeavingOk(v, me);
    AssembleInv(v, me);
  }

  lemma CommittedHistory(m: Manifest, published: seq<(Uuid, Uuid)>, entries: Entries, next: int)
    requires HistoryOk(m, published, entries, next) && m.state == Committed && m.operation == Replacement
    ensures published != []
  {
  }

  // -------------------------------------------------------------- all steps

  // What the next step is at some of the points of a run.
  lemma NextAt(w: World, me: Uuid, in_: Input)
    requires w.pc != Idle && Shaped(w)
    ensures Listing(w.pc) ==> w.run.source.Some? && w.run.first.Some? && Saga.Next(w, me, in_) == AtList(w, in_)
    ensures w.pc == CheckLocal ==> w.run.job.source.Some? && Saga.Next(w, me, in_) == AtCheckLocal(w, me, in_)
    ensures w.pc == RereadSource ==>
              && w.run.job.source.Some? && w.run.source.Some? && Saga.Next(w, me, in_) == AtRereadSource(w, me, in_)
    ensures w.pc == ConfirmSource ==>
              && w.run.job.source.Some? && w.run.source.Some? && Saga.Next(w, me, in_) == AtConfirmSource(w, me, in_)
    ensures w.pc == ConfirmTrash ==>
              && w.run.job.source.Some? && w.run.source.Some? && Saga.Next(w, me, in_) == AtConfirmTrash(w, me, in_)
    ensures w.pc.Retrying? ==> Saga.Next(w, me, in_) == AtRetrying(w, me, in_, w.pc.code)
    ensures w.pc.Blocking? ==> Saga.Next(w, me, in_) == AtBlocking(w, me, in_, w.pc.code)
    ensures w.pc == StartReplacing ==> Saga.Next(w, me, in_) == AtStartReplacing(w, me, in_)
    ensures w.pc == Committing ==> Saga.Next(w, me, in_) == AtCommitting(w, me, in_)
  {
    hide AtBegin, AtCheckLocal, AtReadSource, AtCancelling, AtTakeAttempt, AtAdmitting, AtUploading, AtRecording,
         AtReadCandidate, AtReadMarker, AtAddLocally, AtStartReplacing, AtRereadSource, AtCopying, AtConfirmSource,
         AtTrashing, AtConfirmTrash, AtRereadCandidate, AtPublishing, AtShowing, AtPinning, AtCommitting, AtRemoving,
         AtBlocking, AtRetrying, AtList;
  }

  // And at some more of them.
  lemma NextOnCandidate(w: World, me: Uuid, in_: Input)
    requires w.pc != Idle && Shaped(w)
    ensures w.pc == ReadCandidate ==>
              w.run.job.candidate.Some? && Saga.Next(w, me, in_) == AtReadCandidate(w, me, in_)
    ensures w.pc == ReadMarker ==>
              && w.run.first.Some? && (w.run.job.operation == Replacement ==> w.run.source.Some?)
              && Saga.Next(w, me, in_) == AtReadMarker(w, me, in_)
    ensures w.pc == Copying ==>
              w.run.source.Some? && w.run.first.Some? && Saga.Next(w, me, in_) == AtCopying(w, me, in_)
    ensures w.pc == Trashing ==> w.run.source.Some? && Saga.Next(w, me, in_) == AtTrashing(w, me, in_)
    ensures w.pc == RereadCandidate ==>
              && w.run.source.Some? && w.run.first.Some? && w.run.marker.Some?
              && Saga.Next(w, me, in_) == AtRereadCandidate(w, me, in_)
    ensures w.pc == Publishing ==>
              && w.run.source.Some? && w.run.again.Some? && Saga.Next(w, me, in_) == AtPublishing(w, me, in_)
  {
    hide AtBegin, AtCheckLocal, AtReadSource, AtCancelling, AtTakeAttempt, AtAdmitting, AtUploading, AtRecording,
         AtReadCandidate, AtReadMarker, AtAddLocally, AtStartReplacing, AtRereadSource, AtCopying, AtConfirmSource,
         AtTrashing, AtConfirmTrash, AtRereadCandidate, AtPublishing, AtShowing, AtPinning, AtCommitting, AtRemoving,
         AtBlocking, AtRetrying, AtList;
  }

  lemma WorkInvariant(w: World, me: Uuid, in_: Input)
    requires SagaInv(w, me) && w.pc != Idle && Shaped(w)
    ensures SagaInv(Saga.Next(w, me, in_), me)
  {
    hide SagaInv, AtBegin, AtCheckLocal, AtReadSource, AtCancelling, AtTakeAttempt, AtAdmitting, AtUploading,
         AtRecording, AtReadCandidate, AtReadMarker, AtAddLocally, AtStartReplacing, AtRereadSource, AtCopying,
         AtConfirmSource, AtTrashing, AtConfirmTrash, AtRereadCandidate, AtPublishing, AtShowing, AtPinning,
         AtCommitting, AtRemoving, AtBlocking, AtRetrying, ReadAlbums, CheckAlbums;
    match w.pc
    case Begin => BeginInvariant(w, me, in_);
    case CheckLocal => CheckLocalInvariant(w, me, in_);
    case ReadSource => ReadSourceInvariant(w, me, in_);
    case Cancelling => CancellingInvariant(w, me, in_);
    case TakeAttempt => TakeAttemptInvariant(w, me, in_);
    case Admitting => AdmittingInvariant(w, me, in_);
    case Uploading => UploadingInvariant(w, me, in_);
    case Recording => RecordingInvariant(w, me, in_);
    case ReadCandidate => ReadCandidateInvariant(w, me, in_);
    case ReadMarker => ReadMarkerInvariant(w, me, in_);
    case AddLocally => AddLocallyInvariant(w, me, in_);
    case StartReplacing => StartReplacingInvariant(w, me, in_);
    case RereadSource => RereadSourceInvariant(w, me, in_);
    case ResumedAlbums1 => ListInvariant(w, me, in_, CandidateId(w.run), 1, ResumedAlbums2);
    case ResumedAlbums2 => ResumedCheckInvariant(w, me, in_);
    case SourceAlbums1 => ListInvariant(w, me, in_, SourceId(w.run), 1, SourceAlbums2);
    case SourceAlbums2 => SourceCheckInvariant(w, me, in_);
    case Copying => CopyingInvariant(w, me, in_);
    case SourceAlbums3 => ListInvariant(w, me, in_, SourceId(w.run), 1, SourceAlbums4);
    case SourceAlbums4 => ListInvariant(w, me, in_, SourceId(w.run), 2, CandidateAlbums1);
    case CandidateAlbums1 => ListInvariant(w, me, in_, CandidateId(w.run), 3, CandidateAlbums2);
    case CandidateAlbums2 => ListInvariant(w, me, in_, CandidateId(w.run), 4, ConfirmSource);
    case ConfirmSource => ConfirmSourceInvariant(w, me, in_);
    case Trashing => TrashingInvariant(w, me, in_);
    case ConfirmTrash => ConfirmTrashInvariant(w, me, in_);
    case RereadCandidate => RereadCandidateInvariant(w, me, in_);
    case Publishing => PublishingInvariant(w, me, in_);
    case Showing => EndInvariant(w, me, in_);
    case Pinning => EndInvariant(w, me, in_);
    case Committing => CommittingInvariant(w, me, in_);
    case Removing => RemovingInvariant(w, me, in_);
    case Blocking(code) => LeavingInvariant(w, me, in_, code);
    case Retrying(code) => LeavingInvariant(w, me, in_, code);
  }

  lemma StartInvariant(w: World, me: Uuid)
    requires SagaInv(w, me) && w.pc == Idle && w.job.Some? && Working(w.job.value)
    ensures SagaInv(w.(pc := Begin, run := Saga.Fresh(w.job.value), trace := []), me)
  {
    hide Inv, CatalogOk, UploadMatches, SourceMatches, CandidateMatches, TailOk, HistoryOk;
    var v := w.(pc := Begin, run := Saga.Fresh(w.job.value), trace := []);
    InvShape(w.job.value);
    NoTail(v);
  }

  lemma CrashInvariant(w: World, me: Uuid)
    requires SagaInv(w, me)
    ensures SagaInv(Apply(w, me, Crash), me)
  {
    hide SagaInv, Inv, LocalOk, HistoryOk, CatalogOk;
    AllParts(w, me);
    InvIsShaped(w, me);
    var v := Apply(w, me, Crash);
    LocalShape(w, me);
    LeavingOk(v, me);
    AssembleInv(v, me);
  }

  lemma LocalShape(w: World, me: Uuid)
    requires LocalOk(w, me)
    ensures w.run.job.operation == Replacement ==> w.run.job.source.Some?
  {
    hide StateOk, SourceHeld, CandidateHeld, ChecksOk, TailOk;
  }

  // What a user's call does to the manifest: nothing to an attempt.
  lemma UserCallFacts(m: Manifest, op: Op)
    requires Inv(m) && (op.OpCancel? || (op.OpRetry? && op.wanted.Some?) || op.OpMarkReplacement?)
    ensures var n := Manifests.Next(m, op);
            && Inv(n)
            && (Taken(m) || m.state == Committed ==> n == m)
            && (n != m && m.state != Writing ==> n.revision > m.revision)
            && (n.state == Committed ==> n == m)
            && (!op.OpMarkReplacement? ==> SameJob(m, n) && n.candidate == m.candidate)
            && (op.OpMarkReplacement? && n != m ==>
               m.operation == Ordinary && n.operation == Replacement && n.source == Some(op.source))
            && (m.state != Writing ==> n.state != Writing)
            && n.revision >= m.revision
  {
    hide Inv, Valid;
    CallKeepsInv(m, op);
  }

  lemma UserInvariant(w: World, me: Uuid, op: Op)
    requires SagaInv(w, me) && Enabled(w, UserCall(op))
    ensures SagaInv(Apply(w, me, UserCall(op)), me)
  {
    hide SagaInv, Inv, LocalOk, CatalogOk, HistoryOk, SameJob, Manifests.Next;
    var m := w.job.value;
    var n := Manifests.Next(m, op);
    AllParts(w, me);
    UserCallFacts(m, op);
    InvIsShaped(w, me);
    var v := Apply(w, me, UserCall(op));
    if n.state != Cancelled {
      if op.OpMarkReplacement? {
        MarksNoCandidate(m, op);
        if n != m { MarkedHistory(m, n, w.published, w.entries, w.nextInode); }
      } else {
        if n.state == Committed && n.operation == Replacement {
          CommittedHistory(n, w.published, w.entries, w.nextInode);
        }
        HistoryGoesOn(m, n, w.published, w.entries, w.nextInode);
      }
    }
    SameLocal(w, v, me);
    AssembleInv(v, me);
  }

  lemma AllParts(w: World, me: Uuid)
    requires SagaInv(w, me)
    ensures LocalOk(w, me) && JobsOk(w) && Synced(w) && CatalogOk(w.entries, w.nextInode) && PublicationsOk(w)
  {
    hide Shaped, StateOk, SourceHeld, CandidateHeld, ChecksOk, TailOk, JobsOk, Synced, CatalogOk, PublicationsOk;
  }

  // Nothing that the run itself knows has changed.
  lemma SameLocal(w: World, v: World, me: Uuid)
    requires LocalOk(w, me) && v.pc == w.pc && v.run == w.run && v.trace == w.trace
    requires v.entries == w.entries || !Locked(w)
    ensures LocalOk(v, me)
  {
    hide CandidateHeld, ChecksOk, Locked, Shaped, SourceHeld, StateOk, TailOk;
    SameTail(w, v);
    SameChecks(w, v, me);
    SameSourceHeld(w, v);
  }

  lemma SameChecks(w: World, v: World, me: Uuid)
    requires Shaped(w) && ChecksOk(w, me) && v.pc == w.pc && v.run == w.run
    ensures Shaped(v) && ChecksOk(v, me)
    ensures StateOk(w) ==> StateOk(v)
    ensures CandidateHeld(w) ==> CandidateHeld(v)
  {
    hide UploadMatches, SourceMatches, CandidateMatches, Reviewing, JustLikeSource;
  }

  lemma SameSourceHeld(w: World, v: World)
    requires SourceHeld(w) && v.pc == w.pc && v.run == w.run
    requires v.entries == w.entries || !Locked(w)
    ensures SourceHeld(v)
  {
  }

  // Only a job that has no candidate becomes a replacement.
  lemma MarksNoCandidate(m: Manifest, op: Op)
    requires Inv(m) && op.OpMarkReplacement?
    ensures Manifests.Next(m, op) != m ==> Manifests.Next(m, op).candidate == None
  {
    hide SafeName, ValidSource;
  }

  lemma MarkedHistory(m: Manifest, n: Manifest, published: seq<(Uuid, Uuid)>, entries: Entries, next: int)
    requires HistoryOk(m, published, entries, next) && m.operation == Ordinary
    requires n.operation == Replacement && n.source.Some? && n.state != Committed
    requires n.source.value.inode < next && n.candidate == None
    ensures HistoryOk(n, published, entries, next)
  {
  }

  lemma CatalogInvariant(w: World, me: Uuid, entries: Entries, next: int)
    requires SagaInv(w, me) && Enabled(w, CatalogChange(entries, next))
    ensures SagaInv(Apply(w, me, CatalogChange(entries, next)), me)
  {
    hide SagaInv, Inv, LocalOk, HistoryOk, CatalogOk, Locked, InSourcesPlace;
    AllParts(w, me);
    InvIsShaped(w, me);
    var v := Apply(w, me, CatalogChange(entries, next));
    if w.job.Some? { MovedHistory(w.job.value, w.published, w.entries, w.nextInode, entries, next); }
    SameLocal(w, v, me);
    AssembleInv(v, me);
  }

  lemma SameTail(w: World, v: World)
    requires TailOk(w) && v.trace == w.trace && v.pc == w.pc && v.run == w.run
    ensures TailOk(v)
  {
  }

  lemma MovedHistory(m: Manifest, published: seq<(Uuid, Uuid)>, entries: Entries, next: int, after: Entries,
                     nextAfter: int)
    requires HistoryOk(m, published, entries, next) && CatalogMoves(entries, next, after, nextAfter)
    requires InSourcesPlace(m, after) ==> m.candidate.value in entries
    ensures HistoryOk(m, published, after, nextAfter)
  {
  }

  lemma OtherHistory(m: Manifest, published: seq<(Uuid, Uuid)>, entries: Entries, next: int, source: Uuid,
                     candidate: Remote, retired: string)
    requires HistoryOk(m, published, entries, next) && Publishable(entries, source, candidate, retired)
    requires Apart(m, entries, source, candidate, retired)
    ensures HistoryOk(m, published, Publish(entries, next, source, candidate, retired), next + 1)
  {
    hide Visible;
  }

  lemma OtherInvariant(w: World, me: Uuid, source: Uuid, candidate: Remote, retired: string)
    requires SagaInv(w, me) && Enabled(w, OtherPublication(source, candidate, retired))
    ensures SagaInv(Apply(w, me, OtherPublication(source, candidate, retired)), me)
  {
    hide SagaInv, Inv, LocalOk, HistoryOk, CatalogOk, Locked, Publish, Publishable, Apart;
    AllParts(w, me);
    InvIsShaped(w, me);
    var v := Apply(w, me, OtherPublication(source, candidate, retired));
    PublishedCatalogOk(w.entries, w.nextInode, source, candidate, retired);
    if w.job.Some? { OtherHistory(w.job.value, w.published, w.entries, w.nextInode, source, candidate, retired); }
    SameLocal(w, v, me);
    AssembleInv(v, me);
  }

  lemma StepInvariant(w: World, me: Uuid, step: Step)
    requires SagaInv(w, me) && Enabled(w, step) && Shaped(w)
    ensures SagaInv(Apply(w, me, step), me) && Shaped(Apply(w, me, step))
  {
    hide SagaInv, Saga.Next;
    match step {
      case Start => StartInvariant(w, me);
      case Work(in_) => WorkInvariant(w, me, in_);
      case Crash => CrashInvariant(w, me);
      case UserCall(op) => UserInvariant(w, me, op);
      case CatalogChange(entries, next) => CatalogInvariant(w, me, entries, next);
      case OtherPublication(source, candidate, retired) => OtherInvariant(w, me, source, candidate, retired);
    }
    InvIsShaped(Apply(w, me, step), me);
  }

  lemma InvIsShaped(w: World, me: Uuid)
    requires SagaInv(w, me)
    ensures Shaped(w)
  {
    hide Shaped;
  }
}
