// What the saga promises over every run: with lost replies, retries, crashes
// and other callers anywhere.
module SagaGuarantees {
  import opened Options
  import opened Manifests
  import opened Saga
  import opened SagaSafety
  import opened SagaFields
  import opened SagaUploads

  predicate Moves(w: World, me: Uuid, step: Step, t: World) {
    Shaped(w) && Enabled(w, step) && t == Apply(w, me, step)
  }

  predicate Run(worlds: seq<World>, steps: seq<Step>, me: Uuid) {
    && |worlds| == |steps| + 1
    && forall i {:trigger steps[i]} | 0 <= i < |steps| :: Moves(worlds[i], me, steps[i], worlds[i + 1])
  }

  // A job that nobody has published anything for, and a catalog in order.
  predicate Beginning(w: World) {
    && w.pc == Idle && w.job.Some? && Inv(w.job.value) && w.job.value.state != Committed
       && w.job.value.state != Cancelled
    && w.published == [] && w.added == [] && !w.userCancelled && CatalogOk(w.entries, w.nextInode)
    && (w.run.job.operation == Replacement ==> w.run.job.source.Some?)
    && (w.job.value.operation == Replacement && w.job.value.source.Some? ==>
          w.job.value.source.value.inode < w.nextInode && !InSourcesPlace(w.job.value, w.entries))
  }

  lemma BeginningInv(w: World, me: Uuid)
    requires Beginning(w)
    ensures SagaInv(w, me)
  {
    hide Inv, LocalOk, CatalogOk;
    LeavingOk(w, me);
    AssembleInv(w, me);
  }

  lemma {:induction false} RunInv(worlds: seq<World>, steps: seq<Step>, me: Uuid, i: nat)
    requires Run(worlds, steps, me) && Beginning(worlds[0]) && i < |worlds|
    ensures SagaInv(worlds[i], me)
  {
    hide SagaInv, Beginning, Enabled, Apply, Shaped;
    if i == 0 {
      BeginningInv(worlds[0], me);
    } else {
      RunInv(worlds, steps, me, i - 1);
      assert Moves(worlds[i - 1], me, steps[i - 1], worlds[i]);
      StepInvariant(worlds[i - 1], me, steps[i - 1]);
    }
  }

  lemma {:induction false} RunAddInv(worlds: seq<World>, steps: seq<Step>, me: Uuid, i: nat)
    requires Run(worlds, steps, me) && Beginning(worlds[0]) && i < |worlds|
    ensures AddInv(worlds[i], me) && SagaInv(worlds[i], me)
  {
    hide SagaInv, Enabled, Apply, Shaped, AddInv;
    RunInv(worlds, steps, me, i);
    if i == 0 {
      NothingAdded(worlds[0], me);
    } else {
      RunAddInv(worlds, steps, me, i - 1);
      assert Moves(worlds[i - 1], me, steps[i - 1], worlds[i]);
      StepAdds(worlds[i - 1], me, steps[i - 1]);
    }
  }

  lemma NothingAdded(w: World, me: Uuid)
    requires Beginning(w)
    ensures AddInv(w, me)
  {
    hide Inv, CatalogOk;
  }

  // ---------------------------------------------------------------- ordinary uploads

  // A row is added only for the asset that the run has read and found to hold the
  // payload: one that is known keeps its inode, name and albums, a new one gets
  // the next inode and a free name; nothing else in the catalog changes.
  lemma AdditionIsJustified(worlds: seq<World>, steps: seq<Step>, me: Uuid, i: nat)
    requires Run(worlds, steps, me) && Beginning(worlds[0]) && i < |steps|
    requires worlds[i + 1].added != worlds[i].added
    ensures AdditionOf(worlds[i], worlds[i + 1])
    ensures worlds[i].job == Some(worlds[i].run.job) && worlds[i].run.job.operation == Ordinary
    ensures worlds[i].run.job.candidate == Some(worlds[i].run.first.value.id)
    ensures HoldsPayload(worlds[i].run.job, me, worlds[i].run.first.value, me)
  {
    hide SagaInv, Enabled, Apply, Shaped, AdditionOf, HoldsPayload, AddedOk, JustAdded, Beginning;
    RunAddInv(worlds, steps, me, i);
    assert Moves(worlds[i], me, steps[i], worlds[i + 1]);
    OnlyAddingAdds(worlds[i], me, steps[i]);
    AddingHere(worlds[i], me);
  }

  // An ordinary job becomes committed only by a run that has put the asset that it
  // read into the catalog.
  lemma CommitIsJustified(worlds: seq<World>, steps: seq<Step>, me: Uuid, i: nat)
    requires Run(worlds, steps, me) && Beginning(worlds[0]) && i < |steps|
    requires worlds[i].job.Some? && worlds[i].job.value.state != Committed && worlds[i].job.value.operation == Ordinary
    requires worlds[i + 1].job.Some? && worlds[i + 1].job.value.state == Committed
    ensures var w := worlds[i];
            && w.pc == Committing && w.job == Some(w.run.job) && JustAdded(w)
            && RowOf(w.job.value, me, w.added[|w.added| - 1])
  {
    hide SagaInv, Enabled, Apply, Shaped, HoldsPayload, Beginning;
    RunAddInv(worlds, steps, me, i);
    assert Moves(worlds[i], me, steps[i], worlds[i + 1]);
    CommittingHere(worlds[i], me);
    OnlyCommittingCommits(worlds[i], me, steps[i]);
  }

  // -------------------------------------------------------------------- trash

  // The same run has, in this order: read the candidate and its marker, both
  // what the job uploaded; made REPLACING durable; read the source, and its
  // albums twice; copied them; read the source's and the candidate's albums
  // twice each; and read the source again, unchanged and not in the trash. Every
  // album list is the recorded one.
  predicate TrashJustified(w: World, me: Uuid, id: Uuid) {
    var r := w.run;
    && w.job == Some(r.job) && r.job.state == Replacing && r.job.verified && r.job.operation == Replacement
    && r.job.source.Some? && r.source.Some? && r.first.Some? && r.marker.Some? && r.confirmed.Some?
    && id == r.job.source.value.asset && r.job.candidate == Some(r.first.value.id)
    && HoldsPayload(r.job, me, r.first.value, r.marker.value)
    && LooksLike(r.source.value.asset, r.first.value)
    && IsTheSource(r.job, r.confirmed.value, false)
    && EndsWith(w.trace, TrashTail(r))
  }

  lemma TrashIsJustified(worlds: seq<World>, steps: seq<Step>, me: Uuid, i: nat, id: Uuid)
    requires Run(worlds, steps, me) && Beginning(worlds[0]) && i < |steps|
    requires worlds[i + 1].trace == worlds[i].trace + [SentTrash(id)]
    ensures TrashJustified(worlds[i], me, id)
  {
    hide Beginning, SagaInv, Apply, Enabled, Shaped, TrashJustified;
    RunInv(worlds, steps, me, i);
    assert Moves(worlds[i], me, steps[i], worlds[i + 1]);
    OnlyTrashingTrashes(worlds[i], me, steps[i], id);
    TrashingIsJustified(worlds[i], me);
    TrashId(worlds[i], me, steps[i], id);
  }

  lemma TrashId(w: World, me: Uuid, step: Step, id: Uuid)
    requires SagaInv(w, me) && w.pc == Trashing && Enabled(w, step) && Shaped(w)
    requires Apply(w, me, step).trace == w.trace + [SentTrash(id)]
    ensures w.run.job.source.Some? && id == w.run.job.source.value.asset
  {
    hide SagaInv, Fail, Saga.Next, Shaped, Enabled;
    ReviewParts(w, me);
    TrashingOnly(w, me, step, id);
    LastEvent(w, Apply(w, me, step), SentTrash(id));
    LastEvent(w, Apply(w, me, step), SentTrash(w.run.source.value.asset.id));
  }

  lemma TrashingOnly(w: World, me: Uuid, step: Step, id: Uuid)
    requires w.pc == Trashing && Enabled(w, step) && Shaped(w) && w.run.source.Some?
    requires Apply(w, me, step).trace == w.trace + [SentTrash(id)]
    ensures Apply(w, me, step).trace == w.trace + [SentTrash(w.run.source.value.asset.id)]
  {
    hide CatalogMoves, Manifests.Next, Locked, Shaped;
    LastEvent(w, Apply(w, me, step), SentTrash(id));
  }

  lemma LastEvent(w: World, t: World, e: Event)
    requires t.trace == w.trace + [e]
    ensures t.trace[|t.trace| - 1] == e && |t.trace| == |w.trace| + 1
  {
  }

  // No other point of a run sends a trash request.
  lemma OnlyTrashingTrashes(w: World, me: Uuid, step: Step, id: Uuid)
    requires Enabled(w, step) && Shaped(w) && Apply(w, me, step).trace == w.trace + [SentTrash(id)]
    ensures w.pc == Trashing && step.Work?
  {
    hide AlreadyPublished, LocalSourceOk, UploadMatches, SourceMatches, CandidateMatches, Publishable, Publish,
         SameManagedChecksum, CatalogMoves, Manifests.Next, Attempt, Admit, RecordCandidate, BeginReplacing, Commit,
         Cancel, Block, Retry, Shaped, Locked;
    var t := Apply(w, me, step);
    LastEvent(w, t, SentTrash(id));
    if step.Work? && w.pc != Trashing {
      if Drastic(w.pc) { DrasticStep(w, me, step.input); } else { CalmStep(w, me, step.input); }
    }
  }

  predicate Quiet(w: World, t: World) {
    t.trace == w.trace || (|t.trace| == |w.trace| + 1 && !t.trace[|w.trace|].SentTrash?)
  }

  predicate EarlyPc(pc: Pc) {
    || pc == Begin || pc == CheckLocal || pc == ReadSource || pc == TakeAttempt || pc == Admitting || pc == Uploading
    || pc == Recording || pc == Cancelling
  }

  // A step that neither trashes, nor publishes, nor takes the job away.
  predicate Calm(w: World, t: World) {
    Quiet(w, t) && t.published == w.published && (w.job.Some? ==> t.job.Some?)
  }

  predicate Drastic(pc: Pc) {
    pc == Trashing || pc == Publishing || pc == Cancelling || pc == Removing
  }

  lemma CalmStep(w: World, me: Uuid, in_: Input)
    requires w.pc != Idle && !Drastic(w.pc) && Shaped(w)
    ensures Calm(w, Saga.Next(w, me, in_))
  {
    hide Calm, EarlyPc, Listing, Reviewing, Saga.Next, Shaped;
    if EarlyPc(w.pc) {
      CalmEarly(w, me, in_);
    } else if Listing(w.pc) {
      CalmLists(w, me, in_);
    } else if Reviewing(w.pc) {
      CalmReview(w, me, in_);
    } else {
      CalmElsewhere(w, me, in_);
    }
  }

  lemma CalmFail<T>(w: World, t: World, reply: Saga.Reply<T>)
    requires Calm(w, t)
    ensures Calm(w, Fail(t, reply))
  {
  }

  lemma CalmEarly(w: World, me: Uuid, in_: Input)
    requires EarlyPc(w.pc) && w.pc != Cancelling && Shaped(w)
    ensures Calm(w, Saga.Next(w, me, in_))
  {
    hide AlreadyPublished, LocalSourceOk, SourceMatches, SameManagedChecksum, Attempt, Admit, RecordCandidate, Fail;
    if w.pc == ReadSource { CalmFail(w, w, ReadingSource(w, in_)); }
    if w.pc == Uploading { CalmFail(w, Said(w, SentUpload), in_.upload); }
  }

  lemma CalmList(w: World, in_: Input, id: Uuid, which: nat, pc: Pc)
    ensures Calm(w, ReadAlbums(w, in_, id, which, pc)) && Calm(w, CheckAlbums(ReadAlbums(w, in_, id, which, pc), pc))
  {
    hide Fail;
    CalmFail(w, w, in_.albums);
  }

  lemma CalmLists(w: World, me: Uuid, in_: Input)
    requires Listing(w.pc) && Shaped(w)
    ensures Calm(w, Saga.Next(w, me, in_))
  {
    NextAt(w, me, in_);
    hide Calm, Saga.Next, ReadAlbums, CheckAlbums, Shaped;
    var source, candidate := w.run.source.value.asset.id, w.run.first.value.id;
    match w.pc
    case ResumedAlbums1 => CalmList(w, in_, candidate, 1, ResumedAlbums2);
    case ResumedAlbums2 => CalmList(w, in_, candidate, 2, RereadCandidate);
    case SourceAlbums1 => CalmList(w, in_, source, 1, SourceAlbums2);
    case SourceAlbums2 => CalmList(w, in_, source, 2, Copying);
    case SourceAlbums3 => CalmList(w, in_, source, 1, SourceAlbums4);
    case SourceAlbums4 => CalmList(w, in_, source, 2, CandidateAlbums1);
    case CandidateAlbums1 => CalmList(w, in_, candidate, 3, CandidateAlbums2);
    case CandidateAlbums2 => CalmList(w, in_, candidate, 4, ConfirmSource);
  }

  lemma CalmConfirm(w: World, in_: Input)
    requires w.run.source.Some?
    ensures Calm(w, Fail(w, ReadingSource(w, in_)))
    ensures forall asset :: var u := Said(w, SawAsset(asset)).(run := w.run.(seen := Some(asset)));
                            Calm(w, Fail(u, Saga.Reply<bool>.Malformed)) && Calm(w, Fail(u, Saga.Reply<bool>.Transient))
  {
  }

  lemma CalmReview(w: World, me: Uuid, in_: Input)
    requires Reviewing(w.pc) && !Listing(w.pc) && !Drastic(w.pc) && Shaped(w)
    ensures Calm(w, Saga.Next(w, me, in_))
  {
    hide UploadMatches, SourceMatches, CandidateMatches, Fail;
    match w.pc
    case Copying => CalmFail(w, Said(w, SentCopy(w.run.source.value.asset.id, w.run.first.value.id)), in_.ack);
    case RereadCandidate => CalmFail(w, w, AssetReply(in_.asset, w.run.first.value.id));
    case RereadSource => CalmFail(w, w, ReadingSource(w, in_));
    case ConfirmSource => CalmFail(w, w, ReadingSource(w, in_));
    case ConfirmTrash => CalmConfirm(w, in_);
  }

  lemma CalmElsewhere(w: World, me: Uuid, in_: Input)
    requires w.pc != Idle && !EarlyPc(w.pc) && !Reviewing(w.pc) && !Drastic(w.pc) && Shaped(w)
    ensures Calm(w, Saga.Next(w, me, in_))
  {
    hide UploadMatches, CandidateMatches, TakenNames, BeginReplacing, Commit, Block, Retry;
  }

  // What each of the other four does, and what it leaves alone.
  lemma DrasticStep(w: World, me: Uuid, in_: Input)
    requires Drastic(w.pc) && Shaped(w)
    ensures var t := Saga.Next(w, me, in_);
            && (w.pc != Trashing ==> Quiet(w, t))
            && (w.pc != Publishing ==> t.published == w.published)
            && (w.pc == Publishing ==> t.published == w.published || PublicationOf(w, t))
            && (w.pc == Trashing || w.pc == Publishing ==> t.job == w.job)
            && (w.job.Some? && t.job == None && w.pc == Removing ==> w.job.value.state == Committed)
            && (w.job.Some? && t.job == None && w.pc == Cancelling ==>
                  Cancel(w.job.value, w.run.job.name, w.run.job.revision).Written?)
  {
    hide Publishable, Publish, Cancel, IsPublication, Retired;
    if w.pc == Publishing { PublishingStep(w, me, in_); }
  }

  lemma PublishingStep(w: World, me: Uuid, in_: Input)
    requires w.pc == Publishing && w.run.source.Some? && w.run.again.Some?
    ensures var t := AtPublishing(w, me, in_); t.published == w.published || PublicationOf(w, t)
  {
    var source, candidate := w.run.source.value.asset.id, w.run.again.value;
    hide Retired, Publish, Publishable, IsPublication;
    if source in w.entries && Retired(w.entries, source).Some? {
      var retired := Retired(w.entries, source).value;
      if Publishable(w.entries, source, candidate, retired) {
        PublishIsPublication(w.entries, w.nextInode, source, candidate, retired);
      }
    }
  }

  lemma TrashingIsJustified(w: World, me: Uuid)
    requires SagaInv(w, me) && w.pc == Trashing
    ensures w.run.job.source.Some? && TrashJustified(w, me, w.run.job.source.value.asset)
  {
    hide SagaInv, Inv, UploadMatches, CandidateMatches, SourceMatches, EndsWith, TrashTail, Shaped, SourceHeld, SeenOk,
         HoldsPayload, LooksLike, IsTheSource;
    ReviewParts(w, me);
    ConfirmedHere(w, me);
    var r := w.run;
    UploadMatchesIff(r.job, me, r.first.value, r.marker.value);
    CandidateMatchesIff(r.source.value.asset, r.first.value);
    SourceMatchesIff(r.job, r.confirmed.value, false);
  }

  lemma ConfirmedHere(w: World, me: Uuid)
    requires SagaInv(w, me) && w.pc == Trashing
    ensures w.run.confirmed.Some? && w.run.job.source.Some? && SourceMatches(w.run.job, w.run.confirmed.value, false)
  {
    hide Inv, UploadMatches, CandidateMatches, CatalogOk, HistoryOk, SourceMatches, TailOk;
  }

  // --------------------------------------------------------------- publication

  // The source was seen in the trash by this run, and after that the candidate
  // was read again and is what the job uploaded.
  predicate PublicationJustified(w: World, me: Uuid) {
    var r := w.run;
    && w.job == Some(r.job) && r.job.state == Replacing && r.job.verified && r.job.source.Some?
    && r.source.Some? && r.first.Some? && r.marker.Some? && r.seen.Some? && r.again.Some?
    && r.seen.value.trashed && IsTheSource(r.job, r.seen.value, true)
    && r.job.candidate == Some(r.again.value.id)
    && HoldsPayload(r.job, me, r.again.value, r.marker.value)
    && LooksLike(r.source.value.asset, r.again.value)
    && w.trace != [] && w.trace[|w.trace| - 1] == SawAsset(r.again.value)
    && TrashedBefore(r, w.trace[..|w.trace| - 1])
  }

  lemma PublicationIsJustified(worlds: seq<World>, steps: seq<Step>, me: Uuid, i: nat)
    requires Run(worlds, steps, me) && Beginning(worlds[0]) && i < |steps|
    requires worlds[i + 1].published != worlds[i].published
    ensures PublicationJustified(worlds[i], me)
    ensures worlds[i + 1].published ==
            worlds[i].published + [(worlds[i].run.job.source.value.asset, worlds[i].run.job.candidate.value)]
    ensures IsPublication(worlds[i].entries, worlds[i].nextInode, worlds[i].run.job.source.value.asset,
                          worlds[i].run.again.value, worlds[i + 1].entries, worlds[i + 1].nextInode)
  {
    hide Beginning, SagaInv, Apply, Enabled, Shaped, PublicationJustified;
    RunInv(worlds, steps, me, i);
    assert Moves(worlds[i], me, steps[i], worlds[i + 1]);
    OnlyPublishingPublishes(worlds[i], me, steps[i]);
    PublishingIsJustified(worlds[i], me);
    PublicationPair(worlds[i], me);
    hide IsPublication;
  }

  ghost predicate PublicationOf(w: World, t: World) {
    && w.pc == Publishing && w.run.source.Some? && w.run.again.Some?
    && t.published == w.published + [(w.run.source.value.asset.id, w.run.again.value.id)]
    && IsPublication(w.entries, w.nextInode, w.run.source.value.asset.id, w.run.again.value, t.entries, t.nextInode)
  }

  lemma OnlyPublishingPublishes(w: World, me: Uuid, step: Step)
    requires Enabled(w, step) && Shaped(w) && Apply(w, me, step).published != w.published
    ensures PublicationOf(w, Apply(w, me, step))
  {
    hide CatalogMoves, Drastic, Locked, Manifests.Next, PublicationOf, Quiet, Saga.Next, Shaped, Working;
    if step.Work? {
      if Drastic(w.pc) { DrasticStep(w, me, step.input); } else { CalmStep(w, me, step.input); }
    }
  }

  lemma PublicationPair(w: World, me: Uuid)
    requires SagaInv(w, me) && w.pc == Publishing && w.run.source.Some? && w.run.again.Some?
    ensures w.run.job.source.Some? && w.run.source.value.asset.id == w.run.job.source.value.asset
    ensures w.run.job.candidate == Some(w.run.again.value.id)
  {
    ReviewParts(w, me);
    PublishedIsCandidate(w, me);
    hide SagaInv;
  }

  lemma PublishingIsJustified(w: World, me: Uuid)
    requires SagaInv(w, me) && w.pc == Publishing
    ensures PublicationJustified(w, me)
  {
    ReviewParts(w, me);
    PublishedIsCandidate(w, me);
    hide Inv, UploadMatches, CandidateMatches, CatalogOk, HistoryOk, SourceMatches, TrashedBefore, EndsWith, TailOf,
         HoldsPayload, LooksLike, IsTheSource;
    var r := w.run;
    if r.source.Some? && r.again.Some? && r.marker.Some? && r.seen.Some? && r.job.source.Some? {
      UploadMatchesIff(r.job, me, r.again.value, r.marker.value);
      CandidateMatchesIff(r.source.value.asset, r.again.value);
      SourceMatchesIff(r.job, r.seen.value, true);
    }
  }

  // ------------------------------------------------------------------ deletion

  // A job goes away only because the user cancelled it, because it was committed
  // after its candidate was published, or an ordinary one's was added to the
  // catalog, or because a replacement's payload is what the source is anyway and
  // nothing was uploaded.
  predicate DeletionJustified(w: World, me: Uuid, step: Step, t: World)
    requires w.job.Some?
  {
    var m := w.job.value;
    || (step.UserCall? && step.op.OpCancel? && t.userCancelled)
    || (m.state == Committed && m.operation == Replacement
        && w.published != [] && m.source.Some? && m.candidate.Some?
        && forall p | p in w.published :: p == (m.source.value.asset, m.candidate.value))
    || (m.state == Committed && m.operation == Ordinary
        && w.added != [] && m.candidate.Some?
        && forall row | row in w.added ::
             row.0 == m.candidate.value && row.1.asset.id == row.0 && HoldsPayload(m, me, row.1.asset, me))
    || (w.pc == Cancelling && m == w.run.job && m.operation == Replacement && m.state == Pending && m.candidate == None
        && m.attempts == 0 && w.run.source.Some? && SameContent(m, w.run.source.value.asset))
  }

  lemma DeletionIsJustified(worlds: seq<World>, steps: seq<Step>, me: Uuid, i: nat)
    requires Run(worlds, steps, me) && Beginning(worlds[0]) && i < |steps|
    requires worlds[i].job.Some? && worlds[i + 1].job == None
    ensures DeletionJustified(worlds[i], me, steps[i], worlds[i + 1])
  {
    hide Beginning, SagaInv, AddInv, Apply, Enabled, Shaped, DeletionJustified;
    RunAddInv(worlds, steps, me, i);
    assert Moves(worlds[i], me, steps[i], worlds[i + 1]);
    DeletingStep(worlds[i], me, steps[i]);
  }

  lemma DeletingStep(w: World, me: Uuid, step: Step)
    requires SagaInv(w, me) && AddInv(w, me) && Enabled(w, step) && Shaped(w) && w.job.Some?
    requires Apply(w, me, step).job == None
    ensures DeletionJustified(w, me, step, Apply(w, me, step))
  {
    hide SagaInv, AddInv, LocalOk, CatalogOk, Inv, DeletionJustified;
    AllParts(w, me);
    match step
    case Work(in_) =>
      OnlyTwoDelete(w, me, in_);
      if w.pc == Cancelling {
        CancellingIsJustified(w, me);
        JustLikeSourceDeletes(w, me, step, Apply(w, me, step));
      } else {
        CommittedDeletes(w, me, step, Apply(w, me, step));
      }
    case UserCall(op) =>
      UserDeletes(w.job.value, op);
      UserCallDeletes(w, me, step, Apply(w, me, step));
    case Crash =>
      CommittedIsPublished(w, me);
      CommittedDeletes(w, me, step, Apply(w, me, step));
    case _ =>
  }

  lemma UserCallDeletes(w: World, me: Uuid, step: Step, t: World)
    requires w.job.Some? && step.UserCall? && step.op.OpCancel? && t.userCancelled
    ensures DeletionJustified(w, me, step, t)
  {
    hide HoldsPayload, SameContent;
  }

  lemma JustLikeSourceDeletes(w: World, me: Uuid, step: Step, t: World)
    requires w.job.Some? && w.pc == Cancelling && w.job.value == w.run.job && JustLikeSource(w.run)
    ensures DeletionJustified(w, me, step, t)
  {
    hide HoldsPayload, SameContent, SameManagedChecksum;
    SameManagedChecksumIff(w.run.job, w.run.source.value.asset);
  }

  lemma CommittedDeletes(w: World, me: Uuid, step: Step, t: World)
    requires SagaInv(w, me) && AddInv(w, me) && w.job.Some? && w.job.value.state == Committed
    ensures DeletionJustified(w, me, step, t)
  {
    CommittedIsPublished(w, me);
    hide SagaInv, HoldsPayload, SameContent;
    forall row | row in w.added ensures RowOf(w.job.value, me, row) {}
  }

  lemma OnlyTwoDelete(w: World, me: Uuid, in_: Input)
    requires w.pc != Idle && Shaped(w) && w.job.Some? && Saga.Next(w, me, in_).job == None
    ensures (w.pc == Removing && w.job.value.state == Committed)
            || (w.pc == Cancelling && Cancel(w.job.value, w.run.job.name, w.run.job.revision).Written?)
  {
    hide Cancel, PublicationOf, Quiet, Saga.Next, Shaped;
    if Drastic(w.pc) { DrasticStep(w, me, in_); } else { CalmStep(w, me, in_); }
  }

  // The revision that the run cancels is the one that it has looked at.
  lemma CancellingIsJustified(w: World, me: Uuid)
    requires SagaInv(w, me) && w.pc == Cancelling && w.job.Some?
    requires Cancel(w.job.value, w.run.job.name, w.run.job.revision).Written?
    ensures w.job.value == w.run.job && JustLikeSource(w.run)
  {
    hide Inv, Valid, CatalogOk, HistoryOk, UploadMatches, SourceMatches, CandidateMatches, TailOk, JustLikeSource;
  }

  lemma UserDeletes(m: Manifest, op: Op)
    requires m.state != Cancelled && Manifests.Next(m, op).state == Cancelled
    ensures op.OpCancel?
  {
    hide Valid;
  }

  lemma CommittedIsPublished(w: World, me: Uuid)
    requires SagaInv(w, me) && w.job.Some?
    ensures w.job.value.state != Cancelled
    ensures w.job.value.state == Committed && w.job.value.operation == Replacement ==>
              && w.published != [] && w.job.value.source.Some? && w.job.value.candidate.Some?
              && forall p | p in w.published :: p == (w.job.value.source.value.asset, w.job.value.candidate.value)
  {
    hide LocalOk;
    AllParts(w, me);
    hide SagaInv, Inv, CatalogOk;
  }
}
