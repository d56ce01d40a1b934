// What an ordinary upload promises over every run: its asset is in the catalog
// before its job is committed, and so before its payload is deleted.
module SagaUploads {
  import opened Options
  import opened Manifests
  import opened Saga
  import opened SagaSafety
  import opened SagaFields
  import Names

  // A row that was added for the job: the candidate's, with an asset that holds
  // exactly the job's payload.
  predicate RowOf(m: Manifest, me: Uuid, row: (Uuid, Entry)) {
    m.candidate == Some(row.0) && row.1.asset.id == row.0 && HoldsPayload(m, me, row.1.asset, me)
  }

  predicate AddedOk(m: Manifest, me: Uuid, added: seq<(Uuid, Entry)>) {
    && (added != [] ==> m.operation == Ordinary && m.candidate.Some?)
    && (forall row | row in added :: RowOf(m, me, row))
    && (m.state == Committed && m.operation == Ordinary ==> added != [])
  }

  // The asset that the run has read is the last that was added.
  predicate JustAdded(w: World) {
    && w.added != [] && w.run.first.Some?
    && w.added[|w.added| - 1].0 == w.run.first.value.id && w.added[|w.added| - 1].1.asset == w.run.first.value
  }

  predicate AddInv(w: World, me: Uuid) {
    && (w.job.Some? ==> AddedOk(w.job.value, me, w.added))
    && (w.pc == AddLocally ==> w.run.first.Some? && HoldsPayload(w.run.job, me, w.run.first.value, me))
    && (w.run.job.operation == Ordinary && (w.pc == Showing || w.pc == Committing) ==> JustAdded(w))
  }

  // ---------------------------------------------------------- what calls keep

  predicate Follows(m: Manifest, n: Manifest) {
    SameJob(m, n) && (n.state == Committed ==> m.state == Committed)
  }

  lemma FollowingOk(m: Manifest, n: Manifest, me: Uuid, added: seq<(Uuid, Entry)>)
    requires AddedOk(m, me, added) && Follows(m, n)
    ensures AddedOk(n, me, added)
  {
    forall row | row in added ensures RowOf(n, me, row) {
      assert RowOf(m, me, row);
    }
  }

  lemma CommittedOk(m: Manifest, n: Manifest, me: Uuid, added: seq<(Uuid, Entry)>)
    requires AddedOk(m, me, added) && SameJob(m, n) && (m.operation == Ordinary ==> added != [])
    ensures AddedOk(n, me, added)
  {
    forall row | row in added ensures RowOf(n, me, row) {
      assert RowOf(m, me, row);
    }
  }

  lemma CallsFollow(m: Manifest)
    requires Inv(m)
    ensures forall revision :: Follows(m, After(m, Attempt(m, Some(revision))))
    ensures forall n :: Follows(m, After(m, Admit(m, n)))
    ensures forall id :: Follows(m, After(m, RecordCandidate(m, id)))
    ensures Follows(m, After(m, BeginReplacing(m)))
    ensures SameJob(m, After(m, Commit(m)))
    ensures forall code :: Follows(m, After(m, Block(m, code)))
    ensures forall at, code :: Follows(m, After(m, Retry(m, at, code, None)))
  {
    hide Inv, Valid;
  }

  // -------------------------------------------------------------- every step

  // The points at which the run writes to the queue.
  predicate Writes(pc: Pc) {
    || pc == Cancelling || pc == TakeAttempt || pc == Admitting || pc == Recording || pc == StartReplacing
    || pc == Committing || pc == Removing || pc.Blocking? || pc.Retrying?
  }

  // What a run does at those points.
  lemma NextWriting(w: World, me: Uuid, in_: Input)
    requires Writes(w.pc) && Shaped(w)
    ensures w.pc == Cancelling ==> Saga.Next(w, me, in_) == AtCancelling(w, me, in_)
    ensures w.pc == TakeAttempt ==> Saga.Next(w, me, in_) == AtTakeAttempt(w, me, in_)
    ensures w.pc == Admitting ==> Saga.Next(w, me, in_) == AtAdmitting(w, me, in_)
    ensures w.pc == Recording ==> w.run.uploaded.Some? && Saga.Next(w, me, in_) == AtRecording(w, me, in_)
    ensures w.pc == StartReplacing ==> Saga.Next(w, me, in_) == AtStartReplacing(w, me, in_)
    ensures w.pc == Committing ==> Saga.Next(w, me, in_) == AtCommitting(w, me, in_)
    ensures w.pc == Removing ==> Saga.Next(w, me, in_) == AtRemoving(w, me, in_)
    ensures w.pc.Blocking? ==> Saga.Next(w, me, in_) == AtBlocking(w, me, in_, w.pc.code)
    ensures w.pc.Retrying? ==> Saga.Next(w, me, in_) == AtRetrying(w, me, in_, w.pc.code)
  {
    hide AtBegin, AtCheckLocal, AtReadSource, AtCancelling, AtTakeAttempt, AtAdmitting, AtUploading, AtRecording,
         AtReadCandidate, AtReadMarker, AtAddLocally, AtStartReplacing, AtRereadSource, AtCopying, AtConfirmSource,
         AtTrashing, AtConfirmTrash, AtRereadCandidate, AtPublishing, AtShowing, AtPinning, AtCommitting, AtRemoving,
         AtBlocking, AtRetrying, AtList;
  }

  // The job goes away, stays, or follows; or an ordinary one is committed after
  // its row was added.
  predicate WritesWell(w: World, t: World) {
    && t.added == w.added && t.pc != AddLocally && t.pc != Showing && t.pc != Committing
    && match (w.job, t.job)
       case (None, after) => after == None
       case (Some(_), None) => w.pc == Cancelling || w.pc == Removing
       case (Some(m), Some(n)) => n == m || Follows(m, n) || (w.pc == Committing && SameJob(m, n))
  }

  lemma StoresWell(w: World, reply: Manifests.Reply, pc: Pc)
    requires w.job.Some? && pc != AddLocally && pc != Showing && pc != Committing
    requires reply.Succeeds() ==>
               Follows(w.job.value, After(w.job.value, reply))
               || (w.pc == Committing && SameJob(w.job.value, After(w.job.value, reply)))
    ensures WritesWell(w, Stored(w, reply, pc))
  {
    hide Follows, SameJob, After;
  }

  lemma SaidWell(w: World, t: World, e: Event)
    requires WritesWell(w, t)
    ensures WritesWell(w, Said(t, e))
  {
    hide Follows, SameJob;
  }

  predicate Stores(pc: Pc) {
    pc == TakeAttempt || pc == Admitting || pc == Recording || pc == StartReplacing || pc == Committing
  }

  lemma StoringIsWell(w: World, me: Uuid, in_: Input)
    requires Stores(w.pc) && Shaped(w) && (w.job.Some? ==> Inv(w.job.value))
    ensures WritesWell(w, Saga.Next(w, me, in_))
  {
    NextWriting(w, me, in_);
    hide Saga.Next, Shaped, Inv, Attempt, Admit, RecordCandidate, BeginReplacing, Commit, Block, Retry, Cancel, After,
         Follows, SameJob, Stored, AtCancelling, AtRemoving, AtBlocking, AtRetrying;
    if w.job.Some? {
      var m := w.job.value;
      CallsFollow(m);
      match w.pc
      case TakeAttempt => StoresWell(w, Attempt(m, Some(w.run.job.revision)), Admitting);
      case Admitting =>
        StoresWell(w, Admit(m, w.run.job), if w.run.job.candidate == None then Uploading else ReadCandidate);
      case Recording => StoresWell(w, RecordCandidate(m, w.run.uploaded.value), ReadCandidate);
      case StartReplacing =>
        StoresWell(w, BeginReplacing(m), RereadSource);
        SaidWell(w, Stored(w, BeginReplacing(m), RereadSource), MadeReplacing);
      case Committing => StoresWell(w, Commit(m), Removing);
    }
  }

  lemma LeavingIsWell(w: World, me: Uuid, in_: Input)
    requires w.pc == Cancelling || w.pc == Removing
    requires Shaped(w)
    ensures WritesWell(w, Saga.Next(w, me, in_))
  {
    NextWriting(w, me, in_);
    hide Saga.Next, Shaped, Inv, Cancel, After, Follows, SameJob, AtTakeAttempt, AtAdmitting, AtRecording,
         AtStartReplacing, AtCommitting, AtBlocking, AtRetrying;
  }

  lemma EndingIsWell(w: World, me: Uuid, in_: Input)
    requires w.pc.Blocking? || w.pc.Retrying?
    requires Shaped(w) && (w.job.Some? ==> Inv(w.job.value))
    ensures WritesWell(w, Saga.Next(w, me, in_))
  {
    NextWriting(w, me, in_);
    hide Saga.Next, Shaped, Inv, Block, Retry, Cancel, After, Follows, SameJob, AtTakeAttempt, AtAdmitting, AtRecording,
         AtStartReplacing, AtCommitting, AtCancelling, AtRemoving, Stored;
    if w.job.Some? { CallsFollow(w.job.value); }
  }

  lemma WritingIsWell(w: World, me: Uuid, in_: Input)
    requires Writes(w.pc) && Shaped(w) && (w.job.Some? ==> Inv(w.job.value))
    ensures WritesWell(w, Saga.Next(w, me, in_))
  {
    hide Saga.Next, Shaped, Inv, WritesWell;
    if Stores(w.pc) {
      StoringIsWell(w, me, in_);
    } else if w.pc == Cancelling || w.pc == Removing {
      LeavingIsWell(w, me, in_);
    } else {
      EndingIsWell(w, me, in_);
    }
  }

  lemma WritingAdds(w: World, me: Uuid, in_: Input)
    requires AddInv(w, me) && Writes(w.pc) && Shaped(w) && (w.job.Some? ==> Inv(w.job.value))
    requires w.pc == Committing ==> w.job == Some(w.run.job)
    ensures AddInv(Saga.Next(w, me, in_), me)
  {
    WritingIsWell(w, me, in_);
    hide Saga.Next, Shaped, Inv, AddedOk, Follows, SameJob, JustAdded, HoldsPayload;
    var t := Saga.Next(w, me, in_);
    if w.job.Some? && t.job.Some? && t.job != w.job {
      if Follows(w.job.value, t.job.value) {
        FollowingOk(w.job.value, t.job.value, me, w.added);
      } else {
        CommitsAdded(w, me);
        CommittedOk(w.job.value, t.job.value, me, w.added);
      }
    }
  }

  lemma CommitsAdded(w: World, me: Uuid)
    requires AddInv(w, me) && w.pc == Committing && w.job == Some(w.run.job)
    ensures w.job.value.operation == Ordinary ==> w.added != []
  {
  }

  predicate Elsewhere(w: World, t: World) {
    && t.job == w.job && t.added == w.added
    && t.pc != AddLocally && !(t.run.job.operation == Ordinary && (t.pc == Showing || t.pc == Committing))
  }

  lemma ElsewhereAdds(w: World, t: World, me: Uuid)
    requires AddInv(w, me) && Elsewhere(w, t)
    ensures AddInv(t, me)
  {
  }

  lemma FailsElsewhere<T>(w: World, u: World, reply: Saga.Reply<T>)
    requires u.job == w.job && u.added == w.added
    ensures Elsewhere(w, Fail(u, reply))
  {
  }

  lemma EarlyElsewhere(w: World, me: Uuid, in_: Input)
    requires Shaped(w)
    requires w.pc == Begin || w.pc == CheckLocal || w.pc == ReadSource || w.pc == Uploading || w.pc == ReadCandidate
    ensures Elsewhere(w, Saga.Next(w, me, in_))
  {
    hide AlreadyPublished, LocalSourceOk, SourceMatches, SameManagedChecksum;
  }

  lemma ListElsewhere(w: World, in_: Input, id: Uuid, which: nat, pc: Pc)
    requires pc != AddLocally && pc != Showing && pc != Committing
    ensures Elsewhere(w, ReadAlbums(w, in_, id, which, pc))
    ensures Elsewhere(w, CheckAlbums(ReadAlbums(w, in_, id, which, pc), pc))
  {
    hide Fail;
    FailsElsewhere(w, w, in_.albums);
  }

  lemma ListsElsewhere(w: World, me: Uuid, in_: Input)
    requires Listing(w.pc) && Shaped(w)
    ensures Elsewhere(w, Saga.Next(w, me, in_))
  {
    NextAt(w, me, in_);
    hide Elsewhere, Saga.Next, ReadAlbums, CheckAlbums, Shaped;
    var source, candidate := w.run.source.value.asset.id, w.run.first.value.id;
    match w.pc
    case ResumedAlbums1 => ListElsewhere(w, in_, candidate, 1, ResumedAlbums2);
    case ResumedAlbums2 => ListElsewhere(w, in_, candidate, 2, RereadCandidate);
    case SourceAlbums1 => ListElsewhere(w, in_, source, 1, SourceAlbums2);
    case SourceAlbums2 => ListElsewhere(w, in_, source, 2, Copying);
    case SourceAlbums3 => ListElsewhere(w, in_, source, 1, SourceAlbums4);
    case SourceAlbums4 => ListElsewhere(w, in_, source, 2, CandidateAlbums1);
    case CandidateAlbums1 => ListElsewhere(w, in_, candidate, 3, CandidateAlbums2);
    case CandidateAlbums2 => ListElsewhere(w, in_, candidate, 4, ConfirmSource);
  }

  // A source that came, and one that did not.
  lemma SourceElsewhere(w: World, me: Uuid, in_: Input)
    requires w.run.job.source.Some? && w.run.source.Some? && w.run.job.operation == Replacement
    requires in_.asset.Ok? && in_.asset.value.id == w.run.source.value.asset.id
    ensures Elsewhere(w, AtRereadSource(w, me, in_)) && Elsewhere(w, AtConfirmSource(w, me, in_))
    ensures Elsewhere(w, AtConfirmTrash(w, me, in_))
  {
    ReviewedSourceIs(w, me, in_);
    hide AtRereadSource, AtConfirmSource, AtConfirmTrash, IsTheSource;
  }

  lemma NoSourceElsewhere(w: World, me: Uuid, in_: Input)
    requires w.run.job.source.Some? && w.run.source.Some?
    requires !(in_.asset.Ok? && in_.asset.value.id == w.run.source.value.asset.id)
    ensures Elsewhere(w, AtRereadSource(w, me, in_)) && Elsewhere(w, AtConfirmSource(w, me, in_))
    ensures Elsewhere(w, AtConfirmTrash(w, me, in_))
  {
    hide SourceMatches, Fail;
    FailsElsewhere(w, w, ReadingSource(w, in_));
  }

  lemma CandidateElsewhere(w: World, me: Uuid, in_: Input)
    requires w.pc == Copying || w.pc == Trashing || w.pc == RereadCandidate || w.pc == Publishing
    requires Shaped(w) && w.run.job.operation == Replacement
    ensures Elsewhere(w, Saga.Next(w, me, in_))
  {
    NextOnCandidate(w, me, in_);
    hide Saga.Next, Shaped, UploadMatches, CandidateMatches, Publishable, Publish, Retired, Fail, AtReadCandidate,
         AtReadMarker;
    match w.pc
    case Copying => FailsElsewhere(w, Said(w, SentCopy(w.run.source.value.asset.id, w.run.first.value.id)), in_.ack);
    case Trashing => FailsElsewhere(w, Said(w, SentTrash(w.run.source.value.asset.id)), in_.ack);
    case RereadCandidate => FailsElsewhere(w, w, AssetReply(in_.asset, w.run.first.value.id));
    case Publishing =>
  }

  lemma ReviewElsewhere(w: World, me: Uuid, in_: Input)
    requires Reviewing(w.pc) && !Listing(w.pc) && Shaped(w)
    ensures Elsewhere(w, Saga.Next(w, me, in_))
  {
    ReviewIsReplacement(w);
    hide Saga.Next, Shaped, Elsewhere;
    if w.pc == RereadSource || w.pc == ConfirmSource || w.pc == ConfirmTrash {
      NextAt(w, me, in_);
      hide AtRereadSource, AtConfirmSource, AtConfirmTrash;
      if in_.asset.Ok? && in_.asset.value.id == w.run.source.value.asset.id {
        SourceElsewhere(w, me, in_);
      } else {
        NoSourceElsewhere(w, me, in_);
      }
    } else {
      CandidateElsewhere(w, me, in_);
    }
  }

  lemma ReviewIsReplacement(w: World)
    requires Shaped(w) && Reviewing(w.pc)
    ensures w.run.job.operation == Replacement
  {
  }

  lemma MarkerAdds(w: World, me: Uuid, in_: Input)
    requires AddInv(w, me) && w.pc == ReadMarker && Shaped(w)
    ensures AddInv(Saga.Next(w, me, in_), me)
  {
    NextOnCandidate(w, me, in_);
    hide Saga.Next, Shaped, UploadMatches, CandidateMatches, HoldsPayload, AtReadMarker, Fail;
    if in_.marker.Ok? {
      ReadMarkerIs(w, me, in_);
      if Saga.Next(w, me, in_).pc == AddLocally { OwnMarker(w.run.job, me, w.run.first.value, in_.marker.value); }
    } else {
      NoMarker(w, me, in_);
      FailsElsewhere(w, w, in_.marker);
      ElsewhereAdds(w, Fail(w, in_.marker), me);
    }
  }

  lemma NoMarker(w: World, me: Uuid, in_: Input)
    requires w.run.first.Some? && (w.run.job.operation == Replacement ==> w.run.source.Some?) && !in_.marker.Ok?
    ensures AtReadMarker(w, me, in_) == Fail(w, in_.marker)
  {
  }

  lemma OwnMarker(m: Manifest, me: Uuid, asset: Remote, marker: Uuid)
    requires HoldsPayload(m, me, asset, marker)
    ensures HoldsPayload(m, me, asset, me)
  {
  }

  // What add_uploaded does to the rows.
  predicate IsAddition(entries: Entries, next: int, requested: string, asset: Remote, after: Entries, nextAfter: int) {
    && asset.id in after && after == entries[asset.id := after[asset.id]] && after[asset.id].asset == asset
    && (asset.id in entries ==>
          && after[asset.id] == entries[asset.id].(asset := asset) && nextAfter == next)
    && (asset.id !in entries ==>
          && after[asset.id].inode == next && nextAfter == next + 1 && after[asset.id].albums == []
          && (forall id | id in entries :: entries[id].name != after[asset.id].name)
          && ((forall id | id in entries ::
             entries[id].name != Names.SafeFilename(requested, IdText(asset.id), Names.LIMIT))
                ==> after[asset.id].name == Names.SafeFilename(requested, IdText(asset.id), Names.LIMIT)))
  }

  predicate AdditionOf(w: World, t: World) {
    && w.pc == AddLocally && w.run.first.Some? && t.job == w.job && t.run == w.run && t.pc == Showing
    && IsAddition(w.entries, w.nextInode, w.run.job.name, w.run.first.value, t.entries, t.nextInode)
    && t.added == w.added + [(w.run.first.value.id, t.entries[w.run.first.value.id])]
  }

  lemma AddingStep(w: World, me: Uuid, in_: Input)
    requires w.pc == AddLocally && w.run.first.Some?
    ensures var t := AtAddLocally(w, me, in_); AdditionOf(w, t) || t == w.(pc := Blocking(LocalStateFailed))
  {
    hide AddedRow, IsAddition;
    var asset := w.run.first.value;
    var row := AddedRow(w.entries, w.nextInode, w.run.job.name, asset);
    if row.Some? {
      RowIsAddition(w.entries, w.nextInode, w.run.job.name, asset);
    }
  }

  lemma RowIsAddition(entries: Entries, next: int, requested: string, asset: Remote)
    requires AddedRow(entries, next, requested, asset).Some?
    ensures var row := AddedRow(entries, next, requested, asset).value;
            IsAddition(entries, next, requested, asset, entries[asset.id := row],
                       if asset.id in entries then next else next + 1)
  {
    AddedRowIs(entries, next, requested, asset);
    AddedRowKeeps(entries, next, requested, asset);
    hide AddedRow, Names.SafeFilename;
  }

  lemma AddedRowKeeps(entries: Entries, next: int, requested: string, asset: Remote)
    ensures asset.id in entries ==>
            AddedRow(entries, next, requested, asset) == Some(entries[asset.id].(asset := asset))
  {
  }

  lemma AddingAdds(w: World, t: World, me: Uuid)
    requires AddInv(w, me) && AdditionOf(w, t) && w.job == Some(w.run.job) && w.run.job.operation == Ordinary
    requires w.run.job.candidate == Some(w.run.first.value.id)
    ensures AddInv(t, me)
  {
    hide Names.SafeFilename;
    forall row | row in t.added ensures RowOf(w.run.job, me, row) {
      if row in w.added { assert RowOf(w.run.job, me, row); }
    }
  }

  lemma AddingHere(w: World, me: Uuid)
    requires SagaInv(w, me) && w.pc == AddLocally
    ensures w.run.first.Some? && w.job == Some(w.run.job) && w.run.job.operation == Ordinary
    ensures w.run.job.candidate == Some(w.run.first.value.id)
  {
    hide Inv, UploadMatches, CandidateMatches, CatalogOk, HistoryOk, TailOk;
  }

  lemma CommittingHere(w: World, me: Uuid)
    requires SagaInv(w, me)
    ensures w.pc == Committing ==> w.job == Some(w.run.job)
    ensures (w.job.Some? ==> Inv(w.job.value)) && Shaped(w)
  {
    hide Inv, UploadMatches, CandidateMatches, SourceMatches, CatalogOk, HistoryOk, TailOk;
  }

  lemma ShowingGoesOn(w: World, me: Uuid, in_: Input)
    requires AddInv(w, me) && (w.pc == Showing || w.pc == Pinning) && Shaped(w)
    requires w.pc == Pinning ==> w.run.job.operation == Replacement
    ensures AddInv(Saga.Next(w, me, in_), me)
  {
  }

  lemma PinningHere(w: World, me: Uuid)
    requires SagaInv(w, me) && w.pc == Pinning
    ensures w.run.job.operation == Replacement
  {
    InvShapeHere(w, me);
    hide Inv, UploadMatches, CandidateMatches, SourceMatches, CatalogOk, HistoryOk, TailOk;
  }

  lemma InvShapeHere(w: World, me: Uuid)
    requires SagaInv(w, me) && w.pc != Idle
    ensures w.run.job.state == Replacing ==> w.run.job.operation == Replacement
  {
    hide UploadMatches, CandidateMatches, SourceMatches, CatalogOk, HistoryOk, TailOk, Inv;
    InvShape(w.run.job);
  }

  lemma WorkAdds(w: World, me: Uuid, in_: Input)
    requires SagaInv(w, me) && AddInv(w, me) && w.pc != Idle && Shaped(w)
    ensures AddInv(Saga.Next(w, me, in_), me)
  {
    CommittingHere(w, me);
    if w.pc == Pinning { PinningHere(w, me); }
    if w.pc == AddLocally { AddingHere(w, me); }
    hide SagaInv, AddInv, Shaped, Inv, Elsewhere;
    var t := Saga.Next(w, me, in_);
    if Writes(w.pc) {
      WritingAdds(w, me, in_);
    } else if w.pc == ReadMarker {
      MarkerAdds(w, me, in_);
    } else if w.pc == AddLocally {
      NextAdding(w, me, in_);
      AddingStep(w, me, in_);
      hide Saga.Next, AtAddLocally;
      if AdditionOf(w, t) { AddingAdds(w, t, me); } else { NotAdding(w, t, me); }
    } else if w.pc == Showing || w.pc == Pinning {
      ShowingGoesOn(w, me, in_);
    } else {
      hide Saga.Next;
      if Listing(w.pc) {
        ListsElsewhere(w, me, in_);
      } else if Reviewing(w.pc) {
        ReviewElsewhere(w, me, in_);
      } else {
        EarlyElsewhere(w, me, in_);
      }
      ElsewhereAdds(w, t, me);
    }
  }

  lemma NotAdding(w: World, t: World, me: Uuid)
    requires AddInv(w, me) && t == w.(pc := Blocking(LocalStateFailed))
    ensures AddInv(t, me)
  {
  }

  lemma NextAdding(w: World, me: Uuid, in_: Input)
    requires w.pc == AddLocally && Shaped(w)
    ensures w.run.first.Some? && Saga.Next(w, me, in_) == AtAddLocally(w, me, in_)
  {
  }

  lemma UserAdds(w: World, me: Uuid, op: Op)
    requires SagaInv(w, me) && AddInv(w, me) && Enabled(w, UserCall(op)) && Shaped(w)
    ensures AddInv(Apply(w, me, UserCall(op)), me)
  {
    CommittingHere(w, me);
    hide SagaInv, Inv, Shaped, Manifests.Next, HoldsPayload, JustAdded;
    var m := w.job.value;
    var n := Manifests.Next(m, op);
    UserCallFacts(m, op);
    if n.state != Cancelled && n != m {
      if op.OpMarkReplacement? {
        MarksNoCandidate(m, op);
        MarkedUncandidate(m, op);
      } else {
        FollowingOk(m, n, me, w.added);
      }
    }
  }

  // Nor had it one before.
  lemma MarkedUncandidate(m: Manifest, op: Op)
    requires Inv(m) && op.OpMarkReplacement?
    ensures Manifests.Next(m, op) != m ==> m.candidate == None && Manifests.Next(m, op).state != Committed
  {
    hide SafeName, ValidSource;
  }

  lemma StepAdds(w: World, me: Uuid, step: Step)
    requires SagaInv(w, me) && AddInv(w, me) && Enabled(w, step) && Shaped(w)
    ensures AddInv(Apply(w, me, step), me)
  {
    hide SagaInv, Saga.Next, Shaped, AddedOk, HoldsPayload, CatalogMoves, Publishable, Publish, Manifests.Next;
    match step
    case Work(in_) => WorkAdds(w, me, in_);
    case UserCall(op) => UserAdds(w, me, op);
    case _ =>
  }

  // ------------------------------------------------------- who adds and commits

  lemma OnlyAddingAdds(w: World, me: Uuid, step: Step)
    requires Enabled(w, step) && Shaped(w) && Apply(w, me, step).added != w.added
    ensures w.pc == AddLocally && AdditionOf(w, Apply(w, me, step))
  {
    hide CatalogMoves, Locked, Manifests.Next, Saga.Next, Shaped, Working, AdditionOf, Publishable, Publish;
    if step.Work? {
      if w.pc != AddLocally { SameAdded(w, me, step.input); } else {
        NextAdding(w, me, step.input);
        AddingStep(w, me, step.input);
        hide AtAddLocally;
      }
    }
  }

  lemma SameAdded(w: World, me: Uuid, in_: Input)
    requires w.pc != Idle && w.pc != AddLocally && Shaped(w)
    ensures Saga.Next(w, me, in_).added == w.added
  {
    hide Saga.Next, Shaped, Elsewhere;
    if Listing(w.pc) {
      ListsElsewhere(w, me, in_);
    } else if Reviewing(w.pc) {
      ReviewElsewhere(w, me, in_);
    } else {
      SameAddedElsewhere(w, me, in_);
    }
    ElsewhereSame(w, Saga.Next(w, me, in_));
  }

  lemma ElsewhereSame(w: World, t: World)
    ensures Elsewhere(w, t) ==> t.added == w.added
  {
  }

  lemma SameAddedElsewhere(w: World, me: Uuid, in_: Input)
    requires w.pc != Idle && w.pc != AddLocally && !Reviewing(w.pc) && Shaped(w)
    ensures Saga.Next(w, me, in_).added == w.added
  {
    hide AlreadyPublished, LocalSourceOk, UploadMatches, SourceMatches, CandidateMatches, SameManagedChecksum, Attempt,
         Admit, RecordCandidate, BeginReplacing, Commit, Cancel, Block, Retry, After;
  }

  lemma OnlyCommittingCommits(w: World, me: Uuid, step: Step)
    requires Enabled(w, step) && Shaped(w) && w.job.Some? && Inv(w.job.value) && w.job.value.state != Committed
    requires var t := Apply(w, me, step); t.job.Some? && t.job.value.state == Committed
    ensures w.pc == Committing
  {
    hide CatalogMoves, Locked, Saga.Next, Shaped, Inv, Publishable, Publish, Manifests.Next;
    match step
    case Work(in_) => if w.pc != Committing { WorkCommitsNot(w, me, in_); }
    case UserCall(op) => UserCallFacts(w.job.value, op);
    case _ =>
  }

  lemma WorkCommitsNot(w: World, me: Uuid, in_: Input)
    requires w.pc != Idle && w.pc != Committing && Shaped(w) && w.job.Some? && Inv(w.job.value)
             && w.job.value.state != Committed
    ensures var t := Saga.Next(w, me, in_); t.job.Some? ==> t.job.value.state != Committed
  {
    CallsFollow(w.job.value);
    hide Saga.Next, Shaped, Elsewhere, Inv, Follows;
    if Listing(w.pc) {
      ListsElsewhere(w, me, in_);
    } else if Reviewing(w.pc) {
      ReviewElsewhere(w, me, in_);
    } else if Writes(w.pc) {
      WritingCommitsNot(w, me, in_);
    } else {
      SameJobElsewhere(w, me, in_);
    }
    ElsewhereJob(w, Saga.Next(w, me, in_));
  }

  lemma ElsewhereJob(w: World, t: World)
    ensures Elsewhere(w, t) ==> t.job == w.job
  {
  }

  lemma WritingCommitsNot(w: World, me: Uuid, in_: Input)
    requires Writes(w.pc) && w.pc != Committing && Shaped(w) && w.job.Some? && w.job.value.state != Committed
    requires Inv(w.job.value)
    ensures var t := Saga.Next(w, me, in_); t.job.Some? ==> t.job.value.state != Committed
  {
    WritingIsWell(w, me, in_);
    hide Saga.Next, Shaped, Inv;
  }

  lemma SameJobElsewhere(w: World, me: Uuid, in_: Input)
    requires w.pc != Idle && !Reviewing(w.pc) && !Writes(w.pc) && Shaped(w)
    ensures Saga.Next(w, me, in_).job == w.job
  {
    hide AlreadyPublished, LocalSourceOk, UploadMatches, SourceMatches, CandidateMatches, SameManagedChecksum;
  }
}
