// An ordinary upload against a server that answers truthfully and keeps one asset
// per checksum, but whose replies may get lost: however often that happens and
// the worker crashes, going on commits the job with its asset in the catalog.
module SagaOrdinary {
  import opened Options
  import opened Manifests
  import opened Saga
  import opened SagaSafety
  import opened SagaFields
  import opened SagaUploads
  import Names

  // What the server has for the job's checksum, and under whose marker.
  type Shelf = Option<(Remote, Uuid)>

  // What is up to the server and the clock.
  datatype Choice = Choice(id: Uuid, stamp: string, created: int, now: nat)

  // What an upload creates.
  function Created(m: Manifest, c: Choice): Remote {
    Remote(c.id, m.owner, None, m.size, Checksum(c.stamp, m.sha1), c.stamp, c.created, None, false, "timeline", false,
      false,
           None)
  }

  function Served(w: World, me: Uuid, shelf: Shelf, c: Choice): Shelf {
    if w.pc == Uploading && shelf == None then Some((Created(w.run.job, c), me)) else shelf
  }

  function Replies(shelf: Shelf, c: Choice): Input {
    if shelf.Some? then
      Input(true, true, true, true, Ok(shelf.value.0), Ok(shelf.value.1), Saga.Reply.Rejected, Ok(shelf.value.0.id),
        Ok(true),
            true, c.now)
    else
      Input(true, true, true, true, Saga.Reply.Rejected, Saga.Reply.Rejected, Saga.Reply.Rejected, Saga.Reply.Rejected,
            Saga.Reply.Rejected, true, c.now)
  }

  function NoReply(c: Choice): Input {
    Input(true, true, true, true, Transient, Transient, Transient, Transient, Transient, true, c.now)
  }

  predicate Asks(pc: Pc) {
    pc == Uploading || pc == ReadCandidate || pc == ReadMarker
  }

  // -------------------------------------------------------------- invariant

  // The catalog has the asset, and the last row that was added is its.
  predicate Rowed(w: World, shelf: Shelf) {
    && shelf.Some?
    && var asset := shelf.value.0;
       && asset.id in w.entries && w.entries[asset.id].asset == asset
       && w.added != [] && w.added[|w.added| - 1] == (asset.id, w.entries[asset.id])
  }

  // There is a name for it.
  predicate Nameable(w: World, shelf: Shelf) {
    || (shelf.Some? && shelf.value.0.id in w.entries)
    || Names.Practical(|TakenNames(w.entries)| + 1)
  }

  predicate ShelfOk(m: Manifest, me: Uuid, shelf: Shelf) {
    && (shelf.Some? ==> shelf.value.1 == me && HoldsPayload(m, me, shelf.value.0, me))
    && (m.candidate.Some? ==> shelf.Some? && m.candidate == Some(shelf.value.0.id))
  }

  predicate BaseOk(w: World, me: Uuid, shelf: Shelf) {
    && w.job.Some? && Inv(w.job.value)
    && var m := w.job.value;
       && m.operation == Ordinary && m.sha1.Some? && m.size.Some?
       && ShelfOk(m, me, shelf)
       && (m.state == Pending || m.state == Attempting || (m.state == Committed && Rowed(w, shelf)))
       && Nameable(w, shelf)
  }

  predicate RunOk(w: World, shelf: Shelf)
    requires w.job.Some?
  {
    var m, r := w.job.value, w.run;
    var working := m.state == Pending || m.state == Attempting;
    var read := shelf.Some? && r.first == Some(shelf.value.0) && m.candidate == Some(shelf.value.0.id);
    match w.pc
    case Idle => working
    case Begin => working
    case Retrying(_) => working
    case TakeAttempt => working
    case Admitting => m.state == Attempting
    case Uploading => m.state == Attempting && m.candidate == None && m.attempts >= 1
    case Recording =>
      && m.state == Attempting && m.candidate == None && m.attempts >= 1
      && shelf.Some? && r.uploaded == Some(shelf.value.0.id)
    case ReadCandidate => m.state == Attempting && m.candidate.Some?
    case ReadMarker => m.state == Attempting && read
    case AddLocally => m.state == Attempting && read
    case Showing => m.state == Attempting && m.candidate.Some? && Rowed(w, shelf)
    case Committing => m.state == Attempting && m.candidate.Some? && Rowed(w, shelf)
    case Removing => m.state == Committed
    case _ => false
  }

  predicate Good(w: World, me: Uuid, shelf: Shelf) {
    && BaseOk(w, me, shelf) && RunOk(w, shelf) && Shaped(w)
    && (w.pc != Idle ==> w.run.job == w.job.value)
  }

  // The job is gone, and the asset is in the catalog.
  predicate Done(w: World, shelf: Shelf) {
    w.job == None && Rowed(w, shelf)
  }

  function Rank(pc: Pc): nat {
    match pc
    case Retrying(_) => 13
    case Idle => 12
    case Begin => 11
    case TakeAttempt => 10
    case Admitting => 9
    case Uploading => 8
    case Recording => 7
    case ReadCandidate => 6
    case ReadMarker => 5
    case AddLocally => 4
    case Showing => 3
    case Committing => 2
    case _ => 1
  }

  // One step of the worker, and of the server with it.
  function Go(w: World, me: Uuid, shelf: Shelf, c: Choice): World
    requires Shaped(w) && w.job.Some?
  {
    if w.pc == Idle then w.(pc := Begin, run := Saga.Fresh(w.job.value), trace := [])
    else Saga.Next(w, me, Replies(Served(w, me, shelf, c), c))
  }

  predicate GoesOn(w: World, me: Uuid, shelf: Shelf, c: Choice)
    requires Shaped(w) && w.job.Some?
  {
    var v := Go(w, me, shelf, c);
    Good(v, me, Served(w, me, shelf, c)) && Rank(v.pc) < Rank(w.pc)
  }

  // A pending job, with nothing on the server for its checksum.
  lemma FreshIsGood(w: World, me: Uuid)
    requires w.pc == Idle && Shaped(w) && w.job.Some? && Inv(w.job.value) && w.job.value.state == Pending
    requires w.job.value.operation == Ordinary && Names.Practical(|TakenNames(w.entries)| + 1)
    ensures Good(w, me, None)
  {
    InvShape(w.job.value);
    InvSealsTogether(w.job.value);
    hide Inv;
  }

  // ------------------------------------------------------------------ steps

  lemma Parts(w: World, me: Uuid, shelf: Shelf)
    requires Good(w, me, shelf)
    ensures w.job.Some? && Inv(w.job.value) && Shaped(w) && RunOk(w, shelf) && BaseOk(w, me, shelf)
    ensures w.job.value.operation == Ordinary && ShelfOk(w.job.value, me, shelf) && Nameable(w, shelf)
    ensures w.pc != Idle ==> w.run.job == w.job.value
  {
    hide Inv, Shaped, RunOk, ShelfOk, Nameable, Rowed;
  }

  // Only the run has changed.
  lemma SameBase(w: World, v: World, me: Uuid, shelf: Shelf)
    requires BaseOk(w, me, shelf)
    requires v.job == w.job && v.entries == w.entries && v.added == w.added
    ensures BaseOk(v, me, shelf)
  {
    hide Inv, ShelfOk, Names.Practical;
  }

  // A queue call that succeeds.
  lemma StoredBase(w: World, v: World, me: Uuid, shelf: Shelf, n: Manifest)
    requires BaseOk(w, me, shelf) && Inv(n) && SameJob(w.job.value, n)
    requires v.job == Some(n) && v.entries == w.entries && v.added == w.added
    requires n.candidate == w.job.value.candidate || (shelf.Some? && n.candidate == Some(shelf.value.0.id))
    requires n.state == Pending || n.state == Attempting || (n.state == Committed && Rowed(w, shelf))
    ensures BaseOk(v, me, shelf)
  {
    hide Inv, Names.Practical;
  }

  lemma StartGoes(w: World, me: Uuid, shelf: Shelf, c: Choice)
    requires Good(w, me, shelf) && Shaped(w) && w.job.Some? && (w.pc == Idle || w.pc == Begin)
    ensures GoesOn(w, me, shelf, c)
  {
    hide BaseOk, Inv, ShelfOk, Nameable, Rowed;
    Parts(w, me, shelf);
    SameBase(w, Go(w, me, shelf, c), me, shelf);
  }

  lemma AttemptGoes(w: World, me: Uuid, shelf: Shelf, c: Choice)
    requires Good(w, me, shelf) && Shaped(w) && w.job.Some? && (w.pc == TakeAttempt || w.pc == Admitting)
    ensures GoesOn(w, me, shelf, c)
  {
    hide BaseOk, Inv, Valid, SameJob, ShelfOk, Nameable, Rowed;
    Parts(w, me, shelf);
    var m := w.job.value;
    InvShape(m);
    if w.pc == TakeAttempt {
      GuardedCallsWriteValidManifests(m, OpAttempt(Some(m.revision)));
      AttemptFacts(m, m.revision);
    } else {
      GuardedCallsWriteValidManifests(m, OpAdmit(m));
      AdmitFacts(m, m);
      AdmittedOnce(m);
    }
    var v := Go(w, me, shelf, c);
    StoredBase(w, v, me, shelf, v.run.job);
    SameOperation(m, v.run.job);
  }

  lemma SameOperation(m: Manifest, n: Manifest)
    requires SameJob(m, n)
    ensures n.operation == m.operation
  {
  }

  lemma AdmittedOnce(m: Manifest)
    requires Inv(m) && Admit(m, m).Written?
    ensures Admit(m, m).manifest.attempts >= 1
  {
    hide SafeName, ValidSource;
  }

  lemma ServedOk(w: World, me: Uuid, shelf: Shelf, c: Choice)
    requires BaseOk(w, me, shelf) && (w.pc == Uploading ==> w.run.job == w.job.value && w.job.value.candidate == None)
    requires w.pc == Uploading ==> w.job.value.state == Attempting
    ensures BaseOk(w, me, Served(w, me, shelf, c))
    ensures shelf.Some? ==> Served(w, me, shelf, c) == shelf
    ensures w.pc == Uploading ==> Served(w, me, shelf, c).Some?
  {
    hide Inv, Names.Practical;
  }

  lemma UploadGoes(w: World, me: Uuid, shelf: Shelf, c: Choice)
    requires Good(w, me, shelf) && Shaped(w) && w.job.Some? && w.pc == Uploading
    ensures GoesOn(w, me, shelf, c)
  {
    hide BaseOk, Inv, ShelfOk, Nameable, Rowed, HoldsPayload;
    Parts(w, me, shelf);
    ServedOk(w, me, shelf, c);
    SameBase(w, Go(w, me, shelf, c), me, Served(w, me, shelf, c));
  }

  lemma RecordGoes(w: World, me: Uuid, shelf: Shelf, c: Choice)
    requires Good(w, me, shelf) && Shaped(w) && w.job.Some? && w.pc == Recording
    ensures GoesOn(w, me, shelf, c)
  {
    hide BaseOk, Inv, Valid, SameJob, ShelfOk, Nameable, Rowed;
    Parts(w, me, shelf);
    var m, id := w.job.value, w.run.uploaded.value;
    CandidateNeedsAdmission(m, id);
    RecordFacts(m, id);
    var v := Go(w, me, shelf, c);
    StoredBase(w, v, me, shelf, v.run.job);
    SameOperation(m, v.run.job);
  }

  lemma CandidateHere(m: Manifest, me: Uuid, shelf: Shelf)
    requires ShelfOk(m, me, shelf) && m.candidate.Some?
    ensures shelf.Some? && m.candidate == Some(shelf.value.0.id) && shelf.value.1 == me
    ensures HoldsPayload(m, me, shelf.value.0, me)
  {
  }

  lemma ReadGoes(w: World, me: Uuid, shelf: Shelf, c: Choice)
    requires Good(w, me, shelf) && Shaped(w) && w.job.Some? && (w.pc == ReadCandidate || w.pc == ReadMarker)
    ensures GoesOn(w, me, shelf, c)
  {
    hide BaseOk, Inv, ShelfOk, Nameable, Rowed, HoldsPayload, UploadMatches, CandidateMatches;
    Parts(w, me, shelf);
    CandidateHere(w.job.value, me, shelf);
    UploadMatchesIff(w.job.value, me, shelf.value.0, me);
    SameBase(w, Go(w, me, shelf, c), me, shelf);
  }

  // There is a free name, so that the row is added.
  lemma RowIsThere(w: World, me: Uuid, shelf: Shelf)
    requires Good(w, me, shelf) && w.pc == AddLocally
    ensures w.run.first.Some? && shelf.Some? && w.run.first == Some(shelf.value.0)
    ensures AddedRow(w.entries, w.nextInode, w.run.job.name, shelf.value.0).Some?
    ensures AddedRow(w.entries, w.nextInode, w.run.job.name, shelf.value.0).value.asset == shelf.value.0
  {
    hide Inv, Names.Practical, HoldsPayload, Names.AvailableName, Names.CanonicalId, Names.Safe;
    var asset, taken := shelf.value.0, TakenNames(w.entries);
    if asset.id !in w.entries { Names.AvailableNameIsFresh(w.run.job.name, IdText(asset.id), taken); }
  }

  // The world with the row.
  function WithRow(w: World, row: Entry): World
    requires w.run.first.Some?
  {
    var asset := w.run.first.value;
    w.(entries := w.entries[asset.id := row],
       nextInode := if asset.id in w.entries then w.nextInode else w.nextInode + 1,
       added := w.added + [(asset.id, row)], pc := Showing)
  }

  lemma AddStep(w: World, me: Uuid, shelf: Shelf, c: Choice)
    requires Shaped(w) && w.job.Some? && w.pc == AddLocally && w.run.first.Some? && shelf.Some?
    requires AddedRow(w.entries, w.nextInode, w.run.job.name, w.run.first.value).Some?
    ensures Go(w, me, shelf, c) ==
            WithRow(w, AddedRow(w.entries, w.nextInode, w.run.job.name, w.run.first.value).value)
    ensures Served(w, me, shelf, c) == shelf
  {
    NextAdding(w, me, Replies(Served(w, me, shelf, c), c));
    hide Saga.Next, Shaped, AddedRow;
  }

  lemma WithRowIsGood(w: World, me: Uuid, shelf: Shelf, row: Entry)
    requires Good(w, me, shelf) && w.pc == AddLocally && w.run.first.Some? && shelf.Some?
    requires w.run.first == Some(shelf.value.0) && row.asset == shelf.value.0
    ensures Good(WithRow(w, row), me, shelf) && WithRow(w, row).pc == Showing
  {
    hide Inv, ShelfOk, Names.Practical;
    var v := WithRow(w, row);
    assert v.added[|v.added| - 1] == (shelf.value.0.id, row);
  }

  lemma AddGoes(w: World, me: Uuid, shelf: Shelf, c: Choice)
    requires Good(w, me, shelf) && Shaped(w) && w.job.Some? && w.pc == AddLocally
    ensures GoesOn(w, me, shelf, c)
  {
    RowIsThere(w, me, shelf);
    AddStep(w, me, shelf, c);
    hide *;
    WithRowIsGood(w, me, shelf, AddedRow(w.entries, w.nextInode, w.run.job.name, shelf.value.0).value);
    ComesToShowing(w, me, shelf, c);
  }

  lemma ComesToShowing(w: World, me: Uuid, shelf: Shelf, c: Choice)
    requires Shaped(w) && w.job.Some? && w.pc == AddLocally && Go(w, me, shelf, c).pc == Showing
    requires Good(Go(w, me, shelf, c), me, shelf) && Served(w, me, shelf, c) == shelf
    ensures GoesOn(w, me, shelf, c)
  {
    hide Good, Shaped, Go, Served;
  }

  lemma ShowGoes(w: World, me: Uuid, shelf: Shelf, c: Choice)
    requires Good(w, me, shelf) && Shaped(w) && w.job.Some? && w.pc == Showing
    ensures GoesOn(w, me, shelf, c)
  {
    hide BaseOk, Inv, ShelfOk, Nameable;
    Parts(w, me, shelf);
    SameBase(w, Go(w, me, shelf, c), me, shelf);
  }

  lemma CommitStep(w: World, me: Uuid, shelf: Shelf, c: Choice)
    requires Shaped(w) && w.job.Some? && w.pc == Committing && Commit(w.job.value).Succeeds()
    requires w.job.value.operation == Ordinary && SameJob(w.job.value, After(w.job.value, Commit(w.job.value)))
    ensures var n := After(w.job.value, Commit(w.job.value));
            && Go(w, me, shelf, c) == w.(job := Some(n), run := w.run.(job := n), pc := Removing)
            && Shaped(Go(w, me, shelf, c))
    ensures Served(w, me, shelf, c) == shelf
  {
    NextAt(w, me, Replies(Served(w, me, shelf, c), c));
    hide Saga.Next, Commit, After, AtList, AtCheckLocal, AtRereadSource, AtConfirmSource, AtConfirmTrash, AtBlocking,
         AtRetrying, AtStartReplacing;
  }

  lemma CommitGoes(w: World, me: Uuid, shelf: Shelf, c: Choice)
    requires Good(w, me, shelf) && Shaped(w) && w.job.Some? && w.pc == Committing
    ensures GoesOn(w, me, shelf, c)
  {
    hide Go, Served, Shaped, BaseOk, Inv, Valid, SameJob, ShelfOk, Nameable, Rowed;
    Parts(w, me, shelf);
    var m := w.job.value;
    GuardedCallsWriteValidManifests(m, OpCommit);
    CommitFacts(m);
    CommitStep(w, me, shelf, c);
    var v := Go(w, me, shelf, c);
    StoredBase(w, v, me, shelf, v.run.job);
  }

  lemma RetriedFacts(m: Manifest, at: nat, code: ErrorCode)
    requires Inv(m) && m.operation == Ordinary && (m.state == Pending || m.state == Attempting)
    ensures var n := After(m, Retry(m, at, Some(code), None));
            Inv(n) && SameJob(m, n) && n.candidate == m.candidate && (n.state == Pending || n.state == Attempting)
  {
    RetryFacts(m, at, Some(code), None);
    GuardedCallsWriteValidManifests(m, OpRetry(at, Some(code), None));
    InvSealsTogether(m);
    hide Inv, Valid, SameJob;
  }

  lemma RetryStep(w: World, me: Uuid, shelf: Shelf, c: Choice)
    requires Shaped(w) && w.job.Some? && w.pc.Retrying?
    ensures Go(w, me, shelf, c) ==
            w.(job := Some(After(w.job.value, Retry(w.job.value, c.now, Some(w.pc.code), None))), pc := Idle)
    ensures Served(w, me, shelf, c) == shelf
  {
    NextAt(w, me, Replies(Served(w, me, shelf, c), c));
    hide Saga.Next, Shaped, Retry, After, AtList, AtCheckLocal, AtRereadSource, AtConfirmSource, AtConfirmTrash,
         AtBlocking, AtStartReplacing, AtCommitting;
  }

  lemma RetryGoes(w: World, me: Uuid, shelf: Shelf, c: Choice)
    requires Good(w, me, shelf) && Shaped(w) && w.job.Some? && w.pc.Retrying?
    ensures GoesOn(w, me, shelf, c)
  {
    RetryStep(w, me, shelf, c);
    hide Go, Served, BaseOk, Inv, Valid, SameJob, ShelfOk, Nameable, Rowed, Retry, After, Shaped;
    Parts(w, me, shelf);
    RetriedFacts(w.job.value, c.now, w.pc.code);
    var v := Go(w, me, shelf, c);
    ShapedIdle(w);
    StoredBase(w, v, me, shelf, v.job.value);
  }

  lemma RemoveEnds(w: World, me: Uuid, shelf: Shelf, c: Choice)
    requires Good(w, me, shelf) && Shaped(w) && w.job.Some? && w.pc == Removing
    ensures Done(Go(w, me, shelf, c), Served(w, me, shelf, c))
  {
    hide Inv, ShelfOk, Nameable;
  }

  // Every step leads closer to the end, or to it.
  lemma EveryStepHelps(w: World, me: Uuid, shelf: Shelf, c: Choice)
    requires Good(w, me, shelf) && Shaped(w) && w.job.Some?
    ensures GoesOn(w, me, shelf, c) || Done(Go(w, me, shelf, c), Served(w, me, shelf, c))
  {
    GoodPc(w, me, shelf);
    hide Good, GoesOn, Done, Go, Shaped, Served;
    match w.pc
    case Idle => StartGoes(w, me, shelf, c);
    case Begin => StartGoes(w, me, shelf, c);
    case TakeAttempt => AttemptGoes(w, me, shelf, c);
    case Admitting => AttemptGoes(w, me, shelf, c);
    case Uploading => UploadGoes(w, me, shelf, c);
    case Recording => RecordGoes(w, me, shelf, c);
    case ReadCandidate => ReadGoes(w, me, shelf, c);
    case ReadMarker => ReadGoes(w, me, shelf, c);
    case AddLocally => AddGoes(w, me, shelf, c);
    case Showing => ShowGoes(w, me, shelf, c);
    case Committing => CommitGoes(w, me, shelf, c);
    case Retrying(_) => RetryGoes(w, me, shelf, c);
    case Removing => RemoveEnds(w, me, shelf, c);
  }

  predicate Ordinarily(pc: Pc) {
    || pc == Idle || pc == Begin || pc == TakeAttempt || pc == Admitting || pc == Uploading || pc == Recording
    || pc == ReadCandidate || pc == ReadMarker || pc == AddLocally || pc == Showing || pc == Committing
       || pc == Removing
    || pc.Retrying?
  }

  lemma GoodPc(w: World, me: Uuid, shelf: Shelf)
    requires Good(w, me, shelf)
    ensures Ordinarily(w.pc)
  {
    hide BaseOk, Shaped, Rowed;
  }

  // ------------------------------------------------- crashes and lost replies

  lemma CrashIsHarmless(w: World, me: Uuid, shelf: Shelf)
    requires Good(w, me, shelf) && Shaped(w)
    ensures var v := Apply(w, me, Crash); Good(v, me, shelf) || Done(v, shelf)
  {
    hide Inv, ShelfOk, Nameable, Shaped;
    ShapedIdle(w);
    var v := Apply(w, me, Crash);
    if v.job.Some? { SameBase(w, v, me, shelf); }
  }

  lemma ShapedIdle(w: World)
    requires Shaped(w)
    ensures forall job :: Shaped(w.(pc := Idle, job := job))
  {
  }

  lemma LostReplyIsHarmless(w: World, me: Uuid, shelf: Shelf, c: Choice, served: bool)
    requires Good(w, me, shelf) && Shaped(w) && Asks(w.pc)
    ensures Good(Saga.Next(w, me, NoReply(c)), me, if served then Served(w, me, shelf, c) else shelf)
  {
    hide BaseOk, Inv, ShelfOk, Nameable, Rowed, HoldsPayload;
    Parts(w, me, shelf);
    ServedOk(w, me, shelf, c);
    var v := Saga.Next(w, me, NoReply(c));
    LostLeads(w, me, c);
    hide Saga.Next;
    SameBase(w, v, me, if served then Served(w, me, shelf, c) else shelf);
  }

  lemma LostLeads(w: World, me: Uuid, c: Choice)
    requires Shaped(w) && Asks(w.pc)
    ensures var v := Saga.Next(w, me, NoReply(c));
            && v.pc == Retrying(UploadUnavailable) && v.job == w.job && v.entries == w.entries && v.added == w.added
            && v.run.job == w.run.job && Shaped(v)
  {
    hide UploadMatches, CandidateMatches;
  }

  // --------------------------------------------------------------- histories

  datatype Move = Proceed(c: Choice) | Lose(c: Choice, served: bool) | CrashNow

  predicate Allowed(w: World, move: Move) {
    Shaped(w) && w.job.Some? && (move.Lose? ==> Asks(w.pc))
  }

  predicate MovesTo(w: World, me: Uuid, shelf: Shelf, move: Move, t: World, after: Shelf) {
    && Allowed(w, move)
    && match move
       case Proceed(c) => t == Go(w, me, shelf, c) && after == Served(w, me, shelf, c)
       case Lose(c, served) =>
         t == Saga.Next(w, me, NoReply(c)) && after == if served then Served(w, me, shelf, c) else shelf
       case CrashNow => t == Apply(w, me, Crash) && after == shelf
  }

  // Steps, lost replies and crashes in any order.
  predicate History(worlds: seq<World>, shelves: seq<Shelf>, moves: seq<Move>, me: Uuid) {
    && |worlds| == |shelves| == |moves| + 1
    && forall i {:trigger moves[i]} | 0 <= i < |moves| ::
         MovesTo(worlds[i], me, shelves[i], moves[i], worlds[i + 1], shelves[i + 1])
  }

  predicate OnCourse(w: World, me: Uuid, shelf: Shelf) {
    Good(w, me, shelf) || Done(w, shelf)
  }

  lemma MoveKeepsGood(w: World, me: Uuid, shelf: Shelf, move: Move, t: World, after: Shelf)
    requires OnCourse(w, me, shelf) && MovesTo(w, me, shelf, move, t, after)
    ensures OnCourse(t, me, after)
  {
    JobIsThere(w, me, shelf, move);
    hide Good, Done, Go, Shaped, Apply, Served, Saga.Next, Asks;
    match move
    case Proceed(c) => EveryStepHelps(w, me, shelf, c);
    case Lose(c, served) => LostReplyIsHarmless(w, me, shelf, c, served);
    case CrashNow => CrashIsHarmless(w, me, shelf);
  }

  lemma JobIsThere(w: World, me: Uuid, shelf: Shelf, move: Move)
    requires OnCourse(w, me, shelf) && Allowed(w, move)
    ensures Good(w, me, shelf) && w.job.Some?
  {
    hide Good, Shaped;
  }

  // Whatever is lost and crashes, the job is on its way to its end, or there.
  lemma {:induction false} HistoryIsGood(worlds: seq<World>, shelves: seq<Shelf>, moves: seq<Move>, me: Uuid, i: nat)
    requires History(worlds, shelves, moves, me) && OnCourse(worlds[0], me, shelves[0]) && i < |worlds|
    ensures OnCourse(worlds[i], me, shelves[i])
  {
    hide OnCourse, MovesTo;
    if i > 0 {
      HistoryIsGood(worlds, shelves, moves, me, i - 1);
      assert MovesTo(worlds[i - 1], me, shelves[i - 1], moves[i - 1], worlds[i], shelves[i]);
      MoveKeepsGood(worlds[i - 1], me, shelves[i - 1], moves[i - 1], worlds[i], shelves[i]);
    }
  }

  // Without further crashes and losses the job ends: it is committed and removed,
  // and the catalog has its asset.
  lemma {:induction false} GoingOnFinishes(w: World, me: Uuid, shelf: Shelf, pick: World -> Choice)
    returns (worlds: seq<World>, shelves: seq<Shelf>, moves: seq<Move>)
    requires Good(w, me, shelf)
    ensures History(worlds, shelves, moves, me) && |moves| <= Rank(w.pc) <= 13
    ensures worlds[0] == w && shelves[0] == shelf && forall move | move in moves :: move.Proceed?
    ensures Done(worlds[|moves|], shelves[|moves|])
    decreases Rank(w.pc)
  {
    Parts(w, me, shelf);
    RankBound(w.pc);
    hide Good, Done, Go, Shaped, Served, Rank, History, BaseOk, RunOk;
    var c := pick(w);
    EveryStepHelps(w, me, shelf, c);
    var t, after := Go(w, me, shelf, c), Served(w, me, shelf, c);
    OneMove(w, me, shelf, Proceed(c), t, after);
    if Done(t, after) {
      worlds, shelves, moves := [w, t], [shelf, after], [Proceed(c)];
    } else {
      worlds, shelves, moves := GoingOnFinishes(t, me, after, pick);
      Prepend(worlds, shelves, moves, me, w, shelf, Proceed(c));
      worlds, shelves, moves := [w] + worlds, [shelf] + shelves, [Proceed(c)] + moves;
    }
  }

  lemma RankBound(pc: Pc)
    ensures 1 <= Rank(pc) <= 13
  {
  }

  lemma OneMove(w: World, me: Uuid, shelf: Shelf, move: Move, t: World, after: Shelf)
    requires MovesTo(w, me, shelf, move, t, after)
    ensures History([w, t], [shelf, after], [move], me)
  {
    hide MovesTo;
  }

  lemma Prepend(worlds: seq<World>, shelves: seq<Shelf>, moves: seq<Move>, me: Uuid, w: World, shelf: Shelf, move: Move)
    requires History(worlds, shelves, moves, me) && MovesTo(w, me, shelf, move, worlds[0], shelves[0])
    ensures History([w] + worlds, [shelf] + shelves, [move] + moves, me)
    ensures ([w] + worlds)[|moves| + 1] == worlds[|moves|] && ([shelf] + shelves)[|moves| + 1] == shelves[|moves|]
  {
    hide MovesTo;
    var ws, ss, ms := [w] + worlds, [shelf] + shelves, [move] + moves;
    forall i | 0 <= i < |ms| ensures MovesTo(ws[i], me, ss[i], ms[i], ws[i + 1], ss[i + 1]) {
      if i > 0 { assert ms[i] == moves[i - 1]; }
    }
  }
}
