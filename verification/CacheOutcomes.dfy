// What each step of a hydration comes to, in the terms of the tables alone: when
// it ends well, when it is refused, and what it leaves.
module CacheOutcomes {
  import opened Options
  import opened Sums
  import opened Cache
  import opened CacheSafety
  import opened CacheGuarantees
  import opened CacheContent

  // The cache has the asset: a complete file of its size and, for an external
  // asset, of its version; for a managed one it has been hashed and not changed
  // since.
  predicate HasCopy(s: State, asset: Asset) {
    && asset.id in s.files && asset.size == Some(s.files[asset.id].size)
    && var file := s.files[asset.id];
       if asset.managed then
         && asset.id in s.validated
         && s.validated[asset.id] == Validation(file.stamp, file.size, file.mtime, true, asset.checksum)
       else file.mtime == asset.mtime
  }

  // It has a file in the asset's place that is not the asset.
  predicate HasWrong(s: State, asset: Asset) {
    && asset.id in s.files
    && (asset.size != Some(s.files[asset.id].size) || (!asset.managed && s.files[asset.id].mtime != asset.mtime))
  }

  // It has a file of the right size that has to be hashed first.
  predicate HasUnknown(s: State, asset: Asset) {
    && asset.id in s.files && asset.size == Some(s.files[asset.id].size) && asset.managed
    && !HasCopy(s, asset)
  }

  // The hydration has ended well: the bytes are what they were, the file is
  // marked as used now and remembered as the asset's.
  predicate EndsOk(s: State, t: State, task: Task, asset: Asset, now: int) {
    && asset.id in s.files && asset.id in t.files && asset.id in t.validated
    && t.files == s.files[asset.id := s.files[asset.id].(atime := now, stamp := s.nextStamp)]
    && t.validated == s.validated[asset.id := t.validated[asset.id]]
    && t.validated[asset.id] == Validation(s.nextStamp, s.files[asset.id].size, s.files[asset.id].mtime, asset.managed,
                                           if asset.managed then asset.checksum else asset.mtime)
    && t.finished == s.finished[task := Ok] && t.tasks == s.tasks - {task}
    && t.opens == s.opens && t.pending == s.pending && t.pinned == s.pinned && t.enabled == s.enabled
  }

  // It has ended otherwise, and the complete files are what they were.
  predicate EndsWith(s: State, t: State, task: Task, outcome: Outcome) {
    && t.finished == s.finished[task := outcome] && t.tasks == s.tasks - {task}
    && t.files == s.files && t.validated == s.validated
    && t.opens == s.opens && t.pending == s.pending && t.pinned == s.pinned && t.enabled == s.enabled
  }

  // Nothing of the task's own download is left in the tables.
  predicate Leaves(s: State, t: State, id: Id) {
    && t.hydrations == s.hydrations - {id} && t.reservations == s.reservations - {id}
    && t.written == s.written - {id} && t.partial == s.partial - {id}
  }

  predicate KeepsDownloads(s: State, t: State) {
    && t.hydrations == s.hydrations && t.reservations == s.reservations
    && t.written == s.written && t.partial == s.partial
  }

  // --------------------------------------------------------------- admission

  // The files that no eviction may take.
  ghost function Fast(s: State): map<Id, File> {
    map id | id in s.files && (id in s.pinned || id in s.hydrations || Opens(s, id) > 0) :: s.files[id]
  }

  // The asset fits if everything goes that may.
  ghost predicate Room(l: Limits, s: State, asset: Asset) {
    && asset.size.Some?
    && (asset.id in s.pinned || l.maxBytes == None || asset.size.value <= l.maxBytes.value)
    && HasRoom(l, s, asset, Fast(s))
  }

  lemma RoomIff(l: Limits, s: State, asset: Asset)
    ensures Reserve(l, s, asset).Some? <==> Room(l, s, asset)
  {
    var order := EvictionOrder(s);
    assert order[..|order|] == order;
    EvictionOrderIsOldestFirst(s);
    assert Without(s.files, order, |order|) == Fast(s);
    if asset.size.Some? { FitsIff(l, s, asset, Fast(s)); }
    hide FirstFit, Fits, HasRoom, Evictable, OldestFirst;
  }

  // The download has begun, with a reservation of its own; complete files have
  // gone only to make room.
  ghost predicate Downloads(s: State, t: State, task: Task, asset: Asset) {
    && asset.size.Some? && t.tasks == s.tasks[task := Downloading(asset)] && t.finished == s.finished
    && t.hydrations == s.hydrations[asset.id := task]
    && t.reservations == s.reservations[asset.id := asset.size.value]
    && t.written == s.written[asset.id := 0] && t.partial == s.partial[asset.id := 0]
    && (forall id | id in t.files :: id in s.files && t.files[id] == s.files[id])
    && (forall id | id in s.files && id !in t.files ::
          id !in s.pinned && id !in s.hydrations && Opens(s, id) == 0)
    && t.opens == s.opens && t.pending == s.pending && t.pinned == s.pinned && t.enabled == s.enabled
  }

  // What becomes of a hydration that found nothing to use.
  ghost predicate Admitted(l: Limits, s: State, t: State, task: Task, asset: Asset) {
    if !s.enabled then EndsWith(s, t, task, Disabled) && Leaves(s, t, asset.id)
    else if !Room(l, s, asset) then EndsWith(s, t, task, Failed) && Leaves(s, t, asset.id)
    else Downloads(s, t, task, asset)
  }

  lemma EndOutcome(s: State, task: Task, id: Id, outcome: Outcome)
    ensures EndsWith(s, End(s, task, id, outcome), task, outcome) && Leaves(s, End(s, task, id, outcome), id)
    ensures EndsWith(s, Quit(s, task, outcome), task, outcome) && KeepsDownloads(s, Quit(s, task, outcome))
  {
  }

  lemma AdmitOutcome(l: Limits, s: State, task: Task, asset: Asset)
    requires asset.id in s.hydrations && s.hydrations[asset.id] == task
    ensures Admitted(l, s, Admit(l, s, task, asset), task, asset)
  {
    RoomIff(l, s, asset);
    EndOutcome(s, task, asset.id, Disabled);
    EndOutcome(s, task, asset.id, Failed);
    hide Room, EndsWith, Leaves, End;
    if s.enabled && Reserve(l, s, asset).Some? { BookingDownloads(l, s, task, asset); }
    hide Downloads;
  }

  lemma BookingDownloads(l: Limits, s: State, task: Task, asset: Asset)
    requires asset.id in s.hydrations && s.hydrations[asset.id] == task && s.enabled && Reserve(l, s, asset).Some?
    ensures Downloads(s, Admit(l, s, task, asset), task, asset)
  {
    hide FirstFit, Fits, EvictionOrder;
    assert s.hydrations[asset.id := task] == s.hydrations;
    var order := EvictionOrder(s);
    var gone := Ids(order[..FirstFit(l, s, asset, order, 0)]);
    assert forall id | id in gone :: id in order && id in Evictable(s);
  }

  // ----------------------------------------------------------------- a wrong file

  // The file that is not the asset's is taken away, or if somebody has it open,
  // marked to go.
  function Dropped(s: State, id: Id): State {
    s.(files := s.files - {id}, validated := s.validated - {id}, pending := s.pending - {id})
  }

  ghost predicate RejectedAsOwner(l: Limits, s: State, t: State, task: Task, asset: Asset, discard: bool) {
    if !discard then Admitted(l, s, t, task, asset)
    else if Opens(s, asset.id) > 0 then
      && EndsWith(s.(pending := s.pending + {asset.id}), t, task, CacheBusy) && Leaves(s, t, asset.id)
    else Admitted(l, Dropped(s, asset.id), t, task, asset)
  }

  lemma RejectOutcome(l: Limits, s: State, task: Task, asset: Asset, discard: bool)
    requires asset.id in s.hydrations && s.hydrations[asset.id] == task
    ensures RejectedAsOwner(l, s, RejectOwned(l, s, task, asset, discard), task, asset, discard)
  {
    hide Admit, Admitted, EndsWith, End, Leaves;
    if !discard {
      AdmitOutcome(l, s, task, asset);
    } else if Opens(s, asset.id) > 0 {
      EndOutcome(Defer(s, asset.id), task, asset.id, CacheBusy);
      DeferLeaves(s, End(Defer(s, asset.id), task, asset.id, CacheBusy), asset.id);
    } else {
      AdmitOutcome(l, Dropped(s, asset.id), task, asset);
    }
  }

  lemma DeferLeaves(s: State, t: State, id: Id)
    requires Leaves(Defer(s, id), t, id)
    ensures Leaves(s, t, id)
  {
  }

  // -------------------------------------------------------- the first look

  lemma VerdictIs(s: State, asset: Asset)
    ensures Check(s, asset) == Absent <==> asset.id !in s.files
    ensures Check(s, asset) == Invalid <==> HasWrong(s, asset)
    ensures Check(s, asset) == Valid <==> HasCopy(s, asset)
    ensures Check(s, asset) == MustHash <==> HasUnknown(s, asset)
  {
  }

  lemma TouchedOk(s: State, task: Task, asset: Asset, now: int)
    requires asset.id in s.files
    ensures EndsOk(s, End(Touch(s, asset, now), task, asset.id, Ok), task, asset, now)
    ensures Leaves(s, End(Touch(s, asset, now), task, asset.id, Ok), asset.id)
    ensures EndsOk(s, Quit(Touch(s, asset, now), task, Ok), task, asset, now)
    ensures KeepsDownloads(s, Quit(Touch(s, asset, now), task, Ok))
  {
  }

  // hydrate() up to its first await, case by case: somebody else is at work; the
  // asset is there; nothing is there; a wrong file is; or one that has to be
  // hashed.
  ghost predicate Begins(l: Limits, s: State, t: State, task: Task, asset: Asset, now: int) {
    var mine := s.(hydrations := s.hydrations[asset.id := task]);
    if asset.id in s.hydrations then t == s.(tasks := s.tasks[task := Waiting(asset, s.hydrations[asset.id])])
    else if HasCopy(s, asset) then EndsOk(s, t, task, asset, now) && Leaves(s, t, asset.id)
    else if asset.id !in s.files then Admitted(l, mine, t, task, asset)
    else if HasWrong(s, asset) then RejectedAsOwner(l, mine, t, task, asset, s.enabled)
    else
      && t == mine.(tasks := t.tasks) && task in t.tasks && t.tasks == s.tasks[task := t.tasks[task]]
      && var file := s.files[asset.id];
         t.tasks[task] == Hashing(asset, Validation(file.stamp, file.size, file.mtime, true, asset.checksum),
                                  Owner(s.enabled))
  }

  lemma BeginOutcome(l: Limits, s: State, task: Task, asset: Asset, now: int)
    ensures Begins(l, s, Begin(l, s, task, asset, now), task, asset, now)
  {
    hide Admit, Admitted, RejectOwned, RejectedAsOwner, EndsOk, Leaves, Touch, End;
    if asset.id !in s.hydrations {
      var mine := s.(hydrations := s.hydrations[asset.id := task]);
      VerdictIs(mine, asset);
      SameVerdict(s, mine, asset);
      match Check(mine, asset)
      case Absent => AdmitOutcome(l, mine, task, asset);
      case Invalid => RejectOutcome(l, mine, task, asset, mine.enabled);
      case Valid =>
        TouchedOk(mine, task, asset, now);
        MineOk(s, mine, End(Touch(mine, asset, now), task, asset.id, Ok), task, asset, now);
      case MustHash =>
    }
  }

  lemma SameVerdict(s: State, t: State, asset: Asset)
    requires t == s.(hydrations := t.hydrations)
    ensures HasCopy(t, asset) == HasCopy(s, asset) && HasWrong(t, asset) == HasWrong(s, asset)
  {
  }

  lemma MineOk(s: State, mine: State, t: State, task: Task, asset: Asset, now: int)
    requires mine == s.(hydrations := s.hydrations[asset.id := task]) && asset.id !in s.hydrations
    requires EndsOk(mine, t, task, asset, now) && Leaves(mine, t, asset.id)
    ensures EndsOk(s, t, task, asset, now) && Leaves(s, t, asset.id)
  {
    assert mine.hydrations - {asset.id} == s.hydrations - {asset.id};
  }

  // --------------------------------------------------------- after the waits

  // A waiter whose owner did not find the asset tries again only if the owner's
  // hydration ended well.
  ghost predicate TriedAgain(l: Limits, s: State, t: State, task: Task, asset: Asset, again: bool, now: int) {
    if again then Begins(l, s, t, task, asset, now) else EndsWith(s, t, task, Failed) && KeepsDownloads(s, t)
  }

  ghost predicate RejectedAsWaiter(l: Limits, s: State, t: State, task: Task, asset: Asset, again: bool, now: int) {
    if Opens(s, asset.id) > 0 then
      EndsWith(s.(pending := s.pending + {asset.id}), t, task, CacheBusy) && KeepsDownloads(s, t)
    else TriedAgain(l, Dropped(s, asset.id), t, task, asset, again, now)
  }

  lemma AgainOutcome(l: Limits, s: State, task: Task, asset: Asset, again: bool, now: int)
    ensures TriedAgain(l, s, Again(l, s, task, asset, again, now), task, asset, again, now)
  {
    hide Begin, Begins, EndsWith, KeepsDownloads, Quit;
    BeginOutcome(l, s, task, asset, now);
    EndOutcome(s, task, asset.id, Failed);
  }

  lemma RejectWaitedOutcome(l: Limits, s: State, task: Task, asset: Asset, again: bool, now: int)
    ensures RejectedAsWaiter(l, s, RejectWaited(l, s, task, asset, again, now), task, asset, again, now)
  {
    hide Again, TriedAgain, EndsWith, Quit;
    AgainOutcome(l, Dropped(s, asset.id), task, asset, again, now);
    EndOutcome(Defer(s, asset.id), task, asset.id, CacheBusy);
  }

  // A waiter after the hydration it waited for: where that one failed or found
  // downloads disabled, so does the waiter; otherwise it looks for itself.
  lemma ResumeOutcome(l: Limits, s: State, task: Task, now: int)
    requires task in s.tasks && s.tasks[task].Waiting? && s.tasks[task].on in s.finished
    ensures var asset, ended, t := s.tasks[task].asset, s.finished[s.tasks[task].on], Resume(l, s, task, now);
            if ended == Disabled || ended == Failed then EndsWith(s, t, task, ended) && KeepsDownloads(s, t)
            else if HasCopy(s, asset) then EndsOk(s, t, task, asset, now) && KeepsDownloads(s, t)
            else if asset.id !in s.files then TriedAgain(l, s, t, task, asset, ended == Ok, now)
            else if HasWrong(s, asset) then RejectedAsWaiter(l, s, t, task, asset, ended == Ok, now)
            else
              && t == s.(tasks := t.tasks) && task in t.tasks && t.tasks == s.tasks[task := t.tasks[task]]
              && var file := s.files[asset.id];
                 t.tasks[task] == Hashing(asset, Validation(file.stamp, file.size, file.mtime, true, asset.checksum),
                                          Waiter(ended == Ok))
  {
    hide Again, RejectWaited, TriedAgain, RejectedAsWaiter, EndsOk, EndsWith, KeepsDownloads, Touch, Quit, HasCopy,
         HasWrong, Begins;
    var asset, ended := s.tasks[task].asset, s.finished[s.tasks[task].on];
    VerdictIs(s, asset);
    EndOutcome(s, task, asset.id, ended);
    match Check(s, asset)
    case Absent => AgainOutcome(l, s, task, asset, ended == Ok, now);
    case Invalid =>
      WrongIs(s, asset);
      RejectWaitedOutcome(l, s, task, asset, ended == Ok, now);
    case Valid =>
      CopyIs(s, asset);
      TouchedOk(s, task, asset, now);
    case MustHash => UnknownIs(s, asset);
  }

  lemma CopyIs(s: State, asset: Asset)
    requires HasCopy(s, asset)
    ensures asset.id in s.files && !HasWrong(s, asset) && asset.size == Some(s.files[asset.id].size)
    ensures asset.managed || s.files[asset.id].mtime == asset.mtime
  {
  }

  lemma WrongIs(s: State, asset: Asset)
    requires HasWrong(s, asset)
    ensures asset.id in s.files && !HasCopy(s, asset)
  {
  }

  lemma UnknownIs(s: State, asset: Asset)
    requires HasUnknown(s, asset)
    ensures asset.id in s.files && asset.managed && !HasCopy(s, asset) && !HasWrong(s, asset)
  {
  }

  // Back from the hash: the file is taken if it is the one that was read and its
  // digest is the asset's; if it has gone or is another, the hydration goes on as
  // if nothing had been there, or as with a wrong file.
  lemma HashDoneOutcome(l: Limits, s: State, task: Task, now: int)
    requires task in s.tasks && s.tasks[task].Hashed?
    requires s.tasks[task].role.Owner? ==> Owns(s, task, s.tasks[task].asset.id)
    ensures var w, t := s.tasks[task], HashDone(l, s, task, now);
            var asset, unread := w.asset, s.(validated := s.validated - {w.asset.id});
            if w.actual == None then
              (if w.role.Owner? then Admitted(l, unread, t, task, asset)
               else TriedAgain(l, unread, t, task, asset, w.role.rehydrate, now))
            else if IsStill(s, asset, w.seen) && w.actual == Some(asset.checksum) then
              && EndsOk(s, t, task, asset, now)
              && (if w.role.Owner? then Leaves(s, t, asset.id) else KeepsDownloads(s, t))
            else if w.role.Owner? then RejectedAsOwner(l, s, t, task, asset, w.role.discard)
            else RejectedAsWaiter(l, s, t, task, asset, w.role.rehydrate, now)
  {
    hide Admit, RejectOwned, Again, RejectWaited, Admitted, TriedAgain, RejectedAsOwner, RejectedAsWaiter, EndsOk,
         Leaves, KeepsDownloads, Touch, Quit, End;
    var w := s.tasks[task];
    var asset, unread := w.asset, s.(validated := s.validated - {w.asset.id});
    if asset.id in s.files { TouchedOk(s, task, asset, now); }
    match w.role
    case Owner(discard) =>
      AdmitOutcome(l, unread, task, asset);
      RejectOutcome(l, s, task, asset, discard);
    case Waiter(again) =>
      AgainOutcome(l, unread, task, asset, again, now);
      RejectWaitedOutcome(l, s, task, asset, again, now);
  }

  predicate IsStill(s: State, asset: Asset, seen: Validation) {
    && asset.id in s.files
    && var file := s.files[asset.id];
       seen == Validation(file.stamp, file.size, file.mtime, asset.managed,
                          if asset.managed then asset.checksum else asset.mtime)
  }

  // -------------------------------------------------------------- the download

  // A chunk within the asset's size is counted, whatever else goes on.
  lemma ChunkOutcome(l: Limits, s: State, task: Task, n: nat)
    requires Inv(l, s) && task in s.tasks && s.tasks[task].Downloading? && n > 0
    ensures var asset, t := s.tasks[task].asset, Chunk(l, s, task, n);
            && asset.id in s.written && asset.size.Some?
            && if s.written[asset.id] + n <= asset.size.value
               then t == s.(partial := s.partial[asset.id := s.written[asset.id] + n],
                            written := s.written[asset.id := s.written[asset.id] + n])
               else EndsWith(s, t, task, Failed) && Leaves(s, t, asset.id)
  {
    hide Slack, Charged, ChunkFits;
    DownloadFacts(s, task);
    var asset := s.tasks[task].asset;
    EndOutcome(s, task, asset.id, Failed);
    assert asset.id in s.written;
    hide Inv, EndsWith, Leaves, End;
    if s.written[asset.id] + n <= asset.size.value { FloorCheckNeverFires(l, s, task, n); }
  }

  // The body is put in place, whole, and the hydration has ended well.
  predicate Installs(s: State, t: State, task: Task, asset: Asset, digest: Digest, now: int) {
    && asset.id in t.files && t.files == s.files[asset.id := t.files[asset.id]]
    && asset.size == Some(t.files[asset.id].size) && t.files[asset.id].digest == digest
    && t.files[asset.id].mtime == asset.mtime && t.files[asset.id].atime == now && HasCopy(t, asset)
    && t.finished == s.finished[task := Ok] && t.tasks == s.tasks - {task} && Leaves(s, t, asset.id)
    && t.opens == s.opens && t.pending == s.pending && t.pinned == s.pinned && t.enabled == s.enabled
  }

  // A body that has all the bytes, and the digest of a managed asset, is
  // installed; any other fails.
  lemma FinishOutcome(l: Limits, s: State, task: Task, digest: Digest, now: int)
    requires Inv(l, s) && task in s.tasks && s.tasks[task].Downloading?
    ensures var asset, t := s.tasks[task].asset, Finish(s, task, digest, now);
            && asset.id in s.written && asset.size.Some?
            && if s.written[asset.id] == asset.size.value && (asset.managed ==> digest == asset.checksum)
               then Installs(s, t, task, asset, digest, now)
               else EndsWith(s, t, task, Failed) && Leaves(s, t, asset.id)
  {
    hide Inv, Touch, End, EndsWith, Leaves, Installs, Finish;
    DownloadBooks(l, s, task);
    var asset := s.tasks[task].asset;
    if s.written[asset.id] == asset.size.value && (asset.managed ==> digest == asset.checksum) {
      InstalledOk(s, task, digest, now);
    } else {
      FinishFails(s, task, digest, now);
      EndOutcome(s, task, asset.id, Failed);
    }
  }

  lemma FinishFails(s: State, task: Task, digest: Digest, now: int)
    requires task in s.tasks && s.tasks[task].Downloading? && s.tasks[task].asset.id in s.written
    requires var asset := s.tasks[task].asset;
             asset.size != Some(s.written[asset.id]) || (asset.managed && digest != asset.checksum)
    ensures Finish(s, task, digest, now) == End(s, task, s.tasks[task].asset.id, Failed)
  {
    hide Touch, End;
  }

  lemma InstalledOk(s: State, task: Task, digest: Digest, now: int)
    requires task in s.tasks && s.tasks[task].Downloading? && s.tasks[task].asset.id in s.written
    requires var asset := s.tasks[task].asset;
             asset.size == Some(s.written[asset.id]) && (asset.managed ==> digest == asset.checksum)
    ensures Installs(s, Finish(s, task, digest, now), task, s.tasks[task].asset, digest, now)
  {
    hide Touch, End;
    var asset := s.tasks[task].asset;
    var file := File(asset.size.value, digest, asset.mtime, now, s.nextStamp);
    var u := s.(files := s.files[asset.id := file], partial := s.partial - {asset.id}, nextStamp := s.nextStamp + 1);
    TouchedOk(u, task, asset, now);
    assert u.partial - {asset.id} == s.partial - {asset.id};
    assert u.files[asset.id := file.(atime := now, stamp := u.nextStamp)] ==
           s.files[asset.id := file.(atime := now, stamp := u.nextStamp)];
  }

  lemma DownloadBooks(l: Limits, s: State, task: Task)
    requires Inv(l, s) && task in s.tasks && s.tasks[task].Downloading?
    ensures s.tasks[task].asset.id in s.written && s.tasks[task].asset.size.Some?
  {
    hide Slack, Charged;
    DownloadFacts(s, task);
  }

  // A waiter of a hydration that ended well ends well: the copy that was put in
  // place, or found, is the one that it sees.
  lemma WaiterEndsOk(l: Limits, s: State, task: Task, now: int)
    requires task in s.tasks && s.tasks[task].Waiting? && s.tasks[task].on in s.finished
    requires s.finished[s.tasks[task].on] == Ok && HasCopy(s, s.tasks[task].asset)
    ensures EndsOk(s, Resume(l, s, task, now), task, s.tasks[task].asset, now)
  {
    hide Resume, EndsOk, TriedAgain, RejectedAsWaiter, KeepsDownloads;
    ResumeOutcome(l, s, task, now);
  }

  // A hydration of the task that ends well here leaves a copy.
  predicate OkMeansCopy(s: State, t: State, task: Task, asset: Asset) {
    task !in s.finished && task in t.finished && t.finished[task] == Ok ==> HasCopy(t, asset)
  }

  lemma EndedOkHasCopy(s: State, t: State, task: Task, asset: Asset, now: int)
    requires EndsOk(s, t, task, asset, now) && asset.size == Some(s.files[asset.id].size)
    requires asset.managed || s.files[asset.id].mtime == asset.mtime
    ensures HasCopy(t, asset)
  {
  }

  lemma BeginsOk(l: Limits, s: State, t: State, task: Task, asset: Asset, now: int)
    requires Begins(l, s, t, task, asset, now)
    ensures OkMeansCopy(s, t, task, asset)
  {
    hide Admitted, RejectedAsOwner, EndsOk, Leaves, OkMeansCopy, HasCopy, HasWrong;
    var mine := s.(hydrations := s.hydrations[asset.id := task]);
    if asset.id in s.hydrations {
      NothingEnded(s, t, task, asset);
    } else if HasCopy(s, asset) {
      CopyIs(s, asset);
      EndedOkHasCopy(s, t, task, asset, now);
      CopyMeansCopy(s, t, task, asset);
    } else if asset.id !in s.files {
      AdmittedNotOk(l, s, mine, t, task, asset);
    } else if HasWrong(s, asset) {
      RejectedNotOk(l, s, mine, t, task, asset, s.enabled);
    } else {
      NothingEnded(s, t, task, asset);
    }
  }

  lemma TriedOk(l: Limits, s: State, t: State, task: Task, asset: Asset, again: bool, now: int)
    requires TriedAgain(l, s, t, task, asset, again, now)
    ensures OkMeansCopy(s, t, task, asset)
  {
    hide Begins, HasCopy, KeepsDownloads;
    if again { BeginsOk(l, s, t, task, asset, now); }
  }

  lemma WaitedOk(l: Limits, s: State, t: State, task: Task, asset: Asset, again: bool, now: int)
    requires RejectedAsWaiter(l, s, t, task, asset, again, now)
    ensures OkMeansCopy(s, t, task, asset)
  {
    hide TriedAgain, HasCopy, KeepsDownloads;
    if Opens(s, asset.id) == 0 { TriedOk(l, Dropped(s, asset.id), t, task, asset, again, now); }
  }

  lemma ResumedOk(l: Limits, s: State, task: Task, now: int)
    requires task in s.tasks && s.tasks[task].Waiting? && s.tasks[task].on in s.finished
    ensures OkMeansCopy(s, Resume(l, s, task, now), task, s.tasks[task].asset)
  {
    hide Resume, TriedAgain, RejectedAsWaiter, EndsOk, KeepsDownloads, OkMeansCopy;
    ResumeOutcome(l, s, task, now);
    var asset, ended, t := s.tasks[task].asset, s.finished[s.tasks[task].on], Resume(l, s, task, now);
    if ended == Disabled || ended == Failed {
      EndedBadly(s, t, task, asset, ended);
    } else if HasCopy(s, asset) {
      CopyIs(s, asset);
      EndedOkHasCopy(s, t, task, asset, now);
      CopyMeansCopy(s, t, task, asset);
    } else if asset.id !in s.files {
      TriedOk(l, s, t, task, asset, ended == Ok, now);
    } else if HasWrong(s, asset) {
      WaitedOk(l, s, t, task, asset, ended == Ok, now);
    } else {
      NothingEnded(s, t, task, asset);
    }
  }

  lemma EndedBadly(s: State, t: State, task: Task, asset: Asset, outcome: Outcome)
    requires EndsWith(s, t, task, outcome) && outcome != Ok
    ensures OkMeansCopy(s, t, task, asset)
  {
  }

  lemma NothingEnded(s: State, t: State, task: Task, asset: Asset)
    requires t.finished == s.finished
    ensures OkMeansCopy(s, t, task, asset)
  {
  }

  lemma CopyMeansCopy(s: State, t: State, task: Task, asset: Asset)
    requires HasCopy(t, asset)
    ensures OkMeansCopy(s, t, task, asset)
  {
  }

  lemma HashedOk(l: Limits, s: State, task: Task, now: int)
    requires task in s.tasks && s.tasks[task].Hashed? && WorkGenuine(s, s.tasks[task])
    requires s.tasks[task].role.Owner? ==> Owns(s, task, s.tasks[task].asset.id)
    ensures OkMeansCopy(s, HashDone(l, s, task, now), task, s.tasks[task].asset)
  {
    hide HashDone, TriedAgain, RejectedAsWaiter, EndsOk, Leaves, KeepsDownloads, OkMeansCopy, HasCopy, Room, Downloads,
         EndsWith;
    HashDoneOutcome(l, s, task, now);
    var w, t := s.tasks[task], HashDone(l, s, task, now);
    var asset, unread := w.asset, s.(validated := s.validated - {w.asset.id});
    if w.actual == None {
      if w.role.Owner? {
        AdmittedNotOk(l, s, unread, t, task, asset);
      } else {
        TriedOk(l, unread, t, task, asset, w.role.rehydrate, now);
        SameFinished(unread, s, t, task, asset);
      }
    } else if IsStill(s, asset, w.seen) && w.actual == Some(asset.checksum) {
      EndedOkHasCopy(s, t, task, asset, now);
      CopyMeansCopy(s, t, task, asset);
    } else if w.role.Owner? {
      RejectedNotOk(l, s, s, t, task, asset, w.role.discard);
    } else {
      WaitedOk(l, s, t, task, asset, w.role.rehydrate, now);
    }
  }

  lemma SameFinished(s: State, u: State, t: State, task: Task, asset: Asset)
    requires OkMeansCopy(s, t, task, asset) && s.finished == u.finished
    ensures OkMeansCopy(u, t, task, asset)
  {
    hide HasCopy;
  }

  lemma AdmittedNotOk(l: Limits, s: State, u: State, t: State, task: Task, asset: Asset)
    requires u.finished == s.finished && Admitted(l, u, t, task, asset)
    ensures OkMeansCopy(s, t, task, asset)
  {
    hide Room, HasCopy, Leaves;
  }

  lemma BusyNotOk(s: State, u: State, t: State, task: Task, asset: Asset)
    requires u.finished == s.finished && EndsWith(u, t, task, CacheBusy)
    ensures OkMeansCopy(s, t, task, asset)
  {
    hide HasCopy;
  }

  lemma RejectedNotOk(l: Limits, s: State, u: State, t: State, task: Task, asset: Asset, discard: bool)
    requires u.finished == s.finished && RejectedAsOwner(l, u, t, task, asset, discard)
    ensures OkMeansCopy(s, t, task, asset)
  {
    hide Admitted, OkMeansCopy, Leaves, Opens, EndsWith, Dropped;
    assert Dropped(u, asset.id).finished == s.finished by { DroppedFinished(u, asset.id); }
    if !discard {
      AdmittedNotOk(l, s, u, t, task, asset);
    } else if Opens(u, asset.id) == 0 {
      AdmittedNotOk(l, s, Dropped(u, asset.id), t, task, asset);
    } else {
      BusyNotOk(s, u.(pending := u.pending + {asset.id}), t, task, asset);
    }
  }

  lemma DroppedFinished(s: State, id: Id)
    ensures Dropped(s, id).finished == s.finished
  {
  }

  lemma DownloadedOk(l: Limits, s: State, step: Step, task: Task)
    requires Inv(l, s) && Enabled(s, step) && step.EndOfBody? && step.task == task
    ensures OkMeansCopy(s, Apply(l, s, step), task, s.tasks[task].asset)
  {
    FinishOutcome(l, s, task, step.digest, step.now);
    hide Inv, Finish, HasCopy, Leaves;
  }

  lemma ChunkNotOk(l: Limits, s: State, step: Step, task: Task)
    requires Inv(l, s) && Enabled(s, step) && step.ReceiveChunk? && step.task == task
    ensures OkMeansCopy(s, Apply(l, s, step), task, s.tasks[task].asset)
  {
    ChunkOutcome(l, s, task, step.n);
    hide Inv, Chunk, HasCopy, Leaves;
  }

  lemma ReadNotOk(l: Limits, s: State, step: Step, task: Task)
    requires Enabled(s, step) && (step.FailAt? || step.ReadInThread?) && step.task == task
    ensures OkMeansCopy(s, Apply(l, s, step), task, s.tasks[task].asset)
  {
    hide HasCopy;
  }

  // Whatever way a hydration ended well, its asset is there afterwards.
  lemma EndingWellLeavesCopy(l: Limits, s: State, step: Step, task: Task, asset: Asset)
    requires Inv(l, s) && Genuine(s) && Enabled(s, step) && Subject(s, step) == Some((task, asset))
    ensures OkMeansCopy(s, Apply(l, s, step), task, asset)
  {
    if step.LeaveThread? {
      OwnsIt(l, s, task);
      assert WorkGenuine(s, s.tasks[task]);
    }
    hide Inv, Genuine, Begin, Resume, HashDone, Chunk, Finish, Fail, ReadFile, OkMeansCopy, WorkGenuine;
    match step
    case BeginHydrate(_, _, now) =>
      BeginOutcome(l, s, task, asset, now);
      BeginsOk(l, s, Begin(l, s, task, asset, now), task, asset, now);
    case ResumeWaiter(_, now) => ResumedOk(l, s, task, now);
    case LeaveThread(_, now) => HashedOk(l, s, task, now);
    case ReceiveChunk(_, _) => ChunkNotOk(l, s, step, task);
    case EndOfBody(_, _, _) => DownloadedOk(l, s, step, task);
    case FailAt(_) => ReadNotOk(l, s, step, task);
    case ReadInThread(_) => ReadNotOk(l, s, step, task);
  }

  // So a waiter that comes next after a hydration that ended well ends well.
  lemma WaiterFollows(l: Limits, states: seq<State>, steps: seq<Step>, i: nat, owner: Task, waiter: Task, asset: Asset)
    requires Run(l, states, steps) && i + 1 < |steps| && Subject(states[i], steps[i]) == Some((owner, asset))
    requires owner !in states[i].finished && owner in states[i + 1].finished && states[i + 1].finished[owner] == Ok
    requires steps[i + 1].ResumeWaiter? && steps[i + 1].task == waiter
    requires states[i + 1].tasks[waiter] == Waiting(asset, owner)
    ensures EndsOk(states[i + 1], states[i + 2], waiter, asset, steps[i + 1].now)
  {
    RunInv(l, states, steps, i);
    hide Inv, Genuine, EndsOk, HasCopy, Resume;
    var s, t := states[i], states[i + 1];
    assert Enabled(s, steps[i]) && t == Apply(l, s, steps[i]);
    assert Enabled(t, steps[i + 1]) && states[i + 2] == Apply(l, t, steps[i + 1]);
    EndingWellLeavesCopy(l, s, steps[i], owner, asset);
    WaiterEndsOk(l, t, waiter, steps[i + 1].now);
  }

  // ---------------------------------------------------------- everybody else

  // Whatever a task does, the work of the others stays where it is, and so does
  // what they have received.
  predicate OthersSame(s: State, t: State, task: Task) {
    && (forall other | other in s.tasks && other != task :: other in t.tasks && t.tasks[other] == s.tasks[other])
    && forall id | id in s.hydrations && s.hydrations[id] != task && id in s.written ::
         id in t.written && t.written[id] == s.written[id]
  }

  // Nobody else has registered a hydration of the asset.
  predicate Mine(s: State, task: Task, id: Id) {
    id in s.hydrations ==> s.hydrations[id] == task
  }

  lemma EndsOthers(s: State, u: State, t: State, task: Task, id: Id)
    requires u.tasks == s.tasks && u.written == s.written && Mine(s, task, id)
    requires t.tasks == u.tasks - {task} && (t.written == u.written || t.written == u.written - {id})
    ensures OthersSame(s, t, task)
  {
  }

  lemma AdmittedOthers(l: Limits, s: State, u: State, t: State, task: Task, asset: Asset)
    requires u.tasks == s.tasks && u.written == s.written && Mine(s, task, asset.id) && Admitted(l, u, t, task, asset)
    ensures OthersSame(s, t, task)
  {
    hide Room;
  }

  lemma RejectedOthers(l: Limits, s: State, u: State, t: State, task: Task, asset: Asset, discard: bool)
    requires u.tasks == s.tasks && u.written == s.written && Mine(s, task, asset.id)
    requires RejectedAsOwner(l, u, t, task, asset, discard)
    ensures OthersSame(s, t, task)
  {
    hide Admitted, OthersSame, Mine;
    if !discard {
      AdmittedOthers(l, s, u, t, task, asset);
    } else if Opens(u, asset.id) == 0 {
      AdmittedOthers(l, s, Dropped(u, asset.id), t, task, asset);
    } else {
      EndsOthers(s, u, t, task, asset.id);
    }
  }

  lemma WaitsOthers(s: State, t: State, task: Task)
    requires task in t.tasks && t.tasks == s.tasks[task := t.tasks[task]] && t.written == s.written
    ensures OthersSame(s, t, task)
  {
  }

  lemma BeginsOthers(l: Limits, s: State, u: State, t: State, task: Task, asset: Asset, now: int)
    requires u == s.(files := u.files, validated := u.validated, pending := u.pending)
    requires Begins(l, u, t, task, asset, now)
    ensures OthersSame(s, t, task)
  {
    hide Admitted, RejectedAsOwner, HasCopy, HasWrong, OthersSame;
    var mine := u.(hydrations := u.hydrations[asset.id := task]);
    if asset.id in u.hydrations {
      WaitsOthers(s, t, task);
    } else if HasCopy(u, asset) {
      EndsOthers(s, u, t, task, asset.id);
    } else if asset.id !in u.files {
      AdmittedOthers(l, s, mine, t, task, asset);
    } else if HasWrong(u, asset) {
      RejectedOthers(l, s, mine, t, task, asset, u.enabled);
    } else {
      WaitsOthers(s, t, task);
    }
  }

  // A waiter has registered nothing.
  lemma TriedOthers(l: Limits, s: State, u: State, t: State, task: Task, asset: Asset, again: bool, now: int)
    requires u == s.(files := u.files, validated := u.validated, pending := u.pending)
    ensures TriedAgain(l, u, t, task, asset, again, now) ==> OthersSame(s, t, task)
  {
    hide Begins, OthersSame;
    if TriedAgain(l, u, t, task, asset, again, now) {
      if again { BeginsOthers(l, s, u, t, task, asset, now); } else { QuitOthers(s, u, t, task); }
    }
  }

  lemma QuitOthers(s: State, u: State, t: State, task: Task)
    requires u.tasks == s.tasks && u.written == s.written && t.tasks == u.tasks - {task} && t.written == u.written
    ensures OthersSame(s, t, task)
  {
  }

  lemma WaiterOthers(l: Limits, s: State, t: State, task: Task, asset: Asset, again: bool, now: int)
    ensures RejectedAsWaiter(l, s, t, task, asset, again, now) ==> OthersSame(s, t, task)
  {
    hide TriedAgain, OthersSame;
    TriedOthers(l, s, Dropped(s, asset.id), t, task, asset, again, now);
    if RejectedAsWaiter(l, s, t, task, asset, again, now) && Opens(s, asset.id) > 0 { QuitOthers(s, s, t, task); }
  }

  lemma ResumeOthers(l: Limits, s: State, task: Task, now: int)
    requires task in s.tasks && s.tasks[task].Waiting? && s.tasks[task].on in s.finished
    ensures OthersSame(s, Resume(l, s, task, now), task)
  {
    ResumeOutcome(l, s, task, now);
    var asset, ended, t := s.tasks[task].asset, s.finished[s.tasks[task].on], Resume(l, s, task, now);
    hide Resume, TriedAgain, RejectedAsWaiter, HasCopy, HasWrong, OthersSame;
    if ended == Disabled || ended == Failed || HasCopy(s, asset) {
      QuitOthers(s, s, t, task);
    } else if asset.id !in s.files {
      TriedOthers(l, s, s, t, task, asset, ended == Ok, now);
    } else if HasWrong(s, asset) {
      WaiterOthers(l, s, t, task, asset, ended == Ok, now);
    } else {
      WaitsOthers(s, t, task);
    }
  }

  lemma HashDoneOthers(l: Limits, s: State, task: Task, now: int)
    requires task in s.tasks && s.tasks[task].Hashed?
    requires s.tasks[task].role.Owner? ==> Owns(s, task, s.tasks[task].asset.id)
    ensures OthersSame(s, HashDone(l, s, task, now), task)
  {
    HashDoneOutcome(l, s, task, now);
    hide HashDone, TriedAgain, RejectedAsWaiter, RejectedAsOwner, Admitted, IsStill, OthersSame;
    var w, t := s.tasks[task], HashDone(l, s, task, now);
    var unread := s.(validated := s.validated - {w.asset.id});
    if IsStill(s, w.asset, w.seen) && w.actual == Some(w.asset.checksum) {
      if w.role.Owner? { EndsOthers(s, s, t, task, w.asset.id); } else { QuitOthers(s, s, t, task); }
    } else if w.role.Owner? {
      if w.actual == None { AdmittedOthers(l, s, unread, t, task, w.asset); }
      else { RejectedOthers(l, s, s, t, task, w.asset, w.role.discard); }
    } else {
      TriedOthers(l, s, unread, t, task, w.asset, w.role.rehydrate, now);
      WaiterOthers(l, s, t, task, w.asset, w.role.rehydrate, now);
    }
  }

  lemma FailOthers(s: State, task: Task)
    requires task in s.tasks && (OwnerOf(s.tasks[task], s.tasks[task].asset.id) ==>
             Owns(s, task, s.tasks[task].asset.id))
    ensures OthersSame(s, Fail(s, task), task)
  {
    hide End, Quit, OthersSame;
    var id := s.tasks[task].asset.id;
    EndOutcome(s, task, id, Failed);
    if OwnerOf(s.tasks[task], id) { EndsOthers(s, s, End(s, task, id, Failed), task, id); }
    QuitOthers(s, s, Quit(s, task, Failed), task);
  }

  lemma ReadOthers(s: State, task: Task)
    requires task in s.tasks && s.tasks[task].Hashing?
    ensures OthersSame(s, ReadFile(s, task), task)
  {
    hide OthersSame;
    WaitsOthers(s, ReadFile(s, task), task);
  }

  lemma FinishOthers(l: Limits, s: State, task: Task, digest: Digest, now: int)
    requires Inv(l, s) && task in s.tasks && s.tasks[task].Downloading?
    ensures OthersSame(s, Finish(s, task, digest, now), task)
  {
    hide Finish, Inv, HasCopy, OthersSame;
    var asset := s.tasks[task].asset;
    FinishOutcome(l, s, task, digest, now);
    OwnsIt(l, s, task);
    EndsOthers(s, s, Finish(s, task, digest, now), task, asset.id);
  }

  lemma ChunkOthers(l: Limits, s: State, task: Task, n: nat)
    requires Inv(l, s) && task in s.tasks && s.tasks[task].Downloading? && n > 0
    ensures OthersSame(s, Chunk(l, s, task, n), task)
  {
    hide Chunk, Inv;
    var asset, t := s.tasks[task].asset, Chunk(l, s, task, n);
    ChunkOutcome(l, s, task, n);
    OwnsIt(l, s, task);
    if t.tasks != s.tasks { EndsOthers(s, s, t, task, asset.id); }
  }

  lemma OwnsIt(l: Limits, s: State, task: Task)
    requires Inv(l, s) && task in s.tasks
    ensures OwnerOf(s.tasks[task], s.tasks[task].asset.id) ==> Owns(s, task, s.tasks[task].asset.id)
  {
    hide Slack, Charged;
    assert TaskOk(s, task, s.tasks[task]);
  }

  lemma StepOthers(l: Limits, s: State, step: Step, own: Task)
    requires Inv(l, s) && Enabled(s, step) && StepOf(step, own)
    ensures OthersSame(s, Apply(l, s, step), own)
  {
    if step.ReceiveChunk? || step.LeaveThread? || step.FailAt? { OwnsIt(l, s, own); }
    hide Inv, Begin, Resume, ReadFile, HashDone, Chunk, Finish, Fail, Begins, OthersSame;
    match step
    case BeginHydrate(_, asset, now) =>
      BeginOutcome(l, s, own, asset, now);
      BeginsOthers(l, s, s, Begin(l, s, own, asset, now), own, asset, now);
    case ResumeWaiter(_, now) => ResumeOthers(l, s, own, now);
    case ReadInThread(_) => ReadOthers(s, own);
    case LeaveThread(_, now) => HashDoneOthers(l, s, own, now);
    case ReceiveChunk(_, n) => ChunkOthers(l, s, own, n);
    case EndOfBody(_, digest, now) => FinishOthers(l, s, own, digest, now);
    case FailAt(_) => FailOthers(s, own);
  }

  function TaskOf(step: Step): Option<Task> {
    match step
    case BeginHydrate(own, _, _) => Some(own)
    case ResumeWaiter(own, _) => Some(own)
    case ReadInThread(own) => Some(own)
    case LeaveThread(own, _) => Some(own)
    case ReceiveChunk(own, _) => Some(own)
    case EndOfBody(own, _, _) => Some(own)
    case FailAt(own) => Some(own)
    case _ => None
  }

  predicate StepOf(step: Step, task: Task) {
    TaskOf(step) == Some(task)
  }

  // What the task has in hand.
  predicate SameWork(s: State, t: State, task: Task)
    requires task in s.tasks
  {
    && task in t.tasks && t.tasks[task] == s.tasks[task]
    && (s.tasks[task].Downloading? ==>
          var id := s.tasks[task].asset.id;
          id in s.written && id in t.written && t.written[id] == s.written[id])
  }

  // Whoever else does whatever else: a task's work stays where it is until its
  // own next step, and a download keeps what it has received.
  lemma OthersLeaveWorkAlone(l: Limits, s: State, step: Step, task: Task)
    requires Inv(l, s) && Enabled(s, step) && task in s.tasks && !StepOf(step, task)
    ensures SameWork(s, Apply(l, s, step), task)
  {
    if s.tasks[task].Downloading? { DownloadBooks(l, s, task); }
    OwnsIt(l, s, task);
    hide Inv, Apply, Enabled;
    if TaskOf(step).Some? {
      StepOthers(l, s, step, TaskOf(step).value);
    } else {
      NobodysStep(l, s, step);
    }
  }

  lemma NobodysStep(l: Limits, s: State, step: Step)
    requires Enabled(s, step) && TaskOf(step) == None
    ensures Apply(l, s, step).tasks == s.tasks && Apply(l, s, step).written == s.written
  {
    hide Evict, EvictToLimits, Release, Acquire;
    if step.EnableDownloads? {} else { OtherThins(l, s, step); }
  }

  // -------------------------------------------------------------------- runs

  // What a task has received by its own chunks from step i up to step j.
  function Chunks(steps: seq<Step>, task: Task, i: nat, j: nat): nat
    requires i <= j <= |steps|
  {
    if i == j then 0
    else Chunks(steps, task, i, j - 1)
         + if steps[j - 1].ReceiveChunk? && steps[j - 1].task == task then steps[j - 1].n else 0
  }

  // A task that started to download at step i and has done nothing since but
  // receive chunks.
  ghost predicate Receiving(states: seq<State>, steps: seq<Step>, task: Task, asset: Asset, i: nat, j: nat)
    requires i <= j <= |steps| < |states|
  {
    && task in states[i].tasks && states[i].tasks[task] == Downloading(asset)
    && asset.id in states[i].written && states[i].written[asset.id] == 0 && asset.size.Some?
    && Chunks(steps, task, i, j) <= asset.size.value
    && forall k | i <= k < j :: StepOf(steps[k], task) ==> steps[k].ReceiveChunk?
  }

  lemma {:induction false} ChunksGrow(steps: seq<Step>, task: Task, i: nat, j: nat, k: nat)
    requires i <= j <= k <= |steps|
    ensures Chunks(steps, task, i, j) <= Chunks(steps, task, i, k)
    decreases k
  {
    if j < k { ChunksGrow(steps, task, i, j, k - 1); }
  }

  // Whatever else goes on: it is still downloading, and has received its chunks.
  lemma {:induction false} StillReceiving(l: Limits, states: seq<State>, steps: seq<Step>, task: Task, asset: Asset,
                                          i: nat, j: nat)
    requires Run(l, states, steps) && i <= j <= |steps| && Receiving(states, steps, task, asset, i, j)
    ensures task in states[j].tasks && states[j].tasks[task] == Downloading(asset)
    ensures asset.id in states[j].written && states[j].written[asset.id] == Chunks(steps, task, i, j)
    decreases j
  {
    hide Inv, Apply, Enabled, Start, StepOf;
    if i < j {
      ChunksGrow(steps, task, i, j - 1, j);
      StillReceiving(l, states, steps, task, asset, i, j - 1);
      RunInv(l, states, steps, j - 1);
      var s, step := states[j - 1], steps[j - 1];
      if StepOf(step, task) {
        ItsChunk(step, task);
        ReceivesMore(l, s, step, task);
      } else {
        NotItsChunk(step, task);
        OthersLeaveWorkAlone(l, s, step, task);
      }
    }
  }

  lemma ItsChunk(step: Step, task: Task)
    requires StepOf(step, task) && step.ReceiveChunk?
    ensures step.task == task
  {
  }

  lemma NotItsChunk(step: Step, task: Task)
    requires !StepOf(step, task)
    ensures !(step.ReceiveChunk? && step.task == task)
  {
  }

  lemma ReceivesMore(l: Limits, s: State, step: Step, task: Task)
    requires Inv(l, s) && Enabled(s, step) && StepOf(step, task) && step.ReceiveChunk?
    requires task in s.tasks && s.tasks[task].Downloading? && s.tasks[task].asset.size.Some?
    requires var asset := s.tasks[task].asset;
             asset.id in s.written && s.written[asset.id] + step.n <= asset.size.value
    ensures var asset, t := s.tasks[task].asset, Apply(l, s, step);
            && step.task == task && task in t.tasks && t.tasks[task] == Downloading(asset)
            && asset.id in t.written && t.written[asset.id] == s.written[asset.id] + step.n
  {
    hide Inv, Chunk;
    ChunkOutcome(l, s, task, step.n);
  }

  // Over every run: a download whose connection holds ends well, with the file
  // in place, if and only if its chunks are the asset's size in all and, for a
  // managed asset, have its digest; whatever everybody else does meanwhile.
  lemma DownloadEndsWellIff(l: Limits, states: seq<State>, steps: seq<Step>, task: Task, asset: Asset, i: nat, j: nat)
    requires Run(l, states, steps) && i <= j < |steps| && Receiving(states, steps, task, asset, i, j)
    requires steps[j].EndOfBody? && steps[j].task == task
    ensures task in states[j + 1].finished
    ensures states[j + 1].finished[task] == Ok <==>
              Chunks(steps, task, i, j) == asset.size.value && (asset.managed ==> steps[j].digest == asset.checksum)
    ensures states[j + 1].finished[task] == Ok ==>
              Installs(states[j], states[j + 1], task, asset, steps[j].digest, steps[j].now)
  {
    StillReceiving(l, states, steps, task, asset, i, j);
    RunInv(l, states, steps, j);
    FinishOutcome(l, states[j], task, steps[j].digest, steps[j].now);
    assert Enabled(states[j], steps[j]) && states[j + 1] == Apply(l, states[j], steps[j]);
    hide Inv, Finish, Run, Receiving;
  }
}
