// What users of the cache can rely on, over any run.
module CacheGuarantees {
  import opened Options
  import opened Sums
  import opened Cache
  import opened CacheSafety

  // --------------------------------------------------------- files in use

  predicate SameBytes(f: File, g: File) {
    f.size == g.size && f.digest == g.digest && f.mtime == g.mtime
  }

  // Open files stay as they are, and so do the discards that wait for them.
  ghost predicate Keeps(s: State, t: State) {
    && t.opens == s.opens
    && (forall id | Opens(s, id) > 0 && id in s.files :: id in t.files && SameBytes(s.files[id], t.files[id]))
    && (forall id | Opens(s, id) > 0 && id in s.pending :: id in t.pending)
  }

  lemma SideKeeps(s: State, t: State)
    requires t.files == s.files && t.opens == s.opens && t.pending == s.pending
    ensures Keeps(s, t)
  {
  }

  lemma EndKeeps(s: State, task: Task, id: Id, outcome: Outcome)
    ensures Keeps(s, End(s, task, id, outcome))
  {
    hide Keeps;
    SideKeeps(s, End(s, task, id, outcome));
  }

  lemma QuitKeeps(s: State, task: Task, outcome: Outcome)
    ensures Keeps(s, Quit(s, task, outcome))
  {
    hide Keeps;
    SideKeeps(s, Quit(s, task, outcome));
  }

  lemma ThenKeeps(s: State, t: State, u: State)
    requires Keeps(s, t) && Keeps(t, u)
    ensures Keeps(s, u)
  {
  }

  lemma DiscardKeeps(s: State, id: Id)
    ensures Keeps(s, Discard(s, id).0)
  {
    hide Keeps, Drop, Defer;
    if Opens(s, id) > 0 { DeferKeeps(s, id); } else { DropKeeps(s, id); }
  }

  lemma DropKeeps(s: State, id: Id)
    requires Opens(s, id) == 0
    ensures Keeps(s, Drop(s, id))
  {
  }

  lemma DeferKeeps(s: State, id: Id)
    ensures Keeps(s, Defer(s, id))
  {
  }

  lemma TouchKeeps(s: State, asset: Asset, now: int)
    requires asset.id in s.files
    ensures Keeps(s, Touch(s, asset, now))
  {
  }

  lemma AdmitKeeps(l: Limits, s: State, task: Task, asset: Asset)
    ensures Keeps(s, Admit(l, s, task, asset))
  {
    hide Fits, FirstFit;
    if s.enabled && Reserve(l, s, asset).Some? {
      var order := EvictionOrder(s);
      var n := FirstFit(l, s, asset, order, 0);
      assert forall id | id in Ids(order[..n]) :: id in order && id in Evictable(s);
    }
  }

  lemma RejectOwnedKeeps(l: Limits, s: State, task: Task, asset: Asset, discard: bool)
    ensures Keeps(s, RejectOwned(l, s, task, asset, discard))
  {
    hide Admit, Keeps, Drop, Defer;
    if discard {
      var (t, gone) := Discard(s, asset.id);
      DiscardKeeps(s, asset.id);
      if gone { AdmitKeeps(l, t, task, asset); } else { SideKeeps(t, End(t, task, asset.id, CacheBusy)); }
      ThenKeeps(s, t, RejectOwned(l, s, task, asset, discard));
    } else {
      AdmitKeeps(l, s, task, asset);
    }
  }

  lemma BeginKeeps(l: Limits, s: State, task: Task, asset: Asset, now: int)
    ensures Keeps(s, Begin(l, s, task, asset, now))
  {
    hide Admit, RejectOwned, Keeps, Touch, Validate;
    var u := Begin(l, s, task, asset, now);
    if asset.id in s.hydrations {
      SideKeeps(s, u);
    } else {
      var t := s.(hydrations := s.hydrations[asset.id := task]);
      SideKeeps(s, t);
      match Check(t, asset) {
        case Absent => AdmitKeeps(l, t, task, asset);
        case Invalid => RejectOwnedKeeps(l, t, task, asset, t.enabled);
        case Valid =>
          TouchKeeps(t, asset, now);
          SideKeeps(Touch(t, asset, now), u);
          ThenKeeps(t, Touch(t, asset, now), u);
        case MustHash => SideKeeps(t, u);
      }
      ThenKeeps(s, t, u);
    }
  }

  lemma AgainKeeps(l: Limits, s: State, task: Task, asset: Asset, rehydrate: bool, now: int)
    ensures Keeps(s, Again(l, s, task, asset, rehydrate, now))
  {
    hide Begin, Keeps;
    if rehydrate { BeginKeeps(l, s, task, asset, now); } else { SideKeeps(s, Quit(s, task, Failed)); }
  }

  lemma RejectWaitedKeeps(l: Limits, s: State, task: Task, asset: Asset, rehydrate: bool, now: int)
    ensures Keeps(s, RejectWaited(l, s, task, asset, rehydrate, now))
  {
    hide Again, Keeps, Drop, Defer;
    var (t, gone) := Discard(s, asset.id);
    DiscardKeeps(s, asset.id);
    if gone { AgainKeeps(l, t, task, asset, rehydrate, now); } else { SideKeeps(t, Quit(t, task, CacheBusy)); }
    ThenKeeps(s, t, RejectWaited(l, s, task, asset, rehydrate, now));
  }

  lemma ValidIsThere(s: State, asset: Asset)
    requires Check(s, asset) == Valid
    ensures asset.id in s.files
  {
  }

  lemma ResumeKeeps(l: Limits, s: State, task: Task, now: int)
    requires task in s.tasks && s.tasks[task].Waiting? && s.tasks[task].on in s.finished
    ensures Keeps(s, Resume(l, s, task, now))
  {
    hide Again, Check, Keeps, Quit, RejectWaited, Touch, Validate;
    var asset, outcome := s.tasks[task].asset, s.finished[s.tasks[task].on];
    if outcome == Disabled || outcome == Failed {
      QuitKeeps(s, task, outcome);
    } else {
      match Check(s, asset)
      case Absent => AgainKeeps(l, s, task, asset, outcome == Ok, now);
      case Invalid => RejectWaitedKeeps(l, s, task, asset, outcome == Ok, now);
      case Valid =>
        ValidIsThere(s, asset);
        TouchKeeps(s, asset, now);
        QuitKeeps(Touch(s, asset, now), task, Ok);
        ThenKeeps(s, Touch(s, asset, now), Resume(l, s, task, now));
      case MustHash => SideKeeps(s, Resume(l, s, task, now));
    }
  }

  lemma HashDoneKeeps(l: Limits, s: State, task: Task, now: int)
    requires task in s.tasks && s.tasks[task].Hashed?
    ensures Keeps(s, HashDone(l, s, task, now))
  {
    hide Admit, RejectOwned, Again, RejectWaited, Keeps, Touch, Validate;
    var w, u := s.tasks[task], HashDone(l, s, task, now);
    var asset := w.asset;
    if w.actual == None {
      var t := s.(validated := s.validated - {asset.id});
      SideKeeps(s, t);
      match w.role {
        case Owner(_) => AdmitKeeps(l, t, task, asset);
        case Waiter(rehydrate) => AgainKeeps(l, t, task, asset, rehydrate, now);
      }
      ThenKeeps(s, t, u);
    } else if asset.id in s.files && Validate(asset, s.files[asset.id]) == w.seen && w.actual == Some(asset.checksum) {
      TouchKeeps(s, asset, now);
      SideKeeps(Touch(s, asset, now), u);
      ThenKeeps(s, Touch(s, asset, now), u);
    } else {
      match w.role
      case Owner(discard) => RejectOwnedKeeps(l, s, task, asset, discard);
      case Waiter(rehydrate) => RejectWaitedKeeps(l, s, task, asset, rehydrate, now);
    }
  }

  lemma EvictAllKeeps(l: Limits, s: State, target: Target)
    ensures Keeps(s, EvictToLimits(l, s, target))
  {
    hide Over, StopAt;
    var order := EvictionOrder(s);
    assert forall id | id in order :: id in Evictable(s);
    var gone := order[..StopAt(l, s, target, order, 0)];
    assert forall id | id in Ids(gone) :: id in order;
  }

  lemma FinishKeeps(s: State, task: Task, digest: Digest, now: int)
    requires task in s.tasks && s.tasks[task].Downloading?
    requires var id := s.tasks[task].asset.id; id in s.files ==> Opens(s, id) == 0
    ensures Keeps(s, Finish(s, task, digest, now))
  {
    hide Keeps, Touch;
    var asset, u := s.tasks[task].asset, Finish(s, task, digest, now);
    if u == End(s, task, asset.id, Failed) {
      SideKeeps(s, u);
    } else {
      var file := File(asset.size.value, digest, asset.mtime, now, s.nextStamp);
      var t := s.(files := s.files[asset.id := file], partial := s.partial - {asset.id}, nextStamp := s.nextStamp + 1);
      NewFileKeeps(s, t, asset.id, file);
      TouchKeeps(t, asset, now);
      SideKeeps(Touch(t, asset, now), u);
      ThenKeeps(s, t, Touch(t, asset, now));
      ThenKeeps(s, Touch(t, asset, now), u);
    }
  }

  lemma NewFileKeeps(s: State, t: State, id: Id, file: File)
    requires id in s.files ==> Opens(s, id) == 0
    requires t.files == s.files[id := file] && t.opens == s.opens && t.pending == s.pending
    ensures Keeps(s, t)
  {
  }

  lemma ChunkKeeps(l: Limits, s: State, task: Task, n: nat)
    requires task in s.tasks && s.tasks[task].Downloading? && n > 0
    ensures Keeps(s, Chunk(l, s, task, n))
  {
    hide ChunkFits, Keeps, Received;
    EndKeeps(s, task, s.tasks[task].asset.id, Failed);
    var t := Chunk(l, s, task, n);
    if t != End(s, task, s.tasks[task].asset.id, Failed) { SideKeeps(s, t); }
  }

  lemma FailKeeps(s: State, task: Task)
    requires task in s.tasks
    ensures Keeps(s, Fail(s, task))
  {
    hide Keeps, End, Quit;
    QuitKeeps(s, task, Failed);
    EndKeeps(s, task, s.tasks[task].asset.id, Failed);
  }

  // The end of a download that puts its file in the place of an open one.
  predicate Replaces(s: State, step: Step) {
    && step.EndOfBody? && step.task in s.tasks
    && var id := s.tasks[step.task].asset.id; id in s.files && Opens(s, id) > 0
  }

  // Every other step of a hydration, of a download and of an eviction.
  lemma StepKeeps(l: Limits, s: State, step: Step)
    requires Enabled(s, step) && !step.AcquireOpen? && !step.ReleaseOpen? && !Replaces(s, step)
    ensures Keeps(s, Apply(l, s, step))
  {
    hide Begin, Resume, HashDone, EvictToLimits, Finish, Keeps, Chunk, Fail, ReadFile, Evict;
    match step
    case BeginHydrate(task, asset, now) => BeginKeeps(l, s, task, asset, now);
    case ResumeWaiter(task, now) => ResumeKeeps(l, s, task, now);
    case LeaveThread(task, now) => HashDoneKeeps(l, s, task, now);
    case EndOfBody(task, digest, now) => FinishKeeps(s, task, digest, now);
    case EvictOne(id) => EvictOneKeeps(s, id);
    case EvictAll(target) => EvictAllKeeps(l, s, target);
    case ReceiveChunk(task, n) => ChunkKeeps(l, s, task, n);
    case FailAt(task) => FailKeeps(s, task);
    case ReadInThread(task) => ReadKeeps(s, task);
    case Pin(_) => SideKeeps(s, Apply(l, s, step));
    case Unpin(_) => SideKeeps(s, Apply(l, s, step));
    case EnableDownloads => SideKeeps(s, Apply(l, s, step));
  }

  lemma CountKeeps(s: State, id: Id, other: Id)
    requires Opens(s, id) > 0 && id in s.files
    ensures Acquire(s, other).files == s.files
    ensures Opens(Release(s, other), id) > 0 ==>
              id in Release(s, other).files && Release(s, other).files[id] == s.files[id]
  {
    ReleaseCases(s, other);
    hide Release, Discard;
  }

  lemma ReadKeeps(s: State, task: Task)
    requires task in s.tasks && s.tasks[task].Hashing?
    ensures Keeps(s, ReadFile(s, task))
  {
    hide Keeps;
    SideKeeps(s, ReadFile(s, task));
  }

  lemma EvictOneKeeps(s: State, id: Id)
    ensures Keeps(s, Evict(s, id))
  {
    if Evict(s, id) != s {
      assert Opens(s, id) == 0;
      GoneKeeps(s, Evict(s, id), id);
    }
  }

  lemma GoneKeeps(s: State, t: State, id: Id)
    requires Opens(s, id) == 0 && t == s.(files := s.files - {id}, validated := t.validated)
    ensures Keeps(s, t)
  {
  }

  // The asset is being downloaded although it has a complete file.
  predicate Shadowed(s: State, id: Id) {
    id in s.files && exists task | task in s.tasks :: s.tasks[task].Downloading? && s.tasks[task].asset.id == id
  }

  // While an asset stays open and is not being downloaded again, nothing removes
  // or replaces its complete file: no eviction, no admission, no discard.
  lemma OpenFileStays(l: Limits, s: State, step: Step, id: Id)
    requires Enabled(s, step) && Opens(s, id) > 0 && Opens(Apply(l, s, step), id) > 0
    requires id in s.files && !Shadowed(s, id)
    ensures id in Apply(l, s, step).files && SameBytes(s.files[id], Apply(l, s, step).files[id])
  {
    hide Begin, Resume, HashDone, EvictToLimits, Finish, Fail, Chunk, ReadFile, Evict, Acquire, Release;
    match step
    case AcquireOpen(other) => CountKeeps(s, id, other);
    case ReleaseOpen(other) => CountKeeps(s, id, other);
    case EndOfBody(task, digest, now) => FinishElsewhere(s, task, digest, now, id);
    case _ => StepKeeps(l, s, step);
  }

  lemma FinishElsewhere(s: State, task: Task, digest: Digest, now: int, id: Id)
    requires task in s.tasks && s.tasks[task].Downloading? && id in s.files && !Shadowed(s, id)
    ensures id in Finish(s, task, digest, now).files && Finish(s, task, digest, now).files[id] == s.files[id]
  {
    hide Finish;
    FinishAdds(s, task, digest, now);
  }

  // No file can be replaced by a download, neither now nor after a hash.
  ghost predicate Unshadowed(s: State) {
    forall task | task in s.tasks :: Clear(s, s.tasks[task])
  }

  predicate Clear(s: State, w: Work) {
    (w.Downloading? ==> w.asset.id !in s.files) && (SampledOff(w) ==> !s.enabled)
  }

  predicate NoNewFiles(s: State, t: State) {
    forall id | id in t.files :: id in s.files
  }

  // Only the one task has changed, and no files are new.
  ghost predicate Sheds(s: State, t: State, task: Task) {
    && t.enabled == s.enabled && NoNewFiles(s, t)
    && (forall other | other in t.tasks && other != task :: other in s.tasks && t.tasks[other] == s.tasks[other])
    && (task in t.tasks ==> Clear(t, t.tasks[task]))
  }

  lemma ShedsUnshadowed(s: State, t: State, task: Task)
    requires Unshadowed(s) && Sheds(s, t, task)
    ensures Unshadowed(t)
  {
  }

  lemma GoneSheds(s: State, t: State, task: Task)
    requires t.enabled == s.enabled && NoNewFiles(s, t) && t.tasks == s.tasks - {task}
    ensures Sheds(s, t, task)
  {
  }

  lemma NowSheds(s: State, t: State, task: Task, w: Work)
    requires t.enabled == s.enabled && NoNewFiles(s, t) && t.tasks == s.tasks[task := w] && Clear(t, w)
    ensures Sheds(s, t, task)
  {
  }

  lemma EndSheds(s: State, task: Task, id: Id, outcome: Outcome)
    ensures Sheds(s, End(s, task, id, outcome), task) && Sheds(s, Quit(s, task, outcome), task)
  {
    hide Sheds;
    GoneSheds(s, End(s, task, id, outcome), task);
    GoneSheds(s, Quit(s, task, outcome), task);
  }

  lemma ReserveThins(l: Limits, s: State, asset: Asset)
    requires Reserve(l, s, asset).Some?
    ensures var t := Reserve(l, s, asset).value;
            t.tasks == s.tasks && t.enabled == s.enabled && NoNewFiles(s, t)
  {
    hide Fits, FirstFit, EvictionOrder;
  }

  lemma AdmitSheds(l: Limits, s: State, task: Task, asset: Asset)
    requires s.enabled ==> asset.id !in s.files
    ensures Sheds(s, Admit(l, s, task, asset), task)
  {
    hide Reserve, Sheds, End;
    EndSheds(s, task, asset.id, Disabled);
    EndSheds(s, task, asset.id, Failed);
    if s.enabled && Reserve(l, s, asset).Some? {
      ReserveThins(l, s, asset);
      NowSheds(s, Admit(l, s, task, asset), task, Downloading(asset));
    }
  }

  lemma DiscardThins(s: State, id: Id)
    ensures Discard(s, id).0.tasks == s.tasks && Discard(s, id).0.written == s.written
            && Discard(s, id).0.enabled == s.enabled
    ensures NoNewFiles(s, Discard(s, id).0) && (Discard(s, id).1 ==> id !in Discard(s, id).0.files)
  {
    hide Drop, Defer, NoNewFiles;
    DropThins(s, id);
    DeferThins(s, id);
  }

  lemma DropThins(s: State, id: Id)
    ensures var t := Drop(s, id);
            && t.tasks == s.tasks && t.written == s.written && t.enabled == s.enabled
            && NoNewFiles(s, t) && id !in t.files
  {
  }

  lemma DeferThins(s: State, id: Id)
    ensures var t := Defer(s, id);
            && t.tasks == s.tasks && t.written == s.written && t.enabled == s.enabled
            && NoNewFiles(s, t)
  {
  }

  lemma RejectOwnedSheds(l: Limits, s: State, task: Task, asset: Asset, discard: bool)
    requires !discard ==> !s.enabled
    ensures Sheds(s, RejectOwned(l, s, task, asset, discard), task)
  {
    hide Admit, Sheds, Discard, End;
    if !discard {
      AdmitSheds(l, s, task, asset);
    } else {
      var (t, gone) := Discard(s, asset.id);
      DiscardThins(s, asset.id);
      if gone { AdmitSheds(l, t, task, asset); } else { EndSheds(t, task, asset.id, CacheBusy); }
      DroppedSheds(s, t, RejectOwned(l, s, task, asset, discard), task);
    }
  }

  // Before the task has changed.
  lemma DroppedSheds(s: State, t: State, u: State, task: Task)
    requires t.enabled == s.enabled && t.tasks == s.tasks && NoNewFiles(s, t) && Sheds(t, u, task)
    ensures Sheds(s, u, task)
  {
  }

  lemma TouchThins(s: State, asset: Asset, now: int)
    requires asset.id in s.files
    ensures var t := Touch(s, asset, now); t.tasks == s.tasks && t.enabled == s.enabled && NoNewFiles(s, t)
  {
  }

  lemma TouchedSheds(s: State, task: Task, asset: Asset, now: int)
    requires asset.id in s.files
    ensures Sheds(s, End(Touch(s, asset, now), task, asset.id, Ok), task)
  {
    hide Sheds, Touch, End, NoNewFiles;
    TouchThins(s, asset, now);
    EndSheds(Touch(s, asset, now), task, asset.id, Ok);
    DroppedSheds(s, Touch(s, asset, now), End(Touch(s, asset, now), task, asset.id, Ok), task);
  }

  lemma HashingSheds(s: State, task: Task, w: Work)
    requires w.Hashing? && w.role == Owner(s.enabled)
    ensures Sheds(s, s.(tasks := s.tasks[task := w]), task)
  {
    hide Sheds;
    NowSheds(s, s.(tasks := s.tasks[task := w]), task, w);
  }

  lemma RegisteredSheds(s: State, t: State, u: State, task: Task)
    requires t == s.(hydrations := t.hydrations) && Sheds(t, u, task)
    ensures Sheds(s, u, task)
  {
  }

  lemma BeginSheds(l: Limits, s: State, task: Task, asset: Asset, now: int)
    ensures Sheds(s, Begin(l, s, task, asset, now), task)
  {
    hide Admit, RejectOwned, Validate, Sheds, Touch, End, Clear, NoNewFiles;
    if asset.id in s.hydrations {
      WaitingSheds(s, task, Waiting(asset, s.hydrations[asset.id]));
    } else {
      var t := s.(hydrations := s.hydrations[asset.id := task]);
      match Check(t, asset) {
        case Absent => AdmitSheds(l, t, task, asset);
        case Invalid => RejectOwnedSheds(l, t, task, asset, t.enabled);
        case Valid => TouchedSheds(t, task, asset, now);
        case MustHash => HashingSheds(t, task, Hashing(asset, Validate(asset, t.files[asset.id]), Owner(t.enabled)));
      }
      RegisteredSheds(s, t, Begin(l, s, task, asset, now), task);
    }
  }

  lemma WaitingSheds(s: State, task: Task, w: Work)
    requires w.Waiting?
    ensures Sheds(s, s.(tasks := s.tasks[task := w]), task)
  {
    hide Sheds;
    NowSheds(s, s.(tasks := s.tasks[task := w]), task, w);
  }

  lemma AgainSheds(l: Limits, s: State, task: Task, asset: Asset, rehydrate: bool, now: int)
    ensures Sheds(s, Again(l, s, task, asset, rehydrate, now), task)
  {
    hide Begin, Sheds;
    if rehydrate { BeginSheds(l, s, task, asset, now); } else { EndSheds(s, task, asset.id, Failed); }
  }

  lemma RejectWaitedSheds(l: Limits, s: State, task: Task, asset: Asset, rehydrate: bool, now: int)
    ensures Sheds(s, RejectWaited(l, s, task, asset, rehydrate, now), task)
  {
    hide Again, Sheds, Discard, Quit;
    var (t, gone) := Discard(s, asset.id);
    DiscardThins(s, asset.id);
    if gone { AgainSheds(l, t, task, asset, rehydrate, now); } else { EndSheds(t, task, asset.id, CacheBusy); }
    DroppedSheds(s, t, RejectWaited(l, s, task, asset, rehydrate, now), task);
  }

  lemma ResumeSheds(l: Limits, s: State, task: Task, now: int)
    requires task in s.tasks && s.tasks[task].Waiting? && s.tasks[task].on in s.finished
    ensures Sheds(s, Resume(l, s, task, now), task)
  {
    hide Again, RejectWaited, Validate, Sheds, Touch, Quit, Check;
    var asset, outcome, u := s.tasks[task].asset, s.finished[s.tasks[task].on], Resume(l, s, task, now);
    if outcome == Disabled || outcome == Failed {
      EndSheds(s, task, asset.id, outcome);
    } else {
      match Check(s, asset)
      case Absent => AgainSheds(l, s, task, asset, outcome == Ok, now);
      case Invalid => RejectWaitedSheds(l, s, task, asset, outcome == Ok, now);
      case Valid =>
        ValidIsThere(s, asset);
        TouchThins(s, asset, now);
        EndSheds(Touch(s, asset, now), task, asset.id, Ok);
        DroppedSheds(s, Touch(s, asset, now), u, task);
      case MustHash => NowSheds(s, u, task, u.tasks[task]);
    }
  }

  lemma HashDoneSheds(l: Limits, s: State, task: Task, now: int)
    requires Inv(l, s) && Unshadowed(s) && task in s.tasks && s.tasks[task].Hashed?
    ensures Sheds(s, HashDone(l, s, task, now), task)
  {
    hide Admit, RejectOwned, Again, RejectWaited, Validate, Inv, Sheds, Touch, Quit, End, Unshadowed;
    var w, u := s.tasks[task], HashDone(l, s, task, now);
    var asset := w.asset;
    ReadNothing(l, s, task);
    if w.actual == None {
      var t := s.(validated := s.validated - {asset.id});
      match w.role {
        case Owner(_) => AdmitSheds(l, t, task, asset);
        case Waiter(rehydrate) => AgainSheds(l, t, task, asset, rehydrate, now);
      }
      DroppedSheds(s, t, u, task);
    } else if asset.id in s.files && Validate(asset, s.files[asset.id]) == w.seen && w.actual == Some(asset.checksum) {
      TouchThins(s, asset, now);
      EndSheds(Touch(s, asset, now), task, asset.id, Ok);
      DroppedSheds(s, Touch(s, asset, now), u, task);
    } else {
      match w.role
      case Owner(discard) => RejectOwnedSheds(l, s, task, asset, discard);
      case Waiter(rehydrate) => RejectWaitedSheds(l, s, task, asset, rehydrate, now);
    }
  }

  lemma ReadNothing(l: Limits, s: State, task: Task)
    requires Inv(l, s) && Unshadowed(s) && task in s.tasks && s.tasks[task].Hashed?
    ensures s.tasks[task].actual == None && s.tasks[task].role.Owner? ==> s.tasks[task].asset.id !in s.files
    ensures s.tasks[task].role == Owner(false) ==> !s.enabled
  {
    hide Slack, Charged;
    assert TaskOk(s, task, s.tasks[task]) && Clear(s, s.tasks[task]);
  }

  // The new file is nobody else's.
  lemma FinishUnshadowed(l: Limits, s: State, task: Task, digest: Digest, now: int)
    requires Inv(l, s) && Unshadowed(s) && task in s.tasks && s.tasks[task].Downloading?
    ensures Unshadowed(Finish(s, task, digest, now))
  {
    hide Inv, Finish;
    var t, id := Finish(s, task, digest, now), s.tasks[task].asset.id;
    FinishAdds(s, task, digest, now);
    forall other | other in t.tasks ensures Clear(t, t.tasks[other]) {
      assert Clear(s, s.tasks[other]);
      if s.tasks[other].Downloading? && s.tasks[other].asset.id == id { OneHydrationPerAsset(l, s, other, task, id); }
    }
  }

  // What is new is the file of the asset.
  lemma FinishAdds(s: State, task: Task, digest: Digest, now: int)
    requires task in s.tasks && s.tasks[task].Downloading?
    ensures var t, id := Finish(s, task, digest, now), s.tasks[task].asset.id;
            && t.tasks == s.tasks - {task} && t.enabled == s.enabled && t.pending == s.pending
            && (t.files == s.files || (id in t.files && t.files == s.files[id := t.files[id]]))
  {
    hide Validate, Received, Touch, End;
    var asset := s.tasks[task].asset;
    EndSame(s, task, asset.id, Failed);
    if asset.size.Some? {
      var file := File(asset.size.value, digest, asset.mtime, now, s.nextStamp);
      var t := s.(files := s.files[asset.id := file], partial := s.partial - {asset.id}, nextStamp := s.nextStamp + 1);
      TouchAdds(t, asset, now);
      EndSame(Touch(t, asset, now), task, asset.id, Ok);
    }
  }

  lemma EndSame(s: State, task: Task, id: Id, outcome: Outcome)
    ensures var t := End(s, task, id, outcome);
            t.tasks == s.tasks - {task} && t.enabled == s.enabled && t.pending == s.pending && t.files == s.files
  {
  }

  lemma TouchAdds(s: State, asset: Asset, now: int)
    requires asset.id in s.files
    ensures var t := Touch(s, asset, now);
            && t.tasks == s.tasks && t.enabled == s.enabled && t.pending == s.pending
            && t.files == s.files[asset.id := t.files[asset.id]]
  {
    hide Validate;
  }

  lemma ThinUnshadowed(s: State, t: State)
    requires Unshadowed(s) && t.tasks == s.tasks && t.enabled == s.enabled && NoNewFiles(s, t)
    ensures Unshadowed(t)
  {
  }

  lemma EvictOneThins(s: State, id: Id)
    ensures var t := Evict(s, id);
            t.tasks == s.tasks && t.written == s.written && t.enabled == s.enabled && NoNewFiles(s, t)
  {
  }

  lemma EvictAllThins(l: Limits, s: State, target: Target)
    ensures var t := EvictToLimits(l, s, target);
            t.tasks == s.tasks && t.written == s.written && t.enabled == s.enabled && NoNewFiles(s, t)
  {
    hide StopAt, EvictionOrder;
  }

  lemma ReleaseThins(s: State, id: Id)
    ensures var t := Release(s, id);
            && t.tasks == s.tasks && t.written == s.written && t.enabled == s.enabled
            && NoNewFiles(s, t)
  {
    hide Discard;
    DiscardThins(s.(opens := s.opens - {id}), id);
  }

  lemma OtherThins(l: Limits, s: State, step: Step)
    requires step.AcquireOpen? || step.ReleaseOpen? || step.EvictOne? || step.EvictAll? || step.Pin? || step.Unpin?
    ensures var t := Apply(l, s, step);
            && t.tasks == s.tasks && t.written == s.written && t.enabled == s.enabled
            && NoNewFiles(s, t)
  {
    hide Release, Evict, EvictToLimits, Begin, Resume, ReadFile, HashDone, Chunk, Finish, Fail;
    match step
    case ReleaseOpen(id) => ReleaseThins(s, id);
    case EvictOne(id) => EvictOneThins(s, id);
    case EvictAll(target) => EvictAllThins(l, s, target);
    case _ =>
  }

  lemma ReadSheds(s: State, task: Task)
    requires task in s.tasks && Clear(s, s.tasks[task]) && s.tasks[task].Hashing?
    ensures Sheds(s, ReadFile(s, task), task)
  {
    hide Sheds;
    NowSheds(s, ReadFile(s, task), task, ReadFile(s, task).tasks[task]);
  }

  lemma ChunkSheds(l: Limits, s: State, task: Task, n: nat)
    requires task in s.tasks && Clear(s, s.tasks[task]) && s.tasks[task].Downloading? && n > 0
    ensures Sheds(s, Chunk(l, s, task, n), task)
  {
    hide Sheds, ChunkFits, Received, End;
    EndSheds(s, task, s.tasks[task].asset.id, Failed);
    var t := Chunk(l, s, task, n);
    if t != End(s, task, s.tasks[task].asset.id, Failed) { NowSheds(s, t, task, s.tasks[task]); }
  }

  lemma FailSheds(s: State, task: Task)
    requires task in s.tasks
    ensures Sheds(s, Fail(s, task), task)
  {
    hide Sheds, End, Quit;
    EndSheds(s, task, s.tasks[task].asset.id, Failed);
  }

  // A run never gets there by steady steps.
  lemma SteadyStaysUnshadowed(l: Limits, s: State, step: Step)
    requires Inv(l, s) && Unshadowed(s) && Enabled(s, step) && Steady(s, step)
    ensures Unshadowed(Apply(l, s, step))
  {
    hide Inv, Begin, Resume, HashDone, EvictToLimits, Finish, Fail, Chunk, ReadFile, Evict, Acquire, Release, Sheds,
         Unshadowed;
    var t := Apply(l, s, step);
    match step
    case BeginHydrate(task, asset, now) =>
      BeginSheds(l, s, task, asset, now);
      ShedsUnshadowed(s, t, task);
    case ResumeWaiter(task, now) =>
      ResumeSheds(l, s, task, now);
      ShedsUnshadowed(s, t, task);
    case LeaveThread(task, now) =>
      HashDoneSheds(l, s, task, now);
      ShedsUnshadowed(s, t, task);
    case EndOfBody(task, digest, now) => FinishUnshadowed(l, s, task, digest, now);
    case ReadInThread(task) =>
      ClearHere(s, task);
      ReadSheds(s, task);
      ShedsUnshadowed(s, t, task);
    case ReceiveChunk(task, n) =>
      ClearHere(s, task);
      ChunkSheds(l, s, task, n);
      ShedsUnshadowed(s, t, task);
    case FailAt(task) =>
      FailSheds(s, task);
      ShedsUnshadowed(s, t, task);
    case EnableDownloads => EnablingUnshadowed(s);
    case _ =>
      OtherThins(l, s, step);
      ThinUnshadowed(s, t);
  }

  lemma ClearHere(s: State, task: Task)
    requires Unshadowed(s) && task in s.tasks
    ensures Clear(s, s.tasks[task])
  {
  }

  lemma EnablingUnshadowed(s: State)
    requires Unshadowed(s) && Steady(s, EnableDownloads)
    ensures Unshadowed(s.(enabled := true))
  {
    forall task | task in s.tasks ensures Clear(s.(enabled := true), s.tasks[task]) {
      assert Clear(s, s.tasks[task]);
    }
  }

  lemma LastRelease(l: Limits, s: State, id: Id)
    requires Opens(s, id) == 1 && id in s.pending
    ensures var t := Apply(l, s, ReleaseOpen(id)); id !in t.files && id !in t.pending && Opens(t, id) == 0
  {
    ReleaseCases(s, id);
    hide Release, Discard;
  }

  lemma OtherCount(l: Limits, s: State, step: Step, id: Id)
    requires (step.AcquireOpen? || step.ReleaseOpen?) && id in s.pending
             && !(step == ReleaseOpen(id) && Opens(s, id) == 1)
    ensures id in Apply(l, s, step).pending
  {
    hide Release, Discard;
    ReleaseCases(s, step.id);
  }

  // A discard that had to wait happens exactly at the last release: that step
  // removes the file, and no other step forgets that it must go.
  lemma DeferredDiscard(l: Limits, s: State, step: Step, id: Id)
    requires Inv(l, s) && Enabled(s, step) && id in s.pending
    ensures step == ReleaseOpen(id) && Opens(s, id) == 1 ==>
              var t := Apply(l, s, step); id !in t.files && id !in t.pending && Opens(t, id) == 0
    ensures !(step == ReleaseOpen(id) && Opens(s, id) == 1) ==> id in Apply(l, s, step).pending
  {
    hide Cache.Apply, Cache.Opens, Cache.Release, Enabled, Inv, SameBytes, Replaces;
    if step == ReleaseOpen(id) && Opens(s, id) == 1 {
      LastRelease(l, s, id);
    } else if step.AcquireOpen? || step.ReleaseOpen? {
      OtherCount(l, s, step, id);
    } else if step.EndOfBody? {
      FinishForgetsNothing(l, s, step);
    } else {
      NotReplaces(s, step);
      PendingIsOpen(l, s, id);
      StepKeeps(l, s, step);
    }
  }

  lemma NotReplaces(s: State, step: Step)
    ensures Replaces(s, step) ==> step.EndOfBody?
  {
  }

  lemma FinishForgetsNothing(l: Limits, s: State, step: Step)
    requires Enabled(s, step) && step.EndOfBody?
    ensures Apply(l, s, step).pending == s.pending
  {
    hide Finish, Begin, Resume, ReadFile, HashDone, Chunk, Fail, Release, Evict, EvictToLimits;
    FinishAdds(s, step.task, step.digest, step.now);
  }

  lemma PendingIsOpen(l: Limits, s: State, id: Id)
    requires Inv(l, s) && id in s.pending
    ensures Opens(s, id) > 0
  {
    hide Slack, Charged, TasksOk, OwnersOk, BooksOk;
  }

  // At most one task has registered a hydration of an asset.
  lemma OneHydrationPerAsset(l: Limits, s: State, a: Task, b: Task, id: Id)
    requires Inv(l, s) && a in s.tasks && b in s.tasks
    requires OwnerOf(s.tasks[a], id) && OwnerOf(s.tasks[b], id)
    ensures a == b
  {
    hide Slack, Charged;
    assert TaskOk(s, a, s.tasks[a]) && TaskOk(s, b, s.tasks[b]);
  }

  // -------------------------------------------------------------- admission

  // An unpinned download is admitted only when everything in the cache, what
  // was pinned included, stays within the budget with it.
  lemma UnpinnedAdmissionFits(l: Limits, s: State, asset: Asset)
    requires Reserve(l, s, asset).Some? && asset.id !in s.reservations
    requires asset.id !in s.pinned && l.maxBytes.Some?
    ensures var t := Reserve(l, s, asset).value;
            Stored(t.files) + Sum(t.reservations) <= l.maxBytes.value
  {
    hide Stored;
    SumSet(s.reservations, asset.id, asset.size.value);
    assert s.reservations - {asset.id} == s.reservations;
  }

  lemma WithoutMonotone(files: map<Id, File>, order: seq<Id>, j: nat, k: nat)
    requires j <= k <= |order|
    ensures Stored(Without(files, order, k)) <= Stored(Without(files, order, j))
  {
    assert order[..j] <= order[..k];
    var extra := Ids(order[..k]);
    assert Ids(order[..j]) <= extra;
    assert Without(files, order, k) == Without(files, order, j) - extra;
    DropSome(Without(files, order, j), extra);
  }

  lemma {:induction false} DropSome(files: map<Id, File>, ids: set<Id>)
    ensures Stored(files - ids) <= Stored(files)
    decreases |ids|
  {
    if ids == {} {
      assert files - ids == files;
    } else {
      var id :| id in ids;
      DropSome(files, ids - {id});
      assert files - ids == files - (ids - {id}) - {id};
      StoredDrop(files - (ids - {id}), id);
    }
  }

  ghost function Bytes(files: map<Id, File>): int {
    var sizes: map<Id, int> := map id | id in files :: files[id].size;
    Sum(sizes)
  }

  // What the running downloads have still to write.
  ghost function Owed(s: State): int {
    var owed: map<Id, int> :=
      map id | id in s.reservations :: s.reservations[id] - if id in s.written then s.written[id] else 0;
    Sum(owed)
  }

  // An asset fits beside these files: in the budget, unless it is pinned, with
  // what is reserved; and above the floor, with what is owed.
  ghost predicate HasRoom(l: Limits, s: State, asset: Asset, files: map<Id, File>)
    requires asset.size.Some?
  {
    && (asset.id in s.pinned || l.maxBytes == None
        || Bytes(files) + Sum(s.reservations) + asset.size.value <= l.maxBytes.value)
    && l.space - Bytes(files) - Sum(s.partial) - Owed(s) - asset.size.value >= l.floor
  }

  lemma FitsIff(l: Limits, s: State, asset: Asset, files: map<Id, File>)
    requires asset.size.Some?
    ensures Fits(l, s, asset, files) <==> HasRoom(l, s, asset, files)
  {
  }

  // What _reserve does: it refuses an asset without a size, one that is larger
  // than the budget, and one for which even all evictable entries would not make
  // room; otherwise it removes the shortest run of the least recently used ones
  // that does, and books the asset.
  lemma ReserveEvictsShortestPrefix(l: Limits, s: State, asset: Asset)
    ensures var order := EvictionOrder(s);
            match Reserve(l, s, asset)
            case None =>
              || asset.size == None
              || (asset.id !in s.pinned && l.maxBytes.Some? && asset.size.value > l.maxBytes.value)
              || forall k | 0 <= k <= |order| :: !HasRoom(l, s, asset, Without(s.files, order, k))
            case Some(t) =>
              && asset.size.Some?
              && (asset.id in s.pinned || l.maxBytes == None || asset.size.value <= l.maxBytes.value)
              && t == s.(files := t.files, validated := t.validated, exempt := t.exempt,
                         reservations := s.reservations[asset.id := asset.size.value],
                         written := s.written[asset.id := 0])
              && exists k | 0 <= k <= |order| ::
                   && t.files == Without(s.files, order, k) && HasRoom(l, s, asset, t.files)
                   && forall j | 0 <= j < k :: !HasRoom(l, s, asset, Without(s.files, order, j))
  {
    if asset.size.Some? && !TooLarge(l, s, asset) {
      FirstFitIsShortest(l, s, asset);
      hide Fits, HasRoom, FirstFit, Without;
      var order := EvictionOrder(s);
      forall k | 0 <= k <= |order|
        ensures Fits(l, s, asset, Without(s.files, order, k)) <==> HasRoom(l, s, asset, Without(s.files, order, k))
      {
        FitsIff(l, s, asset, Without(s.files, order, k));
      }
    }
  }

  lemma FirstFitIsShortest(l: Limits, s: State, asset: Asset)
    requires asset.size.Some? && !TooLarge(l, s, asset)
    ensures var order := EvictionOrder(s);
            match Reserve(l, s, asset)
            case None => forall k | 0 <= k <= |order| :: !Fits(l, s, asset, Without(s.files, order, k))
            case Some(t) =>
              exists k | 0 <= k <= |order| ::
                && t.files == Without(s.files, order, k) && Fits(l, s, asset, t.files)
                && forall j | 0 <= j < k :: !Fits(l, s, asset, Without(s.files, order, j))
  {
    var order := EvictionOrder(s);
    if Reserve(l, s, asset) == None {
      forall k | 0 <= k <= |order| ensures !Fits(l, s, asset, Without(s.files, order, k)) {
        WithoutMonotone(s.files, order, k, |order|);
      }
    } else {
      hide Fits;
      var n := FirstFit(l, s, asset, order, 0);
      assert Reserve(l, s, asset).value.files == Without(s.files, order, n);
    }
  }

  // The files that are left meet both limits, and none of those that eviction
  // could still take has been unused for too long.
  ghost predicate MeetsTarget(l: Limits, s: State, target: Target, order: seq<Id>, k: nat)
    requires k <= |order| && forall id | id in order :: id in s.files
  {
    && Bytes(Without(s.files, order, k)) <= target.maxBytes
    && l.space - Bytes(Without(s.files, order, k)) - Sum(s.partial) >= target.floor
    && forall i | k <= i < |order| :: target.now - s.files[order[i]].atime <= target.maxAge
  }

  lemma MeetsTargetIff(l: Limits, s: State, target: Target, order: seq<Id>, k: nat)
    requires k <= |order| && forall id | id in order :: id in s.files
    ensures MeetsTarget(l, s, target, order, k) <==>
              && !Over(l, s, target, Without(s.files, order, k))
              && forall i | k <= i < |order| :: !Expired(s, target, order[i])
  {
  }

  predicate Ascending(files: map<Id, File>, order: seq<Id>) {
    && (forall k | 0 <= k < |order| :: order[k] in files)
    && forall i, j | 0 <= i < j < |order| :: Before(files, order[i], order[j])
  }

  predicate OldestFirst(s: State, order: seq<Id>) {
    Ascending(s.files, order)
  }

  lemma AscendingPush(files: map<Id, File>, first: Id, rest: seq<Id>)
    requires Ascending(files, rest) && first in files
    requires forall id | id in rest :: Before(files, first, id)
    ensures Ascending(files, [first] + rest)
  {
    var order := [first] + rest;
    forall i, j | 0 <= i < j < |order| ensures Before(files, order[i], order[j]) {
      assert order[j] == rest[j - 1] && rest[j - 1] in rest;
      if i > 0 { assert order[i] == rest[i - 1]; }
    }
  }

  lemma {:induction false} OrderIsOldestFirst(files: map<Id, File>, ids: set<Id>)
    requires ids <= files.Keys
    ensures Ascending(files, Order(files, ids)) && |Order(files, ids)| == |ids|
  {
    hide Ascending, Before;
    if ids == {} {
      AscendingNone(files);
    } else {
      var first := Order(files, ids)[0];
      assert Oldest(files, ids, first) && Order(files, ids) == [first] + Order(files, ids - {first});
      OrderIsOldestFirst(files, ids - {first});
      AscendingPush(files, first, Order(files, ids - {first}));
    }
  }

  lemma AscendingNone(files: map<Id, File>)
    ensures Ascending(files, [])
  {
  }

  lemma AscendingLast(files: map<Id, File>, order: seq<Id>, id: Id)
    requires Ascending(files, order) && id in files
    requires forall other | other in order :: Before(files, other, id)
    ensures Ascending(files, order + [id])
  {
  }

  lemma AscendingCut(files: map<Id, File>, order: seq<Id>)
    requires Ascending(files, order) && order != []
    ensures var n := |order| - 1;
            && Ascending(files, order[..n]) && order[n] in files
            && forall id | id in order[..n] :: id in files && Before(files, id, order[n])
  {
  }

  lemma {:induction false} FilterKeepsOrder(files: map<Id, File>, order: seq<Id>, keep: set<Id>)
    requires Ascending(files, order)
    ensures Ascending(files, Filter(order, keep))
  {
    hide Ascending, Before;
    if order == [] {
      AscendingNone(files);
    } else {
      var n := |order| - 1;
      AscendingCut(files, order);
      FilterKeepsOrder(files, order[..n], keep);
      if order[n] in keep {
        forall id | id in Filter(order[..n], keep) ensures id in files && Before(files, id, order[n]) {
          FilterMembers(order[..n], keep, id);
        }
        AscendingLast(files, Filter(order[..n], keep), order[n]);
      }
    }
  }

  // Eviction goes through exactly the entries that are neither pinned, open nor
  // being hydrated, by last use and then by identifier.
  lemma EvictionOrderIsOldestFirst(s: State)
    ensures OldestFirst(s, EvictionOrder(s))
    ensures forall id :: id in EvictionOrder(s) <==>
              id in s.files && id !in s.pinned && id !in s.hydrations && !(id in s.opens && s.opens[id] > 0)
    ensures var order := EvictionOrder(s);
            forall i, j | 0 <= i < j < |order| ::
              || s.files[order[i]].atime < s.files[order[j]].atime
              || (s.files[order[i]].atime == s.files[order[j]].atime && order[i] < order[j])
  {
    OrderOfEvictable(s);
    var order := EvictionOrder(s);
    forall i, j | 0 <= i < j < |order| ensures Before(s.files, order[i], order[j]) {}
    hide EvictionOrder;
  }

  lemma OrderOfEvictable(s: State)
    ensures OldestFirst(s, EvictionOrder(s))
  {
    hide Evictable, Ascending;
    OrderIsOldestFirst(s.files, s.files.Keys);
    FilterKeepsOrder(s.files, Order(s.files, s.files.Keys), Evictable(s));
  }

  lemma {:induction false} StopAtIsFirst(l: Limits, s: State, target: Target, order: seq<Id>, k: nat)
    requires k <= |order| && OldestFirst(s, order)
    ensures var n := StopAt(l, s, target, order, k);
            && (n < |order| ==> !Expired(s, target, order[n]) && !Over(l, s, target, Without(s.files, order, n)))
            && forall j | k <= j < n :: Expired(s, target, order[j]) || Over(l, s, target, Without(s.files, order, j))
    decreases |order| - k
  {
    hide Over, Without;
    if StopAt(l, s, target, order, k) != k { StopAtIsFirst(l, s, target, order, k + 1); }
  }

  lemma LaterStays(s: State, target: Target, order: seq<Id>, n: nat)
    requires OldestFirst(s, order) && n < |order| && !Expired(s, target, order[n])
    ensures forall i | n <= i < |order| :: !Expired(s, target, order[i])
  {
    forall i | n <= i < |order| ensures !Expired(s, target, order[i]) {
      if n < i { assert Before(s.files, order[n], order[i]); }
    }
  }

  lemma StopAtMeets(l: Limits, s: State, target: Target, order: seq<Id>)
    requires OldestFirst(s, order)
    ensures var n := StopAt(l, s, target, order, 0);
            && (n == |order| || MeetsTarget(l, s, target, order, n))
            && forall j | 0 <= j < n :: !MeetsTarget(l, s, target, order, j)
  {
    hide Over, Without, StopAt, Expired, MeetsTarget;
    StopAtIsFirst(l, s, target, order, 0);
    var n := StopAt(l, s, target, order, 0);
    if n < |order| { LaterStays(s, target, order, n); }
    forall k | 0 <= k <= |order|
      ensures MeetsTarget(l, s, target, order, k) <==>
                && !Over(l, s, target, Without(s.files, order, k))
                && forall i | k <= i < |order| :: !Expired(s, target, order[i])
    {
      MeetsTargetIff(l, s, target, order, k);
    }
  }

  // evict_to_limits removes the shortest run of evictable entries, the least
  // recently used first, that takes every expired one and meets both limits;
  // when no run does, it removes them all.
  lemma EvictToLimitsIsShortestPrefix(l: Limits, s: State, target: Target)
    ensures var order := EvictionOrder(s);
            OldestFirst(s, order) &&
            exists n | 0 <= n <= |order| ::
              && EvictToLimits(l, s, target).files == Without(s.files, order, n)
              && (n == |order| || MeetsTarget(l, s, target, order, n))
              && forall j | 0 <= j < n :: !MeetsTarget(l, s, target, order, j)
  {
    hide Without, StopAt, MeetsTarget, Ascending, Evictable;
    EvictionOrderIsOldestFirst(s);
    StopAtMeets(l, s, target, EvictionOrder(s));
    var n := StopAt(l, s, target, EvictionOrder(s), 0);
    assert EvictToLimits(l, s, target).files == Without(s.files, EvictionOrder(s), n);
  }
}
