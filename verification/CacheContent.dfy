// What a successful hydration leaves in the cache.
module CacheContent {
  import opened Options
  import opened Sums
  import opened Cache
  import opened CacheSafety
  import opened CacheGuarantees

  // The file is the asset's: the right size, and the right content for a
  // managed asset or the right version for an external one.
  predicate Good(s: State, asset: Asset) {
    && asset.id in s.files && asset.size == Some(s.files[asset.id].size)
    && if asset.managed then s.files[asset.id].digest == asset.checksum else s.files[asset.id].mtime == asset.mtime
  }

  predicate WorkGenuine(s: State, w: Work) {
    match w
    case Waiting(_, _) => true
    case Downloading(_) => true
    case Hashing(asset, seen, _) => asset.managed && asset.size == Some(seen.size) && seen.stamp < s.nextStamp
    case Hashed(asset, seen, _, actual) =>
      && asset.managed && asset.size == Some(seen.size) && seen.stamp < s.nextStamp
      && (actual.Some? && asset.id in s.files && s.files[asset.id].stamp == seen.stamp ==>
            s.files[asset.id].digest == actual.value)
  }

  // A remembered validation that still fits its file vouches for the content.
  ghost predicate Genuine(s: State) {
    && (forall id | id in s.files :: s.files[id].stamp < s.nextStamp)
    && (forall id | id in s.validated :: s.validated[id].stamp < s.nextStamp)
    && (forall id | id in s.validated && id in s.files && s.validated[id].stamp == s.files[id].stamp ::
          s.validated[id].managed ==> s.files[id].digest == s.validated[id].source)
    && (forall task | task in s.tasks :: WorkGenuine(s, s.tasks[task]))
  }

  // The step leaves the cache genuine, and if it ends the task's hydration with
  // success then the asset's own file is there.
  ghost predicate Serves(s: State, t: State, task: Task, asset: Asset) {
    && Genuine(t)
    && (t.finished == s.finished
        || (&& task in t.finished && t.finished == s.finished[task := t.finished[task]]
            && (t.finished[task] == Ok ==> Good(t, asset))))
  }

  // -------------------------------------------------------------------- parts

  ghost predicate Fewer<K, V>(m: map<K, V>, n: map<K, V>) {
    forall k | k in n :: k in m && n[k] == m[k]
  }

  lemma FewerGenuine(s: State, t: State)
    requires Genuine(s) && Fewer(s.files, t.files) && Fewer(s.validated, t.validated) && t.nextStamp == s.nextStamp
    requires forall task | task in t.tasks ::
             (task in s.tasks && t.tasks[task] == s.tasks[task]) || WorkGenuine(t, t.tasks[task])
    ensures Genuine(t)
  {
    forall task | task in t.tasks ensures WorkGenuine(t, t.tasks[task]) {
      if task in s.tasks { assert WorkGenuine(s, s.tasks[task]); }
    }
  }

  lemma TouchGenuine(s: State, asset: Asset, now: int)
    requires Genuine(s) && Good(s, asset)
    ensures Genuine(Touch(s, asset, now)) && Good(Touch(s, asset, now), asset)
  {
    var t := Touch(s, asset, now);
    forall task | task in t.tasks ensures WorkGenuine(t, t.tasks[task]) {
      assert WorkGenuine(s, s.tasks[task]);
    }
  }

  lemma TouchedEnd(s: State, task: Task, asset: Asset, now: int)
    requires Genuine(s) && Good(s, asset)
    ensures Serves(s, End(Touch(s, asset, now), task, asset.id, Ok), task, asset)
    ensures Serves(s, Quit(Touch(s, asset, now), task, Ok), task, asset)
  {
    TouchGenuine(s, asset, now);
    var t := Touch(s, asset, now);
    FewerGenuine(t, End(t, task, asset.id, Ok));
    FewerGenuine(t, Quit(t, task, Ok));
  }

  lemma BadEnd(s: State, t: State, task: Task, asset: Asset, outcome: Outcome)
    requires Genuine(s) && outcome != Ok
    requires Fewer(s.files, t.files) && Fewer(s.validated, t.validated) && t.nextStamp == s.nextStamp
    requires Fewer(s.tasks, t.tasks) && t.finished == s.finished
    ensures Serves(s, End(t, task, asset.id, outcome), task, asset)
    ensures Serves(s, Quit(t, task, outcome), task, asset)
  {
    FewerGenuine(s, End(t, task, asset.id, outcome));
    FewerGenuine(s, Quit(t, task, outcome));
  }

  lemma AdmitServes(l: Limits, s: State, task: Task, asset: Asset)
    requires Genuine(s)
    ensures Serves(s, Admit(l, s, task, asset), task, asset)
  {
    hide Genuine, Fits, FirstFit, EvictionOrder;
    BadEnd(s, s, task, asset, Disabled);
    BadEnd(s, s, task, asset, Failed);
    if s.enabled && Reserve(l, s, asset).Some? {
      FewerGenuine(s, Admit(l, s, task, asset));
    }
  }

  lemma DroppedGenuine(s: State, id: Id)
    requires Genuine(s)
    ensures Genuine(Drop(s, id)) && Genuine(Defer(s, id))
  {
    FewerGenuine(s, Drop(s, id));
    FewerGenuine(s, Defer(s, id));
  }

  lemma RejectOwnedServes(l: Limits, s: State, task: Task, asset: Asset, discard: bool)
    requires Genuine(s)
    ensures Serves(s, RejectOwned(l, s, task, asset, discard), task, asset)
  {
    hide Genuine, Admit, Good;
    DroppedGenuine(s, asset.id);
    if !discard {
      AdmitServes(l, s, task, asset);
    } else if Opens(s, asset.id) == 0 {
      AdmitServes(l, Drop(s, asset.id), task, asset);
    } else {
      BadEnd(s, Defer(s, asset.id), task, asset, CacheBusy);
    }
  }

  lemma ValidIsGood(s: State, asset: Asset)
    requires Genuine(s) && Check(s, asset) == Valid
    ensures Good(s, asset)
  {
  }

  lemma ParkServes(s: State, t: State, task: Task, asset: Asset)
    requires Genuine(s) && task in t.tasks
             && t == s.(hydrations := t.hydrations, tasks := s.tasks[task := t.tasks[task]])
    requires WorkGenuine(t, t.tasks[task])
    ensures Serves(s, t, task, asset)
  {
    FewerGenuine(s, t);
  }

  lemma MustHashIsGenuine(s: State, asset: Asset)
    requires Genuine(s) && Check(s, asset) == MustHash
    ensures forall role :: WorkGenuine(s, Hashing(asset, Validate(asset, s.files[asset.id]), role))
  {
  }

  lemma BeginServes(l: Limits, s: State, task: Task, asset: Asset, now: int)
    requires Genuine(s)
    ensures Serves(s, Begin(l, s, task, asset, now), task, asset)
  {
    hide Genuine, Good, Admit, RejectOwned, Validate, Touch;
    var u := Begin(l, s, task, asset, now);
    if asset.id in s.hydrations {
      ParkServes(s, u, task, asset);
    } else {
      var t := s.(hydrations := s.hydrations[asset.id := task]);
      FewerGenuine(s, t);
      match Check(t, asset)
      case Absent => AdmitServes(l, t, task, asset);
      case Invalid => RejectOwnedServes(l, t, task, asset, t.enabled);
      case Valid =>
        ValidIsGood(t, asset);
        TouchedEnd(t, task, asset, now);
      case MustHash =>
        MustHashIsGenuine(t, asset);
        ParkServes(s, u, task, asset);
    }
  }

  lemma AgainServes(l: Limits, s: State, task: Task, asset: Asset, rehydrate: bool, now: int)
    requires Genuine(s)
    ensures Serves(s, Again(l, s, task, asset, rehydrate, now), task, asset)
  {
    hide Genuine, Good, Begin;
    if rehydrate { BeginServes(l, s, task, asset, now); } else { BadEnd(s, s, task, asset, Failed); }
  }

  lemma RejectWaitedServes(l: Limits, s: State, task: Task, asset: Asset, rehydrate: bool, now: int)
    requires Genuine(s)
    ensures Serves(s, RejectWaited(l, s, task, asset, rehydrate, now), task, asset)
  {
    hide Genuine, Good, Again;
    DroppedGenuine(s, asset.id);
    if Opens(s, asset.id) == 0 {
      AgainServes(l, Drop(s, asset.id), task, asset, rehydrate, now);
    } else {
      BadEnd(s, Defer(s, asset.id), task, asset, CacheBusy);
    }
  }

  lemma ResumeServes(l: Limits, s: State, task: Task, now: int)
    requires Genuine(s) && task in s.tasks && s.tasks[task].Waiting? && s.tasks[task].on in s.finished
    ensures Serves(s, Resume(l, s, task, now), task, s.tasks[task].asset)
  {
    hide Genuine, Good, Again, RejectWaited, Validate, Touch;
    var asset, outcome := s.tasks[task].asset, s.finished[s.tasks[task].on];
    if outcome == Disabled || outcome == Failed {
      BadEnd(s, s, task, asset, outcome);
    } else {
      match Check(s, asset)
      case Absent => AgainServes(l, s, task, asset, outcome == Ok, now);
      case Invalid => RejectWaitedServes(l, s, task, asset, outcome == Ok, now);
      case Valid =>
        ValidIsGood(s, asset);
        TouchedEnd(s, task, asset, now);
      case MustHash =>
        MustHashIsGenuine(s, asset);
        ParkServes(s, Resume(l, s, task, now), task, asset);
    }
  }

  lemma ReadFileServes(s: State, task: Task)
    requires Genuine(s) && task in s.tasks && s.tasks[task].Hashing?
    ensures Serves(s, ReadFile(s, task), task, s.tasks[task].asset)
  {
    assert WorkGenuine(s, s.tasks[task]);
    var t := ReadFile(s, task);
    assert WorkGenuine(t, t.tasks[task]);
    FewerGenuine(s, t);
  }

  lemma HashMatchIsGood(s: State, task: Task)
    requires Genuine(s) && task in s.tasks && s.tasks[task].Hashed?
    requires var w := s.tasks[task];
             w.asset.id in s.files && Validate(w.asset, s.files[w.asset.id]) == w.seen
             && w.actual == Some(w.asset.checksum)
    ensures Good(s, s.tasks[task].asset)
  {
    assert WorkGenuine(s, s.tasks[task]);
  }

  lemma HashDoneServes(l: Limits, s: State, task: Task, now: int)
    requires Genuine(s) && task in s.tasks && s.tasks[task].Hashed?
    ensures Serves(s, HashDone(l, s, task, now), task, s.tasks[task].asset)
  {
    hide Genuine, Good, Admit, RejectOwned, Again, RejectWaited, Validate, Touch;
    var w := s.tasks[task];
    var asset := w.asset;
    if w.actual == None {
      var t := s.(validated := s.validated - {asset.id});
      FewerGenuine(s, t);
      match w.role
      case Owner(_) => AdmitServes(l, t, task, asset);
      case Waiter(rehydrate) => AgainServes(l, t, task, asset, rehydrate, now);
    } else if asset.id in s.files && Validate(asset, s.files[asset.id]) == w.seen && w.actual == Some(asset.checksum) {
      HashMatchIsGood(s, task);
      TouchedEnd(s, task, asset, now);
    } else {
      match w.role
      case Owner(discard) => RejectOwnedServes(l, s, task, asset, discard);
      case Waiter(rehydrate) => RejectWaitedServes(l, s, task, asset, rehydrate, now);
    }
  }

  lemma StoredIsGood(s: State, t: State, asset: Asset, file: File)
    requires Genuine(s) && file.stamp == s.nextStamp && t.nextStamp == s.nextStamp + 1
    requires t == s.(files := s.files[asset.id := file], partial := t.partial, nextStamp := t.nextStamp)
    requires asset.size == Some(file.size) && file.mtime == asset.mtime
             && (asset.managed ==> file.digest == asset.checksum)
    ensures Genuine(t) && Good(t, asset)
  {
    forall task | task in t.tasks ensures WorkGenuine(t, t.tasks[task]) {
      assert WorkGenuine(s, s.tasks[task]);
    }
  }

  lemma FinishServes(s: State, task: Task, digest: Digest, now: int)
    requires Genuine(s) && task in s.tasks && s.tasks[task].Downloading?
    ensures Serves(s, Finish(s, task, digest, now), task, s.tasks[task].asset)
  {
    hide Genuine, Good, Touch;
    var asset := s.tasks[task].asset;
    if asset.size != Some(Received(s, asset.id)) || (asset.managed && digest != asset.checksum) {
      BadEnd(s, s, task, asset, Failed);
    } else {
      var file := File(asset.size.value, digest, asset.mtime, now, s.nextStamp);
      var t := s.(files := s.files[asset.id := file], partial := s.partial - {asset.id}, nextStamp := s.nextStamp + 1);
      StoredIsGood(s, t, asset, file);
      TouchedEnd(t, task, asset, now);
    }
  }

  // The task that a step belongs to, and the asset that it hydrates.
  function Subject(s: State, step: Step): Option<(Task, Asset)> {
    match step
    case BeginHydrate(task, asset, _) => Some((task, asset))
    case ResumeWaiter(task, _) => if task in s.tasks then Some((task, s.tasks[task].asset)) else None
    case ReadInThread(task) => if task in s.tasks then Some((task, s.tasks[task].asset)) else None
    case LeaveThread(task, _) => if task in s.tasks then Some((task, s.tasks[task].asset)) else None
    case ReceiveChunk(task, _) => if task in s.tasks then Some((task, s.tasks[task].asset)) else None
    case EndOfBody(task, _, _) => if task in s.tasks then Some((task, s.tasks[task].asset)) else None
    case FailAt(task) => if task in s.tasks then Some((task, s.tasks[task].asset)) else None
    case _ => None
  }

  lemma ChunkServes(l: Limits, s: State, task: Task, n: nat)
    requires Genuine(s) && task in s.tasks && s.tasks[task].Downloading? && n > 0
    ensures Serves(s, Chunk(l, s, task, n), task, s.tasks[task].asset)
  {
    hide Cache.Received, ChunkFits, End, Genuine, Good, Quit, WorkGenuine;
    var asset := s.tasks[task].asset;
    var received := Received(s, asset.id) + n;
    if asset.size.Some? && received <= asset.size.value && ChunkFits(l, s, n) {
      FewerGenuine(s, s.(partial := s.partial[asset.id := received], written := s.written[asset.id := received]));
    } else {
      BadEnd(s, s, task, asset, Failed);
    }
  }

  // A step of no task only takes files and validations away.
  ghost predicate Thins(s: State, t: State) {
    && Fewer(s.files, t.files) && Fewer(s.validated, t.validated)
    && t.tasks == s.tasks && t.nextStamp == s.nextStamp && t.finished == s.finished
  }

  lemma CountThins(s: State, id: Id)
    ensures Thins(s, Acquire(s, id)) && Thins(s, Release(s, id))
  {
    ReleaseCases(s, id);
    hide Release, Discard;
  }

  lemma EvictThins(l: Limits, s: State, id: Id, target: Target)
    ensures Thins(s, Evict(s, id)) && Thins(s, EvictToLimits(l, s, target))
  {
    hide StopAt, EvictionOrder;
  }

  lemma OtherGenuine(l: Limits, s: State, step: Step)
    requires Genuine(s) && Subject(s, step) == None && Enabled(s, step)
    ensures Genuine(Apply(l, s, step)) && Apply(l, s, step).finished == s.finished
  {
    hide Cache.Acquire, Cache.Begin, Cache.Finish, Cache.HashDone, Cache.ReadFile, Chunk, Enabled, Evict, EvictToLimits,
         Fail, Genuine, Release, Resume, Subject, WorkGenuine;
    if step.AcquireOpen? || step.ReleaseOpen? {
      CountThins(s, step.id);
    } else if step.EvictOne? {
      EvictThins(l, s, step.id, Target(0, 0, 0, 0));
    } else if step.EvictAll? {
      EvictThins(l, s, 0, step.target);
    } else {
      SwitchThins(l, s, step);
    }
    FewerGenuine(s, Apply(l, s, step));
  }

  lemma SwitchThins(l: Limits, s: State, step: Step)
    requires Subject(s, step) == None && Enabled(s, step)
    requires !step.AcquireOpen? && !step.ReleaseOpen? && !step.EvictOne? && !step.EvictAll?
    ensures Thins(s, Apply(l, s, step))
  {
  }

  // Every hydration that succeeds, whether it downloaded the file, found it,
  // hashed it or waited for another task, ends with the asset's own content in
  // the cache; and steps of no task end no hydration.
  lemma HydrationServesTheAsset(l: Limits, s: State, step: Step)
    requires Genuine(s) && Enabled(s, step)
    ensures match Subject(s, step)
            case None => Genuine(Apply(l, s, step)) && Apply(l, s, step).finished == s.finished
            case Some((task, asset)) => Serves(s, Apply(l, s, step), task, asset)
  {
    hide Genuine, Good, Serves, Begin, Resume, HashDone, EvictToLimits, Finish, Chunk, Fail, ReadFile, Evict, Release;
    match step
    case BeginHydrate(task, asset, now) => BeginServes(l, s, task, asset, now);
    case ResumeWaiter(task, now) => ResumeServes(l, s, task, now);
    case ReadInThread(task) => ReadFileServes(s, task);
    case LeaveThread(task, now) => HashDoneServes(l, s, task, now);
    case ReceiveChunk(task, n) => ChunkServes(l, s, task, n);
    case EndOfBody(task, digest, now) => FinishServes(s, task, digest, now);
    case FailAt(task) => FailServes(s, task);
    case _ => OtherGenuine(l, s, step);
  }

  lemma FailServes(s: State, task: Task)
    requires Genuine(s) && task in s.tasks
    ensures Serves(s, Fail(s, task), task, s.tasks[task].asset)
  {
    hide Genuine, Good, Serves;
    BadEnd(s, s, task, s.tasks[task].asset, Failed);
  }

  // --------------------------------------------------------------------- runs

  // A service that has just started: nobody is at work, and whatever files
  // there are fit in the budget.
  ghost predicate Start(l: Limits, s: State) {
    && s.tasks == map[] && s.hydrations == map[] && s.finished == map[] && s.opens == map[]
    && s.reservations == map[] && s.written == map[] && s.partial == map[] && s.validated == map[]
    && s.pending == {} && s.exempt == {}
    && (forall id | id in s.files :: s.files[id].stamp < s.nextStamp)
    && (l.maxBytes.Some? ==> Stored(s.files) <= l.maxBytes.value)
  }

  ghost predicate Run(l: Limits, states: seq<State>, steps: seq<Step>) {
    && |states| == |steps| + 1 && Start(l, states[0])
    && forall i | 0 <= i < |steps| ::
         Enabled(states[i], steps[i]) && states[i + 1] == Apply(l, states[i], steps[i])
  }

  lemma StartInv(l: Limits, s: State)
    requires Start(l, s)
    ensures Inv(l, s) && Genuine(s)
  {
    assert Counted(Sizes(s.files), {}) == Sizes(s.files);
    assert Counted(Ints(s.reservations), {}) == map[];
  }

  // In every state of every run the space, budget and registry invariants
  // hold, and every validation is genuine.
  lemma {:induction false} RunInv(l: Limits, states: seq<State>, steps: seq<Step>, i: nat)
    requires Run(l, states, steps) && i < |states|
    ensures Inv(l, states[i]) && Genuine(states[i])
  {
    hide Inv, Genuine, Apply, Serves, Start;
    if i == 0 {
      StartInv(l, states[0]);
    } else {
      RunInv(l, states, steps, i - 1);
      StepInv(l, states[i - 1], steps[i - 1]);
      HydrationServesTheAsset(l, states[i - 1], steps[i - 1]);
      if Subject(states[i - 1], steps[i - 1]).Some? { ServesIsGenuine(l, states[i - 1], steps[i - 1]); }
    }
  }

  lemma ServesIsGenuine(l: Limits, s: State, step: Step)
    requires Enabled(s, step) && Subject(s, step).Some?
    requires Serves(s, Apply(l, s, step), Subject(s, step).value.0, Subject(s, step).value.1)
    ensures Genuine(Apply(l, s, step))
  {
    hide Apply, Genuine, Good;
  }

  // Over any run: what is free never falls below the floor by more than the
  // running downloads were promised, and files and reservations admitted
  // unpinned stay within the budget.
  lemma RunKeepsSpaceAndBudget(l: Limits, states: seq<State>, steps: seq<Step>, i: nat)
    requires Run(l, states, steps) && i < |states|
    ensures states[i].reservations != map[] ==> Free(l, states[i]) - Remaining(states[i]) >= l.floor
    ensures l.maxBytes.Some? ==> Charged(states[i]) <= l.maxBytes.value
  {
    hide Free, Remaining, Charged, Shape;
    RunInv(l, states, steps, i);
  }

  // Over a run in which enabling downloads finds no task that saw them disabled,
  // an open file is neither removed nor replaced.
  lemma RunKeepsOpenFiles(l: Limits, states: seq<State>, steps: seq<Step>, i: nat, id: Id)
    requires Run(l, states, steps) && i < |steps| && forall k | 0 <= k <= i :: Steady(states[k], steps[k])
    requires Opens(states[i], id) > 0 && id in states[i].files && Opens(states[i + 1], id) > 0
    ensures id in states[i + 1].files && SameBytes(states[i].files[id], states[i + 1].files[id])
  {
    hide Opens, Start, SameBytes, Steady, Enabled, Apply, Unshadowed, Shadowed;
    SteadyRunIsUnshadowed(l, states, steps, i);
    NoneShadowed(states[i], id);
    OpenFileStays(l, states[i], steps[i], id);
  }

  lemma NoneShadowed(s: State, id: Id)
    requires Unshadowed(s)
    ensures !Shadowed(s, id)
  {
    forall task | task in s.tasks
      ensures !(s.tasks[task].Downloading? && s.tasks[task].asset.id == id && id in s.files)
    {
      assert Clear(s, s.tasks[task]);
    }
  }

  lemma {:induction false} SteadyRunIsUnshadowed(l: Limits, states: seq<State>, steps: seq<Step>, i: nat)
    requires Run(l, states, steps) && i <= |steps| && forall k | 0 <= k < i :: Steady(states[k], steps[k])
    ensures Unshadowed(states[i])
  {
    hide Inv, Apply, Steady, Unshadowed, Enabled;
    if i == 0 {
      StartUnshadowed(l, states[0]);
    } else {
      SteadyRunIsUnshadowed(l, states, steps, i - 1);
      RunInv(l, states, steps, i - 1);
      SteadyStaysUnshadowed(l, states[i - 1], steps[i - 1]);
    }
  }

  lemma StartUnshadowed(l: Limits, s: State)
    requires Start(l, s)
    ensures Unshadowed(s)
  {
  }

  // ------------------------------------------------ the switch in mid-flight

  ghost predicate Takes(l: Limits, s: State, step: Step, t: State) {
    Enabled(s, step) && t == Apply(l, s, step)
  }

  // A task found downloads disabled, and is hashing or has hashed the file of an
  // open asset, which is not the asset's; and there is room for it.
  ghost predicate Endangered(l: Limits, s: State, task: Task) {
    && task in s.tasks && SampledOff(s.tasks[task])
    && var w := s.tasks[task];
       && Opens(s, w.asset.id) > 0 && w.asset.id in s.files && s.files[w.asset.id].digest != w.asset.checksum
       && (w.Hashed? ==> w.actual.Some? && w.actual.value != w.asset.checksum)
       && Reserve(l, s, w.asset).Some?
  }

  // Then enabling downloads leads by steps of that task to another file in the
  // place of the open one: read it, if it is not yet read; enable downloads;
  // leave the thread; receive the asset, if it is not empty; and install it.
  lemma EnablingReplacesOpenFile(l: Limits, s: State, task: Task, now: int) returns (states: seq<State>)
    requires Inv(l, s) && Endangered(l, s, task)
    ensures |states| == 6 && states[0] == s && !Steady(states[1], EnableDownloads)
    ensures var asset := s.tasks[task].asset;
            && (states[1] == s || Takes(l, s, ReadInThread(task), states[1]))
            && Takes(l, states[1], EnableDownloads, states[2])
            && Takes(l, states[2], LeaveThread(task, now), states[3])
            && (states[4] == states[3] || Takes(l, states[3], ReceiveChunk(task, asset.size.value), states[4]))
            && Takes(l, states[4], EndOfBody(task, asset.checksum, now), states[5])
            && Opens(states[5], asset.id) == Opens(s, asset.id) && asset.id in states[5].files
            && !SameBytes(s.files[asset.id], states[5].files[asset.id])
  {
    hide Inv, Takes, Reserve, Chunk, Steady;
    var asset := s.tasks[task].asset;
    var hashed := ReadsWhileOff(l, s, task);
    var switched := Switch(l, hashed, task);
    var loading := AdmitsOverOpenFile(l, s, hashed, switched, task, now);
    var loaded := if asset.size.value == 0 then loading else Chunk(l, loading, task, asset.size.value);
    var end := Installs(l, loading, loaded, task, now);
    states := [s, hashed, switched, loading, loaded, end];
  }

  // The task's file has been read, and is not the asset's.
  predicate ReadAsWrong(t: State, task: Task, asset: Asset) {
    && task in t.tasks && t.tasks[task].Hashed? && t.tasks[task].asset == asset && t.tasks[task].role == Owner(false)
    && t.tasks[task].actual.Some? && t.tasks[task].actual.value != asset.checksum
  }

  lemma ReadsWhileOff(l: Limits, s: State, task: Task) returns (t: State)
    requires Endangered(l, s, task)
    ensures t == s || Takes(l, s, ReadInThread(task), t)
    ensures t == s.(tasks := t.tasks) && ReadAsWrong(t, task, s.tasks[task].asset)
  {
    hide Reserve;
    t := if s.tasks[task].Hashing? then ReadFile(s, task) else s;
  }

  // Who works on what makes no difference to an admission.
  lemma SameReserve(l: Limits, s: State, t: State, asset: Asset)
    requires t == s.(tasks := t.tasks, enabled := t.enabled)
    ensures EvictionOrder(t) == EvictionOrder(s) && (Reserve(l, t, asset).Some? <==> Reserve(l, s, asset).Some?)
  {
    assert Evictable(t) == Evictable(s);
    hide Evictable;
  }

  lemma AdmitsOverOpenFile(l: Limits, s: State, hashed: State, switched: State, task: Task, now: int) returns (t: State)
    requires Inv(l, s) && Endangered(l, s, task)
    requires hashed == s.(tasks := hashed.tasks) && ReadAsWrong(hashed, task, s.tasks[task].asset)
    requires switched == hashed.(enabled := true)
    ensures Takes(l, switched, LeaveThread(task, now), t)
    ensures var asset := s.tasks[task].asset;
            && asset.size.Some? && t.opens == s.opens && asset.id in t.files && t.files[asset.id] == s.files[asset.id]
            && task in t.tasks && t.tasks[task] == Downloading(asset) && Received(t, asset.id) == 0
            && ChunkFits(l, t, asset.size.value)
  {
    hide Inv, Reserve, HashDone;
    var asset := s.tasks[task].asset;
    NothingBooked(l, s, task);
    SameReserve(l, s, switched, asset);
    OpenIsKept(l, switched, asset);
    RoomForChunks(l, s, switched, asset);
    WrongIsAdmitted(l, switched, task, asset, now);
    t := HashDone(l, switched, task, now);
  }

  lemma WrongIsAdmitted(l: Limits, s: State, task: Task, asset: Asset, now: int)
    requires ReadAsWrong(s, task, asset) && s.enabled && Reserve(l, s, asset).Some?
    ensures var t := Reserve(l, s, asset).value;
            HashDone(l, s, task, now) ==
              t.(partial := t.partial[asset.id := 0], tasks := t.tasks[task := Downloading(asset)])
  {
    hide Reserve, Discard, Validate;
  }

  // A task that only hashes has no download in the tables.
  lemma NothingBooked(l: Limits, s: State, task: Task)
    requires Inv(l, s) && task in s.tasks && SampledOff(s.tasks[task])
    ensures var id := s.tasks[task].asset.id; id !in s.reservations && id !in s.partial && id !in s.written
    ensures Remaining(s) >= 0
  {
    hide Slack, Charged;
    assert TaskOk(s, task, s.tasks[task]);
    SumNonNegative(Outstanding(s.reservations, s.written));
  }

  lemma OpenIsKept(l: Limits, s: State, asset: Asset)
    requires Opens(s, asset.id) > 0 && asset.id in s.files && Reserve(l, s, asset).Some?
    ensures var t := Reserve(l, s, asset).value;
            && asset.id in t.files && t.files[asset.id] == s.files[asset.id] && t.opens == s.opens && t.tasks == s.tasks
            && t.partial == s.partial && asset.size.Some? && asset.id in t.written && t.written[asset.id] == 0
  {
    hide Fits, FirstFit;
    assert asset.id !in EvictionOrder(s);
  }

  lemma RoomForChunks(l: Limits, s: State, t: State, asset: Asset)
    requires t == s.(tasks := t.tasks, enabled := t.enabled) && Reserve(l, t, asset).Some?
    requires Remaining(s) >= 0 && asset.id !in s.partial
    ensures asset.size.Some?
    ensures var u := Reserve(l, t, asset).value;
            l.space - Stored(u.files) - Sum(u.partial[asset.id := 0]) - asset.size.value >= l.floor
  {
    var n := FirstFit(l, t, asset, EvictionOrder(t), 0);
    hide FirstFit, EvictionOrder, Stored, Without;
    SumSet(s.partial, asset.id, 0);
    assert s.partial - {asset.id} == s.partial;
  }

  lemma Installs(l: Limits, s: State, loaded: State, task: Task, now: int) returns (t: State)
    requires task in s.tasks && s.tasks[task].Downloading? && s.tasks[task].asset.size.Some?
    requires var asset := s.tasks[task].asset;
             && Received(s, asset.id) == 0 && ChunkFits(l, s, asset.size.value)
             && loaded == if asset.size.value == 0 then s else Chunk(l, s, task, asset.size.value)
    ensures var asset := s.tasks[task].asset;
            && (loaded == s || Takes(l, s, ReceiveChunk(task, asset.size.value), loaded))
            && Takes(l, loaded, EndOfBody(task, asset.checksum, now), t)
            && t.opens == s.opens && asset.id in t.files && t.files[asset.id].digest == asset.checksum
  {
    hide ChunkFits;
    t := Finish(loaded, task, s.tasks[task].asset.checksum, now);
  }

  // If downloads are enabled while an owner that found them disabled is in the
  // worker thread, the step is not steady, and the owner's download then
  // replaces a file that is open: one reader, one hydration, and the switch in
  // between.
  lemma UnsteadySwitchReplacesOpenFile() returns (l: Limits, s: seq<State>, asset: Asset)
    ensures |s| == 7 && Start(l, s[0]) && !s[0].enabled && asset.id in s[0].files
    ensures Takes(l, s[0], AcquireOpen(asset.id), s[1])
    ensures Takes(l, s[1], BeginHydrate(0, asset, 0), s[2])
    ensures Takes(l, s[2], ReadInThread(0), s[3])
    ensures Takes(l, s[3], EnableDownloads, s[4]) && !Steady(s[3], EnableDownloads)
    ensures Takes(l, s[4], LeaveThread(0, 1), s[5])
    ensures Takes(l, s[5], EndOfBody(0, asset.checksum, 1), s[6])
    ensures Opens(s[6], asset.id) == 1
    ensures asset.id in s[6].files && !SameBytes(s[0].files[asset.id], s[6].files[asset.id])
  {
    hide Takes;
    asset := Asset(0, Some(0), true, 7, 0);
    l := Limits(None, 0, 10);
    var start :=
      State(map[0 := File(0, 5, 0, 0, 0)], map[], map[], map[], map[], map[], map[], map[], map[], {}, {}, false,
            1, {});
    var held, begun, hashed := HashesWhileOff(l, start, asset);
    var switched := Switch(l, hashed, 0);
    var loading, end := ReplacesOpenFile(l, switched, asset);
    s := [start, held, begun, hashed, switched, loading, end];
  }

  lemma Switch(l: Limits, s: State, task: Task) returns (t: State)
    requires task in s.tasks && s.tasks[task].Hashed? && s.tasks[task].role == Owner(false)
    ensures Takes(l, s, EnableDownloads, t) && !Steady(s, EnableDownloads) && t == s.(enabled := true)
  {
    assert SampledOff(s.tasks[task]);
    t := s.(enabled := true);
  }

  lemma HashesWhileOff(l: Limits, start: State, asset: Asset) returns (held: State, begun: State, hashed: State)
    requires start.hydrations == map[] && start.opens == map[] && start.validated == map[] && !start.enabled
    requires start.tasks == map[] && start.finished == map[]
    requires asset.id in start.files && asset.size == Some(start.files[asset.id].size) && asset.managed
    ensures Takes(l, start, AcquireOpen(asset.id), held)
    ensures Takes(l, held, BeginHydrate(0, asset, 0), begun)
    ensures Takes(l, begun, ReadInThread(0), hashed)
    ensures hashed ==
            start.(opens := map[asset.id := 1], hydrations := map[asset.id := 0],
                   tasks := map[0 := Hashed(asset, Validate(asset, start.files[asset.id]), Owner(false),
                                            Some(start.files[asset.id].digest))])
  {
    hide Admit, RejectOwned, Validate, Touch;
    held := Acquire(start, asset.id);
    begun := Begin(l, held, 0, asset, 0);
    assert begun.opens == map[asset.id := 1] && begun.hydrations == map[asset.id := 0];
    assert begun.tasks == map[0 := Hashing(asset, Validate(asset, start.files[asset.id]), Owner(false))];
    hashed := ReadFile(begun, 0);
  }

  lemma ReplacesOpenFile(l: Limits, s: State, asset: Asset) returns (loading: State, end: State)
    requires l == Limits(None, 0, 10) && asset == Asset(0, Some(0), true, 7, 0) && s.enabled
    requires 0 in s.tasks && s.tasks[0].Hashed? && s.tasks[0].role == Owner(false) && s.tasks[0].asset == asset
    requires s.tasks[0].actual == Some(5) && Opens(s, 0) == 1
    requires s.files == map[0 := File(0, 5, 0, 0, 0)] && s.partial == map[] && s.reservations == map[]
    ensures Takes(l, s, LeaveThread(0, 1), loading) && Takes(l, loading, EndOfBody(0, 7, 1), end)
    ensures Opens(end, 0) == 1 && 0 in end.files && end.files[0].digest == 7
  {
    hide Fits, EvictionOrder, FirstFit, Discard, Validate;
    EmptyFileFits(l, s, asset);
    assert HashDone(l, s, 0, 1) == Admit(l, s, 0, asset);
    loading := HashDone(l, s, 0, 1);
    assert loading.tasks[0] == Downloading(asset) && Received(loading, 0) == 0;
    end := Finish(loading, 0, 7, 1);
  }

  lemma FirstIsIn(order: seq<Id>)
    ensures order != [] ==> order[0] in order
  {
  }

  lemma EmptyFileFits(l: Limits, s: State, asset: Asset)
    requires l == Limits(None, 0, 10) && asset.size == Some(0) && s.partial == map[] && s.reservations == map[]
    requires s.files.Keys == {asset.id} && s.files[asset.id].size == 0 && Busy(s, asset.id)
    ensures EvictionOrder(s) == [] && Fits(l, s, asset, Without(s.files, [], 0)) && Without(s.files, [], 0) == s.files
  {
    var sizes := Sizes(s.files);
    assert sizes == map[asset.id := 0];
    SumRemove(sizes, asset.id);
    assert sizes - {asset.id} == map[];
    assert Outstanding(s.reservations, s.written) == map[];
    assert Ids([]) == {} && Without(s.files, [], 0) == s.files;
    assert Stored(s.files) == 0;
    FirstIsIn(EvictionOrder(s));
  }
}
