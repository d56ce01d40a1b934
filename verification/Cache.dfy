// The cache of complete originals: src/immich_on_demand/content_cache.py.
//
// The state is what the ContentCache object and its directory hold between two
// awaits; each step is the code that runs from one await to the next. Any
// number of tasks can be inside hydrate() at once.
module Cache {
  import opened Options
  import opened Sums

  // Asset identifiers are compared only as sort keys.
  type Id = nat

  type Task = nat

  type Digest = nat

  // mtime is the modification time that the cache gives the asset's file.
  datatype Asset = Asset(id: Id, size: Option<nat>, managed: bool, checksum: Digest, mtime: int)

  // stamp stands for device, inode and change time: it is new whenever the
  // file is created or its times are set.
  datatype File = File(size: nat, digest: Digest, mtime: int, atime: int, stamp: nat)

  datatype Validation = Validation(stamp: nat, size: nat, mtime: int, managed: bool, source: int)

  datatype Outcome = Ok | Disabled | CacheBusy | Failed

  // Where a task is suspended inside hydrate(). An owner has registered the
  // hydration; a waiter checks the file after somebody else's hydration ended.
  datatype Role = Owner(discard: bool) | Waiter(rehydrate: bool)

  datatype Work =
    | Waiting(asset: Asset, on: Task)
    | Hashing(asset: Asset, seen: Validation, role: Role)
    | Hashed(asset: Asset, seen: Validation, role: Role, actual: Option<Digest>)
    | Downloading(asset: Asset)

  datatype State = State(
    files: map<Id, File>,             // complete files
    partial: map<Id, nat>,            // bytes in temporary files
    tasks: map<Task, Work>,
    hydrations: map<Id, Task>,
    finished: map<Task, Outcome>,     // how each call of hydrate() ended
    opens: map<Id, nat>,
    reservations: map<Id, nat>,
    written: map<Id, nat>,
    validated: map<Id, Validation>,
    pending: set<Id>,                 // discards that wait for the last release
    pinned: set<Id>,
    enabled: bool,
    nextStamp: nat,
    exempt: set<Id>)                  // admitted while pinned; not part of the source

  // What never changes: the limits, and the room that the cache would have if
  // it were empty.
  datatype Limits = Limits(maxBytes: Option<nat>, floor: nat, space: int)

  // ------------------------------------------------------------------ views

  function Opens(s: State, id: Id): nat {
    if id in s.opens then s.opens[id] else 0
  }

  predicate Busy(s: State, id: Id) {
    id in s.hydrations || Opens(s, id) > 0
  }

  function Sizes(files: map<Id, File>): map<Id, int> {
    map id | id in files :: files[id].size
  }

  ghost function Stored(files: map<Id, File>): int {
    Sum(Sizes(files))
  }

  ghost function Free(l: Limits, s: State): int {
    l.space - Stored(s.files) - Sum(s.partial)
  }

  function Outstanding(reservations: map<Id, nat>, written: map<Id, nat>): map<Id, int> {
    map id | id in reservations :: reservations[id] - if id in written then written[id] else 0
  }

  // What the running downloads have still to write.
  ghost function Remaining(s: State): int {
    Sum(Outstanding(s.reservations, s.written))
  }

  // --------------------------------------------------------- eviction order

  predicate Before(files: map<Id, File>, a: Id, b: Id)
    requires a in files && b in files
  {
    files[a].atime < files[b].atime || (files[a].atime == files[b].atime && a < b)
  }

  ghost predicate Oldest(files: map<Id, File>, ids: set<Id>, id: Id)
    requires ids <= files.Keys
  {
    id in ids && forall other | other in ids && other != id :: Before(files, id, other)
  }

  lemma {:induction false} OldestExists(files: map<Id, File>, ids: set<Id>)
    requires ids <= files.Keys && ids != {}
    ensures exists id :: Oldest(files, ids, id)
  {
    var one :| one in ids;
    var rest := ids - {one};
    assert forall other | other in ids :: other == one || other in rest;
    if rest == {} {
      assert Oldest(files, ids, one);
    } else {
      OldestExists(files, rest);
      var id :| Oldest(files, rest, id);
      assert Oldest(files, ids, if Before(files, one, id) then one else id);
    }
  }

  // All entries, the least recently used first.
  ghost function Order(files: map<Id, File>, ids: set<Id>): (order: seq<Id>)
    requires ids <= files.Keys
    ensures forall id :: id in order <==> id in ids
  {
    if ids == {} then []
    else
      OldestExists(files, ids);
      var id :| Oldest(files, ids, id);
      [id] + Order(files, ids - {id})
  }

  ghost function Filter(order: seq<Id>, keep: set<Id>): seq<Id> {
    if order == [] then []
    else
      var n := |order| - 1;
      if order[n] in keep then Filter(order[..n], keep) + [order[n]] else Filter(order[..n], keep)
  }

  lemma {:induction false} FilterMembers(order: seq<Id>, keep: set<Id>, id: Id)
    ensures id in Filter(order, keep) <==> id in order && id in keep
  {
    if order != [] {
      var n := |order| - 1;
      FilterMembers(order[..n], keep, id);
      assert order == order[..n] + [order[n]];
    }
  }

  ghost function Evictable(s: State): set<Id> {
    set id | id in s.files && id !in s.pinned && !Busy(s, id)
  }

  // The entries that eviction goes through.
  ghost function EvictionOrder(s: State): (order: seq<Id>)
    ensures forall id :: id in order <==> id in Evictable(s)
    ensures forall id | id in order :: id in s.files
  {
    var order := Filter(Order(s.files, s.files.Keys), Evictable(s));
    assert forall id :: id in order <==> id in Evictable(s) by {
      forall id ensures id in order <==> id in Evictable(s) {
        FilterMembers(Order(s.files, s.files.Keys), Evictable(s), id);
      }
    }
    order
  }

  function Ids(order: seq<Id>): set<Id> {
    set id | id in order
  }

  function Without(files: map<Id, File>, order: seq<Id>, k: nat): map<Id, File>
    requires k <= |order|
  {
    files - Ids(order[..k])
  }

  // Takes the first k entries of an order out of the cache.
  ghost function Evicted(s: State, order: seq<Id>, k: nat): State
    requires k <= |order|
  {
    s.(files := Without(s.files, order, k), validated := s.validated - Ids(order[..k]))
  }

  // -------------------------------------------------------------- admission

  // Whether an asset fits beside these files.
  ghost predicate Fits(l: Limits, s: State, asset: Asset, files: map<Id, File>)
    requires asset.size.Some?
  {
    && (asset.id in s.pinned || l.maxBytes == None
        || Stored(files) + Sum(s.reservations) + asset.size.value <= l.maxBytes.value)
    && l.space - Stored(files) - Sum(s.partial) - Remaining(s) - asset.size.value >= l.floor
  }

  ghost function FirstFit(l: Limits, s: State, asset: Asset, order: seq<Id>, k: nat): (n: nat)
    requires asset.size.Some? && k <= |order|
    ensures k <= n <= |order|
    ensures n < |order| ==> Fits(l, s, asset, Without(s.files, order, n))
    ensures forall j | k <= j < n :: !Fits(l, s, asset, Without(s.files, order, j))
    decreases |order| - k
  {
    if k == |order| || Fits(l, s, asset, Without(s.files, order, k)) then k
    else FirstFit(l, s, asset, order, k + 1)
  }

  predicate TooLarge(l: Limits, s: State, asset: Asset)
    requires asset.size.Some?
  {
    asset.id !in s.pinned && l.maxBytes.Some? && asset.size.value > l.maxBytes.value
  }

  // None: the asset is refused and the cache is as it was.
  ghost function Reserve(l: Limits, s: State, asset: Asset): Option<State> {
    if asset.size == None || TooLarge(l, s, asset) then None
    else
      var order := EvictionOrder(s);
      if !Fits(l, s, asset, Without(s.files, order, |order|)) then None
      else
        Some(Evicted(s, order, FirstFit(l, s, asset, order, 0)).(
             reservations := s.reservations[asset.id := asset.size.value],
             written := s.written[asset.id := 0],
             exempt := if asset.id in s.pinned then s.exempt + {asset.id} else s.exempt - {asset.id}))
  }

  // ---------------------------------------------------------------- hydrate

  function Validate(asset: Asset, file: File): Validation {
    Validation(file.stamp, file.size, file.mtime, asset.managed, if asset.managed then asset.checksum else asset.mtime)
  }

  function Drop(s: State, id: Id): State {
    s.(files := s.files - {id}, pending := s.pending - {id}, validated := s.validated - {id})
  }

  function Defer(s: State, id: Id): State {
    s.(pending := s.pending + {id})
  }

  // _discard, and whether the file is gone: an open file stays, and the discard
  // is pending.
  function Discard(s: State, id: Id): (State, bool) {
    if Opens(s, id) > 0 then (Defer(s, id), false) else (Drop(s, id), true)
  }

  function Touch(s: State, asset: Asset, now: int): State
    requires asset.id in s.files
  {
    var file := s.files[asset.id].(atime := now, stamp := s.nextStamp);
    s.(files := s.files[asset.id := file],
       validated := s.validated[asset.id := Validate(asset, file)],
       nextStamp := s.nextStamp + 1)
  }

  // Everything that an owner's hydration has left in the tables.
  function Detach(s: State, task: Task, id: Id): State {
    s.(tasks := s.tasks - {task},
       partial := s.partial - {id},
       reservations := s.reservations - {id},
       written := s.written - {id},
       hydrations := s.hydrations - {id})
  }

  // The end of an owner's hydrate().
  function End(s: State, task: Task, id: Id, outcome: Outcome): State {
    Detach(s, task, id).(finished := s.finished[task := outcome])
  }

  // The end of hydrate() for a task that owns no hydration.
  function Quit(s: State, task: Task, outcome: Outcome): State {
    s.(tasks := s.tasks - {task}, finished := s.finished[task := outcome])
  }

  datatype Verdict = Absent | Valid | Invalid | MustHash

  function Check(s: State, asset: Asset): Verdict {
    if asset.id !in s.files then Absent
    else
      var file := s.files[asset.id];
      if asset.size != Some(file.size) then Invalid
      else if !asset.managed then (if file.mtime != asset.mtime then Invalid else Valid)
      else if asset.id in s.validated && s.validated[asset.id] == Validate(asset, file) then Valid
      else MustHash
  }

  // The owner found no usable file: reserve room and start the download.
  ghost function Admit(l: Limits, s: State, task: Task, asset: Asset): State {
    if !s.enabled then End(s, task, asset.id, Disabled)
    else
      match Reserve(l, s, asset)
      case None => End(s, task, asset.id, Failed)
      case Some(t) => t.(partial := t.partial[asset.id := 0], tasks := t.tasks[task := Downloading(asset)])
  }

  // An owner found a file that is not the asset's.
  ghost function RejectOwned(l: Limits, s: State, task: Task, asset: Asset, discard: bool): State {
    if !discard then Admit(l, s, task, asset)
    else
      var (t, gone) := Discard(s, asset.id);
      if gone then Admit(l, t, task, asset) else End(t, task, asset.id, CacheBusy)
  }

  // hydrate() up to its first await.
  ghost function Begin(l: Limits, s: State, task: Task, asset: Asset, now: int): State {
    if asset.id in s.hydrations then s.(tasks := s.tasks[task := Waiting(asset, s.hydrations[asset.id])])
    else
      var t := s.(hydrations := s.hydrations[asset.id := task]);
      match Check(t, asset)
      case Absent => Admit(l, t, task, asset)
      case Invalid => RejectOwned(l, t, task, asset, t.enabled)
      case Valid => End(Touch(t, asset, now), task, asset.id, Ok)
      case MustHash =>
        t.(tasks := t.tasks[task := Hashing(asset, Validate(asset, t.files[asset.id]), Owner(t.enabled))])
  }

  // A waiter's file is missing: only one whose owner succeeded tries again.
  ghost function Again(l: Limits, s: State, task: Task, asset: Asset, rehydrate: bool, now: int): State {
    if rehydrate then Begin(l, s, task, asset, now) else Quit(s, task, Failed)
  }

  ghost function RejectWaited(l: Limits, s: State, task: Task, asset: Asset, rehydrate: bool, now: int): State {
    var (t, gone) := Discard(s, asset.id);
    if gone then Again(l, t, task, asset, rehydrate, now) else Quit(t, task, CacheBusy)
  }

  // hydrate() after the hydration it waited for has ended.
  ghost function Resume(l: Limits, s: State, task: Task, now: int): State
    requires task in s.tasks && s.tasks[task].Waiting? && s.tasks[task].on in s.finished
  {
    var asset := s.tasks[task].asset;
    var outcome := s.finished[s.tasks[task].on];
    if outcome == Disabled || outcome == Failed then Quit(s, task, outcome)
    else
      match Check(s, asset)
      case Absent => Again(l, s, task, asset, outcome == Ok, now)
      case Invalid => RejectWaited(l, s, task, asset, outcome == Ok, now)
      case Valid => Quit(Touch(s, asset, now), task, Ok)
      case MustHash =>
        s.(tasks := s.tasks[task := Hashing(asset, Validate(asset, s.files[asset.id]), Waiter(outcome == Ok))])
  }

  // The worker thread reads the file; None when it is no longer there.
  function ReadFile(s: State, task: Task): State
    requires task in s.tasks && s.tasks[task].Hashing?
  {
    var w := s.tasks[task];
    var actual := if w.asset.id in s.files then Some(s.files[w.asset.id].digest) else None;
    s.(tasks := s.tasks[task := Hashed(w.asset, w.seen, w.role, actual)])
  }

  // Back from the worker thread.
  ghost function HashDone(l: Limits, s: State, task: Task, now: int): State
    requires task in s.tasks && s.tasks[task].Hashed?
  {
    var w := s.tasks[task];
    var asset := w.asset;
    if w.actual == None then
      var t := s.(validated := s.validated - {asset.id});
      match w.role
      case Owner(_) => Admit(l, t, task, asset)
      case Waiter(rehydrate) => Again(l, t, task, asset, rehydrate, now)
    else if asset.id in s.files && Validate(asset, s.files[asset.id]) == w.seen && w.actual == Some(asset.checksum) then
      var t := Touch(s, asset, now);
      if w.role.Owner? then End(t, task, asset.id, Ok) else Quit(t, task, Ok)
    else
      match w.role
      case Owner(discard) => RejectOwned(l, s, task, asset, discard)
      case Waiter(rehydrate) => RejectWaited(l, s, task, asset, rehydrate, now)
  }

  function Received(s: State, id: Id): nat {
    if id in s.written then s.written[id] else 0
  }

  // One chunk of the response body.
  ghost predicate ChunkFits(l: Limits, s: State, n: nat) {
    Free(l, s) - n >= l.floor
  }

  ghost function Chunk(l: Limits, s: State, task: Task, n: nat): State
    requires task in s.tasks && s.tasks[task].Downloading? && n > 0
  {
    var asset := s.tasks[task].asset;
    var received := Received(s, asset.id) + n;
    if asset.size.Some? && received <= asset.size.value && ChunkFits(l, s, n) then
      s.(partial := s.partial[asset.id := received], written := s.written[asset.id := received])
    else End(s, task, asset.id, Failed)
  }

  // The end of the response body; digest is that of everything received.
  function Finish(s: State, task: Task, digest: Digest, now: int): State
    requires task in s.tasks && s.tasks[task].Downloading?
  {
    var asset := s.tasks[task].asset;
    if asset.size != Some(Received(s, asset.id)) || (asset.managed && digest != asset.checksum) then
      End(s, task, asset.id, Failed)
    else
      var file := File(asset.size.value, digest, asset.mtime, now, s.nextStamp);
      End(Touch(s.(files := s.files[asset.id := file],
                   partial := s.partial - {asset.id},
                   nextStamp := s.nextStamp + 1), asset, now), task, asset.id, Ok)
  }

  // The connection fails or the task is cancelled at its await.
  function Fail(s: State, task: Task): State
    requires task in s.tasks
  {
    match s.tasks[task]
    case Waiting(_, _) => Quit(s, task, Failed)
    case Hashing(asset, _, role) => if role.Owner? then End(s, task, asset.id, Failed) else Quit(s, task, Failed)
    case Hashed(asset, _, role, _) => if role.Owner? then End(s, task, asset.id, Failed) else Quit(s, task, Failed)
    case Downloading(asset) => End(s, task, asset.id, Failed)
  }

  // --------------------------------------------------------------- the rest

  function Acquire(s: State, id: Id): State {
    s.(opens := s.opens[id := Opens(s, id) + 1])
  }

  // Releasing what is not open is an error and changes nothing.
  function Release(s: State, id: Id): State {
    if Opens(s, id) == 0 then s
    else if Opens(s, id) > 1 then s.(opens := s.opens[id := Opens(s, id) - 1])
    else
      var t := s.(opens := s.opens - {id});
      if id in s.pending then Discard(t, id).0 else t
  }

  // The discard of a last release is never put off again.
  lemma ReleaseCases(s: State, id: Id)
    ensures Opens(s, id) == 1 && id in s.pending ==> Release(s, id) == Drop(s.(opens := s.opens - {id}), id)
    ensures !(Opens(s, id) == 1 && id in s.pending) ==> Release(s, id) == s.(opens := Release(s, id).opens)
    ensures Opens(Release(s, id), id) == if Opens(s, id) == 0 then 0 else Opens(s, id) - 1
  {
    assert Opens(s.(opens := s.opens - {id}), id) == 0;
  }

  function Evict(s: State, id: Id): State {
    if id in s.pinned || Busy(s, id) || id !in s.files then s
    else s.(files := s.files - {id}, validated := s.validated - {id})
  }

  datatype Target = Target(maxAge: nat, maxBytes: nat, floor: nat, now: int)

  predicate Expired(s: State, target: Target, id: Id)
    requires id in s.files
  {
    target.now - s.files[id].atime > target.maxAge
  }

  ghost predicate Over(l: Limits, s: State, target: Target, files: map<Id, File>) {
    Stored(files) > target.maxBytes || l.space - Stored(files) - Sum(s.partial) < target.floor
  }

  // How many entries evict_to_limits removes: up to the first one that is not
  // expired when the limits are met.
  ghost function StopAt(l: Limits, s: State, target: Target, order: seq<Id>, k: nat): (n: nat)
    requires k <= |order| && forall id | id in order :: id in s.files
    ensures k <= n <= |order|
    decreases |order| - k
  {
    if k == |order| || (!Expired(s, target, order[k]) && !Over(l, s, target, Without(s.files, order, k))) then k
    else StopAt(l, s, target, order, k + 1)
  }

  ghost function EvictToLimits(l: Limits, s: State, target: Target): State {
    var order := EvictionOrder(s);
    Evicted(s, order, StopAt(l, s, target, order, 0))
  }

  // ------------------------------------------------------------------- runs

  datatype Step =
    | BeginHydrate(task: Task, asset: Asset, now: int)
    | ResumeWaiter(task: Task, now: int)
    | ReadInThread(task: Task)
    | LeaveThread(task: Task, now: int)
    | ReceiveChunk(task: Task, n: nat)
    | EndOfBody(task: Task, digest: Digest, now: int)
    | FailAt(task: Task)
    | AcquireOpen(id: Id)
    | ReleaseOpen(id: Id)
    | EvictOne(id: Id)
    | EvictAll(target: Target)
    | Pin(id: Id)
    | Unpin(id: Id)
    | EnableDownloads

  ghost predicate Enabled(s: State, step: Step) {
    match step
    case BeginHydrate(task, _, _) => task !in s.tasks && task !in s.finished
    case ResumeWaiter(task, _) => task in s.tasks && s.tasks[task].Waiting? && s.tasks[task].on in s.finished
    case ReadInThread(task) => task in s.tasks && s.tasks[task].Hashing?
    case LeaveThread(task, _) => task in s.tasks && s.tasks[task].Hashed?
    case ReceiveChunk(task, n) => task in s.tasks && s.tasks[task].Downloading? && n > 0
    case EndOfBody(task, _, _) => task in s.tasks && s.tasks[task].Downloading?
    case FailAt(task) => task in s.tasks
    case _ => true
  }

  ghost function Apply(l: Limits, s: State, step: Step): State
    requires Enabled(s, step)
  {
    match step
    case BeginHydrate(task, asset, now) => Begin(l, s, task, asset, now)
    case ResumeWaiter(task, now) => Resume(l, s, task, now)
    case ReadInThread(task) => ReadFile(s, task)
    case LeaveThread(task, now) => HashDone(l, s, task, now)
    case ReceiveChunk(task, n) => Chunk(l, s, task, n)
    case EndOfBody(task, digest, now) => Finish(s, task, digest, now)
    case FailAt(task) => Fail(s, task)
    case AcquireOpen(id) => Acquire(s, id)
    case ReleaseOpen(id) => Release(s, id)
    case EvictOne(id) => Evict(s, id)
    case EvictAll(target) => EvictToLimits(l, s, target)
    case Pin(id) => s.(pinned := s.pinned + {id})
    case Unpin(id) => s.(pinned := s.pinned - {id})
    case EnableDownloads => s.(enabled := true)
  }

  // hydrate() reads the switch before its await and again after it. A step is
  // steady unless it throws the switch in between.
  ghost predicate Steady(s: State, step: Step) {
    step == EnableDownloads ==>
      forall task | task in s.tasks :: !SampledOff(s.tasks[task])
  }

  predicate SampledOff(w: Work) {
    (w.Hashing? || w.Hashed?) && w.role == Owner(false)
  }
}
