// What every step of the cache keeps, over any interleaving of its tasks.
module CacheSafety {
  import opened Options
  import opened Sums
  import opened Cache

  // -------------------------------------------------------------- invariant

  predicate Owns(s: State, task: Task, id: Id) {
    id in s.hydrations && s.hydrations[id] == task
  }

  predicate OwnerOf(w: Work, id: Id) {
    match w
    case Waiting(_, _) => false
    case Hashing(asset, _, role) => role.Owner? && asset.id == id
    case Hashed(asset, _, role, _) => role.Owner? && asset.id == id
    case Downloading(asset) => asset.id == id
  }

  predicate TaskOk(s: State, task: Task, w: Work) {
    match w
    case Waiting(_, _) => true
    case Hashing(asset, _, role) => role.Owner? ==> Owns(s, task, asset.id) && asset.id !in s.reservations
    case Hashed(asset, _, role, actual) =>
      role.Owner? ==> Owns(s, task, asset.id) && asset.id !in s.reservations
                      && (actual == None ==> asset.id !in s.files)
    case Downloading(asset) =>
      Owns(s, task, asset.id) && asset.id in s.reservations && asset.size == Some(s.reservations[asset.id])
  }

  // A download is the only one for its asset.
  ghost predicate TasksOk(s: State) {
    forall task | task in s.tasks :: TaskOk(s, task, s.tasks[task])
  }

  ghost predicate OwnersOk(s: State) {
    forall id | id in s.hydrations :: s.hydrations[id] in s.tasks && OwnerOf(s.tasks[s.hydrations[id]], id)
  }

  // The tables of the downloads agree with each other and with the disk.
  ghost predicate BooksOk(s: State) {
    && (forall id | id in s.reservations :: id in s.hydrations && s.hydrations[id] in s.tasks
                                            && s.tasks[s.hydrations[id]].Downloading?)
    && s.written.Keys == s.reservations.Keys && s.partial == s.written
    && (forall id | id in s.reservations :: s.written[id] <= s.reservations[id])
  }

  ghost predicate FlagsOk(s: State) {
    && (forall id | id in s.opens :: s.opens[id] > 0)
    && (forall id | id in s.pending :: Opens(s, id) > 0)
  }

  ghost predicate Shape(s: State) {
    TasksOk(s) && OwnersOk(s) && BooksOk(s) && FlagsOk(s)
  }

  ghost function Slack(l: Limits, s: State): int {
    Free(l, s) - Remaining(s)
  }

  // While anything is downloading, the room that is free and not spoken for
  // stays above the floor.
  ghost predicate Space(l: Limits, s: State) {
    s.reservations != map[] ==> Slack(l, s) >= l.floor
  }

  function Counted(m: map<Id, int>, exempt: set<Id>): map<Id, int> {
    map id | id in m && id !in exempt :: m[id]
  }

  function Ints(m: map<Id, nat>): map<Id, int> {
    map id | id in m :: m[id]
  }

  // Complete files and reservations, less what was admitted while pinned.
  ghost function Charged(s: State): int {
    Sum(Counted(Sizes(s.files), s.exempt)) + Sum(Counted(Ints(s.reservations), s.exempt))
  }

  ghost predicate Budget(l: Limits, s: State) {
    l.maxBytes.Some? ==> Charged(s) <= l.maxBytes.value
  }

  ghost predicate Inv(l: Limits, s: State) {
    Shape(s) && Space(l, s) && Budget(l, s)
  }

  // ------------------------------------------------------------- quantities

  lemma StoredDrop(files: map<Id, File>, id: Id)
    ensures Stored(files - {id}) == Stored(files) - if id in files then files[id].size else 0
  {
    assert Sizes(files - {id}) == Sizes(files) - {id};
    SumDrop(Sizes(files), id);
  }

  lemma StoredSet(files: map<Id, File>, id: Id, file: File)
    ensures Stored(files[id := file]) == Stored(files - {id}) + file.size
  {
    assert Sizes(files[id := file]) == Sizes(files)[id := file.size];
    assert Sizes(files - {id}) == Sizes(files) - {id};
    SumSet(Sizes(files), id, file.size);
  }

  lemma CountedDrop(m: map<Id, int>, exempt: set<Id>, id: Id)
    requires forall k | k in m :: m[k] >= 0
    ensures Sum(Counted(m - {id}, exempt)) ==
            Sum(Counted(m, exempt)) - if id in m && id !in exempt then m[id] else 0
    ensures Sum(Counted(m - {id}, exempt)) <= Sum(Counted(m, exempt))
  {
    assert Counted(m - {id}, exempt) == Counted(m, exempt) - {id};
    SumDrop(Counted(m, exempt), id);
  }

  lemma CountedMore(m: map<Id, int>, exempt: set<Id>, id: Id)
    requires forall k | k in m :: m[k] >= 0
    ensures Sum(Counted(m, exempt + {id})) <= Sum(Counted(m, exempt))
  {
    assert Counted(m, exempt + {id}) == Counted(m - {id}, exempt);
    CountedDrop(m, exempt, id);
  }

  lemma CountedSet(m: map<Id, int>, exempt: set<Id>, id: Id, v: int)
    requires id !in m
    ensures Sum(Counted(m[id := v], exempt)) == Sum(Counted(m, exempt)) + if id in exempt then 0 else v
  {
    if id in exempt {
      assert Counted(m[id := v], exempt) == Counted(m, exempt);
    } else {
      assert Counted(m[id := v], exempt) == Counted(m, exempt)[id := v];
      SumSet(Counted(m, exempt), id, v);
      assert Counted(m, exempt) - {id} == Counted(m, exempt);
    }
  }

  // Exempting an identifier that has no entry changes nothing.
  lemma CountedElsewhere(m: map<Id, int>, exempt: set<Id>, other: set<Id>)
    requires forall k | k in m :: k in exempt <==> k in other
    ensures Counted(m, exempt) == Counted(m, other)
  {
  }

  lemma {:induction false} CountedAtMost(m: map<Id, int>, exempt: set<Id>)
    requires forall k | k in m :: m[k] >= 0
    ensures Sum(Counted(m, exempt)) <= Sum(m)
    decreases |m|
  {
    if m != map[] {
      var k :| k in m;
      CountedDrop(m, exempt, k);
      SumRemove(m, k);
      CountedAtMost(m - {k}, exempt);
    } else {
      assert Counted(m, exempt) == map[];
    }
  }

  lemma NatSum(m: map<Id, nat>)
    ensures Sum(Ints(m)) == Sum(m)
  {
    assert Ints(m) == m;
  }

  // Files leave the cache: nothing that is bounded grows.
  lemma {:induction false} DropFiles(l: Limits, s: State, ids: set<Id>)
    ensures Stored(s.files - ids) <= Stored(s.files)
    ensures Sum(Counted(Sizes(s.files - ids), s.exempt)) <= Sum(Counted(Sizes(s.files), s.exempt))
    decreases |ids|
  {
    if ids == {} {
      assert s.files - ids == s.files;
    } else {
      var id :| id in ids;
      var rest := ids - {id};
      DropFiles(l, s, rest);
      assert s.files - ids == s.files - rest - {id};
      StoredDrop(s.files - rest, id);
      assert Sizes(s.files - ids) == Sizes(s.files - rest) - {id};
      CountedDrop(Sizes(s.files - rest), s.exempt, id);
    }
  }

  lemma SameNumbers(l: Limits, s: State, t: State)
    requires t.files == s.files && t.partial == s.partial && t.exempt == s.exempt
    requires t.reservations == s.reservations && t.written == s.written
    ensures Slack(l, t) == Slack(l, s) && Charged(t) == Charged(s)
  {
  }

  lemma RemainingDrop(s: State, t: State, id: Id)
    requires t.reservations == s.reservations - {id} && t.written == s.written - {id}
    ensures Remaining(t) == Remaining(s) - if id in s.reservations then s.reservations[id] - Received(s, id) else 0
  {
    var o := Outstanding(s.reservations, s.written);
    assert Outstanding(t.reservations, t.written) == o - {id};
    SumDrop(o, id);
  }

  // ---------------------------------------------------------- parts of steps

  // A step that only takes files away, and changes no table of the downloads.
  lemma ShrinkInv(l: Limits, s: State, t: State, ids: set<Id>)
    requires Inv(l, s)
    requires t == s.(files := s.files - ids, pending := t.pending, validated := t.validated)
    requires forall id | id in t.pending :: Opens(s, id) > 0
    ensures Inv(l, t)
  {
    DropFiles(l, s, ids);
    assert forall task | task in t.tasks :: TaskOk(s, task, s.tasks[task]) ==> TaskOk(t, task, t.tasks[task]);
  }

  lemma DiscardInv(l: Limits, s: State, id: Id)
    requires Inv(l, s)
    ensures Inv(l, Discard(s, id).0)
  {
    if Opens(s, id) > 0 {
      assert s.files == s.files - {};
      ShrinkInv(l, s, Discard(s, id).0, {});
    } else {
      ShrinkInv(l, s, Discard(s, id).0, {id});
    }
  }

  lemma TouchInv(l: Limits, s: State, asset: Asset, now: int)
    requires Inv(l, s) && asset.id in s.files
    ensures Inv(l, Touch(s, asset, now))
  {
    var t := Touch(s, asset, now);
    assert Sizes(t.files) == Sizes(s.files);
    assert forall task | task in t.tasks :: TaskOk(s, task, s.tasks[task]) ==> TaskOk(t, task, t.tasks[task]);
  }

  // A task that owns nothing leaves.
  lemma QuitInv(l: Limits, s: State, task: Task, outcome: Outcome)
    requires Inv(l, s) && (task in s.tasks ==> forall id :: !OwnerOf(s.tasks[task], id))
    ensures Inv(l, Quit(s, task, outcome))
  {
    hide Slack, Charged;
    var t := Quit(s, task, outcome);
    SameNumbers(l, s, t);
    assert forall other | other in t.tasks :: TaskOk(s, other, s.tasks[other]) ==> TaskOk(t, other, t.tasks[other]);
  }

  lemma SlackDetach(l: Limits, s: State, task: Task, id: Id)
    requires Shape(s)
    ensures Slack(l, Detach(s, task, id)) >= Slack(l, s)
  {
    hide Remaining;
    SumDrop(s.partial, id);
    RemainingDrop(s, Detach(s, task, id), id);
  }

  lemma ChargedDetach(s: State, task: Task, id: Id)
    ensures Charged(Detach(s, task, id)) <= Charged(s)
  {
    assert Ints(s.reservations - {id}) == Ints(s.reservations) - {id};
    CountedDrop(Ints(s.reservations), s.exempt, id);
  }

  // An owner's hydration leaves the tables.
  lemma DetachShape(s: State, task: Task, id: Id)
    requires Shape(s) && task in s.tasks && OwnerOf(s.tasks[task], id)
    ensures Shape(Detach(s, task, id))
  {
    assert TaskOk(s, task, s.tasks[task]);
    hide OwnersOk, BooksOk;
    DetachOwners(s, task, id);
    var t := Detach(s, task, id);
    forall other | other in t.tasks ensures TaskOk(t, other, t.tasks[other]) {
      assert TaskOk(s, other, s.tasks[other]);
    }
  }

  lemma DetachOwners(s: State, task: Task, id: Id)
    requires OwnersOk(s) && BooksOk(s) && Owns(s, task, id)
    ensures OwnersOk(Detach(s, task, id)) && BooksOk(Detach(s, task, id))
  {
    forall k | k in s.hydrations && s.hydrations[k] == task ensures k == id {
      assert OwnerOf(s.tasks[s.hydrations[k]], k) && OwnerOf(s.tasks[s.hydrations[id]], id);
    }
  }

  lemma DetachInv(l: Limits, s: State, task: Task, id: Id)
    requires Inv(l, s) && task in s.tasks && OwnerOf(s.tasks[task], id)
    ensures Inv(l, Detach(s, task, id))
  {
    hide Slack, Charged, Shape;
    DetachShape(s, task, id);
    SlackDetach(l, s, task, id);
    ChargedDetach(s, task, id);
    assert Detach(s, task, id).reservations != map[] ==> s.reservations != map[];
  }

  // Tables that no bound is about.
  predicate SameBut(s: State, t: State) {
    t == s.(finished := t.finished, validated := t.validated, pinned := t.pinned,
            enabled := t.enabled, nextStamp := t.nextStamp)
  }

  lemma SideInv(l: Limits, s: State, t: State)
    requires Inv(l, s) && SameBut(s, t)
    ensures Inv(l, t)
  {
    hide Slack, Charged;
    SameNumbers(l, s, t);
    assert forall task | task in t.tasks :: TaskOk(s, task, s.tasks[task]) ==> TaskOk(t, task, t.tasks[task]);
  }

  lemma EndInv(l: Limits, s: State, task: Task, id: Id, outcome: Outcome)
    requires Inv(l, Detach(s, task, id))
    ensures Inv(l, End(s, task, id, outcome))
  {
    SideInv(l, Detach(s, task, id), End(s, task, id, outcome));
  }

  // A reservation and its download enter the tables.
  function Install(s: State, task: Task, asset: Asset, size: nat): State {
    var id := asset.id;
    s.(tasks := s.tasks[task := Downloading(asset)],
       hydrations := s.hydrations[id := task],
       reservations := s.reservations[id := size],
       written := s.written[id := 0],
       partial := s.partial[id := 0],
       exempt := if id in s.pinned then s.exempt + {id} else s.exempt - {id})
  }

  lemma SlackInstall(l: Limits, s: State, task: Task, asset: Asset, size: nat)
    requires Shape(s) && asset.id !in s.reservations
    ensures Slack(l, Install(s, task, asset, size)) == Slack(l, s) - size
  {
    var t, id := Install(s, task, asset, size), asset.id;
    SumSet(s.partial, id, 0);
    assert s.partial - {id} == s.partial;
    RemainingInstall(s, t, id, size);
  }

  lemma RemainingInstall(s: State, t: State, id: Id, size: nat)
    requires id !in s.reservations
    requires t.reservations == s.reservations[id := size] && t.written == s.written[id := 0]
    ensures Remaining(t) == Remaining(s) + size
  {
    var o := Outstanding(s.reservations, s.written);
    assert Outstanding(t.reservations, t.written) == o[id := size];
    SumSet(o, id, size);
    assert o - {id} == o;
  }

  lemma ChargedInstall(s: State, task: Task, asset: Asset, size: nat)
    requires Shape(s) && asset.id !in s.reservations
    ensures asset.id in s.pinned ==> Charged(Install(s, task, asset, size)) <= Charged(s)
    ensures Charged(Install(s, task, asset, size)) <= Stored(s.files) + Sum(s.reservations) + size
            || asset.id in s.pinned
  {
    hide TasksOk, OwnersOk, FlagsOk, Counted;
    var t, id := Install(s, task, asset, size), asset.id;
    var reserved := Ints(s.reservations);
    CountedMore(Sizes(s.files), s.exempt, id);
    CountedElsewhere(reserved, t.exempt, s.exempt);
    assert Ints(t.reservations) == reserved[id := size];
    CountedSet(reserved, t.exempt, id, size);
    CountedAtMost(Sizes(s.files), t.exempt);
    CountedAtMost(reserved, s.exempt);
    NatSum(s.reservations);
  }

  lemma InstallTasks(s: State, task: Task, asset: Asset, size: nat)
    requires TasksOk(s) && asset.size == Some(size) && asset.id !in s.hydrations
    ensures TasksOk(Install(s, task, asset, size))
  {
    var t := Install(s, task, asset, size);
    forall other | other in t.tasks ensures TaskOk(t, other, t.tasks[other]) {
      if other != task { assert TaskOk(s, other, s.tasks[other]); }
    }
  }

  lemma InstallOwners(s: State, task: Task, asset: Asset, size: nat)
    requires OwnersOk(s) && BooksOk(s) && task !in s.tasks && asset.id !in s.hydrations
    ensures OwnersOk(Install(s, task, asset, size)) && BooksOk(Install(s, task, asset, size))
  {
  }

  lemma InstallShape(s: State, task: Task, asset: Asset, size: nat)
    requires Shape(s) && asset.size == Some(size)
    requires task !in s.tasks && asset.id !in s.hydrations
    ensures Shape(Install(s, task, asset, size))
  {
    hide TasksOk, OwnersOk, BooksOk;
    InstallTasks(s, task, asset, size);
    InstallOwners(s, task, asset, size);
  }

  lemma InstallInv(l: Limits, s: State, task: Task, asset: Asset)
    requires Inv(l, s) && asset.size.Some?
    requires task !in s.tasks && asset.id !in s.hydrations && asset.id !in s.reservations
    requires Slack(l, s) - asset.size.value >= l.floor
    requires asset.id in s.pinned || l.maxBytes == None
             || Stored(s.files) + Sum(s.reservations) + asset.size.value <= l.maxBytes.value
    ensures Inv(l, Install(s, task, asset, asset.size.value))
  {
    hide Slack, Charged, Shape;
    var size := asset.size.value;
    InstallShape(s, task, asset, size);
    SlackInstall(l, s, task, asset, size);
    ChargedInstall(s, task, asset, size);
  }

  // The owner has nothing in the tables of the downloads yet.
  ghost predicate Ready(l: Limits, s: State, task: Task, id: Id) {
    && Inv(l, Detach(s, task, id))
    && Owns(s, task, id) && id !in s.reservations && id !in s.written && id !in s.partial
  }

  // The tables of a hydration that is about to download, without it and
  // without the entries that made room for it.
  ghost function Cleared(s: State, task: Task, id: Id, n: nat): State
    requires n <= |EvictionOrder(s)|
  {
    var b, gone := Detach(s, task, id), Ids(EvictionOrder(s)[..n]);
    b.(files := b.files - gone, validated := b.validated - gone)
  }

  lemma AdmitIsInstall(l: Limits, s: State, task: Task, asset: Asset)
    requires Owns(s, task, asset.id)
    requires asset.id !in s.reservations && asset.id !in s.written && asset.id !in s.partial
    requires s.enabled && Reserve(l, s, asset).Some?
    ensures var n := FirstFit(l, s, asset, EvictionOrder(s), 0);
            Admit(l, s, task, asset) == Install(Cleared(s, task, asset.id, n), task, asset, asset.size.value)
  {
    hide Fits, EvictionOrder;
    var id, n := asset.id, FirstFit(l, s, asset, EvictionOrder(s), 0);
    var c := Cleared(s, task, id, n);
    assert c.tasks[task := Downloading(asset)] == s.tasks[task := Downloading(asset)];
    assert c.hydrations[id := task] == s.hydrations;
    assert c.reservations == s.reservations && c.written == s.written && c.partial == s.partial;
  }

  lemma AdmitInv(l: Limits, s: State, task: Task, asset: Asset)
    requires Ready(l, s, task, asset.id)
    ensures Inv(l, Admit(l, s, task, asset))
  {
    hide Inv, Slack, Charged, Fits, FirstFit, Stored, EvictionOrder, Install;
    if !s.enabled {
      EndInv(l, s, task, asset.id, Disabled);
    } else if Reserve(l, s, asset) == None {
      EndInv(l, s, task, asset.id, Failed);
    } else {
      var n := FirstFit(l, s, asset, EvictionOrder(s), 0);
      var c := Cleared(s, task, asset.id, n);
      Untouched(l, Detach(s, task, asset.id), c, Ids(EvictionOrder(s)[..n]));
      AdmissionNumbers(l, s, task, asset, n);
      InstallInv(l, c, task, asset);
      AdmitIsInstall(l, s, task, asset);
    }
  }

  lemma Untouched(l: Limits, b: State, c: State, gone: set<Id>)
    requires Inv(l, b) && c == b.(files := b.files - gone, validated := b.validated - gone)
    ensures Inv(l, c) && Shape(c)
  {
    ShrinkInv(l, b, c, gone);
  }

  // What fits() has checked, in the terms of the invariant.
  lemma AdmissionNumbers(l: Limits, s: State, task: Task, asset: Asset, n: nat)
    requires Ready(l, s, task, asset.id) && asset.size.Some?
    requires n <= |EvictionOrder(s)| && Fits(l, s, asset, Without(s.files, EvictionOrder(s), n))
    ensures var c := Cleared(s, task, asset.id, n);
            && Slack(l, c) - asset.size.value >= l.floor
            && (asset.id in s.pinned || l.maxBytes == None
                || Stored(c.files) + Sum(c.reservations) + asset.size.value <= l.maxBytes.value)
  {
    hide Cache.Detach, Cache.EvictionOrder, Cache.Ids, Cache.Outstanding, Cache.Stored, Evictable, Ready, Sums.Sum;
    DetachReady(l, s, task, asset.id);
  }

  // Before the download there is nothing for Detach to take away.
  lemma DetachReady(l: Limits, s: State, task: Task, id: Id)
    requires Ready(l, s, task, id)
    ensures var b := Detach(s, task, id);
            b.partial == s.partial && b.reservations == s.reservations && b.written == s.written && b.files == s.files
  {
    hide Slack, Charged, Shape;
  }

  // ------------------------------------------------------------------ steps

  predicate Owning(s: State, task: Task) {
    task in s.tasks && OwnerOf(s.tasks[task], s.tasks[task].asset.id)
  }

  // A task that owns nothing waits for something else.
  lemma ParkInv(l: Limits, s: State, task: Task, w: Work)
    requires Inv(l, s) && !Owning(s, task)
    requires !OwnerOf(w, w.asset.id)
    ensures Inv(l, s.(tasks := s.tasks[task := w]))
  {
    hide Slack, Charged, TasksOk, OwnersOk, BooksOk;
    var t := s.(tasks := s.tasks[task := w]);
    SameNumbers(l, s, t);
    ParkTasks(s, task, w);
    ParkOwners(s, task, w);
  }

  lemma ParkTasks(s: State, task: Task, w: Work)
    requires TasksOk(s) && !OwnerOf(w, w.asset.id)
    ensures TasksOk(s.(tasks := s.tasks[task := w]))
  {
    var t := s.(tasks := s.tasks[task := w]);
    forall other | other in t.tasks ensures TaskOk(t, other, t.tasks[other]) {
      if other != task { assert TaskOk(s, other, s.tasks[other]); }
    }
  }

  lemma ParkOwners(s: State, task: Task, w: Work)
    requires OwnersOk(s) && BooksOk(s) && !Owning(s, task)
    ensures OwnersOk(s.(tasks := s.tasks[task := w])) && BooksOk(s.(tasks := s.tasks[task := w]))
  {
    forall k | k in s.hydrations ensures s.hydrations[k] != task {
      assert OwnerOf(s.tasks[s.hydrations[k]], k);
    }
  }

  lemma DropDetaches(s: State, task: Task, id: Id)
    ensures Detach(Drop(s, id), task, id) == Drop(Detach(s, task, id), id)
    ensures Detach(Defer(s, id), task, id) == Defer(Detach(s, task, id), id)
  {
  }

  lemma DiscardReady(l: Limits, s: State, task: Task, id: Id)
    requires Ready(l, s, task, id)
    ensures Ready(l, Discard(s, id).0, task, id)
  {
    hide Inv;
    DropDetaches(s, task, id);
    DiscardInv(l, Detach(s, task, id), id);
    hide Detach;
  }

  lemma RejectOwnedInv(l: Limits, s: State, task: Task, asset: Asset, discard: bool)
    requires Ready(l, s, task, asset.id)
    ensures Inv(l, RejectOwned(l, s, task, asset, discard))
  {
    hide Inv, Admit, Detach;
    if !discard {
      AdmitInv(l, s, task, asset);
    } else {
      var (t, gone) := Discard(s, asset.id);
      DiscardReady(l, s, task, asset.id);
      if gone { AdmitInv(l, t, task, asset); } else { EndInv(l, t, task, asset.id, CacheBusy); }
    }
  }

  // Nothing is left of a hydration that has only been registered.
  lemma RegisteredIsReady(l: Limits, s: State, task: Task, id: Id)
    requires Inv(l, s) && !Owning(s, task) && id !in s.hydrations
    ensures Ready(l, s.(hydrations := s.hydrations[id := task]), task, id)
  {
    hide Slack, Charged;
    assert id !in s.reservations && id !in s.written && id !in s.partial;
    QuitInv(l, s, task, Failed);
    RegisteredDetaches(s, task, id);
    SideInv(l, Quit(s, task, Failed), Detach(s.(hydrations := s.hydrations[id := task]), task, id));
  }

  lemma RegisteredDetaches(s: State, task: Task, id: Id)
    requires id !in s.hydrations && id !in s.reservations && id !in s.written && id !in s.partial
    ensures Detach(s.(hydrations := s.hydrations[id := task]), task, id)
         == Quit(s, task, Failed).(finished := s.finished)
  {
    var t := s.(hydrations := s.hydrations[id := task]);
    assert t.hydrations - {id} == s.hydrations && s.partial - {id} == s.partial;
    assert s.reservations - {id} == s.reservations && s.written - {id} == s.written;
  }

  lemma RegisterInv(l: Limits, s: State, task: Task, w: Work)
    requires Inv(l, s) && !Owning(s, task) && w.asset.id !in s.hydrations
    requires w.Hashing? && w.role == Owner(s.enabled)
    ensures Inv(l, s.(hydrations := s.hydrations[w.asset.id := task], tasks := s.tasks[task := w]))
  {
    hide Slack, Charged;
    var t := s.(hydrations := s.hydrations[w.asset.id := task], tasks := s.tasks[task := w]);
    SameNumbers(l, s, t);
    forall other | other in t.tasks ensures TaskOk(t, other, t.tasks[other]) {
      if other != task { assert TaskOk(s, other, s.tasks[other]); }
    }
    forall k | k in t.hydrations ensures t.hydrations[k] in t.tasks && OwnerOf(t.tasks[t.hydrations[k]], k) {
      if k != w.asset.id { assert OwnerOf(s.tasks[s.hydrations[k]], k); }
    }
  }

  lemma TouchedEndInv(l: Limits, s: State, task: Task, asset: Asset, now: int)
    requires Inv(l, Detach(s, task, asset.id)) && asset.id in s.files
    ensures Inv(l, End(Touch(s, asset, now), task, asset.id, Ok))
  {
    hide Inv;
    TouchInv(l, Detach(s, task, asset.id), asset, now);
    assert Detach(Touch(s, asset, now), task, asset.id) == Touch(Detach(s, task, asset.id), asset, now);
    EndInv(l, Touch(s, asset, now), task, asset.id, Ok);
  }

  lemma BeginInv(l: Limits, s: State, task: Task, asset: Asset, now: int)
    requires Inv(l, s) && !Owning(s, task)
    ensures Inv(l, Begin(l, s, task, asset, now))
  {
    hide Inv, Admit, RejectOwned, Validate;
    if asset.id in s.hydrations {
      ParkInv(l, s, task, Waiting(asset, s.hydrations[asset.id]));
    } else {
      var t := s.(hydrations := s.hydrations[asset.id := task]);
      RegisteredIsReady(l, s, task, asset.id);
      match Check(t, asset)
      case Absent => AdmitInv(l, t, task, asset);
      case Invalid => RejectOwnedInv(l, t, task, asset, t.enabled);
      case Valid => TouchedEndInv(l, t, task, asset, now);
      case MustHash =>
        RegisterInv(l, s, task, Hashing(asset, Validate(asset, t.files[asset.id]), Owner(t.enabled)));
    }
  }

  lemma AgainInv(l: Limits, s: State, task: Task, asset: Asset, rehydrate: bool, now: int)
    requires Inv(l, s) && !Owning(s, task)
    ensures Inv(l, Again(l, s, task, asset, rehydrate, now))
  {
    hide Begin;
    if rehydrate { BeginInv(l, s, task, asset, now); } else { QuitInv(l, s, task, Failed); }
  }

  lemma RejectWaitedInv(l: Limits, s: State, task: Task, asset: Asset, rehydrate: bool, now: int)
    requires Inv(l, s) && !Owning(s, task)
    ensures Inv(l, RejectWaited(l, s, task, asset, rehydrate, now))
  {
    hide Again, Inv;
    var (t, gone) := Discard(s, asset.id);
    assert t.tasks == s.tasks;
    hide Drop, Defer;
    DiscardInv(l, s, asset.id);
    if gone { AgainInv(l, t, task, asset, rehydrate, now); } else { QuitInv(l, t, task, CacheBusy); }
  }

  lemma ResumeInv(l: Limits, s: State, task: Task, now: int)
    requires Inv(l, s) && task in s.tasks && s.tasks[task].Waiting? && s.tasks[task].on in s.finished
    ensures Inv(l, Resume(l, s, task, now))
  {
    hide Again, RejectWaited, Inv, Validate;
    var asset := s.tasks[task].asset;
    var outcome := s.finished[s.tasks[task].on];
    if outcome == Disabled || outcome == Failed {
      QuitInv(l, s, task, outcome);
    } else {
      match Check(s, asset)
      case Absent => AgainInv(l, s, task, asset, outcome == Ok, now);
      case Invalid => RejectWaitedInv(l, s, task, asset, outcome == Ok, now);
      case Valid =>
        TouchInv(l, s, asset, now);
        QuitInv(l, Touch(s, asset, now), task, Ok);
      case MustHash =>
        ParkInv(l, s, task, Hashing(asset, Validate(asset, s.files[asset.id]), Waiter(outcome == Ok)));
    }
  }

  lemma ReadFileInv(l: Limits, s: State, task: Task)
    requires Inv(l, s) && task in s.tasks && s.tasks[task].Hashing?
    ensures Inv(l, ReadFile(s, task))
  {
    hide Slack, Charged;
    var t := ReadFile(s, task);
    SameNumbers(l, s, t);
    forall other | other in t.tasks ensures TaskOk(t, other, t.tasks[other]) {
      assert TaskOk(s, other, s.tasks[other]);
    }
    forall k | k in t.hydrations ensures t.hydrations[k] in t.tasks && OwnerOf(t.tasks[t.hydrations[k]], k) {
      assert OwnerOf(s.tasks[s.hydrations[k]], k);
    }
  }

  // An owner that comes back from the worker thread has no reservation.
  lemma HashedIsReady(l: Limits, s: State, task: Task)
    requires Inv(l, s) && task in s.tasks && s.tasks[task].Hashed? && s.tasks[task].role.Owner?
    ensures Ready(l, s, task, s.tasks[task].asset.id)
  {
    hide Slack, Charged;
    DetachInv(l, s, task, s.tasks[task].asset.id);
    assert TaskOk(s, task, s.tasks[task]);
  }

  lemma OwnerHashDoneInv(l: Limits, s: State, task: Task, now: int)
    requires Inv(l, s) && task in s.tasks && s.tasks[task].Hashed? && s.tasks[task].role.Owner?
    ensures Inv(l, HashDone(l, s, task, now))
  {
    hide Inv, Admit, RejectOwned, Again, RejectWaited, Validate, Touch;
    var w := s.tasks[task];
    var asset := w.asset;
    HashedIsReady(l, s, task);
    if w.actual == None {
      var t := s.(validated := s.validated - {asset.id});
      SideInv(l, Detach(s, task, asset.id), Detach(t, task, asset.id));
      AdmitInv(l, t, task, asset);
    } else if asset.id in s.files && Validate(asset, s.files[asset.id]) == w.seen && w.actual == Some(asset.checksum) {
      TouchedEndInv(l, s, task, asset, now);
    } else {
      RejectOwnedInv(l, s, task, asset, w.role.discard);
    }
  }

  lemma WaiterHashDoneInv(l: Limits, s: State, task: Task, now: int)
    requires Inv(l, s) && task in s.tasks && s.tasks[task].Hashed? && s.tasks[task].role.Waiter?
    ensures Inv(l, HashDone(l, s, task, now))
  {
    hide Inv, Admit, RejectOwned, Again, RejectWaited, Validate;
    var w := s.tasks[task];
    var asset := w.asset;
    if w.actual == None {
      SideInv(l, s, s.(validated := s.validated - {asset.id}));
      AgainInv(l, s.(validated := s.validated - {asset.id}), task, asset, w.role.rehydrate, now);
    } else if asset.id in s.files && Validate(asset, s.files[asset.id]) == w.seen && w.actual == Some(asset.checksum) {
      TouchInv(l, s, asset, now);
      QuitInv(l, Touch(s, asset, now), task, Ok);
    } else {
      RejectWaitedInv(l, s, task, asset, w.role.rehydrate, now);
    }
  }

  // The floor that _download checks before every chunk never stops it.
  lemma FloorCheckNeverFires(l: Limits, s: State, task: Task, n: nat)
    requires Inv(l, s) && task in s.tasks && s.tasks[task].Downloading?
    requires s.tasks[task].asset.size.Some?
    requires Received(s, s.tasks[task].asset.id) + n <= s.tasks[task].asset.size.value
    ensures ChunkFits(l, s, n)
  {
    hide Charged;
    var id := s.tasks[task].asset.id;
    assert TaskOk(s, task, s.tasks[task]);
    var o := Outstanding(s.reservations, s.written);
    SumNonNegative(o);
    assert o[id] >= n;
  }

  lemma SlackChunk(l: Limits, s: State, id: Id, received: nat)
    requires Shape(s) && id in s.reservations
    ensures Slack(l, s.(partial := s.partial[id := received], written := s.written[id := received])) == Slack(l, s)
  {
    hide Remaining;
    SumSet(s.partial, id, received);
    SumRemove(s.partial, id);
    RemainingChunk(s, s.(partial := s.partial[id := received], written := s.written[id := received]), id, received);
  }

  lemma RemainingChunk(s: State, t: State, id: Id, received: nat)
    requires id in s.reservations && id in s.written
    requires t.reservations == s.reservations && t.written == s.written[id := received]
    ensures Remaining(t) == Remaining(s) + s.written[id] - received
  {
    var o := Outstanding(s.reservations, s.written);
    assert Outstanding(t.reservations, t.written) == o[id := s.reservations[id] - received];
    SumSet(o, id, s.reservations[id] - received);
    SumRemove(o, id);
  }

  // The state after a chunk that fits.
  function Chunked(s: State, id: Id, received: nat): State {
    s.(partial := s.partial[id := received], written := s.written[id := received])
  }

  lemma ReceivedShape(s: State, task: Task, received: nat)
    requires Shape(s) && task in s.tasks && s.tasks[task].Downloading?
    requires s.tasks[task].asset.size.Some? && received <= s.tasks[task].asset.size.value
    ensures Shape(Chunked(s, s.tasks[task].asset.id, received)) && s.tasks[task].asset.id in s.reservations
  {
    var t := Chunked(s, s.tasks[task].asset.id, received);
    assert OwnersOk(t);
    hide OwnersOk;
    assert TaskOk(s, task, s.tasks[task]);
    forall other | other in t.tasks ensures TaskOk(t, other, t.tasks[other]) {
      assert TaskOk(s, other, s.tasks[other]);
    }
  }

  lemma ChunkInv(l: Limits, s: State, task: Task, n: nat)
    requires Inv(l, s) && task in s.tasks && s.tasks[task].Downloading? && n > 0
    ensures Inv(l, Chunk(l, s, task, n))
  {
    hide Slack, ChunkFits, Shape;
    var asset := s.tasks[task].asset;
    var received := Received(s, asset.id) + n;
    if asset.size.Some? && received <= asset.size.value && ChunkFits(l, s, n) {
      ReceivedShape(s, task, received);
      SlackChunk(l, s, asset.id, received);
    } else {
      DetachInv(l, s, task, asset.id);
      EndInv(l, s, task, asset.id, Failed);
    }
  }

  // A finished download turns its reservation into a file of the same size.
  lemma StoreInv(l: Limits, s: State, task: Task, file: File)
    requires Inv(l, s) && task in s.tasks && s.tasks[task].Downloading?
    requires s.tasks[task].asset.size == Some(file.size) == Some(Received(s, s.tasks[task].asset.id))
    ensures Inv(l, Detach(s.(files := s.files[s.tasks[task].asset.id := file]), task, s.tasks[task].asset.id))
  {
    hide Slack, Charged, Shape;
    var id := s.tasks[task].asset.id;
    assert id in s.reservations && s.reservations[id] == file.size by { DownloadFacts(s, task); }
    var b := Detach(s, task, id);
    var t := Detach(s.(files := s.files[id := file]), task, id);
    DetachInv(l, s, task, id);
    StoreShape(b, t, id, file);
    StoreNumbers(l, s, task, id, file);
  }

  lemma DownloadFacts(s: State, task: Task)
    requires Shape(s) && task in s.tasks && s.tasks[task].Downloading?
    ensures var id := s.tasks[task].asset.id;
            && id in s.reservations && s.tasks[task].asset.size == Some(s.reservations[id])
            && Owns(s, task, id)
  {
    assert TaskOk(s, task, s.tasks[task]);
  }

  lemma StoreShape(b: State, t: State, id: Id, file: File)
    requires Shape(b) && id !in b.hydrations && t == b.(files := b.files[id := file])
    ensures Shape(t)
  {
    forall other | other in t.tasks ensures TaskOk(t, other, t.tasks[other]) {
      assert TaskOk(b, other, b.tasks[other]);
    }
  }

  lemma StoreNumbers(l: Limits, s: State, task: Task, id: Id, file: File)
    requires Shape(s) && id in s.reservations && s.reservations[id] == file.size == Received(s, id)
    ensures var t := Detach(s.(files := s.files[id := file]), task, id);
            Slack(l, t) >= Slack(l, s) && Charged(t) <= Charged(s)
  {
    StoreSlack(l, s, task, id, file);
    StoreCharge(s, task, id, file);
  }

  lemma StoreSlack(l: Limits, s: State, task: Task, id: Id, file: File)
    requires Shape(s) && id in s.reservations && s.reservations[id] == file.size == Received(s, id)
    ensures Slack(l, Detach(s.(files := s.files[id := file]), task, id)) >= Slack(l, s)
  {
    hide Remaining;
    StoredSet(s.files, id, file);
    StoredDrop(s.files, id);
    SumDrop(s.partial, id);
    RemainingDrop(s, Detach(s.(files := s.files[id := file]), task, id), id);
  }

  lemma StoreCharge(s: State, task: Task, id: Id, file: File)
    requires id in s.reservations && s.reservations[id] == file.size
    ensures Charged(Detach(s.(files := s.files[id := file]), task, id)) <= Charged(s)
  {
    var t := Detach(s.(files := s.files[id := file]), task, id);
    assert Ints(t.reservations) == Ints(s.reservations) - {id};
    CountedDrop(Ints(s.reservations), s.exempt, id);
    assert Sizes(t.files) == (Sizes(s.files) - {id})[id := file.size];
    CountedDrop(Sizes(s.files), s.exempt, id);
    CountedSet(Sizes(s.files) - {id}, s.exempt, id, file.size);
  }

  lemma FinishInv(l: Limits, s: State, task: Task, digest: Digest, now: int)
    requires Inv(l, s) && task in s.tasks && s.tasks[task].Downloading?
    ensures Inv(l, Finish(s, task, digest, now))
  {
    hide Inv, Touch, Detach;
    var asset := s.tasks[task].asset;
    if asset.size != Some(Received(s, asset.id)) || (asset.managed && digest != asset.checksum) {
      DetachInv(l, s, task, asset.id);
      EndInv(l, s, task, asset.id, Failed);
    } else {
      var file := File(asset.size.value, digest, asset.mtime, now, s.nextStamp);
      var t := s.(files := s.files[asset.id := file], partial := s.partial - {asset.id}, nextStamp := s.nextStamp + 1);
      StoreInv(l, s, task, file);
      StoredDetaches(s, t, task, asset.id);
      SideInv(l, Detach(s.(files := t.files), task, asset.id), Detach(t, task, asset.id));
      TouchedEndInv(l, t, task, asset, now);
    }
  }

  lemma StoredDetaches(s: State, t: State, task: Task, id: Id)
    requires t == s.(files := t.files, partial := s.partial - {id}, nextStamp := t.nextStamp)
    ensures Detach(t, task, id) == Detach(s.(files := t.files), task, id).(nextStamp := t.nextStamp)
  {
    assert s.partial - {id} - {id} == s.partial - {id};
  }

  lemma FailInv(l: Limits, s: State, task: Task)
    requires Inv(l, s) && task in s.tasks
    ensures Inv(l, Fail(s, task))
  {
    hide Inv;
    if Owning(s, task) {
      DetachInv(l, s, task, s.tasks[task].asset.id);
      EndInv(l, s, task, s.tasks[task].asset.id, Failed);
    } else {
      QuitInv(l, s, task, Failed);
    }
  }

  lemma OpensInv(l: Limits, s: State, t: State)
    requires Inv(l, s) && t == s.(opens := t.opens)
    requires forall id | id in t.opens :: t.opens[id] > 0
    requires forall id | id in s.pending :: Opens(t, id) > 0
    ensures Inv(l, t)
  {
    hide Slack, Charged;
    SameNumbers(l, s, t);
    assert forall task | task in t.tasks :: TaskOk(s, task, s.tasks[task]) ==> TaskOk(t, task, t.tasks[task]);
  }

  lemma ReleaseInv(l: Limits, s: State, id: Id)
    requires Inv(l, s)
    ensures Inv(l, Release(s, id))
  {
    hide Slack, Charged;
    if Opens(s, id) == 1 && id in s.pending {
      LastReleaseInv(l, s, id);
    } else if Opens(s, id) > 0 {
      OpensInv(l, s, Release(s, id));
    }
  }

  // The file goes first, and then the count.
  lemma LastReleaseInv(l: Limits, s: State, id: Id)
    requires Inv(l, s) && Opens(s, id) == 1 && id in s.pending
    ensures Inv(l, Release(s, id))
  {
    hide Slack, Charged;
    var u := s.(files := s.files - {id}, pending := s.pending - {id}, validated := s.validated - {id});
    ShrinkInv(l, s, u, {id});
    OpensInv(l, u, Release(s, id));
  }

  lemma EvictInv(l: Limits, s: State, step: Step)
    requires Inv(l, s) && (step.EvictOne? || step.EvictAll?)
    ensures Inv(l, Apply(l, s, step))
  {
    match step
    case EvictOne(id) =>
      var t := Evict(s, id);
      if t != s { ShrinkInv(l, s, t, {id}); }
    case EvictAll(target) =>
      var order := EvictionOrder(s);
      var gone := Ids(order[..StopAt(l, s, target, order, 0)]);
      ShrinkInv(l, s, s.(files := s.files - gone, validated := s.validated - gone), gone);
  }

  lemma SwitchInv(l: Limits, s: State, step: Step)
    requires Inv(l, s) && (step.Pin? || step.Unpin? || step.EnableDownloads?)
    ensures Inv(l, Apply(l, s, step))
  {
    SideInv(l, s, Apply(l, s, step));
  }

  lemma StepInv(l: Limits, s: State, step: Step)
    requires Inv(l, s) && Enabled(s, step)
    ensures Inv(l, Apply(l, s, step))
  {
    hide Inv, Begin, Resume, HashDone, Chunk, Finish, Release, EvictToLimits, Evict, Fail, ReadFile;
    match step
    case BeginHydrate(task, asset, now) => BeginInv(l, s, task, asset, now);
    case ResumeWaiter(task, now) => ResumeInv(l, s, task, now);
    case ReadInThread(task) => ReadFileInv(l, s, task);
    case LeaveThread(task, now) =>
      if s.tasks[task].role.Owner? { OwnerHashDoneInv(l, s, task, now); } else { WaiterHashDoneInv(l, s, task, now); }
    case ReceiveChunk(task, n) => ChunkInv(l, s, task, n);
    case EndOfBody(task, digest, now) => FinishInv(l, s, task, digest, now);
    case FailAt(task) => FailInv(l, s, task);
    case AcquireOpen(id) => AcquireInv(l, s, id);
    case ReleaseOpen(id) => ReleaseInv(l, s, id);
    case EvictOne(_) => EvictInv(l, s, step);
    case EvictAll(_) => EvictInv(l, s, step);
    case Pin(_) => SwitchInv(l, s, step);
    case Unpin(_) => SwitchInv(l, s, step);
    case EnableDownloads => SwitchInv(l, s, step);
  }

  lemma AcquireInv(l: Limits, s: State, id: Id)
    requires Inv(l, s)
    ensures Inv(l, Acquire(s, id))
  {
    OpensInv(l, s, Acquire(s, id));
  }
}
