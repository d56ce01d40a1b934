// The ContentCache object, whose methods update its tables in place. Each
// method is one atomic step of Cache, and is proved to take exactly that step.
module ContentCaches {
  import opened Options
  import opened Sums
  import opened Cache
  import opened CacheSafety
  import opened CacheGuarantees
  import opened CacheOutcomes

  class ContentCache {
    const limits: Limits
    var files: map<Id, File>
    var partial: map<Id, nat>
    var tasks: map<Task, Work>
    var hydrations: map<Id, Task>
    var finished: map<Task, Outcome>
    var opens: map<Id, nat>
    var reservations: map<Id, nat>
    var written: map<Id, nat>
    var validated: map<Id, Validation>
    var pending: set<Id>
    var pinned: set<Id>
    var enabled: bool
    var nextStamp: nat
    ghost var exempt: set<Id>

    ghost function View(): State
      reads this
    {
      State(files, partial, tasks, hydrations, finished, opens, reservations, written, validated,
            pending, pinned, enabled, nextStamp, exempt)
    }

    predicate InUse(id: Id)
      reads this`hydrations, this`opens
      ensures InUse(id) == Busy(View(), id)
    {
      id in hydrations || (id in opens && opens[id] > 0)
    }

    // ------------------------------------------------------ opens and discards

    method Acquire(id: Id)
      modifies this`opens
      ensures View() == Cache.Acquire(old(View()), id)
      ensures opens == old(opens)[id := (if id in old(opens) then old(opens)[id] else 0) + 1]
    {
      var count := if id in opens then opens[id] else 0;
      opens := opens[id := count + 1];
    }

    // gone is false where the source raises CacheBusyError.
    method Discard(id: Id) returns (gone: bool)
      modifies this`files, this`pending, this`validated
      ensures (View(), gone) == Cache.Discard(old(View()), id)
      ensures gone <==> !(id in opens && opens[id] > 0)
      ensures gone ==>
                files == old(files) - {id} && validated == old(validated) - {id} && pending == old(pending) - {id}
      ensures !gone ==> files == old(files) && validated == old(validated) && pending == old(pending) + {id}
    {
      if id in opens && opens[id] > 0 {
        pending := pending + {id};
        return false;
      }
      files := files - {id};
      pending := pending - {id};
      validated := validated - {id};
      return true;
    }

    method Release(id: Id) returns (wasOpen: bool)
      modifies this`opens, this`files, this`pending, this`validated
      ensures View() == Cache.Release(old(View()), id)
      ensures wasOpen <==> id in old(opens) && old(opens)[id] > 0
      ensures !wasOpen ==> View() == old(View())
      ensures wasOpen && old(opens)[id] > 1 ==>
                View() == old(View()).(opens := old(opens)[id := old(opens)[id] - 1])
      ensures wasOpen && old(opens)[id] == 1 && id !in old(pending) ==>
                View() == old(View()).(opens := old(opens) - {id})
      ensures wasOpen && old(opens)[id] == 1 && id in old(pending) ==>
                View() == old(View()).(opens := old(opens) - {id}, files := old(files) - {id},
                                       validated := old(validated) - {id}, pending := old(pending) - {id})
    {
      var count := if id in opens then opens[id] else 0;
      if count == 0 {
        return false;
      }
      if count == 1 {
        opens := opens - {id};
        if id in pending {
          var _ := Discard(id);
        }
      } else {
        opens := opens[id := count - 1];
      }
      return true;
    }

    // ---------------------------------------------------------------- eviction

    method Evict(id: Id) returns (removed: bool)
      modifies this`files, this`validated
      ensures View() == Cache.Evict(old(View()), id)
      ensures removed <==>
                && id in old(files) && id !in pinned && id !in hydrations && !(id in opens && opens[id] > 0)
      ensures View() == if removed then
                          old(View()).(files := old(files) - {id}, validated := old(validated) - {id})
                        else old(View())
    {
      if id in pinned || InUse(id) || id !in files {
        return false;
      }
      files := files - {id};
      validated := validated - {id};
      return true;
    }

    // Takes a file away, with what was remembered of it.
    method Erase(id: Id)
      modifies this`files, this`validated
      ensures View() == old(View()).(files := old(files) - {id}, validated := old(validated) - {id})
      ensures files == old(files) - {id}
    {
      files := files - {id};
      validated := validated - {id};
    }

    // Removes the entry that an order has next; size is what it held.
    method EraseNext(ghost s: State, ghost order: seq<Id>, ghost k: nat, id: Id) returns (size: nat)
      requires OldestFirst(s, order) && k < |order| && order[k] == id
      requires View() == Evicted(s, order, k) && files == Without(s.files, order, k)
      modifies this`files, this`validated
      ensures View() == Evicted(s, order, k + 1) && files == Without(s.files, order, k + 1)
      ensures Stored(files) == Stored(old(files)) - size && size == s.files[id].size
    {
      hide Evicted, Without, Stored, OldestFirst;
      EvictNext(s, order, k);
      size := files[id].size;
      Erase(id);
    }

    method OldestOf(ids: set<Id>) returns (first: Id)
      requires ids != {} && ids <= files.Keys
      ensures Oldest(files, ids, first)
    {
      first :| first in ids;
      var rest := ids - {first};
      while rest != {}
        invariant first in ids && rest <= ids && first !in rest
        invariant forall seen | seen in ids && seen !in rest && seen != first :: Before(files, first, seen)
      {
        var other :| other in rest;
        rest := rest - {other};
        if Before(files, other, first) {
          first := other;
        }
      }
    }

    method SortedEntries() returns (order: seq<Id>)
      ensures order == Order(files, files.Keys)
    {
      var left := files.Keys;
      order := [];
      while left != {}
        invariant left <= files.Keys && order + Order(files, left) == Order(files, files.Keys)
      {
        var first := OldestOf(left);
        OldestIsFirst(files, left, first);
        order := order + [first];
        left := left - {first};
      }
    }

    method EvictableEntries() returns (order: seq<Id>)
      ensures order == EvictionOrder(View())
    {
      var entries := SortedEntries();
      ghost var keep := Evictable(View());
      order := [];
      for i := 0 to |entries|
        invariant order == Filter(entries[..i], keep)
      {
        FilterStep(entries, i, keep);
        assert entries[i] in entries;
        if entries[i] !in pinned && !InUse(entries[i]) {
          order := order + [entries[i]];
        }
      }
      assert entries[..|entries|] == entries;
    }

    method StoredTotal() returns (total: int)
      ensures total == Stored(files)
    {
      total := Total(Sizes(files));
    }

    // What the operating system reports.
    method DiskFree() returns (free: int)
      ensures free == limits.space - Stored(files) - Sum(partial)
    {
      var total := StoredTotal();
      var unfinished := Total(partial);
      free := limits.space - total - unfinished;
    }

    // Goes through all entries, the least recently used first, and removes
    // those that are expired, or that are there while a limit is not met.
    method EvictToLimits(target: Target) returns (removed: seq<Id>)
      modifies this`files, this`validated
      ensures View() == Cache.EvictToLimits(limits, old(View()), target)
      ensures var order := EvictionOrder(old(View()));
              |removed| <= |order| && removed == order[..|removed|] && files == Without(old(files), order, |removed|)
    {
      hide Over, StopAt, Without, Stored, Evictable, Evicted, Order, Filter, Ascending, InUse;
      var entries := SortedEntries();
      var before := files;
      var total := StoredTotal();
      var free := DiskFree();
      removed := [];
      ghost var s := View();
      ghost var keep, order := Evictable(s), EvictionOrder(s);
      ghost var stop := StopAt(limits, s, target, order, 0);
      EvictionOrderIsOldestFirst(s);
      WithoutNone(s, order);
      FilterNone(entries, keep);
      for i := 0 to |entries|
        invariant |removed| == AtMost(|Filter(entries[..i], keep)|, stop)
        invariant removed == order[..|removed|] && View() == Evicted(s, order, |removed|)
        invariant files == Without(s.files, order, |removed|) && total == Stored(files)
        invariant free == limits.space - total - Sum(partial)
      {
        var id := entries[i];
        assert id in entries;
        FilterStep(entries, i, keep);
        EvictableCheck(s, id);
        var expired := target.now - before[id].atime > target.maxAge;
        var overLimit := total > target.maxBytes || free < target.floor;
        if id in keep {
          StopDecides(limits, s, target, order, |Filter(entries[..i], keep)|);
        }
        if (expired || overLimit) && id !in pinned && !InUse(id) {
          var freed := EraseNext(s, order, |removed|, id);
          total := total - freed;
          free := free + freed;
          removed := removed + [id];
        }
      }
      assert entries[..|entries|] == entries;
    }

    // --------------------------------------------------------------- admission

    predicate Fit(asset: Asset, size: nat, reserved: int, remaining: int, total: int, free: int)
      reads this`pinned
    {
      && (asset.id in pinned || limits.maxBytes == None || total + reserved + size <= limits.maxBytes.value)
      && free - remaining - size >= limits.floor
    }

    method Reclaimable(order: seq<Id>) returns (reclaimable: int)
      requires OldestFirst(View(), order)
      ensures reclaimable == Stored(files) - Stored(Without(files, order, |order|))
    {
      hide Without, Stored;
      reclaimable := 0;
      WithoutNone(View(), order);
      for k := 0 to |order|
        invariant reclaimable == Stored(files) - Stored(Without(files, order, k))
      {
        EvictNext(View(), order, k);
        reclaimable := reclaimable + files[order[k]].size;
      }
    }

    method MakeRoom(asset: Asset, size: nat, reserved: int, remaining: int, total: int, free: int, order: seq<Id>)
      requires asset.size == Some(size) && OldestFirst(View(), order)
      requires reserved == Sum(reservations) && remaining == Sum(Outstanding(reservations, written))
      requires total == Stored(files) && free == limits.space - total - Sum(partial)
      requires Fits(limits, View(), asset, Without(files, order, |order|))
      modifies this`files, this`validated
      ensures View() == Evicted(old(View()), order, FirstFit(limits, old(View()), asset, order, 0))
    {
      hide Cache.Evicted, Cache.FirstFit, Cache.Ids, Cache.Stored, Cache.Without, Fits, OldestFirst, Outstanding,
           Sums.Sum;
      var total, free, k := total, free, 0;
      ghost var s := View();
      WithoutNone(s, order);
      while k < |order|
        invariant k <= FirstFit(limits, s, asset, order, 0) && View() == Evicted(s, order, k)
        invariant files == Without(s.files, order, k)
        invariant total == Stored(files) && free == limits.space - total - Sum(partial)
        decreases |order| - k
      {
        FitsNumbers(limits, s, asset, files);
        FirstFitDecides(limits, s, asset, order, k);
        if Fit(asset, size, reserved, remaining, total, free) {
          break;
        }
        var freed := EraseNext(s, order, k, order[k]);
        total := total - freed;
        free := free + freed;
        k := k + 1;
      }
    }

    method Book(id: Id, size: nat)
      modifies this`reservations, this`written, this`exempt
      ensures View() == old(View()).(reservations := old(reservations)[id := size], written := old(written)[id := 0],
                                     exempt := if id in pinned then old(exempt) + {id} else old(exempt) - {id})
    {
      reservations := reservations[id := size];
      written := written[id := 0];
      exempt := if id in pinned then exempt + {id} else exempt - {id};
    }

    // admitted is false where the source raises an error. Its last check, that
    // the asset fits after all, never fails.
    method Reserve(asset: Asset) returns (admitted: bool)
      modifies this`files, this`validated, this`reservations, this`written, this`exempt
      ensures match Cache.Reserve(limits, old(View()), asset)
              case None => !admitted && View() == old(View())
              case Some(t) => admitted && View() == t
    {
      hide Ascending, Cache.Evictable, Cache.Evicted, Cache.EvictionOrder, Cache.FirstFit, Cache.Stored, Cache.Without,
           Fits, Outstanding, Sums.Sum;
      if asset.size == None {
        return false;
      }
      var size := asset.size.value;
      if asset.id !in pinned && limits.maxBytes.Some? && size > limits.maxBytes.value {
        return false;
      }
      ghost var s := View();
      var reserved := Total(reservations);
      var remaining := Total(Outstanding(reservations, written));
      var total := StoredTotal();
      var free := DiskFree();
      var order := EvictableEntries();
      EvictionOrderIsOldestFirst(s);
      var reclaimable := Reclaimable(order);
      FitsNumbers(limits, s, asset, Without(s.files, order, |order|));
      if !Fit(asset, size, reserved, remaining, total - reclaimable, free + reclaimable) {
        return false;
      }
      MakeRoom(asset, size, reserved, remaining, total, free, order);
      Book(asset.id, size);
      return true;
    }

    // ----------------------------------------------------------------- hydrate

    method Touch(asset: Asset, now: int)
      requires asset.id in files
      modifies this`files, this`validated, this`nextStamp
      ensures View() == Cache.Touch(old(View()), asset, now)
      ensures asset.id in files
      ensures files == old(files)[asset.id := old(files)[asset.id].(atime := now, stamp := old(nextStamp))]
      ensures validated == old(validated)[asset.id := Validation(old(nextStamp), files[asset.id].size,
                             files[asset.id].mtime, asset.managed, if asset.managed then asset.checksum
                               else asset.mtime)]
    {
      var file := files[asset.id].(atime := now, stamp := nextStamp);
      nextStamp := nextStamp + 1;
      files := files[asset.id := file];
      validated := validated[asset.id := Validate(asset, file)];
    }

    // The temporary file that a download takes away, and its reservation.
    method DropReservation(id: Id)
      modifies this`partial, this`reservations, this`written
      ensures View() == old(View()).(partial := old(partial) - {id}, reservations := old(reservations) - {id},
                                     written := old(written) - {id})
    {
      partial := partial - {id};
      reservations := reservations - {id};
      written := written - {id};
    }

    // The finally clause of hydrate() for the task that registered it.
    method LeaveOwned(task: Task, id: Id, outcome: Outcome)
      modifies this`partial, this`reservations, this`written, this`finished, this`hydrations, this`tasks
      ensures View() == End(old(View()), task, id, outcome)
      ensures EndsWith(old(View()), View(), task, outcome) && Leaves(old(View()), View(), id)
    {
      EndOutcome(View(), task, id, outcome);
      DropReservation(id);
      hydrations := hydrations - {id};
      Leave(task, outcome);
    }

    method Leave(task: Task, outcome: Outcome)
      modifies this`tasks, this`finished
      ensures View() == Quit(old(View()), task, outcome)
    {
      tasks := tasks - {task};
      finished := finished[task := outcome];
    }

    method Admit(task: Task, asset: Asset)
      modifies this
      ensures View() == Cache.Admit(limits, old(View()), task, asset)
    {
      hide Cache.Reserve;
      if !enabled {
        LeaveOwned(task, asset.id, Disabled);
        return;
      }
      var admitted := Reserve(asset);
      if !admitted {
        LeaveOwned(task, asset.id, Failed);
        return;
      }
      partial := partial[asset.id := 0];
      tasks := tasks[task := Downloading(asset)];
    }

    method RejectOwned(task: Task, asset: Asset, discard: bool)
      modifies this
      ensures View() == Cache.RejectOwned(limits, old(View()), task, asset, discard)
    {
      hide Cache.Admit;
      if discard {
        var gone := Discard(asset.id);
        if !gone {
          LeaveOwned(task, asset.id, CacheBusy);
          return;
        }
      }
      Admit(task, asset);
    }

    method Hydrate(task: Task, asset: Asset, now: int)
      modifies this
      ensures View() == Begin(limits, old(View()), task, asset, now)
      ensures Begins(limits, old(View()), View(), task, asset, now)
      ensures asset.id !in old(hydrations) && HasCopy(old(View()), asset) ==>
                && task in finished && finished[task] == Ok && asset.id !in hydrations
                && asset.id in files && files[asset.id].atime == now
                && SameBytes(old(files)[asset.id], files[asset.id])
    {
      BeginOutcome(limits, View(), task, asset, now);
      hide Begins, Cache.Admit, Cache.RejectOwned, Validate;
      if asset.id in hydrations {
        tasks := tasks[task := Waiting(asset, hydrations[asset.id])];
        return;
      }
      hydrations := hydrations[asset.id := task];
      ghost var t := View();
      var verdict := Verdict(asset);
      match verdict
      case Absent => Admit(task, asset);
      case Invalid => RejectOwned(task, asset, enabled);
      case Valid =>
        Touch(asset, now);
        LeaveOwned(task, asset.id, Ok);
      case MustHash =>
        tasks := tasks[task := Hashing(asset, Validate(asset, files[asset.id]), Owner(enabled))];
    }

    // _cached_path up to its await.
    method Verdict(asset: Asset) returns (verdict: Verdict)
      ensures verdict == Check(View(), asset)
      ensures verdict == Absent <==> asset.id !in files
      ensures verdict == Invalid <==> HasWrong(View(), asset)
      ensures verdict == Valid <==> HasCopy(View(), asset)
      ensures verdict == MustHash <==> HasUnknown(View(), asset)
    {
      VerdictIs(View(), asset);
      hide Validate;
      if asset.id !in files {
        return Absent;
      }
      var info := files[asset.id];
      if asset.size == None || asset.size.value != info.size {
        return Invalid;
      }
      if !asset.managed {
        return if info.mtime != asset.mtime then Invalid else Valid;
      }
      var validation := Validate(asset, info);
      return if asset.id in validated && validated[asset.id] == validation then Valid else MustHash;
    }

    method Again(task: Task, asset: Asset, rehydrate: bool, now: int)
      modifies this
      ensures View() == Cache.Again(limits, old(View()), task, asset, rehydrate, now)
    {
      hide Begin;
      if rehydrate { Hydrate(task, asset, now); } else { Leave(task, Failed); }
    }

    method RejectWaited(task: Task, asset: Asset, rehydrate: bool, now: int)
      modifies this
      ensures View() == Cache.RejectWaited(limits, old(View()), task, asset, rehydrate, now)
    {
      hide Cache.Again;
      var gone := Discard(asset.id);
      if gone { Again(task, asset, rehydrate, now); } else { Leave(task, CacheBusy); }
    }

    // hydrate() after the await on somebody else's hydration.
    method AfterWait(task: Task, now: int)
      requires task in tasks && tasks[task].Waiting? && tasks[task].on in finished
      modifies this
      ensures View() == Resume(limits, old(View()), task, now)
    {
      hide Cache.Again, Cache.RejectWaited, Validate;
      var asset := tasks[task].asset;
      var outcome := finished[tasks[task].on];
      if outcome == Disabled || outcome == Failed {
        Leave(task, outcome);
        return;
      }
      var verdict := Verdict(asset);
      match verdict
      case Absent => Again(task, asset, outcome == Ok, now);
      case Invalid => RejectWaited(task, asset, outcome == Ok, now);
      case Valid =>
        Touch(asset, now);
        Leave(task, Ok);
      case MustHash =>
        tasks := tasks[task := Hashing(asset, Validate(asset, files[asset.id]), Waiter(outcome == Ok))];
    }

    // _cached_path after its await.
    method AfterHash(task: Task, now: int)
      requires task in tasks && tasks[task].Hashed?
      modifies this
      ensures View() == HashDone(limits, old(View()), task, now)
    {
      hide Cache.Admit, Cache.RejectOwned, Cache.Again, Cache.RejectWaited, Validate, Cache.Touch;
      var work := tasks[task];
      var asset := work.asset;
      if work.actual == None {
        validated := validated - {asset.id};
        if work.role.Owner? {
          Admit(task, asset);
        } else {
          Again(task, asset, work.role.rehydrate, now);
        }
        return;
      }
      var same := asset.id in files && Validate(asset, files[asset.id]) == work.seen;
      if same && work.actual.value == asset.checksum {
        Touch(asset, now);
        if work.role.Owner? {
          LeaveOwned(task, asset.id, Ok);
        } else {
          Leave(task, Ok);
        }
      } else if work.role.Owner? {
        RejectOwned(task, asset, work.role.discard);
      } else {
        RejectWaited(task, asset, work.role.rehydrate, now);
      }
    }

    // One chunk of the download loop.
    method Receive(task: Task, n: nat)
      requires task in tasks && tasks[task].Downloading? && n > 0
      modifies this
      ensures View() == Chunk(limits, old(View()), task, n)
    {
      hide Stored;
      var asset := tasks[task].asset;
      var received := if asset.id in written then written[asset.id] else 0;
      if asset.size == None || received + n > asset.size.value {
        LeaveOwned(task, asset.id, Failed);
        return;
      }
      var free := DiskFree();
      if free - n < limits.floor {
        LeaveOwned(task, asset.id, Failed);
        return;
      }
      received := received + n;
      partial := partial[asset.id := received];
      written := written[asset.id := received];
    }

    method MoveInPlace(id: Id, file: File)
      modifies this`files, this`nextStamp, this`partial
      ensures View() == old(View()).(files := old(files)[id := file], nextStamp := old(nextStamp) + 1,
                                     partial := old(partial) - {id})
    {
      files := files[id := file];
      nextStamp := nextStamp + 1;
      partial := partial - {id};
    }

    // _download after the last chunk; the file is put in place whole.
    method Install(task: Task, digest: Digest, now: int)
      requires task in tasks && tasks[task].Downloading?
      modifies this
      ensures View() == Finish(old(View()), task, digest, now)
    {
      hide Cache.Touch, End;
      var asset := tasks[task].asset;
      var received := if asset.id in written then written[asset.id] else 0;
      if asset.size == None || received != asset.size.value {
        LeaveOwned(task, asset.id, Failed);
        return;
      }
      if asset.managed && digest != asset.checksum {
        LeaveOwned(task, asset.id, Failed);
        return;
      }
      MoveInPlace(asset.id, File(received, digest, asset.mtime, now, nextStamp));
      Touch(asset, now);
      LeaveOwned(task, asset.id, Ok);
    }
  }

  // ------------------------------------------------------------ loop lemmas

  function AtMost(a: nat, b: nat): nat {
    if a < b then a else b
  }

  lemma OldestIsFirst(files: map<Id, File>, ids: set<Id>, first: Id)
    requires ids <= files.Keys && Oldest(files, ids, first)
    ensures Order(files, ids) == [first] + Order(files, ids - {first})
  {
    var chosen := Order(files, ids)[0];
    assert Oldest(files, ids, chosen);
  }

  lemma FilterNone(order: seq<Id>, keep: set<Id>)
    ensures Filter(order[..0], keep) == []
  {
  }

  lemma FilterStep(order: seq<Id>, i: nat, keep: set<Id>)
    requires i < |order|
    ensures var done := Filter(order[..i], keep);
            && Filter(order[..i + 1], keep) == (if order[i] in keep then done + [order[i]] else done)
            && Filter(order[..i + 1], keep) <= Filter(order, keep)
  {
    assert order[..i + 1][..i] == order[..i];
    FilterPrefix(order, i + 1, keep);
  }

  lemma {:induction false} FilterPrefix(order: seq<Id>, i: nat, keep: set<Id>)
    requires i <= |order|
    ensures Filter(order[..i], keep) <= Filter(order, keep)
  {
    var n := |order| - 1;
    if i == |order| {
      assert order[..i] == order;
    } else {
      FilterPrefix(order[..n], i, keep);
      assert order[..n][..i] == order[..i];
    }
  }

  lemma EvictableCheck(s: State, id: Id)
    requires id in s.files
    ensures id in Evictable(s) <==> id !in s.pinned && !Busy(s, id)
  {
  }

  lemma WithoutNone(s: State, order: seq<Id>)
    ensures Without(s.files, order, 0) == s.files && Evicted(s, order, 0) == s
    ensures Ids(order[..0]) == {}
  {
  }

  lemma EvictNext(s: State, order: seq<Id>, k: nat)
    requires OldestFirst(s, order) && k < |order|
    ensures order[k] in Without(s.files, order, k) && order[k] in s.files
    ensures Without(s.files, order, k)[order[k]] == s.files[order[k]]
    ensures Evicted(s, order, k + 1) ==
            Evicted(s, order, k).(files := Without(s.files, order, k) - {order[k]},
                                  validated := Evicted(s, order, k).validated - {order[k]})
    ensures Without(s.files, order, k + 1) == Without(s.files, order, k) - {order[k]}
    ensures Stored(Without(s.files, order, k + 1)) == Stored(Without(s.files, order, k)) - s.files[order[k]].size
  {
    hide Stored;
    var files := Without(s.files, order, k);
    assert order[..k + 1] == order[..k] + [order[k]];
    assert Ids(order[..k + 1]) == Ids(order[..k]) + {order[k]};
    forall j | 0 <= j < k ensures order[j] != order[k] {
      assert Before(s.files, order[j], order[k]);
    }
    StoredDrop(files, order[k]);
  }

  lemma StopDecides(l: Limits, s: State, target: Target, order: seq<Id>, m: nat)
    requires OldestFirst(s, order) && m < |order|
    ensures var n := StopAt(l, s, target, order, 0);
            var now := Without(s.files, order, AtMost(m, n));
            (target.now - s.files[order[m]].atime > target.maxAge || Stored(now) > target.maxBytes
             || l.space - Stored(now) - Sum(s.partial) < target.floor) <==> m < n
  {
    hide Without, Stored;
    StopAtIsFirst(l, s, target, order, 0);
    var n := StopAt(l, s, target, order, 0);
    if n < m { assert Before(s.files, order[n], order[m]); }
  }

  lemma FitsNumbers(l: Limits, s: State, asset: Asset, files: map<Id, File>)
    requires asset.size.Some?
    ensures Fits(l, s, asset, files) <==>
            && (asset.id in s.pinned || l.maxBytes == None
                || Stored(files) + Sum(s.reservations) + asset.size.value <= l.maxBytes.value)
            && l.space - Stored(files) - Sum(s.partial) - Sum(Outstanding(s.reservations, s.written)) - asset.size.value
               >= l.floor
  {
  }

  lemma FirstFitDecides(l: Limits, s: State, asset: Asset, order: seq<Id>, k: nat)
    requires asset.size.Some? && Fits(l, s, asset, Without(s.files, order, |order|))
    requires k <= FirstFit(l, s, asset, order, 0)
    ensures Fits(l, s, asset, Without(s.files, order, k)) <==> k == FirstFit(l, s, asset, order, 0)
  {
    hide Fits, Without;
  }
}
