// Mount claims: src/immich_on_demand/profiles.py.
//
// A mount path is the sequence of its resolved components; the root is the
// empty sequence. A lock file is named by the digest of its path, so here it is
// named by the path. A lock lives as long as the descriptor it was taken on.
module Mounts {
  import opened Options

  type Path = seq<string>

  type Descriptor = nat

  datatype Lock = Lock(path: Path, exclusive: bool)

  function Parents(path: Path): set<Path> {
    set k | 0 <= k < |path| :: path[..k]
  }

  predicate Overlap(first: Path, second: Path) {
    first == second || first in Parents(second) || second in Parents(first)
  }

  // What flock grants: shared locks go together, an exclusive one stands alone.
  predicate Grantable(table: map<Descriptor, Lock>, wanted: Lock) {
    forall d | d in table && table[d].path == wanted.path :: !table[d].exclusive && !wanted.exclusive
  }

  // The lock that is taken on the k-th step: the ancestors shared, from the
  // root down, and the mount itself exclusive.
  function Wanted(mount: Path, k: nat): Lock
    requires k <= |mount|
  {
    Lock(mount[..k], k == |mount|)
  }

  lemma OverlapIsPrefix(first: Path, second: Path)
    ensures Overlap(first, second) <==> first <= second || second <= first
  {
    if first <= second {
      assert first == second[..|first|];
      assert first != second ==> first in Parents(second);
    }
    if second <= first {
      assert second == first[..|second|];
      assert first != second ==> second in Parents(first);
    }
  }

  // ------------------------------------------------- one claim, undisturbed

  // The table after the first n locks of a mount were taken on the
  // descriptors from first on.
  function Taken(before: map<Descriptor, Lock>, first: Descriptor, mount: Path, n: nat): map<Descriptor, Lock>
    requires n <= |mount| + 1
  {
    if n == 0 then before else Taken(before, first, mount, n - 1)[first + n - 1 := Wanted(mount, n - 1)]
  }

  lemma {:induction false} TakenEntries(before: map<Descriptor, Lock>, first: Descriptor, mount: Path, n: nat,
                                        d: Descriptor)
    requires n <= |mount| + 1
    ensures d in Taken(before, first, mount, n) <==> d in before || first <= d < first + n
    ensures first <= d < first + n ==> Taken(before, first, mount, n)[d] == Wanted(mount, d - first)
    ensures d in before && !(first <= d < first + n) ==> Taken(before, first, mount, n)[d] == before[d]
  {
    if n > 0 { TakenEntries(before, first, mount, n - 1, d); }
  }

  class LockTable {
    var locks: map<Descriptor, Lock>
    var next: Descriptor

    ghost predicate Valid()
      reads this
    {
      forall d | d in locks :: d < next
    }

    // Takes every lock or, when one is refused, puts back those it has taken.
    method AcquireMountLocks(mount: Path) returns (taken: Option<seq<Descriptor>>)
      requires Valid()
      modifies this
      ensures Valid()
      ensures taken.Some? <==>
                && (forall d | d in old(locks) && old(locks)[d].path <= mount :: !old(locks)[d].exclusive)
                && (forall d | d in old(locks) :: old(locks)[d].path != mount)
      ensures taken == None ==> locks == old(locks)
      ensures taken.Some? ==>
                && locks == Taken(old(locks), old(next), mount, |mount| + 1)
                && |taken.value| == |mount| + 1
                && (forall k | 0 <= k <= |mount| :: taken.value[k] == old(next) + k)
                && (forall d | d in locks :: d in old(locks) || d in taken.value)
                && (forall d | d in old(locks) :: d in locks && locks[d] == old(locks)[d])
                && forall k | 0 <= k <= |mount| ::
                     taken.value[k] in locks && locks[taken.value[k]] == Lock(mount[..k], k == |mount|)
    {
      var descriptors: seq<Descriptor> := [];
      ghost var before, first := locks, next;
      var k := 0;
      while k <= |mount|
        invariant k <= |mount| + 1 && |descriptors| == k && next == first + k
        invariant forall i | 0 <= i < k :: descriptors[i] == first + i
        invariant locks == Taken(before, first, mount, k)
        invariant forall i | 0 <= i < k :: Grantable(before, Wanted(mount, i))
      {
        var wanted := Lock(mount[..k], k == |mount|);
        GrantableBefore(before, first, mount, k);
        if !Grantable(locks, wanted) {
          FreeIff(before, mount);
          ReleaseAll(descriptors, before, first, mount);
          return None;
        }
        locks := locks[next := wanted];
        descriptors := descriptors + [next];
        next := next + 1;
        k := k + 1;
      }
      forall d: Descriptor
        ensures d in locks <==> d in before || first <= d < next
        ensures first <= d < next ==> locks[d] == Wanted(mount, d - first)
        ensures d in before ==> d in locks && locks[d] == before[d]
      {
        TakenEntries(before, first, mount, k, d);
      }
      forall d | d in locks ensures d in before || d in descriptors {
        if first <= d < next { assert d == descriptors[d - first]; }
      }
      FreeIff(before, mount);
      return Some(descriptors);
    }

    method ReleaseAll(descriptors: seq<Descriptor>, ghost before: map<Descriptor, Lock>, ghost first: Descriptor,
                      ghost mount: Path)
      requires |descriptors| <= |mount| + 1
      requires forall i | 0 <= i < |descriptors| :: descriptors[i] == first + i
      requires forall d | d in before :: d < first
      requires locks == Taken(before, first, mount, |descriptors|)
      modifies this`locks
      ensures locks == before
    {
      var n := |descriptors|;
      while n > 0
        invariant 0 <= n <= |descriptors| && locks == Taken(before, first, mount, n)
      {
        n := n - 1;
        TakenEntries(before, first, mount, n, first + n);
        locks := locks - {descriptors[n]};
      }
    }
  }

  // A mount can be locked if nobody has locked it and nobody has locked it or
  // anything above it exclusively.
  lemma FreeIff(table: map<Descriptor, Lock>, mount: Path)
    ensures (forall k | 0 <= k <= |mount| :: Grantable(table, Wanted(mount, k))) <==>
            && (forall d | d in table && table[d].path <= mount :: !table[d].exclusive)
            && (forall d | d in table :: table[d].path != mount)
  {
    forall d | d in table && table[d].path <= mount
      ensures table[d].path == Wanted(mount, |table[d].path|).path
    {
    }
    assert Wanted(mount, |mount|) == Lock(mount, true);
    if forall k | 0 <= k <= |mount| :: Grantable(table, Wanted(mount, k)) {
      forall d | d in table && table[d].path <= mount ensures !table[d].exclusive {
        assert Grantable(table, Wanted(mount, |table[d].path|));
      }
      assert Grantable(table, Wanted(mount, |mount|));
    } else {
      var k :| 0 <= k <= |mount| && !Grantable(table, Wanted(mount, k));
    }
  }

  // The locks that a claim has taken itself never stand in its way.
  lemma GrantableBefore(before: map<Descriptor, Lock>, first: Descriptor, mount: Path, k: nat)
    requires k <= |mount| && forall d | d in before :: d < first
    ensures Grantable(Taken(before, first, mount, k), Wanted(mount, k)) <==> Grantable(before, Wanted(mount, k))
  {
    var table := Taken(before, first, mount, k);
    forall d
      ensures d in table && table[d].path == mount[..k] <==> d in before && before[d].path == mount[..k]
      ensures d in before ==> d in table && table[d] == before[d]
    {
      TakenEntries(before, first, mount, k, d);
    }
  }

  // ------------------------------------------------ any number of claimants

  datatype Phase = Acquiring | Held | Releasing

  // A claim holds the first locks of its mount, as many as it has taken and not
  // yet put back.
  datatype Claim = Claim(mount: Path, locks: nat, phase: Phase)

  type Claimant = nat

  type System = map<Claimant, Claim>

  datatype Step =
    | Start(who: Claimant, mount: Path)
    | TryNext(who: Claimant)
    | Leave(who: Claimant)
    | ReleaseOne(who: Claimant)

  predicate Holds(s: System, who: Claimant, k: nat) {
    who in s && k < s[who].locks && k <= |s[who].mount|
  }

  // Whether the next lock of a claim is granted, whoever holds the others.
  ghost predicate Granted(s: System, who: Claimant)
    requires who in s && s[who].locks <= |s[who].mount|
  {
    var wanted := Wanted(s[who].mount, s[who].locks);
    forall other, k | Holds(s, other, k) && Wanted(s[other].mount, k).path == wanted.path ::
      !Wanted(s[other].mount, k).exclusive && !wanted.exclusive
  }

  ghost predicate Enabled(s: System, step: Step) {
    match step
    case Start(who, _) => who !in s
    case TryNext(who) => who in s && s[who].phase == Acquiring && s[who].locks <= |s[who].mount|
    case Leave(who) => who in s && s[who].phase == Held
    case ReleaseOne(who) => who in s && s[who].phase == Releasing
  }

  ghost function Apply(s: System, step: Step): System
    requires Enabled(s, step)
  {
    match step
    case Start(who, mount) => s[who := Claim(mount, 0, Acquiring)]
    case TryNext(who) =>
      var c := s[who];
      if !Granted(s, who) then s[who := c.(phase := Releasing)]
      else s[who := Claim(c.mount, c.locks + 1, if c.locks == |c.mount| then Held else Acquiring)]
    case Leave(who) => s[who := s[who].(phase := Releasing)]
    case ReleaseOne(who) =>
      var c := s[who];
      if c.locks == 0 then s - {who} else s[who := c.(locks := c.locks - 1)]
  }

  ghost predicate Compatible(s: System, a: Claimant, i: nat, b: Claimant, j: nat)
    requires Holds(s, a, i) && Holds(s, b, j)
  {
    Wanted(s[a].mount, i).path == Wanted(s[b].mount, j).path ==>
      !Wanted(s[a].mount, i).exclusive && !Wanted(s[b].mount, j).exclusive
  }

  ghost predicate Inv(s: System) {
    && (forall who | who in s ::
          && s[who].locks <= |s[who].mount| + 1
          && (s[who].phase == Acquiring ==> s[who].locks <= |s[who].mount|)
          && (s[who].phase == Held ==> s[who].locks == |s[who].mount| + 1))
    && (forall a, i, b, j | Holds(s, a, i) && Holds(s, b, j) && a != b :: Compatible(s, a, i, b, j))
  }

  lemma InvStep(s: System, step: Step)
    requires Inv(s) && Enabled(s, step)
    ensures Inv(Apply(s, step))
  {
    var t := Apply(s, step);
    forall a, i, b, j | Holds(t, a, i) && Holds(t, b, j) && a != b
      ensures Compatible(t, a, i, b, j)
    {
      if Holds(s, a, i) && Holds(s, b, j) {
        assert Compatible(s, a, i, b, j);
      }
    }
  }

  // The state after some steps of any interleaving, each of them enabled.
  ghost predicate Reachable(s: System, steps: seq<Step>)
    decreases |steps|
  {
    if steps == [] then s == map[]
    else
      var n := |steps| - 1;
      exists p :: Reachable(p, steps[..n]) && Enabled(p, steps[n]) && s == Apply(p, steps[n])
  }

  lemma {:induction false} InvReachable(s: System, steps: seq<Step>)
    requires Reachable(s, steps)
    ensures Inv(s)
    decreases |steps|
  {
    if steps != [] {
      var n := |steps| - 1;
      var p :| Reachable(p, steps[..n]) && Enabled(p, steps[n]) && s == Apply(p, steps[n]);
      InvReachable(p, steps[..n]);
      InvStep(p, steps[n]);
    }
  }

  // However the claimants interleave, two mounts that are both claimed are
  // neither equal nor one above the other.
  lemma HeldMountsNeverOverlap(s: System, steps: seq<Step>, a: Claimant, b: Claimant)
    requires Reachable(s, steps)
    requires a in s && b in s && a != b && s[a].phase == Held && s[b].phase == Held
    ensures !Overlap(s[a].mount, s[b].mount)
  {
    InvReachable(s, steps);
    var m, n := s[a].mount, s[b].mount;
    OverlapIsPrefix(m, n);
    if m <= n {
      assert Holds(s, a, |m|) && Holds(s, b, |m|);
    }
    if n <= m {
      assert Holds(s, a, |n|) && Holds(s, b, |n|);
    }
  }

  // A claim that overlaps no other claim, held, in progress or on its way out,
  // is granted every lock it asks for.
  lemma SeparateClaimIsGranted(s: System, steps: seq<Step>, who: Claimant)
    requires Reachable(s, steps)
    requires who in s && s[who].phase == Acquiring
    requires forall other | other in s && other != who :: !Overlap(s[who].mount, s[other].mount)
    ensures s[who].locks <= |s[who].mount| && Granted(s, who)
  {
    InvReachable(s, steps);
    var mount, n := s[who].mount, s[who].locks;
    var wanted := Wanted(mount, n);
    forall other, k | Holds(s, other, k) && Wanted(s[other].mount, k).path == wanted.path
      ensures !Wanted(s[other].mount, k).exclusive && !wanted.exclusive
    {
      assert k == |Wanted(s[other].mount, k).path| == n;
      OverlapIsPrefix(mount, s[other].mount);
    }
  }
}
