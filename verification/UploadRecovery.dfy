// Removal of finished jobs and the startup recovery of the queue's directory:
// src/immich_on_demand/uploads.py.
//
// A job id stands for two entries of the directory, the job's own directory and
// the cleanup marker that its manifest becomes while it is removed. Every
// change that reaches the disk is one step, and a crash can follow any of them.
module UploadRecovery {
  import opened Options
  import opened Utf8
  import opened Manifests

  // temp is the half-written manifest that a crash leaves; extra stands for
  // anything else that does not belong there. A manifest that does not satisfy
  // the validator is one that cannot be read.
  datatype Dir = Dir(payload: Option<seq<byte>>, manifest: Option<Manifest>, temp: bool, extra: bool)

  datatype Slot = Slot(marker: Option<Manifest>, dir: Option<Dir>)

  const GONE := Slot(None, None)

  type Root = map<Uuid, Slot>

  // The entries of the directory; others have no name that the queue gives.
  datatype Name = JobDir(id: Uuid) | Marker(id: Uuid) | Strange(text: string)

  // -------------------------------------------- what the disk goes through

  function Last(slot: Slot, trace: seq<Slot>): Slot {
    if trace == [] then slot else trace[|trace| - 1]
  }

  predicate Marked(slot: Slot) {
    slot.marker.Some? && Valid(slot.marker.value) && Removable(slot.marker.value)
  }

  predicate Emptying(dir: Dir) {
    dir.manifest == None && !dir.temp && !dir.extra
  }

  function Unlinked(slot: Slot): Slot
    requires slot.dir.Some?
  {
    slot.(dir := Some(slot.dir.value.(payload := None)))
  }

  // _finish_cleanup_marker; nothing where it raises an error.
  function FinishTrace(slot: Slot): seq<Slot> {
    if !Marked(slot) || (slot.dir.Some? && !Emptying(slot.dir.value)) then []
    else if slot.dir == None then [GONE]
    else (if slot.dir.value.payload.Some? then [Unlinked(slot)] else []) + [slot.(dir := None), GONE]
  }

  datatype Verdict = Absent | Live | Doomed | Unsafe

  function Scan(slot: Slot): Verdict {
    match slot.dir
    case None => Absent
    case Some(dir) =>
      if dir.extra || dir.temp || dir.manifest == None || !Valid(dir.manifest.value) || dir.payload == None then Unsafe
      else if Removable(dir.manifest.value) then Doomed
      else Live
  }

  // A draft that nobody writes any more is blocked: a new manifest is written
  // beside the old one and takes its place.
  function ScanTrace(slot: Slot): seq<Slot> {
    if Scan(slot) == Live && slot.dir.value.manifest.value.state == Writing then
      var dir := slot.dir.value;
      [slot.(dir := Some(dir.(temp := true))),
       slot.(dir := Some(dir.(manifest := Some(Next(dir.manifest.value, OpInterrupt)))))]
    else []
  }

  // _cleanup_job; nothing where it raises an error.
  function CleanTrace(slot: Slot): seq<Slot> {
    if Scan(slot) != Doomed || slot.marker.Some? then []
    else
      var moved := Slot(slot.dir.value.manifest, Some(slot.dir.value.(manifest := None)));
      [moved, Unlinked(moved), moved.(dir := None), GONE]
  }

  function Finished(slot: Slot): Slot {
    Last(slot, FinishTrace(slot))
  }

  function Scanned(slot: Slot): Slot {
    Last(Finished(slot), ScanTrace(Finished(slot)))
  }

  function StartupTrace(slot: Slot): seq<Slot> {
    FinishTrace(slot) + ScanTrace(Finished(slot)) + CleanTrace(Scanned(slot))
  }

  function Recovered(slot: Slot): Slot {
    Last(Scanned(slot), CleanTrace(Scanned(slot)))
  }

  // ---------------------------------------------------- what becomes of it

  predicate MarkerQuarantined(slot: Slot) {
    slot.marker.Some? && FinishTrace(slot) == []
  }

  predicate JobQuarantined(slot: Slot) {
    Scan(Finished(slot)) == Unsafe || (Scan(Finished(slot)) == Doomed && Finished(slot).marker.Some?)
  }

  predicate JobValid(slot: Slot) {
    Scan(Finished(slot)) == Live
  }

  // Every root after a crash of a startup. Slots are recovered one after the
  // other, so this allows more than can happen.
  ghost predicate OnTheWay(before: Root, after: Root) {
    && after.Keys == before.Keys
    && forall id | id in before :: after[id] == before[id] || after[id] in StartupTrace(before[id])
  }

  // An entry by what is in it: a directory that can be read, and what its
  // manifest says.
  predicate Readable(dir: Dir) {
    !dir.extra && !dir.temp && dir.payload.Some? && dir.manifest.Some? && Valid(dir.manifest.value)
  }

  predicate Finishable(slot: Slot)
    requires slot.marker.Some?
  {
    && Valid(slot.marker.value) && (slot.marker.value.state == Cancelled || slot.marker.value.state == Committed)
    && (slot.dir.Some? ==> slot.dir.value.manifest == None && !slot.dir.value.temp && !slot.dir.value.extra)
  }

  // A removal that was under way is finished if it can be.
  lemma MarkedOutcome(slot: Slot)
    requires slot.marker.Some?
    ensures Finishable(slot) ==>
            Recovered(slot) == GONE && !MarkerQuarantined(slot) && !JobQuarantined(slot) && !JobValid(slot)
    ensures !Finishable(slot) ==> MarkerQuarantined(slot) && Recovered(slot).marker == slot.marker
    ensures !Finishable(slot) && (slot.dir == None || !Readable(slot.dir.value)) ==> Recovered(slot) == slot
    ensures !Finishable(slot) && slot.dir.Some? && Readable(slot.dir.value) ==>
              var m := slot.dir.value.manifest.value;
              if m.state == Cancelled || m.state == Committed then JobQuarantined(slot) && Recovered(slot) == slot
              else JobValid(slot) && Recovered(slot).dir == Some(Interrupted(slot.dir.value))
  {
    hide ValidFields, SafeName, ValidState;
    if slot.dir.Some? && Readable(slot.dir.value) { InterruptedScan(slot); }
  }

  // What the scan makes of a directory: a draft that nobody writes any more is
  // blocked, and everything else is left alone.
  function Interrupted(dir: Dir): Dir
    requires dir.manifest.Some?
  {
    var m := dir.manifest.value;
    if m.state != Writing then dir
    else
      dir.(manifest := Some(m.(state := Blocked, revision := m.revision + 1, error := Some(InterruptedWrite))))
  }

  lemma InterruptedScan(slot: Slot)
    requires slot.dir.Some? && Readable(slot.dir.value)
    ensures var m := slot.dir.value.manifest.value;
            m.state != Cancelled && m.state != Committed ==>
              Last(slot, ScanTrace(slot)) == slot.(dir := Some(Interrupted(slot.dir.value)))
              && Scan(Last(slot, ScanTrace(slot))) == Live
  {
    hide SafeName, ValidSource;
  }

  // A job without a marker: one that cannot be read is left and quarantined, one
  // that is over is removed, and any other is there for the queue.
  lemma UnmarkedOutcome(slot: Slot)
    requires slot.marker == None
    ensures !MarkerQuarantined(slot)
    ensures slot.dir == None ==> Recovered(slot) == slot && !JobQuarantined(slot) && !JobValid(slot)
    ensures slot.dir.Some? && !Readable(slot.dir.value) ==>
            Recovered(slot) == slot && JobQuarantined(slot) && !JobValid(slot)
    ensures slot.dir.Some? && Readable(slot.dir.value) ==>
              var m := slot.dir.value.manifest.value;
              && !JobQuarantined(slot)
              && if m.state == Cancelled || m.state == Committed then Recovered(slot) == GONE && !JobValid(slot)
                 else JobValid(slot) && Recovered(slot) == slot.(dir := Some(Interrupted(slot.dir.value)))
  {
    hide ValidFields, SafeName, ValidState;
    if slot.dir.Some? && Readable(slot.dir.value) { InterruptedScan(slot); }
  }

  // ----------------------------------------------------------- crash safety

  // A finished job at any point of its removal: its own directory with a
  // manifest that says so, or a marker and what is left of the directory.
  predicate Removing(slot: Slot) {
    || slot == GONE
    || (slot.marker == None && Scan(slot) == Doomed)
    || (Marked(slot) && (slot.dir == None || Emptying(slot.dir.value)))
  }

  lemma CleanupStaysRemoving(slot: Slot)
    requires slot.marker == None && Scan(slot) == Doomed
    ensures CleanTrace(slot) != [] && Last(slot, CleanTrace(slot)) == GONE
    ensures forall i | 0 <= i < |CleanTrace(slot)| :: Removing(CleanTrace(slot)[i])
  {
    hide Valid;
  }

  // Startup takes a job that is being removed all the way, quarantines nothing,
  // and keeps it in that condition on the way.
  lemma StartupFinishesRemoval(slot: Slot)
    requires Removing(slot)
    ensures Recovered(slot) == GONE
    ensures !MarkerQuarantined(slot) && !JobQuarantined(slot) && !JobValid(slot)
    ensures forall i | 0 <= i < |StartupTrace(slot)| :: Removing(StartupTrace(slot)[i])
  {
    hide Valid;
    if slot.marker == None && Scan(slot) == Doomed { CleanupStaysRemoving(slot); }
  }

  // Startups that were each cut short somewhere.
  ghost predicate CrashedStartups(roots: seq<Root>) {
    roots != [] && forall k | 0 < k < |roots| :: OnTheWay(roots[k - 1], roots[k])
  }

  lemma {:induction false} RemovalSurvivesCrashes(roots: seq<Root>, k: nat, id: Uuid)
    requires CrashedStartups(roots) && k < |roots|
    requires id in roots[0] && Removing(roots[0][id])
    ensures id in roots[k] && Removing(roots[k][id])
  {
    hide Removing, StartupTrace;
    if k > 0 {
      RemovalSurvivesCrashes(roots, k - 1, id);
      assert OnTheWay(roots[k - 1], roots[k]);
      StartupFinishesRemoval(roots[k - 1][id]);
    }
  }

  // Wherever a removal is cut short, and however many startups after it, the
  // first startup that gets through leaves nothing of the job, and its entries
  // are not quarantined.
  lemma CutRemovalIsCompleted(slot: Slot, i: nat, roots: seq<Root>, id: Uuid)
    requires slot.marker == None && Scan(slot) == Doomed && i <= |CleanTrace(slot)|
    requires CrashedStartups(roots) && id in roots[0]
    requires roots[0][id] == if i == 0 then slot else CleanTrace(slot)[i - 1]
    ensures var last := roots[|roots| - 1];
            && id in last && Recovered(last[id]) == GONE
            && !MarkerQuarantined(last[id]) && !JobQuarantined(last[id]) && !JobValid(last[id])
  {
    hide Removing, CleanTrace, Scan, Recovered, MarkerQuarantined, JobQuarantined, JobValid, OnTheWay;
    CleanupStaysRemoving(slot);
    DoomedIsRemoving(slot);
    RemovalSurvivesCrashes(roots, |roots| - 1, id);
    StartupFinishesRemoval(roots[|roots| - 1][id]);
  }

  lemma DoomedIsRemoving(slot: Slot)
    requires slot.marker == None && Scan(slot) == Doomed
    ensures Removing(slot)
  {
  }

  // ---------------------------------------------------------- other jobs

  function PayloadOf(slot: Slot): Option<seq<byte>> {
    if slot.dir.Some? then slot.dir.value.payload else None
  }

  lemma FinishCases(slot: Slot)
    ensures FinishTrace(slot) == [] ==> Finished(slot) == slot
    ensures FinishTrace(slot) != [] ==>
              Finished(slot) == GONE && Marked(slot) && Removing(slot) && !MarkerQuarantined(slot)
    ensures slot.marker == None ==> FinishTrace(slot) == [] && !MarkerQuarantined(slot)
    ensures slot.marker.Some? && FinishTrace(slot) == [] ==> MarkerQuarantined(slot)
  {
    hide Valid;
  }

  lemma ScanCases(slot: Slot)
    ensures Scan(slot) != Live ==> ScanTrace(slot) == []
    ensures Scan(slot) == Live ==>
              var after := Last(slot, ScanTrace(slot));
              && Scan(after) == Live && after.marker == slot.marker && ScanTrace(after) == [] && CleanTrace(after) == []
              && PayloadOf(after) == PayloadOf(slot)
              && forall i | 0 <= i < |ScanTrace(slot)| :: PayloadOf(ScanTrace(slot)[i]) == PayloadOf(slot)
  {
    hide Valid, Next;
    if Scan(slot) == Live && slot.dir.value.manifest.value.state == Writing {
      InterruptedIsLive(slot.dir.value.manifest.value);
    }
  }

  lemma CleanCases(slot: Slot)
    ensures CleanTrace(slot) == []
            || (slot.marker == None && Scan(slot) == Doomed && Last(slot, CleanTrace(slot)) == GONE)
    ensures Scan(slot) == Doomed && slot.marker == None ==> CleanTrace(slot) != []
  {
  }

  lemma DirCases(slot: Slot)
    ensures Scan(slot) == Absent <==> slot.dir == None
    ensures Scan(GONE) == Absent
  {
  }

  // Everything that a startup can make of a slot.
  lemma StartupCases(slot: Slot)
    ensures || (&& Recovered(slot) == GONE && Removing(slot)
                && !JobValid(slot) && !JobQuarantined(slot) && !MarkerQuarantined(slot))
            || (&& FinishTrace(slot) == [] && Finished(slot) == slot && CleanTrace(Scanned(slot)) == []
                && Recovered(slot) == Scanned(slot)
                && (Scan(slot) != Live ==> Scanned(slot) == slot)
                && (slot.marker.Some? ==> MarkerQuarantined(slot)))
  {
    hide Valid, Removing, FinishTrace, ScanTrace, CleanTrace, Scan, Marked;
    FinishCases(slot);
    DirCases(slot);
    ScanCases(Finished(slot));
    CleanCases(Scanned(slot));
    GoneStaysGone();
    RemovingWhenDoomed(slot);
  }

  lemma GoneStaysGone()
    ensures ScanTrace(GONE) == [] && CleanTrace(GONE) == [] && FinishTrace(GONE) == [] && Removing(GONE)
  {
  }

  lemma RemovingWhenDoomed(slot: Slot)
    ensures slot.marker == None && Scan(slot) == Doomed ==> Removing(slot)
  {
  }

  // A payload is only ever removed with a job that is cancelled or committed.
  lemma OtherPayloadsAreUntouched(slot: Slot, i: nat)
    requires !Removing(slot) && i < |StartupTrace(slot)|
    ensures PayloadOf(StartupTrace(slot)[i]) == PayloadOf(slot)
    ensures PayloadOf(Recovered(slot)) == PayloadOf(slot)
  {
    hide Valid, Removing, FinishTrace, ScanTrace, CleanTrace, Scan, Recovered, PayloadOf;
    StartupCases(slot);
    ScanCases(slot);
  }

  // Every entry ends up as exactly one of valid, quarantined and gone.
  lemma EntriesAreClassified(slot: Slot)
    ensures slot.dir.Some? ==>
              (if Recovered(slot).dir == None then !JobValid(slot) && !JobQuarantined(slot)
               else JobValid(slot) != JobQuarantined(slot))
    ensures slot.marker.Some? ==> (Recovered(slot).marker == None) != MarkerQuarantined(slot)
    ensures slot.dir == None ==> Recovered(slot).dir == None && !JobValid(slot) && !JobQuarantined(slot)
    ensures slot.marker == None ==> Recovered(slot).marker == None && !MarkerQuarantined(slot)
  {
    hide Valid, Removing, FinishTrace, ScanTrace, CleanTrace, Scan, Recovered, Finished;
    StartupCases(slot);
    FinishCases(slot);
    ScanCases(slot);
    CleanCases(slot);
    DirCases(slot);
    DirCases(Scanned(slot));
  }

  // What startup leaves is stable: a second one changes nothing and sorts every
  // entry that is still there as before.
  lemma RecoveryIsIdempotent(slot: Slot)
    ensures var after := Recovered(slot);
            && Recovered(after) == after
            && JobValid(after) == JobValid(slot) && JobQuarantined(after) == JobQuarantined(slot)
            && MarkerQuarantined(after) == MarkerQuarantined(slot)
  {
    StartupCases(slot);
    if Recovered(slot) != GONE && Scan(slot) == Live && slot.dir.value.manifest.value.state == Writing {
      LiveAgain(slot);
    }
    hide Valid, Next, Removing;
  }

  lemma LiveAgain(slot: Slot)
    requires FinishTrace(slot) == [] && Scan(slot) == Live
    ensures var after := Scanned(slot);
            && FinishTrace(after) == [] && ScanTrace(after) == [] && CleanTrace(after) == [] && Scan(after) == Live
            && (after.marker.Some? <==> slot.marker.Some?)
  {
    hide Valid, Next;
    if slot.dir.value.manifest.value.state == Writing { InterruptedIsLive(slot.dir.value.manifest.value); }
  }

  lemma InterruptedIsLive(m: Manifest)
    requires Valid(m) && m.state == Writing
    ensures Valid(Next(m, OpInterrupt)) && Next(m, OpInterrupt).state == Blocked
  {
    hide SafeName, ValidSource;
  }

  // The one crash that recovery does not mend: inside the write of a manifest.
  // The job it belongs to is quarantined, with its payload.
  lemma CrashInsideManifestWriteQuarantines(slot: Slot)
    requires slot.dir.Some? && slot.dir.value.temp
    ensures JobQuarantined(slot) && !JobValid(slot)
    ensures Recovered(slot).dir == slot.dir
  {
    hide Valid;
  }

  // -------------------------------------------------------- the directory

  function Roots(root: Root, id: Uuid, trace: seq<Slot>): seq<Root> {
    seq(|trace|, i requires 0 <= i < |trace| => root[id := trace[i]])
  }

  class QueueDirectory {
    var root: Root
    var strange: set<string>
    var valid: set<Uuid>
    var quarantined: set<Name>
    ghost var log: seq<Root>     // the disk after every step

    constructor (root: Root, strange: set<string>)
      ensures this.root == root && this.strange == strange && valid == {} && quarantined == {} && log == [root]
    {
      this.root := root;
      this.strange := strange;
      valid := {};
      quarantined := {};
      log := [root];
    }

    // One durable step; the ghost arguments tell the steps so far.
    method Put(id: Uuid, slot: Slot, ghost was: Root, ghost logged: seq<Root>, ghost trace: seq<Slot>)
      requires log == logged + Roots(was, id, trace) && root[id := slot] == was[id := slot]
      modifies this`root, this`log
      ensures root == was[id := slot] && log == logged + Roots(was, id, trace + [slot])
    {
      root := root[id := slot];
      log := log + [root];
      assert Roots(was, id, trace + [slot]) == Roots(was, id, trace) + [was[id := slot]];
    }

    // done is false where the source raises an error.
    method FinishMarker(id: Uuid) returns (done: bool)
      requires id in root && root[id].marker.Some?
      modifies this`root, this`log
      ensures done == !MarkerQuarantined(old(root)[id])
      ensures root == old(root)[id := Finished(old(root)[id])]
      ensures log == old(log) + Roots(old(root), id, FinishTrace(old(root)[id]))
    {
      hide Valid, Roots;
      ghost var was, logged := root, log;
      NoRoots(was, id);
      var slot := root[id];
      if !Valid(slot.marker.value) || !Removable(slot.marker.value) {
        return false;
      }
      ghost var trace := [];
      if slot.dir.Some? {
        if slot.dir.value.manifest.Some? || slot.dir.value.temp || slot.dir.value.extra {
          return false;
        }
        if slot.dir.value.payload.Some? {
          Put(id, slot.(dir := Some(slot.dir.value.(payload := None))), was, logged, trace);
          trace := trace + [root[id]];
        }
        Put(id, root[id].(dir := None), was, logged, trace);
        trace := trace + [root[id]];
      }
      Put(id, root[id].(marker := None), was, logged, trace);
      assert trace + [root[id]] == FinishTrace(slot);
      return true;
    }

    method CleanupJob(id: Uuid, allowed: set<State>) returns (done: bool)
      requires id in root && root[id].dir.Some?
      requires allowed <= {Cancelled, Committed}
      modifies this`root, this`log, this`valid
      ensures var slot := old(root)[id];
              done <==>
                && slot.marker == None && !slot.dir.value.extra && !slot.dir.value.temp && slot.dir.value.payload.Some?
                && slot.dir.value.manifest.Some? && Valid(slot.dir.value.manifest.value)
                && slot.dir.value.manifest.value.state in allowed
      ensures root == if done then old(root)[id := GONE] else old(root)
      ensures done ==> log == old(log) + Roots(old(root), id, CleanTrace(old(root)[id]))
      ensures !done ==> log == old(log)
      ensures valid == if done then old(valid) - {id} else old(valid)
    {
      hide Valid, Roots;
      ghost var was, logged := root, log;
      NoRoots(was, id);
      var slot := root[id];
      if slot.marker.Some? {
        return false;
      }
      var dir := slot.dir.value;
      if dir.manifest == None || !Valid(dir.manifest.value) || dir.manifest.value.state !in allowed {
        return false;
      }
      if dir.payload == None || dir.temp || dir.extra {
        return false;
      }
      ghost var trace := [];
      Put(id, Slot(dir.manifest, Some(dir.(manifest := None))), was, logged, trace);
      trace := trace + [root[id]];
      valid := valid - {id};
      Put(id, root[id].(dir := Some(root[id].dir.value.(payload := None))), was, logged, trace);
      trace := trace + [root[id]];
      Put(id, root[id].(dir := None), was, logged, trace);
      trace := trace + [root[id]];
      Put(id, root[id].(marker := None), was, logged, trace);
      assert trace + [root[id]] == CleanTrace(slot);
      return true;
    }

    method ScanJob(id: Uuid) returns (verdict: Verdict)
      requires id in root && root[id].dir.Some?
      modifies this`root, this`log
      ensures verdict == Scan(old(root)[id])
      ensures root == old(root)[id := Last(old(root)[id], ScanTrace(old(root)[id]))]
      ensures log == old(log) + Roots(old(root), id, ScanTrace(old(root)[id]))
    {
      hide Valid, Roots, Next;
      ghost var was, logged := root, log;
      NoRoots(was, id);
      var slot := root[id];
      var dir := slot.dir.value;
      if dir.extra || dir.temp || dir.manifest == None || !Valid(dir.manifest.value) || dir.payload == None {
        return Unsafe;
      }
      var m := dir.manifest.value;
      if Removable(m) {
        return Doomed;
      }
      if m.state == Writing {
        Put(id, slot.(dir := Some(dir.(temp := true))), was, logged, []);
        ghost var trace := [root[id]];
        assert [] + trace == trace;
        Put(id, slot.(dir := Some(dir.(manifest := Some(Next(m, OpInterrupt))))), was, logged, trace);
        assert trace + [root[id]] == ScanTrace(slot);
      }
      return Live;
    }

    method RecoverStartup()
      modifies this
      ensures root.Keys == old(root).Keys && forall id | id in root :: root[id] == Recovered(old(root)[id])
      ensures strange == old(strange)
      ensures valid == set id | id in old(root) && JobValid(old(root)[id])
      ensures quarantined ==
              (set id | id in old(root) && MarkerQuarantined(old(root)[id]) :: Marker(id))
              + (set id | id in old(root) && JobQuarantined(old(root)[id]) :: JobDir(id))
              + (set text | text in strange :: Strange(text))
      ensures Logged(old(root), old(log), log)
    {
      hide MarkerQuarantined, JobQuarantined, JobValid, Finished, Scanned, Recovered, OnTheWay, Scan, Doom, Stuck,
           Logged;
      ghost var before, log0 := root, log;
      FinishMarkers();
      ghost var log1 := log;
      var doomed := ScanJobs(before);
      LogsMore(before, log0, log1, log);
      ghost var log2 := log;
      CleanupDoomed(before, doomed);
      LogsMore(before, log0, log2, log);
      forall id | id in before
        ensures JobQuarantined(before[id]) <==> id in UnsafeIds(before) || id in StuckIds(before)
      {
        QuarantineCases(before[id]);
      }
    }

    method FinishMarkers()
      modifies this
      ensures HalfFinished(old(root), root, {})
      ensures strange == old(strange) && valid == {}
      ensures quarantined == Markers(MarkedIds(old(root)))
      ensures Logged(old(root), old(log), log)
    {
      hide MarkerQuarantined, Finished, OnTheWay, FinishTrace, Roots, Logged, Markers, MarkedIds, HalfFinished;
      ghost var before := root;
      valid := {};
      quarantined := {};
      var names := root.Keys;
      LogsNothing(before, log);
      NoNames(before);
      FirstPhases(before, root);
      while names != {}
        invariant names <= before.Keys && HalfFinished(before, root, names)
        invariant quarantined == Markers(MarkedIds(before) - names)
        invariant Logged(before, old(log), log)
        invariant strange == old(strange) && valid == {}
      {
        var id :| id in names;
        UnmarkedStays(before[id]);
        FinishNext(before, root, names, id);
        NextMarked(before, names, id);
        names := names - {id};
        if root[id].marker.Some? {
          TraceParts(before[id]);
          LogRoots(before, root, id, FinishTrace(before[id]), old(log), log);
          var done := FinishMarker(id);
          if !done {
            quarantined := quarantined + {Marker(id)};
          }
        }
      }
    }

    // What holds of a scan that has still to go through the names.
    ghost predicate HalfSorted(before: Root, names: set<Uuid>, doomed: map<Uuid, State>, others: set<Name>,
                               from: seq<Root>)
      reads this
    {
      && names <= before.Keys && HalfScanned(before, root, names)
      && valid == ValidIds(before) - names
      && doomed.Keys == DoomedIds(before) - names && Dooms(before, doomed)
      && quarantined == others + Jobs(UnsafeIds(before) - names)
      && Logged(before, from, log)
    }

    method SortJob(ghost before: Root, ghost names: set<Uuid>, id: Uuid, doomed: map<Uuid, State>,
                   ghost others: set<Name>, ghost from: seq<Root>)
      returns (after: map<Uuid, State>)
      requires id in names && HalfSorted(before, names, doomed, others, from)
      modifies this`root, this`log, this`valid, this`quarantined
      ensures HalfSorted(before, names - {id}, after, others, from)
    {
      hide CleanTrace, Doom, DoomedIds, FinishTrace, Finished, HalfScanned, JobValid, Jobs, Last, Logged, OnTheWay,
           Recovered, Roots, Scan, ScanTrace, Scanned, StartupTrace, Through, UnsafeIds, ValidIds;
      after := doomed;
      DoomOf(before[id]);
      ScanNext(before, root, names, id);
      NextScanned(before, names, id);
      if root[id].dir.Some? {
        TraceParts(before[id]);
        LogRoots(before, root, id, ScanTrace(Finished(before[id])), from, log);
        var slot := root[id];
        var verdict := ScanJob(id);
        if verdict.Unsafe? {
          quarantined := quarantined + {JobDir(id)};
        } else if verdict.Doomed? {
          after := after[id := slot.dir.value.manifest.value.state];
        } else {
          valid := valid + {id};
        }
      }
    }

    method ScanJobs(ghost before: Root) returns (doomed: map<Uuid, State>)
      requires HalfFinished(before, root, {})
      requires valid == {}
      modifies this`root, this`log, this`valid, this`quarantined
      ensures HalfScanned(before, root, {})
      ensures valid == ValidIds(before)
      ensures doomed.Keys == DoomedIds(before) && Dooms(before, doomed)
      ensures quarantined == old(quarantined) + Jobs(UnsafeIds(before)) + set text | text in strange :: Strange(text)
      ensures Logged(before, old(log), log)
    {
      hide Doom, DoomedIds, HalfFinished, HalfRecovered, HalfScanned, Jobs, Logged, MarkedIds, Markers, StuckIds,
           UnsafeIds, ValidIds;
      quarantined := quarantined + set text | text in strange :: Strange(text);
      ghost var others := quarantined;
      doomed := map[];
      var names := root.Keys;
      LogsNothing(before, log);
      NoNames(before);
      FirstPhases(before, root);
      while names != {}
        invariant HalfSorted(before, names, doomed, others, old(log))
      {
        var id :| id in names;
        doomed := SortJob(before, names, id, doomed, others, old(log));
        names := names - {id};
      }
      assert ValidIds(before) - names == ValidIds(before) && DoomedIds(before) - names == DoomedIds(before);
      assert UnsafeIds(before) - names == UnsafeIds(before);
    }

    // What holds of a cleanup that has still to go through the names.
    ghost predicate HalfCleaned(before: Root, names: set<Uuid>, others: set<Name>, from: seq<Root>)
      reads this
    {
      && HalfRecovered(before, root, names) && valid == ValidIds(before)
      && quarantined == others + Jobs(StuckIds(before) - names)
      && Logged(before, from, log)
    }

    method CleanNext(ghost before: Root, ghost names: set<Uuid>, id: Uuid, state: State, ghost others: set<Name>,
                     ghost from: seq<Root>)
      requires id in names && names <= before.Keys && HalfCleaned(before, names, others, from)
               && Doom(before[id], state)
      modifies this`root, this`log, this`valid, this`quarantined
      ensures HalfCleaned(before, names - {id}, others, from)
    {
      hide Finished, Scanned, Recovered, OnTheWay, CleanTrace, Scan, Stuck, Doom, JobValid, Roots, Logged, ValidIds,
           StuckIds, DoomedIds, Jobs, HalfRecovered, Valid;
      RecoverNext(before, root, names, id);
      NextStuck(before, names, id);
      TraceParts(before[id]);
      LogRoots(before, root, id, CleanTrace(Scanned(before[id])), from, log);
      DoomedFacts(before[id], state);
      valid := valid + {id};
      var done := CleanupJob(id, {state});
      if !done {
        valid := valid - {id};
        quarantined := quarantined + {JobDir(id)};
      }
    }

    method CleanupDoomed(ghost before: Root, doomed: map<Uuid, State>)
      requires HalfScanned(before, root, {})
      requires valid == ValidIds(before)
      requires doomed.Keys == DoomedIds(before) && Dooms(before, doomed)
      modifies this
      ensures HalfRecovered(before, root, {})
      ensures strange == old(strange) && valid == old(valid)
      ensures quarantined == old(quarantined) + Jobs(StuckIds(before))
      ensures Logged(before, old(log), log)
    {
      hide Finished, Scanned, Recovered, OnTheWay, CleanTrace, Scan, Stuck, Doom, JobValid, Roots, Logged, ValidIds,
           StuckIds, DoomedIds, Jobs, HalfRecovered;
      var names := doomed.Keys;
      OnlyDoomedChange(before);
      LogsNothing(before, log);
      NoNames(before);
      FirstPhases(before, root);
      while names != {}
        invariant names <= doomed.Keys <= before.Keys && HalfCleaned(before, names, old(quarantined), old(log))
        invariant strange == old(strange)
      {
        var id :| id in names;
        CleanNext(before, names, id, doomed[id], old(quarantined), old(log));
        names := names - {id};
      }
    }
  }

  // ------------------------------------------------------------ loop lemmas

  lemma NoRoots(root: Root, id: Uuid)
    ensures Roots(root, id, []) == []
  {
  }

  function Markers(ids: set<Uuid>): set<Name> {
    set id | id in ids :: Marker(id)
  }

  function Jobs(ids: set<Uuid>): set<Name> {
    set id | id in ids :: JobDir(id)
  }

  function MarkedIds(root: Root): set<Uuid> {
    set id | id in root && MarkerQuarantined(root[id])
  }

  function ValidIds(root: Root): set<Uuid> {
    set id | id in root && JobValid(root[id])
  }

  function UnsafeIds(root: Root): set<Uuid> {
    set id | id in root && Scan(Finished(root[id])) == Unsafe
  }

  function DoomedIds(root: Root): set<Uuid> {
    set id | id in root && Scan(Finished(root[id])) == Doomed
  }

  function StuckIds(root: Root): set<Uuid> {
    set id | id in root && Stuck(root[id])
  }

  function One<T>(here: bool, x: T): set<T> {
    if here then {x} else {}
  }

  lemma Without(ids: set<Uuid>, names: set<Uuid>, id: Uuid)
    requires id in names
    ensures ids - (names - {id}) == (ids - names) + One(id in ids, id)
    ensures id !in ids - names
  {
  }

  lemma NextMarked(before: Root, names: set<Uuid>, id: Uuid)
    requires id in names && names <= before.Keys
    ensures Markers(MarkedIds(before) - (names - {id})) ==
            Markers(MarkedIds(before) - names) + One(MarkerQuarantined(before[id]), Marker(id))
  {
    hide MarkerQuarantined;
    Without(MarkedIds(before), names, id);
    JobsMore(MarkedIds(before) - names, MarkerQuarantined(before[id]), id);
  }

  lemma NextScanned(before: Root, names: set<Uuid>, id: Uuid)
    requires id in names && names <= before.Keys
    ensures ValidIds(before) - (names - {id}) == (ValidIds(before) - names) + One(JobValid(before[id]), id)
    ensures DoomedIds(before) - (names - {id}) ==
            (DoomedIds(before) - names) + One(Scan(Finished(before[id])) == Doomed, id)
    ensures Jobs(UnsafeIds(before) - (names - {id})) ==
            Jobs(UnsafeIds(before) - names) + One(Scan(Finished(before[id])) == Unsafe, JobDir(id))
    ensures id !in DoomedIds(before) - names
  {
    hide Finished, Scan, JobValid;
    Without(ValidIds(before), names, id);
    Without(DoomedIds(before), names, id);
    Without(UnsafeIds(before), names, id);
    JobsMore(UnsafeIds(before) - names, Scan(Finished(before[id])) == Unsafe, id);
  }

  lemma NextStuck(before: Root, names: set<Uuid>, id: Uuid)
    requires id in names && names <= before.Keys
    ensures Jobs(StuckIds(before) - (names - {id})) ==
            Jobs(StuckIds(before) - names) + One(Stuck(before[id]), JobDir(id))
    ensures !JobValid(before[id]) ==> id !in ValidIds(before)
  {
    hide JobValid, Stuck;
    Without(StuckIds(before), names, id);
    JobsMore(StuckIds(before) - names, Stuck(before[id]), id);
  }

  lemma JobsMore(ids: set<Uuid>, here: bool, id: Uuid)
    ensures Jobs(ids + One(here, id)) == Jobs(ids) + One(here, JobDir(id))
    ensures Markers(ids + One(here, id)) == Markers(ids) + One(here, Marker(id))
  {
  }

  lemma NoNames(before: Root)
    ensures Markers(MarkedIds(before) - before.Keys) == {}
            && Markers(MarkedIds(before) - {}) == Markers(MarkedIds(before))
    ensures ValidIds(before) - before.Keys == {} && ValidIds(before) - {} == ValidIds(before)
    ensures DoomedIds(before) - before.Keys == {} && DoomedIds(before) - {} == DoomedIds(before)
    ensures Jobs(UnsafeIds(before) - before.Keys) == {} && Jobs(UnsafeIds(before) - {}) == Jobs(UnsafeIds(before))
    ensures Jobs(StuckIds(before) - DoomedIds(before)) == {} && Jobs(StuckIds(before) - {}) == Jobs(StuckIds(before))
  {
    hide JobValid, MarkerQuarantined, Scan, Finished;
    assert StuckIds(before) <= DoomedIds(before);
    assert MarkedIds(before) - {} == MarkedIds(before) && UnsafeIds(before) - {} == UnsafeIds(before);
    assert StuckIds(before) - {} == StuckIds(before);
  }

  predicate Stuck(slot: Slot) {
    Scan(Finished(slot)) == Doomed && Finished(slot).marker.Some?
  }

  lemma QuarantineCases(slot: Slot)
    ensures JobQuarantined(slot) <==> Scan(Finished(slot)) == Unsafe || Stuck(slot)
  {
  }

  // The state under which a doomed job was seen.
  predicate Doom(slot: Slot, state: State) {
    && Scan(Finished(slot)) == Doomed
    && state == Finished(slot).dir.value.manifest.value.state
  }

  predicate Dooms(before: Root, doomed: map<Uuid, State>) {
    forall id | id in doomed :: id in before && Doom(before[id], doomed[id])
  }

  lemma DoomOf(slot: Slot)
    ensures Scan(Finished(slot)) == Doomed ==>
              && Finished(slot).dir.Some? && Finished(slot).dir.value.manifest.Some?
              && Doom(slot, Finished(slot).dir.value.manifest.value.state)
    ensures JobValid(slot) <==> Scan(Finished(slot)) == Live
    ensures Scanned(slot) == Last(Finished(slot), ScanTrace(Finished(slot)))
    ensures Finished(slot).dir.Some? <==> Scan(Finished(slot)) != Absent
    ensures Scan(Finished(slot)) == Absent ==> Scanned(slot) == Finished(slot)
  {
    hide Valid, FinishTrace;
  }

  lemma DoomedFacts(slot: Slot, state: State)
    requires Doom(slot, state)
    ensures Scanned(slot) == Finished(slot) && Scan(Scanned(slot)) == Doomed && Scanned(slot).dir.Some?
    ensures Readable(Scanned(slot).dir.value) && Scanned(slot).dir.value.manifest.value.state == state
    ensures state in {Cancelled, Committed}
    ensures Stuck(slot) <==> Scanned(slot).marker.Some?
    ensures Stuck(slot) ==> Recovered(slot) == Scanned(slot) && CleanTrace(Scanned(slot)) == []
    ensures !Stuck(slot) ==> Recovered(slot) == GONE
    ensures !JobValid(slot)
  {
    hide Valid, FinishTrace;
  }

  lemma OnlyDoomedChange(before: Root)
    ensures forall id | id in before && Scan(Finished(before[id])) != Doomed ::
              Recovered(before[id]) == Scanned(before[id]) && !Stuck(before[id])
  {
    forall id | id in before && Scan(Finished(before[id])) != Doomed
      ensures Recovered(before[id]) == Scanned(before[id]) && !Stuck(before[id])
    {
      UndoomedStays(before[id]);
    }
  }

  lemma UndoomedStays(slot: Slot)
    requires Scan(Finished(slot)) != Doomed
    ensures Recovered(slot) == Scanned(slot) && !Stuck(slot)
  {
    hide Valid, Next, FinishTrace, Scan, CleanTrace, ScanTrace, Finished;
    ScanCases(Finished(slot));
    CleanCases(Scanned(slot));
  }

  lemma UnmarkedStays(slot: Slot)
    ensures slot.marker == None ==> Finished(slot) == slot && !MarkerQuarantined(slot)
  {
  }

  predicate Through(slot: Slot, now: Slot) {
    now == slot || now in StartupTrace(slot)
  }

  // The stages of a startup are stages of its trace.
  lemma TraceParts(slot: Slot)
    ensures forall t | t in FinishTrace(slot) :: t in StartupTrace(slot)
    ensures forall t | t in ScanTrace(Finished(slot)) :: t in StartupTrace(slot)
    ensures forall t | t in CleanTrace(Scanned(slot)) :: t in StartupTrace(slot)
    ensures Through(slot, Finished(slot)) && Through(slot, Scanned(slot)) && Through(slot, Recovered(slot))
  {
    hide FinishTrace, ScanTrace, CleanTrace;
  }

  // A phase that has still to go through the names.
  predicate HalfFinished(before: Root, now: Root, names: set<Uuid>) {
    && now.Keys == before.Keys
    && forall id | id in now :: now[id] == if id in names then before[id] else Finished(before[id])
  }

  predicate HalfScanned(before: Root, now: Root, names: set<Uuid>) {
    && now.Keys == before.Keys
    && forall id | id in now :: now[id] == if id in names then Finished(before[id]) else Scanned(before[id])
  }

  predicate HalfRecovered(before: Root, now: Root, names: set<Uuid>) {
    && now.Keys == before.Keys
    && forall id | id in now :: now[id] == if id in names then Scanned(before[id]) else Recovered(before[id])
  }

  lemma FirstPhases(before: Root, now: Root)
    ensures HalfFinished(before, before, before.Keys)
    ensures HalfFinished(before, now, {}) ==> HalfScanned(before, now, now.Keys) && now.Keys == before.Keys
    ensures HalfScanned(before, now, {}) ==>
            HalfRecovered(before, now, DoomedIds(before)) && DoomedIds(before) <= before.Keys
  {
    hide Finished, Scanned, Recovered, Scan;
    OnlyDoomedChange(before);
  }

  lemma FinishNext(before: Root, now: Root, names: set<Uuid>, id: Uuid)
    requires HalfFinished(before, now, names) && id in names && id in before
    ensures id in now && now[id] == before[id] && OnTheWay(before, now)
    ensures HalfFinished(before, now[id := Finished(before[id])], names - {id})
    ensures Finished(before[id]) == before[id] ==> HalfFinished(before, now, names - {id})
  {
    hide StartupTrace, Finished;
    forall other | other in before ensures Through(before[other], now[other]) { TraceParts(before[other]); }
  }

  lemma ScanNext(before: Root, now: Root, names: set<Uuid>, id: Uuid)
    requires HalfScanned(before, now, names) && id in names && id in before
    ensures id in now && now[id] == Finished(before[id]) && OnTheWay(before, now)
    ensures HalfScanned(before, now[id := Scanned(before[id])], names - {id})
    ensures Scanned(before[id]) == Finished(before[id]) ==> HalfScanned(before, now, names - {id})
  {
    hide StartupTrace, Finished, Scanned;
    forall other | other in before ensures Through(before[other], now[other]) { TraceParts(before[other]); }
  }

  lemma RecoverNext(before: Root, now: Root, names: set<Uuid>, id: Uuid)
    requires HalfRecovered(before, now, names) && id in names && id in before
    ensures id in now && now[id] == Scanned(before[id]) && OnTheWay(before, now)
    ensures HalfRecovered(before, now[id := Recovered(before[id])], names - {id})
    ensures Recovered(before[id]) == Scanned(before[id]) ==> HalfRecovered(before, now, names - {id})
  {
    hide StartupTrace, Scanned, Recovered;
    forall other | other in before ensures Through(before[other], now[other]) { TraceParts(before[other]); }
  }

  // The log only grows, by roots that a crash may leave.
  ghost predicate Logged(before: Root, from: seq<Root>, log: seq<Root>) {
    from <= log && forall k | |from| <= k < |log| :: OnTheWay(before, log[k])
  }

  lemma LogsNothing(before: Root, log: seq<Root>)
    ensures Logged(before, log, log)
  {
  }

  lemma LogsMore(before: Root, a: seq<Root>, b: seq<Root>, c: seq<Root>)
    requires Logged(before, a, b) && Logged(before, b, c)
    ensures Logged(before, a, c)
  {
    hide OnTheWay;
  }

  lemma LogRoots(before: Root, now: Root, id: Uuid, trace: seq<Slot>, from: seq<Root>, log: seq<Root>)
    requires OnTheWay(before, now) && id in before && Logged(before, from, log)
    requires forall t | t in trace :: t in StartupTrace(before[id])
    ensures Logged(before, from, log + Roots(now, id, trace))
  {
    hide StartupTrace;
    forall k | 0 <= k < |trace| ensures OnTheWay(before, Roots(now, id, trace)[k]) {
      assert trace[k] in trace;
    }
  }
}
