// One upload job under any interleaving of its callers:
// src/immich_on_demand/uploads.py.
//
// A step is one section that holds the queue's lock, or one system call made
// without it: seal() and an attempt read the payload chunk by chunk while
// everything else goes on.
module UploadRuns {
  import opened Options
  import opened Utf8
  import opened Manifests

  type Task = nat

  // The payload; a descriptor keeps it even when its name is gone. Whatever
  // changes the file gives it a new change time.
  datatype Payload = Payload(content: seq<byte>, ctime: nat, mtime: nat)

  // The draft that create() handed out.
  datatype Handle = Handle(revision: int, name: string)

  // A seal() between its two locked sections: what fstat reported, and the
  // bytes that went into the digest.
  datatype Sealing = Sealing(handle: Handle, manifest: Manifest, info: Option<Payload>, read: seq<byte>)

  // An attempt between its two locked sections.
  datatype Trying = Trying(provisional: Manifest, size: Option<nat>, read: seq<byte>, broken: bool)

  // manifest is None once the job is removed.
  datatype State = State(manifest: Option<Manifest>, payload: Payload, seals: map<Task, Sealing>,
                         tries: map<Task, Trying>)

  datatype Step =
    | WritePayload(handle: Handle, offset: nat, data: seq<byte>, ctime: nat, mtime: nat)
    | TruncatePayload(handle: Handle, size: nat, ctime: nat, mtime: nat)
    | SealStart(task: Task, handle: Handle)
    | SealStat(task: Task)
    | SealRead(task: Task, n: nat)
    | SealEnd(task: Task, now: nat)
    | TryStart(task: Task, wanted: Option<int>)
    | TryStat(task: Task)
    | TryRead(task: Task, n: nat)
    | TryEnd(task: Task)
    | Change(op: Op)
    | Remove(ctime: nat)
    | Restart

  const CHUNK: nat := 0x10_0000

  // What read() may return: a chunk that is short only when the file is.
  predicate Readable(content: seq<byte>, size: nat, offset: nat, n: nat) {
    && n <= CHUNK && offset + n <= size && offset + n <= |content|
    && (n == 0 ==> |content| <= offset)
  }

  function Patched(content: seq<byte>, offset: nat, data: seq<byte>): seq<byte> {
    if data == [] then content
    else
      var padded := content + if |content| < offset then seq(offset - |content|, _ => 0) else [];
      padded[..offset] + data + if offset + |data| < |padded| then padded[offset + |data|..] else []
  }

  function Resized(content: seq<byte>, size: nat): seq<byte> {
    if size <= |content| then content[..size] else content + seq(size - |content|, _ => 0)
  }

  // Bytes in the written range are the new ones, others the old ones, and a gap
  // in between is zeros.
  lemma PatchedBytes(content: seq<byte>, offset: nat, data: seq<byte>)
    requires data != []
    ensures var after := Patched(content, offset, data);
            && |after| == (if |content| < offset + |data| then offset + |data| else |content|)
            && forall i | 0 <= i < |after| ::
                 after[i] == if offset <= i < offset + |data| then data[i - offset]
                             else if i < |content| then content[i] else 0
  {
  }

  lemma ResizedBytes(content: seq<byte>, size: nat)
    ensures |Resized(content, size)| == size
    ensures forall i | 0 <= i < size :: Resized(content, size)[i] == if i < |content| then content[i] else 0
  {
  }

  predicate DraftOf(s: State, handle: Handle) {
    s.manifest.Some? && Draft(s.manifest.value, handle.revision, handle.name)
  }

  // The payload still answers to the sealed fields of a manifest.
  predicate AsSealed(m: Manifest, p: Payload) {
    && m.size == Some(|p.content|) && m.sha1 == Some(Sha1(p.content))
    && m.created == Some(p.ctime) && m.modified == Some(p.mtime)
  }

  // These calls have steps of their own.
  predicate Apart(op: Op) {
    op.OpSeal? || op.OpAttempt? || op.OpAdmit? || op.OpRefusePayload? || op.OpInterrupt?
  }

  predicate Enabled(s: State, step: Step) {
    match step
    case WritePayload(handle, _, _, ctime, _) => DraftOf(s, handle) && ctime > s.payload.ctime
    case TruncatePayload(handle, _, ctime, _) => DraftOf(s, handle) && ctime > s.payload.ctime
    case SealStart(task, handle) => DraftOf(s, handle) && task !in s.seals
    case SealStat(task) => task in s.seals && s.seals[task].info == None
    case SealRead(task, n) =>
      && task in s.seals && s.seals[task].info.Some?
      && |s.seals[task].read| < |s.seals[task].info.value.content|
      && Readable(s.payload.content, |s.seals[task].info.value.content|, |s.seals[task].read|, n)
    case SealEnd(task, _) =>
      task in s.seals && s.seals[task].info.Some? && |s.seals[task].read| == |s.seals[task].info.value.content|
    case TryStart(task, wanted) => s.manifest.Some? && task !in s.tries
    case TryStat(task) => task in s.tries && s.tries[task].size == None && !s.tries[task].broken
    case TryRead(task, n) =>
      && task in s.tries && s.tries[task].size.Some? && !s.tries[task].broken
      && |s.tries[task].read| < s.tries[task].size.value
      && Readable(s.payload.content, s.tries[task].size.value, |s.tries[task].read|, n)
    case TryEnd(task) =>
      task in s.tries &&
      (s.tries[task].broken || (s.tries[task].size.Some? && |s.tries[task].read| == s.tries[task].size.value))
    case Change(op) => s.manifest.Some? && !Apart(op)
    case Remove(ctime) => s.manifest.Some? && Removable(s.manifest.value) && ctime > s.payload.ctime
    case Restart => true
  }

  // What the step's locked section answers; Kept where it has none.
  function Answer(s: State, step: Step): Reply
    requires Enabled(s, step)
  {
    match step
    case SealEnd(task, now) =>
      var seal := s.seals[task];
      var info := seal.info.value;
      if !DraftOf(s, seal.handle) || s.manifest.value != seal.manifest then Refused
      else if |s.payload.content| != |info.content| || s.payload.ctime != info.ctime || s.payload.mtime != info.mtime
      then Refused
      else Seal(seal.manifest, Sha1(seal.read), |info.content|, info.ctime, info.mtime, now)
    case TryStart(_, wanted) => Attempt(s.manifest.value, wanted)
    case TryEnd(task) =>
      if s.manifest == None then Refused
      else if Verified(s.tries[task]) then Admit(s.manifest.value, s.tries[task].provisional)
      else RefusePayload(s.manifest.value, s.tries[task].provisional)
    case Change(op) => Call(s.manifest.value, op)
    case Restart => if s.manifest.Some? && s.manifest.value.state == Writing then Interrupt(s.manifest.value) else Kept
    case _ => Kept
  }

  predicate Verified(t: Trying) {
    !t.broken && t.provisional.sha1 == Some(Sha1(t.read))
  }

  function Apply(s: State, step: Step): State
    requires Enabled(s, step)
  {
    var answer := Answer(s, step);
    var written := if answer.Written? then Some(answer.manifest) else s.manifest;
    match step
    case WritePayload(_, offset, data, ctime, mtime) =>
      if data == [] then s else s.(payload := Payload(Patched(s.payload.content, offset, data), ctime, mtime))
    case TruncatePayload(_, size, ctime, mtime) =>
      s.(payload := Payload(Resized(s.payload.content, size), ctime, mtime))
    case SealStart(task, handle) => s.(seals := s.seals[task := Sealing(handle, s.manifest.value, None, [])])
    case SealStat(task) => s.(seals := s.seals[task := s.seals[task].(info := Some(s.payload))])
    case SealRead(task, n) =>
      var seal := s.seals[task];
      if n == 0 then s.(seals := s.seals - {task})
      else s.(seals := s.seals[task := seal.(read := seal.read + s.payload.content[|seal.read|..|seal.read| + n])])
    case SealEnd(task, _) => s.(manifest := written, seals := s.seals - {task})
    case TryStart(task, _) =>
      if answer.Written?
      then s.(manifest := written, tries := s.tries[task := Trying(answer.manifest, None, [], false)])
      else s
    case TryStat(task) =>
      var try := s.tries[task];
      var same :=
        && try.provisional.size == Some(|s.payload.content|) && try.provisional.sha1.Some?
        && try.provisional.created == Some(s.payload.ctime) && try.provisional.modified == Some(s.payload.mtime);
      s.(tries := s.tries[task := try.(size := Some(|s.payload.content|), broken := !same)])
    case TryRead(task, n) =>
      var try := s.tries[task];
      s.(tries := s.tries[task := try.(read := try.read + s.payload.content[|try.read|..|try.read| + n],
                                         broken := n == 0)])
    case TryEnd(task) => s.(manifest := written, tries := s.tries - {task})
    case Change(_) => s.(manifest := written)
    case Remove(ctime) => s.(manifest := None, payload := s.payload.(ctime := ctime))
    case Restart => s.(manifest := written, seals := map[], tries := map[])
  }

  // -------------------------------------------------------------- invariant

  predicate SameSeal(m: Manifest, n: Manifest) {
    && m.size == n.size && m.sha1 == n.sha1 && m.created == n.created && m.modified == n.modified
    && m.sealedAt == n.sealedAt
  }

  predicate ManifestOk(s: State) {
    s.manifest.Some? ==>
      Inv(s.manifest.value) && (AllSealed(s.manifest.value) ==> AsSealed(s.manifest.value, s.payload))
  }

  // If the change time is what it was then so is everything else.
  predicate SealOk(s: State, seal: Sealing) {
    && seal.manifest.state == Writing && Inv(seal.manifest)
    && match seal.info
       case None => seal.read == []
       case Some(info) =>
         && info.ctime <= s.payload.ctime && |seal.read| <= |info.content|
         && (info.ctime == s.payload.ctime ==> info.content == s.payload.content && seal.read <= info.content)
  }

  // As long as the job is there, the payload is what the attempt expects.
  predicate TryOk(s: State, try: Trying) {
    && try.provisional.state == Attempting && AllSealed(try.provisional) && Inv(try.provisional)
    && try.provisional.sha1 == Some(Sha1(s.payload.content))
    && (s.manifest.Some? ==> SameSeal(s.manifest.value, try.provisional) && !try.broken)
    && match try.size
       case None => try.read == []
       case Some(size) => size == |s.payload.content| && try.read <= s.payload.content
  }

  predicate SystemInv(s: State) {
    && ManifestOk(s)
    && (forall task | task in s.seals :: SealOk(s, s.seals[task]))
    && (forall task | task in s.tries :: TryOk(s, s.tries[task]))
  }

  lemma CallKeepsSeal(m: Manifest, op: Op)
    requires Inv(m) && AllSealed(m) && !op.OpSeal?
    ensures SameSeal(Next(m, op), m) && AllSealed(Next(m, op))
  {
    hide SafeName, ValidSource, Inv;
  }

  lemma UnsealedStays(m: Manifest, op: Op)
    requires Inv(m) && !AllSealed(m) && !op.OpSeal?
    ensures !AllSealed(Next(m, op))
  {
    hide SafeName, ValidSource;
    InvSealsTogether(m);
  }

  // The manifest changes, and the payload does not.
  lemma NewManifest(s: State, n: Manifest)
    requires SystemInv(s) && s.manifest.Some? && Inv(n)
    requires AllSealed(s.manifest.value) ==> SameSeal(n, s.manifest.value)
    requires AllSealed(n) ==> AsSealed(n, s.payload)
    ensures SystemInv(s.(manifest := Some(n)))
  {
    hide Inv;
    var t := s.(manifest := Some(n));
    forall task | task in t.tries ensures TryOk(t, t.tries[task]) {
      assert TryOk(s, s.tries[task]);
    }
    forall task | task in t.seals ensures SealOk(t, t.seals[task]) {
      assert SealOk(s, s.seals[task]);
    }
  }

  lemma ManifestStep(s: State, op: Op)
    requires SystemInv(s) && s.manifest.Some? && !op.OpSeal?
    ensures SystemInv(s.(manifest := Some(Next(s.manifest.value, op))))
  {
    hide Inv, Next, SealOk, TryOk;
    var m := s.manifest.value;
    CallKeepsInv(m, op);
    if AllSealed(m) { CallKeepsSeal(m, op); } else { UnsealedStays(m, op); }
    NewManifest(s, Next(m, op));
  }

  lemma FewerTasks(s: State, t: State)
    requires SystemInv(s) && t == s.(seals := t.seals, tries := t.tries)
    requires forall task | task in t.seals ::
             (task in s.seals && t.seals[task] == s.seals[task]) || SealOk(s, t.seals[task])
    requires forall task | task in t.tries ::
             (task in s.tries && t.tries[task] == s.tries[task]) || TryOk(s, t.tries[task])
    ensures SystemInv(t)
  {
    hide Inv;
    forall task | task in t.tries ensures TryOk(t, t.tries[task]) {
      assert task in s.tries ==> TryOk(s, s.tries[task]);
    }
    forall task | task in t.seals ensures SealOk(t, t.seals[task]) {
      assert task in s.seals ==> SealOk(s, s.seals[task]);
    }
  }

  // Nothing verifies a payload while its draft is being written.
  lemma NoTries(s: State)
    requires SystemInv(s) && s.manifest.Some? && s.manifest.value.state == Writing
    ensures s.tries == map[]
  {
    TriesSeal(s);
    assert s.tries.Keys == {};
  }

  lemma TriesSeal(s: State)
    requires SystemInv(s) && s.manifest.Some?
    ensures forall task | task in s.tries :: s.manifest.value.state != Writing
  {
    hide SafeName, ValidSource;
    forall task | task in s.tries ensures s.manifest.value.state != Writing {
      assert TryOk(s, s.tries[task]);
    }
  }

  lemma WriteStep(s: State, p: Payload)
    requires SystemInv(s) && s.manifest.Some? && s.manifest.value.state == Writing && p.ctime > s.payload.ctime
    ensures SystemInv(s.(payload := p))
  {
    hide SafeName, ValidSource;
    var t := s.(payload := p);
    NoTries(s);
    forall task | task in t.seals ensures SealOk(t, t.seals[task]) {
      assert SealOk(s, s.seals[task]);
    }
  }

  lemma RemoveStep(s: State, ctime: nat)
    requires SystemInv(s) && s.manifest.Some? && ctime > s.payload.ctime
    ensures SystemInv(s.(manifest := None, payload := s.payload.(ctime := ctime)))
  {
    hide Inv;
    var t := s.(manifest := None, payload := s.payload.(ctime := ctime));
    forall task | task in t.tries ensures TryOk(t, t.tries[task]) {
      assert TryOk(s, s.tries[task]);
    }
    forall task | task in t.seals ensures SealOk(t, t.seals[task]) {
      assert SealOk(s, s.seals[task]);
    }
  }

  // seal() records the digest, the size and the times of exactly what the payload
  // holds, and nothing else changes but the state and the revision.
  lemma SealIsExact(s: State, task: Task, now: nat)
    requires SystemInv(s) && Enabled(s, SealEnd(task, now)) && Answer(s, SealEnd(task, now)).Written?
    ensures var n, m, p := Answer(s, SealEnd(task, now)).manifest, s.seals[task].manifest, s.payload;
            && s.manifest == Some(m) && m.state == Writing && Inv(n)
            && n == m.(state := Pending, revision := m.revision + 1,
                       size := Some(|p.content|), sha1 := Some(Sha1(p.content)), created := Some(p.ctime),
                       modified := Some(p.mtime), sealedAt := Some(now), nextAttempt := Some(now))
  {
    hide SafeName, ValidSource;
    assert SealOk(s, s.seals[task]);
    var seal := s.seals[task];
    assert seal.read == seal.info.value.content;
  }

  // It goes through if and only if the draft is as it was when sealing began and
  // the payload has not been touched since its size and times were read.
  lemma SealGoesThroughIff(s: State, task: Task, now: nat)
    requires SystemInv(s) && Enabled(s, SealEnd(task, now))
    ensures var seal := s.seals[task];
            Answer(s, SealEnd(task, now)).Written? <==>
              && s.manifest == Some(seal.manifest) && DraftOf(s, seal.handle)
              && s.payload.ctime == seal.info.value.ctime && s.payload.mtime == seal.info.value.mtime
  {
    hide SafeName, ValidSource;
    assert SealOk(s, s.seals[task]);
  }

  lemma SealEndStep(s: State, task: Task, now: nat)
    requires SystemInv(s) && Enabled(s, SealEnd(task, now))
    ensures SystemInv(Apply(s, SealEnd(task, now)))
  {
    hide Inv, SealOk, TryOk;
    var t := s.(seals := s.seals - {task});
    FewerTasks(s, t);
    var answer := Answer(s, SealEnd(task, now));
    if answer.Written? {
      SealIsExact(s, task, now);
      SealedFromDraft(s, task, now);
      NewManifest(t, answer.manifest);
    }
  }

  lemma SealedFromDraft(s: State, task: Task, now: nat)
    requires SystemInv(s) && Enabled(s, SealEnd(task, now)) && Answer(s, SealEnd(task, now)).Written?
    ensures s.manifest.Some? && !AllSealed(s.manifest.value)
  {
    hide SafeName, ValidSource;
  }

  lemma TryStartStep(s: State, task: Task, wanted: Option<int>)
    requires SystemInv(s) && Enabled(s, TryStart(task, wanted))
    ensures SystemInv(Apply(s, TryStart(task, wanted)))
  {
    hide Inv, Attempt, SealOk, TryOk, ManifestOk;
    var answer := Answer(s, TryStart(task, wanted));
    if answer.Written? {
      var m := s.manifest.value;
      var n := answer.manifest;
      ManifestIsOk(s);
      ProvisionalIsSealed(m, wanted);
      assert Next(m, OpAttempt(wanted)) == n;
      ManifestStep(s, OpAttempt(wanted));
      var t := s.(manifest := Some(n));
      FreshTry(t, n);
      FewerTasks(t, t.(tries := t.tries[task := Trying(n, None, [], false)]));
    }
  }

  lemma ManifestIsOk(s: State)
    requires SystemInv(s) && s.manifest.Some?
    ensures Inv(s.manifest.value)
  {
  }

  lemma FreshTry(s: State, n: Manifest)
    requires SystemInv(s) && s.manifest == Some(n) && n.state == Attempting && AllSealed(n)
    ensures TryOk(s, Trying(n, None, [], false))
  {
  }

  lemma ProvisionalIsSealed(m: Manifest, wanted: Option<int>)
    requires Inv(m) && Attempt(m, wanted).Written?
    ensures var n := Attempt(m, wanted).manifest;
            n.state == Attempting && AllSealed(n) && Inv(n)
  {
    hide SafeName, ValidSource;
  }

  lemma TryEndStep(s: State, task: Task)
    requires SystemInv(s) && Enabled(s, TryEnd(task))
    ensures SystemInv(Apply(s, TryEnd(task)))
  {
    hide Inv, Next, SealOk, TryOk, Admit, RefusePayload;
    var t := s.(tries := s.tries - {task});
    FewerTasks(s, t);
    if s.manifest.Some? {
      var provisional := s.tries[task].provisional;
      var op := if Verified(s.tries[task]) then OpAdmit(provisional) else OpRefusePayload(provisional);
      ManifestStep(t, op);
      NextIsAfter(t.manifest.value, op);
    }
  }

  lemma NextIsAfter(m: Manifest, op: Op)
    ensures Next(m, op) == After(m, Call(m, op))
  {
  }

  lemma ReadSteps(s: State, step: Step)
    requires SystemInv(s) && Enabled(s, step)
    requires step.SealStart? || step.SealStat? || step.SealRead? || step.TryRead?
    ensures SystemInv(Apply(s, step))
  {
    hide Inv, AllSealed, SameSeal, AsSealed;
    var t := Apply(s, step);
    match step {
      case SealStart(task, _) => assert SealOk(s, t.seals[task]);
      case SealStat(task) => assert SealOk(s, s.seals[task]) && SealOk(s, t.seals[task]);
      case SealRead(task, n) =>
        assert SealOk(s, s.seals[task]);
        assert n > 0 ==> SealOk(s, t.seals[task]);
      case TryRead(task, n) => assert TryOk(s, s.tries[task]) && TryOk(s, t.tries[task]);
    }
    FewerTasks(s, t);
  }

  lemma TryStatStep(s: State, task: Task)
    requires SystemInv(s) && Enabled(s, TryStat(task))
    ensures SystemInv(Apply(s, TryStat(task)))
  {
    hide Inv;
    var t := Apply(s, TryStat(task));
    assert TryOk(s, s.tries[task]);
    assert TryOk(s, t.tries[task]);
    FewerTasks(s, t);
  }

  lemma RestartStep(s: State)
    requires SystemInv(s)
    ensures SystemInv(Apply(s, Restart))
  {
    hide Inv, SealOk, TryOk, Interrupt;
    var t := s.(seals := map[], tries := map[]);
    FewerTasks(s, t);
    if s.manifest.Some? && s.manifest.value.state == Writing {
      ManifestStep(t, OpInterrupt);
      assert Next(s.manifest.value, OpInterrupt) == After(s.manifest.value, Interrupt(s.manifest.value));
    }
  }

  lemma StepInv(s: State, step: Step)
    requires SystemInv(s) && Enabled(s, step)
    ensures SystemInv(Apply(s, step))
  {
    hide SystemInv, Inv, SealOk, TryOk, Draft, Patched, Resized, Call;
    match step
    case WritePayload(_, offset, data, ctime, mtime) =>
      DraftIsWriting(s, step);
      if data != [] { WriteStep(s, Payload(Patched(s.payload.content, offset, data), ctime, mtime)); }
    case TruncatePayload(_, size, ctime, mtime) =>
      DraftIsWriting(s, step);
      WriteStep(s, Payload(Resized(s.payload.content, size), ctime, mtime));
    case SealEnd(task, now) => SealEndStep(s, task, now);
    case TryStart(task, wanted) => TryStartStep(s, task, wanted);
    case TryEnd(task) => TryEndStep(s, task);
    case Change(op) =>
      ManifestStep(s, op);
      assert Apply(s, step) == s.(manifest := Some(Next(s.manifest.value, op)));
    case Remove(ctime) => RemoveStep(s, ctime);
    case Restart => RestartStep(s);
    case TryStat(task) => TryStatStep(s, task);
    case _ => ReadSteps(s, step);
  }

  lemma DraftIsWriting(s: State, step: Step)
    requires Enabled(s, step) && (step.WritePayload? || step.TruncatePayload?)
    ensures s.manifest.Some? && s.manifest.value.state == Writing
  {
  }

  // ------------------------------------------------------------------- runs

  // A job that was just created.
  predicate Start(s: State) {
    && s.manifest.Some? && SafeName(s.manifest.value.name)
    && s.manifest.value == Fresh(s.manifest.value.owner, s.manifest.value.name)
    && s.payload.content == [] && s.seals == map[] && s.tries == map[]
  }

  predicate Moves(s: State, step: Step, t: State) {
    Enabled(s, step) && t == Apply(s, step)
  }

  predicate Run(states: seq<State>, steps: seq<Step>) {
    && |states| == |steps| + 1
    && forall i {:trigger steps[i]} | 0 <= i < |steps| :: Moves(states[i], steps[i], states[i + 1])
  }

  lemma {:induction false} RunInv(states: seq<State>, steps: seq<Step>, i: nat)
    requires Run(states, steps) && Start(states[0]) && i < |states|
    ensures SystemInv(states[i])
  {
    hide SystemInv, Enabled, Apply, Start;
    if i == 0 {
      StartInv(states[0]);
    } else {
      RunInv(states, steps, i - 1);
      StepInv(states[i - 1], steps[i - 1]);
    }
  }

  lemma StartInv(s: State)
    requires Start(s)
    ensures SystemInv(s)
  {
    BeginInv(s.manifest.value.owner, s.manifest.value.name);
    hide SafeName, Inv;
  }

  // Every manifest that queue operations and restarts can write satisfies the
  // invariant, and a sealed one describes the payload that is there.
  lemma ReachableManifestsAreSound(states: seq<State>, steps: seq<Step>, i: nat)
    requires Run(states, steps) && Start(states[0]) && i < |states| && states[i].manifest.Some?
    ensures var m := states[i].manifest.value;
            Inv(m) && (m.sha1.Some? ==> AllSealed(m) && AsSealed(m, states[i].payload))
  {
    RunInv(states, steps, i);
    hide Run, Start, Inv, SealOk, TryOk;
    InvSealsTogether(states[i].manifest.value);
  }

  predicate Closed(s: State) {
    s.manifest.Some? ==> s.manifest.value.state != Writing
  }

  lemma ClosedStep(s: State, step: Step)
    requires Enabled(s, step) && Closed(s)
    ensures Closed(Apply(s, step)) && Apply(s, step).payload.content == s.payload.content
  {
    hide Inv, Valid, Patched, Resized;
    if s.manifest.Some? && step.Change? { NeverWritingAgain(s.manifest.value, step.op); }
  }

  lemma NeverWritingAgain(m: Manifest, op: Op)
    requires m.state != Writing
    ensures Next(m, op).state != Writing
  {
    hide Valid;
  }

  // Once a job is sealed its payload never changes, not by any caller and not
  // by a restart, and not when the job is removed under a reader.
  lemma {:induction false} SealedPayloadNeverChanges(states: seq<State>, steps: seq<Step>, i: nat, j: nat)
    requires Run(states, steps) && i <= j < |states| && Closed(states[i])
    ensures Closed(states[j]) && states[j].payload.content == states[i].payload.content
  {
    hide Enabled, Apply, Closed;
    if i < j {
      SealedPayloadNeverChanges(states, steps, i, j - 1);
      ClosedStep(states[j - 1], steps[j - 1]);
    }
  }

  // The attempt did not find the payload that its manifest describes.
  predicate Misread(s: State, task: Task) {
    task in s.tries && !Verified(s.tries[task])
  }

  // An attempt's reading of the payload can only go wrong when the job was
  // removed meanwhile, so it never blocks a job for an invalid payload.
  lemma PayloadInvalidIsNeverWritten(states: seq<State>, steps: seq<Step>, i: nat, task: Task)
    requires Run(states, steps) && Start(states[0]) && i < |states| && Enabled(states[i], TryEnd(task))
    ensures Misread(states[i], task) ==> states[i].manifest == None && Answer(states[i], TryEnd(task)) == Refused
  {
    hide Run, Start, Inv, SystemInv, Admit, RefusePayload;
    RunInv(states, steps, i);
    TryReadsThePayload(states[i], task);
  }

  lemma TryReadsThePayload(s: State, task: Task)
    requires SystemInv(s) && Enabled(s, TryEnd(task))
    ensures s.manifest.Some? ==> !Misread(s, task)
  {
    hide Inv;
    assert TryOk(s, s.tries[task]);
    var read, content := s.tries[task].read, s.payload.content;
    assert |read| == |content| && read <= content ==> read == content;
  }

  // ---------------------------------------------------------------- revisions

  // Grows with every manifest that is written.
  function Rank(m: Manifest): int {
    2 * m.revision + if m.operation == Replacement then 1 else 0
  }

  lemma WritingRaisesRank(m: Manifest, op: Op)
    requires Call(m, op).Written?
    ensures Rank(Next(m, op)) > Rank(m) && Next(m, op) != m
  {
    hide Valid;
  }

  lemma RankStep(s: State, step: Step)
    requires Enabled(s, step)
    ensures s.manifest == None ==> Apply(s, step).manifest == None
    ensures s.manifest.Some? && Apply(s, step).manifest.Some? ==>
              var m, n := s.manifest.value, Apply(s, step).manifest.value;
              && (n == m || Rank(n) > Rank(m))
              && (Answer(s, step).Written? ==> n == Answer(s, step).manifest && n != m)
  {
    hide Valid;
    if step.Change? && Answer(s, step).Written? { WritingRaisesRank(s.manifest.value, step.op); }
    hide Call;
  }

  lemma {:induction false} RankRun(states: seq<State>, steps: seq<Step>, i: nat, j: nat)
    requires Run(states, steps) && i <= j < |states| && states[j].manifest.Some?
    ensures states[i].manifest.Some?
    ensures states[j].manifest == states[i].manifest || Rank(states[j].manifest.value) > Rank(states[i].manifest.value)
  {
    hide Enabled, Apply, Answer, Rank;
    if i < j {
      RankStep(states[j - 1], steps[j - 1]);
      RankRun(states, steps, i, j - 1);
    }
  }

  // A call that names the revision it has seen, and succeeds: the worker's
  // open_attempt, a rename over another file, a cancellation, a manual retry.
  predicate Claims(s: State, step: Step, r: int) {
    && Enabled(s, step)
    && (|| (step.TryStart? && step.wanted == Some(r))
        || (step.Change? && step.op.OpMarkReplacement? && step.op.revision == r)
        || (step.Change? && step.op.OpCancel? && step.op.revision == r)
        || (step.Change? && step.op.OpRetry? && step.op.wanted == Some(r)))
    && Answer(s, step).Written?
  }

  // What a claim finds and leaves.
  lemma ClaimMovesOn(s: State, step: Step, r: int)
    requires Claims(s, step, r)
    ensures s.manifest.Some? && s.manifest.value.revision == r && Apply(s, step).manifest.Some?
    ensures s.manifest.value.state == Writing ==> s.manifest.value.operation == Ordinary
    ensures var n := Apply(s, step).manifest.value;
            n.revision > r || (n.revision == r && n.operation == Replacement && n.state == Writing)
  {
    hide Valid;
  }

  // However many calls name a revision, and whatever else goes on, at most one
  // of them succeeds.
  lemma AtMostOneClaim(states: seq<State>, steps: seq<Step>, i: nat, j: nat, r: int)
    requires Run(states, steps) && i < j < |steps|
    requires Claims(states[i], steps[i], r)
    ensures !Claims(states[j], steps[j], r)
  {
    hide Enabled, Answer, Apply, Claims;
    ClaimMovesOn(states[i], steps[i], r);
    if Claims(states[j], steps[j], r) {
      ClaimMovesOn(states[j], steps[j], r);
      RankRun(states, steps, i + 1, j);
    }
  }

  // While an attempt is between its two writes no cancellation, no rename over
  // another file and no manual retry succeeds, whatever revision it names.
  lemma NothingClaimsAnAttempt(s: State, step: Step, r: int)
    requires Claims(s, step, r) && s.manifest.Some? && s.manifest.value.state == Attempting
    ensures step.TryStart?
  {
    hide Valid;
  }

  // If the second write of an attempt succeeds then nothing was written since
  // the first: a manifest never comes back once it was replaced.
  lemma AdmissionIsUndisturbed(states: seq<State>, steps: seq<Step>, i: nat, k: nat, j: nat, task: Task)
    requires Run(states, steps) && i <= k <= j < |steps|
    requires Enabled(states[j], TryEnd(task)) && Answer(states[j], TryEnd(task)).Written?
    requires states[i].manifest == Some(states[j].tries[task].provisional)
    ensures states[k].manifest == states[i].manifest
    ensures k < j ==> Enabled(states[k], steps[k]) && !Answer(states[k], steps[k]).Written?
  {
    hide Enabled, Answer, Apply, Rank, Admit, RefusePayload, Seal;
    AdmissionFindsItsOwn(states[j], task);
    RankRun(states, steps, k, j);
    RankRun(states, steps, i, k);
    if k < j {
      RankRun(states, steps, k + 1, j);
      RankRun(states, steps, i, k + 1);
      StepAt(states, steps, k);
      RankStep(states[k], steps[k]);
    }
  }

  lemma StepAt(states: seq<State>, steps: seq<Step>, i: nat)
    requires Run(states, steps) && i < |steps|
    ensures Enabled(states[i], steps[i]) && states[i + 1] == Apply(states[i], steps[i])
  {
  }

  lemma AdmissionFindsItsOwn(s: State, task: Task)
    requires Enabled(s, TryEnd(task)) && Answer(s, TryEnd(task)).Written?
    ensures s.manifest == Some(s.tries[task].provisional)
  {
  }
}
