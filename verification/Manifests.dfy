// The manifest of one upload job and its transitions:
// src/immich_on_demand/uploads.py.
//
// Identifiers are taken to be canonical already. A manifest's four groups of
// nullable fields are kept apart as the source keeps them, so that the
// validator has the same questions to ask.
module Manifests {
  import opened Options
  import Names
  import opened Utf8

  type Uuid = nat

  function Nibble(n: nat, k: nat): nat {
    if k == 0 then n % 16 else Nibble(n / 16, k - 1)
  }

  function HexChar(n: nat, k: nat): (c: char)
    ensures Names.HexDigit(c)
  {
    var digit := Nibble(n, k) % 16;
    if digit < 10 then ('0' as int + digit) as char else ('a' as int + digit - 10) as char
  }

  // An identifier as it is written: 32 hexadecimal digits in five groups.
  function IdText(id: Uuid): (text: string)
    ensures Names.CanonicalId(text)
  {
    seq(36, i requires 0 <= i < 36 => if i == 8 || i == 13 || i == 18 || i == 23 then '-' else HexChar(id, 35 - i))
  }

  // SHA-1, taken to be injective: a digest is as good as the bytes behind it.
  datatype Digest = Sha1(content: seq<byte>)

  datatype State = Writing | Pending | Attempting | Replacing | Committed | Blocked | Cancelled

  datatype ErrorCode =
    | InterruptedWrite
    | LocalWriteFailed
    | UploadUnavailable
    | UploadRejected
    | AmbiguousResponse
    | CandidateMismatch
    | ProfileMismatch
    | PayloadInvalid
    | LocalStateFailed

  datatype Operation = Ordinary | Replacement

  // A checksum as the server writes it, and what base64 makes of it.
  datatype Checksum = Checksum(text: string, digest: Option<Digest>)

  // What a replacement remembers of the asset that it replaces.
  datatype Source = Source(
    asset: Uuid,
    inode: int,
    name: string,
    owner: Uuid,
    library: Option<Uuid>,
    checksum: Checksum,
    updatedAt: string,
    created: int,
    favorite: bool,
    visibility: string,
    albums: seq<Uuid>)

  datatype Manifest = Manifest(
    owner: Uuid,
    name: string,
    state: State,
    revision: int,
    size: Option<int>,
    sha1: Option<Digest>,
    created: Option<int>,
    modified: Option<int>,
    sealedAt: Option<int>,
    attempts: int,
    nextAttempt: Option<int>,
    error: Option<ErrorCode>,
    candidate: Option<Uuid>,
    verified: bool,
    operation: Operation,
    source: Option<Source>)

  // -------------------------------------------------------------- validator

  const ZERO_UUID := "00000000-0000-0000-0000-000000000000"

  predicate SafeName(name: string) {
    Names.Safe(name, Names.LIMIT)
  }

  // What the validator asks for: a name that safe_filename leaves as it is.
  lemma SafeNameIsFixedPoint(name: string)
    ensures SafeName(name) <==> Names.SafeFilename(name, ZERO_UUID, Names.LIMIT) == name && Size(name) <= 255
  {
    ZeroIsCanonical();
    Names.SafeFilenameFixedPoints(name, ZERO_UUID, Names.LIMIT);
    hide Names.SafeFilename;
  }

  lemma ZeroIsCanonical()
    ensures Names.CanonicalId(ZERO_UUID)
  {
  }

  predicate SourceText(text: string, limit: nat) {
    && text != "" && Size(text) <= limit
    && forall i | 0 <= i < |text| :: text[i] as int >= 32 && text[i] as int != 127
  }

  predicate SortedUnique(ids: seq<Uuid>) {
    forall i, j | 0 <= i < j < |ids| :: ids[i] < ids[j]
  }

  predicate ValidSource(s: Source, owner: Uuid) {
    && s.inode >= 1
    && SafeName(s.name)
    && s.owner == owner
    && SourceText(s.checksum.text, 1024)
    && SourceText(s.updatedAt, 128)
    && s.created >= 0
    && SourceText(s.visibility, 128)
    && SortedUnique(s.albums)
  }

  predicate Natural(value: Option<int>) {
    value.Some? ==> value.value >= 0
  }

  predicate AllSealed(m: Manifest) {
    m.size.Some? && m.sha1.Some? && m.created.Some? && m.modified.Some? && m.sealedAt.Some?
  }

  predicate NoneSealed(m: Manifest) {
    m.size.None? && m.sha1.None? && m.created.None? && m.modified.None? && m.sealedAt.None?
  }

  // The checks that do not depend on the state.
  predicate ValidFields(m: Manifest) {
    && SafeName(m.name)
    && (m.verified ==> m.operation == Replacement && m.candidate.Some?)
    && (m.operation == Ordinary ==> m.source == None)
    && (m.operation == Replacement ==> m.source.Some? && ValidSource(m.source.value, m.owner))
    && (m.state == Replacing ==> m.operation == Replacement)
    && m.revision >= 1
    && Natural(m.size) && Natural(m.created) && Natural(m.modified) && Natural(m.sealedAt) && Natural(m.nextAttempt)
    && m.attempts >= 0
  }

  predicate ValidState(m: Manifest) {
    match m.state
    case Writing =>
      NoneSealed(m) && m.attempts == 0 && m.nextAttempt == None && m.error == None && m.candidate == None && !m.verified
    case Pending =>
      AllSealed(m) && m.nextAttempt.Some? && m.candidate == None && !m.verified
    case Attempting =>
      AllSealed(m) && (m.candidate.Some? ==> m.attempts >= 1) && !m.verified
    case Replacing =>
      AllSealed(m) && m.attempts >= 1 && m.candidate.Some? && m.verified
    case Committed =>
      && AllSealed(m) && m.attempts >= 1 && m.nextAttempt == None && m.error == None && m.candidate.Some?
      && (m.operation == Replacement ==> m.verified)
    case Blocked =>
      && m.error.Some? && m.nextAttempt == None
      && (NoneSealed(m) || AllSealed(m))
      && (NoneSealed(m) ==> m.attempts == 0 && m.candidate == None)
    case Cancelled =>
      && m.error == None && m.nextAttempt == None && m.candidate == None && !m.verified
      && (NoneSealed(m) || AllSealed(m))
  }

  predicate Valid(m: Manifest) {
    ValidFields(m) && ValidState(m)
  }

  // What cleanup may take away.
  predicate Removable(m: Manifest) {
    m.state == Cancelled || m.state == Committed
  }

  // ------------------------------------------------------------ transitions

  // Written: the new manifest is on disk. Kept: the call succeeds and writes
  // nothing. Refused: the call does not fit the state. Invalid: the validator
  // rejects what was to be written, and nothing is.
  datatype Reply = Written(manifest: Manifest) | Kept | Refused | Invalid {
    predicate Succeeds() {
      Written? || Kept?
    }
  }

  function Write(m: Manifest): Reply {
    if Valid(m) then Written(m) else Invalid
  }

  function After(m: Manifest, reply: Reply): Manifest {
    if reply.Written? then reply.manifest else m
  }

  function Fresh(owner: Uuid, name: string): Manifest {
    Manifest(owner, name, Writing, 1, None, None, None, None, None, 0, None, None, None, false, Ordinary, None)
  }

  function Begin(owner: Uuid, name: string): Reply {
    if SafeName(name) then Write(Fresh(owner, name)) else Invalid
  }

  // Whether a draft that was handed out for this manifest may still be written.
  predicate Draft(m: Manifest, revision: int, name: string) {
    && m.state == Writing && m.revision == revision
    && (m.name == name || (m.operation == Replacement && m.source.Some? && m.name == m.source.value.name))
  }

  function Seal(m: Manifest, content: Digest, size: int, ctime: int, mtime: int, now: int): Reply {
    Write(m.(state := Pending, revision := m.revision + 1, size := Some(size), sha1 := Some(content),
             created := Some(ctime), modified := Some(mtime), sealedAt := Some(now), nextAttempt := Some(now)))
  }

  function MarkReplacement(m: Manifest, revision: int, source: Source): Reply {
    if revision < 1 then Invalid
    else if m.revision != revision || m.operation != Ordinary || (m.state != Writing && m.state != Pending) then Refused
    else
      Write(m.(revision := if m.state == Writing then m.revision else m.revision + 1,
               name := source.name, operation := Replacement, source := Some(source)))
  }

  function BlockWriting(m: Manifest, revision: int, name: string, error: ErrorCode): Reply {
    if !Draft(m, revision, name) then Refused
    else Write(m.(state := Blocked, revision := m.revision + 1, error := Some(error)))
  }

  // What startup makes of a draft that it finds.
  function Interrupt(m: Manifest): Reply {
    Write(m.(state := Blocked, revision := m.revision + 1, error := Some(InterruptedWrite)))
  }

  // The first half of an attempt; revision is None where any will do.
  function Attempt(m: Manifest, revision: Option<int>): Reply {
    if (revision.Some? && m.revision != revision.value) || (m.state != Pending && m.state != Attempting) then Refused
    else Write(m.(state := Attempting, revision := m.revision + 1, nextAttempt := None, error := None))
  }

  // The second half: the payload was read in between and is as it was sealed.
  function Admit(m: Manifest, provisional: Manifest): Reply {
    if m != provisional then Refused
    else Write(provisional.(revision := provisional.revision + 1, attempts := provisional.attempts + 1))
  }

  // The second half when the payload is not what was sealed, or when the first
  // half's manifest has been replaced.
  function RefusePayload(m: Manifest, provisional: Manifest): Reply {
    if m != provisional then Refused
    else
      Write(provisional.(state := Blocked, revision := provisional.revision + 1,
                         nextAttempt := None, error := Some(PayloadInvalid)))
  }

  function RecordCandidate(m: Manifest, candidate: Uuid): Reply {
    if m.state != Attempting then Refused
    else if m.candidate.Some? then (if m.candidate.value == candidate then Kept else Refused)
    else Write(m.(revision := m.revision + 1, candidate := Some(candidate)))
  }

  function BeginReplacing(m: Manifest): Reply {
    if m.operation != Replacement then Refused
    else if m.state == Replacing then Kept
    else if m.state != Attempting || m.candidate == None then Refused
    else
      Write(m.(state := Replacing, revision := m.revision + 1, nextAttempt := None, error := None, verified := true))
  }

  predicate Settled(m: Manifest) {
    m.state == Pending || m.state == Blocked
  }

  predicate Retryable(m: Manifest, revision: Option<int>) {
    && (revision.Some? ==> m.revision == revision.value && Settled(m))
    && m.state != Writing && m.state != Cancelled
    && m.sha1.Some?
  }

  function Retried(m: Manifest, at: int, error: Option<ErrorCode>): Manifest {
    var state :=
      if m.operation == Replacement && m.verified then Replacing
      else if m.candidate.Some? then Attempting
      else Pending;
    m.(state := state, revision := m.revision + 1, nextAttempt := Some(at), error := error)
  }

  function Retry(m: Manifest, at: int, error: Option<ErrorCode>, revision: Option<int>): Reply {
    if at < 0 || (revision.Some? && revision.value < 0) then Invalid
    else if !Retryable(m, revision) then Refused
    else Write(Retried(m, at, error))
  }

  function Block(m: Manifest, error: ErrorCode): Reply {
    if m.state == Writing || m.state == Cancelled then Refused
    else Write(m.(state := Blocked, revision := m.revision + 1, nextAttempt := None, error := Some(error)))
  }

  function Commit(m: Manifest): Reply {
    if m.operation == Replacement && m.state != Replacing then Refused
    else if m.candidate == None || (m.state != Attempting && m.state != Replacing) then Refused
    else Write(m.(state := Committed, revision := m.revision + 1, nextAttempt := None, error := None))
  }

  // Up to the cleanup, which is part of UploadRecovery.
  function Cancel(m: Manifest, name: string, revision: int): Reply {
    if m.name != name || m.revision != revision then Invalid
    else if !Settled(m) then Refused
    else if m.candidate.Some? || (m.attempts > 0 && m.error != Some(UploadRejected)) then Refused
    else Write(m.(state := Cancelled, revision := m.revision + 1, nextAttempt := None, error := None))
  }

  // ----------------------------------------------------------- operations

  // Every call that can change the manifest of a job that exists.
  datatype Op =
    | OpSeal(content: Digest, size: nat, ctime: nat, mtime: nat, now: nat)
    | OpMarkReplacement(revision: int, source: Source)
    | OpBlockWriting(draftRevision: int, draftName: string, code: ErrorCode)
    | OpInterrupt
    | OpAttempt(wanted: Option<int>)
    | OpAdmit(provisional: Manifest)
    | OpRefusePayload(provisional: Manifest)
    | OpRecordCandidate(candidate: Uuid)
    | OpBeginReplacing
    | OpRetry(at: int, error: Option<ErrorCode>, wanted: Option<int>)
    | OpBlock(code: ErrorCode)
    | OpCommit
    | OpCancel(name: string, revision: int)

  function Call(m: Manifest, op: Op): Reply {
    match op
    case OpSeal(content, size, ctime, mtime, now) =>
      if m.state == Writing then Seal(m, content, size, ctime, mtime, now) else Refused
    case OpMarkReplacement(revision, source) => MarkReplacement(m, revision, source)
    case OpBlockWriting(revision, name, code) => BlockWriting(m, revision, name, code)
    case OpInterrupt => if m.state == Writing then Interrupt(m) else Refused
    case OpAttempt(wanted) => Attempt(m, wanted)
    case OpAdmit(provisional) => Admit(m, provisional)
    case OpRefusePayload(provisional) => RefusePayload(m, provisional)
    case OpRecordCandidate(candidate) => RecordCandidate(m, candidate)
    case OpBeginReplacing => BeginReplacing(m)
    case OpRetry(at, error, wanted) => Retry(m, at, error, wanted)
    case OpBlock(code) => Block(m, code)
    case OpCommit => Commit(m)
    case OpCancel(name, revision) => Cancel(m, name, revision)
  }

  function Next(m: Manifest, op: Op): Manifest {
    After(m, Call(m, op))
  }

  // -------------------------------------------------------------- invariant

  // Stronger than the validator: an upload that has a candidate was attempted,
  // whatever its state. (That the sealed fields come together, and that only a
  // replacement's candidate is verified, the validator asks in every state.)
  predicate Inv(m: Manifest) {
    && Valid(m)
    && (m.candidate.Some? ==> m.attempts >= 1)
  }

  lemma InvSealsTogether(m: Manifest)
    requires Inv(m)
    ensures AllSealed(m) || NoneSealed(m)
    ensures m.state !in {Writing, Blocked, Cancelled} ==> AllSealed(m)
    ensures m.verified ==> m.operation == Replacement && m.candidate.Some? && m.attempts >= 1
    ensures m.candidate.Some? ==> AllSealed(m)
  {
    hide SafeName, ValidSource;
  }

  lemma BeginInv(owner: Uuid, name: string)
    requires SafeName(name)
    ensures Begin(owner, name) == Written(Fresh(owner, name)) && Inv(Fresh(owner, name))
  {
    hide SafeName;
  }

  // No call can break the invariant, whatever its arguments and its moment.
  lemma CallKeepsInv(m: Manifest, op: Op)
    requires Inv(m)
    ensures Inv(Next(m, op))
  {
    hide SafeName, SourceText, SortedUnique;
  }

  // The validator never stands in the way of a call that its guards let
  // through: no job gets stuck on its own manifest.
  lemma GuardedCallsWriteValidManifests(m: Manifest, op: Op)
    requires Inv(m)
    ensures op.OpBeginReplacing? || op.OpBlock? || op.OpCommit? || op.OpAttempt? || op.OpInterrupt?
            || op.OpBlockWriting?
            ==> Call(m, op) != Invalid
    ensures (op.OpAdmit? || op.OpRefusePayload?) && op.provisional.state == Attempting ==> Call(m, op) != Invalid
    ensures op.OpRetry? && op.at >= 0 && (op.wanted.Some? ==> op.wanted.value >= 0) ==> Call(m, op) != Invalid
    ensures op.OpCancel? && op.name == m.name && op.revision == m.revision ==> Call(m, op) != Invalid
    ensures op.OpRecordCandidate? && m.attempts >= 1 ==> Call(m, op) != Invalid
  {
    hide SafeName, ValidSource;
  }

  // For a manifest that only the validator vouches for, retry works exactly
  // when the invariant's extra clause holds.
  lemma RetryNeedsAttempt(m: Manifest, at: nat, error: Option<ErrorCode>, revision: Option<int>)
    requires Valid(m) && Retryable(m, revision) && (revision.Some? ==> revision.value >= 0)
    ensures Retry(m, at, error, revision) == Written(Retried(m, at, error)) <==> Inv(m)
    ensures Retry(m, at, error, revision) == Invalid <==> !Inv(m)
  {
    hide SafeName, ValidSource;
  }

  // A candidate can be recorded exactly when an attempt was admitted; a crash
  // between the two halves of an attempt leaves a job where it cannot.
  lemma CandidateNeedsAdmission(m: Manifest, candidate: Uuid)
    requires Inv(m) && m.state == Attempting && m.candidate == None
    ensures RecordCandidate(m, candidate).Written? <==> m.attempts >= 1
    ensures RecordCandidate(m, candidate) == Invalid <==> m.attempts == 0
  {
    hide SafeName, ValidSource;
  }

  lemma SampleNameIsSafe()
    ensures SafeName("a")
  {
    hide Encode;
    assert "a"[1..] == "" && Size("a") == 1;
  }

  function SealedSample(): Manifest {
    Fresh(0, "a").(state := Pending, revision := 2, size := Some(0), sha1 := Some(Sha1([])), created := Some(0),
                   modified := Some(0), sealedAt := Some(0), nextAttempt := Some(0))
  }

  // The validator accepts a blocked upload that has a candidate and was never
  // attempted. No call leads to it, and retry could not leave it.
  lemma ValidatorAcceptsStuckJob() returns (m: Manifest)
    ensures Valid(m) && m.state == Blocked && m.candidate.Some? && m.attempts == 0 && !Inv(m)
    ensures Retry(m, 0, None, None) == Invalid
    ensures forall before, op | Inv(before) :: Next(before, op) != m
  {
    SampleNameIsSafe();
    hide SafeName;
    m := SealedSample().(state := Blocked, nextAttempt := None, error := Some(UploadUnavailable), candidate := Some(1));
    assert NoneSealed(m) || AllSealed(m);
    RetryNeedsAttempt(m, 0, None, None);
    forall before, op | Inv(before) ensures Next(before, op) != m {
      CallKeepsInv(before, op);
    }
  }

  // What a crash inside an attempt leaves, and what becomes of it.
  lemma CrashedAttemptHasCountZero() returns (m: Manifest, left: Manifest)
    ensures Inv(m) && m.state == Pending && left == Next(m, OpAttempt(None))
    ensures left.state == Attempting && left.attempts == 0 && Inv(left)
    ensures forall candidate :: RecordCandidate(left, candidate) == Invalid
    ensures Next(Next(left, OpAttempt(None)), OpAdmit(Next(left, OpAttempt(None)))).attempts == 1
  {
    SampleNameIsSafe();
    hide SafeName;
    m := SealedSample();
    left := Next(m, OpAttempt(None));
  }
}
