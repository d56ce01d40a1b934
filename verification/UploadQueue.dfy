// The upload queue's calls on its jobs: src/immich_on_demand/uploads.py.
//
// Each method runs undisturbed, as it does when nobody else calls the queue;
// UploadRuns has the interleavings, UploadRecovery what happens on the disk.
module UploadQueues {
  import opened Options
  import Names
  import opened Utf8
  import opened Manifests
  import opened UploadRuns

  datatype Job = Job(manifest: Manifest, payload: Payload)

  type Jobs = map<Uuid, Job>

  predicate JobOk(job: Job) {
    Inv(job.manifest) && (AllSealed(job.manifest) ==> AsSealed(job.manifest, job.payload))
  }

  ghost predicate JobsOk(jobs: Jobs) {
    forall id | id in jobs :: JobOk(jobs[id])
  }

  // The table after a call on one job.
  function Updated(jobs: Jobs, id: Uuid, reply: Reply): Jobs {
    if reply.Written? && id in jobs then jobs[id := jobs[id].(manifest := reply.manifest)] else jobs
  }

  lemma CallKeepsJobs(jobs: Jobs, id: Uuid, op: Op)
    requires JobsOk(jobs) && id in jobs && !op.OpSeal?
    ensures JobsOk(Updated(jobs, id, Call(jobs[id].manifest, op)))
  {
    hide Inv;
    var m := jobs[id].manifest;
    CallKeepsInv(m, op);
    if AllSealed(m) { CallKeepsSeal(m, op); } else { UnsealedStays(m, op); }
    hide Call;
  }

  // A draft that is still the one that was handed out. A rename over another file
  // gives the job that file's name and leaves the draft open.
  predicate OpenDraft(jobs: Jobs, id: Uuid, handle: Handle) {
    && id in jobs
    && var m := jobs[id].manifest;
       && m.state == Writing && m.revision == handle.revision
       && (m.name == handle.name || (m.operation == Replacement && m.source.Some? && m.source.value.name == m.name))
  }

  // The table with another manifest for one job.
  function With(jobs: Jobs, id: Uuid, m: Manifest): Jobs
    requires id in jobs
  {
    jobs[id := jobs[id].(manifest := m)]
  }

  // The order in which jobs are served: by the time they were sealed, drafts
  // last, and then by identifier.
  predicate Sooner(jobs: Jobs, a: Uuid, b: Uuid)
    requires a in jobs && b in jobs
  {
    match (jobs[a].manifest.sealedAt, jobs[b].manifest.sealedAt)
    case (Some(s), Some(t)) => s < t || (s == t && a < b)
    case (Some(_), None) => true
    case (None, Some(_)) => false
    case (None, None) => a < b
  }

  predicate Due(m: Manifest, now: int) {
    && (m.state == Pending || m.state == Attempting || m.state == Replacing)
    && (m.nextAttempt.Some? ==> m.nextAttempt.value <= now)
  }

  // -------------------------------------------------------------- validator

  method ValidateText(text: string, limit: nat) returns (ok: bool)
    ensures ok <==>
              && text != "" && Size(text) <= limit
              && forall i | 0 <= i < |text| :: text[i] as int >= 32 && text[i] as int != 127
  {
    if text == "" || Size(text) > limit {
      return false;
    }
    for i := 0 to |text|
      invariant forall k | 0 <= k < i :: text[k] as int >= 32 && text[k] as int != 127
    {
      if text[i] as int < 32 || text[i] as int == 127 {
        return false;
      }
    }
    return true;
  }

  method ValidateAlbums(albums: seq<Uuid>) returns (ok: bool)
    ensures ok <==> forall i, j | 0 <= i < j < |albums| :: albums[i] < albums[j]
  {
    var n := 1;
    while n < |albums|
      invariant 1 <= n && (n <= |albums| || |albums| == 0)
      invariant forall i, j | 0 <= i < j < n && j < |albums| :: albums[i] < albums[j]
    {
      if albums[n - 1] >= albums[n] {
        return false;
      }
      n := n + 1;
    }
    return true;
  }

  method ValidateSource(s: Source, owner: Uuid) returns (ok: bool)
    ensures ok <==> ValidSource(s, owner)
  {
    hide Size;
    var name := ValidateName(s.name);
    if s.inode < 1 || !name || s.owner != owner {
      return false;
    }
    var checksum := ValidateText(s.checksum.text, 1024);
    var updated := ValidateText(s.updatedAt, 128);
    var visibility := ValidateText(s.visibility, 128);
    if !checksum || !updated || s.created < 0 || !visibility {
      return false;
    }
    ok := ValidateAlbums(s.albums);
  }

  method ValidateName(name: string) returns (ok: bool)
    ensures ok <==> SafeName(name)
  {
    SafeNameIsFixedPoint(name);
    hide SafeName, Size, Names.SafeFilename;
    return Names.SafeFilename(name, ZERO_UUID, Names.LIMIT) == name && Size(name) <= 255;
  }

  // The manifest validator, check by check.
  method ValidateManifest(m: Manifest) returns (ok: bool)
    ensures ok <==> Manifests.Valid(m)
  {
    hide SafeName, ValidSource;
    ok := ValidateName(m.name);
    if !ok {
      return false;
    }
    if m.verified && (m.operation != Replacement || m.candidate == None) {
      return false;
    }
    if m.operation == Ordinary {
      if m.source.Some? {
        return false;
      }
    } else {
      if m.source == None {
        return false;
      }
      var source := ValidateSource(m.source.value, m.owner);
      if !source {
        return false;
      }
    }
    if m.state == Replacing && m.operation != Replacement {
      return false;
    }
    if m.revision < 1 {
      return false;
    }
    var values := [m.size, m.created, m.modified, m.sealedAt, m.nextAttempt];
    for i := 0 to 5
      invariant forall k | 0 <= k < i :: values[k].Some? ==> values[k].value >= 0
    {
      if values[i].Some? && values[i].value < 0 {
        return false;
      }
    }
    assert values[0] == m.size && values[1] == m.created && values[2] == m.modified && values[3] == m.sealedAt
      && values[4] == m.nextAttempt;
    if m.attempts < 0 {
      return false;
    }
    ok := ValidateState(m);
  }

  method ValidateState(m: Manifest) returns (ok: bool)
    ensures ok <==> ValidState(m)
  {
    var none := m.size == None && m.sha1 == None && m.created == None && m.modified == None && m.sealedAt == None;
    var all := m.size.Some? && m.sha1.Some? && m.created.Some? && m.modified.Some? && m.sealedAt.Some?;
    if m.state == Writing {
      return !(!none || m.attempts != 0 || m.nextAttempt.Some? || m.error.Some? || m.candidate.Some? || m.verified);
    } else if m.state == Pending {
      return !(!all || m.nextAttempt == None || m.candidate.Some? || m.verified);
    } else if m.state == Attempting {
      return !(!all || (m.candidate.Some? && m.attempts < 1) || m.verified);
    } else if m.state == Replacing {
      return !(!all || m.attempts < 1 || m.candidate == None || !m.verified);
    } else if m.state == Committed {
      return !(!all || m.attempts < 1 || m.nextAttempt.Some? || m.error.Some? || m.candidate == None
               || (m.operation == Replacement && !m.verified));
    } else if m.state == Blocked {
      return !(m.error == None || m.nextAttempt.Some? || !(none || all)
               || (none && (m.attempts != 0 || m.candidate.Some?)));
    } else {
      return !(m.error.Some? || m.nextAttempt.Some? || m.candidate.Some? || m.verified || !(none || all));
    }
  }

  // A job that is waiting, or was being worked on, and whose time has come.
  predicate IsDue(m: Manifest, now: int) {
    m.state !in {Writing, Committed, Blocked, Cancelled} && (m.nextAttempt == None || m.nextAttempt.value <= now)
  }

  // Sealed earlier, or at the same time or both not at all with a lesser
  // identifier, or sealed while the other is not.
  predicate IsSooner(sealed: Option<int>, id: Uuid, otherSealed: Option<int>, other: Uuid) {
    if sealed == otherSealed then id < other
    else sealed.Some? && (otherSealed.Some? ==> sealed.value < otherSealed.value)
  }

  class UploadQueue {
    var jobs: Jobs

    ghost predicate Valid()
      reads this
    {
      JobsOk(jobs)
    }

    constructor ()
      ensures Valid() && jobs == map[]
    {
      jobs := map[];
    }

    method WriteManifest(id: Uuid, m: Manifest) returns (reply: Reply)
      requires id in jobs
      modifies this`jobs
      ensures reply == Write(m) && jobs == Updated(old(jobs), id, reply)
    {
      var valid := ValidateManifest(m);
      hide Manifests.Valid;
      if !valid {
        return Invalid;
      }
      jobs := jobs[id := jobs[id].(manifest := m)];
      return Written(m);
    }

    // The job's identifier is new.
    method Begin(id: Uuid, owner: Uuid, name: string, ctime: nat) returns (reply: Reply)
      requires Valid() && id !in jobs
      modifies this`jobs
      ensures Valid() && reply == Manifests.Begin(owner, name) && (reply.Written? <==> SafeName(name))
      ensures reply.Written? ==>
                && reply.manifest == Manifest(owner, name, Writing, 1, None, None, None, None, None, 0, None, None,
                   None,
                                              false, Ordinary, None)
                && jobs == old(jobs)[id := Job(reply.manifest, Payload([], ctime, ctime))]
      ensures !reply.Written? ==> jobs == old(jobs)
    {
      hide SafeName;
      if !SafeName(name) {
        return Invalid;
      }
      BeginInv(owner, name);
      hide Inv;
      jobs := jobs[id := Job(Fresh(owner, name), Payload([], ctime, ctime))];
      return Written(Fresh(owner, name));
    }

    // pwrite() on an open draft: the written bytes are the given ones, all others
    // stay, and a gap is filled with zeros.
    method WriteDraft(id: Uuid, handle: Handle, offset: nat, data: seq<byte>, ctime: nat) returns (done: bool)
      requires Valid()
      modifies this`jobs
      ensures Valid() && done == OpenDraft(old(jobs), id, handle)
      ensures !done || data == [] ==> jobs == old(jobs)
      ensures done && data != [] ==>
                && id in jobs
                && jobs == old(jobs)[id := old(jobs)[id].(payload := Payload(jobs[id].payload.content, ctime, ctime))]
                && var before, after := old(jobs)[id].payload.content, jobs[id].payload.content;
                   && |after| == (if |before| < offset + |data| then offset + |data| else |before|)
                   && forall i | 0 <= i < |after| ::
                        after[i] == if offset <= i < offset + |data| then data[i - offset]
                                    else if i < |before| then before[i] else 0
    {
      hide Inv, Patched;
      if id !in jobs || !Draft(jobs[id].manifest, handle.revision, handle.name) {
        return false;
      }
      DraftsAreOpen(jobs[id]);
      if data != [] {
        var content := Patched(jobs[id].payload.content, offset, data);
        PatchedBytes(jobs[id].payload.content, offset, data);
        jobs := jobs[id := jobs[id].(payload := Payload(content, ctime, ctime))];
      }
      return true;
    }

    // ftruncate() on an open draft.
    method TruncateDraft(id: Uuid, handle: Handle, size: nat, ctime: nat) returns (done: bool)
      requires Valid()
      modifies this`jobs
      ensures Valid() && done == OpenDraft(old(jobs), id, handle)
      ensures !done ==> jobs == old(jobs)
      ensures done ==>
                && id in jobs
                && jobs == old(jobs)[id := old(jobs)[id].(payload := Payload(jobs[id].payload.content, ctime, ctime))]
                && var before, after := old(jobs)[id].payload.content, jobs[id].payload.content;
                   && |after| == size
                   && forall i | 0 <= i < size :: after[i] == if i < |before| then before[i] else 0
    {
      hide Inv, Resized;
      if id !in jobs || !Draft(jobs[id].manifest, handle.revision, handle.name) {
        return false;
      }
      DraftsAreOpen(jobs[id]);
      ResizedBytes(jobs[id].payload.content, size);
      var content := Resized(jobs[id].payload.content, size);
      jobs := jobs[id := jobs[id].(payload := Payload(content, ctime, ctime))];
      return true;
    }

    // The loop that seal() and every check of a sealed payload read with: the
    // digest of the first size bytes, or None when the file ends before them.
    method HashPayload(content: seq<byte>, size: nat) returns (digest: Option<Digest>)
      ensures digest == if size <= |content| then Some(Sha1(content[..size])) else None
    {
      var read: seq<byte> := [];
      while |read| < size
        invariant |read| <= size && read <= content
      {
        var end := if size < |read| + CHUNK then size else |read| + CHUNK;
        var chunk := content[|read|..if end < |content| then end else |content|];
        if chunk == [] {
          return None;
        }
        assert read + chunk == content[..|read| + |chunk|];
        read := read + chunk;
      }
      assert read == content[..size];
      return Some(Sha1(read));
    }

    method Seal(id: Uuid, handle: Handle, now: nat) returns (reply: Reply)
      requires Valid()
      modifies this`jobs
      ensures Valid()
      ensures reply.Written? <==> OpenDraft(old(jobs), id, handle)
      ensures !reply.Written? ==> reply == Refused && jobs == old(jobs)
      ensures reply.Written? ==>
                var m, p := old(jobs)[id].manifest, old(jobs)[id].payload;
                jobs == With(old(jobs), id,
                  m.(state := Pending, revision := m.revision + 1, size := Some(|p.content|),
                     sha1 := Some(Sha1(p.content)), created := Some(p.ctime), modified := Some(p.mtime),
                     sealedAt := Some(now), nextAttempt := Some(now)))
    {
      hide Inv, Manifests.Valid, AllSealed, AsSealed;
      if id !in jobs || !Draft(jobs[id].manifest, handle.revision, handle.name) {
        return Refused;
      }
      var m, info := jobs[id].manifest, jobs[id].payload;
      var digest := HashPayload(info.content, |info.content|);
      assert info.content[..|info.content|] == info.content;
      SealedDraftIsOk(jobs[id], digest.value, now);
      reply := WriteManifest(id, m.(state := Pending, revision := m.revision + 1, size := Some(|info.content|),
                                    sha1 := digest, created := Some(info.ctime), modified := Some(info.mtime),
                                    sealedAt := Some(now), nextAttempt := Some(now)));
    }

    method MarkReplacement(id: Uuid, revision: int, source: Source) returns (reply: Reply)
      requires Valid()
      modifies this`jobs
      ensures Valid() && (!reply.Written? ==> jobs == old(jobs))
      ensures reply == if id in old(jobs) then Manifests.MarkReplacement(old(jobs)[id].manifest, revision, source)
              else Refused
      ensures reply.Written? <==>
                && id in old(jobs) && revision >= 1
                && var m := old(jobs)[id].manifest;
                   && m.revision == revision && m.operation == Ordinary && (m.state == Writing || m.state == Pending)
                   && ValidSource(source, m.owner)
      ensures reply.Written? ==>
                var m := old(jobs)[id].manifest;
                jobs == With(old(jobs), id,
                  m.(revision := if m.state == Writing then m.revision else m.revision + 1, name := source.name,
                     operation := Replacement, source := Some(source)))
    {
      hide Inv, Manifests.Valid;
      if id !in jobs {
        return Refused;
      }
      CallKeepsJobs(jobs, id, OpMarkReplacement(revision, source));
      MarkIsValidIff(jobs[id].manifest, revision, source);
      if revision < 1 {
        return Invalid;
      }
      var m := jobs[id].manifest;
      if m.revision != revision {
        return Refused;
      }
      if m.operation != Ordinary || m.state !in {Writing, Pending} {
        return Refused;
      }
      var next := if m.state == Writing then m.revision else m.revision + 1;
      reply := WriteManifest(id, m.(revision := next, name := source.name, operation := Replacement,
               source := Some(source)));
    }

    // Both halves of an attempt; the payload is read in between.
    method OpenAttempt(id: Uuid, revision: Option<int>) returns (reply: Reply)
      requires Valid()
      modifies this`jobs
      ensures Valid()
      ensures reply.Written? <==>
                && id in old(jobs)
                && var m := old(jobs)[id].manifest;
                   && (revision.Some? ==> m.revision == revision.value) && (m.state == Pending || m.state == Attempting)
      ensures !reply.Written? ==> reply == Refused && jobs == old(jobs)
      ensures reply.Written? ==>
                var m := old(jobs)[id].manifest;
                jobs == With(old(jobs), id,
                  m.(state := Attempting, revision := m.revision + 2, attempts := m.attempts + 1, nextAttempt := None,
                     error := None))
    {
      hide Inv, Manifests.Valid;
      if id !in jobs {
        return Refused;
      }
      var m := jobs[id].manifest;
      GuardedCallsWriteValidManifests(m, OpAttempt(revision));
      if revision.Some? && m.revision != revision.value {
        return Refused;
      }
      if m.state !in {Pending, Attempting} {
        return Refused;
      }
      CallKeepsJobs(jobs, id, OpAttempt(revision));
      AttemptIsSealed(m, revision);
      var provisional := m.(state := Attempting, revision := m.revision + 1, nextAttempt := None, error := None);
      var written := WriteManifest(id, provisional);
      CallKeepsJobs(jobs, id, OpAdmit(provisional));
      GuardedCallsWriteValidManifests(provisional, OpAdmit(provisional));
      var intact := VerifySealedPayload(jobs[id].payload, provisional);
      assert AsSealed(provisional, jobs[id].payload);
      var admitted := provisional.(revision := provisional.revision + 1, attempts := provisional.attempts + 1);
      if !intact {
        // The job would be blocked here for an invalid payload.
        assert false;
      }
      reply := WriteManifest(id, admitted);
    }

    method VerifySealedPayload(payload: Payload, m: Manifest) returns (intact: bool)
      ensures intact <==>
                && m.size == Some(|payload.content|) && m.sha1 == Some(Sha1(payload.content))
                && m.created == Some(payload.ctime) && m.modified == Some(payload.mtime)
    {
      if m.size == None || m.sha1 == None || m.created == None || m.modified == None {
        return false;
      }
      if m.size.value != |payload.content| || m.created.value != payload.ctime || m.modified.value != payload.mtime {
        return false;
      }
      var digest := HashPayload(payload.content, |payload.content|);
      assert payload.content[..|payload.content|] == payload.content;
      return digest.Some? && digest.value == m.sha1.value;
    }

    method RecordCandidate(id: Uuid, candidate: Uuid) returns (reply: Reply)
      requires Valid()
      modifies this`jobs
      ensures Valid() && (!reply.Written? ==> jobs == old(jobs))
      ensures reply == if id in old(jobs) then Manifests.RecordCandidate(old(jobs)[id].manifest, candidate) else Refused
      ensures reply.Written? <==>
                && id in old(jobs)
                && var m := old(jobs)[id].manifest; m.state == Attempting && m.candidate == None && m.attempts >= 1
      ensures reply.Kept? <==>
                && id in old(jobs)
                && var m := old(jobs)[id].manifest; m.state == Attempting && m.candidate == Some(candidate)
      ensures reply.Written? ==>
                var m := old(jobs)[id].manifest;
                jobs == With(old(jobs), id, m.(revision := m.revision + 1, candidate := Some(candidate)))
    {
      hide Inv, Manifests.Valid;
      if id !in jobs {
        return Refused;
      }
      CallKeepsJobs(jobs, id, OpRecordCandidate(candidate));
      var m := jobs[id].manifest;
      if m.state == Attempting && m.candidate == None { CandidateNeedsAdmission(m, candidate); }
      if m.state != Attempting {
        return Refused;
      }
      if m.candidate.Some? {
        return if m.candidate.value == candidate then Kept else Refused;
      }
      reply := WriteManifest(id, m.(revision := m.revision + 1, candidate := Some(candidate)));
    }

    method BeginReplacing(id: Uuid) returns (reply: Reply)
      requires Valid()
      modifies this`jobs
      ensures Valid() && reply != Invalid && (!reply.Written? ==> jobs == old(jobs))
      ensures reply == if id in old(jobs) then Manifests.BeginReplacing(old(jobs)[id].manifest) else Refused
      ensures reply.Kept? <==> id in old(jobs) && old(jobs)[id].manifest.state == Replacing
      ensures reply.Written? <==>
                && id in old(jobs)
                && var m := old(jobs)[id].manifest;
                   m.operation == Replacement && m.state == Attempting && m.candidate.Some?
      ensures reply.Written? ==>
                var m := old(jobs)[id].manifest;
                jobs == With(old(jobs), id,
                  m.(state := Replacing, revision := m.revision + 1, nextAttempt := None, error := None,
                    verified := true))
    {
      hide Inv, Manifests.Valid;
      if id !in jobs {
        return Refused;
      }
      var m := jobs[id].manifest;
      CallKeepsJobs(jobs, id, OpBeginReplacing);
      GuardedCallsWriteValidManifests(m, OpBeginReplacing);
      ReplacingIsReplacement(m);
      if m.operation != Replacement {
        return Refused;
      }
      if m.state == Replacing {
        return Kept;
      }
      if m.state != Attempting || m.candidate == None {
        return Refused;
      }
      reply := WriteManifest(id, m.(state := Replacing, revision := m.revision + 1, nextAttempt := None,
                                    error := None, verified := true));
    }

    method Retry(id: Uuid, at: nat, error: Option<ErrorCode>, revision: Option<nat>) returns (reply: Reply)
      requires Valid()
      modifies this`jobs
      ensures Valid() && reply != Invalid && (!reply.Written? ==> reply == Refused && jobs == old(jobs))
      ensures reply == if id in old(jobs) then Manifests.Retry(old(jobs)[id].manifest, at, error, Wanted(revision))
              else Refused
      ensures reply.Written? <==>
                && id in old(jobs)
                && var m := old(jobs)[id].manifest;
                   && m.state != Writing && m.state != Cancelled && m.sha1.Some?
                   && (revision.Some? ==> m.revision == revision.value && (m.state == Pending || m.state == Blocked))
      ensures reply.Written? ==>
                var m := old(jobs)[id].manifest;
                jobs == With(old(jobs), id,
                  m.(state := if m.verified then Replacing else if m.candidate.Some? then Attempting else Pending,
                     revision := m.revision + 1, nextAttempt := Some(at), error := error))
    {
      hide Inv, Manifests.Valid;
      if id !in jobs {
        return Refused;
      }
      var m := jobs[id].manifest;
      CallKeepsJobs(jobs, id, OpRetry(at, error, Wanted(revision)));
      GuardedCallsWriteValidManifests(m, OpRetry(at, error, Wanted(revision)));
      InvSealsTogether(m);
      if revision.Some? && m.revision != revision.value {
        return Refused;
      }
      if revision.Some? && m.state !in {Pending, Blocked} {
        return Refused;
      }
      if m.state !in {Pending, Attempting, Replacing, Committed, Blocked} {
        return Refused;
      }
      if m.sha1 == None {
        return Refused;
      }
      var state := Pending;
      if m.operation == Replacement && m.verified {
        state := Replacing;
      } else if m.candidate.Some? {
        state := Attempting;
      }
      reply := WriteManifest(id, m.(state := state, revision := m.revision + 1, nextAttempt := Some(at),
               error := error));
    }

    method Block(id: Uuid, error: ErrorCode) returns (reply: Reply)
      requires Valid()
      modifies this`jobs
      ensures Valid() && (!reply.Written? ==> reply == Refused && jobs == old(jobs))
      ensures reply == if id in old(jobs) then Manifests.Block(old(jobs)[id].manifest, error) else Refused
      ensures reply.Written? <==>
                id in old(jobs) && old(jobs)[id].manifest.state != Writing && old(jobs)[id].manifest.state != Cancelled
      ensures reply.Written? ==>
                var m := old(jobs)[id].manifest;
                jobs == With(old(jobs), id,
                  m.(state := Blocked, revision := m.revision + 1, nextAttempt := None, error := Some(error)))
    {
      hide Inv, Manifests.Valid;
      if id !in jobs {
        return Refused;
      }
      var m := jobs[id].manifest;
      CallKeepsJobs(jobs, id, OpBlock(error));
      GuardedCallsWriteValidManifests(m, OpBlock(error));
      if m.state !in {Pending, Attempting, Replacing, Committed, Blocked} {
        return Refused;
      }
      reply := WriteManifest(id, m.(state := Blocked, revision := m.revision + 1, nextAttempt := None,
               error := Some(error)));
    }

    method BlockWriting(id: Uuid, handle: Handle, error: ErrorCode) returns (reply: Reply)
      requires Valid()
      modifies this`jobs
      ensures Valid() && (reply.Written? <==> OpenDraft(old(jobs), id, handle))
      ensures !reply.Written? ==> reply == Refused && jobs == old(jobs)
      ensures reply.Written? ==>
                var m := old(jobs)[id].manifest;
                jobs == With(old(jobs), id, m.(state := Blocked, revision := m.revision + 1, error := Some(error)))
    {
      hide Inv, Manifests.Valid;
      if id !in jobs || !Draft(jobs[id].manifest, handle.revision, handle.name) {
        return Refused;
      }
      var m := jobs[id].manifest;
      CallKeepsJobs(jobs, id, OpBlockWriting(handle.revision, handle.name, error));
      GuardedCallsWriteValidManifests(m, OpBlockWriting(handle.revision, handle.name, error));
      reply := WriteManifest(id, m.(state := Blocked, revision := m.revision + 1, error := Some(error)));
    }

    method Commit(id: Uuid) returns (reply: Reply)
      requires Valid()
      modifies this`jobs
      ensures Valid() && (!reply.Written? ==> reply == Refused && jobs == old(jobs))
      ensures reply == if id in old(jobs) then Manifests.Commit(old(jobs)[id].manifest) else Refused
      ensures reply.Written? <==>
                && id in old(jobs)
                && var m := old(jobs)[id].manifest;
                   && m.candidate.Some?
                   && (m.state == Replacing || (m.state == Attempting && m.operation == Ordinary))
      ensures reply.Written? ==>
                var m := old(jobs)[id].manifest;
                jobs == With(old(jobs), id,
                  m.(state := Committed, revision := m.revision + 1, nextAttempt := None, error := None))
    {
      hide Inv, Manifests.Valid;
      if id !in jobs {
        return Refused;
      }
      var m := jobs[id].manifest;
      CallKeepsJobs(jobs, id, OpCommit);
      GuardedCallsWriteValidManifests(m, OpCommit);
      if m.operation == Replacement && m.state != Replacing {
        return Refused;
      }
      if m.candidate == None || m.state !in {Attempting, Replacing} {
        return Refused;
      }
      reply := WriteManifest(id, m.(state := Committed, revision := m.revision + 1, nextAttempt := None,
               error := None));
    }

    // Only an upload that certainly is not on the server is cancelled.
    method Cancel(id: Uuid, name: string, revision: int) returns (done: bool)
      requires Valid()
      modifies this`jobs
      ensures Valid() && jobs == if done then old(jobs) - {id} else old(jobs)
      ensures done <==> id in old(jobs) && Manifests.Cancel(old(jobs)[id].manifest, name, revision).Written?
      ensures done <==>
                && id in old(jobs)
                && var m := old(jobs)[id].manifest;
                   && m.name == name && m.revision == revision && (m.state == Pending || m.state == Blocked)
                   && m.candidate == None && (m.attempts == 0 || m.error == Some(UploadRejected))
    {
      hide Inv, Manifests.Valid;
      if id !in jobs {
        return false;
      }
      var m := jobs[id].manifest;
      GuardedCallsWriteValidManifests(m, OpCancel(name, revision));
      assert m.attempts >= 0 by { AttemptsAreCounted(m); }
      if m.name != name || m.revision != revision {
        return false;
      }
      if m.state !in {Pending, Blocked} {
        return false;
      }
      var safelyRejected := m.error == Some(UploadRejected);
      if m.candidate.Some? || (m.attempts > 0 && !safelyRejected) {
        return false;
      }
      jobs := jobs - {id};
      return true;
    }

    method Remove(id: Uuid) returns (done: bool)
      requires Valid()
      modifies this`jobs
      ensures Valid() && jobs == if done then old(jobs) - {id} else old(jobs)
      ensures done <==> id in old(jobs) && old(jobs)[id].manifest.state == Committed
    {
      hide Inv;
      if id !in jobs || jobs[id].manifest.state != Committed {
        return false;
      }
      jobs := jobs - {id};
      return true;
    }

    // The first due job in the order of the list.
    method NextDue(now: int) returns (found: Option<Uuid>)
      ensures found.Some? ==> found.value in jobs && IsDue(jobs[found.value].manifest, now)
      ensures forall id | id in jobs && IsDue(jobs[id].manifest, now) ::
                && found.Some?
                && (id == found.value || IsSooner(jobs[found.value].manifest.sealedAt, found.value,
                                                  jobs[id].manifest.sealedAt, id))
    {
      var left := jobs.Keys;
      found := None;
      while left != {}
        invariant left <= jobs.Keys
        invariant found == None ==> forall id | id in jobs && id !in left :: !Due(jobs[id].manifest, now)
        invariant found.Some? ==>
                    && found.value in jobs && found.value !in left && Due(jobs[found.value].manifest, now)
                    && forall id | id in jobs && id !in left && id != found.value && Due(jobs[id].manifest, now) ::
                         Sooner(jobs, found.value, id)
      {
        var id :| id in left;
        left := left - {id};
        if Due(jobs[id].manifest, now) && (found == None || Sooner(jobs, id, found.value)) {
          found := Some(id);
        }
      }
    }
  }

  function Wanted(revision: Option<nat>): Option<int> {
    if revision.Some? then Some(revision.value) else None
  }

  // The source is all that the validator can object to.
  lemma MarkIsValidIff(m: Manifest, revision: int, source: Source)
    requires Inv(m)
    ensures Manifests.MarkReplacement(m, revision, source).Written? <==>
              && revision >= 1 && m.revision == revision && m.operation == Ordinary
              && (m.state == Writing || m.state == Pending) && ValidSource(source, m.owner)
  {
    hide SafeName, SourceText, SortedUnique;
  }

  lemma ReplacingIsReplacement(m: Manifest)
    requires Inv(m)
    ensures m.state == Replacing ==> m.operation == Replacement
  {
    hide SafeName, ValidSource;
  }

  lemma AttemptsAreCounted(m: Manifest)
    requires Inv(m)
    ensures m.attempts >= 0
  {
    hide SafeName, ValidSource;
  }

  lemma DraftsAreOpen(job: Job)
    requires JobOk(job) && job.manifest.state == Writing
    ensures !AllSealed(job.manifest)
  {
    hide SafeName, ValidSource;
  }

  lemma AttemptIsSealed(m: Manifest, revision: Option<int>)
    requires Inv(m) && (m.state == Pending || m.state == Attempting)
    ensures AllSealed(m)
  {
    hide SafeName, ValidSource;
  }

  lemma SealedDraftIsOk(job: Job, digest: Digest, now: nat)
    requires JobOk(job) && job.manifest.state == Writing && digest == Sha1(job.payload.content)
    ensures var p := job.payload;
            var reply := Manifests.Seal(job.manifest, digest, |p.content|, p.ctime, p.mtime, now);
            reply.Written? && JobOk(job.(manifest := reply.manifest))
  {
    hide SafeName, ValidSource;
  }
}
