// Uploading a payload and, for a replacement, putting it in the place of its
// source: _process_upload in src/immich_on_demand/service.py.
//
// A step is what the worker does between two points where a crash, a reply or
// somebody else's call can come in. Replies are arbitrary: whatever the server
// did or did not do, the next input is all that the worker sees of it.
module Saga {
  import opened Options
  import opened Manifests
  import Names

  datatype Remote = Remote(
    id: Uuid,
    owner: Uuid,
    library: Option<Uuid>,
    size: Option<int>,
    checksum: Checksum,
    updatedAt: string,
    created: int,
    localDate: Option<string>,
    favorite: bool,
    visibility: string,
    trashed: bool,
    offline: bool,
    motion: Option<Uuid>)

  // A row of the catalog, with the albums that it is listed in.
  datatype Entry = Entry(inode: int, name: string, asset: Remote, albums: seq<Uuid>)

  type Entries = map<Uuid, Entry>

  // Transient: no reply, or one that says to try again. Malformed: a reply that
  // makes no sense. Rejected: any other error.
  datatype Reply<T> = Ok(value: T) | Transient | Malformed | Rejected

  // Everything that a step may ask for; it looks at what it needs.
  datatype Input = Input(
    originOk: bool,
    mutationOn: bool,
    ownerOk: bool,
    deleteOn: bool,
    asset: Reply<Remote>,
    marker: Reply<Uuid>,
    albums: Reply<seq<Uuid>>,
    upload: Reply<Uuid>,
    ack: Reply<bool>,
    localOk: bool,
    now: nat)

  datatype Event =
    | SawAsset(asset: Remote)
    | SawMarker(id: Uuid, marker: Uuid)
    | SawAlbums(id: Uuid, albums: seq<Uuid>)
    | SentUpload
    | SentCopy(from: Uuid, to: Uuid)
    | SentTrash(id: Uuid)
    | MadeReplacing
    | PublishedLocally(source: Uuid, candidate: Uuid)

  datatype Pc =
    | Idle
    | Begin
    | CheckLocal
    | ReadSource
    | TakeAttempt
    | Admitting
    | Uploading
    | Recording
    | ReadCandidate
    | ReadMarker
    | AddLocally
    | StartReplacing
    | RereadSource
    | ResumedAlbums1
    | ResumedAlbums2
    | SourceAlbums1
    | SourceAlbums2
    | Copying
    | SourceAlbums3
    | SourceAlbums4
    | CandidateAlbums1
    | CandidateAlbums2
    | ConfirmSource
    | Trashing
    | ConfirmTrash
    | RereadCandidate
    | Publishing
    | Showing
    | Pinning
    | Committing
    | Removing
    | Cancelling
    | Blocking(code: ErrorCode)
    | Retrying(code: ErrorCode)

  // The local variables of a run. seen is the source as last read from the
  // server, before and after are album lists, two of each.
  datatype Run = Run(
    job: Manifest,
    source: Option<Entry>,
    asset: Option<Remote>,
    marker: Option<Uuid>,
    uploaded: Option<Uuid>,
    first: Option<Remote>,
    seen: Option<Remote>,
    confirmed: Option<Remote>,
    again: Option<Remote>,
    album1: seq<Uuid>,
    album2: seq<Uuid>,
    album3: seq<Uuid>,
    album4: seq<Uuid>,
    trashError: Option<bool>)   // Some(true) where the trash reply was malformed

  // job is the durable manifest, None once the job is removed. published is the
  // history of publications, added of the rows that were put into the catalog for
  // an ordinary upload, userCancelled of cancellations by the user.
  datatype World = World(
    job: Option<Manifest>,
    entries: Entries,
    nextInode: int,
    pc: Pc,
    run: Run,
    trace: seq<Event>,
    published: seq<(Uuid, Uuid)>,
    added: seq<(Uuid, Entry)>,
    userCancelled: bool)

  // ------------------------------------------------------------- predicates

  predicate Visible(asset: Remote) {
    !asset.trashed && !asset.offline && asset.visibility != "hidden" && asset.size.Some?
  }

  predicate UploadMatches(m: Manifest, me: Uuid, asset: Remote, marker: Uuid) {
    && asset.checksum.digest.Some?
    && marker == me && Visible(asset) && asset.owner == m.owner && asset.library == None && asset.size == m.size
    && m.sha1.Some? && asset.checksum.digest == m.sha1
  }

  predicate SourceMatches(m: Manifest, asset: Remote, allowTrashed: bool)
    requires m.source.Some?
  {
    var s := m.source.value;
    && asset.id == s.asset
    && asset.owner == s.owner && s.owner == m.owner
    && asset.library == s.library && s.library == None
    && asset.motion == None
    && asset.checksum == s.checksum
    && (asset.updatedAt == s.updatedAt || (allowTrashed && asset.trashed))
    && asset.created == s.created && asset.favorite == s.favorite && asset.visibility == s.visibility
    && asset.size.Some? && asset.visibility != "hidden" && !asset.offline
    && (allowTrashed || !asset.trashed)
  }

  predicate CandidateMatches(source: Remote, candidate: Remote) {
    && candidate.created == source.created && candidate.localDate == source.localDate
    && candidate.favorite == source.favorite && candidate.visibility == source.visibility
    && candidate.motion == source.motion
  }

  predicate SameManagedChecksum(m: Manifest, source: Remote) {
    source.checksum.digest.Some? && source.library == None && m.sha1.Some? && source.checksum.digest == m.sha1
  }

  // The catalog shows the candidate in the source's place already.
  predicate AlreadyPublished(m: Manifest, me: Uuid, entries: Entries)
    requires m.source.Some?
  {
    var s := m.source.value;
    && m.state == Replacing && m.verified
    && s.asset in entries && entries[s.asset].inode == s.inode && entries[s.asset].asset.trashed
    && SourceMatches(m, entries[s.asset].asset, true)
    && m.candidate.Some? && m.candidate.value in entries
    && var published := entries[m.candidate.value];
       && published.name == s.name && published.inode != entries[s.asset].inode
       && UploadMatches(m, me, published.asset, me) && CandidateMatches(entries[s.asset].asset, published.asset)
  }

  predicate LocalSourceOk(m: Manifest, entries: Entries)
    requires m.source.Some?
  {
    var s := m.source.value;
    && s.asset in entries && entries[s.asset].inode == s.inode && entries[s.asset].name == s.name && m.name == s.name
    && SourceMatches(m, entries[s.asset].asset, false)
    && entries[s.asset].albums == s.albums
  }

  // ------------------------------------------------------------------ steps

  function Fresh(m: Manifest): Run {
    Run(m, None, None, None, None, None, None, None, None, [], [], [], [], None)
  }

  function Goto(w: World, pc: Pc): World {
    w.(pc := pc)
  }

  function Said(w: World, e: Event): World {
    w.(trace := w.trace + [e])
  }

  // The handlers of the errors that a remote call raises.
  function Fail<T>(w: World, reply: Reply<T>): World {
    match reply
    case Malformed =>
      if w.run.job.candidate == None || w.run.job.state == Replacing then Goto(w, Retrying(AmbiguousResponse))
      else Goto(w, Blocking(CandidateMismatch))
    case Rejected => Goto(w, Blocking(UploadRejected))
    case _ => Goto(w, Retrying(UploadUnavailable))
  }

  // A queue call's errors: a state error ends the run, anything else blocks.
  function QueueError(w: World, reply: Manifests.Reply): World {
    if reply.Refused? then Goto(w, Idle) else Goto(w, Blocking(LocalStateFailed))
  }

  // A call on the durable manifest that the run then goes on with.
  function Stored(w: World, reply: Manifests.Reply, pc: Pc): World
    requires w.job.Some?
  {
    if !reply.Succeeds() then QueueError(w, reply)
    else
      var m := After(w.job.value, reply);
      w.(job := Some(m), run := w.run.(job := m), pc := pc)
  }

  // An asset reply is malformed if it is about another asset.
  function AssetReply(reply: Reply<Remote>, id: Uuid): Reply<Remote> {
    if reply.Ok? && reply.value.id != id then Malformed else reply
  }

  predicate Working(m: Manifest) {
    m.state == Pending || m.state == Attempting || m.state == Replacing
  }

  function TakenNames(entries: Entries): set<string> {
    set id | id in entries :: entries[id].name
  }

  function OthersNames(entries: Entries, source: Uuid): set<string> {
    set id | id in entries && id != source :: entries[id].name
  }

  // What publish_replacement calls the source from then on.
  function Retired(entries: Entries, source: Uuid): Option<string>
    requires source in entries
  {
    Names.RetiredName(entries[source].name, IdText(source), OthersNames(entries, source))
  }

  // What publish_replacement checks that the saga has not, and that the source's
  // name is free for the candidate when the source has its new one.
  predicate Publishable(entries: Entries, source: Uuid, candidate: Remote, retired: string) {
    && candidate.id != source && source in entries && candidate.id !in entries
    && !entries[source].asset.trashed && Visible(entries[source].asset) && Visible(candidate)
    && retired !in TakenNames(entries)
  }

  function Publish(entries: Entries, next: int, source: Uuid, candidate: Remote, retired: string): Entries
    requires source in entries
  {
    var was := entries[source];
    entries[source := was.(name := retired, asset := was.asset.(trashed := true), albums := [])]
           [candidate.id := Entry(next, was.name, candidate, was.albums)]
  }

  predicate Shaped(w: World) {
    && (w.run.job.operation == Replacement ==> w.run.job.source.Some?)
    && match w.pc
       case Idle => true
       case Begin => true
       case CheckLocal => w.run.job.operation == Replacement
       case ReadSource => w.run.job.operation == Replacement && w.run.source.Some?
       case TakeAttempt => true
       case Admitting => true
       case Uploading => true
       case Recording => w.run.uploaded.Some?
       case ReadCandidate => w.run.job.candidate.Some?
       case ReadMarker => w.run.first.Some? && (w.run.job.operation == Replacement ==> w.run.source.Some?)
       case AddLocally => w.run.first.Some?
       case Cancelling => true
       case Committing => true
       case Removing => true
       case Showing => true
       case Pinning => true
       case Blocking(_) => true
       case Retrying(_) => true
       case _ =>
         && w.run.job.operation == Replacement && w.run.source.Some? && w.run.first.Some? && w.run.marker.Some?
         && (w.pc == Publishing ==> w.run.again.Some?)
  }

  function ReadingSource(w: World, in_: Input): Reply<Remote>
    requires w.run.source.Some?
  {
    AssetReply(in_.asset, w.run.source.value.asset.id)
  }

  function Albums(w: World): seq<Uuid> {
    if w.run.job.source.Some? then w.run.job.source.value.albums else []
  }

  function AtBegin(w: World, me: Uuid, in_: Input): World {
    var m := w.run.job;
    if !in_.originOk then Goto(w, Blocking(ProfileMismatch))
    else if !in_.mutationOn then Goto(w, Idle)
    else if !in_.ownerOk then Goto(w, Blocking(ProfileMismatch))
    else if m.operation == Replacement then Goto(w, if in_.deleteOn then CheckLocal else Blocking(UploadRejected))
    else if m.state != Replacing then Goto(w, TakeAttempt)
    else if m.candidate.Some? then Goto(w, ReadCandidate)
    else Goto(w, Blocking(LocalStateFailed))
  }

  function AtCheckLocal(w: World, me: Uuid, in_: Input): World
    requires w.run.job.source.Some?
  {
    var m := w.run.job;
    if AlreadyPublished(m, me, w.entries) then Goto(w, Showing)
    else if LocalSourceOk(m, w.entries) then
      w.(run := w.run.(source := Some(w.entries[m.source.value.asset])), pc := ReadSource)
    else Goto(w, Blocking(CandidateMismatch))
  }

  function AtReadSource(w: World, me: Uuid, in_: Input): World
    requires w.run.job.source.Some? && w.run.source.Some?
  {
    var m := w.run.job;
    var reply := ReadingSource(w, in_);
    if !reply.Ok? then Fail(w, reply)
    else
      var v := Said(w, SawAsset(reply.value));
      if !SourceMatches(m, reply.value, m.state == Replacing && m.verified) then Goto(v, Blocking(CandidateMismatch))
      else if m.state == Pending && m.candidate == None && m.attempts == 0
              && SameManagedChecksum(m, w.run.source.value.asset)
      then Goto(v, Cancelling)
      else if m.state != Replacing then Goto(v, TakeAttempt)
      else if m.candidate.Some? then Goto(v, ReadCandidate)
      else Goto(v, Blocking(LocalStateFailed))
  }

  function AtCancelling(w: World, me: Uuid, in_: Input): World {
    var m := w.run.job;
    if w.job == None then Goto(w, Idle)
    else
      var reply := Cancel(w.job.value, m.name, m.revision);
      if reply.Written? then w.(job := None, pc := Idle) else QueueError(w, reply)
  }

  function AtTakeAttempt(w: World, me: Uuid, in_: Input): World {
    var m := w.run.job;
    if w.job == None then Goto(w, Idle) else Stored(w, Attempt(w.job.value, Some(m.revision)), Admitting)
  }

  function AtAdmitting(w: World, me: Uuid, in_: Input): World {
    var m := w.run.job;
    if w.job == None then Goto(w, Idle)
    else Stored(w, Admit(w.job.value, m), if m.candidate == None then Uploading else ReadCandidate)
  }

  function AtUploading(w: World, me: Uuid, in_: Input): World {
    var v := Said(w, SentUpload);
    if in_.upload.Ok? then v.(run := v.run.(uploaded := Some(in_.upload.value)), pc := Recording)
    else Fail(v, in_.upload)
  }

  function AtRecording(w: World, me: Uuid, in_: Input): World
    requires w.run.uploaded.Some?
  {
    if w.job == None then Goto(w, Idle)
    else Stored(w, RecordCandidate(w.job.value, w.run.uploaded.value), ReadCandidate)
  }

  function AtReadCandidate(w: World, me: Uuid, in_: Input): World
    requires w.run.job.candidate.Some?
  {
    var m := w.run.job;
    var reply := AssetReply(in_.asset, m.candidate.value);
    if !reply.Ok? then Fail(w, reply)
    else Said(w, SawAsset(reply.value)).(run := w.run.(first := Some(reply.value)), pc := ReadMarker)
  }

  function AtReadMarker(w: World, me: Uuid, in_: Input): World
    requires w.run.first.Some? && (w.run.job.operation == Replacement ==> w.run.source.Some?)
  {
    var m := w.run.job;
    if !in_.marker.Ok? then Fail(w, in_.marker)
    else
      var asset := w.run.first.value;
      var v := Said(w, SawMarker(asset.id, in_.marker.value)).(run := w.run.(marker := Some(in_.marker.value)));
      if !UploadMatches(m, me, asset, in_.marker.value) then Goto(v, Blocking(CandidateMismatch))
      else if m.operation == Ordinary then Goto(v, AddLocally)
      else if !CandidateMatches(w.run.source.value.asset, asset) then Goto(v, Blocking(CandidateMismatch))
      else Goto(v, StartReplacing)
  }

  // The row that add_uploaded makes, or changes, for an uploaded asset; none if
  // no name is free.
  function AddedRow(entries: Entries, next: int, requested: string, asset: Remote): Option<Entry> {
    if asset.id in entries then Some(entries[asset.id].(asset := asset))
    else
      var name := Names.AvailableName(requested, IdText(asset.id), TakenNames(entries));
      if name.Some? then Some(Entry(next, name.value, asset, [])) else None
  }

  function AtAddLocally(w: World, me: Uuid, in_: Input): World
    requires w.run.first.Some?
  {
    var asset := w.run.first.value;
    var row := AddedRow(w.entries, w.nextInode, w.run.job.name, asset);
    if in_.localOk && row.Some? then
      w.(entries := w.entries[asset.id := row.value],
         nextInode := if asset.id in w.entries then w.nextInode else w.nextInode + 1,
         added := w.added + [(asset.id, row.value)], pc := Showing)
    else Goto(w, Blocking(LocalStateFailed))
  }

  function AtStartReplacing(w: World, me: Uuid, in_: Input): World {
    if w.job == None then Goto(w, Idle)
    else
      var reply := BeginReplacing(w.job.value);
      if reply.Succeeds() then Said(Stored(w, reply, RereadSource), MadeReplacing) else QueueError(w, reply)
  }

  function AtRereadSource(w: World, me: Uuid, in_: Input): World
    requires w.run.job.source.Some? && w.run.source.Some?
  {
    var m := w.run.job;
    var reply := ReadingSource(w, in_);
    if !reply.Ok? then Fail(w, reply)
    else
      var v := Said(w, SawAsset(reply.value)).(run := w.run.(seen := Some(reply.value)));
      if !SourceMatches(m, reply.value, true) then Goto(v, Blocking(CandidateMismatch))
      else Goto(v, if reply.value.trashed then ResumedAlbums1 else SourceAlbums1)
  }

  function AtCopying(w: World, me: Uuid, in_: Input): World
    requires w.run.source.Some? && w.run.first.Some?
  {
    var v := Said(w, SentCopy(w.run.source.value.asset.id, w.run.first.value.id));
    if in_.ack.Ok? then Goto(v, SourceAlbums3) else Fail(v, in_.ack)
  }

  function AtConfirmSource(w: World, me: Uuid, in_: Input): World
    requires w.run.job.source.Some? && w.run.source.Some?
  {
    var m := w.run.job;
    var reply := ReadingSource(w, in_);
    if !reply.Ok? then Fail(w, reply)
    else
      var v := Said(w, SawAsset(reply.value)).(run := w.run.(confirmed := Some(reply.value)));
      if Stable(w.run.album1, w.run.album2) != Some(Albums(w)) || Stable(w.run.album3, w.run.album4) != Some(Albums(w))
         || !SourceMatches(m, reply.value, false)
      then Goto(v, Blocking(CandidateMismatch))
      else Goto(v, Trashing)
  }

  function AtTrashing(w: World, me: Uuid, in_: Input): World
    requires w.run.source.Some?
  {
    var v := Said(w, SentTrash(w.run.source.value.asset.id));
    if in_.ack.Rejected? then Fail(v, in_.ack)
    else
      v.(run := v.run.(trashError := match in_.ack
                                     case Ok(_) => None
                                     case Malformed => Some(true)
                                     case _ => Some(false)),
         pc := ConfirmTrash)
  }

  function AtConfirmTrash(w: World, me: Uuid, in_: Input): World
    requires w.run.job.source.Some? && w.run.source.Some?
  {
    var m := w.run.job;
    var reply := ReadingSource(w, in_);
    if !reply.Ok? then Fail(w, reply)
    else
      var v := Said(w, SawAsset(reply.value)).(run := w.run.(seen := Some(reply.value)));
      if !SourceMatches(m, reply.value, true) then Goto(v, Blocking(CandidateMismatch))
      else if reply.value.trashed then Goto(v, RereadCandidate)
      else if w.run.trashError == Some(true) then Fail(v, Reply<bool>.Malformed)
      else Fail(v, Reply<bool>.Transient)
  }

  function AtRereadCandidate(w: World, me: Uuid, in_: Input): World
    requires w.run.source.Some? && w.run.first.Some? && w.run.marker.Some?
  {
    var m := w.run.job;
    var reply := AssetReply(in_.asset, w.run.first.value.id);
    if !reply.Ok? then Fail(w, reply)
    else
      var v := Said(w, SawAsset(reply.value)).(run := w.run.(again := Some(reply.value)));
      if UploadMatches(m, me, reply.value, w.run.marker.value)
         && CandidateMatches(w.run.source.value.asset, reply.value)
      then Goto(v, Publishing)
      else Goto(v, Blocking(CandidateMismatch))
  }

  function AtPublishing(w: World, me: Uuid, in_: Input): World
    requires w.run.source.Some? && w.run.again.Some?
  {
    var source, candidate := w.run.source.value.asset.id, w.run.again.value;
    var retired := if source in w.entries then Retired(w.entries, source) else None;
    if in_.localOk && retired.Some? && Publishable(w.entries, source, candidate, retired.value) then
      Said(w, PublishedLocally(source, candidate.id)).(
        entries := Publish(w.entries, w.nextInode, source, candidate, retired.value), nextInode := w.nextInode + 1,
        published := w.published + [(source, candidate.id)], pc := Showing)
    else Goto(w, Blocking(LocalStateFailed))
  }

  function AtShowing(w: World, me: Uuid, in_: Input): World {
    var m := w.run.job;
    if !in_.localOk then Goto(w, Blocking(LocalStateFailed))
    else Goto(w, if m.operation == Replacement then Pinning else Committing)
  }

  function AtPinning(w: World, me: Uuid, in_: Input): World {
    Goto(w, if in_.localOk then Committing else Blocking(LocalStateFailed))
  }

  function AtCommitting(w: World, me: Uuid, in_: Input): World {
    if w.job == None then Goto(w, Idle) else Stored(w, Commit(w.job.value), Removing)
  }

  function AtRemoving(w: World, me: Uuid, in_: Input): World {
    if w.job.Some? && w.job.value.state == Committed && in_.localOk then w.(job := None, pc := Idle) else Goto(w, Idle)
  }

  function AtBlocking(w: World, me: Uuid, in_: Input, code: ErrorCode): World {
    w.(job := if w.job.Some? then Some(After(w.job.value, Block(w.job.value, code))) else None, pc := Idle)
  }

  function AtRetrying(w: World, me: Uuid, in_: Input, code: ErrorCode): World {
    w.(job := if w.job.Some? then Some(After(w.job.value, Retry(w.job.value, in_.now, Some(code), None))) else None,
       pc := Idle)
  }

  predicate Listing(pc: Pc) {
    || pc == ResumedAlbums1 || pc == ResumedAlbums2 || pc == SourceAlbums1 || pc == SourceAlbums2 || pc == SourceAlbums3
    || pc == SourceAlbums4 || pc == CandidateAlbums1 || pc == CandidateAlbums2
  }

  function AtList(w: World, in_: Input): World
    requires Listing(w.pc) && w.run.source.Some? && w.run.first.Some?
  {
    var source, candidate := w.run.source.value.asset.id, w.run.first.value.id;
    match w.pc
    case ResumedAlbums1 => ReadAlbums(w, in_, candidate, 1, ResumedAlbums2)
    case ResumedAlbums2 => CheckAlbums(ReadAlbums(w, in_, candidate, 2, RereadCandidate), RereadCandidate)
    case SourceAlbums1 => ReadAlbums(w, in_, source, 1, SourceAlbums2)
    case SourceAlbums2 => CheckAlbums(ReadAlbums(w, in_, source, 2, Copying), Copying)
    case SourceAlbums3 => ReadAlbums(w, in_, source, 1, SourceAlbums4)
    case SourceAlbums4 => ReadAlbums(w, in_, source, 2, CandidateAlbums1)
    case CandidateAlbums1 => ReadAlbums(w, in_, candidate, 3, CandidateAlbums2)
    case CandidateAlbums2 => ReadAlbums(w, in_, candidate, 4, ConfirmSource)
  }

  function Next(w: World, me: Uuid, in_: Input): World
    requires w.pc != Idle && Shaped(w)
  {
    match w.pc
    case Begin => AtBegin(w, me, in_)
    case CheckLocal => AtCheckLocal(w, me, in_)
    case ReadSource => AtReadSource(w, me, in_)
    case Cancelling => AtCancelling(w, me, in_)
    case TakeAttempt => AtTakeAttempt(w, me, in_)
    case Admitting => AtAdmitting(w, me, in_)
    case Uploading => AtUploading(w, me, in_)
    case Recording => AtRecording(w, me, in_)
    case ReadCandidate => AtReadCandidate(w, me, in_)
    case ReadMarker => AtReadMarker(w, me, in_)
    case AddLocally => AtAddLocally(w, me, in_)
    case StartReplacing => AtStartReplacing(w, me, in_)
    case RereadSource => AtRereadSource(w, me, in_)
    case Copying => AtCopying(w, me, in_)
    case ConfirmSource => AtConfirmSource(w, me, in_)
    case Trashing => AtTrashing(w, me, in_)
    case ConfirmTrash => AtConfirmTrash(w, me, in_)
    case RereadCandidate => AtRereadCandidate(w, me, in_)
    case Publishing => AtPublishing(w, me, in_)
    case Showing => AtShowing(w, me, in_)
    case Pinning => AtPinning(w, me, in_)
    case Committing => AtCommitting(w, me, in_)
    case Removing => AtRemoving(w, me, in_)
    case Blocking(code) => AtBlocking(w, me, in_, code)
    case Retrying(code) => AtRetrying(w, me, in_, code)
    case ResumedAlbums1 => AtList(w, in_)
    case ResumedAlbums2 => AtList(w, in_)
    case SourceAlbums1 => AtList(w, in_)
    case SourceAlbums2 => AtList(w, in_)
    case SourceAlbums3 => AtList(w, in_)
    case SourceAlbums4 => AtList(w, in_)
    case CandidateAlbums1 => AtList(w, in_)
    case CandidateAlbums2 => AtList(w, in_)
  }

  function Stable(first: seq<Uuid>, second: seq<Uuid>): Option<seq<Uuid>> {
    if first == second then Some(first) else None
  }

  // One request for an asset's albums; which says where the list is kept.
  function ReadAlbums(w: World, in_: Input, id: Uuid, which: nat, pc: Pc): World {
    if !in_.albums.Ok? then Fail(w, in_.albums)
    else
      var list := in_.albums.value;
      var run :=
        if which == 1 then w.run.(album1 := list)
        else if which == 2 then w.run.(album2 := list)
        else if which == 3 then w.run.(album3 := list)
        else w.run.(album4 := list);
      Said(w, SawAlbums(id, list)).(run := run, pc := pc)
  }

  // After the second list, if it came.
  function CheckAlbums(w: World, pc: Pc): World {
    if w.pc == pc && Stable(w.run.album1, w.run.album2) != Some(Albums(w)) then Goto(w, Blocking(CandidateMismatch))
    else w
  }

  // ------------------------------------------------------- everybody else

  // A replacement holds the catalog's lock.
  predicate Locked(w: World) {
    w.run.job.operation == Replacement && w.pc != Idle && w.pc != Begin && w.pc != Removing && !w.pc.Blocking?
    && !w.pc.Retrying?
  }

  // What the catalog's other transactions, but for publications, may do to the
  // rows; see Catalog. A refresh adds no row for the candidate of a job that was
  // sealed when it listed the jobs: see Refresh.
  predicate CatalogMoves(entries: Entries, next: int, after: Entries, nextAfter: int) {
    && next <= nextAfter
    && (forall id | id in after && id in entries ::
          after[id].inode == entries[id].inode && after[id].name == entries[id].name)
    && (forall id | id in after && id !in entries :: next <= after[id].inode < nextAfter)
    && CatalogOk(after, nextAfter)
  }

  predicate CatalogOk(entries: Entries, next: int) {
    && (forall id | id in entries :: entries[id].inode < next && entries[id].asset.id == id)
    && forall a, b | a in entries && b in entries && a != b ::
         entries[a].name != entries[b].name && entries[a].inode != entries[b].inode
  }

  // The job has a candidate and a source that is the one it remembers, and the
  // catalog has the candidate under the source's old name.
  predicate InSourcesPlace(m: Manifest, entries: Entries) {
    && m.source.Some? && m.candidate.Some? && m.candidate.value != m.source.value.asset
    && var s, c := m.source.value, m.candidate.value;
       && s.asset in entries && entries[s.asset].inode == s.inode
       && c in entries && entries[c].name == s.name
  }

  // Another job of the queue replaces some asset, which is this job's source or
  // another. It does not put this job's candidate in the source's place: its own
  // candidate is another one, or what it replaces is called otherwise.
  predicate Apart(m: Manifest, entries: Entries, source: Uuid, candidate: Remote, retired: string)
    requires source in entries
  {
    m.source.Some? && m.candidate.Some? ==>
      && (candidate.id == m.candidate.value ==> entries[source].name != m.source.value.name)
      && (source == m.candidate.value ==> retired != m.source.value.name)
  }

  datatype Step =
    | Start                        // the worker takes the job
    | Work(input: Input)
    | Crash                        // and a restart
    | UserCall(op: Op)             // a cancellation, a manual retry, a rename over a file as it was once looked up
    | CatalogChange(entries: Entries, next: int)
    | OtherPublication(source: Uuid, candidate: Remote, retired: string)

  predicate Enabled(w: World, step: Step) {
    match step
    case Start => w.pc == Idle && w.job.Some? && Working(w.job.value)
    case Work(_) => w.pc != Idle
    case Crash => true
    case UserCall(op) =>
      && w.job.Some?
      && (op.OpCancel? || (op.OpRetry? && op.wanted.Some?)
          || (op.OpMarkReplacement? && op.source.inode < w.nextInode))
    case CatalogChange(entries, next) =>
      && !Locked(w) && CatalogMoves(w.entries, w.nextInode, entries, next)
      && (w.job.Some? && InSourcesPlace(w.job.value, entries) ==> w.job.value.candidate.value in w.entries)
    case OtherPublication(source, candidate, retired) =>
      && !Locked(w) && Publishable(w.entries, source, candidate, retired)
      && (w.job.Some? ==> Apart(w.job.value, w.entries, source, candidate, retired))
  }

  function Apply(w: World, me: Uuid, step: Step): World
    requires Enabled(w, step) && Shaped(w)
  {
    match step
    case Start => w.(pc := Begin, run := Fresh(w.job.value), trace := [])
    case Work(in_) => Next(w, me, in_)
    case Crash =>
      w.(pc := Idle,
         job := if w.job.Some? && (w.job.value.state == Committed || w.job.value.state == Cancelled) then None
                else w.job)
    case UserCall(op) =>
      var after := Manifests.Next(w.job.value, op);
      if after.state == Cancelled then w.(job := None, userCancelled := true) else w.(job := Some(after))
    case CatalogChange(entries, next) => w.(entries := entries, nextInode := next)
    case OtherPublication(source, candidate, retired) =>
      w.(entries := Publish(w.entries, w.nextInode, source, candidate, retired), nextInode := w.nextInode + 1)
  }
}
