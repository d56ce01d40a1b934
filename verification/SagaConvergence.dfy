// A server that answers truthfully and keeps one asset per checksum, but whose
// replies may get lost: however often that happens and the worker crashes, going
// on brings the job to its end, which the source's name decides.
module SagaConvergence {
  import opened Options
  import opened Manifests
  import opened Saga
  import opened SagaSafety
  import Names

  datatype Stored = Stored(asset: Remote, marker: Uuid, albums: seq<Uuid>)

  // The source with its albums, and what was stored for the job's checksum.
  datatype Server = Server(source: Remote, albums: seq<Uuid>, stored: Option<Stored>)

  // What is up to the server and the clock.
  datatype Choice = Choice(id: Uuid, stamp: string, now: nat)

  // ----------------------------------------------------------------- server

  // What an upload creates: the payload, with the source's metadata.
  function Created(m: Manifest, source: Remote, id: Uuid, stamp: string): Remote {
    Remote(id, m.owner, None, m.size, Checksum(stamp, m.sha1), stamp, source.created, source.localDate, source.favorite,
           source.visibility, false, false, source.motion)
  }

  predicate ReadsSource(pc: Pc) {
    pc == ReadSource || pc == RereadSource || pc == ConfirmSource || pc == ConfirmTrash
  }

  predicate ListsSource(pc: Pc) {
    pc == SourceAlbums1 || pc == SourceAlbums2 || pc == SourceAlbums3 || pc == SourceAlbums4
  }

  // The request that the worker makes next is carried out; an upload of a
  // checksum that is there already answers with the asset that has it.
  function Served(w: World, me: Uuid, srv: Server, c: Choice): Server {
    match w.pc
    case Uploading =>
      if srv.stored.Some? || w.run.source == None then srv
      else srv.(stored := Some(Stored(Created(w.run.job, w.run.source.value.asset, c.id, c.stamp), me, [])))
    case Copying => if srv.stored.Some? then srv.(stored := Some(srv.stored.value.(albums := srv.albums))) else srv
    case Trashing => srv.(source := srv.source.(trashed := true, updatedAt := c.stamp))
    case _ => srv
  }

  function Replies(w: World, srv: Server, c: Choice): Input {
    var asset :=
      if ReadsSource(w.pc) then Ok(srv.source)
      else if srv.stored.Some? then Ok(srv.stored.value.asset)
      else Saga.Reply.Rejected;
    var marker := if srv.stored.Some? then Ok(srv.stored.value.marker) else Saga.Reply.Rejected;
    var albums :=
      if ListsSource(w.pc) then Ok(srv.albums)
      else if srv.stored.Some? then Ok(srv.stored.value.albums)
      else Saga.Reply.Rejected;
    var upload := if srv.stored.Some? then Ok(srv.stored.value.asset.id) else Saga.Reply.Rejected;
    Input(true, true, true, true, asset, marker, albums, upload, Ok(true), true, c.now)
  }

  // One step of the worker, and of the server with it.
  function Go(w: World, me: Uuid, srv: Server, c: Choice): World
    requires Shaped(w) && w.job.Some?
  {
    if w.pc == Idle then w.(pc := Begin, run := Saga.Fresh(w.job.value), trace := [])
    else Saga.Next(w, me, Replies(w, Served(w, me, srv, c), c))
  }

  // A new identifier.
  predicate FreshChoice(w: World, c: Choice) {
    c.id !in w.entries
  }

  // The points at which a run has a request under way.
  predicate Asks(pc: Pc) {
    || ReadsSource(pc) || Listing(pc) || pc == Uploading || pc == ReadCandidate || pc == ReadMarker || pc == Copying
    || pc == Trashing || pc == RereadCandidate
  }

  function NoReply(c: Choice): Input {
    Input(true, true, true, true, Transient, Transient, Transient, Transient, Transient, true, c.now)
  }

  // A step whose reply gets lost, be it after the request was served or before.
  function Lost(w: World, me: Uuid, c: Choice): World
    requires Shaped(w) && Asks(w.pc)
  {
    Saga.Next(w, me, NoReply(c))
  }

  // ------------------------------------------------------------------- fate

  // The name that publish_replacement would give the source is free.
  predicate Renamable(entries: Entries, source: Uuid) {
    && source in entries
    && Retired(entries, source).Some? && Retired(entries, source).value !in TakenNames(entries)
  }

  // The source's name carries the first of its own markers that no other asset
  // is called by, and is too long for a second one.
  predicate MarkedFirst(entries: Entries, source: Uuid)
    requires source in entries
  {
    var name, id, others := entries[source].name, IdText(source), OthersNames(entries, source);
    exists k | 1 <= k <= |others| + 1 ::
      && Names.SelfMarked(name, id, k)
      && forall j | 1 <= j < k :: Names.CollisionName(name, id, Names.LIMIT, j) in others
  }

  // That is the one thing that keeps a source from being renamed.
  lemma RenamableIffUnmarked(entries: Entries, source: Uuid)
    requires source in entries && Names.Safe(entries[source].name, Names.LIMIT)
    requires entries[source].name !in OthersNames(entries, source)
    requires Names.Practical(|OthersNames(entries, source)| + 1)
    ensures Renamable(entries, source) <==> !MarkedFirst(entries, source)
  {
    var name, id, others := entries[source].name, IdText(source), OthersNames(entries, source);
    Names.RetiredNameIsOwnName(name, id, others);
    assert forall other :: other in TakenNames(entries) <==> other in others || other == name by {
      assert forall other | other in others :: other in TakenNames(entries);
    }
    hide Names.SelfMarked, Names.CollisionName, Names.RetiredName, Names.Safe;
  }

  // There are such names: 217 letters and the marker.
  lemma MarkedNamesAreMarkedFirst(entries: Entries, source: Uuid)
    requires source in entries && entries[source].name == Names.MarkedName(IdText(source))
    requires entries[source].name !in OthersNames(entries, source)
    ensures MarkedFirst(entries, source) && !Renamable(entries, source)
  {
    hide Names.MarkedName, Names.SelfMarked, Names.CollisionName, Names.RetiredName, Names.Safe;
    Names.MarkedNameRetiresToItself(IdText(source), OthersNames(entries, source));
    assert entries[source].name in TakenNames(entries);
  }

  // Nothing stands in the way of the publication: the source can be renamed, and
  // what was stored is not in the catalog already.
  predicate Placeable(entries: Entries, srv: Server, source: Uuid) {
    Renamable(entries, source) && (srv.stored.Some? ==> srv.stored.value.asset.id !in entries)
  }

  // Whether the job is going to end well.
  predicate Fate(w: World, srv: Server, origin: Remote) {
    w.published != [] || Placeable(w.entries, srv, origin.id)
  }

  // -------------------------------------------------------------- invariant

  // origin is the source as the catalog knew it when the user replaced it.
  predicate OriginOk(m: Manifest, origin: Remote) {
    && m.operation == Replacement && m.source.Some? && m.sha1.Some? && Natural(m.size) && m.size.Some?
    && SourceMatches(m, origin, false) && !SameManagedChecksum(m, origin) && m.name == m.source.value.name
  }

  predicate ServerOk(m: Manifest, me: Uuid, srv: Server, origin: Remote)
    requires m.source.Some?
  {
    && SourceMatches(m, srv.source, true) && (!srv.source.trashed ==> SourceMatches(m, srv.source, false))
    && srv.albums == m.source.value.albums
    && (srv.stored.Some? ==>
          && UploadMatches(m, me, srv.stored.value.asset, srv.stored.value.marker) && srv.stored.value.marker == me
          && CandidateMatches(origin, srv.stored.value.asset)
          && srv.stored.value.asset.id != m.source.value.asset)
    && (m.candidate.Some? ==> srv.stored.Some? && srv.stored.value.asset.id == m.candidate.value)
    && (srv.source.trashed ==>
          && (m.state == Replacing || m.state == Committed || (m.state == Blocked && m.verified))
          && srv.stored.Some? && srv.stored.value.albums == srv.albums)
  }

  predicate UnpublishedOk(m: Manifest, origin: Remote, entries: Entries)
    requires m.source.Some?
  {
    var s := m.source.value;
    s.asset in entries && entries[s.asset] == Entry(s.inode, s.name, origin, s.albums)
  }

  predicate PublishedOk(m: Manifest, me: Uuid, srv: Server, origin: Remote, entries: Entries,
                        published: seq<(Uuid, Uuid)>)
    requires m.source.Some?
  {
    var s := m.source.value;
    && (m.state == Replacing || m.state == Committed) && m.candidate.Some? && srv.source.trashed
    && published == [(s.asset, m.candidate.value)]
    && s.asset in entries && entries[s.asset].inode == s.inode && entries[s.asset].asset == origin.(trashed := true)
    && m.candidate.value in entries
    && var e := entries[m.candidate.value];
       e.name == s.name && e.inode != s.inode && UploadMatches(m, me, e.asset, me) && CandidateMatches(origin, e.asset)
  }

  // Everything durable, and the server.
  predicate BaseOk(w: World, me: Uuid, srv: Server, origin: Remote) {
    && w.job.Some? && Inv(w.job.value) && OriginOk(w.job.value, origin)
    && var m := w.job.value;
       && (Working(m) || m.state == Committed || m.state == Blocked)
       && m.source.value.inode < w.nextInode
       && ServerOk(m, me, srv, origin)
       && (if w.published == [] then m.state != Committed && UnpublishedOk(m, origin, w.entries)
           else PublishedOk(m, me, srv, origin, w.entries, w.published))
  }

  predicate ListsOk(w: World, n: nat) {
    && (n >= 1 ==> w.run.album1 == Albums(w))
    && (n >= 2 ==> w.run.album2 == Albums(w))
    && (n >= 3 ==> w.run.album3 == Albums(w))
    && (n >= 4 ==> w.run.album4 == Albums(w))
  }

  // What the run has in hand at each of its points.
  predicate RunOk(w: World, srv: Server, origin: Remote)
    requires w.job.Some?
  {
    var m, r := w.job.value, w.run;
    var held :=
      && r.source.Some? && m.source.Some?
      && r.source.value == Entry(m.source.value.inode, m.source.value.name, origin, m.source.value.albums)
      && w.published == [];
    var first :=
      && srv.stored.Some? && r.first == Some(srv.stored.value.asset)
      && m.candidate == Some(srv.stored.value.asset.id);
    var marked := srv.stored.Some? && r.marker == Some(srv.stored.value.marker);
    var copied := srv.stored.Some? && srv.stored.value.albums == srv.albums;
    match w.pc
    case Idle => Working(m)
    case Begin => Working(m)
    case CheckLocal => Working(m)
    case ReadSource => held && Working(m)
    case TakeAttempt => held && (m.state == Pending || m.state == Attempting)
    case Admitting => held && m.state == Attempting
    case Uploading => held && m.state == Attempting && m.candidate == None && m.attempts >= 1
    case Recording =>
      held && m.state == Attempting && m.candidate == None && m.attempts >= 1 && srv.stored.Some?
      && r.uploaded == Some(srv.stored.value.asset.id)
    case ReadCandidate => held && Taken(m) && m.candidate.Some?
    case ReadMarker => held && Taken(m) && first
    case StartReplacing => held && Taken(m) && first && marked
    case RereadSource => held && m.state == Replacing && first && marked
    case SourceAlbums1 => held && m.state == Replacing && first && marked && !srv.source.trashed
    case SourceAlbums2 => held && m.state == Replacing && first && marked && !srv.source.trashed && ListsOk(w, 1)
    case Copying => held && m.state == Replacing && first && marked && !srv.source.trashed
    case SourceAlbums3 => held && m.state == Replacing && first && marked && !srv.source.trashed && copied
    case SourceAlbums4 => held && m.state == Replacing && first && marked && !srv.source.trashed && copied
        && ListsOk(w, 1)
    case CandidateAlbums1 => held && m.state == Replacing && first && marked && !srv.source.trashed && copied
        && ListsOk(w, 2)
    case CandidateAlbums2 => held && m.state == Replacing && first && marked && !srv.source.trashed && copied
        && ListsOk(w, 3)
    case ConfirmSource => held && m.state == Replacing && first && marked && !srv.source.trashed && copied
        && ListsOk(w, 4)
    case Trashing => held && m.state == Replacing && first && marked && copied
    case ConfirmTrash => held && m.state == Replacing && first && marked
    case ResumedAlbums1 => held && m.state == Replacing && first && marked && srv.source.trashed
    case ResumedAlbums2 => held && m.state == Replacing && first && marked && srv.source.trashed && ListsOk(w, 1)
    case RereadCandidate => held && m.state == Replacing && first && marked && srv.source.trashed
    case Publishing => held && m.state == Replacing && first && marked && srv.source.trashed && r.again == r.first
    case Showing => m.state == Replacing && w.published != []
    case Pinning => m.state == Replacing && w.published != []
    case Committing => m.state == Replacing && w.published != []
    case Removing => m.state == Committed && w.published != []
    case Blocking(code) =>
      && code == LocalStateFailed && w.published == [] && m.state == Replacing && srv.source.trashed
      && !Placeable(w.entries, srv, origin.id)
    case Retrying(_) => Working(m) && w.published == []
    case _ => false
  }

  predicate Good(w: World, me: Uuid, srv: Server, origin: Remote) {
    && Shaped(w) && BaseOk(w, me, srv, origin) && RunOk(w, srv, origin)
    && (w.pc != Idle ==> w.run.job == w.job.value)
  }

  // The job is gone, and it was published once.
  predicate Done(w: World, source: Uuid) {
    w.job == None && |w.published| == 1 && w.published[0].0 == source
  }

  // The job is blocked, with the source in the trash and nothing in its place.
  predicate Stuck(w: World, me: Uuid, srv: Server, origin: Remote) {
    && Shaped(w) && w.pc == Idle && BaseOk(w, me, srv, origin)
    && w.job.value.state == Blocked && w.job.value.error == Some(LocalStateFailed) && w.job.value.verified
    && srv.source.trashed && w.published == [] && !Placeable(w.entries, srv, origin.id)
  }

  function Rank(w: World, srv: Server): nat {
    if w.pc == ConfirmTrash && !srv.source.trashed then 42 else PcRank(w.pc)
  }

  function PcRank(pc: Pc): nat {
    match pc
    case Retrying(_) => 41
    case Idle => 40
    case Begin => 39
    case CheckLocal => 38
    case ReadSource => 37
    case TakeAttempt => 36
    case Admitting => 35
    case Uploading => 34
    case Recording => 33
    case ReadCandidate => 32
    case ReadMarker => 31
    case StartReplacing => 30
    case RereadSource => 29
    case SourceAlbums1 => 28
    case SourceAlbums2 => 27
    case Copying => 26
    case SourceAlbums3 => 25
    case SourceAlbums4 => 24
    case CandidateAlbums1 => 23
    case CandidateAlbums2 => 22
    case ConfirmSource => 21
    case Trashing => 20
    case ConfirmTrash => 19
    case ResumedAlbums1 => 18
    case ResumedAlbums2 => 17
    case RereadCandidate => 16
    case Publishing => 15
    case Showing => 14
    case Pinning => 13
    case Committing => 12
    case _ => 11
  }

  // ------------------------------------------------------------------ steps

  // The worker and the server after one more step.
  predicate GoesOn(w: World, me: Uuid, srv: Server, origin: Remote, c: Choice)
    requires Shaped(w) && w.job.Some?
  {
    var v, after := Go(w, me, srv, c), Served(w, me, srv, c);
    Good(v, me, after, origin) && Rank(v, after) < Rank(w, srv) && Fate(v, after, origin) == Fate(w, srv, origin)
  }

  lemma GoodParts(w: World, me: Uuid, srv: Server, origin: Remote)
    requires Good(w, me, srv, origin)
    ensures Shaped(w) && w.job.Some? && w.job.value.source.Some? && w.job.value.operation == Replacement
    ensures BaseOk(w, me, srv, origin) && RunOk(w, srv, origin) && (w.pc != Idle ==> w.run.job == w.job.value)
  {
    hide Inv, Shaped, RunOk, ServerOk, UnpublishedOk, PublishedOk, SourceMatches, Fate, Placeable;
  }

  // Only the run has changed.
  lemma SameBase(w: World, v: World, me: Uuid, srv: Server, origin: Remote)
    requires BaseOk(w, me, srv, origin)
    requires v.job == w.job && v.entries == w.entries && v.nextInode == w.nextInode && v.published == w.published
    ensures BaseOk(v, me, srv, origin) && Fate(v, srv, origin) == Fate(w, srv, origin)
  {
    hide Inv, ServerOk, UnpublishedOk, PublishedOk, OriginOk, Placeable;
  }

  // Only three kinds of request change anything on the server.
  lemma ServedNothing(w: World, me: Uuid, srv: Server, c: Choice)
    requires w.pc != Uploading && w.pc != Copying && w.pc != Trashing
    ensures Served(w, me, srv, c) == srv
  {
  }

  lemma GoStart(w: World, me: Uuid, srv: Server, origin: Remote, c: Choice)
    requires Good(w, me, srv, origin) && Shaped(w) && w.job.Some? && w.pc == Idle
    ensures GoesOn(w, me, srv, origin, c)
  {
    hide Good, BaseOk, Inv, Fate, Placeable;
    GoodParts(w, me, srv, origin);
    var v := Go(w, me, srv, c);
    SameBase(w, v, me, srv, origin);
    Assemble(v, me, srv, origin);
  }

  lemma Assemble(v: World, me: Uuid, srv: Server, origin: Remote)
    requires Shaped(v) && BaseOk(v, me, srv, origin) && v.job.Some? && RunOk(v, srv, origin)
    requires v.pc != Idle ==> v.run.job == v.job.value
    ensures Good(v, me, srv, origin)
  {
    hide Shaped, BaseOk, RunOk;
  }

  lemma GoBegin(w: World, me: Uuid, srv: Server, origin: Remote, c: Choice)
    requires Good(w, me, srv, origin) && Shaped(w) && w.job.Some? && w.pc == Begin
    ensures GoesOn(w, me, srv, origin, c)
  {
    hide Good, BaseOk, Inv, Fate, Placeable;
    GoodParts(w, me, srv, origin);
    var v := Go(w, me, srv, c);
    assert v == Goto(w, CheckLocal);
    SameBase(w, v, me, srv, origin);
    Assemble(v, me, srv, origin);
  }

  // Whether the catalog shows the candidate already is what the history says.
  lemma ShownIffPublished(w: World, me: Uuid, srv: Server, origin: Remote)
    requires BaseOk(w, me, srv, origin) && Working(w.job.value)
    ensures w.job.value.source.Some?
    ensures w.published == [] ==> !AlreadyPublished(w.job.value, me, w.entries) && LocalSourceOk(w.job.value, w.entries)
    ensures w.published != [] ==> AlreadyPublished(w.job.value, me, w.entries) && w.job.value.state == Replacing
  {
    InvShape(w.job.value);
    hide Inv, UploadMatches;
  }

  lemma WorkingHere(w: World, srv: Server, origin: Remote)
    requires w.job.Some? && w.pc == CheckLocal && RunOk(w, srv, origin)
    ensures Working(w.job.value)
  {
  }

  lemma GoCheckShown(w: World, me: Uuid, srv: Server, origin: Remote, c: Choice)
    requires Good(w, me, srv, origin) && Shaped(w) && w.job.Some? && w.pc == CheckLocal && w.published != []
    ensures GoesOn(w, me, srv, origin, c)
  {
    hide AlreadyPublished, BaseOk, CandidateMatches, Good, Inv, ListsOk, LocalSourceOk, Saga.Next, Served,
         SourceMatches, Taken, UploadMatches, Working, Fate, Placeable, AtList, AtRereadSource, AtConfirmSource,
         AtConfirmTrash, AtRetrying, AtBlocking, AtStartReplacing, AtCommitting;
    ServedNothing(w, me, srv, c);
    NextAt(w, me, Replies(w, srv, c));
    GoodParts(w, me, srv, origin);
    WorkingHere(w, srv, origin);
    ShownIffPublished(w, me, srv, origin);
    SourceRow(w, me, srv, origin);
    var v := Go(w, me, srv, c);
    SameBase(w, v, me, srv, origin);
    Assemble(v, me, srv, origin);
  }

  lemma GoCheckUnshown(w: World, me: Uuid, srv: Server, origin: Remote, c: Choice)
    requires Good(w, me, srv, origin) && Shaped(w) && w.job.Some? && w.pc == CheckLocal && w.published == []
    ensures GoesOn(w, me, srv, origin, c)
  {
    hide AlreadyPublished, BaseOk, CandidateMatches, Good, Inv, ListsOk, LocalSourceOk, Saga.Next, Served,
         SourceMatches, Taken, UploadMatches, Working, Fate, Placeable, AtList, AtRereadSource, AtConfirmSource,
         AtConfirmTrash, AtRetrying, AtBlocking, AtStartReplacing, AtCommitting;
    ServedNothing(w, me, srv, c);
    NextAt(w, me, Replies(w, srv, c));
    GoodParts(w, me, srv, origin);
    WorkingHere(w, srv, origin);
    ShownIffPublished(w, me, srv, origin);
    SourceRow(w, me, srv, origin);
    var v := Go(w, me, srv, c);
    SameBase(w, v, me, srv, origin);
    Assemble(v, me, srv, origin);
  }

  lemma GoCheckLocal(w: World, me: Uuid, srv: Server, origin: Remote, c: Choice)
    requires Good(w, me, srv, origin) && Shaped(w) && w.job.Some? && w.pc == CheckLocal
    ensures GoesOn(w, me, srv, origin, c)
  {
    hide *;
    if w.published == [] {
      GoCheckUnshown(w, me, srv, origin, c);
    } else {
      GoCheckShown(w, me, srv, origin, c);
    }
  }

  lemma SourceRow(w: World, me: Uuid, srv: Server, origin: Remote)
    requires BaseOk(w, me, srv, origin)
    ensures w.job.value.source.Some?
    ensures w.published == [] ==>
              var s := w.job.value.source.value;
              s.asset in w.entries && w.entries[s.asset] == Entry(s.inode, s.name, origin, s.albums)
    ensures origin.id == w.job.value.source.value.asset && srv.source.id == origin.id
    ensures !SameManagedChecksum(w.job.value, origin)
    ensures SourceMatches(w.job.value, srv.source, true)
    ensures !srv.source.trashed ==> SourceMatches(w.job.value, srv.source, false)
    ensures srv.source.trashed ==>
              w.job.value.state == Replacing || w.job.value.state == Committed
                || (w.job.value.state == Blocked && w.job.value.verified)
    ensures w.job.value.operation == Replacement && w.job.value.sha1.Some?
    ensures srv.albums == w.job.value.source.value.albums
    ensures srv.stored.Some? ==>
              && UploadMatches(w.job.value, me, srv.stored.value.asset, srv.stored.value.marker)
              && CandidateMatches(origin, srv.stored.value.asset)
    ensures w.job.value.candidate.Some? ==> srv.stored.Some? && srv.stored.value.asset.id == w.job.value.candidate.value
    ensures srv.source.trashed ==> srv.stored.Some? && srv.stored.value.albums == srv.albums
    ensures Inv(w.job.value)
  {
    hide Inv, UploadMatches, CandidateMatches;
  }

  lemma GoReadSource(w: World, me: Uuid, srv: Server, origin: Remote, c: Choice)
    requires Good(w, me, srv, origin) && Shaped(w) && w.job.Some? && w.pc == ReadSource
    ensures GoesOn(w, me, srv, origin, c)
  {
    hide Good, BaseOk, Inv, SourceMatches, SameManagedChecksum, UploadMatches, CandidateMatches, Fate, Placeable;
    GoodParts(w, me, srv, origin);
    SourceRow(w, me, srv, origin);
    InvShape(w.job.value);
    var v := Go(w, me, srv, c);
    if srv.source.trashed { assert w.job.value.state == Replacing; }
    SameBase(w, v, me, srv, origin);
    Assemble(v, me, srv, origin);
  }

  // -------------------------------------------------------------- the upload

  lemma OriginStays(m: Manifest, n: Manifest, origin: Remote)
    requires OriginOk(m, origin) && SameJob(m, n)
    ensures OriginOk(n, origin)
  {
  }

  lemma ServerStays(m: Manifest, n: Manifest, me: Uuid, srv: Server, origin: Remote)
    requires m.source.Some? && ServerOk(m, me, srv, origin) && SameJob(m, n)
    requires n.candidate == m.candidate || (srv.stored.Some? && n.candidate == Some(srv.stored.value.asset.id))
    requires srv.source.trashed ==> n.state == Replacing || n.state == Committed || (n.state == Blocked && n.verified)
    ensures n.source.Some? && ServerOk(n, me, srv, origin)
  {
    SameJobMatches(m, n, me);
    hide UploadMatches, SourceMatches, CandidateMatches;
  }

  lemma UnpublishedStays(m: Manifest, n: Manifest, origin: Remote, entries: Entries)
    requires m.source.Some? && UnpublishedOk(m, origin, entries) && SameJob(m, n)
    ensures UnpublishedOk(n, origin, entries)
  {
  }

  // A queue call that succeeds, before the publication.
  lemma StoredBase(w: World, v: World, me: Uuid, srv: Server, origin: Remote, n: Manifest)
    requires BaseOk(w, me, srv, origin) && w.published == [] && Inv(n) && SameJob(w.job.value, n) && Working(n)
    requires v.job == Some(n) && v.entries == w.entries && v.nextInode == w.nextInode && v.published == []
    requires n.candidate == w.job.value.candidate
             || (srv.stored.Some? && n.candidate == Some(srv.stored.value.asset.id))
    requires srv.source.trashed ==> n.state == Replacing
    ensures BaseOk(v, me, srv, origin) && Fate(v, srv, origin) == Fate(w, srv, origin)
  {
    hide Placeable;
    var m := w.job.value;
    hide Inv, UploadMatches, SourceMatches, CandidateMatches, SameManagedChecksum;
    assert OriginOk(m, origin) && m.source.Some?;
    OriginStays(m, n, origin);
    ServerStays(m, n, me, srv, origin);
    UnpublishedStays(m, n, origin, w.entries);
    hide OriginOk, ServerOk, UnpublishedOk;
  }

  lemma GoTakeAttempt(w: World, me: Uuid, srv: Server, origin: Remote, c: Choice)
    requires Good(w, me, srv, origin) && Shaped(w) && w.job.Some? && w.pc == TakeAttempt
    ensures GoesOn(w, me, srv, origin, c)
  {
    hide Good, BaseOk, Inv, SourceMatches, SameManagedChecksum, UploadMatches, CandidateMatches, Valid, SameJob, Fate,
         Placeable;
    GoodParts(w, me, srv, origin);
    SourceRow(w, me, srv, origin);
    var m := w.job.value;
    GuardedCallsWriteValidManifests(m, OpAttempt(Some(m.revision)));
    AttemptFacts(m, m.revision);
    var v := Go(w, me, srv, c);
    StoredBase(w, v, me, srv, origin, v.run.job);
    SameParts(m, v.run.job);
    Assemble(v, me, srv, origin);
  }

  lemma SameParts(m: Manifest, n: Manifest)
    requires SameJob(m, n)
    ensures n.source == m.source && n.operation == m.operation && (m.candidate.Some? ==> n.candidate == m.candidate)
    ensures n.name == m.name
  {
  }

  lemma GoAdmitting(w: World, me: Uuid, srv: Server, origin: Remote, c: Choice)
    requires Good(w, me, srv, origin) && Shaped(w) && w.job.Some? && w.pc == Admitting
    ensures GoesOn(w, me, srv, origin, c)
  {
    hide Good, BaseOk, Inv, SourceMatches, SameManagedChecksum, UploadMatches, CandidateMatches, Valid, SameJob, Fate,
         Placeable;
    GoodParts(w, me, srv, origin);
    SourceRow(w, me, srv, origin);
    var m := w.job.value;
    GuardedCallsWriteValidManifests(m, OpAdmit(m));
    AdmitFacts(m, m);
    AdmittedOnce(m);
    var v := Go(w, me, srv, c);
    StoredBase(w, v, me, srv, origin, v.run.job);
    SameParts(m, v.run.job);
    Assemble(v, me, srv, origin);
  }

  lemma AdmittedOnce(m: Manifest)
    requires Inv(m) && Admit(m, m).Written?
    ensures Admit(m, m).manifest.attempts >= 1
  {
    hide SafeName, ValidSource;
  }

  lemma CreatedFits(m: Manifest, me: Uuid, origin: Remote, id: Uuid, stamp: string)
    requires OriginOk(m, origin)
    ensures UploadMatches(m, me, Created(m, origin, id, stamp), me)
            && CandidateMatches(origin, Created(m, origin, id, stamp))
    ensures Created(m, origin, id, stamp).id == id
  {
  }

  lemma GoUploading(w: World, me: Uuid, srv: Server, origin: Remote, c: Choice)
    requires Good(w, me, srv, origin) && Shaped(w) && w.job.Some? && w.pc == Uploading && FreshChoice(w, c)
    ensures GoesOn(w, me, srv, origin, c)
  {
    hide Good, BaseOk, Inv, SourceMatches, SameManagedChecksum, UploadMatches, CandidateMatches, Created, Fate,
         Placeable;
    GoodParts(w, me, srv, origin);
    SourceRow(w, me, srv, origin);
    var v, after := Go(w, me, srv, c), Served(w, me, srv, c);
    StoredAfterUpload(w, me, srv, origin, c);
    SameBase(w, v, me, after, origin);
    Assemble(v, me, after, origin);
  }

  lemma StoredAfterUpload(w: World, me: Uuid, srv: Server, origin: Remote, c: Choice)
    requires BaseOk(w, me, srv, origin) && w.pc == Uploading && FreshChoice(w, c) && w.published == []
    requires w.run.source.Some? && w.run.source.value.asset == origin && w.run.job == w.job.value
    requires w.job.value.candidate == None
    ensures BaseOk(w, me, Served(w, me, srv, c), origin) && Served(w, me, srv, c).stored.Some?
    ensures Fate(w, Served(w, me, srv, c), origin) == Fate(w, srv, origin)
  {
    var m := w.job.value;
    hide Inv, UploadMatches, SourceMatches, CandidateMatches, SameManagedChecksum, Created;
    CreatedFits(m, me, origin, c.id, c.stamp);
  }

  lemma GoRecording(w: World, me: Uuid, srv: Server, origin: Remote, c: Choice)
    requires Good(w, me, srv, origin) && Shaped(w) && w.job.Some? && w.pc == Recording
    ensures GoesOn(w, me, srv, origin, c)
  {
    hide Good, BaseOk, Inv, SourceMatches, SameManagedChecksum, UploadMatches, CandidateMatches, Valid, SameJob, Fate,
         Placeable;
    GoodParts(w, me, srv, origin);
    SourceRow(w, me, srv, origin);
    var m, id := w.job.value, w.run.uploaded.value;
    CandidateNeedsAdmission(m, id);
    RecordFacts(m, id);
    var v := Go(w, me, srv, c);
    StoredBase(w, v, me, srv, origin, v.run.job);
    SameParts(m, v.run.job);
    Assemble(v, me, srv, origin);
  }

  // ---------------------------------------------------------- the candidate

  lemma GoReadCandidate(w: World, me: Uuid, srv: Server, origin: Remote, c: Choice)
    requires Good(w, me, srv, origin) && Shaped(w) && w.job.Some?
    requires w.pc == ReadCandidate || w.pc == ReadMarker
    ensures GoesOn(w, me, srv, origin, c)
  {
    hide Good, BaseOk, Inv, SourceMatches, SameManagedChecksum, UploadMatches, CandidateMatches, Fate, Placeable,
         Saga.Next, AtTrashing, AtRereadCandidate, AtPublishing;
    NextOnCandidate(w, me, Replies(w, Served(w, me, srv, c), c));
    GoodParts(w, me, srv, origin);
    SourceRow(w, me, srv, origin);
    var v := Go(w, me, srv, c);
    SameBase(w, v, me, srv, origin);
    Assemble(v, me, srv, origin);
  }

  lemma GoStartReplacing(w: World, me: Uuid, srv: Server, origin: Remote, c: Choice)
    requires Good(w, me, srv, origin) && Shaped(w) && w.job.Some? && w.pc == StartReplacing
    ensures GoesOn(w, me, srv, origin, c)
  {
    hide Go, Served, Rank, Shaped, RunOk, Good, BaseOk, Inv, SourceMatches, SameManagedChecksum, UploadMatches,
         CandidateMatches, Valid, SameJob, Fate, Placeable, BeginReplacing;
    GoodParts(w, me, srv, origin);
    SourceRow(w, me, srv, origin);
    var m := w.job.value;
    ReplacesHere(w, srv, origin);
    ReplacingFacts(m);
    SameParts(m, After(m, BeginReplacing(m)));
    ReplacingStep(w, me, srv, origin, c);
    var v := Go(w, me, srv, c);
    StoredBase(w, v, me, srv, origin, v.run.job);
    Assemble(v, me, srv, origin);
  }

  lemma ReplacesHere(w: World, srv: Server, origin: Remote)
    requires w.job.Some? && RunOk(w, srv, origin) && w.pc == StartReplacing && Inv(w.job.value)
    requires w.job.value.operation == Replacement
    ensures BeginReplacing(w.job.value).Succeeds() && w.published == []
  {
    hide Inv, Valid, Placeable;
    GuardedCallsWriteValidManifests(w.job.value, OpBeginReplacing);
  }

  lemma ReplacingStep(w: World, me: Uuid, srv: Server, origin: Remote, c: Choice)
    requires Shaped(w) && w.job.Some? && w.pc == StartReplacing && BeginReplacing(w.job.value).Succeeds()
    requires RunOk(w, srv, origin) && w.run.job == w.job.value
    requires var m := w.job.value;
             && SameJob(m, After(m, BeginReplacing(m)))
             && After(m, BeginReplacing(m)).state == Replacing
    requires After(w.job.value, BeginReplacing(w.job.value)).source == w.job.value.source
    requires After(w.job.value, BeginReplacing(w.job.value)).candidate == w.job.value.candidate
    ensures var v, m := Go(w, me, srv, c), w.job.value;
            && v.job == Some(v.run.job) && v.run.job == After(m, BeginReplacing(m)) && v.entries == w.entries
            && v.nextInode == w.nextInode && v.published == w.published && Shaped(v) && RunOk(v, srv, origin)
            && v.pc == RereadSource
            && Rank(v, srv) < Rank(w, srv)
    ensures Served(w, me, srv, c) == srv
  {
    hide BeginReplacing, After, Saga.Next, Placeable, ListsOk, AtList, AtCheckLocal, AtRereadSource, AtConfirmSource,
         AtConfirmTrash, AtRetrying, AtBlocking, AtCommitting;
    NextAt(w, me, Replies(w, Served(w, me, srv, c), c));
  }

  // -------------------------------------------------------------- the review

  lemma SeenAgain(w: World, me: Uuid, in_: Input, asset: Remote)
    requires w.run.job.source.Some? && w.run.source.Some?
    requires in_.asset == Ok(asset) && asset.id == w.run.source.value.asset.id && SourceMatches(w.run.job, asset, true)
    ensures AtRereadSource(w, me, in_) ==
            Said(w, SawAsset(asset)).(run := w.run.(seen := Some(asset)),
                                      pc := if asset.trashed then ResumedAlbums1 else SourceAlbums1)
  {
    hide SourceMatches, Fail;
  }

  lemma GoReread(w: World, me: Uuid, srv: Server, origin: Remote, c: Choice)
    requires Good(w, me, srv, origin) && Shaped(w) && w.job.Some? && w.pc == RereadSource
    ensures GoesOn(w, me, srv, origin, c)
  {
    hide AtRereadSource, BaseOk, CandidateMatches, Good, Inv, Saga.Next, SameManagedChecksum, Served, Shaped,
         SourceMatches, Taken, UploadMatches, Working, ListsOk, Fate, Placeable, AtList, AtCheckLocal, AtConfirmSource,
         AtConfirmTrash, AtRetrying, AtBlocking, AtStartReplacing, AtCommitting;
    ServedNothing(w, me, srv, c);
    NextAt(w, me, Replies(w, srv, c));
    GoodParts(w, me, srv, origin);
    SourceRow(w, me, srv, origin);
    ReviewHas(w);
    SeenAgain(w, me, Replies(w, srv, c), srv.source);
    var v := Go(w, me, srv, c);
    ReviewIsShaped(v);
    SameBase(w, v, me, srv, origin);
    Assemble(v, me, srv, origin);
  }

  // Where a list that agrees leads: to the next point, kept as the first or the
  // second list of its asset.
  function AfterList(w: World, list: seq<Uuid>): World
    requires Listing(w.pc) && w.run.source.Some? && w.run.first.Some?
  {
    var id := if ListsSource(w.pc) then w.run.source.value.asset.id else w.run.first.value.id;
    var v := Said(w, SawAlbums(id, list));
    match w.pc
    case ResumedAlbums1 => v.(run := w.run.(album1 := list), pc := ResumedAlbums2)
    case ResumedAlbums2 => v.(run := w.run.(album2 := list), pc := RereadCandidate)
    case SourceAlbums1 => v.(run := w.run.(album1 := list), pc := SourceAlbums2)
    case SourceAlbums2 => v.(run := w.run.(album2 := list), pc := Copying)
    case SourceAlbums3 => v.(run := w.run.(album1 := list), pc := SourceAlbums4)
    case SourceAlbums4 => v.(run := w.run.(album2 := list), pc := CandidateAlbums1)
    case CandidateAlbums1 => v.(run := w.run.(album3 := list), pc := CandidateAlbums2)
    case CandidateAlbums2 => v.(run := w.run.(album4 := list), pc := ConfirmSource)
  }

  lemma ListArrives(w: World, in_: Input, list: seq<Uuid>)
    requires Listing(w.pc) && w.run.source.Some? && w.run.first.Some? && in_.albums == Ok(list)
    requires w.pc == ResumedAlbums2 || w.pc == SourceAlbums2 ==> list == Albums(w) && w.run.album1 == list
    ensures AtList(w, in_) == AfterList(w, list)
  {
    hide Fail;
  }

  predicate Resuming(pc: Pc) {
    pc == ResumedAlbums1 || pc == ResumedAlbums2
  }

  // The server's lists agree with each other and with what the job remembers.
  lemma ListRunOk(w: World, srv: Server, origin: Remote)
    requires w.job.Some? && Listing(w.pc) && w.run.source.Some? && w.run.first.Some?
    requires RunOk(w, srv, origin) && Albums(w) == srv.albums
    ensures RunOk(AfterList(w, srv.albums), srv, origin)
  {
    hide Albums, Working, Placeable;
    if Resuming(w.pc) {
      ResumedRunOk(w, srv, origin);
    } else if ListsSource(w.pc) {
      SourceListRunOk(w, srv, origin);
    } else {
      CandidateListRunOk(w, srv, origin);
    }
    hide RunOk, AfterList;
  }

  lemma ResumedRunOk(w: World, srv: Server, origin: Remote)
    requires w.job.Some? && Resuming(w.pc) && w.run.source.Some? && w.run.first.Some?
    requires RunOk(w, srv, origin) && Albums(w) == srv.albums
    ensures RunOk(AfterList(w, srv.albums), srv, origin)
  {
    hide Working, Placeable;
  }

  lemma SourceListRunOk(w: World, srv: Server, origin: Remote)
    requires w.job.Some? && ListsSource(w.pc) && w.run.source.Some? && w.run.first.Some?
    requires RunOk(w, srv, origin) && Albums(w) == srv.albums
    ensures RunOk(AfterList(w, srv.albums), srv, origin)
  {
    hide Working, Placeable;
  }

  lemma CandidateListRunOk(w: World, srv: Server, origin: Remote)
    requires w.job.Some? && (w.pc == CandidateAlbums1 || w.pc == CandidateAlbums2) && w.run.source.Some?
             && w.run.first.Some?
    requires RunOk(w, srv, origin) && Albums(w) == srv.albums
    ensures RunOk(AfterList(w, srv.albums), srv, origin)
  {
    hide Working, Placeable;
  }

  lemma ListsAgree(w: World, srv: Server, origin: Remote)
    requires w.job.Some? && Listing(w.pc) && RunOk(w, srv, origin) && Albums(w) == srv.albums
    ensures w.pc == ResumedAlbums2 || w.pc == SourceAlbums2 ==> w.run.album1 == srv.albums
    ensures srv.stored.Some? && (!ListsSource(w.pc) ==> srv.stored.value.albums == srv.albums || srv.source.trashed)
  {
    hide Albums, Working, Placeable;
  }

  lemma ListRank(w: World, srv: Server, list: seq<Uuid>)
    requires Listing(w.pc) && w.run.source.Some? && w.run.first.Some?
    ensures Rank(AfterList(w, list), srv) < Rank(w, srv)
    ensures var v := AfterList(w, list); SameCore(w, v) && Reviewing(v.pc) && v.pc != Publishing && SameSubject(w, v)
  {
  }

  // Up to the publication a run has the source, the candidate and its marker.
  lemma ReviewHas(w: World)
    requires Shaped(w) && Reviewing(w.pc)
    ensures w.run.job.operation == Replacement && w.run.job.source.Some?
    ensures w.run.source.Some? && w.run.first.Some? && w.run.marker.Some?
  {
  }

  lemma ReviewIsShaped(v: World)
    requires Reviewing(v.pc) && v.pc != Publishing
    requires v.run.job.operation == Replacement && v.run.job.source.Some?
    requires v.run.source.Some? && v.run.first.Some? && v.run.marker.Some?
    ensures Shaped(v)
  {
  }

  lemma PublishingIsShaped(v: World)
    requires v.pc == Publishing && v.run.job.operation == Replacement && v.run.job.source.Some?
    requires v.run.source.Some? && v.run.first.Some? && v.run.marker.Some? && v.run.again.Some?
    ensures Shaped(v)
  {
  }

  lemma ShownIsShaped(v: World)
    requires v.pc == Showing || v.pc.Blocking?
    requires v.run.job.operation == Replacement && v.run.job.source.Some?
    ensures Shaped(v)
  {
  }

  lemma GoList(w: World, me: Uuid, srv: Server, origin: Remote, c: Choice)
    requires Good(w, me, srv, origin) && Shaped(w) && w.job.Some? && Listing(w.pc)
    ensures GoesOn(w, me, srv, origin, c)
  {
    hide BaseOk, CandidateMatches, Good, Inv, Saga.Next, SameManagedChecksum, Served, SourceMatches, Taken,
         UploadMatches, Working, Fate, RunOk, Rank, AtList, Placeable, AfterList, Shaped, AtCheckLocal, AtRereadSource,
         AtConfirmSource, AtConfirmTrash, AtRetrying, AtBlocking, AtStartReplacing, AtCommitting;
    ServedNothing(w, me, srv, c);
    NextAt(w, me, Replies(w, srv, c));
    GoodParts(w, me, srv, origin);
    SourceRow(w, me, srv, origin);
    ListRunOk(w, srv, origin);
    ListsAgree(w, srv, origin);
    ListRank(w, srv, srv.albums);
    ListArrives(w, Replies(w, srv, c), srv.albums);
    ReviewHas(w);
    var v := AfterList(w, srv.albums);
    ReviewIsShaped(v);
    SameBase(w, v, me, srv, origin);
    Assemble(v, me, srv, origin);
  }

  lemma GoCopying(w: World, me: Uuid, srv: Server, origin: Remote, c: Choice)
    requires Good(w, me, srv, origin) && Shaped(w) && w.job.Some? && w.pc == Copying
    ensures GoesOn(w, me, srv, origin, c)
  {
    hide Good, BaseOk, Inv, SourceMatches, SameManagedChecksum, UploadMatches, CandidateMatches, Fate, Placeable;
    GoodParts(w, me, srv, origin);
    SourceRow(w, me, srv, origin);
    var v, after := Go(w, me, srv, c), Served(w, me, srv, c);
    CopiedBase(w, me, srv, origin, after);
    SameBase(w, v, me, after, origin);
    Assemble(v, me, after, origin);
  }

  lemma CopiedBase(w: World, me: Uuid, srv: Server, origin: Remote, after: Server)
    requires BaseOk(w, me, srv, origin) && srv.stored.Some?
    requires after == srv.(stored := Some(srv.stored.value.(albums := srv.albums)))
    ensures BaseOk(w, me, after, origin) && Fate(w, after, origin) == Fate(w, srv, origin)
  {
    hide Inv, SourceMatches, SameManagedChecksum, UploadMatches, CandidateMatches;
  }

  lemma SeenUnchanged(w: World, me: Uuid, in_: Input, asset: Remote)
    requires w.run.job.source.Some? && w.run.source.Some?
    requires in_.asset == Ok(asset) && asset.id == w.run.source.value.asset.id
    requires ListsOk(w, 4) && SourceMatches(w.run.job, asset, false)
    ensures AtConfirmSource(w, me, in_) ==
            Said(w, SawAsset(asset)).(run := w.run.(confirmed := Some(asset)), pc := Trashing)
  {
    hide SourceMatches, Fail;
  }

  lemma GoConfirmSource(w: World, me: Uuid, srv: Server, origin: Remote, c: Choice)
    requires Good(w, me, srv, origin) && Shaped(w) && w.job.Some? && w.pc == ConfirmSource
    ensures GoesOn(w, me, srv, origin, c)
  {
    hide Shaped, AtConfirmSource, BaseOk, CandidateMatches, Good, Inv, ListsOk, ListsSource, Saga.Next,
         SameManagedChecksum, Served, SourceMatches, Taken, UploadMatches, Working, Fate, Placeable, AtList,
         AtCheckLocal, AtRereadSource, AtConfirmTrash, AtRetrying, AtBlocking, AtStartReplacing, AtCommitting;
    ServedNothing(w, me, srv, c);
    NextAt(w, me, Replies(w, srv, c));
    GoodParts(w, me, srv, origin);
    SourceRow(w, me, srv, origin);
    ReviewHas(w);
    SeenUnchanged(w, me, Replies(w, srv, c), srv.source);
    var v := Go(w, me, srv, c);
    ReviewIsShaped(v);
    SameBase(w, v, me, srv, origin);
    Assemble(v, me, srv, origin);
  }

  lemma SeenInTrash(w: World, me: Uuid, in_: Input, asset: Remote)
    requires w.run.job.source.Some? && w.run.source.Some?
    requires in_.asset == Ok(asset) && asset.id == w.run.source.value.asset.id
    requires asset.trashed && SourceMatches(w.run.job, asset, true)
    ensures AtConfirmTrash(w, me, in_) ==
            Said(w, SawAsset(asset)).(run := w.run.(seen := Some(asset)), pc := RereadCandidate)
  {
    hide SourceMatches, Fail;
  }

  lemma SeenOutside(w: World, me: Uuid, in_: Input, asset: Remote)
    requires w.run.job.source.Some? && w.run.source.Some? && w.run.job.state == Replacing
    requires in_.asset == Ok(asset) && asset.id == w.run.source.value.asset.id
    requires !asset.trashed && SourceMatches(w.run.job, asset, true)
    ensures AtConfirmTrash(w, me, in_).pc.Retrying? && SameCore(w, AtConfirmTrash(w, me, in_))
  {
    hide SourceMatches;
  }

  lemma GoConfirmed(w: World, me: Uuid, srv: Server, origin: Remote, c: Choice)
    requires Good(w, me, srv, origin) && Shaped(w) && w.job.Some? && w.pc == ConfirmTrash && srv.source.trashed
    ensures GoesOn(w, me, srv, origin, c)
  {
    hide Shaped, AtConfirmTrash, BaseOk, CandidateMatches, Good, Inv, ListsOk, ListsSource, Saga.Next,
         SameManagedChecksum, Served, SourceMatches, Taken, UploadMatches, Working, Fate, Placeable, AtList,
         AtCheckLocal, AtRereadSource, AtConfirmSource, AtRetrying, AtBlocking, AtStartReplacing, AtCommitting;
    ServedNothing(w, me, srv, c);
    NextAt(w, me, Replies(w, srv, c));
    GoodParts(w, me, srv, origin);
    SourceRow(w, me, srv, origin);
    ReviewHas(w);
    SeenInTrash(w, me, Replies(w, srv, c), srv.source);
    var v := Go(w, me, srv, c);
    ReviewIsShaped(v);
    SameBase(w, v, me, srv, origin);
    Assemble(v, me, srv, origin);
  }

  // The request may not have come through: then the whole job is tried again.
  lemma GoConfirmTrash(w: World, me: Uuid, srv: Server, origin: Remote, c: Choice)
    requires Good(w, me, srv, origin) && Shaped(w) && w.job.Some? && w.pc == ConfirmTrash
    ensures GoesOn(w, me, srv, origin, c)
  {
    hide AtConfirmTrash, BaseOk, CandidateMatches, Good, Inv, ListsOk, ListsSource, Saga.Next, SameManagedChecksum,
         Served, SourceMatches, Taken, UploadMatches, Fate, Placeable, AtList, AtCheckLocal, AtRereadSource,
         AtConfirmSource, AtRetrying, AtBlocking, AtStartReplacing, AtCommitting;
    if srv.source.trashed {
      GoConfirmed(w, me, srv, origin, c);
      hide *;
    } else {
      ServedNothing(w, me, srv, c);
      NextAt(w, me, Replies(w, srv, c));
      GoodParts(w, me, srv, origin);
      SourceRow(w, me, srv, origin);
      SeenOutside(w, me, Replies(w, srv, c), srv.source);
      var v := Go(w, me, srv, c);
      SameBase(w, v, me, srv, origin);
      Assemble(v, me, srv, origin);
    }
  }

  lemma GoRetrying(w: World, me: Uuid, srv: Server, origin: Remote, c: Choice)
    requires Good(w, me, srv, origin) && Shaped(w) && w.job.Some? && w.pc.Retrying?
    ensures GoesOn(w, me, srv, origin, c)
  {
    hide Go, Served, RunOk, Good, BaseOk, Inv, Valid, SameJob, Fate, Placeable, Rank;
    GoodParts(w, me, srv, origin);
    RetryingHere(w, srv, origin);
    SourceRow(w, me, srv, origin);
    var m := w.job.value;
    InvShape(m);
    RetriedFacts(m, c.now, Some(w.pc.code), None);
    RetryStep(w, me, srv, c);
    var v := Go(w, me, srv, c);
    StoredBase(w, v, me, srv, origin, v.job.value);
    IdleRunOk(v, srv, origin);
    Assemble(v, me, srv, origin);
  }

  lemma RetryStep(w: World, me: Uuid, srv: Server, c: Choice)
    requires Shaped(w) && w.job.Some? && w.pc.Retrying?
    ensures Go(w, me, srv, c) ==
            w.(job := Some(After(w.job.value, Retry(w.job.value, c.now, Some(w.pc.code), None))), pc := Idle)
    ensures Served(w, me, srv, c) == srv && Rank(w, srv) == 41 && Rank(Go(w, me, srv, c), srv) == 40
  {
    hide Retry, After, Saga.Next, Shaped, AtList, AtCheckLocal, AtRereadSource, AtConfirmSource, AtConfirmTrash,
         AtBlocking, AtStartReplacing, AtCommitting;
    NextAt(w, me, Replies(w, Served(w, me, srv, c), c));
  }

  lemma RetryingHere(w: World, srv: Server, origin: Remote)
    requires w.job.Some? && RunOk(w, srv, origin)
    ensures w.pc.Retrying? ==> Working(w.job.value) && w.published == []
  {
    hide Placeable, ListsOk;
  }

  // What a retry makes of a job that has been sealed.
  lemma RetriedFacts(m: Manifest, at: nat, error: Option<ErrorCode>, wanted: Option<int>)
    requires Inv(m) && m.operation == Replacement && m.sha1.Some?
    requires Working(m) || m.state == Blocked
    requires wanted.Some? ==> wanted.value == m.revision && Settled(m)
    ensures var n := After(m, Retry(m, at, error, wanted));
            && Inv(n) && SameJob(m, n) && n.candidate == m.candidate && Working(n)
            && (m.verified ==> n.state == Replacing)
  {
    RetryFacts(m, at, error, wanted);
    GuardedCallsWriteValidManifests(m, OpRetry(at, error, wanted));
    assert m.revision >= 1;
    hide Inv, Valid, SameJob;
  }

  lemma GoTrashing(w: World, me: Uuid, srv: Server, origin: Remote, c: Choice)
    requires Good(w, me, srv, origin) && Shaped(w) && w.job.Some? && w.pc == Trashing
    ensures GoesOn(w, me, srv, origin, c)
  {
    hide Good, BaseOk, Inv, SourceMatches, SameManagedChecksum, UploadMatches, CandidateMatches, Fate, Placeable,
         Saga.Next, AtReadCandidate, AtReadMarker, AtRereadCandidate, AtPublishing, Shaped;
    NextOnCandidate(w, me, Replies(w, Served(w, me, srv, c), c));
    GoodParts(w, me, srv, origin);
    SourceRow(w, me, srv, origin);
    ReviewHas(w);
    var v, after := Go(w, me, srv, c), Served(w, me, srv, c);
    ReviewIsShaped(v);
    TrashedBase(w, me, srv, origin, after, c.stamp);
    SameBase(w, v, me, after, origin);
    Assemble(v, me, after, origin);
  }

  lemma TrashedBase(w: World, me: Uuid, srv: Server, origin: Remote, after: Server, stamp: string)
    requires BaseOk(w, me, srv, origin) && w.job.value.state == Replacing && w.published == []
    requires srv.stored.Some? && srv.stored.value.albums == srv.albums
    requires after == srv.(source := srv.source.(trashed := true, updatedAt := stamp))
    ensures BaseOk(w, me, after, origin) && Fate(w, after, origin) == Fate(w, srv, origin)
  {
    hide Inv, SameManagedChecksum, UploadMatches, CandidateMatches;
  }

  lemma GoRereadCandidate(w: World, me: Uuid, srv: Server, origin: Remote, c: Choice)
    requires Good(w, me, srv, origin) && Shaped(w) && w.job.Some? && w.pc == RereadCandidate
    ensures GoesOn(w, me, srv, origin, c)
  {
    hide Good, BaseOk, Inv, SourceMatches, SameManagedChecksum, UploadMatches, CandidateMatches, Fate, Placeable,
         Saga.Next, AtReadCandidate, AtReadMarker, AtTrashing, AtPublishing, Shaped;
    NextOnCandidate(w, me, Replies(w, Served(w, me, srv, c), c));
    GoodParts(w, me, srv, origin);
    SourceRow(w, me, srv, origin);
    ReviewHas(w);
    var v := Go(w, me, srv, c);
    PublishingIsShaped(v);
    SameBase(w, v, me, srv, origin);
    Assemble(v, me, srv, origin);
  }

  // ------------------------------------------------------------ publication

  lemma PublishesBase(w: World, v: World, me: Uuid, srv: Server, origin: Remote, retired: string)
    requires BaseOk(w, me, srv, origin) && w.published == [] && w.job.value.state == Replacing && srv.source.trashed
    requires srv.stored.Some? && w.job.value.candidate == Some(srv.stored.value.asset.id)
    requires retired !in TakenNames(w.entries) && srv.stored.value.asset.id !in w.entries
    requires var id, asset := w.job.value.source.value.asset, srv.stored.value.asset;
             && id in w.entries
             && v.entries == Publish(w.entries, w.nextInode, id, asset, retired)
             && v.published == [(id, asset.id)]
    requires v.job == w.job && v.nextInode == w.nextInode + 1
    ensures Publishable(w.entries, w.job.value.source.value.asset, srv.stored.value.asset, retired)
    ensures BaseOk(v, me, srv, origin)
  {
    hide Inv, SameManagedChecksum, TakenNames;
  }

  // The source gets the first of its retired names, if that is free.
  lemma GoPublishing(w: World, me: Uuid, srv: Server, origin: Remote, c: Choice)
    requires Good(w, me, srv, origin) && Shaped(w) && w.job.Some? && w.pc == Publishing
             && Placeable(w.entries, srv, origin.id)
    ensures GoesOn(w, me, srv, origin, c)
  {
    hide Good, BaseOk, Inv, SourceMatches, SameManagedChecksum, UploadMatches, CandidateMatches, Publish, Publishable,
         Retired, TakenNames, Saga.Next, AtReadCandidate, AtReadMarker, AtTrashing, AtRereadCandidate, Shaped;
    NextOnCandidate(w, me, Replies(w, Served(w, me, srv, c), c));
    GoodParts(w, me, srv, origin);
    SourceRow(w, me, srv, origin);
    ReviewHas(w);
    var source, asset := w.run.source.value.asset.id, w.run.again.value;
    var retired := Retired(w.entries, source).value;
    var next := w.(entries := Publish(w.entries, w.nextInode, source, asset, retired), nextInode := w.nextInode + 1,
                   published := [(source, asset.id)]);
    PublishesBase(w, next, me, srv, origin, retired);
    var v := Go(w, me, srv, c);
    assert [] + [(source, asset.id)] == [(source, asset.id)];
    ShownIsShaped(v);
    SameBase(next, v, me, srv, origin);
    Assemble(v, me, srv, origin);
  }

  lemma GoClashing(w: World, me: Uuid, srv: Server, origin: Remote, c: Choice)
    requires Good(w, me, srv, origin) && Shaped(w) && w.job.Some? && w.pc == Publishing
             && !Placeable(w.entries, srv, origin.id)
    ensures GoesOn(w, me, srv, origin, c)
  {
    hide Good, BaseOk, Inv, SourceMatches, SameManagedChecksum, UploadMatches, CandidateMatches, Publish, Retired,
         TakenNames, Fate, Saga.Next, AtReadCandidate, AtReadMarker, AtTrashing, AtRereadCandidate, Shaped;
    NextOnCandidate(w, me, Replies(w, Served(w, me, srv, c), c));
    GoodParts(w, me, srv, origin);
    SourceRow(w, me, srv, origin);
    ReviewHas(w);
    var v := Go(w, me, srv, c);
    ShownIsShaped(v);
    SameBase(w, v, me, srv, origin);
    Assemble(v, me, srv, origin);
  }

  lemma GoBlocking(w: World, me: Uuid, srv: Server, origin: Remote, c: Choice)
    requires Good(w, me, srv, origin) && Shaped(w) && w.job.Some? && w.pc.Blocking?
    ensures Stuck(Go(w, me, srv, c), me, Served(w, me, srv, c), origin)
  {
    hide Good, BaseOk, RunOk, Inv, Valid, SameJob, Placeable, Go, Served;
    GoodParts(w, me, srv, origin);
    SourceRow(w, me, srv, origin);
    BlockingHere(w, srv, origin);
    var m := w.job.value;
    BlocksReplacing(m);
    BlockFacts(m, LocalStateFailed);
    BlockStep(w, me, srv, c);
    var v := Go(w, me, srv, c);
    BlockedBase(w, v, me, srv, origin, v.job.value);
  }

  lemma BlockingHere(w: World, srv: Server, origin: Remote)
    requires w.job.Some? && RunOk(w, srv, origin) && w.pc.Blocking?
    ensures w.pc.code == LocalStateFailed && w.published == [] && w.job.value.state == Replacing && srv.source.trashed
    ensures !Placeable(w.entries, srv, origin.id)
  {
    hide Placeable, ListsOk;
  }

  lemma BlocksReplacing(m: Manifest)
    requires Inv(m) && m.state == Replacing
    ensures var n := After(m, Block(m, LocalStateFailed));
            n.state == Blocked && n.error == Some(LocalStateFailed) && n.verified
  {
    hide Inv, Valid;
    InvShape(m);
    GuardedCallsWriteValidManifests(m, OpBlock(LocalStateFailed));
  }

  lemma BlockStep(w: World, me: Uuid, srv: Server, c: Choice)
    requires Shaped(w) && w.job.Some? && w.pc.Blocking?
    ensures var v := Go(w, me, srv, c);
            v == w.(job := Some(After(w.job.value, Block(w.job.value, w.pc.code))), pc := Idle) && Shaped(v)
    ensures Served(w, me, srv, c) == srv
  {
    hide Block, After, Saga.Next, AtList, AtCheckLocal, AtRereadSource, AtConfirmSource, AtConfirmTrash, AtRetrying,
         AtStartReplacing, AtCommitting;
    NextAt(w, me, Replies(w, Served(w, me, srv, c), c));
  }

  lemma BlockedBase(w: World, v: World, me: Uuid, srv: Server, origin: Remote, n: Manifest)
    requires BaseOk(w, me, srv, origin) && w.published == [] && Inv(n) && SameJob(w.job.value, n)
    requires n.state == Blocked && n.verified && n.candidate == w.job.value.candidate
    requires v.job == Some(n) && v.entries == w.entries && v.nextInode == w.nextInode && v.published == []
    ensures BaseOk(v, me, srv, origin)
  {
    var m := w.job.value;
    hide Inv, UploadMatches, SourceMatches, CandidateMatches, SameManagedChecksum;
    assert OriginOk(m, origin) && m.source.Some?;
    OriginStays(m, n, origin);
    ServerStays(m, n, me, srv, origin);
    UnpublishedStays(m, n, origin, w.entries);
    hide OriginOk, ServerOk, UnpublishedOk;
  }

  lemma GoShown(w: World, me: Uuid, srv: Server, origin: Remote, c: Choice)
    requires Good(w, me, srv, origin) && Shaped(w) && w.job.Some? && (w.pc == Showing || w.pc == Pinning)
    ensures GoesOn(w, me, srv, origin, c)
  {
    hide Good, BaseOk, Inv, Fate, Placeable;
    GoodParts(w, me, srv, origin);
    var v := Go(w, me, srv, c);
    SameBase(w, v, me, srv, origin);
    Assemble(v, me, srv, origin);
  }

  lemma CommittedBase(w: World, v: World, me: Uuid, srv: Server, origin: Remote, n: Manifest)
    requires BaseOk(w, me, srv, origin) && w.published != [] && Inv(n) && SameJob(w.job.value, n)
             && n.state == Committed
    requires v.job == Some(n) && v.entries == w.entries && v.nextInode == w.nextInode && v.published == w.published
    requires n.candidate == w.job.value.candidate
    ensures BaseOk(v, me, srv, origin) && Fate(v, srv, origin) == Fate(w, srv, origin)
  {
    hide Placeable;
    var m := w.job.value;
    hide Inv, UploadMatches, SourceMatches, CandidateMatches, SameManagedChecksum;
    OriginStays(m, n, origin);
    ServerStays(m, n, me, srv, origin);
    SameJobMatches(m, n, me);
    hide OriginOk, ServerOk;
  }

  lemma GoCommitting(w: World, me: Uuid, srv: Server, origin: Remote, c: Choice)
    requires Good(w, me, srv, origin) && Shaped(w) && w.job.Some? && w.pc == Committing
    ensures GoesOn(w, me, srv, origin, c)
  {
    hide Good, BaseOk, RunOk, Rank, Shaped, Go, Inv, Valid, SameJob, Fate, Placeable, Served, Commit, After;
    GoodParts(w, me, srv, origin);
    var m := w.job.value;
    InvHere(w, me, srv, origin);
    InvShape(m);
    CommittingHere(w, srv, origin);
    CommitsReplacing(m);
    CommitFacts(m);
    SameParts(m, After(m, Commit(m)));
    CommittingStep(w, me, srv, origin, c);
    var v := Go(w, me, srv, c);
    CommittedBase(w, v, me, srv, origin, v.run.job);
    Assemble(v, me, srv, origin);
  }

  lemma CommittingHere(w: World, srv: Server, origin: Remote)
    requires w.job.Some? && RunOk(w, srv, origin) && w.pc == Committing
    ensures w.job.value.state == Replacing && w.published != []
  {
    hide Placeable, ListsOk;
  }

  lemma CommittedIsOk(v: World, srv: Server, origin: Remote)
    ensures v.pc == Removing && (v.run.job.operation == Replacement ==> v.run.job.source.Some?) ==> Shaped(v)
    ensures v.pc == Removing && v.job.Some? && v.job.value.state == Committed && v.published != [] ==>
              RunOk(v, srv, origin)
  {
    hide Placeable, ListsOk;
  }

  lemma CommittingStep(w: World, me: Uuid, srv: Server, origin: Remote, c: Choice)
    requires Shaped(w) && w.job.Some? && w.pc == Committing && Commit(w.job.value).Succeeds() && w.published != []
    requires var n := After(w.job.value, Commit(w.job.value));
             n.state == Committed && n.operation == Replacement && n.source.Some?
    ensures var v, m := Go(w, me, srv, c), w.job.value;
            && v.job == Some(v.run.job) && v.run.job == After(m, Commit(m)) && v.entries == w.entries
            && v.nextInode == w.nextInode && v.published == w.published && v.pc == Removing
            && Shaped(v) && RunOk(v, srv, origin) && Rank(v, srv) < Rank(w, srv)
    ensures Served(w, me, srv, c) == srv
  {
    CommittedIsOk(Go(w, me, srv, c), srv, origin);
    hide RunOk, Shaped, Commit, After, Saga.Next, Placeable, ListsOk, AtList, AtCheckLocal, AtRereadSource,
         AtConfirmSource, AtConfirmTrash, AtRetrying, AtBlocking, AtStartReplacing;
    NextAt(w, me, Replies(w, Served(w, me, srv, c), c));
  }

  lemma CommitsReplacing(m: Manifest)
    requires Inv(m) && m.state == Replacing && m.candidate.Some?
    ensures Commit(m).Succeeds()
  {
    hide Inv, Valid;
    GuardedCallsWriteValidManifests(m, OpCommit);
  }

  lemma InvHere(w: World, me: Uuid, srv: Server, origin: Remote)
    requires BaseOk(w, me, srv, origin)
    ensures Inv(w.job.value)
    ensures w.published != [] ==>
            w.job.value.candidate.Some?
              && w.published == [(w.job.value.source.value.asset, w.job.value.candidate.value)]
  {
    hide Inv, UploadMatches, SourceMatches, CandidateMatches, SameManagedChecksum;
  }

  // ----------------------------------------------------------------- the end

  lemma GoRemoving(w: World, me: Uuid, srv: Server, origin: Remote, c: Choice)
    requires Good(w, me, srv, origin) && Shaped(w) && w.job.Some? && w.pc == Removing
    ensures w.job.value.source.Some? && Done(Go(w, me, srv, c), w.job.value.source.value.asset)
  {
    hide Good, BaseOk, Inv, Fate, Placeable;
    GoodParts(w, me, srv, origin);
    InvHere(w, me, srv, origin);
  }

  // The job is over, or waits for somebody to do something about it.
  predicate Ended(w: World, me: Uuid, srv: Server, origin: Remote) {
    Done(w, origin.id) || Stuck(w, me, srv, origin)
  }

  // A pending job as it is begun, with nothing on the server for its checksum.
  lemma FreshIsGood(w: World, me: Uuid, srv: Server, origin: Remote)
    requires w.pc == Idle && Shaped(w) && w.published == []
    requires w.job.Some? && Inv(w.job.value) && w.job.value.state == Pending && OriginOk(w.job.value, origin)
    requires var s := w.job.value.source.value;
             && s.inode < w.nextInode && s.asset in w.entries
             && w.entries[s.asset] == Entry(s.inode, s.name, origin, s.albums)
    requires srv == Server(origin, w.job.value.source.value.albums, None)
    ensures Good(w, me, srv, origin)
  {
    hide Inv;
    InvShape(w.job.value);
  }

  // A step leads closer to the end, which the source's name has decided.
  lemma EveryStepHelps(w: World, me: Uuid, srv: Server, origin: Remote, c: Choice)
    requires Good(w, me, srv, origin) && Shaped(w) && w.job.Some? && FreshChoice(w, c)
    ensures GoesOn(w, me, srv, origin, c) || Ended(Go(w, me, srv, c), me, Served(w, me, srv, c), origin)
    ensures Fate(Go(w, me, srv, c), Served(w, me, srv, c), origin) == Fate(w, srv, origin)
  {
    GoodPc(w, me, srv, origin);
    EndFate(w, me, srv, origin, c);
    hide Good, Ended, Go, FreshChoice, Shaped, Placeable, Fate, Listing;
    match w.pc
    case Idle => GoStart(w, me, srv, origin, c);
    case Begin => GoBegin(w, me, srv, origin, c);
    case CheckLocal => GoCheckLocal(w, me, srv, origin, c);
    case ReadSource => GoReadSource(w, me, srv, origin, c);
    case TakeAttempt => GoTakeAttempt(w, me, srv, origin, c);
    case Admitting => GoAdmitting(w, me, srv, origin, c);
    case Uploading => GoUploading(w, me, srv, origin, c);
    case Recording => GoRecording(w, me, srv, origin, c);
    case ReadCandidate => GoReadCandidate(w, me, srv, origin, c);
    case ReadMarker => GoReadCandidate(w, me, srv, origin, c);
    case StartReplacing => GoStartReplacing(w, me, srv, origin, c);
    case RereadSource => GoReread(w, me, srv, origin, c);
    case Copying => GoCopying(w, me, srv, origin, c);
    case ConfirmSource => GoConfirmSource(w, me, srv, origin, c);
    case Trashing => GoTrashing(w, me, srv, origin, c);
    case ConfirmTrash => GoConfirmTrash(w, me, srv, origin, c);
    case RereadCandidate => GoRereadCandidate(w, me, srv, origin, c);
    case Publishing =>
      if Placeable(w.entries, srv, origin.id) {
        GoPublishing(w, me, srv, origin, c);
      } else {
        GoClashing(w, me, srv, origin, c);
      }
    case Showing => GoShown(w, me, srv, origin, c);
    case Pinning => GoShown(w, me, srv, origin, c);
    case Committing => GoCommitting(w, me, srv, origin, c);
    case Removing =>
    case Blocking(_) =>
    case Retrying(_) => GoRetrying(w, me, srv, origin, c);
    case _ => GoList(w, me, srv, origin, c);
  }

  // The two points at which a job comes to its end.
  lemma EndFate(w: World, me: Uuid, srv: Server, origin: Remote, c: Choice)
    requires Good(w, me, srv, origin) && Shaped(w) && w.job.Some?
    ensures w.pc == Removing || w.pc.Blocking? ==>
              && Ended(Go(w, me, srv, c), me, Served(w, me, srv, c), origin)
              && Fate(Go(w, me, srv, c), Served(w, me, srv, c), origin) == Fate(w, srv, origin)
  {
    hide BaseOk, Shaped, Stuck, Inv, Good, Placeable;
    GoodParts(w, me, srv, origin);
    SourceRow(w, me, srv, origin);
    if w.pc == Removing { GoRemoving(w, me, srv, origin, c); }
    if w.pc.Blocking? { GoBlocking(w, me, srv, origin, c); }
  }

  lemma GoodPc(w: World, me: Uuid, srv: Server, origin: Remote)
    requires Good(w, me, srv, origin)
    ensures w.pc != Cancelling && w.pc != AddLocally
  {
    hide BaseOk, Shaped, ListsOk, Placeable, Fate;
  }

  // ------------------------------------------------- crashes and lost replies

  lemma CrashIsHarmless(w: World, me: Uuid, srv: Server, origin: Remote)
    requires Good(w, me, srv, origin) && Shaped(w) && w.job.Some?
    ensures Good(Apply(w, me, Crash), me, srv, origin) || Done(Apply(w, me, Crash), origin.id)
    ensures Fate(Apply(w, me, Crash), srv, origin) == Fate(w, srv, origin)
  {
    hide Good, BaseOk, Inv, RunOk, Placeable;
    GoodParts(w, me, srv, origin);
    InvHere(w, me, srv, origin);
    SourceRow(w, me, srv, origin);
    StateHere(w, srv, origin);
    var v := Apply(w, me, Crash);
    if w.job.value.state != Committed {
      SameBase(w, v, me, srv, origin);
      IdleRunOk(v, srv, origin);
      Assemble(v, me, srv, origin);
    }
  }

  lemma StateHere(w: World, srv: Server, origin: Remote)
    requires w.job.Some? && RunOk(w, srv, origin)
    ensures Working(w.job.value) || (w.job.value.state == Committed && w.published != [])
  {
    hide Placeable, ListsOk;
  }

  lemma IdleRunOk(v: World, srv: Server, origin: Remote)
    requires v.job.Some? && v.pc == Idle && Working(v.job.value)
    ensures RunOk(v, srv, origin)
  {
  }

  // Where a lost reply leads: the job is going to be tried again, or, after the
  // one request whose reply is not relied on, the run looks at the source.
  predicate LedOn(w: World, v: World) {
    && SameCore(w, v)
    && if w.pc == Trashing then
         && v.pc == ConfirmTrash && v.run.source == w.run.source && v.run.first == w.run.first
         && v.run.marker == w.run.marker
       else v.pc == Retrying(UploadUnavailable)
  }

  lemma LostLeads(w: World, me: Uuid, c: Choice)
    requires Shaped(w) && Asks(w.pc)
    ensures LedOn(w, Lost(w, me, c))
  {
    hide LedOn, Lost, Shaped;
    if Listing(w.pc) {
      LostList(w, me, c);
    } else if Reviewing(w.pc) {
      LostInReview(w, me, c);
    } else {
      LostBefore(w, me, c);
    }
  }

  lemma LostList(w: World, me: Uuid, c: Choice)
    requires Shaped(w) && Listing(w.pc)
    ensures LedOn(w, Lost(w, me, c))
  {
    hide Shaped, Saga.Next, AtCheckLocal, AtRereadSource, AtConfirmSource, AtConfirmTrash, AtRetrying, AtBlocking,
         AtStartReplacing, AtCommitting;
    NextAt(w, me, NoReply(c));
  }

  lemma LostInReview(w: World, me: Uuid, c: Choice)
    requires Shaped(w) && Asks(w.pc) && Reviewing(w.pc) && !Listing(w.pc)
    ensures LedOn(w, Lost(w, me, c))
  {
    hide SourceMatches, UploadMatches, CandidateMatches, AtList, Publishable, Retired;
  }

  lemma LostBefore(w: World, me: Uuid, c: Choice)
    requires Shaped(w) && Asks(w.pc) && !Reviewing(w.pc)
    ensures LedOn(w, Lost(w, me, c))
  {
    hide SourceMatches, UploadMatches, CandidateMatches, SameManagedChecksum, AtList, AtRereadSource, AtConfirmSource,
         AtConfirmTrash, AtRereadCandidate, AtPublishing, AtTrashing, AtCopying;
  }

  // The request was served all the same, or it never arrived.
  function ServedIf(w: World, me: Uuid, srv: Server, c: Choice, served: bool): Server {
    if served then Served(w, me, srv, c) else srv
  }

  lemma LostReplyIsHarmless(w: World, me: Uuid, srv: Server, origin: Remote, c: Choice, served: bool)
    requires Good(w, me, srv, origin) && Shaped(w) && w.job.Some? && Asks(w.pc) && FreshChoice(w, c)
    ensures Good(Lost(w, me, c), me, ServedIf(w, me, srv, c, served), origin)
    ensures Fate(Lost(w, me, c), ServedIf(w, me, srv, c, served), origin) == Fate(w, srv, origin)
  {
    hide Good, BaseOk, RunOk, Inv, Fate, Lost, FreshChoice;
    GoodParts(w, me, srv, origin);
    var v, after := Lost(w, me, c), ServedIf(w, me, srv, c, served);
    LostLeads(w, me, c);
    ServedBase(w, me, srv, origin, c);
    SameBase(w, v, me, after, origin);
    LostRunOk(w, v, srv, after, origin);
    Assemble(v, me, after, origin);
  }

  // Whatever request the run has under way, serving it is all right.
  lemma ServedBase(w: World, me: Uuid, srv: Server, origin: Remote, c: Choice)
    requires BaseOk(w, me, srv, origin) && w.job.Some? && RunOk(w, srv, origin) && FreshChoice(w, c)
    requires w.pc != Idle ==> w.run.job == w.job.value
    ensures BaseOk(w, me, Served(w, me, srv, c), origin)
    ensures Fate(w, Served(w, me, srv, c), origin) == Fate(w, srv, origin)
  {
    hide BaseOk, Inv, FreshChoice, Created, ListsOk, Placeable;
    match w.pc
    case Uploading => StoredAfterUpload(w, me, srv, origin, c);
    case Copying => CopiedBase(w, me, srv, origin, Served(w, me, srv, c));
    case Trashing => TrashedBase(w, me, srv, origin, Served(w, me, srv, c), c.stamp);
    case _ =>
  }

  lemma LostRunOk(w: World, v: World, srv: Server, after: Server, origin: Remote)
    requires w.job.Some? && RunOk(w, srv, origin) && Asks(w.pc) && SameCore(w, v)
    requires if w.pc == Trashing then
               && v.pc == ConfirmTrash && v.run.source == w.run.source && v.run.first == w.run.first
               && v.run.marker == w.run.marker && after.stored == srv.stored
             else v.pc.Retrying?
    ensures RunOk(v, after, origin)
  {
    hide Placeable, ListsOk;
    AskingHere(w, srv, origin);
    if w.pc != Trashing {
      RetryingRunOk(v, after, origin);
      hide RunOk;
    }
  }

  lemma AskingHere(w: World, srv: Server, origin: Remote)
    requires w.job.Some? && RunOk(w, srv, origin) && Asks(w.pc)
    ensures Working(w.job.value) && w.published == []
  {
    hide Placeable, ListsOk;
  }

  lemma RetryingRunOk(v: World, srv: Server, origin: Remote)
    requires v.job.Some? && v.pc.Retrying? && Working(v.job.value) && v.published == []
    ensures RunOk(v, srv, origin)
  {
  }

  // Trying a stuck job once more leads back into the same run.
  lemma StuckRetryIsGood(w: World, me: Uuid, srv: Server, origin: Remote, at: nat)
    requires Stuck(w, me, srv, origin) && w.job.Some?
    ensures Good(ByHand(w, me, at), me, srv, origin) && !Fate(ByHand(w, me, at), srv, origin)
  {
    hide BaseOk, Inv, Valid, SameJob, Placeable;
    SourceRow(w, me, srv, origin);
    var m, v := w.job.value, ByHand(w, me, at);
    RetriedFacts(m, at, None, Some(m.revision));
    StoredBase(w, v, me, srv, origin, v.job.value);
    Assemble(v, me, srv, origin);
  }

  // A retry that the user asks for.
  function ByHand(w: World, me: Uuid, at: nat): World
    requires Shaped(w) && w.job.Some?
  {
    Apply(w, me, UserCall(OpRetry(at, None, Some(w.job.value.revision))))
  }

  // --------------------------------------------------------------- histories

  datatype Move = Proceed(c: Choice) | Lose(c: Choice, served: bool) | CrashNow | RetryNow(at: nat)

  predicate Allowed(w: World, move: Move) {
    && Shaped(w) && w.job.Some?
    && match move
       case Proceed(c) => FreshChoice(w, c) && (w.pc == Idle ==> Working(w.job.value))
       case Lose(c, _) => FreshChoice(w, c) && Asks(w.pc)
       case CrashNow => true
       case RetryNow(_) => w.pc == Idle && w.job.value.state == Blocked
  }

  function Moved(w: World, me: Uuid, srv: Server, move: Move): World
    requires Allowed(w, move)
  {
    match move
    case Proceed(c) => Go(w, me, srv, c)
    case Lose(c, _) => Lost(w, me, c)
    case CrashNow => Apply(w, me, Crash)
    case RetryNow(at) => ByHand(w, me, at)
  }

  function ServerMoved(w: World, me: Uuid, srv: Server, move: Move): Server {
    match move
    case Proceed(c) => Served(w, me, srv, c)
    case Lose(c, served) => ServedIf(w, me, srv, c, served)
    case _ => srv
  }

  predicate MovesTo(w: World, me: Uuid, srv: Server, move: Move, t: World, after: Server) {
    Allowed(w, move) && t == Moved(w, me, srv, move) && after == ServerMoved(w, me, srv, move)
  }

  // Steps, lost replies, crashes and retries in any order.
  predicate History(worlds: seq<World>, servers: seq<Server>, moves: seq<Move>, me: Uuid) {
    && |worlds| == |servers| == |moves| + 1
    && forall i {:trigger moves[i]} | 0 <= i < |moves| ::
         MovesTo(worlds[i], me, servers[i], moves[i], worlds[i + 1], servers[i + 1])
  }

  // On its way to one of the two ends, or there.
  predicate OnCourse(w: World, me: Uuid, srv: Server, origin: Remote) {
    if w.job == None then Done(w, origin.id) else Good(w, me, srv, origin) || Stuck(w, me, srv, origin)
  }

  lemma MoveKeepsGood(w: World, me: Uuid, srv: Server, origin: Remote, move: Move)
    requires OnCourse(w, me, srv, origin) && Allowed(w, move)
    ensures OnCourse(Moved(w, me, srv, move), me, ServerMoved(w, me, srv, move), origin)
    ensures Fate(Moved(w, me, srv, move), ServerMoved(w, me, srv, move), origin) == Fate(w, srv, origin)
  {
    var t, after := Moved(w, me, srv, move), ServerMoved(w, me, srv, move);
    AllowedOnStuck(w, me, srv, origin, move);
    hide Good, Stuck, Done, Go, Lost, ByHand, Shaped, FreshChoice, BaseOk, RunOk, Apply, Served, ServedIf, Fate;
    if Stuck(w, me, srv, origin) {
      match move
      case CrashNow =>
      case RetryNow(at) => StuckRetryIsGood(w, me, srv, origin, at);
    } else {
      match move
      case Proceed(c) => EveryStepHelps(w, me, srv, origin, c);
      case Lose(c, served) => LostReplyIsHarmless(w, me, srv, origin, c, served);
      case CrashNow => CrashIsHarmless(w, me, srv, origin);
    }
    WithJob(t, me, after, origin);
  }

  // Whether the job is still there.
  lemma WithJob(w: World, me: Uuid, srv: Server, origin: Remote)
    ensures Good(w, me, srv, origin) || Stuck(w, me, srv, origin) ==> w.job.Some?
    ensures Done(w, origin.id) ==> w.job == None
    ensures Stuck(w, me, srv, origin) ==> !Fate(w, srv, origin)
  {
    hide RunOk, Shaped, Inv, OriginOk, ServerOk, UnpublishedOk, PublishedOk, Placeable;
  }

  // A stuck job does not move unless it is tried again, and no other job is.
  lemma AllowedOnStuck(w: World, me: Uuid, srv: Server, origin: Remote, move: Move)
    requires Allowed(w, move)
    ensures Stuck(w, me, srv, origin) ==>
              && (move.CrashNow? || move.RetryNow?)
              && (move.CrashNow? ==> Moved(w, me, srv, move) == w && !Good(w, me, srv, origin))
              && (move.RetryNow? ==> !Fate(w, srv, origin))
    ensures Good(w, me, srv, origin) ==> !move.RetryNow?
  {
    hide BaseOk, FreshChoice, Placeable;
  }

  lemma {:induction false} HistoryIsGood(worlds: seq<World>, servers: seq<Server>, moves: seq<Move>, me: Uuid,
                                         origin: Remote, i: nat)
    requires History(worlds, servers, moves, me) && OnCourse(worlds[0], me, servers[0], origin) && i < |worlds|
    ensures OnCourse(worlds[i], me, servers[i], origin)
            && Fate(worlds[i], servers[i], origin) == Fate(worlds[0], servers[0], origin)
  {
    hide OnCourse, Allowed, Moved, ServerMoved, Fate;
    if i > 0 {
      HistoryIsGood(worlds, servers, moves, me, origin, i - 1);
      assert MovesTo(worlds[i - 1], me, servers[i - 1], moves[i - 1], worlds[i], servers[i]);
      MoveKeepsGood(worlds[i - 1], me, servers[i - 1], origin, moves[i - 1]);
    }
  }

  // What one move can do to the candidate.
  predicate KeepsCandidate(w: World, srv: Server, t: World, after: Server) {
    && (w.job.Some? && w.job.value.candidate.Some? && t.job.Some? ==> t.job.value.candidate == w.job.value.candidate)
    && (srv.stored.Some? ==> after.stored.Some? && after.stored.value.asset == srv.stored.value.asset)
    && (w.pc == Uploading && w.job.Some? ==> w.job.value.candidate == None)
    && |t.published| <= 1 && w.published <= t.published
  }

  // Over the whole history the server keeps the first asset that was created,
  // the job records that one and no other, no upload is sent once it is
  // recorded, and the catalog is told at most once.
  lemma HistoryKeepsCandidate(worlds: seq<World>, servers: seq<Server>, moves: seq<Move>, me: Uuid, origin: Remote,
                              i: nat)
    requires History(worlds, servers, moves, me) && OnCourse(worlds[0], me, servers[0], origin) && i < |moves|
    ensures KeepsCandidate(worlds[i], servers[i], worlds[i + 1], servers[i + 1])
    ensures worlds[i].job.Some? && worlds[i].job.value.candidate.Some? ==>
              servers[i].stored.Some? && worlds[i].job.value.candidate == Some(servers[i].stored.value.asset.id)
  {
    hide OnCourse, Allowed, KeepsCandidate;
    HistoryIsGood(worlds, servers, moves, me, origin, i);
    HistoryIsGood(worlds, servers, moves, me, origin, i + 1);
    assert MovesTo(worlds[i], me, servers[i], moves[i], worlds[i + 1], servers[i + 1]);
    MoveKeepsCandidate(worlds[i], me, servers[i], origin, moves[i]);
    CandidateIsStored(worlds[i], me, servers[i], origin);
  }

  lemma BaseHere(w: World, me: Uuid, srv: Server, origin: Remote)
    requires OnCourse(w, me, srv, origin) && w.job.Some?
    ensures BaseOk(w, me, srv, origin)
  {
    hide BaseOk, RunOk, Shaped;
  }

  lemma CandidateIsStored(w: World, me: Uuid, srv: Server, origin: Remote)
    requires OnCourse(w, me, srv, origin)
    ensures w.job.Some? && w.job.value.candidate.Some? ==>
              srv.stored.Some? && w.job.value.candidate == Some(srv.stored.value.asset.id)
  {
    hide OnCourse, BaseOk, Inv;
    if w.job.Some? {
      BaseHere(w, me, srv, origin);
      SourceRow(w, me, srv, origin);
    }
  }

  lemma MoveKeepsCandidate(w: World, me: Uuid, srv: Server, origin: Remote, move: Move)
    requires OnCourse(w, me, srv, origin) && Allowed(w, move)
    ensures KeepsCandidate(w, srv, Moved(w, me, srv, move), ServerMoved(w, me, srv, move))
  {
    hide OnCourse, BaseOk, Inv, Go, Lost, ByHand, Served, ServedIf, Apply, Shaped;
    var t, after := Moved(w, me, srv, move), ServerMoved(w, me, srv, move);
    MoveKeepsGood(w, me, srv, origin, move);
    BaseHere(w, me, srv, origin);
    AtMostOnce(w, me, srv, origin);
    AtMostOnce(t, me, after, origin);
    UploadsUnrecorded(w, me, srv, origin);
    InvHere(w, me, srv, origin);
    MoveGrows(w, me, srv, move);
    hide Moved, ServerMoved, Allowed;
  }

  predicate Keeps(w: World, t: World) {
    && (w.job.Some? && w.job.value.candidate.Some? && t.job.Some? ==> t.job.value.candidate == w.job.value.candidate)
    && w.published <= t.published
  }

  // The calls that a run makes on its job's manifest keep the candidate.
  lemma CallsKeepCandidate(m: Manifest, n: Manifest)
    requires Inv(m) && m.candidate.Some?
    ensures forall revision :: After(m, Attempt(m, Some(revision))).candidate == m.candidate
    ensures After(m, Admit(m, n)).candidate == m.candidate
    ensures forall id :: After(m, RecordCandidate(m, id)).candidate == m.candidate
    ensures After(m, BeginReplacing(m)).candidate == m.candidate
    ensures After(m, Commit(m)).candidate == m.candidate
    ensures forall code :: After(m, Block(m, code)).candidate == m.candidate
    ensures forall at, code :: After(m, Retry(m, at, code, None)).candidate == m.candidate
  {
    hide Inv, Valid;
  }

  lemma NextKeeps(w: World, me: Uuid, in_: Input)
    requires w.pc != Idle && Shaped(w) && (w.job.Some? ==> Inv(w.job.value))
    ensures Keeps(w, Saga.Next(w, me, in_))
  {
    if w.job.Some? && w.job.value.candidate.Some? { CallsKeepCandidate(w.job.value, w.run.job); }
    hide Inv, Attempt, Admit, RecordCandidate, BeginReplacing, Commit, Block, Retry;
    if Reviewing(w.pc) {
      if Listing(w.pc) { ListsKeep(w, me, in_); } else { ReviewKeeps(w, me, in_); }
    } else {
      ElsewhereKeeps(w, me, in_);
    }
    hide Saga.Next, Keeps;
  }

  lemma FailKeeps<T>(w: World, reply: Saga.Reply<T>)
    ensures Keeps(w, Fail(w, reply))
  {
  }

  lemma ListKeeps(w: World, in_: Input, id: Uuid, which: nat, pc: Pc)
    ensures Keeps(w, ReadAlbums(w, in_, id, which, pc)) && Keeps(w, CheckAlbums(ReadAlbums(w, in_, id, which, pc), pc))
  {
    hide Fail;
    FailKeeps(w, in_.albums);
  }

  lemma ListsKeep(w: World, me: Uuid, in_: Input)
    requires Listing(w.pc) && Shaped(w)
    ensures Keeps(w, Saga.Next(w, me, in_))
  {
    NextAt(w, me, in_);
    hide Keeps, Saga.Next, ReadAlbums, CheckAlbums, Shaped;
    var source, candidate := w.run.source.value.asset.id, w.run.first.value.id;
    match w.pc
    case ResumedAlbums1 => ListKeeps(w, in_, candidate, 1, ResumedAlbums2);
    case ResumedAlbums2 => ListKeeps(w, in_, candidate, 2, RereadCandidate);
    case SourceAlbums1 => ListKeeps(w, in_, source, 1, SourceAlbums2);
    case SourceAlbums2 => ListKeeps(w, in_, source, 2, Copying);
    case SourceAlbums3 => ListKeeps(w, in_, source, 1, SourceAlbums4);
    case SourceAlbums4 => ListKeeps(w, in_, source, 2, CandidateAlbums1);
    case CandidateAlbums1 => ListKeeps(w, in_, candidate, 3, CandidateAlbums2);
    case CandidateAlbums2 => ListKeeps(w, in_, candidate, 4, ConfirmSource);
  }

  // A step that only reads, or sends a request.
  lemma StillKeeps(w: World, v: World)
    requires v.job == w.job && v.published == w.published
    ensures Keeps(w, v)
  {
  }

  lemma ReviewKeeps(w: World, me: Uuid, in_: Input)
    requires Reviewing(w.pc) && !Listing(w.pc) && Shaped(w)
    ensures Keeps(w, Saga.Next(w, me, in_))
  {
    hide UploadMatches, SourceMatches, CandidateMatches, Publishable, Publish, Keeps, Retired;
    if w.pc == Publishing {
      PublishingKeeps(w, me, in_);
    } else {
      StillKeeps(w, Saga.Next(w, me, in_));
    }
  }

  lemma PublishingKeeps(w: World, me: Uuid, in_: Input)
    requires w.pc == Publishing && Shaped(w)
    ensures Keeps(w, Saga.Next(w, me, in_))
  {
    hide Publishable, Publish, Retired;
  }

  ghost predicate CallsKeep(w: World) {
    w.job.Some? && w.job.value.candidate.Some? ==>
      var m := w.job.value;
      && (forall revision :: After(m, Attempt(m, Some(revision))).candidate == m.candidate)
      && After(m, Admit(m, w.run.job)).candidate == m.candidate
      && (forall id :: After(m, RecordCandidate(m, id)).candidate == m.candidate)
      && After(m, BeginReplacing(m)).candidate == m.candidate
      && After(m, Commit(m)).candidate == m.candidate
      && (forall code :: After(m, Block(m, code)).candidate == m.candidate)
      && (forall at, code :: After(m, Retry(m, at, code, None)).candidate == m.candidate)
  }

  // The points at which nothing is written.
  predicate OnlyReads(pc: Pc) {
    || pc == Begin || pc == CheckLocal || pc == ReadSource || pc == Uploading || pc == ReadCandidate || pc == ReadMarker
    || pc == AddLocally || pc == Showing || pc == Pinning
  }

  lemma ReadingKeeps(w: World, me: Uuid, in_: Input)
    requires OnlyReads(w.pc) && Shaped(w)
    ensures Keeps(w, Saga.Next(w, me, in_))
  {
    hide AlreadyPublished, LocalSourceOk, UploadMatches, SourceMatches, CandidateMatches, SameManagedChecksum,
         TakenNames, Attempt, Admit, RecordCandidate, BeginReplacing, Commit, Cancel, Block, Retry, After, Keeps;
    StillKeeps(w, Saga.Next(w, me, in_));
  }

  lemma WritingKeeps(w: World, me: Uuid, in_: Input)
    requires w.pc != Idle && !Reviewing(w.pc) && !OnlyReads(w.pc) && Shaped(w) && CallsKeep(w)
    ensures Keeps(w, Saga.Next(w, me, in_))
  {
    hide AlreadyPublished, LocalSourceOk, UploadMatches, SourceMatches, CandidateMatches, SameManagedChecksum,
         TakenNames, Attempt, Admit, RecordCandidate, BeginReplacing, Commit, Cancel, Block, Retry, After;
  }

  lemma ElsewhereKeeps(w: World, me: Uuid, in_: Input)
    requires w.pc != Idle && !Reviewing(w.pc) && Shaped(w) && CallsKeep(w)
    ensures Keeps(w, Saga.Next(w, me, in_))
  {
    hide Keeps, CallsKeep, Saga.Next, Shaped;
    if OnlyReads(w.pc) { ReadingKeeps(w, me, in_); } else { WritingKeeps(w, me, in_); }
  }

  lemma MoveGrows(w: World, me: Uuid, srv: Server, move: Move)
    requires Allowed(w, move) && Inv(w.job.value)
    ensures Keeps(w, Moved(w, me, srv, move))
    ensures srv.stored.Some? ==>
              var after := ServerMoved(w, me, srv, move);
              after.stored.Some? && after.stored.value.asset == srv.stored.value.asset
  {
    ServerGrows(w, me, srv, move);
    hide ServerMoved, Go, Lost, ByHand, Apply, Inv, Shaped, FreshChoice, Keeps, Served;
    match move
    case Proceed(c) => GoKeeps(w, me, srv, c);
    case Lose(c, _) => LostKeeps(w, me, c);
    case CrashNow => CrashKeeps(w, me);
    case RetryNow(at) => ByHandKeeps(w, me, at);
  }

  lemma ServerGrows(w: World, me: Uuid, srv: Server, move: Move)
    ensures srv.stored.Some? ==>
              var after := ServerMoved(w, me, srv, move);
              after.stored.Some? && after.stored.value.asset == srv.stored.value.asset
  {
    hide Created;
  }

  lemma GoKeeps(w: World, me: Uuid, srv: Server, c: Choice)
    requires Shaped(w) && w.job.Some? && Inv(w.job.value)
    ensures Keeps(w, Go(w, me, srv, c))
  {
    hide Saga.Next, Inv, Shaped, Served, Replies;
    if w.pc != Idle { NextKeeps(w, me, Replies(w, Served(w, me, srv, c), c)); }
  }

  lemma LostKeeps(w: World, me: Uuid, c: Choice)
    requires Shaped(w) && w.job.Some? && Inv(w.job.value) && Asks(w.pc)
    ensures Keeps(w, Lost(w, me, c))
  {
    hide Saga.Next, Inv, Shaped, Keeps;
    NextKeeps(w, me, NoReply(c));
  }

  lemma CrashKeeps(w: World, me: Uuid)
    requires Shaped(w) && w.job.Some?
    ensures Keeps(w, Apply(w, me, Crash))
  {
    hide Shaped, Saga.Next;
  }

  lemma ByHandKeeps(w: World, me: Uuid, at: nat)
    requires Shaped(w) && w.job.Some? && Inv(w.job.value)
    ensures Keeps(w, ByHand(w, me, at))
  {
    hide Inv, Valid, SameJob, Shaped, Saga.Next, Retry;
    RetryFacts(w.job.value, at, None, Some(w.job.value.revision));
  }

  lemma AtMostOnce(w: World, me: Uuid, srv: Server, origin: Remote)
    requires OnCourse(w, me, srv, origin)
    ensures |w.published| <= 1
  {
    if w.job.Some? {
      BaseHere(w, me, srv, origin);
      InvHere(w, me, srv, origin);
    }
    hide Good, Stuck, BaseOk;
  }

  lemma UploadsUnrecorded(w: World, me: Uuid, srv: Server, origin: Remote)
    requires OnCourse(w, me, srv, origin)
    ensures w.pc == Uploading && w.job.Some? ==> w.job.value.candidate == None
  {
    hide BaseOk, Shaped, Placeable;
  }

  // A run without crashes and losses: it ends, and how it ends is up to the name
  // of the source. Either the job has been published and removed, or the source
  // is in the trash, nothing is in its place, and the job is blocked.
  lemma {:induction false} GoingOnFinishes(w: World, me: Uuid, srv: Server, origin: Remote, pick: World -> Choice)
    returns (worlds: seq<World>, servers: seq<Server>, moves: seq<Move>)
    requires Good(w, me, srv, origin) && w.job.Some? && forall u :: FreshChoice(u, pick(u))
    ensures |worlds| == |moves| + 1 && |moves| <= 43 && History(worlds, servers, moves, me)
    ensures worlds[0] == w && servers[0] == srv && forall move | move in moves :: move.Proceed?
    ensures if Fate(w, srv, origin) then Done(worlds[|moves|], origin.id)
            else Stuck(worlds[|moves|], me, servers[|moves|], origin)
    ensures |moves| <= Rank(w, srv) + 1
    decreases Rank(w, srv)
  {
    hide Good, Stuck, Go, FreshChoice, BaseOk, RunOk, Served, Rank, OnCourse, Shaped, History, Fate;
    GoodParts(w, me, srv, origin);
    var c := pick(w);
    StartsWorking(w, srv, origin);
    EveryStepHelps(w, me, srv, origin, c);
    var t, after := Go(w, me, srv, c), Served(w, me, srv, c);
    RankBound(w, srv);
    OneMove(w, me, srv, Proceed(c), t, after);
    WithJob(t, me, after, origin);
    if Ended(t, me, after, origin) {
      DoneFate(t, after, origin);
      worlds, servers, moves := [w, t], [srv, after], [Proceed(c)];
    } else {
      worlds, servers, moves := GoingOnFinishes(t, me, after, origin, pick);
      Prepend(worlds, servers, moves, me, w, srv, Proceed(c));
      worlds, servers, moves := [w] + worlds, [srv] + servers, [Proceed(c)] + moves;
    }
  }

  // Whatever crashes, losses and retries there were: a job ends published only
  // if its source's name is not marked first and the catalog did not have its
  // candidate already, and stuck only if one of them is so.
  lemma EndsWellIff(worlds: seq<World>, servers: seq<Server>, moves: seq<Move>, me: Uuid, origin: Remote, i: nat)
    requires History(worlds, servers, moves, me) && Good(worlds[0], me, servers[0], origin) && i < |worlds|
    requires worlds[0].published == [] && CatalogOk(worlds[0].entries, worlds[0].nextInode)
    requires Names.Practical(|OthersNames(worlds[0].entries, origin.id)| + 1)
    ensures origin.id in worlds[0].entries
    ensures var added := servers[0].stored.Some? && servers[0].stored.value.asset.id in worlds[0].entries;
            && (Done(worlds[i], origin.id) ==> !MarkedFirst(worlds[0].entries, origin.id) && !added)
            && (Stuck(worlds[i], me, servers[i], origin) ==> MarkedFirst(worlds[0].entries, origin.id) || added)
  {
    var w := worlds[0];
    hide History, BaseOk, RunOk, Shaped, Inv, Renamable, MarkedFirst, SourceMatches, UploadMatches, CandidateMatches;
    GoodParts(w, me, servers[0], origin);
    WithJob(w, me, servers[0], origin);
    HistoryIsGood(worlds, servers, moves, me, origin, i);
    SourceRow(w, me, servers[0], origin);
    SourceNameIsSafe(w.job.value);
    RenamableIffUnmarked(w.entries, origin.id);
    DoneFate(worlds[i], servers[i], origin);
    WithJob(worlds[i], me, servers[i], origin);
  }

  lemma SourceNameIsSafe(m: Manifest)
    requires Inv(m) && m.operation == Replacement
    ensures m.source.Some? && Names.Safe(m.source.value.name, Names.LIMIT)
  {
  }

  lemma DoneFate(w: World, srv: Server, origin: Remote)
    ensures Done(w, origin.id) ==> Fate(w, srv, origin)
  {
    hide Placeable;
  }

  lemma StartsWorking(w: World, srv: Server, origin: Remote)
    requires w.job.Some? && RunOk(w, srv, origin)
    ensures w.pc == Idle ==> Working(w.job.value)
  {
  }

  lemma OneMove(w: World, me: Uuid, srv: Server, move: Move, t: World, after: Server)
    requires MovesTo(w, me, srv, move, t, after)
    ensures History([w, t], [srv, after], [move], me)
  {
    hide MovesTo;
  }

  lemma RankBound(w: World, srv: Server)
    ensures Rank(w, srv) <= 42
  {
  }

  lemma Prepend(worlds: seq<World>, servers: seq<Server>, moves: seq<Move>, me: Uuid, w: World, srv: Server, move: Move)
    requires History(worlds, servers, moves, me) && MovesTo(w, me, srv, move, worlds[0], servers[0])
    ensures History([w] + worlds, [srv] + servers, [move] + moves, me)
  {
    hide MovesTo;
    var ws, ss, ms := [w] + worlds, [srv] + servers, [move] + moves;
    forall i | 0 <= i < |ms| ensures MovesTo(ws[i], me, ss[i], ms[i], ws[i + 1], ss[i + 1]) {
      if i > 0 { assert ms[i] == moves[i - 1]; }
    }
  }
}
