// The catalog's tables and what their rows mean together:
// src/immich_on_demand/catalog.py.
//
// A directory is named by its identity where the source's tables name it by
// its inode; DirsOk says that the two go together.
module CatalogTables {
  import opened Options
  import Names

  type Id = string

  type Inode = nat

  const ROOT: Inode := 1

  // A local date, split into the texts that its directories are called.
  datatype Day = Day(year: string, month: string, day: string)

  datatype Identity =
    | ViewAll
    | ViewAlbums
    | ViewFavorites
    | ViewPeople
    | ViewDate
    | YearDir(year: string)
    | MonthDir(year: string, month: string)
    | DayDir(day: Day)
    | AlbumDir(id: Id)
    | PersonDir(id: Id)

  datatype Asset = Asset(
    owner: Id,
    originalName: string,
    mime: string,
    size: Option<nat>,
    created: int,
    updatedAt: string,
    checksum: string,
    visibility: string,
    trashed: bool,
    offline: bool,
    library: Option<Id>,
    date: Option<Day>,
    favorite: bool,
    motion: Option<Id>)       // the video of a Live Photo

  datatype Row = Row(inode: Inode, name: string, asset: Asset)

  datatype Dir = Dir(inode: Inode, parent: Inode, name: string, active: bool)

  type Assets = map<Id, Row>

  type Dirs = map<Identity, Dir>

  type Links = set<(Identity, Id)>

  datatype Tables = Tables(assets: Assets, dirs: Dirs, links: Links, memberships: Links, pins: set<Id>, next: Inode)

  // ------------------------------------------------------------ directories

  predicate Fixed(d: Identity) {
    d.ViewAll? || d.ViewAlbums? || d.ViewFavorites? || d.ViewPeople? || d.ViewDate?
  }

  predicate Dated(d: Identity) {
    d.YearDir? || d.MonthDir? || d.DayDir?
  }

  predicate Collection(d: Identity) {
    d.AlbumDir? || d.PersonDir?
  }

  function ParentOf(d: Identity): Identity
    requires !Fixed(d)
  {
    match d
    case YearDir(_) => ViewDate
    case MonthDir(year, _) => YearDir(year)
    case DayDir(day) => MonthDir(day.year, day.month)
    case AlbumDir(_) => ViewAlbums
    case _ => ViewPeople
  }

  function FixedName(d: Identity): string
    requires Fixed(d)
  {
    match d
    case ViewAll => "All"
    case ViewAlbums => "Albums"
    case ViewFavorites => "Favorites"
    case ViewPeople => "People"
    case _ => "by Date"
  }

  function DateName(d: Identity): string
    requires Dated(d)
  {
    match d
    case YearDir(year) => year
    case MonthDir(_, month) => month
    case DayDir(day) => day.day
  }

  function StableId(d: Identity): Id
    requires Collection(d)
  {
    match d
    case AlbumDir(id) => id
    case PersonDir(id) => id
  }

  const FIXED: set<Identity> := {ViewAll, ViewAlbums, ViewFavorites, ViewPeople, ViewDate}

  // One directory's place, name and state.
  ghost predicate DirOk(dirs: Dirs, d: Identity)
    requires d in dirs
  {
    if Fixed(d) then dirs[d].parent == ROOT && dirs[d].name == FixedName(d) && dirs[d].active
    else
      && ParentOf(d) in dirs && dirs[d].parent == dirs[ParentOf(d)].inode
      && if Dated(d) then dirs[d].name == DateName(d)
         else Names.CanonicalId(StableId(d)) && Names.Safe(dirs[d].name, Names.LIMIT)
  }

  // Inodes and names as the UNIQUE constraints want them.
  ghost predicate DirsDistinct(dirs: Dirs) {
    forall d, e | d in dirs && e in dirs && d != e ::
      && dirs[d].inode != dirs[e].inode
      && (dirs[d].parent == dirs[e].parent ==> dirs[d].name != dirs[e].name)
  }

  ghost predicate DirsOk(dirs: Dirs) {
    && FIXED <= dirs.Keys
    && (forall d | d in dirs :: DirOk(dirs, d))
    && DirsDistinct(dirs)
  }

  ghost predicate AssetsDistinct(assets: Assets) {
    forall a, b | a in assets && b in assets && a != b ::
      assets[a].inode != assets[b].inode && assets[a].name != assets[b].name
  }

  ghost predicate AssetsOk(assets: Assets) {
    && (forall a | a in assets :: Names.CanonicalId(a) && Names.Safe(assets[a].name, Names.LIMIT))
    && AssetsDistinct(assets)
  }

  // Every inode was handed out once, for an asset or for a directory.
  ghost predicate InodesOk(assets: Assets, dirs: Dirs, next: Inode) {
    && 2 <= next
    && (forall a | a in assets :: 2 <= assets[a].inode < next)
    && (forall d | d in dirs :: 2 <= dirs[d].inode < next)
    && (forall a, d | a in assets && d in dirs :: assets[a].inode != dirs[d].inode)
  }

  // ------------------------------------------------------------- projection

  predicate Showable(asset: Asset) {
    asset.size.Some? && !asset.trashed && !asset.offline && asset.visibility != "hidden"
  }

  // The video of some Live Photo.
  predicate Pointed(assets: Assets, id: Id) {
    exists still | still in assets :: assets[still].asset.motion == Some(id)
  }

  predicate Standalone(assets: Assets, id: Id) {
    id in assets && Showable(assets[id].asset) && !Pointed(assets, id)
  }

  function Collections(dirs: Dirs, memberships: Links, id: Id): set<Identity> {
    set m | m in memberships && m.1 == id && m.0 in dirs && dirs[m.0].active :: m.0
  }

  // The directories that an asset is listed in, from scratch.
  function Homes(dirs: Dirs, memberships: Links, id: Id, asset: Asset): set<Identity> {
    {ViewAll} + (if asset.favorite then {ViewFavorites} else {})
    + (if asset.date.Some? then {DayDir(asset.date.value)} else {})
    + Collections(dirs, memberships, id)
  }

  function Projected(t: Tables, id: Id): set<Identity> {
    if Standalone(t.assets, id) then Homes(t.dirs, t.memberships, id, t.assets[id].asset) else {}
  }

  // What _replace_namespace computes from the other tables.
  function Projection(t: Tables): Links {
    set id, d | id in t.assets && d in Projected(t, id) :: (d, id)
  }

  lemma InProjection(t: Tables, link: (Identity, Id))
    ensures link in Projection(t) <==> link.0 in Projected(t, link.1)
  {
    hide Homes, Pointed, Showable;
  }

  // The same in the fields of the rows, apart from the projection: an asset is
  // listed nowhere if it has no size, is in the trash, offline or hidden, or if
  // some asset names it as its video; otherwise under All, under Favorites if it
  // is one, in its day, and in its collections that are there.
  ghost predicate BelongsIn(assets: Assets, dirs: Dirs, memberships: Links, id: Id, d: Identity) {
    && id in assets
    && var asset := assets[id].asset;
       && asset.size.Some? && !asset.trashed && !asset.offline && asset.visibility != "hidden"
       && (forall still | still in assets :: assets[still].asset.motion != Some(id))
       && (|| d == ViewAll
           || (d == ViewFavorites && asset.favorite)
           || (d.DayDir? && asset.date == Some(d.day))
           || ((d, id) in memberships && d in dirs && dirs[d].active))
  }

  lemma ProjectedIffBelongs(t: Tables, id: Id, d: Identity)
    ensures d in Projected(t, id) <==> BelongsIn(t.assets, t.dirs, t.memberships, id, d)
  {
  }

  lemma AllBelong(t: Tables, id: Id)
    ensures forall d :: d in Projected(t, id) <==> BelongsIn(t.assets, t.dirs, t.memberships, id, d)
  {
    forall d ensures d in Projected(t, id) <==> BelongsIn(t.assets, t.dirs, t.memberships, id, d) {
      ProjectedIffBelongs(t, id, d);
    }
  }

  // ---------------------------------------------------------- date activity

  predicate Above(d: Identity, day: Day) {
    d == YearDir(day.year) || d == MonthDir(day.year, day.month) || d == DayDir(day)
  }

  // Whether an asset is listed in a day's directory, or below a year's or a
  // month's.
  predicate LinkedBelow(links: Links, d: Identity) {
    exists link | link in links :: link.0.DayDir? && Above(d, link.0.day)
  }

  ghost predicate DatesOk(dirs: Dirs, links: Links) {
    forall d | d in dirs && Dated(d) :: dirs[d].active <==> LinkedBelow(links, d)
  }

  ghost predicate LinkTargetsOk(dirs: Dirs, links: Links) {
    forall link | link in links :: link.0 in dirs
  }

  ghost predicate MembershipsOk(t: Tables) {
    forall m | m in t.memberships ::
      m.1 in t.assets && m.0 in t.dirs && Collection(m.0) && t.dirs[m.0].active
  }

  // -------------------------------------------------------------- invariant

  ghost predicate LinksOk(t: Tables) {
    t.links == Projection(t)
  }

  // Everything but the links.
  ghost predicate FrameOk(t: Tables) {
    && AssetsOk(t.assets) && DirsOk(t.dirs) && InodesOk(t.assets, t.dirs, t.next) && MembershipsOk(t)
  }

  ghost predicate Inv(t: Tables) {
    && FrameOk(t)
    && LinkTargetsOk(t.dirs, t.links) && DatesOk(t.dirs, t.links)
    && LinksOk(t)
  }

  // ---------------------------------------------- the program's own checks

  // _namespace_is_valid, clause by clause.
  ghost predicate NamespaceIsValid(t: Tables) {
    && FixedAreValid(t) && LinksAreValid(t) && MembershipsAreValid(t) && IdentitiesAreValid(t)
    && CollectionsAreValid(t) && DatesAreValid(t)
  }

  ghost predicate FixedAreValid(t: Tables) {
    forall d | Fixed(d) ::
      d in t.dirs && t.dirs[d].parent == ROOT && t.dirs[d].name == FixedName(d) && t.dirs[d].active
  }

  // No asset names it as its video.
  ghost predicate NoVideoOf(assets: Assets, id: Id) {
    forall still | still in assets :: assets[still].asset.motion != Some(id)
  }

  ghost predicate LinksAreValid(t: Tables) {
    forall link | link in t.links ::
      && link.0 in t.dirs && t.dirs[link.0].active
      && link.1 in t.assets
      && t.assets[link.1].asset.size.Some? && !t.assets[link.1].asset.trashed && !t.assets[link.1].asset.offline
      && t.assets[link.1].asset.visibility != "hidden" && NoVideoOf(t.assets, link.1)
      && (link.0 == ViewAll || link.0 == ViewFavorites || link.0.DayDir? || Collection(link.0))
  }

  ghost predicate MembershipsAreValid(t: Tables) {
    forall m | m in t.memberships :: m.0 in t.dirs && t.dirs[m.0].active && m.1 in t.assets && Collection(m.0)
  }

  // The identities of an asset's links against those that it should have; here
  // a membership counts whether or not its directory is active.
  ghost predicate IdentitiesAreValid(t: Tables) {
    forall id, d | id in t.assets ::
      (d, id) in t.links <==>
        && t.assets[id].asset.size.Some? && !t.assets[id].asset.trashed && !t.assets[id].asset.offline
        && t.assets[id].asset.visibility != "hidden" && NoVideoOf(t.assets, id)
        && (|| d == ViewAll
            || (d == ViewFavorites && t.assets[id].asset.favorite)
            || (d.DayDir? && t.assets[id].asset.date == Some(d.day))
            || (d, id) in t.memberships)
  }

  ghost predicate CollectionsAreValid(t: Tables) {
    forall d | d in t.dirs && Collection(d) ::
      && Names.CanonicalId(StableId(d))
      && ParentOf(d) in t.dirs && t.dirs[d].parent == t.dirs[ParentOf(d)].inode
      && Names.SafeFilename(t.dirs[d].name, StableId(d), Names.LIMIT) == t.dirs[d].name
  }

  ghost predicate HasLiveChild(t: Tables, inode: Inode) {
    exists c | c in t.dirs :: t.dirs[c].parent == inode && t.dirs[c].active
  }

  ghost predicate HasLink(t: Tables, d: Identity) {
    exists link | link in t.links :: link.0 == d
  }

  ghost predicate DatesAreValid(t: Tables) {
    forall d | d in t.dirs && Dated(d) ::
      && ParentOf(d) in t.dirs && t.dirs[d].parent == t.dirs[ParentOf(d)].inode
      && t.dirs[d].name == DateName(d)
      && (t.dirs[d].active <==> HasLiveChild(t, t.dirs[d].inode) || HasLink(t, d))
  }

  predicate Video(mime: string) {
    (|mime| >= 6 && mime[..6] == "video/") || mime == "application/mxf"
  }

  // What the server says of the assets, without inodes and names.
  function Contents(assets: Assets): map<Id, Asset> {
    map id | id in assets :: assets[id].asset
  }

  // _live_photo_relationships_are_valid.
  predicate LivePhotosOk(contents: map<Id, Asset>) {
    forall id | id in contents && contents[id].motion.Some? ::
      var motion := contents[id].motion.value;
      motion != id && motion in contents && contents[motion].owner == contents[id].owner && Video(contents[motion].mime)
  }

  // ------------------------------------------------------ every state passes

  lemma LinksShape(t: Tables, link: (Identity, Id))
    requires LinksOk(t) && MembershipsOk(t) && link in t.links
    ensures Standalone(t.assets, link.1) && link.1 in t.assets
    ensures link.0 == ViewAll || link.0 == ViewFavorites || link.0.DayDir? || Collection(link.0)
    ensures Collection(link.0) ==> link.0 in t.dirs && t.dirs[link.0].active
  {
    InProjection(t, link);
    hide Showable, Pointed;
  }

  lemma {:induction false} LinkedHasChildOrLink(t: Tables, d: Identity)
    requires Inv(t) && d in t.dirs && Dated(d)
    ensures t.dirs[d].active <==> HasLiveChild(t, t.dirs[d].inode) || HasLink(t, d)
  {
    hide LinksOk, Projection, AssetsOk;
    if LinkedBelow(t.links, d) {
      var link :| link in t.links && link.0.DayDir? && Above(d, link.0.day);
      ChildTowards(t, link, d);
    }
    if HasLiveChild(t, t.dirs[d].inode) { LiveChildIsLinked(t, d); }
    if HasLink(t, d) { LinkIsDayDir(t, d); }
  }

  // On the way from a linked day up to a directory above it there is a child.
  lemma ChildTowards(t: Tables, link: (Identity, Id), d: Identity)
    requires Inv(t) && d in t.dirs && link in t.links && link.0.DayDir? && Above(d, link.0.day)
    ensures HasLiveChild(t, t.dirs[d].inode) || HasLink(t, d)
  {
    hide LinksOk, AssetsOk, InodesOk, MembershipsOk, DirsDistinct;
    var day := link.0.day;
    if d != DayDir(day) {
      var child := if d == MonthDir(day.year, day.month) then DayDir(day) else MonthDir(day.year, day.month);
      assert DirOk(t.dirs, DayDir(day));
      assert child in t.dirs && Above(child, day);
      assert DirOk(t.dirs, child);
      assert t.dirs[child].parent == t.dirs[d].inode && t.dirs[child].active;
    }
  }

  lemma LiveChildIsLinked(t: Tables, d: Identity)
    requires Inv(t) && d in t.dirs && Dated(d) && HasLiveChild(t, t.dirs[d].inode)
    ensures LinkedBelow(t.links, d)
  {
    hide LinksOk, AssetsOk, InodesOk, MembershipsOk, DirsOk, LinkTargetsOk, LinkedBelow;
    var c :| c in t.dirs && t.dirs[c].parent == t.dirs[d].inode && t.dirs[c].active;
    ChildOf(t, d, c);
    assert Dated(c) && LinkedBelow(t.links, c);
    LinkedAbove(t.links, c, d);
  }

  lemma LinkedAbove(links: Links, c: Identity, d: Identity)
    requires Dated(c) && Dated(d) && ParentOf(c) == d && LinkedBelow(links, c)
    ensures LinkedBelow(links, d)
  {
    var link :| link in links && link.0.DayDir? && Above(c, link.0.day);
    assert Above(d, link.0.day);
  }

  lemma SameInode(dirs: Dirs, d: Identity, e: Identity)
    requires DirsOk(dirs) && d in dirs && e in dirs && dirs[d].inode == dirs[e].inode
    ensures d == e
  {
    hide DirOk;
  }

  // A directory's children are those whose identity says so.
  lemma ChildOf(t: Tables, d: Identity, c: Identity)
    requires DirsOk(t.dirs) && InodesOk(t.assets, t.dirs, t.next) && d in t.dirs && c in t.dirs
    requires t.dirs[c].parent == t.dirs[d].inode
    ensures !Fixed(c) && ParentOf(c) == d
  {
    assert DirOk(t.dirs, c);
    if !Fixed(c) {
      SameInode(t.dirs, ParentOf(c), d);
    }
  }

  lemma LinkIsDayDir(t: Tables, d: Identity)
    requires Inv(t) && Dated(d) && HasLink(t, d)
    ensures LinkedBelow(t.links, d)
  {
    hide AssetsOk, InodesOk, DirsOk, DatesOk, LinksOk;
    var link :| link in t.links && link.0 == d;
    LinksShape(t, link);
    assert d.DayDir? && Above(d, d.day);
  }

  // Where an asset is listed, field by field.
  lemma ListedExactly(t: Tables, id: Id, d: Identity)
    requires Inv(t)
    ensures (d, id) in t.links <==> BelongsIn(t.assets, t.dirs, t.memberships, id, d)
  {
    hide AssetsOk, InodesOk, DirsOk, DatesOk, LinkTargetsOk, Projected, BelongsIn;
    InProjection(t, (d, id));
    ProjectedIffBelongs(t, id, d);
    hide Projection;
  }

  // A catalog that satisfies the invariant passes the check that the program
  // makes before it serves one offline.
  lemma InvPassesNamespaceCheck(t: Tables)
    requires Inv(t)
    ensures NamespaceIsValid(t)
  {
    hide Inv, NamespaceIsValid, FixedAreValid, LinksAreValid, MembershipsAreValid, IdentitiesAreValid,
         CollectionsAreValid, DatesAreValid;
    FixedPass(t);
    LinksPass(t);
    IdentitiesPass(t);
    CollectionsPass(t);
    DatesPass(t);
    AllPass(t);
  }

  lemma AllPass(t: Tables)
    requires Inv(t)
    requires FixedAreValid(t) && LinksAreValid(t) && IdentitiesAreValid(t) && CollectionsAreValid(t) && DatesAreValid(t)
    ensures NamespaceIsValid(t)
  {
    hide FixedAreValid, LinksAreValid, IdentitiesAreValid, CollectionsAreValid, DatesAreValid, LinksOk, DirsOk,
         AssetsOk;
  }

  lemma FixedPass(t: Tables)
    requires Inv(t)
    ensures FixedAreValid(t)
  {
    hide LinksOk, AssetsOk, InodesOk, MembershipsOk, DirsDistinct, DatesOk;
    forall d | Fixed(d)
      ensures d in t.dirs && t.dirs[d].parent == ROOT && t.dirs[d].name == FixedName(d) && t.dirs[d].active
    {
      assert d in FIXED;
      assert DirOk(t.dirs, d);
    }
  }

  lemma LinksPass(t: Tables)
    requires Inv(t)
    ensures LinksAreValid(t)
  {
    hide AssetsOk, InodesOk, DirsDistinct, LinksOk;
    FixedPass(t);
    forall link | link in t.links
      ensures link.0 in t.dirs && t.dirs[link.0].active && Standalone(t.assets, link.1)
      ensures link.0 == ViewAll || link.0 == ViewFavorites || link.0.DayDir? || Collection(link.0)
    {
      LinksShape(t, link);
      if link.0.DayDir? { assert Above(link.0, link.0.day); }
    }
  }

  lemma IdentitiesPass(t: Tables)
    requires Inv(t)
    ensures IdentitiesAreValid(t)
  {
    hide AssetsOk, InodesOk, DirsOk, DatesOk, LinkTargetsOk, LinksOk;
    forall id, d | id in t.assets ensures (d, id) in t.links <==> BelongsIn(t.assets, t.dirs, t.memberships, id, d) {
      ListedExactly(t, id, d);
    }
  }

  lemma CollectionsPass(t: Tables)
    requires Inv(t)
    ensures CollectionsAreValid(t)
  {
    hide AssetsOk, InodesOk, LinksOk, DatesOk, DirsDistinct, MembershipsOk, Names.SafeFilename, Names.Safe,
         Names.CanonicalId;
    forall d | d in t.dirs && Collection(d)
      ensures Names.CanonicalId(StableId(d))
      ensures ParentOf(d) in t.dirs && t.dirs[d].parent == t.dirs[ParentOf(d)].inode
      ensures Names.SafeFilename(t.dirs[d].name, StableId(d), Names.LIMIT) == t.dirs[d].name
    {
      assert DirOk(t.dirs, d);
      Names.SafeFilenameFixedPoints(t.dirs[d].name, StableId(d), Names.LIMIT);
    }
  }

  lemma DatesPass(t: Tables)
    requires Inv(t)
    ensures DatesAreValid(t)
  {
    hide Inv, HasLiveChild, HasLink;
    forall d | d in t.dirs && Dated(d)
      ensures ParentOf(d) in t.dirs && t.dirs[d].parent == t.dirs[ParentOf(d)].inode && t.dirs[d].name == DateName(d)
      ensures t.dirs[d].active <==> HasLiveChild(t, t.dirs[d].inode) || HasLink(t, d)
    {
      DateDirPlace(t, d);
      LinkedHasChildOrLink(t, d);
    }
  }

  lemma DateDirPlace(t: Tables, d: Identity)
    requires Inv(t) && d in t.dirs && Dated(d)
    ensures ParentOf(d) in t.dirs && t.dirs[d].parent == t.dirs[ParentOf(d)].inode && t.dirs[d].name == DateName(d)
  {
    hide AssetsOk, InodesOk, LinksOk, DatesOk, DirsDistinct, MembershipsOk;
    assert DirOk(t.dirs, d);
  }
}
