// What the parts of a catalog transaction do to the tables.
module CatalogSteps {
  import opened Options
  import Names
  import opened CatalogTables

  lemma EmptyCatalogOk(t: Tables)
    requires t.assets == map[] && t.links == {} && t.memberships == {} && t.next == 7
    requires t.dirs == map[ViewAll := Dir(2, ROOT, "All", true),
                           ViewAlbums := Dir(3, ROOT, "Albums", true),
                           ViewFavorites := Dir(4, ROOT, "Favorites", true),
                           ViewPeople := Dir(5, ROOT, "People", true),
                           ViewDate := Dir(6, ROOT, "by Date", true)]
    ensures Inv(t)
  {
    hide LinksOk, DirsOk;
    EmptyDirsOk(t.dirs);
    NoLinksOk(t);
  }

  lemma EmptyDirsOk(dirs: Dirs)
    requires dirs == map[ViewAll := Dir(2, ROOT, "All", true),
                         ViewAlbums := Dir(3, ROOT, "Albums", true),
                         ViewFavorites := Dir(4, ROOT, "Favorites", true),
                         ViewPeople := Dir(5, ROOT, "People", true),
                         ViewDate := Dir(6, ROOT, "by Date", true)]
    ensures DirsOk(dirs)
  {
    hide DirsDistinct;
    EmptyDirsDistinct(dirs);
    FixedNamesAre();
    hide FixedName;
    assert FIXED <= dirs.Keys;
  }

  lemma EmptyDirsDistinct(dirs: Dirs)
    requires dirs == map[ViewAll := Dir(2, ROOT, "All", true),
                         ViewAlbums := Dir(3, ROOT, "Albums", true),
                         ViewFavorites := Dir(4, ROOT, "Favorites", true),
                         ViewPeople := Dir(5, ROOT, "People", true),
                         ViewDate := Dir(6, ROOT, "by Date", true)]
    ensures DirsDistinct(dirs)
  {
    FixedNamesDiffer();
    FixedNamesAre();
    hide FixedName;
    assert forall d | d in dirs :: Fixed(d) && dirs[d].name == FixedName(d);
  }

  lemma NoLinksOk(t: Tables)
    requires t.assets == map[] && t.links == {}
    ensures LinksOk(t)
  {
  }

  lemma FixedNamesAre()
    ensures FixedName(ViewAll) == "All" && FixedName(ViewAlbums) == "Albums" && FixedName(ViewFavorites) == "Favorites"
    ensures FixedName(ViewPeople) == "People" && FixedName(ViewDate) == "by Date"
  {
  }

  lemma FixedNamesDiffer()
    ensures forall d, e | Fixed(d) && Fixed(e) && d != e :: FixedName(d) != FixedName(e)
  {
    assert |"All"| == 3 && |"Albums"| == 6 && |"Favorites"| == 9 && |"People"| == 6 && |"by Date"| == 7;
    assert "Albums"[0] == 'A' && "People"[0] == 'P';
  }

  // ------------------------------------------------------------ directories

  function WithDir(dirs: Dirs, next: Inode, d: Identity, parent: Inode, name: string): Dirs {
    dirs[d := if d in dirs then dirs[d].(active := true) else Dir(next, parent, name, true)]
  }

  function NextAfter(dirs: Dirs, next: Inode, d: Identity): Inode {
    if d in dirs then next else next + 1
  }

  // Directories stay what they are and where they are; only date directories
  // are added, under new inodes, and only they change their state.
  ghost predicate Grown(dirs: Dirs, next: Inode, after: Dirs, nextAfter: Inode) {
    && next <= nextAfter
    && (forall d | d in dirs ::
          d in after && after[d].(active := dirs[d].active) == dirs[d] && (Dated(d) || after[d] == dirs[d]))
    && (forall d | d in after && d !in dirs :: Dated(d) && next <= after[d].inode)
  }

  lemma GrownThen(a: Dirs, m: Inode, b: Dirs, n: Inode, c: Dirs, o: Inode)
    requires Grown(a, m, b, n) && Grown(b, n, c, o)
    ensures Grown(a, m, c, o)
  {
  }

  lemma GrownSelf(dirs: Dirs, next: Inode)
    ensures Grown(dirs, next, dirs, next)
  {
  }

  lemma WithDirHas(dirs: Dirs, next: Inode, d: Identity, parent: Inode, name: string)
    ensures d in WithDir(dirs, next, d, parent, name)
    ensures forall e | e in dirs :: e in WithDir(dirs, next, d, parent, name)
  {
  }

  lemma ViewsExist(dirs: Dirs)
    requires DirsOk(dirs)
    ensures ViewAll in dirs && ViewFavorites in dirs && ViewDate in dirs && ViewAlbums in dirs && ViewPeople in dirs
  {
    hide DirsDistinct, DirOk;
    assert ViewAll in FIXED && ViewFavorites in FIXED && ViewDate in FIXED && ViewAlbums in FIXED
           && ViewPeople in FIXED;
  }

  lemma AddDistinct(dirs: Dirs, d: Identity, dir: Dir)
    requires DirsDistinct(dirs)
    requires forall e | e in dirs && e != d ::
               dirs[e].inode != dir.inode && (dirs[e].parent == dir.parent ==> dirs[e].name != dir.name)
    ensures DirsDistinct(dirs[d := dir])
  {
  }

  // Places are not disturbed by a directory that comes or that wakes up.
  lemma AddPlaces(dirs: Dirs, d: Identity, dir: Dir)
    requires forall e | e in dirs :: DirOk(dirs, e)
    requires d in dirs ==> dir == dirs[d].(active := true)
    requires d !in dirs ==> DirOk(dirs[d := dir], d)
    ensures var after := dirs[d := dir]; forall e | e in after :: DirOk(after, e)
  {
    hide Names.CanonicalId, Names.Safe;
    var after := dirs[d := dir];
    forall e | e in after ensures DirOk(after, e) {
      if e in dirs { assert DirOk(dirs, e); }
    }
  }

  // A new directory with a name that no sibling has.
  lemma AddDirectory(assets: Assets, dirs: Dirs, next: Inode, d: Identity, name: string)
    requires DirsOk(dirs) && InodesOk(assets, dirs, next)
    requires d !in dirs && !Fixed(d) && ParentOf(d) in dirs
    requires if Dated(d) then name == DateName(d) else Names.CanonicalId(StableId(d)) && Names.Safe(name, Names.LIMIT)
    requires forall e | e in dirs && dirs[e].parent == dirs[ParentOf(d)].inode :: dirs[e].name != name
    ensures var after := WithDir(dirs, next, d, dirs[ParentOf(d)].inode, name);
            DirsOk(after) && InodesOk(assets, after, next + 1)
  {
    var dir := Dir(next, dirs[ParentOf(d)].inode, name, true);
    assert DirOk(dirs[d := dir], d);
    hide DirOk, InodesOk, DirsOk;
    FreshInode(assets, dirs, next, d, dir);
    AddToDirs(dirs, d, dir);
  }

  lemma AddToDirs(dirs: Dirs, d: Identity, dir: Dir)
    requires DirsOk(dirs)
    requires d in dirs ==> dir == dirs[d].(active := true)
    requires d !in dirs ==> DirOk(dirs[d := dir], d)
    requires forall e | e in dirs && e != d ::
               dirs[e].inode != dir.inode && (dirs[e].parent == dir.parent ==> dirs[e].name != dir.name)
    ensures DirsOk(dirs[d := dir])
  {
    hide DirOk, DirsDistinct;
    AddPlaces(dirs, d, dir);
    AddDistinct(dirs, d, dir);
    assert FIXED <= dirs[d := dir].Keys;
  }

  lemma FreshInode(assets: Assets, dirs: Dirs, next: Inode, d: Identity, dir: Dir)
    requires InodesOk(assets, dirs, next) && dir.inode == next
    ensures InodesOk(assets, dirs[d := dir], next + 1)
    ensures forall e | e in dirs :: dirs[e].inode != next
    ensures forall a | a in assets :: assets[a].inode != next
  {
  }

  lemma WakeDirectory(assets: Assets, dirs: Dirs, next: Inode, d: Identity)
    requires DirsOk(dirs) && InodesOk(assets, dirs, next) && d in dirs
    ensures var after := dirs[d := dirs[d].(active := true)];
            DirsOk(after) && InodesOk(assets, after, next)
  {
    hide DirsOk;
    var dir := dirs[d].(active := true);
    DistinctFrom(dirs, d);
    AddToDirs(dirs, d, dir);
  }

  lemma DistinctFrom(dirs: Dirs, d: Identity)
    requires DirsOk(dirs) && d in dirs
    ensures forall e | e in dirs && e != d ::
              dirs[e].inode != dirs[d].inode && (dirs[e].parent == dirs[d].parent ==> dirs[e].name != dirs[d].name)
  {
    hide DirOk;
  }

  // A date directory is never found in another place, and never clashes.
  lemma DateDirFits(assets: Assets, dirs: Dirs, next: Inode, d: Identity)
    requires DirsOk(dirs) && InodesOk(assets, dirs, next) && Dated(d) && ParentOf(d) in dirs
    ensures d in dirs ==> dirs[d].parent == dirs[ParentOf(d)].inode && dirs[d].name == DateName(d)
    ensures var after := WithDir(dirs, next, d, dirs[ParentOf(d)].inode, DateName(d));
            DirsOk(after) && InodesOk(assets, after, NextAfter(dirs, next, d))
            && Grown(dirs, next, after, NextAfter(dirs, next, d))
  {
    DateDirPlaced(dirs, d);
    hide DirsOk, InodesOk, Grown;
    WithDirGrown(assets, dirs, next, d, dirs[ParentOf(d)].inode, DateName(d));
    if d in dirs {
      WakeDirectory(assets, dirs, next, d);
    } else {
      forall e | e in dirs && dirs[e].parent == dirs[ParentOf(d)].inode ensures dirs[e].name != DateName(d) {
        SiblingDiffers(assets, dirs, next, d, e);
      }
      AddDirectory(assets, dirs, next, d, DateName(d));
    }
  }

  lemma WithDirGrown(assets: Assets, dirs: Dirs, next: Inode, d: Identity, parent: Inode, name: string)
    requires Dated(d)
    ensures Grown(dirs, next, WithDir(dirs, next, d, parent, name), NextAfter(dirs, next, d))
  {
  }

  lemma DateDirPlaced(dirs: Dirs, d: Identity)
    requires DirsOk(dirs) && Dated(d)
    ensures d in dirs ==>
              ParentOf(d) in dirs && dirs[d].parent == dirs[ParentOf(d)].inode && dirs[d].name == DateName(d)
  {
    hide DirsDistinct;
    if d in dirs { assert DirOk(dirs, d); }
  }

  lemma SiblingDiffers(assets: Assets, dirs: Dirs, next: Inode, d: Identity, e: Identity)
    requires DirsOk(dirs) && InodesOk(assets, dirs, next) && Dated(d) && ParentOf(d) in dirs && d !in dirs
    requires e in dirs && dirs[e].parent == dirs[ParentOf(d)].inode
    ensures dirs[e].name != DateName(d)
  {
    ChildOf(Tables(assets, dirs, {}, {}, {}, next), ParentOf(d), e);
    assert DirOk(dirs, e);
  }

  // ---------------------------------------------------------- date activity

  // No asset is listed in a year's or a month's directory.
  predicate LinkKindsOk(links: Links) {
    forall link | link in links && Dated(link.0) :: link.0.DayDir?
  }

  ghost predicate SamePlaces(dirs: Dirs, after: Dirs) {
    && after.Keys == dirs.Keys
    && forall d | d in dirs :: after[d].(active := dirs[d].active) == dirs[d] && (Dated(d) || after[d] == dirs[d])
  }

  lemma SamePlacesGrown(dirs: Dirs, after: Dirs, next: Inode)
    requires SamePlaces(dirs, after)
    ensures Grown(dirs, next, after, next)
  {
  }

  function DateInodes(dirs: Dirs): set<Inode> {
    set d | d in dirs && Dated(d) :: dirs[d].inode
  }

  // The parent of every date directory.
  ghost predicate ParentsOf(dirs: Dirs, parents: map<Inode, Inode>) {
    && parents.Keys == DateInodes(dirs)
    && forall d | d in dirs && Dated(d) :: parents[dirs[d].inode] == dirs[d].parent
  }

  // The same for some of them.
  ghost predicate SomeParents(dirs: Dirs, parents: map<Inode, Inode>, rows: set<Identity>) {
    && (forall d | d in rows ::
       d in dirs && Dated(d) && dirs[d].inode in parents && parents[dirs[d].inode] == dirs[d].parent)
    && (forall i | i in parents :: exists d | d in rows :: d in dirs && dirs[d].inode == i)
  }

  lemma MoreParents(dirs: Dirs, parents: map<Inode, Inode>, rows: set<Identity>, d: Identity)
    requires DirsOk(dirs) && SomeParents(dirs, parents, rows) && d in dirs && Dated(d)
    ensures SomeParents(dirs, parents[dirs[d].inode := dirs[d].parent], rows + {d})
  {
    hide DirsOk;
    var after := parents[dirs[d].inode := dirs[d].parent];
    forall e | e in rows + {d} ensures dirs[e].inode in after && after[dirs[e].inode] == dirs[e].parent {
      if dirs[e].inode == dirs[d].inode { SameInode(dirs, e, d); }
    }
    forall i | i in after ensures exists e | e in rows + {d} :: e in dirs && dirs[e].inode == i {
      if i == dirs[d].inode {
        assert d in rows + {d};
      } else {
        var e :| e in rows && e in dirs && dirs[e].inode == i;
        assert e in rows + {d};
      }
    }
  }

  lemma NoParents(dirs: Dirs)
    ensures SomeParents(dirs, map[], (set d | d in dirs && Dated(d)) - (set d | d in dirs && Dated(d)))
  {
  }

  lemma AllParents(dirs: Dirs, parents: map<Inode, Inode>)
    requires SomeParents(dirs, parents, set d | d in dirs && Dated(d))
    ensures ParentsOf(dirs, parents)
  {
  }

  // A directory with something linked at it or below it.
  ghost predicate Reached(dirs: Dirs, links: Links, inode: Inode) {
    exists d | d in dirs && Dated(d) :: dirs[d].inode == inode && LinkedBelow(links, d)
  }

  lemma LinkedDaysAreReached(dirs: Dirs, links: Links)
    requires LinkTargetsOk(dirs, links) && LinkKindsOk(links)
    ensures forall link | link in links && Dated(link.0) :: Reached(dirs, links, dirs[link.0].inode)
  {
    forall link | link in links && Dated(link.0) ensures Reached(dirs, links, dirs[link.0].inode) {
      assert Above(link.0, link.0.day);
      assert LinkedBelow(links, link.0);
    }
  }

  lemma ParentIsReached(dirs: Dirs, links: Links, parents: map<Inode, Inode>, inode: Inode)
    requires DirsOk(dirs) && ParentsOf(dirs, parents) && Reached(dirs, links, inode)
    requires inode in parents && parents[inode] in parents
    ensures Reached(dirs, links, parents[inode])
  {
    hide LinkedBelow, DirsOk;
    var d :| d in dirs && Dated(d) && dirs[d].inode == inode && LinkedBelow(links, d);
    assert parents[inode] in DateInodes(dirs);
    var p :| p in dirs && Dated(p) && dirs[p].inode == parents[inode];
    DateDirPlaced(dirs, d);
    SameInode(dirs, p, ParentOf(d));
    LinkedAbove(links, d, p);
  }

  lemma LinkedDaysHaveParents(dirs: Dirs, links: Links, parents: map<Inode, Inode>)
    requires ParentsOf(dirs, parents) && LinkTargetsOk(dirs, links)
    ensures forall link | link in links && Dated(link.0) :: dirs[link.0].inode in parents
  {
    forall link | link in links && Dated(link.0) ensures dirs[link.0].inode in parents {
      assert dirs[link.0].inode in DateInodes(dirs);
    }
  }

  // The worklist: everything active is reached, and only what is pending can
  // have a parent that is not active yet.
  ghost predicate Closing(dirs: Dirs, links: Links, parents: map<Inode, Inode>, active: set<Inode>, pending: set<Inode>)
  {
    && pending <= active <= parents.Keys
    && (forall i | i in active && i !in pending && parents[i] in parents :: parents[i] in active)
    && (forall i | i in active :: Reached(dirs, links, i))
    && (forall link | link in links && link.0 in dirs && Dated(link.0) :: dirs[link.0].inode in active)
  }

  lemma ClosingStarts(dirs: Dirs, links: Links, parents: map<Inode, Inode>)
    requires ParentsOf(dirs, parents) && LinkTargetsOk(dirs, links) && LinkKindsOk(links)
    ensures var active := set link | link in links && link.0 in dirs && Dated(link.0) :: dirs[link.0].inode;
            Closing(dirs, links, parents, active, active)
  {
    hide Reached;
    LinkedDaysAreReached(dirs, links);
    LinkedDaysHaveParents(dirs, links, parents);
  }

  lemma ClosingGoesOn(dirs: Dirs, links: Links, parents: map<Inode, Inode>, active: set<Inode>, pending: set<Inode>,
                      inode: Inode)
    requires DirsOk(dirs) && ParentsOf(dirs, parents) && Closing(dirs, links, parents, active, pending)
             && inode in pending
    ensures inode in parents
    ensures var parent := parents[inode];
            if parent in parents && parent !in active then
              Closing(dirs, links, parents, active + {parent}, pending - {inode} + {parent})
            else Closing(dirs, links, parents, active, pending - {inode})
  {
    hide DirsOk, Reached, ParentsOf;
    if parents[inode] in parents { ParentIsReached(dirs, links, parents, inode); }
  }

  lemma Shrinks(all: set<Inode>, active: set<Inode>, more: Inode)
    requires more in all && more !in active
    ensures |all - (active + {more})| < |all - active|
  {
    assert all - (active + {more}) == (all - active) - {more};
  }

  // The worklist has found what it should: nothing is missing from a set that
  // holds the linked days and is closed under parents.
  lemma ClosureIsExact(dirs: Dirs, links: Links, parents: map<Inode, Inode>, active: set<Inode>)
    requires DirsOk(dirs) && LinkTargetsOk(dirs, links) && LinkKindsOk(links)
    requires ParentsOf(dirs, parents)
    requires Closing(dirs, links, parents, active, {})
    ensures forall d | d in dirs :: dirs[d].inode in active <==> Dated(d) && LinkedBelow(links, d)
  {
    hide DirsOk, LinkedBelow, ParentsOf;
    assert forall i | i in active && parents[i] in parents :: parents[i] in active;
    forall d | d in dirs ensures dirs[d].inode in active <==> Dated(d) && LinkedBelow(links, d) {
      if dirs[d].inode in active {
        var e :| e in dirs && Dated(e) && dirs[e].inode == dirs[d].inode && LinkedBelow(links, e);
        SameInode(dirs, d, e);
      }
      if Dated(d) && LinkedBelow(links, d) {
        var day := DayBelow(links, d);
        DayReaches(dirs, parents, active, day, d);
      }
    }
  }

  lemma DayBelow(links: Links, d: Identity) returns (day: Day)
    requires LinkedBelow(links, d)
    ensures Above(d, day) && exists link :: link in links && link.0 == DayDir(day)
  {
    var link :| link in links && link.0.DayDir? && Above(d, link.0.day);
    day := link.0.day;
  }

  lemma DayReaches(dirs: Dirs, parents: map<Inode, Inode>, active: set<Inode>, day: Day, d: Identity)
    requires DirsOk(dirs) && DayDir(day) in dirs && d in dirs && Above(d, day)
    requires ParentsOf(dirs, parents)
    requires active <= parents.Keys && dirs[DayDir(day)].inode in active
    requires forall i | i in active && parents[i] in parents :: parents[i] in active
    ensures dirs[d].inode in active
  {
    hide DirsOk;
    var month, year := MonthDir(day.year, day.month), YearDir(day.year);
    DateDirPlaced(dirs, DayDir(day));
    DateDirPlaced(dirs, month);
    DateDirPlaced(dirs, year);
    assert dirs[year].inode in DateInodes(dirs) && dirs[month].inode in DateInodes(dirs);
    assert parents[dirs[DayDir(day)].inode] == dirs[month].inode;
    assert parents[dirs[month].inode] == dirs[year].inode;
  }

  lemma ActivitySet(dirs: Dirs, after: Dirs, links: Links, active: set<Inode>)
    requires DirsOk(dirs)
    requires forall d | d in dirs :: dirs[d].inode in active <==> Dated(d) && LinkedBelow(links, d)
    requires after.Keys == dirs.Keys
    requires forall d | d in dirs ::
               after[d] == if Dated(d) then dirs[d].(active := dirs[d].inode in active) else dirs[d]
    ensures DirsOk(after) && DatesOk(after, links) && SamePlaces(dirs, after)
  {
    hide LinkedBelow;
    SamePlacesDirsOk(dirs, after);
  }

  lemma SamePlacesDirsOk(dirs: Dirs, after: Dirs)
    requires DirsOk(dirs) && SamePlaces(dirs, after)
    ensures DirsOk(after)
  {
    hide Names.CanonicalId, Names.Safe, DirsDistinct;
    assert DirsDistinct(after) by { SamePlacesDistinct(dirs, after); }
    forall d | d in after ensures DirOk(after, d) {
      assert DirOk(dirs, d);
    }
  }

  lemma SamePlacesDistinct(dirs: Dirs, after: Dirs)
    requires DirsDistinct(dirs) && SamePlaces(dirs, after)
    ensures DirsDistinct(after)
  {
  }

  // -------------------------------------------------------------- projection

  // Links after some assets were projected again.
  ghost predicate Relinked(before: Links, after: Links, t: Tables, ids: set<Id>) {
    forall link :: link in after <==> if link.1 in ids then link.0 in Projected(t, link.1) else link in before
  }

  predicate CollectionsOnly(memberships: Links) {
    forall m | m in memberships :: Collection(m.0)
  }

  // Nothing that only concerns date directories changes where assets belong.
  lemma ProjectedStays(t: Tables, dirs: Dirs, next: Inode, links: Links)
    requires CollectionsOnly(t.memberships) && Grown(t.dirs, t.next, dirs, next)
    ensures forall id :: Projected(t.(dirs := dirs, next := next, links := links), id) == Projected(t, id)
  {
    hide Standalone;
    var u := t.(dirs := dirs, next := next, links := links);
    forall id ensures Projected(u, id) == Projected(t, id) {
      forall d ensures d in Collections(dirs, t.memberships, id) <==> d in Collections(t.dirs, t.memberships, id) {
        CollectionStays(t, dirs, next, id, d);
      }
      assert Collections(dirs, t.memberships, id) == Collections(t.dirs, t.memberships, id);
    }
  }

  lemma CollectionStays(t: Tables, dirs: Dirs, next: Inode, id: Id, d: Identity)
    requires CollectionsOnly(t.memberships) && Grown(t.dirs, t.next, dirs, next)
    ensures d in Collections(dirs, t.memberships, id) <==> d in Collections(t.dirs, t.memberships, id)
  {
    if (d, id) in t.memberships && d in dirs && d !in t.dirs { assert Dated(d) && Collection(d); }
  }

  lemma RelinkNone(links: Links, t: Tables)
    ensures Relinked(links, links, t, {})
  {
  }

  lemma RelinkOne(before: Links, t: Tables, ids: set<Id>, id: Id, links: Links)
    requires Relinked(before, t.links, t, ids)
    requires links == (set link | link in t.links && link.1 != id) + (set d | d in Projected(t, id) :: (d, id))
    ensures Relinked(before, links, t, ids + {id})
  {
    hide Projected;
    forall link
      ensures link in links <==> if link.1 in ids + {id} then link.0 in Projected(t, link.1) else link in before
    {
      if link.1 == id { assert link == (link.0, id); }
    }
  }

  lemma RelinkedUnder(before: Links, after: Links, t: Tables, u: Tables, ids: set<Id>)
    requires Relinked(before, after, t, ids)
    requires forall id :: Projected(u, id) == Projected(t, id)
    ensures Relinked(before, after, u, ids)
  {
    hide Projected;
  }

  lemma RelinkedFromNothing(u: Tables, ids: set<Id>)
    requires Relinked({}, u.links, u, ids)
    requires forall id | id in u.assets && Showable(u.assets[id].asset) :: id in ids
    ensures LinksOk(u)
  {
    hide Projection, Homes, Showable, Pointed;
    forall link ensures link in u.links <==> link in Projection(u) {
      InProjection(u, link);
    }
  }

  // Links lead to directories that exist, and dated ones to days.
  ghost predicate TargetsOk(dirs: Dirs, links: Links) {
    LinkTargetsOk(dirs, links) && LinkKindsOk(links)
  }

  lemma TargetsStay(dirs: Dirs, next: Inode, after: Dirs, nextAfter: Inode, links: Links)
    requires TargetsOk(dirs, links) && Grown(dirs, next, after, nextAfter)
    ensures TargetsOk(after, links)
  {
  }

  lemma TargetsMore(dirs: Dirs, links: Links, after: Links, id: Id, homes: set<Identity>)
    requires TargetsOk(dirs, links)
    requires after == (set link | link in links && link.1 != id) + (set d | d in homes :: (d, id))
    requires forall d | d in homes :: d in dirs && (Dated(d) ==> d.DayDir?)
    ensures TargetsOk(dirs, after)
  {
  }

  lemma HomesKinds(dirs: Dirs, memberships: Links, id: Id, asset: Asset)
    requires CollectionsOnly(memberships) && DirsOk(dirs)
    requires asset.date.Some? ==> DayDir(asset.date.value) in dirs
    ensures forall d | d in Homes(dirs, memberships, id, asset) :: d in dirs && (Dated(d) ==> d.DayDir?)
  {
    hide CatalogTables.Collections, Collection, DirsOk;
    ViewsExist(dirs);
    CollectionsKinds(dirs, memberships, id);
  }

  lemma CollectionsKinds(dirs: Dirs, memberships: Links, id: Id)
    requires CollectionsOnly(memberships)
    ensures forall d | d in Collections(dirs, memberships, id) :: d in dirs && !Dated(d)
  {
  }

  lemma MembershipsAreCollections(t: Tables)
    requires MembershipsOk(t)
    ensures CollectionsOnly(t.memberships)
  {
  }

  lemma InvTargets(t: Tables)
    requires Inv(t)
    ensures TargetsOk(t.dirs, t.links)
  {
    hide LinksOk, AssetsOk, DirsOk, InodesOk, DatesOk;
    forall link | link in t.links && Dated(link.0) ensures link.0.DayDir? { LinksShape(t, link); }
  }

  lemma SameProjected(t: Tables, u: Tables)
    requires u == t.(links := u.links)
    ensures forall id :: Projected(u, id) == Projected(t, id)
  {
  }

  lemma KindsOf(dirs: Dirs, links: Links)
    requires TargetsOk(dirs, links)
    ensures LinkTargetsOk(dirs, links) && LinkKindsOk(links)
  {
  }

  lemma SamePlacesInodes(assets: Assets, dirs: Dirs, after: Dirs, next: Inode)
    requires InodesOk(assets, dirs, next) && SamePlaces(dirs, after)
    ensures InodesOk(assets, after, next)
  {
  }
}
