// Looking names up in the catalog: src/immich_on_demand/catalog.py.
module CatalogLookup {
  import opened Options
  import opened CatalogTables

  // None stands for the root.
  datatype Node = Directory(d: Option<Identity>) | File(id: Id)

  datatype Answer = Found(node: Node) | Missing | NotADirectory

  // ---------------------------------------------------------------- queries

  ghost predicate ActiveAt(t: Tables, d: Identity, inode: Inode) {
    d in t.dirs && t.dirs[d].inode == inode && t.dirs[d].active
  }

  predicate Linked(t: Tables, id: Id) {
    exists link | link in t.links :: link.1 == id
  }

  ghost predicate FileAt(t: Tables, id: Id, inode: Inode) {
    id in t.assets && t.assets[id].inode == inode && Linked(t, id)
  }

  // node(): the root, an active directory, or an asset that is listed somewhere.
  ghost function NodeAt(t: Tables, inode: Inode): Option<Node> {
    if inode == ROOT then Some(Directory(None))
    else if exists d :: ActiveAt(t, d, inode) then
      var d :| ActiveAt(t, d, inode);
      Some(Directory(Some(d)))
    else if exists id :: FileAt(t, id, inode) then
      var id :| FileAt(t, id, inode);
      Some(File(id))
    else None
  }

  ghost predicate SubdirectoryNamed(t: Tables, parent: Inode, name: string, d: Identity) {
    d in t.dirs && t.dirs[d].parent == parent && t.dirs[d].name == name && t.dirs[d].active
  }

  ghost predicate AssetNamed(t: Tables, parent: Inode, name: string, id: Id) {
    && id in t.assets && t.assets[id].name == name
    && exists d :: d in t.dirs && t.dirs[d].inode == parent && (d, id) in t.links
  }

  ghost function Answered(node: Option<Node>): Answer {
    if node.Some? then Found(node.value) else Missing
  }

  // lookup(), except for "." and "..".
  ghost function Lookup(t: Tables, parent: Inode, name: string): Answer {
    match NodeAt(t, parent)
    case None => Missing
    case Some(File(_)) => NotADirectory
    case Some(Directory(_)) =>
      if exists d :: SubdirectoryNamed(t, parent, name, d) then
        var d :| SubdirectoryNamed(t, parent, name, d);
        Answered(NodeAt(t, t.dirs[d].inode))
      else if exists id :: AssetNamed(t, parent, name, id) then
        var id :| AssetNamed(t, parent, name, id);
        Found(File(id))
      else Missing
  }

  // children(): the active directories below and the assets listed.
  ghost predicate IsChild(t: Tables, parent: Inode, name: string, node: Node) {
    && NodeAt(t, parent).Some? && NodeAt(t, parent).value.Directory?
    && match node
       case Directory(d) => d.Some? && SubdirectoryNamed(t, parent, name, d.value)
       case File(id) => AssetNamed(t, parent, name, id)
  }

  // aliases(): from every directory that lists the asset up to the root, over
  // active directories, at most four deep.
  ghost predicate IsPath(t: Tables, d: Identity, depth: nat, path: seq<string>)
    decreases 4 - depth
  {
    && d in t.dirs && t.dirs[d].active && path != []
    && path[|path| - 1] == t.dirs[d].name
    && if |path| == 1 then t.dirs[d].parent == ROOT
       else
         depth < 4 && exists p ::
           p in t.dirs && t.dirs[p].inode == t.dirs[d].parent && IsPath(t, p, depth + 1, path[..|path| - 1])
  }

  ghost predicate IsAlias(t: Tables, id: Id, path: seq<string>) {
    && id in t.assets && path != [] && path[|path| - 1] == t.assets[id].name
    && exists d :: (d, id) in t.links && IsPath(t, d, 1, path[..|path| - 1])
  }

  // Following a path from a directory, name by name.
  ghost function Resolve(t: Tables, from: Inode, path: seq<string>): Answer
    decreases |path|
  {
    if path == [] then Answered(NodeAt(t, from))
    else
      match Lookup(t, from, path[0])
      case Found(node) =>
        if |path| == 1 then Found(node)
        else if node.Directory? && node.d.Some? && node.d.value in t.dirs then
          Resolve(t, t.dirs[node.d.value].inode, path[1..])
        else NotADirectory
      case Missing => Missing
      case NotADirectory => NotADirectory
  }

  // ------------------------------------------------------------ uniqueness

  lemma DirectoryAt(t: Tables, d: Identity)
    requires Inv(t) && d in t.dirs && t.dirs[d].active
    ensures NodeAt(t, t.dirs[d].inode) == Some(Directory(Some(d)))
  {
    hide AssetsOk, LinksOk, DatesOk, LinkTargetsOk, MembershipsOk, DirsOk;
    assert ActiveAt(t, d, t.dirs[d].inode);
    forall e | ActiveAt(t, e, t.dirs[d].inode) ensures e == d {
      SameInode(t.dirs, d, e);
    }
  }

  // Only directories of assets list assets, and those hold no directories.
  lemma ListsOrHolds(t: Tables, d: Identity, id: Id, c: Identity)
    requires Inv(t) && (d, id) in t.links && d in t.dirs && c in t.dirs
    ensures t.dirs[c].parent != t.dirs[d].inode && t.dirs[d].inode != ROOT
  {
    LinksShape(t, (d, id));
    hide LinksOk, AssetsOk, MembershipsOk, DatesOk, LinkTargetsOk;
    if t.dirs[c].parent == t.dirs[d].inode { ChildOf(t, d, c); }
  }

  lemma OneSubdirectory(t: Tables, parent: Inode, name: string, d: Identity, e: Identity)
    requires DirsOk(t.dirs) && SubdirectoryNamed(t, parent, name, d) && SubdirectoryNamed(t, parent, name, e)
    ensures d == e
  {
    hide DirOk;
  }

  lemma OneAsset(t: Tables, parent: Inode, name: string, a: Id, b: Id)
    requires AssetsOk(t.assets) && AssetNamed(t, parent, name, a) && AssetNamed(t, parent, name, b)
    ensures a == b
  {
  }

  lemma LinkedNotBelow(t: Tables, parent: Inode, name: string, id: Id, d: Identity)
    requires Inv(t) && AssetNamed(t, parent, name, id)
    ensures !SubdirectoryNamed(t, parent, name, d)
  {
    hide Inv;
    var home :| home in t.dirs && t.dirs[home].inode == parent && (home, id) in t.links;
    if d in t.dirs { ListsOrHolds(t, home, id, d); }
  }

  // --------------------------------------------------- in terms of the rows

  // The directory of this identity, or the root, is there and can be entered.
  ghost predicate Enterable(t: Tables, inode: Inode) {
    inode == ROOT || exists d :: d in t.dirs && t.dirs[d].inode == inode && t.dirs[d].active
  }

  // An inode is the root's, that of an active directory, or that of an asset that
  // some directory lists; and there is nothing else behind it.
  lemma NodeIs(t: Tables, inode: Inode, node: Node)
    requires Inv(t)
    ensures NodeAt(t, inode) == Some(node) <==>
              match node
              case Directory(None) => inode == ROOT
              case Directory(Some(d)) => d in t.dirs && t.dirs[d].inode == inode && t.dirs[d].active
              case File(id) => id in t.assets && t.assets[id].inode == inode && exists d :: (d, id) in t.links
  {
    hide LinksOk, DatesOk, LinkTargetsOk, MembershipsOk, DirsOk;
    forall d, e | ActiveAt(t, d, inode) && ActiveAt(t, e, inode) ensures d == e { SameInode(t.dirs, d, e); }
    assert forall a, b | FileAt(t, a, inode) && FileAt(t, b, inode) :: a == b;
    assert forall d, a | ActiveAt(t, d, inode) :: inode != ROOT && !FileAt(t, a, inode);
    match node
    case Directory(None) =>
    case Directory(Some(d)) => assert ActiveAt(t, d, inode) || NodeAt(t, inode) != Some(node);
    case File(id) =>
      LinkedIff(t, id);
      assert FileAt(t, id, inode) || NodeAt(t, inode) != Some(node);
  }

  lemma LinkedIff(t: Tables, id: Id)
    ensures Linked(t, id) <==> exists d :: (d, id) in t.links
  {
    if Linked(t, id) {
      var link :| link in t.links && link.1 == id;
      assert (link.0, id) in t.links;
    }
  }

  // What a directory lists.
  lemma ChildIs(t: Tables, parent: Inode, name: string, node: Node)
    requires Inv(t)
    ensures IsChild(t, parent, name, node) <==>
              && Enterable(t, parent)
              && match node
                 case Directory(None) => false
                 case Directory(Some(d)) =>
                   d in t.dirs && t.dirs[d].parent == parent && t.dirs[d].name == name && t.dirs[d].active
                 case File(id) =>
                   && id in t.assets && t.assets[id].name == name
                   && exists d :: d in t.dirs && t.dirs[d].inode == parent && (d, id) in t.links
  {
    hide Inv, NodeAt;
    NodeIs(t, parent, Directory(None));
    if exists d :: d in t.dirs && t.dirs[d].inode == parent && t.dirs[d].active {
      var d :| d in t.dirs && t.dirs[d].inode == parent && t.dirs[d].active;
      NodeIs(t, parent, Directory(Some(d)));
    }
    if NodeAt(t, parent).Some? { NodeIs(t, parent, NodeAt(t, parent).value); }
  }

  // ------------------------------------------------------------- agreement

  lemma LookupNamed(t: Tables, parent: Inode, name: string, node: Node, d: Identity)
    requires Inv(t) && NodeAt(t, parent).Some? && NodeAt(t, parent).value.Directory?
    requires SubdirectoryNamed(t, parent, name, d)
    ensures Lookup(t, parent, name) == Found(node) <==> IsChild(t, parent, name, node)
  {
    hide Inv, NodeAt, SubdirectoryNamed, AssetNamed;
    InvDirs(t);
    forall e | SubdirectoryNamed(t, parent, name, e) ensures e == d { OneSubdirectory(t, parent, name, d, e); }
    forall id ensures !AssetNamed(t, parent, name, id) {
      if AssetNamed(t, parent, name, id) { LinkedNotBelow(t, parent, name, id, d); }
    }
    NamedIsActive(t, parent, name, d);
    DirectoryAt(t, d);
  }

  // What is looked up in a directory is what is listed there.
  lemma LookupAgreesWithChildren(t: Tables, parent: Inode, name: string, node: Node)
    requires Inv(t) && NodeAt(t, parent).Some? && NodeAt(t, parent).value.Directory?
    ensures Lookup(t, parent, name) == Found(node) <==> IsChild(t, parent, name, node)
  {
    hide Inv, NodeAt, SubdirectoryNamed, AssetNamed;
    if exists d :: SubdirectoryNamed(t, parent, name, d) {
      var d :| SubdirectoryNamed(t, parent, name, d);
      LookupNamed(t, parent, name, node, d);
      hide Lookup, IsChild;
    } else if exists id :: AssetNamed(t, parent, name, id) {
      InvDirs(t);
      var id :| AssetNamed(t, parent, name, id);
      forall other | AssetNamed(t, parent, name, other) ensures other == id { OneAsset(t, parent, name, id, other); }
    }
  }

  // What is no directory has no entries: a listed asset says so, and anything else
  // is not there.
  lemma LookupElsewhere(t: Tables, parent: Inode, name: string)
    requires Inv(t) && !Enterable(t, parent)
    ensures Lookup(t, parent, name) ==
            if exists id, d :: id in t.assets && t.assets[id].inode == parent && (d, id) in t.links then NotADirectory
            else Missing
  {
    hide Inv, NodeAt;
    if NodeAt(t, parent).Some? { NodeIs(t, parent, NodeAt(t, parent).value); }
    if exists id, d :: id in t.assets && t.assets[id].inode == parent && (d, id) in t.links {
      var id, d :| id in t.assets && t.assets[id].inode == parent && (d, id) in t.links;
      NodeIs(t, parent, File(id));
    }
  }

  lemma InvDirs(t: Tables)
    requires Inv(t)
    ensures DirsOk(t.dirs) && AssetsOk(t.assets)
  {
    hide DirsOk, AssetsOk, LinksOk;
  }

  lemma NamedIsActive(t: Tables, parent: Inode, name: string, d: Identity)
    requires SubdirectoryNamed(t, parent, name, d)
    ensures d in t.dirs && t.dirs[d].active
  {
  }

  lemma LookupDirectory(t: Tables, parent: Inode, d: Identity)
    requires Inv(t) && d in t.dirs && t.dirs[d].active && t.dirs[d].parent == parent
    requires NodeAt(t, parent).Some? && NodeAt(t, parent).value.Directory?
    ensures Lookup(t, parent, t.dirs[d].name) == Found(Directory(Some(d)))
  {
    hide Inv, NodeAt, Lookup, AssetNamed;
    LookupAgreesWithChildren(t, parent, t.dirs[d].name, Directory(Some(d)));
  }

  lemma LookupAsset(t: Tables, d: Identity, id: Id)
    requires Inv(t) && d in t.dirs && t.dirs[d].active && (d, id) in t.links && id in t.assets
    ensures Lookup(t, t.dirs[d].inode, t.assets[id].name) == Found(File(id))
  {
    hide Inv, NodeAt, Lookup, SubdirectoryNamed;
    DirectoryAt(t, d);
    LookupAgreesWithChildren(t, t.dirs[d].inode, t.assets[id].name, File(id));
  }

  // ---------------------------------------------------------------- aliases

  lemma {:induction false} ResolveConcat(t: Tables, from: Inode, path: seq<string>, last: string)
    requires path != [] && Resolve(t, from, path).Found? && Resolve(t, from, path).node.Directory?
    requires Resolve(t, from, path).node.d.Some? && Resolve(t, from, path).node.d.value in t.dirs
    ensures Resolve(t, from, path + [last]) == Lookup(t, t.dirs[Resolve(t, from, path).node.d.value].inode, last)
    decreases |path|
  {
    hide Lookup, NodeAt;
    var longer := path + [last];
    assert longer[0] == path[0] && longer[1..] == path[1..] + [last];
    if |path| == 1 {
      var d := Resolve(t, from, path).node.d.value;
      assert longer[1..] == [last];
      LookupIsOneStep(t, t.dirs[d].inode, last);
    } else {
      ResolveConcat(t, t.dirs[Lookup(t, from, path[0]).node.d.value].inode, path[1..], last);
    }
  }

  lemma LookupIsOneStep(t: Tables, from: Inode, name: string)
    ensures Resolve(t, from, [name]) == Lookup(t, from, name)
  {
    hide Lookup;
  }

  // A directory's path leads to it.
  lemma {:induction false} PathResolves(t: Tables, d: Identity, depth: nat, path: seq<string>)
    requires Inv(t) && IsPath(t, d, depth, path)
    ensures Resolve(t, ROOT, path) == Found(Directory(Some(d)))
    decreases |path|
  {
    hide Inv, Lookup, NodeAt;
    if |path| == 1 {
      RootIsDirectory(t);
      LookupDirectory(t, ROOT, d);
      assert path == [t.dirs[d].name];
      LookupIsOneStep(t, ROOT, path[0]);
    } else {
      var n := |path| - 1;
      var p :| p in t.dirs && t.dirs[p].inode == t.dirs[d].parent && IsPath(t, p, depth + 1, path[..n]);
      PathResolves(t, p, depth + 1, path[..n]);
      DirectoryAt(t, p);
      LookupDirectory(t, t.dirs[p].inode, d);
      ResolveConcat(t, ROOT, path[..n], path[n]);
      assert path[..n] + [path[n]] == path;
    }
  }

  lemma RootIsDirectory(t: Tables)
    ensures NodeAt(t, ROOT) == Some(Directory(None))
  {
  }

  // Every path that the catalog gives for an asset leads to that asset.
  lemma AliasesResolve(t: Tables, id: Id, path: seq<string>)
    requires Inv(t) && IsAlias(t, id, path)
    ensures Resolve(t, ROOT, path) == Found(File(id))
  {
    hide Inv, Lookup, NodeAt, Resolve;
    var n := |path| - 1;
    var d :| (d, id) in t.links && IsPath(t, d, 1, path[..n]);
    PathResolves(t, d, 1, path[..n]);
    LookupAsset(t, d, id);
    ResolveConcat(t, ROOT, path[..n], path[n]);
    assert path[..n] + [path[n]] == path;
  }

  // The one path of a directory.
  function PathOf(t: Tables, d: Identity): seq<string> {
    if d !in t.dirs then []
    else if Fixed(d) then [t.dirs[d].name]
    else
      match d
      case YearDir(_) => NameOf(t, ViewDate) + [t.dirs[d].name]
      case MonthDir(year, _) => NameOf(t, ViewDate) + NameOf(t, YearDir(year)) + [t.dirs[d].name]
      case DayDir(day) =>
        NameOf(t, ViewDate) + NameOf(t, YearDir(day.year)) + NameOf(t, MonthDir(day.year, day.month)) + [t.dirs[d].name]
      case _ => NameOf(t, ParentOf(d)) + [t.dirs[d].name]
  }

  function NameOf(t: Tables, d: Identity): seq<string> {
    if d in t.dirs then [t.dirs[d].name] else []
  }

  function Level(d: Identity): nat {
    match d
    case DayDir(_) => 4
    case MonthDir(_, _) => 3
    case YearDir(_) => 2
    case AlbumDir(_) => 2
    case PersonDir(_) => 2
    case _ => 1
  }

  ghost predicate Reachable(t: Tables, d: Identity) {
    d in t.dirs && t.dirs[d].active && (!Fixed(d) ==> ParentOf(d) in t.dirs && t.dirs[ParentOf(d)].active)
  }

  // Whatever is above an active date directory is active too.
  lemma ActiveUpwards(t: Tables, d: Identity)
    requires Inv(t) && d in t.dirs && t.dirs[d].active && !Fixed(d)
    ensures ParentOf(d) in t.dirs && t.dirs[ParentOf(d)].active && t.dirs[d].parent == t.dirs[ParentOf(d)].inode
  {
    hide LinksOk, AssetsOk, InodesOk, MembershipsOk, DirsDistinct, LinkTargetsOk, LinkedBelow;
    assert DirOk(t.dirs, d);
    assert DirOk(t.dirs, ParentOf(d));
    if Dated(d) && !Fixed(ParentOf(d)) {
      assert LinkedBelow(t.links, d);
      LinkedAbove(t.links, d, ParentOf(d));
    }
  }

  lemma {:induction false} ActiveHasPath(t: Tables, d: Identity, depth: nat)
    requires Inv(t) && d in t.dirs && t.dirs[d].active && depth + Level(d) <= 5
    ensures IsPath(t, d, depth, PathOf(t, d)) && |PathOf(t, d)| == Level(d)
    decreases Level(d)
  {
    hide Inv;
    if Fixed(d) {
      FixedPass(t);
    } else {
      ActiveUpwards(t, d);
      ActiveHasPath(t, ParentOf(d), depth + 1);
      var path := PathOf(t, d);
      assert path[..|path| - 1] == PathOf(t, ParentOf(d));
      assert IsPath(t, ParentOf(d), depth + 1, path[..|path| - 1]);
    }
  }

  lemma {:induction false} PathIsUnique(t: Tables, d: Identity, depth: nat, path: seq<string>)
    requires Inv(t) && IsPath(t, d, depth, path)
    ensures path == PathOf(t, d)
    decreases |path|
  {
    hide Fixed, Inv, ParentOf, PathOf;
    if |path| == 1 {
      RootChildIsFixed(t, d);
      assert path == PathOf(t, d);
    } else {
      var n := |path| - 1;
      var p :| p in t.dirs && t.dirs[p].inode == t.dirs[d].parent && IsPath(t, p, depth + 1, path[..n]);
      PathIsUnique(t, p, depth + 1, path[..n]);
      ParentFound(t, d, p);
      PathStep(t, d);
      assert path == path[..n] + [path[n]];
    }
  }

  lemma RootChildIsFixed(t: Tables, d: Identity)
    requires Inv(t) && d in t.dirs && t.dirs[d].parent == ROOT
    ensures Fixed(d) && PathOf(t, d) == [t.dirs[d].name]
  {
    hide LinksOk, AssetsOk, MembershipsOk, DirsDistinct, LinkTargetsOk, DatesOk;
    assert DirOk(t.dirs, d);
  }

  lemma ParentFound(t: Tables, d: Identity, p: Identity)
    requires Inv(t) && d in t.dirs && p in t.dirs && t.dirs[p].inode == t.dirs[d].parent
    ensures !Fixed(d) && ParentOf(d) == p
  {
    hide LinksOk, AssetsOk, MembershipsOk, DirsOk, LinkTargetsOk, DatesOk;
    ChildOf(t, p, d);
  }

  lemma PathStep(t: Tables, d: Identity)
    requires Inv(t) && d in t.dirs && !Fixed(d)
    ensures PathOf(t, d) == PathOf(t, ParentOf(d)) + [t.dirs[d].name]
  {
    hide LinksOk, AssetsOk, InodesOk, MembershipsOk, DirsDistinct, LinkTargetsOk, DatesOk;
    assert DirOk(t.dirs, d);
    assert DirOk(t.dirs, ParentOf(d));
    if d.DayDir? { assert DirOk(t.dirs, ParentOf(ParentOf(d))); }
  }

  function Homing(t: Tables, id: Id): set<Identity> {
    set link | link in t.links && link.1 == id :: link.0
  }

  // The number of links that a file is said to have.
  function Nlink(t: Tables, id: Id): nat {
    |Homing(t, id)|
  }

  function Aliases(t: Tables, id: Id): set<seq<string>>
    requires id in t.assets
  {
    set d | d in Homing(t, id) :: PathOf(t, d) + [t.assets[id].name]
  }

  lemma LinkedIsActive(t: Tables, d: Identity, id: Id)
    requires Inv(t) && (d, id) in t.links
    ensures d in t.dirs && t.dirs[d].active
  {
    hide Inv;
    LinksPass(t);
  }

  // The aliases are one path for every directory that lists the asset.
  lemma AliasesAreThePaths(t: Tables, id: Id, path: seq<string>)
    requires Inv(t) && id in t.assets
    ensures IsAlias(t, id, path) <==> path in Aliases(t, id)
  {
    hide Inv, IsPath, PathOf;
    if IsAlias(t, id, path) {
      var n := |path| - 1;
      var d :| (d, id) in t.links && IsPath(t, d, 1, path[..n]);
      PathIsUnique(t, d, 1, path[..n]);
      assert d in Homing(t, id);
      assert path == path[..n] + [path[n]];
    }
    if path in Aliases(t, id) {
      var d :| d in Homing(t, id) && path == PathOf(t, d) + [t.assets[id].name];
      assert (d, id) in t.links;
      LinkedIsActive(t, d, id);
      ActiveHasPath(t, d, 1);
      assert path[..|path| - 1] == PathOf(t, d);
    }
  }

  lemma {:induction false} SameSize(homes: set<Identity>, paths: set<seq<string>>, path: Identity -> seq<string>)
    requires paths == set d | d in homes :: path(d)
    requires forall d, e | d in homes && e in homes && d != e :: path(d) != path(e)
    ensures |paths| == |homes|
    decreases |homes|
  {
    if homes != {} {
      var d :| d in homes;
      var rest := set e | e in homes - {d} :: path(e);
      SameSize(homes - {d}, rest, path);
      assert paths == rest + {path(d)};
      assert path(d) !in rest;
    }
  }

  // The link count of a file is the number of its aliases.
  lemma NlinkCountsAliases(t: Tables, id: Id)
    requires Inv(t) && id in t.assets
    ensures Nlink(t, id) == |Aliases(t, id)|
    ensures forall path :: path in Aliases(t, id) <==> IsAlias(t, id, path)
  {
    hide Inv, PathOf, Homing, IsAlias;
    var name := t.assets[id].name;
    var path := d => PathOf(t, d) + [name];
    forall d, e | d in Homing(t, id) && e in Homing(t, id) && d != e ensures path(d) != path(e) {
      PathsDiffer(t, id, d, e);
      assert path(d)[..|path(d)| - 1] == PathOf(t, d) && path(e)[..|path(e)| - 1] == PathOf(t, e);
    }
    SameSize(Homing(t, id), Aliases(t, id), path);
    forall p ensures p in Aliases(t, id) <==> IsAlias(t, id, p) { AliasesAreThePaths(t, id, p); }
  }

  lemma PathsDiffer(t: Tables, id: Id, d: Identity, e: Identity)
    requires Inv(t) && d in Homing(t, id) && e in Homing(t, id) && d != e
    ensures PathOf(t, d) != PathOf(t, e)
  {
    hide Inv, PathOf, IsPath, Resolve;
    assert (d, id) in t.links && (e, id) in t.links;
    LinkedIsActive(t, d, id);
    LinkedIsActive(t, e, id);
    ActiveHasPath(t, d, 1);
    ActiveHasPath(t, e, 1);
    PathResolves(t, d, 1, PathOf(t, d));
    PathResolves(t, e, 1, PathOf(t, e));
  }
}
