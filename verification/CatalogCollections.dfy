// Albums and people in the catalog's namespace.
module CatalogCollections {
  import opened Options
  import Names
  import opened CatalogTables
  import opened CatalogSteps
  import opened CatalogChanges

  // An album or a person, and what it is called.
  type Named = (Id, string)

  function Unslashed(title: string): string {
    if title == "" then ""
    else [if title[0] == '/' then '_' else title[0]] + Unslashed(title[1..])
  }

  function RequestedName(title: string, id: Id): string {
    if title == "" then Names.CollisionName("Unnamed", id, Names.LIMIT, 1)
    else Names.SafeFilename(Unslashed(title), id, Names.LIMIT)
  }

  lemma UnslashedIs(title: string)
    ensures |Unslashed(title)| == |title|
    ensures forall i | 0 <= i < |title| :: Unslashed(title)[i] == if title[i] == '/' then '_' else title[i]
  {
    if title != "" { UnslashedIs(title[1..]); }
  }

  // A collection asks for its title, with underscores for slashes, as a safe name;
  // one without a title for a name made of its identifier.
  lemma RequestedNameIs(title: string, id: Id, plain: string)
    requires Names.CanonicalId(id) && |plain| == |title|
    requires forall i | 0 <= i < |title| :: plain[i] == if title[i] == '/' then '_' else title[i]
    ensures RequestedName(title, id) == if title == "" then "Unnamed" + "__" + id
                                        else Names.SafeFilename(plain, id, Names.LIMIT)
  {
    hide Names.SafeFilename, Names.CollisionName, Unslashed;
    if title == "" {
      Names.UnnamedIs(id);
    } else {
      UnslashedIs(title);
      assert plain == Unslashed(title);
    }
  }

  function IdsOf(values: seq<Named>): set<Id> {
    set i | 0 <= i < |values| :: values[i].0
  }

  predicate Unique(values: seq<Named>) {
    forall i, j | 0 <= i < j < |values| :: values[i].0 != values[j].0
  }

  predicate Canonical(values: seq<Named>) {
    forall i | 0 <= i < |values| :: Names.CanonicalId(values[i].0)
  }

  // Every pair is of a collection that is given and of an asset that can be
  // shown and belongs to the profile's owner.
  predicate PairsOk(pairs: set<(Id, Id)>, values: seq<Named>, assets: Assets, owner: Id) {
    forall p | p in pairs ::
      p.0 in IdsOf(values) && p.1 in assets && assets[p.1].asset.owner == owner && Showable(assets[p.1].asset)
  }

  // Collections that can be listed with these assets: each is given once, under a
  // canonical identifier, and every pair is of one of them and of an asset of the
  // owner that can be shown.
  ghost predicate Listable(values: seq<Named>, pairs: set<(Id, Id)>, assets: Assets, owner: Id) {
    && (forall i, j | 0 <= i < |values| && 0 <= j < |values| && i != j :: values[i].0 != values[j].0)
    && (forall i | 0 <= i < |values| :: Names.CanonicalId(values[i].0))
    && forall p | p in pairs ::
         && (exists i :: 0 <= i < |values| && values[i].0 == p.0)
         && p.1 in assets
         && var asset := assets[p.1].asset;
            && asset.owner == owner && asset.size.Some? && !asset.trashed && !asset.offline
            && asset.visibility != "hidden"
  }

  lemma ListableIff(values: seq<Named>, pairs: set<(Id, Id)>, assets: Assets, owner: Id)
    ensures Listable(values, pairs, assets, owner) <==>
              Unique(values) && Canonical(values) && PairsOk(pairs, values, assets, owner)
  {
    hide Names.CanonicalId;
  }

  function AlbumDirs(values: seq<Named>): set<Identity> {
    set i | 0 <= i < |values| :: AlbumDir(values[i].0)
  }

  function PersonDirs(values: seq<Named>): set<Identity> {
    set i | 0 <= i < |values| :: PersonDir(values[i].0)
  }

  function CollectionLinks(albums: set<(Id, Id)>, people: set<(Id, Id)>): Links {
    (set p | p in albums :: (AlbumDir(p.0), p.1)) + (set p | p in people :: (PersonDir(p.0), p.1))
  }

  // ------------------------------------------------------------ directories

  // Directories stay what and where they are; collections are added, under new
  // inodes; exactly the collections in on are active.
  ghost predicate Rewoken(dirs: Dirs, next: Inode, after: Dirs, nextAfter: Inode, on: set<Identity>) {
    && next <= nextAfter
    && (forall d | d in dirs ::
          d in after && after[d].(active := dirs[d].active) == dirs[d] && (Collection(d) || after[d] == dirs[d]))
    && (forall d | d in after && d !in dirs :: Collection(d) && next <= after[d].inode)
    && (forall d | d in after && Collection(d) :: after[d].active <==> d in on)
    && (forall d | d in on :: d in after)
  }

  // Every name below a directory is in used.
  ghost predicate Taken(dirs: Dirs, parent: Inode, used: set<string>) {
    forall d | d in dirs && dirs[d].parent == parent :: dirs[d].name in used
  }

  function NamesBelow(dirs: Dirs, parent: Inode): set<string> {
    set d | d in dirs && dirs[d].parent == parent :: dirs[d].name
  }

  lemma NamesBelowTaken(dirs: Dirs, parent: Inode)
    ensures Taken(dirs, parent, NamesBelow(dirs, parent))
  {
  }

  lemma AllAsleep(assets: Assets, dirs: Dirs, next: Inode)
    requires DirsOk(dirs) && InodesOk(assets, dirs, next)
    ensures var after := map d | d in dirs :: if Collection(d) then dirs[d].(active := false) else dirs[d];
            DirsOk(after) && InodesOk(assets, after, next) && Rewoken(dirs, next, after, next, {})
            && (forall p :: NamesBelow(after, p) == NamesBelow(dirs, p))
            && (forall d | d in dirs && !Collection(d) :: d in after && after[d] == dirs[d])
  {
    var after := map d | d in dirs :: if Collection(d) then dirs[d].(active := false) else dirs[d];
    forall p ensures NamesBelow(after, p) == NamesBelow(dirs, p) {
      SameNamesBelow(dirs, after, p);
    }
    RestateDirs(dirs, after);
    hide DirsOk;
  }

  lemma SameNamesBelow(dirs: Dirs, after: Dirs, p: Inode)
    requires after.Keys == dirs.Keys
    requires forall d | d in dirs :: after[d].parent == dirs[d].parent && after[d].name == dirs[d].name
    ensures NamesBelow(after, p) == NamesBelow(dirs, p)
  {
    forall name | name in NamesBelow(dirs, p) ensures name in NamesBelow(after, p) {
      var d :| d in dirs && dirs[d].parent == p && dirs[d].name == name;
      assert after[d].name == name;
    }
  }

  lemma RestateDirs(dirs: Dirs, after: Dirs)
    requires DirsOk(dirs) && after.Keys == dirs.Keys
    requires forall d | d in dirs ::
             after[d].(active := dirs[d].active) == dirs[d] && (Collection(d) || after[d] == dirs[d])
    ensures DirsOk(after)
  {
    hide Names.CanonicalId, Names.Safe, DirsDistinct;
    assert DirsDistinct(after) by { RestateDistinct(dirs, after); }
    forall d | d in after ensures DirOk(after, d) {
      assert DirOk(dirs, d);
    }
  }

  lemma RestateDistinct(dirs: Dirs, after: Dirs)
    requires DirsDistinct(dirs) && after.Keys == dirs.Keys
    requires forall d | d in dirs :: after[d].(active := dirs[d].active) == dirs[d]
    ensures DirsDistinct(after)
  {
  }

  lemma ViewsAreFixed()
    ensures !Collection(ViewAlbums) && !Collection(ViewPeople)
  {
  }

  lemma ViewsDiffer(assets: Assets, dirs: Dirs, next: Inode)
    requires DirsOk(dirs) && InodesOk(assets, dirs, next)
    ensures ViewAlbums in dirs && ViewPeople in dirs && dirs[ViewAlbums].inode != dirs[ViewPeople].inode
    ensures dirs[ViewPeople].inode != ROOT
  {
    ViewsExist(dirs);
    hide DirOk;
  }

  lemma NothingTaken(dirs: Dirs)
    ensures Taken(dirs, ROOT, NamesBelow(dirs, ROOT))
  {
  }

  lemma CollectionDirs(albums: seq<Named>, people: seq<Named>)
    ensures forall d | d in AlbumDirs(albums) + PersonDirs(people) :: Collection(d)
  {
  }

  lemma CollectionPlaced(dirs: Dirs, d: Identity)
    requires DirsOk(dirs) && Collection(d)
    ensures ParentOf(d) in dirs
    ensures d in dirs ==> dirs[d].parent == dirs[ParentOf(d)].inode
  {
    ViewsExist(dirs);
    hide DirsDistinct;
    if d in dirs { assert DirOk(dirs, d); }
  }

  function WithCollection(dirs: Dirs, next: Inode, d: Identity, name: string): Dirs
    requires ParentOf.requires(d) && ParentOf(d) in dirs
  {
    WithDir(dirs, next, d, dirs[ParentOf(d)].inode, name)
  }

  lemma WakeKnown(assets: Assets, dirs0: Dirs, next0: Inode, dirs: Dirs, next: Inode, on: set<Identity>, d: Identity,
                  name: string, used: set<string>, other: Inode, otherUsed: set<string>)
    requires DirsOk(dirs) && InodesOk(assets, dirs, next) && Rewoken(dirs0, next0, dirs, next, on)
    requires Collection(d) && Names.CanonicalId(StableId(d)) && ParentOf(d) in dirs
    requires d in dirs
    requires Taken(dirs, dirs[ParentOf(d)].inode, used)
    requires Taken(dirs, other, otherUsed) && other != dirs[ParentOf(d)].inode
    ensures var after := WithCollection(dirs, next, d, name);
            && DirsOk(after) && InodesOk(assets, after, NextAfter(dirs, next, d))
            && Rewoken(dirs0, next0, after, NextAfter(dirs, next, d), on + {d})
            && Taken(after, dirs[ParentOf(d)].inode, used)
            && Taken(after, other, otherUsed)
            && forall e | e in dirs && !Collection(e) :: e in after && after[e] == dirs[e]
  {
    hide DirsOk, InodesOk, Names.CanonicalId, Names.Safe;
    CollectionPlaced(dirs, d);
    WakeDirectory(assets, dirs, next, d);
  }

  lemma AddUnknown(assets: Assets, dirs0: Dirs, next0: Inode, dirs: Dirs, next: Inode, on: set<Identity>, d: Identity,
                   name: string, used: set<string>, other: Inode, otherUsed: set<string>)
    requires DirsOk(dirs) && InodesOk(assets, dirs, next) && Rewoken(dirs0, next0, dirs, next, on)
    requires Collection(d) && Names.CanonicalId(StableId(d)) && ParentOf(d) in dirs
    requires d !in dirs && Names.Safe(name, Names.LIMIT) && name !in used
    requires Taken(dirs, dirs[ParentOf(d)].inode, used)
    requires Taken(dirs, other, otherUsed) && other != dirs[ParentOf(d)].inode
    ensures var after := WithCollection(dirs, next, d, name);
            && DirsOk(after) && InodesOk(assets, after, NextAfter(dirs, next, d))
            && Rewoken(dirs0, next0, after, NextAfter(dirs, next, d), on + {d})
            && Taken(after, dirs[ParentOf(d)].inode, used + {name})
            && Taken(after, other, otherUsed)
            && forall e | e in dirs && !Collection(e) :: e in after && after[e] == dirs[e]
  {
    hide DirsOk, InodesOk, Names.CanonicalId, Names.Safe;
    CollectionPlaced(dirs, d);
    AddDirectory(assets, dirs, next, d, name);
  }

  // One collection wakes up, or comes under a free name.
  lemma WakeCollection(assets: Assets, dirs0: Dirs, next0: Inode, dirs: Dirs, next: Inode, on: set<Identity>,
                       d: Identity, name: string, used: set<string>, other: Inode, otherUsed: set<string>)
    requires DirsOk(dirs) && InodesOk(assets, dirs, next) && Rewoken(dirs0, next0, dirs, next, on)
    requires Collection(d) && Names.CanonicalId(StableId(d)) && ParentOf(d) in dirs
    requires d !in dirs ==> Names.Safe(name, Names.LIMIT) && name !in used
    requires Taken(dirs, dirs[ParentOf(d)].inode, used)
    requires Taken(dirs, other, otherUsed) && other != dirs[ParentOf(d)].inode
    ensures var after := WithCollection(dirs, next, d, name);
            && DirsOk(after) && InodesOk(assets, after, NextAfter(dirs, next, d))
            && Rewoken(dirs0, next0, after, NextAfter(dirs, next, d), on + {d})
            && Taken(after, dirs[ParentOf(d)].inode, if d in dirs then used else used + {name})
            && Taken(after, other, otherUsed)
            && forall e | e in dirs && !Collection(e) :: e in after && after[e] == dirs[e]
  {
    hide DirsOk, InodesOk, Names.CanonicalId, Names.Safe, Taken, Rewoken, WithCollection, NextAfter;
    if d in dirs {
      WakeKnown(assets, dirs0, next0, dirs, next, on, d, name, used, other, otherUsed);
    } else {
      AddUnknown(assets, dirs0, next0, dirs, next, on, d, name, used, other, otherUsed);
    }
  }

  lemma MoreDirs(values: seq<Named>, i: nat)
    requires i < |values|
    ensures AlbumDirs(values[..i + 1]) == AlbumDirs(values[..i]) + {AlbumDir(values[i].0)}
    ensures PersonDirs(values[..i + 1]) == PersonDirs(values[..i]) + {PersonDir(values[i].0)}
  {
    assert forall j | 0 <= j < i :: values[..i + 1][j] == values[..i][j];
  }

  // ---------------------------------------------------- the new memberships

  lemma NewMembershipsOk(t: Tables, albums: seq<Named>, albumPairs: set<(Id, Id)>, people: seq<Named>,
                         peoplePairs: set<(Id, Id)>, owner: Id)
    requires PairsOk(albumPairs, albums, t.assets, owner) && PairsOk(peoplePairs, people, t.assets, owner)
    requires t.memberships == CollectionLinks(albumPairs, peoplePairs)
    requires forall d | d in AlbumDirs(albums) + PersonDirs(people) :: d in t.dirs && t.dirs[d].active
    ensures MembershipsOk(t)
  {
    hide Showable;
    forall m | m in t.memberships
      ensures m.1 in t.assets && m.0 in t.dirs && Collection(m.0) && t.dirs[m.0].active
    {
      if m.0.AlbumDir? {
        assert (m.0.id, m.1) in albumPairs;
        var i :| 0 <= i < |albums| && albums[i].0 == m.0.id;
        assert m.0 in AlbumDirs(albums);
      } else {
        assert (m.0.id, m.1) in peoplePairs;
        var i :| 0 <= i < |people| && people[i].0 == m.0.id;
        assert m.0 in PersonDirs(people);
      }
    }
  }

  lemma WokenActive(dirs: Dirs, next: Inode, after: Dirs, nextAfter: Inode, on: set<Identity>)
    requires Rewoken(dirs, next, after, nextAfter, on) && forall d | d in on :: Collection(d)
    ensures forall d | d in on :: d in after && after[d].active
  {
  }

  // The collections that are listed, and where; nothing else has moved.
  ghost predicate Recollected(t: Tables, on: set<Identity>, memberships: Links, u: Tables) {
    && u.assets == t.assets && u.pins == t.pins && u.memberships == memberships
    && (forall d | d in u.dirs && Collection(d) :: u.dirs[d].active <==> d in on)
    && (forall d | d in on :: d in u.dirs)
    && (forall d | d in t.dirs :: d in u.dirs && u.dirs[d].(active := t.dirs[d].active) == t.dirs[d])
  }

  lemma RecollectedFrom(t: Tables, middle: Tables, u: Tables, on: set<Identity>)
    requires Rewoken(t.dirs, t.next, middle.dirs, middle.next, on)
    requires Grown(middle.dirs, middle.next, u.dirs, u.next)
    requires u.assets == t.assets && u.pins == t.pins
    ensures Recollected(t, on, u.memberships, u) && Advances(t, u)
  {
  }
}
