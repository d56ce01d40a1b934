// What whole catalog transactions do to the tables.
module CatalogChanges {
  import opened Options
  import Names
  import opened CatalogTables
  import opened CatalogSteps

  function UsedNames(assets: Assets): set<string> {
    set a | a in assets :: assets[a].name
  }

  // --------------------------------------------------------- never reused

  // A transaction keeps what it does not remove under its inode, and hands out
  // new inodes only.
  ghost predicate Advances(t: Tables, u: Tables) {
    && t.next <= u.next
    && (forall a | a in u.assets ::
       (a in t.assets && t.assets[a].inode == u.assets[a].inode) || t.next <= u.assets[a].inode)
    && (forall a | a in u.assets && a in t.assets :: t.assets[a].inode == u.assets[a].inode)
    && (forall d | d in t.dirs :: d in u.dirs && u.dirs[d].inode == t.dirs[d].inode)
    && (forall d | d in u.dirs && d !in t.dirs :: t.next <= u.dirs[d].inode)
  }

  // Whether or not the links are what they should be.
  ghost predicate History(states: seq<Tables>) {
    && states != []
    && (forall i {:trigger states[i]} | 0 <= i < |states| :: FrameOf(states[i]))
    && (forall i, j | 0 <= i && j == i + 1 < |states| :: Advances(states[i], states[j]))
  }

  // What has a low inode was there already.
  lemma {:induction false} OldInodesStay(states: seq<Tables>, i: nat, j: nat)
    requires History(states) && i <= j < |states|
    ensures states[i].next <= states[j].next
    ensures forall b | b in states[j].assets && states[j].assets[b].inode < states[i].next ::
              b in states[i].assets && states[i].assets[b].inode == states[j].assets[b].inode
    ensures forall d | d in states[j].dirs && states[j].dirs[d].inode < states[i].next ::
              d in states[i].dirs && states[i].dirs[d].inode == states[j].dirs[d].inode
  {
    hide FrameOf;
    if i < j {
      OldInodesStay(states, i, j - 1);
      assert Advances(states[j - 1], states[j]);
    }
  }

  // An inode that was ever an asset's is never another asset's, even after that
  // one is gone, and never a directory's.
  lemma InodesAreNeverReused(states: seq<Tables>, i: nat, j: nat, a: Id)
    requires History(states) && i <= j < |states| && a in states[i].assets
    ensures forall b | b in states[j].assets && b != a :: states[j].assets[b].inode != states[i].assets[a].inode
    ensures forall d | d in states[j].dirs :: states[j].dirs[d].inode != states[i].assets[a].inode
  {
    OldInodesStay(states, i, j);
    hide History, DirsOk, DatesOk, MembershipsOk, TargetsOk;
    assert FrameOf(states[i]) by { HistoryFrame(states, i); }
  }

  lemma HistoryFrame(states: seq<Tables>, i: nat)
    requires History(states) && i < |states|
    ensures FrameOf(states[i])
  {
    hide FrameOf, Advances;
  }

  // ------------------------------------------------------------ projections

  ghost predicate SameElsewhere(t: Assets, u: Assets, ids: set<Id>) {
    forall s | s !in ids :: (s in t <==> s in u) && (s in t ==> u[s].asset == t[s].asset)
  }

  predicate PointsTo(assets: Assets, still: Id, motion: Id) {
    still in assets && assets[still].asset.motion == Some(motion)
  }

  // Every video that an asset points at only before or only after is counted.
  ghost predicate MotionsCovered(t: Assets, u: Assets, ids: set<Id>) {
    forall still, motion | PointsTo(t, still, motion) != PointsTo(u, still, motion) :: motion in ids
  }

  lemma UntouchedBelong(t: Tables, u: Tables, ids: set<Id>)
    requires CollectionsOnly(t.memberships) && u.memberships == t.memberships
    requires Grown(t.dirs, t.next, u.dirs, u.next)
    requires SameElsewhere(t.assets, u.assets, ids) && MotionsCovered(t.assets, u.assets, ids)
    ensures forall id | id !in ids :: Projected(u, id) == Projected(t, id)
  {
    hide Grown, CollectionsOnly;
    var v := t.(dirs := u.dirs, next := u.next);
    ProjectedStays(t, u.dirs, u.next, t.links);
    forall id | id !in ids ensures Projected(u, id) == Projected(v, id) {
      SamePointed(t.assets, u.assets, ids, id);
      hide Pointed, MotionsCovered, SameElsewhere;
    }
  }

  lemma SamePointed(t: Assets, u: Assets, ids: set<Id>, id: Id)
    requires MotionsCovered(t, u, ids) && id !in ids
    ensures Pointed(u, id) == Pointed(t, id)
  {
    if Pointed(t, id) {
      var still :| still in t && t[still].asset.motion == Some(id);
      assert PointsTo(t, still, id) && PointsTo(u, still, id);
    }
    if Pointed(u, id) {
      var still :| still in u && u[still].asset.motion == Some(id);
      assert PointsTo(t, still, id) && PointsTo(u, still, id);
    }
  }

  ghost predicate FrameOf(u: Tables) {
    && AssetsOk(u.assets) && DirsOk(u.dirs) && InodesOk(u.assets, u.dirs, u.next) && MembershipsOk(u)
    && TargetsOk(u.dirs, u.links) && DatesOk(u.dirs, u.links)
  }

  // What the foreign key of the links asks for.
  ghost predicate RowsLinked(assets: Assets, links: Links) {
    forall link | link in links :: link.1 in assets
  }

  // A catalog that has everything in order but, it may be, where its assets are
  // listed: what a publication over a Live Photo's video can leave.
  ghost predicate Sound(t: Tables) {
    FrameOf(t) && RowsLinked(t.assets, t.links)
  }

  // The asset is listed where a projection from scratch would list it.
  ghost predicate Placed(t: Tables, id: Id) {
    forall d :: (d, id) in t.links <==> d in Projected(t, id)
  }

  // Nobody who is listed rightly is listed wrongly afterwards.
  ghost predicate KeepsPlaces(t: Tables, u: Tables) {
    forall a :: Placed(t, a) ==> Placed(u, a)
  }

  lemma LinksOkIffPlaced(t: Tables)
    ensures LinksOk(t) <==> forall a :: Placed(t, a)
  {
    hide Projected, Projection;
    if LinksOk(t) {
      forall a, d ensures (d, a) in t.links <==> d in Projected(t, a) { InProjection(t, (d, a)); }
    }
    if forall a :: Placed(t, a) {
      forall link ensures link in t.links <==> link in Projection(t) {
        InProjection(t, link);
        assert Placed(t, link.1);
        assert link == (link.0, link.1);
      }
    }
  }

  lemma ProjectedIsThere(t: Tables, id: Id)
    ensures Projected(t, id) != {} ==> id in t.assets
  {
    hide Homes, Pointed, Showable;
  }

  lemma InvIffSound(t: Tables)
    ensures Inv(t) <==> Sound(t) && forall a :: Placed(t, a)
  {
    hide AssetsOk, DirsOk, InodesOk, MembershipsOk, DatesOk, LinksOk, Placed, Projected;
    LinksOkIffPlaced(t);
    if Inv(t) {
      InvTargets(t);
      LinksOkRows(t);
    }
  }

  lemma LinksOkRows(t: Tables)
    requires LinksOk(t)
    ensures RowsLinked(t.assets, t.links)
  {
    hide Projected, Projection;
    forall link | link in t.links ensures link.1 in t.assets {
      InProjection(t, link);
      ProjectedIsThere(t, link.1);
    }
  }

  lemma SoundParts(t: Tables)
    requires Sound(t)
    ensures AssetsOk(t.assets) && DirsOk(t.dirs) && InodesOk(t.assets, t.dirs, t.next) && MembershipsOk(t)
    ensures CollectionsOnly(t.memberships) && TargetsOk(t.dirs, t.links) && DatesOk(t.dirs, t.links)
    ensures RowsLinked(t.assets, t.links) && FrameOf(t)
  {
    hide AssetsOk, DirsOk, InodesOk, LinksOk, DatesOk, TargetsOk;
    MembershipsAreCollections(t);
  }

  lemma KeepingIsEnough(t: Tables, u: Tables)
    requires KeepsPlaces(t, u) && Sound(u)
    ensures Inv(t) ==> Inv(u)
  {
    hide Inv, Sound, Placed;
    InvIffSound(t);
    InvIffSound(u);
  }

  lemma InvKeepsPlaces(t: Tables, u: Tables)
    requires Inv(u)
    ensures KeepsPlaces(t, u)
  {
    hide Inv, Placed;
    InvIffSound(u);
  }

  // What a transaction projects again is where it belongs, and everybody else
  // stays where they are: if they were where they belong, they still are.
  lemma RelinkedPlaces(t: Tables, u: Tables, ids: set<Id>)
    requires Relinked(t.links, u.links, u, ids) && t.assets.Keys <= u.assets.Keys && RowsLinked(t.assets, t.links)
    requires forall id | id !in ids :: Projected(u, id) == Projected(t, id)
    ensures forall a :: a in ids || Placed(t, a) ==> Placed(u, a)
    ensures RowsLinked(u.assets, u.links)
  {
    hide Projected;
    forall a | a in ids || Placed(t, a) ensures Placed(u, a) {
      forall d ensures (d, a) in u.links <==> d in Projected(u, a) {}
    }
    forall link | link in u.links ensures link.1 in u.assets { ProjectedIsThere(u, link.1); }
  }

  // A transaction that projects what it has touched keeps the whole namespace
  // what it would be from scratch.
  lemma ProjectingTheTouchedIsEnough(t: Tables, u: Tables, ids: set<Id>)
    requires Sound(t) && FrameOf(u) && t.assets.Keys <= u.assets.Keys
    requires u.memberships == t.memberships && Grown(t.dirs, t.next, u.dirs, u.next)
    requires SameElsewhere(t.assets, u.assets, ids) && MotionsCovered(t.assets, u.assets, ids)
    requires Relinked(t.links, u.links, u, ids)
    ensures Sound(u) && KeepsPlaces(t, u) && (forall a | a in ids :: Placed(u, a))
    ensures Inv(t) ==> Inv(u) && u.links == Projection(u)
  {
    hide Relinked, SameElsewhere, MotionsCovered, Grown, FrameOf, LinksOk, Placed, Projected, CollectionsOnly,
         RowsLinked, Inv;
    SoundParts(t);
    UntouchedBelong(t, u, ids);
    RelinkedPlaces(t, u, ids);
    KeepingIsEnough(t, u);
    if Inv(u) {
      InvLinks(u);
      LinksOkIs(u);
    }
  }

  lemma LinksOkIs(u: Tables)
    ensures LinksOk(u) <==> u.links == Projection(u)
  {
  }

  // And so does one that projects everything that can be shown.
  lemma ProjectingAllIsEnough(u: Tables, ids: set<Id>)
    requires FrameOf(u) && Relinked({}, u.links, u, ids)
    requires forall id | id in u.assets && Showable(u.assets[id].asset) :: id in ids
    ensures Inv(u) && u.links == Projection(u) && Sound(u)
  {
    hide Relinked, AssetsOk, DirsOk, InodesOk, DatesOk, MembershipsOk;
    RelinkedFromNothing(u, ids);
    LinksOkRows(u);
  }

  // ------------------------------------------------------------------- rows

  function NewName(assets: Assets, id: Id, requested: string): string {
    var name := Names.AvailableName(requested, id, UsedNames(assets));
    if name.Some? then name.value else ""
  }

  // An asset that is known keeps its inode and its name.
  function Upserted(assets: Assets, next: Inode, id: Id, asset: Asset, requested: string): Assets {
    assets[id := if id in assets then assets[id].(asset := asset) else Row(next, NewName(assets, id, requested), asset)]
  }

  function NextInode(assets: Assets, next: Inode, id: Id): Inode {
    if id in assets then next else next + 1
  }

  lemma UpsertKeeps(assets: Assets, dirs: Dirs, next: Inode, id: Id, asset: Asset, requested: string)
    requires AssetsOk(assets) && InodesOk(assets, dirs, next) && Names.CanonicalId(id)
    requires Names.Practical(|UsedNames(assets)| + 1)
    ensures var after := Upserted(assets, next, id, asset, requested);
            && AssetsOk(after) && InodesOk(after, dirs, NextInode(assets, next, id))
            && |UsedNames(after)| <= |UsedNames(assets)| + 1
    ensures id !in assets ==>
              && Names.AvailableName(requested, id, UsedNames(assets)) == Some(NewName(assets, id, requested))
              && NewName(assets, id, requested) !in UsedNames(assets)
  {
    hide Names.CanonicalId, Names.Safe, Names.AvailableName, Names.Practical, UsedNames;
    UsedNamesAfter(assets, id, Upserted(assets, next, id, asset, requested)[id]);
    if id !in assets {
      Names.AvailableNameIsFresh(requested, id, UsedNames(assets));
      hide NewName, AssetsOk, InodesOk;
      FreshRow(assets, dirs, next, id, Row(next, NewName(assets, id, requested), asset));
    } else {
      hide AssetsOk, InodesOk;
      SameRow(Tables(assets, dirs, {}, {}, {}, next), id, asset);
    }
  }

  lemma UsedNamesAfter(assets: Assets, id: Id, row: Row)
    ensures id !in assets ==> UsedNames(assets[id := row]) == UsedNames(assets) + {row.name}
    ensures id in assets && row.name == assets[id].name ==> UsedNames(assets[id := row]) == UsedNames(assets)
  {
    var after := assets[id := row];
    if id !in assets {
      forall name | name in UsedNames(assets) + {row.name} ensures name in UsedNames(after) {
        if name == row.name {
          assert after[id].name == name;
        } else {
          var a :| a in assets && assets[a].name == name;
          assert after[a].name == name;
        }
      }
    } else if row.name == assets[id].name {
      forall name | name in UsedNames(assets) ensures name in UsedNames(after) {
        var a :| a in assets && assets[a].name == name;
        assert after[a].name == name;
      }
    }
  }

  lemma FreshRow(assets: Assets, dirs: Dirs, next: Inode, id: Id, row: Row)
    requires AssetsOk(assets) && InodesOk(assets, dirs, next) && Names.CanonicalId(id) && id !in assets
    requires row.inode == next && Names.Safe(row.name, Names.LIMIT) && row.name !in UsedNames(assets)
    ensures AssetsOk(assets[id := row]) && InodesOk(assets[id := row], dirs, next + 1)
  {
    hide Names.CanonicalId, Names.Safe;
    forall a | a in assets ensures assets[a].name != row.name {
      assert assets[a].name in UsedNames(assets);
    }
  }

  function RowIds(rows: seq<(Id, Asset)>): set<Id> {
    set i | 0 <= i < |rows| :: rows[i].0
  }

  predicate Distinct(rows: seq<(Id, Asset)>) {
    forall i, j | 0 <= i < j < |rows| :: rows[i].0 != rows[j].0
  }

  function AllUpserted(assets: Assets, next: Inode, rows: seq<(Id, Asset)>): Assets {
    if rows == [] then assets
    else
      var n := |rows| - 1;
      Upserted(AllUpserted(assets, next, rows[..n]), AllNext(assets, next, rows[..n]), rows[n].0, rows[n].1,
               rows[n].1.originalName)
  }

  function AllNext(assets: Assets, next: Inode, rows: seq<(Id, Asset)>): Inode {
    if rows == [] then next
    else
      var n := |rows| - 1;
      NextInode(AllUpserted(assets, next, rows[..n]), AllNext(assets, next, rows[..n]), rows[n].0)
  }

  // What the staged rows make of the server's view.
  function Overlaid(contents: map<Id, Asset>, rows: seq<(Id, Asset)>): map<Id, Asset> {
    if rows == [] then contents
    else Overlaid(contents, rows[..|rows| - 1])[rows[|rows| - 1].0 := rows[|rows| - 1].1]
  }

  // Some assets come or change; those that were there keep inode and name.
  ghost predicate Extends(before: Assets, next: Inode, after: Assets, nextAfter: Inode, ids: set<Id>) {
    && after.Keys == before.Keys + ids
    && next <= nextAfter
    && (forall a | a in before :: after[a].inode == before[a].inode && after[a].name == before[a].name)
    && (forall a | a in before && a !in ids :: after[a] == before[a])
    && (forall a | a in after && a !in before :: next <= after[a].inode)
  }

  lemma ExtendsThen(a: Assets, m: Inode, b: Assets, n: Inode, c: Assets, o: Inode, ids: set<Id>, more: set<Id>)
    requires Extends(a, m, b, n, ids) && Extends(b, n, c, o, more)
    ensures Extends(a, m, c, o, ids + more)
  {
  }

  // The staged assets are there with what was staged, under the inode and the
  // name they had if they had one; nothing else changes.
  lemma {:induction false} UpsertsOverlay(assets: Assets, next: Inode, rows: seq<(Id, Asset)>)
    ensures var after := AllUpserted(assets, next, rows);
            && Contents(after) == Overlaid(Contents(assets), rows)
            && Extends(assets, next, after, AllNext(assets, next, rows), RowIds(rows))
  {
    hide Extends, Contents, Upserted, NextInode;
    if rows == [] {
      assert RowIds(rows) == {};
      ExtendsSelf(assets, next);
    } else {
      var n := |rows| - 1;
      UpsertsOverlay(assets, next, rows[..n]);
      var before, low := AllUpserted(assets, next, rows[..n]), AllNext(assets, next, rows[..n]);
      UpsertOne(before, low, rows[n].0, rows[n].1);
      assert RowIds(rows) == RowIds(rows[..n]) + {rows[n].0};
      ExtendsThen(assets, next, before, low, AllUpserted(assets, next, rows), AllNext(assets, next, rows),
                  RowIds(rows[..n]), {rows[n].0});
    }
  }

  lemma ExtendsSelf(assets: Assets, next: Inode)
    ensures Extends(assets, next, assets, next, {})
  {
  }

  lemma UpsertOne(assets: Assets, next: Inode, id: Id, asset: Asset)
    ensures var after := Upserted(assets, next, id, asset, asset.originalName);
            && Contents(after) == Contents(assets)[id := asset]
            && Extends(assets, next, after, NextInode(assets, next, id), {id})
  {
    hide NewName;
  }

  lemma {:induction false} OverlaidRow(contents: map<Id, Asset>, rows: seq<(Id, Asset)>, i: nat)
    requires Distinct(rows) && i < |rows|
    ensures rows[i].0 in Overlaid(contents, rows) && Overlaid(contents, rows)[rows[i].0] == rows[i].1
  {
    if i < |rows| - 1 { OverlaidRow(contents, rows[..|rows| - 1], i); }
  }

  // Every video that a refresh points at, or that a refreshed asset pointed at.
  function Touched(before: Assets, rows: seq<(Id, Asset)>): set<Id> {
    RowIds(rows)
    + (set i | 0 <= i < |rows| && rows[i].1.motion.Some? :: rows[i].1.motion.value)
    + (set i | 0 <= i < |rows| && rows[i].0 in before && before[rows[i].0].asset.motion.Some? ::
         before[rows[i].0].asset.motion.value)
  }

  lemma TouchedCovers(before: Assets, next: Inode, rows: seq<(Id, Asset)>)
    requires Distinct(rows)
    ensures var after := AllUpserted(before, next, rows);
            SameElsewhere(before, after, Touched(before, rows)) && MotionsCovered(before, after, Touched(before, rows))
  {
    var after := AllUpserted(before, next, rows);
    UpsertsOverlay(before, next, rows);
    hide AllUpserted, Overlaid;
    forall still, motion | PointsTo(before, still, motion) != PointsTo(after, still, motion)
      ensures motion in Touched(before, rows)
    {
      if still in RowIds(rows) {
        var i :| 0 <= i < |rows| && rows[i].0 == still;
        OverlaidRow(Contents(before), rows, i);
        assert after[still].asset == Contents(after)[still];
      }
    }
  }

  lemma UpsertsFrame(t: Tables, u: Tables, between: Inode, rows: seq<(Id, Asset)>)
    requires MembershipsOk(t) && u.memberships == t.memberships
    requires u.assets == AllUpserted(t.assets, t.next, rows) && between == AllNext(t.assets, t.next, rows)
    requires Grown(t.dirs, between, u.dirs, u.next)
    ensures t.assets.Keys <= u.assets.Keys
    ensures MembershipsOk(u) && Advances(t, u) && Grown(t.dirs, t.next, u.dirs, u.next)
  {
    UpsertsOverlay(t.assets, t.next, rows);
    hide AllUpserted, AllNext, Overlaid;
  }

  lemma MembershipsAfterUpserts(t: Tables, u: Tables, rows: seq<(Id, Asset)>)
    requires MembershipsOk(t) && u == t.(assets := AllUpserted(t.assets, t.next, rows), next := u.next)
    ensures MembershipsOk(u)
  {
    UpsertsOverlay(t.assets, t.next, rows);
    hide AllUpserted, AllNext, Overlaid;
  }

  lemma MembershipsKept(t: Tables, u: Tables, n: Inode, m: Inode)
    requires MembershipsOk(t) && u.memberships == t.memberships && t.assets.Keys <= u.assets.Keys
    requires Grown(t.dirs, n, u.dirs, m)
    ensures MembershipsOk(u)
  {
  }

  lemma InvParts(t: Tables)
    requires Inv(t)
    ensures AssetsOk(t.assets) && DirsOk(t.dirs) && InodesOk(t.assets, t.dirs, t.next) && MembershipsOk(t)
    ensures CollectionsOnly(t.memberships) && TargetsOk(t.dirs, t.links) && DatesOk(t.dirs, t.links)
  {
    hide AssetsOk, DirsOk, InodesOk, LinksOk, DatesOk, TargetsOk;
    InvTargets(t);
    MembershipsAreCollections(t);
  }

  lemma AdvancesSelf(t: Tables)
    ensures Advances(t, t)
  {
  }

  // --------------------------------------------------------------- one upload

  lemma UpsertTouches(t: Tables, id: Id, asset: Asset, requested: string, relations: set<Id>)
    requires asset.motion.Some? ==> asset.motion.value in relations
    requires id in t.assets && t.assets[id].asset.motion.Some? ==> t.assets[id].asset.motion.value in relations
    ensures var u := Upserted(t.assets, t.next, id, asset, requested);
            SameElsewhere(t.assets, u, {id} + relations) && MotionsCovered(t.assets, u, {id} + relations)
  {
    hide NewName;
  }

  lemma UpsertFrame(t: Tables, u: Tables, between: Inode, id: Id, asset: Asset, requested: string)
    requires MembershipsOk(t) && u.memberships == t.memberships
    requires u.assets == Upserted(t.assets, t.next, id, asset, requested) && between == NextInode(t.assets, t.next, id)
    requires Grown(t.dirs, between, u.dirs, u.next)
    ensures t.assets.Keys <= u.assets.Keys
    ensures MembershipsOk(u) && Advances(t, u) && Grown(t.dirs, t.next, u.dirs, u.next)
  {
    hide NewName;
  }

  // ----------------------------------------------------------------- trash

  lemma TrashTouchesOne(t: Assets, id: Id, asset: Asset)
    requires id in t && asset.motion == t[id].asset.motion
    ensures var u := t[id := t[id].(asset := asset)];
            SameElsewhere(t, u, {id}) && MotionsCovered(t, u, {id})
  {
  }

  lemma SameRow(t: Tables, id: Id, asset: Asset)
    requires AssetsOk(t.assets) && InodesOk(t.assets, t.dirs, t.next) && id in t.assets
    ensures var u := t.assets[id := t.assets[id].(asset := asset)];
            AssetsOk(u) && InodesOk(u, t.dirs, t.next) && u.Keys == t.assets.Keys
  {
    hide Names.CanonicalId, Names.Safe;
  }

  lemma TrashAdvances(t: Tables, u: Tables, id: Id, asset: Asset)
    requires id in t.assets && u.assets == t.assets[id := t.assets[id].(asset := asset)]
    requires Grown(t.dirs, t.next, u.dirs, u.next)
    ensures Advances(t, u)
  {
  }

  // ---------------------------------------------------------------- refresh

  // What is left of the links and memberships when assets are deleted.
  function Cascade(links: Links, assets: Assets): Links {
    set link | link in links && link.1 in assets
  }

  function Kept(assets: Assets, ids: set<Id>): Assets {
    map id | id in assets && id in ids :: assets[id]
  }

  lemma DeletedFrame(t: Tables, ids: set<Id>)
    requires FrameOf(t)
    ensures var u := t.(assets := Kept(t.assets, ids), links := Cascade(t.links, Kept(t.assets, ids)),
                        memberships := Cascade(t.memberships, Kept(t.assets, ids)));
            && AssetsOk(u.assets) && InodesOk(u.assets, u.dirs, u.next) && CollectionsOnly(u.memberships)
            && TargetsOk(u.dirs, u.links) && MembershipsOk(u)
            && UsedNames(u.assets) <= UsedNames(t.assets)
            && Advances(t, u)
  {
    hide DirsOk, DatesOk, Names.CanonicalId, Names.Safe;
    MembershipsAreCollections(t);
  }

  lemma FewerNames(a: set<string>, b: set<string>)
    requires a <= b
    ensures |a| <= |b|
  {
    assert b == a + (b - a);
  }

  lemma PracticalBelow(m: nat, n: nat)
    requires Names.Practical(n) && 1 <= m <= n
    ensures Names.Practical(m)
  {
  }

  // The catalog after a refresh that goes through.
  ghost predicate Refreshed(t: Tables, rows: seq<(Id, Asset)>, deleteMissing: bool, u: Tables) {
    var from := if deleteMissing then Kept(t.assets, RowIds(rows)) else t.assets;
    && u.assets == AllUpserted(from, t.next, rows)
    && u.memberships == (if deleteMissing then Cascade(t.memberships, from) else t.memberships)
    && u.pins == t.pins
  }

  // Each staged asset reads as it was staged, and an asset that was known keeps
  // its inode and its name; an incremental refresh drops nothing, a complete one
  // everything that was not staged.
  lemma RefreshedRows(t: Tables, rows: seq<(Id, Asset)>, deleteMissing: bool, u: Tables)
    requires Refreshed(t, rows, deleteMissing, u) && Distinct(rows)
    ensures u.assets.Keys == (if deleteMissing then {} else t.assets.Keys) + RowIds(rows)
    ensures forall i | 0 <= i < |rows| :: u.assets[rows[i].0].asset == rows[i].1
    ensures forall a | a in t.assets && a in u.assets ::
              u.assets[a].inode == t.assets[a].inode && u.assets[a].name == t.assets[a].name
    ensures forall a | a in t.assets && a in u.assets && a !in RowIds(rows) :: u.assets[a] == t.assets[a]
    ensures forall m :: m in u.memberships <==>
              m in t.memberships && (deleteMissing ==> m.1 in t.assets && m.1 in RowIds(rows))
    ensures u.pins == t.pins
  {
    var from := if deleteMissing then Kept(t.assets, RowIds(rows)) else t.assets;
    UpsertsOverlay(from, t.next, rows);
    hide AllUpserted, AllNext, Overlaid;
    forall i | 0 <= i < |rows| ensures rows[i].0 in u.assets && u.assets[rows[i].0].asset == rows[i].1 {
      OverlaidRow(Contents(from), rows, i);
      assert u.assets[rows[i].0].asset == Contents(u.assets)[rows[i].0];
    }
  }

  lemma RefreshedContents(t: Tables, rows: seq<(Id, Asset)>, deleteMissing: bool, u: Tables)
    requires Refreshed(t, rows, deleteMissing, u) && Distinct(rows)
    ensures Contents(u.assets) == Overlaid(if deleteMissing then map[] else Contents(t.assets), rows)
  {
    hide AllUpserted, AllNext;
    if deleteMissing {
      UpsertsOverlay(Kept(t.assets, RowIds(rows)), t.next, rows);
      OverlaidOver(Contents(Kept(t.assets, RowIds(rows))), rows);
    } else {
      UpsertsOverlay(t.assets, t.next, rows);
    }
  }

  // Rows that are all replaced do not matter.
  lemma {:induction false} OverlaidOver(contents: map<Id, Asset>, rows: seq<(Id, Asset)>)
    requires contents.Keys <= RowIds(rows)
    ensures Overlaid(contents, rows) == Overlaid(map[], rows)
  {
    OverlaidDiffers(contents, rows);
    assert Overlaid(contents, rows) == Overlaid(map[], rows);
  }

  lemma {:induction false} OverlaidDiffers(contents: map<Id, Asset>, rows: seq<(Id, Asset)>)
    ensures Overlaid(contents, rows).Keys == contents.Keys + RowIds(rows)
    ensures Overlaid(map[], rows).Keys == RowIds(rows)
    ensures forall id | id in RowIds(rows) :: Overlaid(contents, rows)[id] == Overlaid(map[], rows)[id]
  {
    if rows == [] {
      assert RowIds(rows) == {};
    } else {
      var n := |rows| - 1;
      OverlaidDiffers(contents, rows[..n]);
      assert RowIds(rows) == RowIds(rows[..n]) + {rows[n].0};
      hide RowIds;
    }
  }

  lemma RefreshAdvances(t: Tables, deleted: Tables, u: Tables, rows: seq<(Id, Asset)>)
    requires deleted.assets == Kept(t.assets, RowIds(rows)) && deleted.dirs == t.dirs && deleted.next == t.next
    requires u.assets == AllUpserted(deleted.assets, t.next, rows) && Advances(deleted, u)
    ensures Advances(t, u)
  {
    UpsertsOverlay(deleted.assets, t.next, rows);
    hide AllUpserted, AllNext, Overlaid;
  }

  // Date directories before they are marked again.
  lemma Asleep(t: Tables, u: Tables)
    requires DirsOk(t.dirs) && InodesOk(t.assets, t.dirs, t.next)
    requires u == t.(links := {},
                     dirs := map d | d in t.dirs :: if Dated(d) then t.dirs[d].(active := false) else t.dirs[d])
    ensures DirsOk(u.dirs) && InodesOk(u.assets, u.dirs, u.next) && TargetsOk(u.dirs, {})
    ensures Grown(t.dirs, t.next, u.dirs, u.next)
  {
    hide DirsOk;
    SamePlacesDirsOk(t.dirs, u.dirs);
  }

  // ------------------------------------------------------------ replacement

  predicate Managed(asset: Asset) {
    Showable(asset) && asset.library == None
  }

  // The checks of publish_replacement that the invariant does not settle.
  predicate Publishable(t: Tables, source: Id, id: Id, candidate: Asset) {
    && id != source && source in t.assets && id !in t.assets
    && Managed(t.assets[source].asset) && Managed(candidate)
    && var was := t.assets[source].asset;
       && candidate.owner == was.owner && candidate.visibility == was.visibility && candidate.date == was.date
       && candidate.favorite == was.favorite && candidate.motion == was.motion
  }

  function OtherNames(assets: Assets, source: Id): set<string> {
    set a | a in assets && a != source :: assets[a].name
  }

  function Moved(links: Links, from: Id, to: Id): Links {
    set link | link in links :: (link.0, if link.1 == from then to else link.1)
  }

  function Published(t: Tables, source: Id, id: Id, candidate: Asset, retired: string): Tables
    requires source in t.assets
  {
    var was := t.assets[source];
    t.(assets := t.assets[source := was.(name := retired, asset := was.asset.(trashed := true))]
                         [id := Row(t.next, was.name, candidate)],
       links := Moved(t.links, source, id),
       memberships := Moved(t.memberships, source, id),
       pins := t.pins - {source, id} + (if source in t.pins then {id} else {}),
       next := t.next + 1)
  }

  lemma InMoved(links: Links, from: Id, to: Id, link: (Identity, Id))
    ensures link in Moved(links, from, to) <==>
              (link.1 != from && link in links) || (link.1 == to && (link.0, from) in links)
              || (from == to && link in links)
  {
    if link.1 == to && (link.0, from) in links { assert (link.0, from) in links; }
  }

  lemma PublishedPointed(t: Tables, source: Id, id: Id, candidate: Asset, retired: string, motion: Id)
    requires Publishable(t, source, id, candidate)
    ensures Pointed(Published(t, source, id, candidate, retired).assets, motion) == Pointed(t.assets, motion)
  {
    hide Managed;
    var u := Published(t, source, id, candidate, retired);
    if Pointed(u.assets, motion) {
      var still :| still in u.assets && u.assets[still].asset.motion == Some(motion);
      var before := if still == id then source else still;
      assert t.assets[before].asset.motion == Some(motion);
    }
    if Pointed(t.assets, motion) {
      var still :| still in t.assets && t.assets[still].asset.motion == Some(motion);
      assert u.assets[still].asset.motion == Some(motion);
    }
  }

  lemma NothingOfNew(t: Tables, id: Id)
    requires MembershipsOk(t) && RowsLinked(t.assets, t.links) && id !in t.assets
    ensures forall d :: (d, id) !in t.memberships && (d, id) !in t.links
  {
  }

  lemma PublishedCollections(t: Tables, source: Id, id: Id, candidate: Asset, retired: string, other: Id, d: Identity)
    requires MembershipsOk(t) && RowsLinked(t.assets, t.links) && Publishable(t, source, id, candidate)
    ensures var u := Published(t, source, id, candidate, retired);
            d in Collections(u.dirs, u.memberships, other) <==>
              (other != source && d in Collections(t.dirs, t.memberships, if other == id then source else other))
  {
    hide Managed, MembershipsOk, RowsLinked;
    NothingOfNew(t, id);
    InMoved(t.memberships, source, id, (d, other));
  }

  // Where an asset belongs after a publication.
  lemma PublishedProjected(t: Tables, source: Id, id: Id, candidate: Asset, retired: string, other: Id)
    requires MembershipsOk(t) && RowsLinked(t.assets, t.links) && Publishable(t, source, id, candidate)
    ensures var u := Published(t, source, id, candidate, retired);
            && (other == source ==> Projected(u, other) == {})
            && (other == id ==>
                  Projected(u, other) ==
                  if Pointed(t.assets, id) then {} else Homes(t.dirs, t.memberships, source, t.assets[source].asset))
            && (other != source && other != id ==> Projected(u, other) == Projected(t, other))
  {
    var u := Published(t, source, id, candidate, retired);
    PublishedPointed(t, source, id, candidate, retired, other);
    forall d
      ensures d in Collections(u.dirs, u.memberships, other) <==>
                (other != source && d in Collections(t.dirs, t.memberships, if other == id then source else other))
    {
      PublishedCollections(t, source, id, candidate, retired, other, d);
    }
    hide Pointed, Collections, MembershipsOk, RowsLinked;
  }

  // publish_replacement hands the source's links to the candidate unseen. That
  // is right exactly when source and candidate are alike in being, or not
  // being, the video of some Live Photo.
  lemma PublicationKeepsProjectionIff(t: Tables, source: Id, id: Id, candidate: Asset, retired: string)
    requires MembershipsOk(t) && LinksOk(t) && Publishable(t, source, id, candidate)
    ensures LinksOk(Published(t, source, id, candidate, retired)) <==>
              (Pointed(t.assets, source) <==> Pointed(t.assets, id))
  {
    var u := Published(t, source, id, candidate, retired);
    var homes := Homes(t.dirs, t.memberships, source, t.assets[source].asset);
    forall d
      ensures (d, source) in t.links <==> !Pointed(t.assets, source) && d in homes
    {
      InProjection(t, (d, source));
    }
    assert ViewAll in homes;
    forall link: (Identity, Id)
      ensures link.1 != id ==> (link in u.links <==> link in Projection(u))
      ensures link.1 == id ==> (link in u.links <==> !Pointed(t.assets, source) && link.0 in homes)
      ensures link.1 == id ==> (link in Projection(u) <==> !Pointed(t.assets, id) && link.0 in homes)
    {
      PublishedLink(t, source, id, candidate, retired, link);
    }
    hide Published, Publishable, Pointed, Homes, Projection;
    if Pointed(t.assets, source) <==> Pointed(t.assets, id) {
      assert u.links == Projection(u);
    } else {
      assert (ViewAll, id) in u.links <==> (ViewAll, id) !in Projection(u);
    }
  }

  lemma PublishedLink(t: Tables, source: Id, id: Id, candidate: Asset, retired: string, link: (Identity, Id))
    requires MembershipsOk(t) && LinksOk(t) && Publishable(t, source, id, candidate)
    ensures var u := Published(t, source, id, candidate, retired);
            var homes := Homes(t.dirs, t.memberships, source, t.assets[source].asset);
            && (link.1 != id ==> (link in u.links <==> link in Projection(u)))
            && (link.1 == id ==> (link in u.links <==> !Pointed(t.assets, source) && link.0 in homes))
            && (link.1 == id ==> (link in Projection(u) <==> !Pointed(t.assets, id) && link.0 in homes))
  {
    var u := Published(t, source, id, candidate, retired);
    LinksOkRows(t);
    InMoved(t.links, source, id, link);
    NothingOfNew(t, id);
    InProjection(t, link);
    InProjection(t, (link.0, source));
    InProjection(u, link);
    PublishedProjected(t, source, id, candidate, retired, link.1);
    SourceProjected(t, source, id, candidate);
    hide Pointed, Homes, Projected, Projection, MembershipsOk, Publishable, Moved;
  }

  lemma SourceProjected(t: Tables, source: Id, id: Id, candidate: Asset)
    requires Publishable(t, source, id, candidate)
    ensures Projected(t, source) ==
            if Pointed(t.assets, source) then {} else Homes(t.dirs, t.memberships, source, t.assets[source].asset)
  {
    hide Homes;
  }

  // The same from a catalog that already lists something wrongly: everybody but
  // the candidate stays where they are, and the candidate is listed rightly
  // exactly if the source was listed where the candidate belongs.
  lemma PublicationPlaces(t: Tables, source: Id, id: Id, candidate: Asset, retired: string)
    requires MembershipsOk(t) && RowsLinked(t.assets, t.links) && Publishable(t, source, id, candidate)
    ensures var u := Published(t, source, id, candidate, retired);
            && (forall a | a != id && Placed(t, a) :: Placed(u, a)) && Placed(u, source)
            && (Placed(u, id) <==> ListsFor(t, source, id))
            && RowsLinked(u.assets, u.links)
  {
    hide MembershipsOk, RowsLinked, Managed, Projected, Homes, Pointed, Published;
    var u := Published(t, source, id, candidate, retired);
    forall a, d
      ensures (d, a) in u.links <==> a != source && (d, if a == id then source else a) in t.links
    {
      PublishedLinks(t, source, id, candidate, retired, (d, a));
    }
    forall a ensures a == source || (a != id && Placed(t, a)) ==> Placed(u, a) {
      PublishedProjected(t, source, id, candidate, retired, a);
    }
    PublishedProjected(t, source, id, candidate, retired, id);
    forall d ensures ((d, id) in u.links <==> d in Projected(u, id)) <==> ListsHere(t, source, id, d) {}
    assert Placed(u, id) <==> forall d :: (d, id) in u.links <==> d in Projected(u, id);
    PublishedRowsLinked(t, source, id, candidate, retired);
  }

  lemma PublishedLinks(t: Tables, source: Id, id: Id, candidate: Asset, retired: string, link: (Identity, Id))
    requires MembershipsOk(t) && RowsLinked(t.assets, t.links) && Publishable(t, source, id, candidate)
    ensures link in Published(t, source, id, candidate, retired).links <==>
            link.1 != source && (link.0, if link.1 == id then source else link.1) in t.links
  {
    hide Managed, MembershipsOk, RowsLinked, Moved;
    InMoved(t.links, source, id, link);
    NothingOfNew(t, id);
    assert link == (link.0, link.1);
  }

  lemma PublishedRowsLinked(t: Tables, source: Id, id: Id, candidate: Asset, retired: string)
    requires RowsLinked(t.assets, t.links) && Publishable(t, source, id, candidate)
    ensures var u := Published(t, source, id, candidate, retired); RowsLinked(u.assets, u.links)
  {
    hide Managed;
  }

  // The source is listed where the candidate belongs.
  ghost predicate ListsFor(t: Tables, source: Id, id: Id)
    requires source in t.assets
  {
    forall d :: ListsHere(t, source, id, d)
  }

  ghost predicate ListsHere(t: Tables, source: Id, id: Id, d: Identity)
    requires source in t.assets
  {
    (d, source) in t.links <==>
    !Pointed(t.assets, id) && d in Homes(t.dirs, t.memberships, source, t.assets[source].asset)
  }

  // Everything else holds after a publication anyway, if the retired name is
  // new.
  lemma PublishedFrame(t: Tables, source: Id, id: Id, candidate: Asset, retired: string)
    requires Sound(t) && Publishable(t, source, id, candidate) && Names.CanonicalId(id)
    requires Names.Safe(retired, Names.LIMIT) && retired != t.assets[source].name
    requires retired !in OtherNames(t.assets, source)
    ensures FrameOf(Published(t, source, id, candidate, retired))
    ensures Advances(t, Published(t, source, id, candidate, retired))
  {
    SoundParts(t);
    hide Sound, DirsOk;
    var u := Published(t, source, id, candidate, retired);
    PublishedRows(t, source, id, candidate, retired);
    PublishedTargets(t, source, id);
    hide AssetsOk, DatesOk, TargetsOk, Managed, Names.Safe, Names.CanonicalId, RowsLinked;
    forall m | m in u.memberships
      ensures m.1 in u.assets && m.0 in u.dirs && Collection(m.0) && u.dirs[m.0].active
    {
      InMoved(t.memberships, source, id, m);
    }
  }

  lemma PublishedRows(t: Tables, source: Id, id: Id, candidate: Asset, retired: string)
    requires AssetsOk(t.assets) && InodesOk(t.assets, t.dirs, t.next) && Names.CanonicalId(id)
    requires Publishable(t, source, id, candidate)
    requires Names.Safe(retired, Names.LIMIT) && retired != t.assets[source].name
    requires retired !in OtherNames(t.assets, source)
    ensures var u := Published(t, source, id, candidate, retired);
            AssetsOk(u.assets) && InodesOk(u.assets, u.dirs, u.next) && Advances(t, u)
  {
    hide Names.Safe, Names.CanonicalId, Managed, Moved, AssetsOk, InodesOk;
    var was := t.assets[source];
    RenameRow(t, source, was.(name := retired, asset := was.asset.(trashed := true)));
    var renamed := t.assets[source := was.(name := retired, asset := was.asset.(trashed := true))];
    FreshRow(renamed, t.dirs, t.next, id, Row(t.next, was.name, candidate));
    hide UsedNames, OtherNames;
  }

  lemma RenameRow(t: Tables, source: Id, row: Row)
    requires AssetsOk(t.assets) && InodesOk(t.assets, t.dirs, t.next) && source in t.assets
    requires row.inode == t.assets[source].inode && Names.Safe(row.name, Names.LIMIT)
    requires row.name !in OtherNames(t.assets, source) && row.name != t.assets[source].name
    ensures AssetsOk(t.assets[source := row]) && InodesOk(t.assets[source := row], t.dirs, t.next)
    ensures t.assets[source].name !in UsedNames(t.assets[source := row])
    ensures Names.Safe(t.assets[source].name, Names.LIMIT)
  {
    hide Names.Safe, Names.CanonicalId;
    forall a | a in t.assets && a != source ensures t.assets[a].name != row.name {
      assert t.assets[a].name in OtherNames(t.assets, source);
    }
  }

  lemma PublishedTargets(t: Tables, source: Id, id: Id)
    requires TargetsOk(t.dirs, t.links) && DatesOk(t.dirs, t.links)
    ensures TargetsOk(t.dirs, Moved(t.links, source, id)) && DatesOk(t.dirs, Moved(t.links, source, id))
  {
    var after := Moved(t.links, source, id);
    forall d ensures LinkedBelow(after, d) <==> LinkedBelow(t.links, d) {
      if LinkedBelow(t.links, d) {
        var link :| link in t.links && link.0.DayDir? && Above(d, link.0.day);
        assert (link.0, if link.1 == source then id else link.1) in after;
      }
    }
    hide LinkedBelow;
  }

  // The source's retired name clashes with its own exactly when the name
  // already carries the marker that it would be given: the first marker whose
  // name is free gives back the name itself.
  lemma RetiredNameClashesIff(t: Tables, source: Id)
    requires AssetsOk(t.assets) && source in t.assets && Names.Practical(|OtherNames(t.assets, source)| + 1)
    ensures var name, others := t.assets[source].name, OtherNames(t.assets, source);
            && Names.RetiredName(name, source, others).Some?
            && Names.RetiredName(name, source, others).value !in others
            && Names.Safe(Names.RetiredName(name, source, others).value, Names.LIMIT)
            && (Names.RetiredName(name, source, others).value == name <==>
                exists k | 1 <= k <= |others| + 1 ::
                  && Names.SelfMarked(name, source, k)
                  && forall j | 1 <= j < k :: Names.CollisionName(name, source, Names.LIMIT, j) in others)
  {
    hide Names.RetiredName, Names.Safe, Names.SelfMarked, Names.CollisionName, Names.Practical, Names.CanonicalId;
    Names.RetiredNameIsOwnName(t.assets[source].name, source, OtherNames(t.assets, source));
  }

  lemma OtherOrOwn(t: Tables, source: Id, name: string)
    requires source in t.assets && name !in OtherNames(t.assets, source) && name != t.assets[source].name
    ensures name !in UsedNames(t.assets)
  {
  }

  lemma InvLinks(t: Tables)
    requires Inv(t)
    ensures LinksOk(t)
  {
    hide LinksOk;
  }

  lemma FrameAndLinks(t: Tables)
    requires FrameOf(t)
    ensures Inv(t) <==> LinksOk(t)
  {
    hide AssetsOk, DirsOk, InodesOk, MembershipsOk, DatesOk, LinksOk;
  }

  lemma PublicationIsValidIff(t: Tables, source: Id, id: Id, candidate: Asset, retired: string)
    requires Sound(t) && Publishable(t, source, id, candidate) && FrameOf(Published(t, source, id, candidate, retired))
    ensures Inv(t) ==>
              (Inv(Published(t, source, id, candidate, retired)) <==>
                (Pointed(t.assets, source) <==> Pointed(t.assets, id)))
  {
    hide Inv, FrameOf, RowsLinked, Managed, Published, Pointed, LinksOk;
    SoundParts(t);
    if Inv(t) {
      InvLinks(t);
      PublicationKeepsProjectionIff(t, source, id, candidate, retired);
      FrameAndLinks(Published(t, source, id, candidate, retired));
    }
  }

  // ------------------------------------------------------------ Live Photos

  // A row fits in with its video, if it is a still, and with the stills that it
  // is the video of.
  predicate FitsLivePhotos(contents: map<Id, Asset>, id: Id, asset: Asset) {
    && (asset.motion.Some? ==>
          var motion := asset.motion.value;
          && motion != id && motion in contents && contents[motion].owner == asset.owner
          && ("video/" <= contents[motion].mime || contents[motion].mime == "application/mxf"))
    && forall still | still in contents && still != id && contents[still].motion == Some(id) ::
         contents[still].owner == asset.owner && ("video/" <= asset.mime || asset.mime == "application/mxf")
  }

  lemma LivePhotosIff(contents: map<Id, Asset>, id: Id, asset: Asset)
    requires LivePhotosOk(contents)
    ensures LivePhotosOk(contents[id := asset]) <==> FitsLivePhotos(contents, id, asset)
  {
    var after := contents[id := asset];
    if LivePhotosOk(after) {
      assert asset.motion.Some? ==> after[id].motion == asset.motion;
      forall still | still in contents && still != id && contents[still].motion == Some(id)
        ensures contents[still].owner == asset.owner && ("video/" <= asset.mime || asset.mime == "application/mxf")
      {
        assert after[still] == contents[still];
      }
    }
  }

  // An upload is checked for nothing of the kind.
  lemma UploadKeepsLivePhotosIff(assets: Assets, next: Inode, id: Id, asset: Asset, requested: string)
    requires LivePhotosOk(Contents(assets))
    ensures LivePhotosOk(Contents(Upserted(assets, next, id, asset, requested))) <==>
            FitsLivePhotos(Contents(assets), id, asset)
  {
    hide LivePhotosOk, FitsLivePhotos, NewName;
    assert Contents(Upserted(assets, next, id, asset, requested)) == Contents(assets)[id := asset];
    LivePhotosIff(Contents(assets), id, asset);
  }

  // Neither the trash nor a publication makes a difference to a Live Photo.
  lemma TrashKeepsLivePhotos(assets: Assets, id: Id, trashed: bool)
    requires id in assets
    ensures LivePhotosOk(Contents(assets[id := assets[id].(asset := assets[id].asset.(trashed := trashed))])) <==>
            LivePhotosOk(Contents(assets))
  {
    hide Video;
    var before := Contents(assets);
    var after := Contents(assets[id := assets[id].(asset := assets[id].asset.(trashed := trashed))]);
    assert after.Keys == before.Keys;
    assert forall a | a in before ::
      after[a].motion == before[a].motion && after[a].owner == before[a].owner && after[a].mime == before[a].mime;
  }

  lemma PublicationKeepsLivePhotos(t: Tables, source: Id, id: Id, candidate: Asset, retired: string)
    requires Publishable(t, source, id, candidate) && LivePhotosOk(Contents(t.assets))
    ensures LivePhotosOk(Contents(Published(t, source, id, candidate, retired).assets))
  {
    hide Video, Managed;
    var before, after := Contents(t.assets), Contents(Published(t, source, id, candidate, retired).assets);
    assert after.Keys == before.Keys + {id};
    assert forall a | a in before ::
      after[a].motion == before[a].motion && after[a].owner == before[a].owner && after[a].mime == before[a].mime;
    forall a | a in after && after[a].motion.Some?
      ensures var motion := after[a].motion.value;
              motion != a && motion in after && after[motion].owner == after[a].owner && Video(after[motion].mime)
    {
      assert before[if a == id then source else a].motion == after[a].motion;
    }
  }

  const SOURCE: Id := "00000000-0000-0000-0000-000000000001"
  const STILL: Id := "00000000-0000-0000-0000-000000000002"
  const CANDIDATE: Id := "00000000-0000-0000-0000-000000000003"

  function Plain(mime: string, motion: Option<Id>): Asset {
    Asset(SOURCE, "a", mime, Some(0), 0, "", "", "timeline", false, false, None, None, false, motion)
  }

  function LivePhotoDirs(): Dirs {
    map[ViewAll := Dir(2, ROOT, "All", true),
        ViewAlbums := Dir(3, ROOT, "Albums", true),
        ViewFavorites := Dir(4, ROOT, "Favorites", true),
        ViewPeople := Dir(5, ROOT, "People", true),
        ViewDate := Dir(6, ROOT, "by Date", true)]
  }

  // A catalog with one Live Photo: the still is listed and its video is not.
  function LivePhotoTables(): Tables {
    Tables(map[SOURCE := Row(7, "a", Plain("video/mp4", None)),
               STILL := Row(8, "b", Plain("image/heic", Some(SOURCE)))],
           LivePhotoDirs(), {(ViewAll, STILL)}, {}, {}, 9)
  }

  lemma SampleIds()
    ensures Names.CanonicalId(SOURCE) && Names.CanonicalId(STILL) && Names.CanonicalId(CANDIDATE)
    ensures SOURCE != STILL && SOURCE != CANDIDATE && STILL != CANDIDATE
  {
    assert SOURCE[35] == '1' && STILL[35] == '2' && CANDIDATE[35] == '3';
  }

  lemma SampleNames()
    ensures Names.Safe("a", Names.LIMIT) && Names.Safe("b", Names.LIMIT)
  {
    assert "a"[1..] == "" && "b"[1..] == "";
  }

  lemma LivePhotoAssets()
    ensures AssetsOk(LivePhotoTables().assets)
  {
    hide Names.CanonicalId, Names.Safe;
    SampleIds();
    SampleNames();
    assert "a"[0] == 'a' && "b"[0] == 'b';
  }

  lemma LivePhotoInodes()
    ensures InodesOk(LivePhotoTables().assets, LivePhotoDirs(), LivePhotoTables().next)
  {
    hide Names.CanonicalId;
    SampleIds();
    assert forall a | a in LivePhotoTables().assets :: 7 <= LivePhotoTables().assets[a].inode < 9;
    assert forall d | d in LivePhotoDirs() :: 2 <= LivePhotoDirs()[d].inode < 7;
    hide LivePhotoDirs;
  }

  lemma LivePhotoRows()
    ensures var t := LivePhotoTables();
            && AssetsOk(t.assets) && InodesOk(t.assets, t.dirs, t.next) && MembershipsOk(t)
            && LinkTargetsOk(t.dirs, t.links) && DatesOk(t.dirs, t.links) && t.dirs == LivePhotoDirs()
  {
    hide AssetsOk, InodesOk, Names.CanonicalId, LinkedBelow, Plain;
    LivePhotoAssets();
    LivePhotoInodes();
  }

  lemma LivePhotoFacts()
    ensures var t := LivePhotoTables();
            && t.assets.Keys == {SOURCE, STILL} && Pointed(t.assets, SOURCE) && !Pointed(t.assets, CANDIDATE)
            && t.assets[SOURCE] == Row(7, "a", Plain("video/mp4", None))
            && CANDIDATE != SOURCE && CANDIDATE !in t.assets && OtherNames(t.assets, SOURCE) == {"b"}
            && LivePhotosOk(Contents(t.assets))
  {
    SampleIds();
    hide Names.CanonicalId;
    var t := LivePhotoTables();
    assert PointsTo(t.assets, STILL, SOURCE);
    assert t.assets[STILL].name == "b";
    assert "video/mp4"[..6] == "video/";
  }

  lemma LivePhotoInv()
    ensures Inv(LivePhotoTables())
  {
    hide AssetsOk, InodesOk, MembershipsOk, DatesOk, LinkTargetsOk, LinksOk, DirsOk, LivePhotoTables;
    LivePhotoRows();
    EmptyCatalogOk(Tables(map[], LivePhotoDirs(), {}, {}, {}, 7));
    LivePhotoLinks();
  }

  lemma LivePhotoLinks()
    ensures LinksOk(LivePhotoTables())
  {
    SampleIds();
    hide Names.CanonicalId;
    var t := LivePhotoTables();
    assert Pointed(t.assets, SOURCE) by { assert PointsTo(t.assets, STILL, SOURCE); }
    assert Collections(t.dirs, {}, STILL) == {};
    assert Projected(t, STILL) == {ViewAll};
    assert Projected(t, SOURCE) == {};
    assert t.assets.Keys == {SOURCE, STILL};
    assert Projection(t) == {(ViewAll, STILL)};
  }

  // The video of a Live Photo is replaced: the catalog accepts it, and then does
  // not list the replacement that a projection from scratch would list.
  lemma PublicationCanBreakProjection() returns (candidate: Asset, retired: string)
    ensures Inv(LivePhotoTables()) && Publishable(LivePhotoTables(), SOURCE, CANDIDATE, candidate)
    ensures Some(retired) == Names.RetiredName("a", SOURCE, OtherNames(LivePhotoTables().assets, SOURCE))
    ensures var u := Published(LivePhotoTables(), SOURCE, CANDIDATE, candidate, retired);
            !LinksOk(u) && (ViewAll, CANDIDATE) in Projection(u) && (ViewAll, CANDIDATE) !in u.links
  {
    hide *;
    var t := LivePhotoTables();
    candidate := Plain("video/mp4", None);
    LivePhotoInv();
    LivePhotoFacts();
    LivePhotoPublishable();
    InvParts(t);
    InvLinks(t);
    TwoIsPractical();
    RetiredNameClashesIff(t, SOURCE);
    retired := Names.RetiredName("a", SOURCE, OtherNames(t.assets, SOURCE)).value;
    PublicationKeepsProjectionIff(t, SOURCE, CANDIDATE, candidate, retired);
    PublishedLink(t, SOURCE, CANDIDATE, candidate, retired, (ViewAll, CANDIDATE));
    HomesHaveAll(t.dirs, t.memberships, SOURCE, t.assets[SOURCE].asset);
  }

  lemma LivePhotoPublishable()
    ensures Publishable(LivePhotoTables(), SOURCE, CANDIDATE, Plain("video/mp4", None))
  {
    SampleIds();
    hide Names.CanonicalId;
  }

  lemma TwoIsPractical()
    ensures Names.Practical(|{"b"}| + 1)
  {
    assert Names.Pow10(45) == 10 * Names.Pow10(44);
  }

  lemma HomesHaveAll(dirs: Dirs, memberships: Links, id: Id, asset: Asset)
    ensures ViewAll in Homes(dirs, memberships, id, asset)
  {
  }
}
