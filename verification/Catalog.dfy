// The catalog's transactions: src/immich_on_demand/catalog.py.
//
// Each public method is one transaction. A method that raises an error in the
// source answers false, and the tables are then as they were.
module Catalogs {
  import opened Options
  import Names
  import opened CatalogTables
  import opened CatalogSteps
  import opened CatalogChanges
  import opened CatalogCollections

  class Catalog {
    var assets: Assets
    var dirs: Dirs
    var links: Links
    var memberships: Links
    var pins: set<Id>
    var next: Inode

    function View(): Tables
      reads this
    {
      Tables(assets, dirs, links, memberships, pins, next)
    }

    ghost predicate Valid()
      reads this
    {
      Inv(View())
    }

    // An empty catalog has the fixed directories.
    constructor ()
      ensures Valid() && Sound(View()) && assets == map[] && memberships == {} && pins == {}
    {
      assets := map[];
      dirs := map[ViewAll := Dir(2, ROOT, "All", true),
                  ViewAlbums := Dir(3, ROOT, "Albums", true),
                  ViewFavorites := Dir(4, ROOT, "Favorites", true),
                  ViewPeople := Dir(5, ROOT, "People", true),
                  ViewDate := Dir(6, ROOT, "by Date", true)];
      links := {};
      memberships := {};
      pins := {};
      next := 7;
      new;
      EmptyCatalogOk(View());
      InvIffSound(View());
    }

    // ---------------------------------------------------------- directories

    // None where the directory is known in another place or by another name.
    method EnsureDirectory(d: Identity, parent: Inode, name: string) returns (inode: Option<Inode>)
      modifies this`dirs, this`next
      ensures inode == None <==> d in old(dirs) && (old(dirs)[d].parent != parent || old(dirs)[d].name != name)
      ensures inode == None ==> dirs == old(dirs) && next == old(next)
      ensures inode.Some? ==>
                && dirs == WithDir(old(dirs), old(next), d, parent, name) && next == NextAfter(old(dirs), old(next), d)
                && d in dirs && inode.value == dirs[d].inode
                && dirs == old(dirs)[d := dirs[d]] && dirs[d].active && dirs[d].parent == parent && dirs[d].name == name
                && dirs[d].inode == (if d in old(dirs) then old(dirs)[d].inode else old(next))
    {
      if d in dirs {
        if dirs[d].parent != parent || dirs[d].name != name {
          return None;
        }
        dirs := dirs[d := dirs[d].(active := true)];
        return Some(dirs[d].inode);
      }
      var inodeNumber := next;
      next := next + 1;
      dirs := dirs[d := Dir(inodeNumber, parent, name, true)];
      return Some(inodeNumber);
    }

    // The year, the month and the day of a date.
    method EnsureDay(day: Day)
      requires DirsOk(dirs) && InodesOk(assets, dirs, next)
      modifies this`dirs, this`next
      ensures DirsOk(dirs) && InodesOk(assets, dirs, next) && Grown(old(dirs), old(next), dirs, next)
      ensures DayDir(day) in dirs
    {
      hide DirsOk, InodesOk, Grown, WithDir;
      ViewsExist(dirs);
      var year, month := YearDir(day.year), MonthDir(day.year, day.month);
      ghost var dirs0, next0 := dirs, next;
      DateDirFits(assets, dirs, next, year);
      var parent := EnsureDirectory(year, dirs[ViewDate].inode, day.year);
      WithDirHas(dirs0, next0, year, dirs0[ViewDate].inode, day.year);
      ghost var dirs1, next1 := dirs, next;
      DateDirFits(assets, dirs, next, month);
      parent := EnsureDirectory(month, parent.value, day.month);
      WithDirHas(dirs1, next1, month, dirs1[year].inode, day.month);
      GrownThen(dirs0, next0, dirs1, next1, dirs, next);
      ghost var dirs2, next2 := dirs, next;
      DateDirFits(assets, dirs, next, DayDir(day));
      parent := EnsureDirectory(DayDir(day), parent.value, day.day);
      WithDirHas(dirs2, next2, DayDir(day), dirs2[month].inode, day.day);
      GrownThen(dirs0, next0, dirs2, next2, dirs, next);
    }

    // Marks the directories above every linked day active, going up from one
    // directory to its parent until nothing new turns up.
    method RefreshDateActivity()
      requires DirsOk(dirs) && LinkTargetsOk(dirs, links) && LinkKindsOk(links)
      modifies this`dirs
      ensures DirsOk(dirs) && DatesOk(dirs, links) && SamePlaces(old(dirs), dirs)
    {
      hide DirsOk, LinkedBelow, DatesOk, SamePlaces;
      ghost var before := dirs;
      var active := ActiveDates();
      dirs := map d | d in dirs :: if Dated(d) then dirs[d].(active := false) else dirs[d];
      dirs := map d | d in dirs :: if dirs[d].inode in active then dirs[d].(active := true) else dirs[d];
      ActivitySet(before, dirs, links, active);
    }

    method ActiveDates() returns (active: set<Inode>)
      requires DirsOk(dirs) && LinkTargetsOk(dirs, links) && LinkKindsOk(links)
      ensures forall d | d in dirs :: dirs[d].inode in active <==> Dated(d) && LinkedBelow(links, d)
    {
      hide DirsOk, LinkedBelow, ParentsOf, Closing, LinkTargetsOk, LinkKindsOk;
      var parents := ReadParents();
      active := set link | link in links && link.0 in dirs && Dated(link.0) :: dirs[link.0].inode;
      var pending := active;
      ClosingStarts(dirs, links, parents);
      while pending != {}
        invariant Closing(dirs, links, parents, active, pending)
        decreases |parents.Keys - active|, |pending|
      {
        var inode :| inode in pending;
        ClosingGoesOn(dirs, links, parents, active, pending, inode);
        pending := pending - {inode};
        var parent := parents[inode];
        if parent in parents && parent !in active {
          Shrinks(parents.Keys, active, parent);
          active := active + {parent};
          pending := pending + {parent};
        }
      }
      ClosureIsExact(dirs, links, parents, active);
    }

    method ReadParents() returns (parents: map<Inode, Inode>)
      requires DirsOk(dirs)
      ensures ParentsOf(dirs, parents)
    {
      hide DirsOk, SomeParents, ParentsOf;
      parents := map[];
      ghost var all := set d | d in dirs && Dated(d);
      var rows := set d | d in dirs && Dated(d);
      NoParents(dirs);
      while rows != {}
        invariant rows <= all && SomeParents(dirs, parents, all - rows)
      {
        var d :| d in rows;
        MoreParents(dirs, parents, all - rows, d);
        assert all - rows + {d} == all - (rows - {d});
        rows := rows - {d};
        parents := parents[dirs[d].inode := dirs[d].parent];
      }
      assert all - rows == all;
      AllParents(dirs, parents);
    }

    // ----------------------------------------------------------- projection

    method ProjectAsset(id: Id)
      requires DirsOk(dirs) && InodesOk(assets, dirs, next) && CollectionsOnly(memberships) && TargetsOk(dirs, links)
      modifies this`links, this`dirs, this`next
      ensures DirsOk(dirs) && InodesOk(assets, dirs, next) && TargetsOk(dirs, links)
      ensures Grown(old(dirs), old(next), dirs, next)
      ensures links == (set link | link in old(links) && link.1 != id) + (set d | d in Projected(View(), id) :: (d, id))
      ensures forall d :: (d, id) in links <==> BelongsIn(assets, dirs, memberships, id, d)
      ensures forall d, other | other != id :: (d, other) in links <==> (d, other) in old(links)
    {
      hide DirsOk, InodesOk, Grown, Pointed, Showable, Collections, TargetsOk, BelongsIn;
      ghost var before, links0, next0 := dirs, links, next;
      links := set link | link in links && link.1 != id;
      GrownSelf(dirs, next);
      if !Standalone(assets, id) {
        assert (set d | d in Projected(View(), id) :: (d, id)) == {};
        TargetsMore(dirs, links0, links, id, {});
        AllBelong(View(), id);
        return;
      }
      var asset := assets[id].asset;
      var homes := {ViewAll};
      if asset.favorite {
        homes := homes + {ViewFavorites};
      }
      if asset.date.Some? {
        EnsureDay(asset.date.value);
        homes := homes + {DayDir(asset.date.value)};
      }
      homes := homes + Collections(dirs, memberships, id);
      assert homes == Homes(dirs, memberships, id, asset);
      links := links + set d | d in homes :: (d, id);
      HomesKinds(dirs, memberships, id, asset);
      TargetsStay(before, next0, dirs, next, links0);
      TargetsMore(dirs, links0, links, id, homes);
      AllBelong(View(), id);
    }

    // Projects some assets again and brings the date directories up to date.
    method Reproject(ids: set<Id>)
      requires DirsOk(dirs) && InodesOk(assets, dirs, next) && CollectionsOnly(memberships) && TargetsOk(dirs, links)
      modifies this`links, this`dirs, this`next
      ensures DirsOk(dirs) && InodesOk(assets, dirs, next) && TargetsOk(dirs, links) && DatesOk(dirs, links)
      ensures Grown(old(dirs), old(next), dirs, next)
      ensures Relinked(old(links), links, View(), ids)
    {
      hide DirsOk, InodesOk, Grown, TargetsOk, Relinked, Projected, CollectionsOnly, DatesOk, SamePlaces;
      ghost var before := View();
      var left := ids;
      GrownSelf(dirs, next);
      RelinkNone(links, before);
      assert ids - left == {};
      while left != {}
        invariant left <= ids
        invariant DirsOk(dirs) && InodesOk(assets, dirs, next) && TargetsOk(dirs, links)
        invariant Grown(before.dirs, before.next, dirs, next)
        invariant Relinked(before.links, links, View(), ids - left)
        invariant View() == before.(links := links, dirs := dirs, next := next)
      {
        var id :| id in left;
        ghost var done, here := ids - left, View();
        left := left - {id};
        ProjectAsset(id);
        GrownThen(before.dirs, before.next, here.dirs, here.next, dirs, next);
        ProjectedStays(here, dirs, next, here.links);
        ghost var there := here.(dirs := dirs, next := next);
        RelinkedUnder(before.links, here.links, here, there, done);
        SameProjected(there, View());
        RelinkOne(before.links, there, done, id, links);
        RelinkedUnder(before.links, links, there, View(), done + {id});
        assert done + {id} == ids - left;
      }
      assert ids - left == ids;
      ghost var here := View();
      KindsOf(dirs, links);
      RefreshDateActivity();
      SamePlacesGrown(here.dirs, dirs, next);
      GrownThen(before.dirs, before.next, here.dirs, here.next, dirs, next);
      ProjectedStays(here, dirs, next, links);
      RelinkedUnder(before.links, links, here, View(), ids);
      TargetsStay(here.dirs, next, dirs, next, links);
      SamePlacesInodes(assets, here.dirs, dirs, next);
    }

    // ------------------------------------------------------ trash and restore

    method MarkTrashed(id: Id) returns (ok: bool)
      requires Sound(View())
      modifies this
      ensures Sound(View()) && Advances(old(View()), View()) && KeepsPlaces(old(View()), View())
      ensures old(Valid()) ==> Valid()
      ensures ok <==> id in old(assets)
      ensures LivePhotosOk(Contents(assets)) <==> LivePhotosOk(Contents(old(assets)))
      ensures assets ==
                if ok then old(assets)[id := old(assets)[id].(asset := old(assets)[id].asset.(trashed := true))]
                else old(assets)
      ensures memberships == old(memberships) && pins == old(pins) && (!ok ==> View() == old(View()))
    {
      hide Inv, Sound, Placed, Advances, LivePhotosOk, Contents;
      if id !in assets {
        AdvancesSelf(View());
        return false;
      }
      SetTrashed(id, true);
      return true;
    }

    method MarkRestored(id: Id) returns (ok: bool)
      requires Sound(View())
      modifies this
      ensures Sound(View()) && Advances(old(View()), View()) && KeepsPlaces(old(View()), View())
      ensures old(Valid()) ==> Valid()
      ensures ok <==> id in old(assets)
      ensures LivePhotosOk(Contents(assets)) <==> LivePhotosOk(Contents(old(assets)))
      ensures assets ==
                if ok then old(assets)[id := old(assets)[id].(asset := old(assets)[id].asset.(trashed := false))]
                else old(assets)
      ensures memberships == old(memberships) && pins == old(pins) && (!ok ==> View() == old(View()))
    {
      hide Inv, Sound, Placed, Advances, LivePhotosOk, Contents;
      if id !in assets {
        AdvancesSelf(View());
        return false;
      }
      SetTrashed(id, false);
      return true;
    }

    method SetTrashed(id: Id, trashed: bool)
      requires Sound(View()) && id in assets
      modifies this
      ensures Sound(View()) && Advances(old(View()), View()) && KeepsPlaces(old(View()), View())
      ensures old(Valid()) ==> Valid()
      ensures assets == old(assets)[id := old(assets)[id].(asset := old(assets)[id].asset.(trashed := trashed))]
      ensures LivePhotosOk(Contents(assets)) <==> LivePhotosOk(Contents(old(assets)))
      ensures memberships == old(memberships) && pins == old(pins)
    {
      hide Inv, RowsLinked, Placed, DirsOk, InodesOk, AssetsOk, TargetsOk, DatesOk, LinksOk, Grown, Relinked, Advances,
           MembershipsOk, CollectionsOnly, LinkTargetsOk, SameElsewhere, MotionsCovered;
      ghost var before := View();
      SoundParts(before);
      var asset := assets[id].asset.(trashed := trashed);
      SameRow(before, id, asset);
      TrashTouchesOne(assets, id, asset);
      assets := assets[id := assets[id].(asset := asset)];
      Reproject({id});
      MembershipsKept(before, View(), before.next, next);
      ProjectingTheTouchedIsEnough(before, View(), {id});
      TrashAdvances(before, View(), id, asset);
      TrashKeepsLivePhotos(before.assets, id, trashed);
      hide LivePhotosOk, Contents;
    }

    // ----------------------------------------------------------------- uploads

    // Inserts an asset or, when it is known, updates it in place.
    method Upsert(id: Id, asset: Asset, requested: string)
      requires AssetsOk(assets) && InodesOk(assets, dirs, next) && Names.CanonicalId(id)
      requires Names.Practical(|UsedNames(assets)| + 1)
      modifies this`assets, this`next
      ensures AssetsOk(assets) && InodesOk(assets, dirs, next)
      ensures assets == Upserted(old(assets), old(next), id, asset, requested)
      ensures next == NextInode(old(assets), old(next), id)
      ensures id in assets && assets == old(assets)[id := assets[id]] && assets[id].asset == asset
      ensures id in old(assets) ==>
                assets[id].inode == old(assets)[id].inode && assets[id].name == old(assets)[id].name
                  && next == old(next)
      ensures id !in old(assets) ==>
                && assets[id].inode == old(next) && next == old(next) + 1 && assets[id].name !in UsedNames(old(assets))
                && (Names.SafeFilename(requested, id, Names.LIMIT) !in UsedNames(old(assets)) ==>
                      assets[id].name == Names.SafeFilename(requested, id, Names.LIMIT))
      ensures |UsedNames(assets)| <= |UsedNames(old(assets))| + 1
    {
      hide AssetsOk, InodesOk, Names.AvailableName, Names.CanonicalId, Names.Practical;
      UpsertKeeps(assets, dirs, next, id, asset, requested);
      if id in assets {
        assets := assets[id := assets[id].(asset := asset)];
      } else {
        var used := UsedNames(assets);
        FreeNameFirst(requested, id, used);
        var name := Names.FindAvailableName(requested, id, used);
        assets := assets[id := Row(next, name.value, asset)];
        next := next + 1;
      }
    }

    method AddUploaded(id: Id, asset: Asset, requested: string)
      requires Sound(View()) && Names.CanonicalId(id) && Names.Practical(|UsedNames(assets)| + 1)
      modifies this
      ensures Sound(View()) && Advances(old(View()), View()) && KeepsPlaces(old(View()), View())
      ensures old(Valid()) ==> Valid()
      ensures assets == Upserted(old(assets), old(next), id, asset, requested)
      ensures LivePhotosOk(Contents(old(assets))) ==>
                (LivePhotosOk(Contents(assets)) <==> FitsLivePhotos(Contents(old(assets)), id, asset))
      ensures memberships == old(memberships) && pins == old(pins)
    {
      hide Inv, RowsLinked, Placed, DirsOk, InodesOk, AssetsOk, TargetsOk, DatesOk, LinksOk, Grown, Relinked, Advances,
           MembershipsOk, CollectionsOnly, LinkTargetsOk, SameElsewhere, MotionsCovered, Upserted, Names.CanonicalId,
           Names.Practical, LivePhotosOk, FitsLivePhotos, Contents;
      ghost var before := View();
      SoundParts(before);
      var relations: set<Id> := {};
      if id in assets && assets[id].asset.motion.Some? {
        relations := relations + {assets[id].asset.motion.value};
      }
      if asset.motion.Some? {
        relations := relations + {asset.motion.value};
      }
      UpsertTouches(before, id, asset, requested, relations);
      if LivePhotosOk(Contents(assets)) { UploadKeepsLivePhotosIff(assets, next, id, asset, requested); }
      Upsert(id, asset, requested);
      ghost var between := next;
      Reproject({id} + relations);
      UpsertFrame(before, View(), between, id, asset, requested);
      ProjectingTheTouchedIsEnough(before, View(), {id} + relations);
    }

    // ----------------------------------------------------------------- refresh

    method ReplaceNamespace()
      requires DirsOk(dirs) && AssetsOk(assets) && InodesOk(assets, dirs, next) && MembershipsOk(View())
      modifies this`links, this`dirs, this`next
      ensures Valid() && Sound(View()) && Grown(old(dirs), old(next), dirs, next)
      ensures forall d, id :: (d, id) in links <==> BelongsIn(assets, dirs, memberships, id, d)
    {
      hide BelongsIn, Inv, RowsLinked, DirsOk, InodesOk, AssetsOk, TargetsOk, DatesOk, Grown, Relinked, MembershipsOk,
           CollectionsOnly, LinkTargetsOk, SamePlaces, Showable;
      ghost var before := View();
      MembershipsAreCollections(before);
      links := {};
      dirs := map d | d in dirs :: if Dated(d) then dirs[d].(active := false) else dirs[d];
      Asleep(before, View());
      ghost var sleeping := View();
      var live := set id | id in assets && Showable(assets[id].asset);
      Reproject(live);
      GrownThen(before.dirs, before.next, sleeping.dirs, sleeping.next, dirs, next);
      MembershipsKept(before, View(), before.next, next);
      ProjectingAllIsEnough(View(), live);
      forall d, id ensures (d, id) in links <==> BelongsIn(assets, dirs, memberships, id, d) {
        ListedExactly(View(), id, d);
      }
    }

    // rows are the staged assets in the order of the query.
    method UpsertAll(rows: seq<(Id, Asset)>)
      requires AssetsOk(assets) && InodesOk(assets, dirs, next)
      requires forall i | 0 <= i < |rows| :: Names.CanonicalId(rows[i].0)
      requires Names.Practical(|UsedNames(assets)| + |rows| + 1)
      modifies this`assets, this`next
      ensures AssetsOk(assets) && InodesOk(assets, dirs, next)
      ensures assets == AllUpserted(old(assets), old(next), rows) && next == AllNext(old(assets), old(next), rows)
    {
      hide AssetsOk, InodesOk, Names.CanonicalId, Names.Practical, UsedNames, Upserted, NextInode;
      ghost var assets0, next0 := assets, next;
      assert rows[..0] == [];
      for i := 0 to |rows|
        invariant AssetsOk(assets) && InodesOk(assets, dirs, next)
        invariant assets == AllUpserted(assets0, next0, rows[..i]) && next == AllNext(assets0, next0, rows[..i])
        invariant |UsedNames(assets)| <= |UsedNames(assets0)| + i
      {
        PracticalBelow(|UsedNames(assets)| + 1, |UsedNames(assets0)| + |rows| + 1);
        Upsert(rows[i].0, rows[i].1, rows[i].1.originalName);
        assert rows[..i + 1][..i] == rows[..i] && rows[..i + 1][i] == rows[i];
      }
      assert rows[..|rows|] == rows;
    }

    // ok is false where the transaction is rolled back.
    method FinishStaged(rows: seq<(Id, Asset)>, deleteMissing: bool) returns (ok: bool)
      requires Sound(View()) && Distinct(rows)
      requires forall i | 0 <= i < |rows| :: Names.CanonicalId(rows[i].0)
      requires Names.Practical(|UsedNames(assets)| + |rows| + 1)
      modifies this
      ensures Sound(View()) && Advances(old(View()), View()) && KeepsPlaces(old(View()), View())
      ensures old(Valid()) || (ok && deleteMissing) ==> Valid()
      ensures ok ==> Refreshed(old(View()), rows, deleteMissing, View())
      ensures ok ==> LivePhotosOk(Contents(assets))
      ensures ok <==> LivePhotosOk(Overlaid(if deleteMissing then map[] else Contents(old(assets)), rows))
      ensures !ok ==> View() == old(View())
    {
      hide Inv, Sound, Placed, DirsOk, InodesOk, AssetsOk, Advances, Refreshed, LivePhotosOk, AllUpserted, AllNext,
           Names.CanonicalId, Names.Practical, UsedNames;
      ghost var before := View();
      var savedAssets, savedDirs, savedLinks, savedMemberships, savedNext := assets, dirs, links, memberships, next;
      if deleteMissing {
        RefreshComplete(rows);
        InvKeepsPlaces(before, View());
      } else {
        RefreshChanged(rows);
      }
      RefreshedContents(before, rows, deleteMissing, View());
      ok := LivePhotosOk(Contents(assets));
      if !ok {
        assets, dirs, links, memberships, next := savedAssets, savedDirs, savedLinks, savedMemberships, savedNext;
        AdvancesSelf(before);
      }
    }

    method RefreshChanged(rows: seq<(Id, Asset)>)
      requires Sound(View()) && Distinct(rows)
      requires forall i | 0 <= i < |rows| :: Names.CanonicalId(rows[i].0)
      requires Names.Practical(|UsedNames(assets)| + |rows| + 1)
      modifies this`assets, this`dirs, this`links, this`next
      ensures Sound(View()) && Advances(old(View()), View()) && KeepsPlaces(old(View()), View())
      ensures old(Valid()) ==> Valid()
      ensures Refreshed(old(View()), rows, false, View())
    {
      hide Inv, RowsLinked, Placed, DirsOk, InodesOk, AssetsOk, TargetsOk, DatesOk, LinksOk, Grown, Relinked, Advances,
           MembershipsOk, CollectionsOnly, LinkTargetsOk, SameElsewhere, MotionsCovered, AllUpserted, AllNext,
           Names.CanonicalId, Names.Practical;
      ghost var before := View();
      SoundParts(before);
      var changed := Touched(assets, rows);
      TouchedCovers(assets, next, rows);
      UpsertAll(rows);
      ghost var between := next;
      Reproject(changed);
      UpsertsFrame(before, View(), between, rows);
      ProjectingTheTouchedIsEnough(before, View(), changed);
    }

    method RefreshComplete(rows: seq<(Id, Asset)>)
      requires Sound(View()) && Distinct(rows)
      requires forall i | 0 <= i < |rows| :: Names.CanonicalId(rows[i].0)
      requires Names.Practical(|UsedNames(assets)| + |rows| + 1)
      modifies this`assets, this`dirs, this`links, this`memberships, this`next
      ensures Valid() && Sound(View()) && Advances(old(View()), View()) && Refreshed(old(View()), rows, true, View())
    {
      hide Inv, RowsLinked, DirsOk, InodesOk, AssetsOk, TargetsOk, DatesOk, LinksOk, Grown, Advances, MembershipsOk,
           CollectionsOnly, LinkTargetsOk, AllUpserted, AllNext, Names.CanonicalId, Names.Practical, UsedNames, Kept,
           Cascade;
      ghost var before := View();
      SoundParts(before);
      DeletedFrame(before, RowIds(rows));
      FewerNames(UsedNames(Kept(assets, RowIds(rows))), UsedNames(assets));
      assets := Kept(assets, RowIds(rows));
      links := Cascade(links, assets);
      memberships := Cascade(memberships, assets);
      ghost var deleted := View();
      PracticalBelow(|UsedNames(assets)| + |rows| + 1, |UsedNames(before.assets)| + |rows| + 1);
      UpsertAll(rows);
      ghost var between := next;
      MembershipsAfterUpserts(deleted, View(), rows);
      ReplaceNamespace();
      UpsertsFrame(deleted, View(), between, rows);
      RefreshAdvances(before, deleted, View(), rows);
    }

    // ------------------------------------------------------------- replacement

    method FindRetiredName(name: string, id: Id, others: set<string>) returns (retired: Option<string>)
      ensures retired == Names.RetiredName(name, id, others)
    {
      hide Names.CollisionName;
      for ordinal := 1 to |others| + 2
        invariant Names.Search(name, id, others, 1, |others| + 1) ==
                  Names.Search(name, id, others, ordinal, |others| + 1)
      {
        var value := Names.CollisionName(name, id, Names.LIMIT, ordinal);
        if value !in others {
          return Some(value);
        }
      }
      return None;
    }

    // Puts the candidate in the source's place, and the source in the trash
    // under another name.
    method PublishReplacement(source: Id, id: Id, candidate: Asset) returns (ok: bool)
      requires Sound(View()) && Names.CanonicalId(id) && Names.Practical(|OtherNames(assets, source)| + 1)
      modifies this
      ensures var t := old(View());
              ok <==> MayReplace(t, source, id, candidate)
                      && Names.RetiredName(t.assets[source].name, source, OtherNames(t.assets, source))
                         != Some(t.assets[source].name)
      ensures !ok ==> View() == old(View())
      ensures ok ==>
                var t := old(View());
                var retired := Names.RetiredName(t.assets[source].name, source, OtherNames(t.assets, source));
                && retired.Some? && retired.value !in UsedNames(t.assets)
                && Replaced(t, source, id, candidate, retired.value, View())
                && Sound(View()) && Advances(t, View())
                && (LivePhotosOk(Contents(t.assets)) ==> LivePhotosOk(Contents(assets)))
                && (forall a | a != id && Placed(t, a) :: Placed(View(), a))
                && (Placed(View(), id) <==> ListsFor(t, source, id))
                && (old(Valid()) ==> (Valid() <==> (Pointed(t.assets, source) <==> Pointed(t.assets, id))))
    {
      hide Inv, Sound, Placed, ListsFor, Advances, Managed, Pointed, Names.CanonicalId, Names.Practical, MayReplace,
           Replaced, Names.RetiredName, UsedNames, OtherNames, LivePhotosOk, Contents, Names.Safe;
      ghost var t := View();
      PublishableIff(t, source, id, candidate);
      if id == source || source !in assets || !Managed(assets[source].asset) || !Managed(candidate) {
        return false;
      }
      var was := assets[source];
      if candidate.owner != was.asset.owner {
        return false;
      }
      if candidate.visibility != was.asset.visibility || candidate.date != was.asset.date
         || candidate.favorite != was.asset.favorite || candidate.motion != was.asset.motion {
        return false;
      }
      if id in assets {
        return false;
      }
      RetiredIsThere(t, source);
      var used := OtherNames(assets, source);
      var retired := FindRetiredName(was.name, source, used);
      // The insertion of the candidate under the source's name would violate
      // the uniqueness of names.
      if retired.value == was.name {
        return false;
      }
      PublicationDone(t, source, id, candidate);
      var wasPinned := source in pins;
      assets := assets[source := was.(name := retired.value, asset := was.asset.(trashed := true))];
      var inode := next;
      next := next + 1;
      assets := assets[id := Row(inode, was.name, candidate)];
      links := Moved(links, source, id);
      memberships := Moved(memberships, source, id);
      pins := pins - {source, id};
      if wasPinned {
        pins := pins + {id};
      }
      assert View() == Published(t, source, id, candidate, retired.value);
      return true;
    }

    // -------------------------------------------------------- albums and people

    method ActivateCollection(d: Identity, title: string, used: set<string>, ghost on: set<Identity>, ghost dirs0: Dirs,
                              ghost next0: Inode, ghost other: Inode, ghost otherUsed: set<string>)
      returns (usedAfter: set<string>)
      requires DirsOk(dirs) && InodesOk(assets, dirs, next) && Rewoken(dirs0, next0, dirs, next, on)
      requires Collection(d) && Names.CanonicalId(StableId(d)) && ParentOf(d) in dirs
      requires Taken(dirs, dirs[ParentOf(d)].inode, used) && Names.Practical(|used| + 1)
      requires Taken(dirs, other, otherUsed) && other != dirs[ParentOf(d)].inode
      modifies this`dirs, this`next
      ensures DirsOk(dirs) && InodesOk(assets, dirs, next) && Rewoken(dirs0, next0, dirs, next, on + {d})
      ensures forall e | e in old(dirs) && !Collection(e) :: e in dirs && dirs[e] == old(dirs)[e]
      ensures ParentOf(d) in dirs && Taken(dirs, dirs[ParentOf(d)].inode, usedAfter) && |usedAfter| <= |used| + 1
      ensures d in dirs && dirs[d].active && (d in old(dirs) ==> dirs[d].name == old(dirs)[d].name)
      ensures d !in old(dirs) ==>
                var name := Names.SafeFilename(RequestedName(title, StableId(d)), StableId(d), Names.LIMIT);
                dirs[d].name !in used && (name !in used ==> dirs[d].name == name)
      ensures Taken(dirs, other, otherUsed)
    {
      hide DirsOk, InodesOk, Rewoken, Taken, Names.CanonicalId, Names.Practical, Names.AvailableName,
           Names.SafeFilename, Names.CollisionName, Names.Safe;
      var parent := dirs[ParentOf(d)].inode;
      CollectionPlaced(dirs, d);
      if d in dirs {
        WakeCollection(assets, dirs0, next0, dirs, next, on, d, dirs[d].name, used, other, otherUsed);
        var _ := EnsureDirectory(d, parent, dirs[d].name);
        return used;
      }
      Names.AvailableNameIsFresh(RequestedName(title, StableId(d)), StableId(d), used);
      FreeNameFirst(RequestedName(title, StableId(d)), StableId(d), used);
      var name := Names.FindAvailableName(RequestedName(title, StableId(d)), StableId(d), used);
      WakeCollection(assets, dirs0, next0, dirs, next, on, d, name.value, used, other, otherUsed);
      var _ := EnsureDirectory(d, parent, name.value);
      return used + {name.value};
    }

    method ActivateCollections(album: bool, values: seq<Named>, names: set<string>, ghost on: set<Identity>,
                               ghost dirs0: Dirs, ghost next0: Inode, ghost other: Inode, ghost otherUsed: set<string>)
      requires DirsOk(dirs) && InodesOk(assets, dirs, next) && Rewoken(dirs0, next0, dirs, next, on)
      requires Canonical(values) && Names.Practical(|names| + |values| + 1)
      requires ViewAlbums in dirs && ViewPeople in dirs && other != dirs[if album then ViewAlbums else ViewPeople].inode
      requires Taken(dirs, dirs[if album then ViewAlbums else ViewPeople].inode, names) && Taken(dirs, other, otherUsed)
      modifies this`dirs, this`next
      ensures DirsOk(dirs) && InodesOk(assets, dirs, next)
      ensures Rewoken(dirs0, next0, dirs, next, on + if album then AlbumDirs(values) else PersonDirs(values))
      ensures forall e | e in old(dirs) && !Collection(e) :: e in dirs && dirs[e] == old(dirs)[e]
      ensures Taken(dirs, other, otherUsed)
    {
      hide DirsOk, InodesOk, Rewoken, Taken, Names.CanonicalId, Names.Practical;
      var view := if album then ViewAlbums else ViewPeople;
      var used := names;
      ghost var before := dirs;
      ghost var done: set<Identity> := {};
      assert on + done == on;
      for i := 0 to |values|
        invariant DirsOk(dirs) && InodesOk(assets, dirs, next) && Rewoken(dirs0, next0, dirs, next, on + done)
        invariant done == if album then AlbumDirs(values[..i]) else PersonDirs(values[..i])
        invariant forall e | e in before && !Collection(e) :: e in dirs && dirs[e] == before[e]
        invariant Taken(dirs, before[view].inode, used) && Taken(dirs, other, otherUsed)
        invariant |used| <= |names| + i
      {
        var d := if album then AlbumDir(values[i].0) else PersonDir(values[i].0);
        PracticalBelow(|used| + 1, |names| + |values| + 1);
        used := ActivateCollection(d, values[i].1, used, on + done, dirs0, next0, other, otherUsed);
        MoreDirs(values, i);
        assert on + done + {d} == on + (done + {d});
        done := done + {d};
      }
      assert values[..|values|] == values;
    }

    // Marks every collection as not listed, and then those that are.
    method WakeCollections(albums: seq<Named>, people: seq<Named>)
      requires DirsOk(dirs) && InodesOk(assets, dirs, next) && Canonical(albums) && Canonical(people)
      requires ViewAlbums in dirs && Names.Practical(|NamesBelow(dirs, dirs[ViewAlbums].inode)| + |albums| + 1)
      requires ViewPeople in dirs && Names.Practical(|NamesBelow(dirs, dirs[ViewPeople].inode)| + |people| + 1)
      modifies this`dirs, this`next
      ensures DirsOk(dirs) && InodesOk(assets, dirs, next)
      ensures Rewoken(old(dirs), old(next), dirs, next, AlbumDirs(albums) + PersonDirs(people))
    {
      hide *;
      ViewsAreFixed();
      ghost var dirs0, next0 := dirs, next;
      ViewsDiffer(assets, dirs, next);
      AllAsleep(assets, dirs, next);
      dirs := map d | d in dirs :: if Collection(d) then dirs[d].(active := false) else dirs[d];
      var albumNames := NamesBelow(dirs, dirs[ViewAlbums].inode);
      var peopleNames := NamesBelow(dirs, dirs[ViewPeople].inode);
      NamesBelowTaken(dirs, dirs[ViewAlbums].inode);
      NamesBelowTaken(dirs, dirs[ViewPeople].inode);
      ghost var peopleInode := dirs[ViewPeople].inode;
      ActivateCollections(true, albums, albumNames, {}, dirs0, next0, peopleInode, peopleNames);
      NothingTaken(dirs);
      ActivateCollections(false, people, peopleNames, {} + AlbumDirs(albums), dirs0, next0, ROOT,
                          NamesBelow(dirs, ROOT));
      assert {} + AlbumDirs(albums) + PersonDirs(people) == AlbumDirs(albums) + PersonDirs(people);
    }

    // albums and people are in the order of their identifiers; owner is that of
    // the trusted profile.
    method ReplaceAlbumPeople(owner: Id, albums: seq<Named>, albumPairs: set<(Id, Id)>, people: seq<Named>,
                              peoplePairs: set<(Id, Id)>)
      returns (ok: bool)
      requires Sound(View())
      requires Names.Practical(|NamesOf(ViewAlbums)| + |albums| + 1)
      requires Names.Practical(|NamesOf(ViewPeople)| + |people| + 1)
      modifies this
      ensures Sound(View()) && Advances(old(View()), View()) && (old(Valid()) || ok ==> Valid())
      ensures ok <==>
                Listable(albums, albumPairs, old(assets), owner) && Listable(people, peoplePairs, old(assets), owner)
      ensures ok ==>
                && (forall p | p in albumPairs || p in peoplePairs ::
                      && p.1 in assets
                      && var asset := assets[p.1].asset;
                         && asset.owner == owner && asset.size.Some? && !asset.trashed && !asset.offline
                         && asset.visibility != "hidden")
                && (forall p | p in albumPairs :: AlbumDir(p.0) in dirs && dirs[AlbumDir(p.0)].active)
                && (forall p | p in peoplePairs :: PersonDir(p.0) in dirs && dirs[PersonDir(p.0)].active)
                && (forall d, a :: (d, a) in memberships <==>
                      (d.AlbumDir? && (d.id, a) in albumPairs) || (d.PersonDir? && (d.id, a) in peoplePairs))
                && (forall d | d in dirs && d.AlbumDir? ::
                      dirs[d].active <==> exists i :: 0 <= i < |albums| && albums[i].0 == d.id)
                && (forall d | d in dirs && d.PersonDir? ::
                      dirs[d].active <==> exists i :: 0 <= i < |people| && people[i].0 == d.id)
      ensures !ok ==> View() == old(View())
      ensures assets == old(assets)
      ensures ok ==> Recollected(old(View()), AlbumDirs(albums) + PersonDirs(people),
                                 CollectionLinks(albumPairs, peoplePairs), View())
    {
      hide Advances, AssetsOk, Canonical, CatalogCollections.AlbumDirs, CatalogCollections.CollectionLinks,
           CatalogCollections.NamesBelow, Collection, CollectionsOnly, DatesOk, DirsOk, Grown, InodesOk, Inv,
           RowsLinked, Listable, MembershipsOk, Names.Practical, PairsOk, PersonDirs, Recollected, Rewoken, TargetsOk,
           Unique;
      ghost var t := View();
      SoundParts(t);
      ListableIff(albums, albumPairs, assets, owner);
      ListableIff(people, peoplePairs, assets, owner);
      if !Unique(albums) || !Unique(people) || !Canonical(albums) || !Canonical(people)
         || !PairsOk(albumPairs, albums, assets, owner) || !PairsOk(peoplePairs, people, assets, owner) {
        AdvancesSelf(t);
        return false;
      }
      ViewsExist(dirs);
      WakeCollections(albums, people);
      memberships := CollectionLinks(albumPairs, peoplePairs);
      ghost var middle := View();
      CollectionDirs(albums, people);
      WokenActive(t.dirs, t.next, dirs, next, AlbumDirs(albums) + PersonDirs(people));
      NewMembershipsOk(View(), albums, albumPairs, people, peoplePairs, owner);
      ReplaceNamespace();
      RecollectedFrom(t, middle, View(), AlbumDirs(albums) + PersonDirs(people));
      RecollectedRows(t, View(), owner, albums, albumPairs, people, peoplePairs);
      return true;
    }

    ghost function NamesOf(view: Identity): set<string>
      requires Sound(View()) && view in FIXED
      reads this
    {
      ViewsExist(dirs);
      NamesBelow(dirs, dirs[view].inode)
    }
  }

  // The name asked for is taken if it is free.
  lemma FreeNameFirst(requested: string, id: Id, used: set<string>)
    ensures Names.SafeFilename(requested, id, Names.LIMIT) !in used ==>
              Names.AvailableName(requested, id, used) == Some(Names.SafeFilename(requested, id, Names.LIMIT))
    ensures Names.AvailableName(requested, id, used).Some? ==> Names.AvailableName(requested, id, used).value !in used
  {
    hide Names.SafeFilename, Names.CollisionName;
    Names.SearchIsFree(Names.SafeFilename(requested, id, Names.LIMIT), id, used, 1, |used| + 1);
  }

  // What publish_replacement asks of the two rows, field by field.
  ghost predicate MayReplace(t: Tables, source: Id, id: Id, candidate: Asset) {
    && id != source && source in t.assets && id !in t.assets
    && var was := t.assets[source].asset;
       && was.size.Some? && !was.trashed && !was.offline && was.visibility != "hidden" && was.library == None
       && candidate.size.Some? && !candidate.trashed && !candidate.offline && candidate.visibility != "hidden"
       && candidate.library == None && candidate.owner == was.owner && candidate.visibility == was.visibility
       && candidate.date == was.date && candidate.favorite == was.favorite && candidate.motion == was.motion
  }

  lemma PublishableIff(t: Tables, source: Id, id: Id, candidate: Asset)
    ensures Publishable(t, source, id, candidate) <==> MayReplace(t, source, id, candidate)
  {
  }

  // And what it makes of the tables: the source is in the trash under its new
  // name, the candidate has its old one, and its links, collections and pin.
  ghost predicate Replaced(t: Tables, source: Id, id: Id, candidate: Asset, retired: string, u: Tables)
    requires source in t.assets
  {
    var was := t.assets[source];
    && u.assets == t.assets[source := was.(name := retired, asset := was.asset.(trashed := true))]
                           [id := Row(t.next, was.name, candidate)]
    && u.next == t.next + 1 && u.dirs == t.dirs
    && (forall d, a :: (d, a) in u.links <==> a != source && (d, if a == id then source else a) in t.links)
    && (forall d, a :: (d, a) in u.memberships <==> a != source && (d, if a == id then source else a) in t.memberships)
    && (forall a | a != source && a != id :: a in u.pins <==> a in t.pins)
    && source !in u.pins && (id in u.pins <==> source in t.pins)
  }

  lemma RetiredIsThere(t: Tables, source: Id)
    requires Sound(t) && source in t.assets && Names.Practical(|OtherNames(t.assets, source)| + 1)
    ensures Names.RetiredName(t.assets[source].name, source, OtherNames(t.assets, source)).Some?
  {
    SoundParts(t);
    RetiredNameClashesIff(t, source);
    hide *;
  }

  lemma TakesOver(t: Tables, source: Id, id: Id, candidate: Asset, retired: string, d: Identity, a: Id)
    requires Sound(t) && Publishable(t, source, id, candidate)
    ensures var u, from := Published(t, source, id, candidate, retired), if a == id then source else a;
            && ((d, a) in u.links <==> a != source && (d, from) in t.links)
            && ((d, a) in u.memberships <==> a != source && (d, from) in t.memberships)
  {
    SoundParts(t);
    hide Sound, Managed, Moved;
    PublishedLinks(t, source, id, candidate, retired, (d, a));
    InMoved(t.memberships, source, id, (d, a));
    NothingOfNew(t, id);
  }

  lemma PublicationReplaces(t: Tables, source: Id, id: Id, candidate: Asset, retired: string)
    requires Sound(t) && Publishable(t, source, id, candidate)
    ensures Replaced(t, source, id, candidate, retired, Published(t, source, id, candidate, retired))
  {
    hide Sound, Managed, Moved;
    var u := Published(t, source, id, candidate, retired);
    forall d, a
      ensures (d, a) in u.links <==> a != source && (d, if a == id then source else a) in t.links
      ensures (d, a) in u.memberships <==> a != source && (d, if a == id then source else a) in t.memberships
    {
      TakesOver(t, source, id, candidate, retired, d, a);
    }
  }

  lemma PublicationDone(t: Tables, source: Id, id: Id, candidate: Asset)
    requires Sound(t) && Publishable(t, source, id, candidate) && Names.CanonicalId(id)
    requires Names.Practical(|OtherNames(t.assets, source)| + 1)
    requires Names.RetiredName(t.assets[source].name, source,
             OtherNames(t.assets, source)) != Some(t.assets[source].name)
    ensures var retired := Names.RetiredName(t.assets[source].name, source, OtherNames(t.assets, source));
            && retired.Some? && retired.value !in UsedNames(t.assets)
            && var u := Published(t, source, id, candidate, retired.value);
               && Replaced(t, source, id, candidate, retired.value, u)
               && Sound(u) && Advances(t, u)
               && (LivePhotosOk(Contents(t.assets)) ==> LivePhotosOk(Contents(u.assets)))
               && (forall a | a != id && Placed(t, a) :: Placed(u, a))
               && (Placed(u, id) <==> ListsFor(t, source, id))
               && (Inv(t) ==> (Inv(u) <==> (Pointed(t.assets, source) <==> Pointed(t.assets, id))))
  {
    hide Inv, FrameOf, Placed, ListsFor, Advances, Pointed, Names.CanonicalId, Names.Practical, Names.RetiredName,
         Names.Safe, AssetsOk, Names.SelfMarked, Names.CollisionName, UsedNames, OtherNames, LivePhotosOk, Contents,
         Replaced, Published, Managed, RowsLinked, MembershipsOk;
    SoundParts(t);
    RetiredNameClashesIff(t, source);
    var retired := Names.RetiredName(t.assets[source].name, source, OtherNames(t.assets, source)).value;
    OtherOrOwn(t, source, retired);
    PublishedFrame(t, source, id, candidate, retired);
    PublicationPlaces(t, source, id, candidate, retired);
    PublicationIsValidIff(t, source, id, candidate, retired);
    PublicationReplaces(t, source, id, candidate, retired);
    if LivePhotosOk(Contents(t.assets)) { PublicationKeepsLivePhotos(t, source, id, candidate, retired); }
  }

  lemma RecollectedRows(t: Tables, u: Tables, owner: Id, albums: seq<Named>, albumPairs: set<(Id, Id)>,
                        people: seq<Named>, peoplePairs: set<(Id, Id)>)
    requires PairsOk(albumPairs, albums, t.assets, owner) && PairsOk(peoplePairs, people, t.assets, owner)
    requires Recollected(t, AlbumDirs(albums) + PersonDirs(people), CollectionLinks(albumPairs, peoplePairs), u)
    ensures forall p | p in albumPairs || p in peoplePairs ::
              && p.1 in u.assets
              && var asset := u.assets[p.1].asset;
                 && asset.owner == owner && asset.size.Some? && !asset.trashed && !asset.offline
                 && asset.visibility != "hidden"
    ensures forall p | p in albumPairs :: AlbumDir(p.0) in u.dirs && u.dirs[AlbumDir(p.0)].active
    ensures forall p | p in peoplePairs :: PersonDir(p.0) in u.dirs && u.dirs[PersonDir(p.0)].active
    ensures forall d, a :: (d, a) in u.memberships <==>
              (d.AlbumDir? && (d.id, a) in albumPairs) || (d.PersonDir? && (d.id, a) in peoplePairs)
    ensures forall d | d in u.dirs && d.AlbumDir? ::
              u.dirs[d].active <==> exists i :: 0 <= i < |albums| && albums[i].0 == d.id
    ensures forall d | d in u.dirs && d.PersonDir? ::
              u.dirs[d].active <==> exists i :: 0 <= i < |people| && people[i].0 == d.id
  {
    forall d, a
      ensures (d, a) in u.memberships <==>
                (d.AlbumDir? && (d.id, a) in albumPairs) || (d.PersonDir? && (d.id, a) in peoplePairs)
    {
      if d.AlbumDir? && (d.id, a) in albumPairs { assert (AlbumDir((d.id, a).0), (d.id, a).1) in u.memberships; }
      if d.PersonDir? && (d.id, a) in peoplePairs { assert (PersonDir((d.id, a).0), (d.id, a).1) in u.memberships; }
    }
  }

  // A still whose video is not in the catalog can be uploaded, and then not even a
  // refresh that stages nothing goes through.
  method LonelyStillStopsRefreshes() returns (catalog: Catalog, uploaded: Tables, ok: bool)
    ensures uploaded.assets.Keys == {STILL} && LivePhotosOk(Contents(map[]))
    ensures catalog.Valid() && catalog.View() == uploaded && !ok
  {
    hide Inv, Sound, Placed, Advances, Names.Safe, Names.CanonicalId, Names.Practical, UsedNames, Refreshed, NewName,
         Names.PRACTICAL_DIGITS, LivePhotosOk, FitsLivePhotos;
    SampleIds();
    catalog := new Catalog();
    FewNames(catalog.assets, STILL);
    NoLivePhotos();
    catalog.AddUploaded(STILL, Plain("image/heic", Some(SOURCE)), "b");
    FewNames(catalog.assets, STILL);
    uploaded := catalog.View();
    assert !FitsLivePhotos(map[], STILL, Plain("image/heic", Some(SOURCE))) by { VideoIsMissing(); }
    assert Contents(map[]) == map[];
    ok := catalog.FinishStaged([], false);
  }

  lemma NoLivePhotos()
    ensures LivePhotosOk(Contents(map[]))
  {
  }

  lemma VideoIsMissing()
    ensures !FitsLivePhotos(map[], STILL, Plain("image/heic", Some(SOURCE)))
  {
  }

  lemma FewNames(assets: Assets, id: Id)
    requires assets.Keys <= {id}
    ensures Names.Practical(|UsedNames(assets)| + 1)
  {
    Names.OneIsPractical();
    assert Names.Pow10(45) == 100 * Names.Pow10(43);
    if id in assets {
      assert UsedNames(assets) == {assets[id].name};
    } else {
      assert UsedNames(assets) == {};
    }
  }

  // An uploaded asset whose name carries its own marker in full length cannot be
  // replaced: everything that publish_replacement checks is in order.
  method MarkedSourceIsRefused() returns (catalog: Catalog, ok: bool)
    ensures catalog.Valid() && SOURCE in catalog.assets && catalog.assets[SOURCE].name == Names.MarkedName(SOURCE)
    ensures Publishable(catalog.View(), SOURCE, CANDIDATE, Plain("image/heic", None)) && !ok
  {
    hide Inv, Sound, Placed, Advances, Names.MarkedName, Names.SelfMarked, Names.Safe, Names.SafeFilename,
         Names.RetiredName, Names.CanonicalId, Names.Practical, Names.Search;
    SampleIds();
    Names.MarkedNameRetiresToItself(SOURCE, {});
    Names.SafeFilenameFixedPoints(Names.MarkedName(SOURCE), SOURCE, Names.LIMIT);
    Names.OneIsPractical();
    catalog := new Catalog();
    assert UsedNames(catalog.assets) == {};
    catalog.AddUploaded(SOURCE, Plain("image/heic", None), Names.MarkedName(SOURCE));
    assert OtherNames(catalog.assets, SOURCE) == {};
    ok := catalog.PublishReplacement(SOURCE, CANDIDATE, Plain("image/heic", None));
  }
}
