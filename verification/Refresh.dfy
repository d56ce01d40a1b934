// Refreshing the catalog while replacements are under way: the policy in
// src/immich_on_demand/service.py and the sweeps in src/immich_on_demand/app.py.
//
// A checksum is compared by what it decodes to.
module Refresh {
  import opened Options
  import opened Manifests
  import opened Saga

  // What a replacement that has no candidate yet will look like on the server.
  datatype Signature = Signature(owner: Uuid, size: int, digest: Digest)

  datatype Policy = Policy(preserved: map<Uuid, Remote>, excluded: set<Uuid>, signatures: set<Signature>)

  const NO_POLICY: Policy := Policy(map[], {}, {})

  type Page = seq<Remote>

  const MAX_SWEEPS: nat := 3

  // ----------------------------------------------------------------- policy

  // Jobs that the policy looks at.
  predicate Sealed(m: Manifest) {
    m.operation == Replacement && m.size.Some? && m.sha1.Some?
  }

  // The catalog shows the job's candidate, under the source's old name or because
  // the job was blocked with the candidate in the catalog.
  predicate Shows(entries: Entries, m: Manifest)
    requires m.source.Some? && m.candidate.Some? && m.source.value.asset in entries
  {
    var s, c := m.source.value, m.candidate.value;
    c in entries && ((entries[s.asset].asset.trashed && entries[c].name == s.name) || BlockedOver(m))
  }

  predicate BlockedOver(m: Manifest) {
    m.state == Blocked && (m.error == Some(CandidateMismatch) || m.error == Some(UploadRejected))
  }

  // None where the source is not in the catalog as the job knows it.
  function WithJob(p: Policy, entries: Entries, m: Manifest): Option<Policy> {
    if !Sealed(m) then Some(p)
    else if m.source == None then None
    else
      var s := m.source.value;
      if s.asset !in entries || entries[s.asset].inode != s.inode then None
      else
        var source := entries[s.asset].asset;
        var q := p.(preserved := p.preserved[source.id := source]);
        if m.candidate == None then
          Some(q.(signatures := q.signatures + {Signature(m.owner, m.size.value, m.sha1.value)}))
        else
          var c := m.candidate.value;
          if source.trashed && c in entries && entries[c].name == s.name then
            Some(q.(preserved := q.preserved[entries[c].asset.id := entries[c].asset]))
          else if m.state == Blocked && c in entries && BlockedOver(m) then
            Some(q.(preserved := q.preserved[entries[c].asset.id := entries[c].asset]))
          else Some(q.(excluded := q.excluded + {c}))
  }

  function PolicyOf(entries: Entries, jobs: seq<Manifest>): Option<Policy> {
    if jobs == [] then Some(NO_POLICY)
    else
      var before := PolicyOf(entries, jobs[..|jobs| - 1]);
      if before == None then None else WithJob(before.value, entries, jobs[|jobs| - 1])
  }

  method ReplacementRefreshPolicy(entries: Entries, jobs: seq<Manifest>) returns (policy: Option<Policy>)
    ensures policy == PolicyOf(entries, jobs)
  {
    hide WithJob;
    var p := NO_POLICY;
    assert jobs[..0] == [];
    for i := 0 to |jobs|
      invariant PolicyOf(entries, jobs[..i]) == Some(p)
    {
      assert jobs[..i + 1][..i] == jobs[..i];
      var next := WithJob(p, entries, jobs[i]);
      if next == None {
        PolicyFails(entries, jobs, i + 1);
        return None;
      }
      p := next.value;
    }
    assert jobs[..|jobs|] == jobs;
    return Some(p);
  }

  lemma {:induction false} PolicyFails(entries: Entries, jobs: seq<Manifest>, i: nat)
    requires i <= |jobs| && PolicyOf(entries, jobs[..i]) == None
    ensures PolicyOf(entries, jobs) == None
    decreases |jobs|
  {
    hide WithJob;
    if i == |jobs| {
      assert jobs[..i] == jobs;
    } else {
      var n := |jobs| - 1;
      assert jobs[..n][..i] == jobs[..i];
      PolicyFails(entries, jobs[..n], i);
    }
  }

  // A job whose source is not in the catalog, or is there under another inode.
  predicate Astray(entries: Entries, m: Manifest) {
    && m.operation == Replacement && m.size.Some? && m.sha1.Some?
    && (m.source == None
        || m.source.value.asset !in entries || entries[m.source.value.asset].inode != m.source.value.inode)
  }

  // There is a policy unless some replacement's source has gone astray; drafts and
  // ordinary uploads have no say in it.
  lemma {:induction false} PolicyFailsIff(entries: Entries, jobs: seq<Manifest>)
    ensures PolicyOf(entries, jobs) == None <==> exists m | m in jobs :: Astray(entries, m)
  {
    if jobs != [] {
      var n := |jobs| - 1;
      PolicyFailsIff(entries, jobs[..n]);
      assert jobs == jobs[..n] + [jobs[n]];
      if PolicyOf(entries, jobs[..n]).Some? { WithJobFailsIff(PolicyOf(entries, jobs[..n]).value, entries, jobs[n]); }
      hide WithJob, Astray;
    }
  }

  lemma WithJobFailsIff(p: Policy, entries: Entries, m: Manifest)
    ensures WithJob(p, entries, m) == None <==> Astray(entries, m)
    ensures m.operation == Ordinary || m.size == None || m.sha1 == None ==> WithJob(p, entries, m) == Some(p)
  {
  }

  // The source's row, as the catalog has it, and what is known of the candidate.
  predicate Covers(p: Policy, entries: Entries, m: Manifest)
    requires Sealed(m) && m.source.Some?
  {
    var s := m.source.value;
    && s.asset in entries && entries[s.asset].inode == s.inode
    && s.asset in p.preserved && p.preserved[s.asset] == entries[s.asset].asset
    && match m.candidate
       case None => Signature(m.owner, m.size.value, m.sha1.value) in p.signatures
       case Some(c) =>
         if Shows(entries, m) then c in p.preserved && p.preserved[c] == entries[c].asset else c in p.excluded
  }

  // Everything preserved is a row of the catalog.
  predicate PreservesRows(p: Policy, entries: Entries) {
    forall id | id in p.preserved :: id in entries && p.preserved[id] == entries[id].asset
  }

  predicate RowsNamed(entries: Entries) {
    forall id | id in entries :: entries[id].asset.id == id
  }

  lemma {:induction false} PolicyCoversEveryJob(entries: Entries, jobs: seq<Manifest>)
    requires RowsNamed(entries) && PolicyOf(entries, jobs).Some?
    ensures PreservesRows(PolicyOf(entries, jobs).value, entries)
    ensures forall m | m in jobs && Sealed(m) :: m.source.Some? && Covers(PolicyOf(entries, jobs).value, entries, m)
  {
    if jobs != [] {
      var n := |jobs| - 1;
      PolicyCoversEveryJob(entries, jobs[..n]);
      var before, after := PolicyOf(entries, jobs[..n]).value, PolicyOf(entries, jobs).value;
      WithJobKeeps(before, entries, jobs[n]);
      assert jobs == jobs[..n] + [jobs[n]];
      forall m | m in jobs && Sealed(m) ensures m.source.Some? && Covers(after, entries, m) {
        if m in jobs[..n] { CoversMore(before, after, entries, m); }
      }
    }
  }

  // Later jobs only add, and a row is preserved as it is whoever asks.
  predicate Grows(p: Policy, q: Policy) {
    && p.excluded <= q.excluded && p.signatures <= q.signatures
    && forall id | id in p.preserved :: id in q.preserved && q.preserved[id] == p.preserved[id]
  }

  lemma WithJobKeeps(p: Policy, entries: Entries, m: Manifest)
    requires RowsNamed(entries) && PreservesRows(p, entries) && WithJob(p, entries, m).Some?
    ensures var q := WithJob(p, entries, m).value;
            PreservesRows(q, entries) && Grows(p, q) && (Sealed(m) ==> m.source.Some? && Covers(q, entries, m))
  {
  }

  lemma CoversMore(p: Policy, q: Policy, entries: Entries, m: Manifest)
    requires Sealed(m) && m.source.Some? && Covers(p, entries, m) && Grows(p, q)
    ensures Covers(q, entries, m)
  {
  }

  // ----------------------------------------------------------------- sweeps

  function Flat(pages: seq<Page>): seq<Remote> {
    if pages == [] then [] else Flat(pages[..|pages| - 1]) + pages[|pages| - 1]
  }

  function Listed(assets: seq<Remote>): set<Uuid> {
    set i | 0 <= i < |assets| :: assets[i].id
  }

  predicate NoDuplicate(assets: seq<Remote>) {
    forall i, j | 0 <= i < j < |assets| :: assets[i].id != assets[j].id
  }

  predicate Suppressed(p: Policy, asset: Remote) {
    asset.size.Some? && asset.checksum.digest.Some?
    && Signature(asset.owner, asset.size.value, asset.checksum.digest.value) in p.signatures
  }

  // What one listed asset stages in a complete sweep.
  function Staging(p: Policy, entries: Entries, asset: Remote): Option<Remote> {
    if asset.id in p.excluded || asset.id in p.preserved then None
    else if Suppressed(p, asset) then (if asset.id in entries then Some(entries[asset.id].asset) else None)
    else Some(asset)
  }

  function Staged(p: Policy, entries: Entries, assets: seq<Remote>): map<Uuid, Remote> {
    if assets == [] then map[]
    else
      var n := |assets| - 1;
      var before := Staged(p, entries, assets[..n]);
      var more := Staging(p, entries, assets[n]);
      if more.Some? then before[more.value.id := more.value] else before
  }

  function Complete(p: Policy, entries: Entries, assets: seq<Remote>): map<Uuid, Remote> {
    Staged(p, entries, assets) + p.preserved
  }

  method StagePage(p: Policy, entries: Entries, before: seq<Remote>, page: Page, table: map<Uuid, Remote>,
                   seen: set<Uuid>)
    returns (tableAfter: map<Uuid, Remote>, seenAfter: set<Uuid>, duplicate: bool)
    requires table == Staged(p, entries, before) && seen == Listed(before)
    ensures tableAfter == Staged(p, entries, before + page) && seenAfter == Listed(before + page)
    ensures NoDuplicate(before + page) <==> NoDuplicate(before) && !duplicate
  {
    hide Staging;
    tableAfter, seenAfter, duplicate := table, seen, false;
    assert before + page[..0] == before;
    for i := 0 to |page|
      invariant tableAfter == Staged(p, entries, before + page[..i]) && seenAfter == Listed(before + page[..i])
      invariant NoDuplicate(before + page[..i]) <==> NoDuplicate(before) && !duplicate
    {
      var asset := page[i];
      OneMore(before + page[..i], asset);
      assert before + page[..i + 1] == before + page[..i] + [asset];
      StagedStep(p, entries, before + page[..i], asset);
      if asset.id in seenAfter {
        duplicate := true;
      }
      seenAfter := seenAfter + {asset.id};
      var staged := Staging(p, entries, asset);
      if staged.Some? {
        tableAfter := tableAfter[staged.value.id := staged.value];
      }
    }
    assert page[..|page|] == page;
  }

  lemma OneMore(assets: seq<Remote>, asset: Remote)
    ensures Listed(assets + [asset]) == Listed(assets) + {asset.id}
    ensures NoDuplicate(assets + [asset]) <==> NoDuplicate(assets) && asset.id !in Listed(assets)
  {
    var more := assets + [asset];
    assert more[|assets|] == asset;
    forall id | id in Listed(assets) ensures id in Listed(more) {
      var i :| 0 <= i < |assets| && assets[i].id == id;
      assert more[i].id == id;
    }
    if NoDuplicate(more) {
      forall i, j | 0 <= i < j < |assets| ensures assets[i].id != assets[j].id {
        assert more[i] == assets[i] && more[j] == assets[j];
      }
      forall i | 0 <= i < |assets| ensures assets[i].id != asset.id {
        assert more[i] == assets[i];
      }
    }
  }

  lemma StagedStep(p: Policy, entries: Entries, assets: seq<Remote>, asset: Remote)
    ensures Staged(p, entries, assets + [asset]) ==
            var more := Staging(p, entries, asset);
            if more.Some? then Staged(p, entries, assets)[more.value.id := more.value] else Staged(p, entries, assets)
  {
    assert (assets + [asset])[..|assets|] == assets;
  }

  method Sweep(p: Policy, entries: Entries, pages: seq<Page>)
    returns (table: map<Uuid, Remote>, ids: set<Uuid>, duplicate: bool)
    ensures table == Complete(p, entries, Flat(pages))
    ensures ids == Listed(Flat(pages)) + p.preserved.Keys
    ensures duplicate == !NoDuplicate(Flat(pages))
  {
    hide Staged, NoDuplicate, Listed;
    table, ids, duplicate := map[], {}, false;
    NothingListed(p, entries);
    assert pages[..0] == [];
    for i := 0 to |pages|
      invariant table == Staged(p, entries, Flat(pages[..i])) && ids == Listed(Flat(pages[..i]))
      invariant duplicate == !NoDuplicate(Flat(pages[..i]))
    {
      assert pages[..i + 1][..i] == pages[..i];
      var again: bool;
      table, ids, again := StagePage(p, entries, Flat(pages[..i]), pages[i], table, ids);
      duplicate := duplicate || again;
    }
    assert pages[..|pages|] == pages;
    table := table + p.preserved;
    ids := ids + p.preserved.Keys;
  }

  lemma NothingListed(p: Policy, entries: Entries)
    ensures Staged(p, entries, []) == map[] && Listed([]) == {} && NoDuplicate([])
  {
  }

  // refresh_catalog goes no further where this does not hold.
  predicate Consistent(p: Policy) {
    p.preserved.Keys * p.excluded == {}
  }

  // Two sweeps in a row that list every asset once, and the same assets.
  predicate Agree(p: Policy, first: seq<Page>, second: seq<Page>) {
    && NoDuplicate(Flat(first)) && NoDuplicate(Flat(second))
    && Listed(Flat(first)) + p.preserved.Keys == Listed(Flat(second)) + p.preserved.Keys
  }

  // What a sweep leaves to compare the next one with.
  function Remembered(p: Policy, pages: seq<Page>): Option<set<Uuid>> {
    if NoDuplicate(Flat(pages)) then Some(Listed(Flat(pages)) + p.preserved.Keys) else None
  }

  // The first sweep that repeats the one before decides what is staged.
  predicate Settles(p: Policy, entries: Entries, sweeps: seq<seq<Page>>, staged: map<Uuid, Remote>) {
    && Consistent(p)
    && exists k | 1 <= k < |sweeps| :: SettlesAt(p, entries, sweeps, staged, k)
  }

  predicate SettlesAt(p: Policy, entries: Entries, sweeps: seq<seq<Page>>, staged: map<Uuid, Remote>, k: nat)
    requires 1 <= k < |sweeps|
  {
    && Agree(p, sweeps[k - 1], sweeps[k])
    && (forall i | 1 <= i < k :: !Agree(p, sweeps[i - 1], sweeps[i]))
    && staged == Complete(p, entries, Flat(sweeps[k]))
  }

  predicate Unsettled(p: Policy, sweeps: seq<seq<Page>>) {
    || !Consistent(p)
    || forall k | 1 <= k < |sweeps| :: !Agree(p, sweeps[k - 1], sweeps[k])
  }

  // None where the refresh fails; sweeps are what the server lists when asked.
  method RefreshCatalog(entries: Entries, jobs: seq<Manifest>, sweeps: seq<seq<Page>>)
    returns (staged: Option<map<Uuid, Remote>>)
    requires |sweeps| == MAX_SWEEPS
    ensures staged.Some? ==>
              PolicyOf(entries, jobs).Some? && Settles(PolicyOf(entries, jobs).value, entries, sweeps, staged.value)
    ensures staged == None && PolicyOf(entries, jobs).Some? ==> Unsettled(PolicyOf(entries, jobs).value, sweeps)
  {
    hide Complete, NoDuplicate, Listed, Flat, PolicyOf;
    var policy := ReplacementRefreshPolicy(entries, jobs);
    if policy == None {
      return None;
    }
    var p := policy.value;
    if !Consistent(p) {
      return None;
    }
    var previous: Option<set<Uuid>> := None;
    for k := 0 to MAX_SWEEPS
      invariant k == 0 ==> previous == None
      invariant k > 0 ==> previous == Remembered(p, sweeps[k - 1])
      invariant forall i | 1 <= i < k :: !Agree(p, sweeps[i - 1], sweeps[i])
    {
      var table, ids, duplicate := Sweep(p, entries, sweeps[k]);
      if duplicate {
        previous := None;
      } else if previous == Some(ids) {
        assert SettlesAt(p, entries, sweeps, table, k);
        return Some(table);
      } else {
        previous := Some(ids);
      }
    }
    return None;
  }

  // ------------------------------------------------------------ incremental

  predicate Skipped(p: Policy, asset: Remote) {
    asset.id in p.preserved || asset.id in p.excluded || Suppressed(p, asset)
  }

  function Changed(p: Policy, assets: seq<Remote>): map<Uuid, Remote> {
    if assets == [] then map[]
    else
      var n := |assets| - 1;
      if Skipped(p, assets[n]) then Changed(p, assets[..n]) else Changed(p, assets[..n])[assets[n].id := assets[n]]
  }

  lemma ChangedStep(p: Policy, assets: seq<Remote>, asset: Remote)
    ensures Changed(p, assets + [asset]) ==
            if Skipped(p, asset) then Changed(p, assets) else Changed(p, assets)[asset.id := asset]
  {
    assert (assets + [asset])[..|assets|] == assets;
  }

  method ChangedPage(p: Policy, before: seq<Remote>, page: Page, staged: map<Uuid, Remote>)
    returns (stagedAfter: map<Uuid, Remote>)
    requires staged == Changed(p, before)
    ensures stagedAfter == Changed(p, before + page)
  {
    hide Skipped, Changed;
    stagedAfter := staged;
    assert before + page[..0] == before;
    for i := 0 to |page|
      invariant stagedAfter == Changed(p, before + page[..i])
    {
      assert before + page[..i + 1] == before + page[..i] + [page[i]];
      ChangedStep(p, before + page[..i], page[i]);
      if !Skipped(p, page[i]) {
        stagedAfter := stagedAfter[page[i].id := page[i]];
      }
    }
    assert page[..|page|] == page;
  }

  method RefreshIncremental(p: Policy, pages: seq<Page>) returns (staged: map<Uuid, Remote>)
    ensures staged == Changed(p, Flat(pages))
  {
    hide Skipped;
    staged := map[];
    assert pages[..0] == [];
    for i := 0 to |pages|
      invariant staged == Changed(p, Flat(pages[..i]))
    {
      assert pages[..i + 1][..i] == pages[..i];
      staged := ChangedPage(p, Flat(pages[..i]), pages[i], staged);
    }
    assert pages[..|pages|] == pages;
  }

  // The rows that a refresh leaves, a complete one exactly those that were
  // staged; that they keep inode and name is proved in Catalog.
  function RowsOf(entries: Entries): map<Uuid, Remote> {
    map id | id in entries :: entries[id].asset
  }

  function AfterIncremental(entries: Entries, staged: map<Uuid, Remote>): map<Uuid, Remote> {
    RowsOf(entries) + staged
  }

  // -------------------------------------------------------------- guarantees

  // Some listed asset stages a row of that identifier.
  predicate LetIn(p: Policy, entries: Entries, assets: seq<Remote>, id: Uuid) {
    exists i | 0 <= i < |assets| :: assets[i].id == id && Staging(p, entries, assets[i]).Some?
  }

  lemma StagingKeepsId(p: Policy, entries: Entries, asset: Remote)
    requires RowsNamed(entries) && Staging(p, entries, asset).Some?
    ensures Staging(p, entries, asset).value.id == asset.id && asset.id !in p.excluded && asset.id !in p.preserved
  {
    hide Suppressed;
  }

  // What is staged are the assets that the sweep lists and the policy lets in,
  // each under its own identifier; a row that a signature holds back is local.
  lemma {:induction false} StagedRows(p: Policy, entries: Entries, assets: seq<Remote>)
    requires RowsNamed(entries)
    ensures forall id :: id in Staged(p, entries, assets) <==> LetIn(p, entries, assets, id)
    ensures forall id | id in Staged(p, entries, assets) :: Staged(p, entries, assets)[id].id == id
  {
    hide Staging;
    if assets != [] {
      var n := |assets| - 1;
      StagedRows(p, entries, assets[..n]);
      assert assets == assets[..n] + [assets[n]];
      forall id ensures LetIn(p, entries, assets, id) <==>
                        LetIn(p, entries, assets[..n], id)
                        || (assets[n].id == id && Staging(p, entries, assets[n]).Some?) {
        LetInMore(p, entries, assets[..n], assets[n], id);
      }
      if Staging(p, entries, assets[n]).Some? {
        StagingKeepsId(p, entries, assets[n]);
      }
    }
  }

  lemma LetInMore(p: Policy, entries: Entries, assets: seq<Remote>, asset: Remote, id: Uuid)
    ensures LetIn(p, entries, assets + [asset], id) <==>
            LetIn(p, entries, assets, id) || (asset.id == id && Staging(p, entries, asset).Some?)
  {
    hide Staging;
    var more := assets + [asset];
    if LetIn(p, entries, assets, id) {
      var i :| 0 <= i < |assets| && assets[i].id == id && Staging(p, entries, assets[i]).Some?;
      assert more[i] == assets[i];
    }
    assert more[|assets|] == asset;
  }

  // The job that the policy saw may be behind the one there is now: what cannot
  // change is the owner, the source, the payload once it is sealed, and a
  // candidate that was recorded.
  predicate Earlier(snapshot: Manifest, m: Manifest) {
    && snapshot.operation == m.operation && snapshot.owner == m.owner && snapshot.source == m.source
    && (snapshot.size.Some? ==> m.size == snapshot.size) && (snapshot.sha1.Some? ==> m.sha1 == snapshot.sha1)
    && (snapshot.candidate.Some? ==> m.candidate == snapshot.candidate)
  }

  // An asset as a job's upload left it on the server.
  predicate Uploaded(m: Manifest, asset: Remote) {
    m.candidate == Some(asset.id) && asset.owner == m.owner && asset.size == m.size && m.sha1.Some?
      && asset.checksum.digest == m.sha1
  }

  predicate PublishedIn(m: Manifest, entries: Entries) {
    && m.source.Some? && m.candidate.Some?
    && m.source.value.asset in entries && entries[m.source.value.asset].asset.trashed
    && m.candidate.value in entries && entries[m.candidate.value].name == m.source.value.name
  }

  // A job of the snapshot that has an asset for its candidate, which the catalog
  // does not show as such.
  predicate Withholds(entries: Entries, m: Manifest, id: Uuid) {
    && Sealed(m) && m.candidate == Some(id)
    && m.source.Some? && m.source.value.asset in entries && !Shows(entries, m)
  }

  predicate Withheld(entries: Entries, jobs: seq<Manifest>, id: Uuid) {
    exists m | m in jobs :: Withholds(entries, m, id)
  }

  // A job of the snapshot that replaces an asset, or whose candidate it is, as
  // the catalog shows.
  predicate Holds(entries: Entries, m: Manifest, id: Uuid) {
    && Sealed(m) && m.source.Some? && m.source.value.asset in entries
    && (m.source.value.asset == id || (m.candidate == Some(id) && Shows(entries, m)))
  }

  predicate Held(entries: Entries, jobs: seq<Manifest>, id: Uuid) {
    exists m | m in jobs :: Holds(entries, m, id)
  }

  // A job of the snapshot that has no candidate yet, and whose candidate the
  // asset may be.
  predicate Awaits(m: Manifest, asset: Remote) {
    && Sealed(m) && m.candidate == None && m.owner == asset.owner && m.size == asset.size
       && m.sha1 == asset.checksum.digest
  }

  predicate Awaited(jobs: seq<Manifest>, asset: Remote) {
    exists m | m in jobs :: Awaits(m, asset)
  }

  lemma WithJobIsExact(p: Policy, entries: Entries, m: Manifest, id: Uuid)
    requires RowsNamed(entries) && WithJob(p, entries, m).Some?
    ensures var q := WithJob(p, entries, m).value;
            && (id in q.excluded <==> id in p.excluded || Withholds(entries, m, id))
            && (id in q.preserved <==> id in p.preserved || Holds(entries, m, id))
  {
  }

  lemma WithJobAwaits(p: Policy, entries: Entries, m: Manifest, asset: Remote)
    requires WithJob(p, entries, m).Some?
    ensures Suppressed(WithJob(p, entries, m).value, asset) <==> Suppressed(p, asset) || Awaits(m, asset)
  {
    if Sealed(m) && Suppressed(WithJob(p, entries, m).value, asset) {
      assert asset.size.Some? && asset.checksum.digest.Some?;
    }
  }

  // What the policy excludes are exactly the candidates that are not shown, what
  // it preserves are the sources and the candidates that are, and what it knows
  // by its signature is what a job without a candidate may be waiting for.
  lemma {:induction false} PolicyIsExact(entries: Entries, jobs: seq<Manifest>, id: Uuid, asset: Remote)
    requires RowsNamed(entries) && PolicyOf(entries, jobs).Some?
    ensures var p := PolicyOf(entries, jobs).value;
            && (id in p.excluded <==> Withheld(entries, jobs, id))
            && (id in p.preserved <==> Held(entries, jobs, id))
            && (Suppressed(p, asset) <==> Awaited(jobs, asset))
  {
    hide WithJob, Withholds, Holds, Awaits;
    if jobs == [] {
      hide *;
      NoPolicy(asset);
    } else {
      var n := |jobs| - 1;
      var before := PolicyOf(entries, jobs[..n]).value;
      PolicyIsExact(entries, jobs[..n], id, asset);
      WithJobIsExact(before, entries, jobs[n], id);
      WithJobAwaits(before, entries, jobs[n], asset);
      assert jobs == jobs[..n] + [jobs[n]];
      hide Suppressed;
    }
  }

  // What a complete refresh leaves, for every row and whatever the jobs are: a
  // row that a job holds; and of the rest what the server lists and no job
  // withholds, but for a new asset that some job may be waiting for.
  lemma {:induction false} CompleteIsExactly(entries: Entries, jobs: seq<Manifest>, assets: seq<Remote>, id: Uuid)
    requires RowsNamed(entries) && PolicyOf(entries, jobs).Some?
    ensures id in Complete(PolicyOf(entries, jobs).value, entries, assets) <==>
            || Held(entries, jobs, id)
            || (!Withheld(entries, jobs, id)
                && exists i :: 0 <= i < |assets| && assets[i].id == id && (id in entries || !Awaited(jobs, assets[i])))
  {
    hide PolicyOf, Staged, Held, Withheld, Awaited, Suppressed;
    var p := PolicyOf(entries, jobs).value;
    StagedRows(p, entries, assets);
    forall i | 0 <= i < |assets| && assets[i].id == id
      ensures Staging(p, entries, assets[i]).Some? <==>
              !Withheld(entries, jobs, id) && !Held(entries, jobs, id) && (id in entries || !Awaited(jobs, assets[i]))
    {
      PolicyIsExact(entries, jobs, id, assets[i]);
    }
    PolicyIsExact(entries, jobs, id, SomeAsset(id));
  }

  // An asset of that identifier, which the server need not list.
  function SomeAsset(id: Uuid): Remote {
    Remote(id, 0, None, None, Checksum("", None), "", 0, None, false, "timeline", false, false, None)
  }

  lemma {:induction false} NoPolicy(asset: Remote)
    ensures !Suppressed(NO_POLICY, asset)
  {
  }

  // The row itself: one that is held is the local one; any other is the local one
  // too, or the asset that the server lists.
  lemma {:induction false} CompleteRow(entries: Entries, jobs: seq<Manifest>, assets: seq<Remote>, id: Uuid)
    requires RowsNamed(entries) && PolicyOf(entries, jobs).Some?
    requires id in Complete(PolicyOf(entries, jobs).value, entries, assets)
    ensures var row := Complete(PolicyOf(entries, jobs).value, entries, assets)[id];
            if Held(entries, jobs, id) then id in entries && row == entries[id].asset
            else exists i | 0 <= i < |assets| ::
                   && assets[i].id == id
                   && (if Awaited(jobs, assets[i]) then id in entries && row == entries[id].asset else row == assets[i])
  {
    hide PolicyOf, Staged, Held, Withheld, Awaited, Suppressed;
    var p := PolicyOf(entries, jobs).value;
    PolicyIsExact(entries, jobs, id, SomeAsset(id));
    PolicyCoversEveryJob(entries, jobs);
    if id !in p.preserved {
      StagedFrom(p, entries, assets, id);
      var i :| 0 <= i < |assets| && assets[i].id == id
          && Staging(p, entries, assets[i]) == Some(Staged(p, entries, assets)[id]);
      PolicyIsExact(entries, jobs, id, assets[i]);
    }
  }

  lemma {:induction false} StagedFrom(p: Policy, entries: Entries, assets: seq<Remote>, id: Uuid)
    requires RowsNamed(entries) && id in Staged(p, entries, assets)
    ensures exists i | 0 <= i < |assets| ::
              assets[i].id == id && Staging(p, entries, assets[i]) == Some(Staged(p, entries, assets)[id])
  {
    hide Staging;
    var n := |assets| - 1;
    var more := Staging(p, entries, assets[n]);
    if more.Some? { StagingKeepsId(p, entries, assets[n]); }
    if more.Some? && more.value.id == id {
      assert Staging(p, entries, assets[n]) == Some(Staged(p, entries, assets)[id]);
    } else {
      StagedFrom(p, entries, assets[..n], id);
      var i :| 0 <= i < n && assets[..n][i].id == id
          && Staging(p, entries, assets[..n][i]) == Some(Staged(p, entries, assets[..n])[id]);
      assert assets[i] == assets[..n][i];
    }
  }

  predicate KeepsRow(entries: Entries, after: map<Uuid, Remote>, id: Uuid) {
    id in entries && id in after && after[id] == entries[id].asset
  }

  // A row is safe from every complete refresh, whatever the server lists, if and
  // only if a job of the snapshot holds it: a source is not, while the draft that
  // is to replace it is still open.
  lemma {:induction false} CompleteKeepsRowIff(entries: Entries, jobs: seq<Manifest>, id: Uuid)
    requires RowsNamed(entries) && PolicyOf(entries, jobs).Some?
    ensures Held(entries, jobs, id) <==>
            forall assets :: KeepsRow(entries, Complete(PolicyOf(entries, jobs).value, entries, assets), id)
  {
    hide PolicyOf, Complete, Held, Withheld, Awaited;
    if Held(entries, jobs, id) {
      forall assets ensures KeepsRow(entries, Complete(PolicyOf(entries, jobs).value, entries, assets), id) {
        CompleteIsExactly(entries, jobs, assets, id);
        CompleteRow(entries, jobs, assets, id);
      }
    } else {
      CompleteIsExactly(entries, jobs, [], id);
      assert !KeepsRow(entries, Complete(PolicyOf(entries, jobs).value, entries, []), id);
    }
  }

  // So the source of every sealed job of the snapshot is.
  lemma {:induction false} CompleteKeepsSource(entries: Entries, jobs: seq<Manifest>, assets: seq<Remote>,
                                               snapshot: Manifest)
    requires RowsNamed(entries) && PolicyOf(entries, jobs).Some? && snapshot in jobs && Sealed(snapshot)
    ensures snapshot.source.Some?
    ensures KeepsRow(entries, Complete(PolicyOf(entries, jobs).value, entries, assets), snapshot.source.value.asset)
  {
    hide PolicyOf, Complete;
    PolicyCoversEveryJob(entries, jobs);
    assert Covers(PolicyOf(entries, jobs).value, entries, snapshot);
    assert Holds(entries, snapshot, snapshot.source.value.asset);
    CompleteKeepsRowIff(entries, jobs, snapshot.source.value.asset);
  }

  // The server lists an asset, as the job uploaded it.
  predicate ListedAsUploaded(m: Manifest, assets: seq<Remote>) {
    && m.candidate.Some? && m.candidate.value in Listed(assets)
    && forall i | 0 <= i < |assets| && assets[i].id == m.candidate.value :: Uploaded(m, assets[i])
  }

  // Some job of the snapshot has no candidate yet, and would take this job's.
  predicate AwaitedLike(jobs: seq<Manifest>, m: Manifest) {
    exists j | j in jobs :: Sealed(j) && j.candidate == None && j.owner == m.owner && j.size == m.size
      && j.sha1 == m.sha1
  }

  lemma {:induction false} UploadedIsAwaited(jobs: seq<Manifest>, m: Manifest, asset: Remote)
    requires Uploaded(m, asset)
    ensures Awaited(jobs, asset) <==> AwaitedLike(jobs, m)
  {
    forall j | j in jobs
      ensures Awaits(j, asset) <==>
              Sealed(j) && j.candidate == None && j.owner == m.owner && j.size == m.size && j.sha1 == m.sha1
    {
    }
    if AwaitedLike(jobs, m) {
      var j :| j in jobs && Sealed(j) && j.candidate == None && j.owner == m.owner && j.size == m.size
          && j.sha1 == m.sha1;
      assert Awaits(j, asset);
    }
  }

  // A candidate that is not in the catalog, and that the server lists, is added by
  // a complete refresh unless a job of the snapshot has it for its candidate or
  // may be waiting for it. A job that was a draft then does neither.
  lemma {:induction false} CompleteAddsUnpublishedIff(entries: Entries, jobs: seq<Manifest>, assets: seq<Remote>,
                                                      m: Manifest)
    requires RowsNamed(entries) && PolicyOf(entries, jobs).Some?
    requires ListedAsUploaded(m, assets) && m.candidate.value !in entries
    ensures m.candidate.value in Complete(PolicyOf(entries, jobs).value, entries, assets) <==>
            !Withheld(entries, jobs, m.candidate.value) && !AwaitedLike(jobs, m)
  {
    hide PolicyOf, Complete, Withheld, Awaited, AwaitedLike, Uploaded;
    var c := m.candidate.value;
    CompleteIsExactly(entries, jobs, assets, c);
    assert !Held(entries, jobs, c);
    forall i | 0 <= i < |assets| && assets[i].id == c ensures Awaited(jobs, assets[i]) <==> AwaitedLike(jobs, m) {
      UploadedIsAwaited(jobs, m, assets[i]);
    }
  }

  // A sealed job of the snapshot stands in the way, however far it has got since.
  lemma {:induction false} SealedHoldsBack(entries: Entries, jobs: seq<Manifest>, snapshot: Manifest, m: Manifest)
    requires RowsNamed(entries) && PolicyOf(entries, jobs).Some?
    requires snapshot in jobs && Sealed(snapshot) && Earlier(snapshot, m) && m.candidate.Some?
    ensures Withheld(entries, jobs, m.candidate.value) || Held(entries, jobs, m.candidate.value) || AwaitedLike(jobs, m)
  {
    hide PolicyOf;
    PolicyCoversEveryJob(entries, jobs);
    assert Covers(PolicyOf(entries, jobs).value, entries, snapshot);
    if snapshot.candidate.Some? {
      assert Withholds(entries, snapshot, m.candidate.value) || Holds(entries, snapshot, m.candidate.value);
    }
  }

  lemma {:induction false} CompleteNeverAddsUnpublished(entries: Entries, jobs: seq<Manifest>, assets: seq<Remote>,
                                                        snapshot: Manifest, m: Manifest)
    requires RowsNamed(entries) && PolicyOf(entries, jobs).Some?
    requires snapshot in jobs && Sealed(snapshot) && Earlier(snapshot, m) && m.candidate.Some?
             && m.candidate.value !in entries
    requires forall i | 0 <= i < |assets| && assets[i].id == m.candidate.value :: Uploaded(m, assets[i])
    ensures m.candidate.value !in Complete(PolicyOf(entries, jobs).value, entries, assets)
  {
    hide PolicyOf, Complete, Withheld, AwaitedLike, Uploaded;
    SealedHoldsBack(entries, jobs, snapshot, m);
    assert !Held(entries, jobs, m.candidate.value);
    if m.candidate.value in Listed(assets) {
      CompleteAddsUnpublishedIff(entries, jobs, assets, m);
    } else {
      CompleteIsExactly(entries, jobs, assets, m.candidate.value);
    }
  }

  // A published candidate that the server lists stays if and only if no job of
  // the snapshot holds it for a candidate that is not published; one that the
  // server does not list stays if and only if a job shows it.
  lemma {:induction false} CompleteKeepsPublishedIff(entries: Entries, jobs: seq<Manifest>, assets: seq<Remote>,
                                                     m: Manifest)
    requires RowsNamed(entries) && PolicyOf(entries, jobs).Some? && Consistent(PolicyOf(entries, jobs).value)
    requires PublishedIn(m, entries)
    ensures m.candidate.value in Complete(PolicyOf(entries, jobs).value, entries, assets) <==>
            if m.candidate.value in Listed(assets) then !Withheld(entries, jobs, m.candidate.value)
            else Held(entries, jobs, m.candidate.value)
  {
    hide PolicyOf, Complete, Withheld, Held, Awaited;
    CompleteIsExactly(entries, jobs, assets, m.candidate.value);
    PolicyIsExact(entries, jobs, m.candidate.value, SomeAsset(m.candidate.value));
    assert m.candidate.value !in PolicyOf(entries, jobs).value.preserved.Keys * PolicyOf(entries, jobs).value.excluded;
  }

  // ------------------------------------------------ after an incremental one

  lemma {:induction false} ChangedRows(p: Policy, assets: seq<Remote>, id: Uuid)
    ensures id in Changed(p, assets) <==> exists i :: 0 <= i < |assets| && assets[i].id == id && !Skipped(p, assets[i])
    ensures id in Changed(p, assets) ==>
              exists i :: 0 <= i < |assets| && assets[i].id == id && !Skipped(p, assets[i])
                && Changed(p, assets)[id] == assets[i]
  {
    hide Skipped;
    if assets != [] {
      var n := |assets| - 1;
      ChangedRows(p, assets[..n], id);
      assert assets == assets[..n] + [assets[n]];
    }
  }

  // A change of an asset that an incremental refresh takes over.
  predicate LetPast(atPolicy: Entries, jobs: seq<Manifest>, asset: Remote) {
    !Held(atPolicy, jobs, asset.id) && !Withheld(atPolicy, jobs, asset.id) && !Awaited(jobs, asset)
  }

  lemma {:induction false} SkippedIffNotLetPast(atPolicy: Entries, jobs: seq<Manifest>, asset: Remote)
    requires RowsNamed(atPolicy) && PolicyOf(atPolicy, jobs).Some?
    ensures Skipped(PolicyOf(atPolicy, jobs).value, asset) <==> !LetPast(atPolicy, jobs, asset)
  {
    hide PolicyOf, Held, Withheld, Awaited, Suppressed;
    PolicyIsExact(atPolicy, jobs, asset.id, asset);
  }

  // What an incremental refresh leaves: every row there is, and every change that
  // is let past. Its policy was made before it took the lock, so that the rows
  // may have changed since.
  lemma {:induction false} IncrementalIsExactly(atPolicy: Entries, now: Entries, jobs: seq<Manifest>,
                                                assets: seq<Remote>, id: Uuid)
    requires RowsNamed(atPolicy) && PolicyOf(atPolicy, jobs).Some?
    ensures var after := AfterIncremental(now, Changed(PolicyOf(atPolicy, jobs).value, assets));
            && (id in after <==>
                  || id in now
                  || exists i :: 0 <= i < |assets| && assets[i].id == id && LetPast(atPolicy, jobs, assets[i]))
            && (id in after && !KeepsRow(now, after, id) ==>
                  exists i :: 0 <= i < |assets| && LetPast(atPolicy, jobs, assets[i]) && after[id] == assets[i]
                    && assets[i].id == id)
  {
    hide PolicyOf, LetPast, Changed, Skipped;
    ChangedRows(PolicyOf(atPolicy, jobs).value, assets, id);
    forall i | 0 <= i < |assets|
      ensures Skipped(PolicyOf(atPolicy, jobs).value, assets[i]) <==> !LetPast(atPolicy, jobs, assets[i])
    {
      SkippedIffNotLetPast(atPolicy, jobs, assets[i]);
    }
  }

  // A row is safe from every incremental refresh if and only if a job of the
  // snapshot holds it, or has it for a candidate that is not published.
  lemma {:induction false} IncrementalKeepsRowIff(atPolicy: Entries, now: Entries, jobs: seq<Manifest>, id: Uuid)
    requires RowsNamed(atPolicy) && PolicyOf(atPolicy, jobs).Some? && id in now
    ensures Held(atPolicy, jobs, id) || Withheld(atPolicy, jobs, id) <==>
            forall assets :: KeepsRow(now, AfterIncremental(now, Changed(PolicyOf(atPolicy, jobs).value, assets)), id)
  {
    hide PolicyOf, Changed, Held, Withheld, Awaited;
    if Held(atPolicy, jobs, id) || Withheld(atPolicy, jobs, id) {
      forall assets ensures KeepsRow(now, AfterIncremental(now, Changed(PolicyOf(atPolicy, jobs).value, assets)), id) {
        IncrementalIsExactly(atPolicy, now, jobs, assets, id);
      }
    } else {
      var other := SomeAsset(id).(updatedAt := now[id].asset.updatedAt + "+");
      NobodyAwaits(jobs, other);
      OneChange(atPolicy, jobs, other);
      assert !KeepsRow(now, AfterIncremental(now, Changed(PolicyOf(atPolicy, jobs).value, [other])), id);
    }
  }

  lemma {:induction false} NobodyAwaits(jobs: seq<Manifest>, asset: Remote)
    requires asset.size == None
    ensures !Awaited(jobs, asset)
  {
  }

  lemma {:induction false} OneChange(atPolicy: Entries, jobs: seq<Manifest>, asset: Remote)
    requires RowsNamed(atPolicy) && PolicyOf(atPolicy, jobs).Some? && LetPast(atPolicy, jobs, asset)
    ensures asset.id in Changed(PolicyOf(atPolicy, jobs).value, [asset])
    ensures Changed(PolicyOf(atPolicy, jobs).value, [asset])[asset.id] == asset
  {
    hide PolicyOf, LetPast, Skipped;
    SkippedIffNotLetPast(atPolicy, jobs, asset);
    assert [asset][..0] == [];
  }

  // So the source of every sealed job of the snapshot is; and nothing is dropped.
  lemma {:induction false} IncrementalKeepsSource(atPolicy: Entries, now: Entries, jobs: seq<Manifest>,
                                                  assets: seq<Remote>, snapshot: Manifest)
    requires RowsNamed(atPolicy) && PolicyOf(atPolicy, jobs).Some? && snapshot in jobs && Sealed(snapshot)
    ensures snapshot.source.Some?
    ensures var s := snapshot.source.value.asset;
            var after := AfterIncremental(now, Changed(PolicyOf(atPolicy, jobs).value, assets));
            (s in after <==> s in now) && (s in now ==> after[s] == now[s].asset) && now.Keys <= after.Keys
  {
    hide PolicyOf, Changed;
    PolicyCoversEveryJob(atPolicy, jobs);
    assert Covers(PolicyOf(atPolicy, jobs).value, atPolicy, snapshot);
    assert Holds(atPolicy, snapshot, snapshot.source.value.asset);
    IncrementalIsExactly(atPolicy, now, jobs, assets, snapshot.source.value.asset);
  }

  // The same condition as for a complete refresh, and that the candidate was not
  // shown when the policy was made.
  lemma {:induction false} IncrementalAddsUnpublishedIff(atPolicy: Entries, now: Entries, jobs: seq<Manifest>,
                                                         assets: seq<Remote>, m: Manifest)
    requires RowsNamed(atPolicy) && PolicyOf(atPolicy, jobs).Some?
    requires ListedAsUploaded(m, assets) && m.candidate.value !in now
    ensures m.candidate.value in AfterIncremental(now, Changed(PolicyOf(atPolicy, jobs).value, assets)) <==>
            && !Withheld(atPolicy, jobs, m.candidate.value) && !AwaitedLike(jobs, m)
            && !Held(atPolicy, jobs, m.candidate.value)
  {
    hide PolicyOf, Changed, AfterIncremental, Withheld, Held, Awaited, AwaitedLike, Uploaded;
    IncrementalIsExactly(atPolicy, now, jobs, assets, m.candidate.value);
    forall i | 0 <= i < |assets| && assets[i].id == m.candidate.value
      ensures Awaited(jobs, assets[i]) <==> AwaitedLike(jobs, m)
    {
      UploadedIsAwaited(jobs, m, assets[i]);
    }
  }

  lemma {:induction false} IncrementalNeverAddsUnpublished(atPolicy: Entries, now: Entries, jobs: seq<Manifest>,
                                                           assets: seq<Remote>, snapshot: Manifest, m: Manifest)
    requires RowsNamed(atPolicy) && PolicyOf(atPolicy, jobs).Some?
    requires snapshot in jobs && Sealed(snapshot) && Earlier(snapshot, m) && m.candidate.Some?
             && m.candidate.value !in now
    requires forall i | 0 <= i < |assets| && assets[i].id == m.candidate.value :: Uploaded(m, assets[i])
    ensures m.candidate.value !in AfterIncremental(now, Changed(PolicyOf(atPolicy, jobs).value, assets))
  {
    hide PolicyOf, Changed, AfterIncremental, AwaitedLike, Uploaded, Awaited;
    IncrementalIsExactly(atPolicy, now, jobs, assets, m.candidate.value);
    SealedHoldsBack(atPolicy, jobs, snapshot, m);
    forall i | 0 <= i < |assets| && assets[i].id == m.candidate.value ensures !LetPast(atPolicy, jobs, assets[i]) {
      UploadedIsAwaited(jobs, m, assets[i]);
    }
  }

  lemma {:induction false} ExcludedIsNeverStaged(p: Policy, entries: Entries, assets: seq<Remote>, id: Uuid)
    requires RowsNamed(entries) && Consistent(p) && id in p.excluded
    ensures id !in Complete(p, entries, assets)
  {
    hide Staged;
    StagedRows(p, entries, assets);
    assert id !in p.preserved.Keys * p.excluded;
  }

  // Once the job of a snapshot has a candidate, published or not, a complete
  // refresh keeps it if and only if the catalog shows it: a source that the user
  // restores while its job is there takes the published candidate out again.
  lemma {:induction false} RecordedStaysIffShown(entries: Entries, jobs: seq<Manifest>, assets: seq<Remote>,
                                                 m: Manifest)
    requires RowsNamed(entries) && PolicyOf(entries, jobs).Some? && Consistent(PolicyOf(entries, jobs).value)
    requires m in jobs && Sealed(m) && m.candidate.Some?
    ensures m.source.Some? && m.source.value.asset in entries
    ensures m.candidate.value in Complete(PolicyOf(entries, jobs).value, entries, assets) <==> Shows(entries, m)
  {
    hide PolicyOf, Staged, Shows;
    PolicyCoversEveryJob(entries, jobs);
    var p := PolicyOf(entries, jobs).value;
    assert Covers(p, entries, m);
    if m.candidate.value in p.excluded { ExcludedIsNeverStaged(p, entries, assets, m.candidate.value); }
  }

  lemma {:induction false} PublishedStaysIffSourceInTrash(entries: Entries, jobs: seq<Manifest>, assets: seq<Remote>,
                                                          m: Manifest)
    requires RowsNamed(entries) && PolicyOf(entries, jobs).Some? && Consistent(PolicyOf(entries, jobs).value)
    requires m in jobs && Sealed(m) && m.source.Some? && m.candidate.Some?
    requires m.candidate.value in entries && entries[m.candidate.value].name == m.source.value.name
    ensures m.source.value.asset in entries
    ensures m.candidate.value in Complete(PolicyOf(entries, jobs).value, entries, assets)
            <==> || entries[m.source.value.asset].asset.trashed
                 || (m.state == Blocked && (m.error == Some(CandidateMismatch) || m.error == Some(UploadRejected)))
  {
    hide PolicyOf, Complete;
    RecordedStaysIffShown(entries, jobs, assets, m);
  }

  // ------------------------------------------------ one payload, two targets

  const CHECKSUM: Checksum := Checksum("x", Some(Sha1([])))

  function Photo(id: Uuid, trashed: bool): Remote {
    Remote(id, 0, None, Some(0), CHECKSUM, "", 0, None, false, "timeline", trashed, false, None)
  }

  // A replacement of the source by an empty payload.
  function Job(source: Uuid, name: string, state: State, attempts: nat, candidate: Option<Uuid>): Manifest {
    Manifest(0, name, state, 1, Some(0), Some(Sha1([])), Some(0), Some(0), Some(0), attempts, None, None, candidate,
             state == State.Replacing, Replacement,
             Some(Source(source, source, name, 0, None, CHECKSUM, "", 0, false, "timeline", [])))
  }

  // Two files are replaced by the same payload. The reply to the first upload is
  // lost, so that the second upload is told of the first one's asset and records
  // it. A refresh takes its list of the jobs; then the first job, tried again,
  // records the asset too and publishes it. The refresh takes it away.
  lemma {:induction false} PublishedCandidateIsDropped()
    returns (entries: Entries, snapshot: Manifest, other: Manifest, m: Manifest, assets: seq<Remote>)
    ensures RowsNamed(entries) && PolicyOf(entries, [snapshot, other]).Some?
    ensures Consistent(PolicyOf(entries, [snapshot, other]).value)
    ensures Sealed(snapshot) && snapshot.state == Attempting && snapshot.candidate == None && Earlier(snapshot, m)
    ensures Sealed(other) && other.state == Attempting && other.candidate == m.candidate
    ensures other.sha1 == m.sha1 && other.source.Some? && m.source.Some?
            && other.source.value.asset != m.source.value.asset
    ensures PublishedIn(m, entries) && (exists i :: 0 <= i < |assets| && Uploaded(m, assets[i]))
    ensures m.candidate.value !in Complete(PolicyOf(entries, [snapshot, other]).value, entries, assets)
  {
    snapshot, other := Job(1, "a", Attempting, 1, None), Job(2, "b", Attempting, 1, Some(3));
    m := Job(1, "a", State.Replacing, 1, Some(3));
    entries := map[1 := Entry(1, "a__1", Photo(1, true), []), 2 := Entry(2, "b", Photo(2, false), []),
                   3 := Entry(3, "a", Photo(3, false), [])];
    assets := [Photo(3, false)];
    assert assets[0] == Photo(3, false);
    var p1 := NO_POLICY.(preserved := map[1 := Photo(1, true)], signatures := {Signature(0, 0, Sha1([]))});
    assert NO_POLICY.preserved[1 := Photo(1, true)] == p1.preserved && {} + p1.signatures == p1.signatures;
    assert WithJob(NO_POLICY, entries, snapshot) == Some(p1);
    TwoJobs(entries, snapshot, other);
    assert WithJob(p1, entries, other).Some?;
    var p := PolicyOf(entries, [snapshot, other]).value;
    assert p.preserved.Keys == {1, 2} && p.excluded == {3};
    ExcludedIsNeverStaged(p, entries, assets, 3);
  }

  // A draft is renamed over a file, and a refresh takes its list of the jobs. The
  // draft is sealed and uploaded, and the reply is lost. Then the refresh adds
  // the candidate, though it is not published, and it need not keep the source.
  lemma {:induction false} DraftCandidateIsAdded()
    returns (entries: Entries, snapshot: Manifest, m: Manifest, assets: seq<Remote>)
    ensures RowsNamed(entries) && PolicyOf(entries, [snapshot]).Some? && Consistent(PolicyOf(entries, [snapshot]).value)
    ensures snapshot.state == Writing && Earlier(snapshot, m) && m.state == Attempting
    ensures m.source.Some? && m.source.value.asset in entries && !entries[m.source.value.asset].asset.trashed
    ensures ListedAsUploaded(m, assets) && m.candidate.value !in entries
    ensures var after := Complete(PolicyOf(entries, [snapshot]).value, entries, assets);
            m.candidate.value in after && m.source.value.asset !in after
  {
    snapshot := Job(1, "a", Writing, 0, None).(size := None, sha1 := None, created := None, modified := None,
                                               sealedAt := None);
    m := Job(1, "a", Attempting, 1, Some(3));
    entries := map[1 := Entry(1, "a", Photo(1, false), [])];
    assets := [Photo(3, false)];
    assert [snapshot][..0] == [] && PolicyOf(entries, []) == Some(NO_POLICY);
    assert PolicyOf(entries, [snapshot]) == Some(NO_POLICY);
    assert assets[0].id == 3;
    CompleteIsExactly(entries, [snapshot], assets, 1);
    CompleteAddsUnpublishedIff(entries, [snapshot], assets, m);
  }

  lemma {:induction false} TwoJobs(entries: Entries, a: Manifest, b: Manifest)
    requires WithJob(NO_POLICY, entries, a).Some?
    ensures PolicyOf(entries, [a, b]) == WithJob(WithJob(NO_POLICY, entries, a).value, entries, b)
  {
    hide WithJob;
    assert [a, b][..1] == [a] && [a][..0] == [];
    assert PolicyOf(entries, []) == Some(NO_POLICY);
    assert PolicyOf(entries, [a]) == WithJob(NO_POLICY, entries, a);
  }
}
