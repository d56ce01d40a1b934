// A complete refresh that comes in between two runs of a replacement: what it
// must know of the job to leave it on its way.
module SagaRefresh {
  import opened Options
  import opened Manifests
  import opened Saga
  import opened SagaConvergence
  import opened Refresh

  // The rows that a complete refresh leaves: their assets are what it staged, and
  // the ones that were there keep everything else; see Catalog.
  predicate RefreshedTo(entries: Entries, next: int, jobs: seq<Manifest>, assets: seq<Remote>, after: Entries,
                        nextAfter: int)
  {
    && CatalogMoves(entries, next, after, nextAfter) && PolicyOf(entries, jobs).Some?
    && var rows := Complete(PolicyOf(entries, jobs).value, entries, assets);
       && after.Keys == rows.Keys && (forall id | id in after :: after[id].asset == rows[id])
       && forall id | id in after && id in entries :: after[id].albums == entries[id].albums
  }

  lemma KeptRow(entries: Entries, next: int, jobs: seq<Manifest>, assets: seq<Remote>, after: Entries, nextAfter: int,
                id: Uuid)
    requires RefreshedTo(entries, next, jobs, assets, after, nextAfter)
    requires KeepsRow(entries, Complete(PolicyOf(entries, jobs).value, entries, assets), id)
    ensures id in after && after[id] == entries[id]
  {
    hide Complete, PolicyOf, CatalogOk;
  }

  // The job with the candidate that it has, or is going to be told of.
  function WithStored(m: Manifest, srv: Server): Manifest {
    if srv.stored.Some? then m.(candidate := Some(srv.stored.value.asset.id)) else m
  }

  // The server lists what was stored as it was stored.
  predicate ListsTruly(m: Manifest, srv: Server, assets: seq<Remote>) {
    srv.stored.Some? ==>
      forall i | 0 <= i < |assets| && assets[i].id == srv.stored.value.asset.id ::
        Uploaded(WithStored(m, srv), assets[i])
  }

  // A published candidate that is still there has its local row.
  lemma PublishedRow(entries: Entries, jobs: seq<Manifest>, assets: seq<Remote>, snapshot: Manifest, m: Manifest)
    requires RowsNamed(entries) && PolicyOf(entries, jobs).Some? && snapshot in jobs && Sealed(snapshot)
    requires Earlier(snapshot, m) && m.candidate.Some? && m.candidate.value in entries
    requires forall i | 0 <= i < |assets| && assets[i].id == m.candidate.value :: Uploaded(m, assets[i])
    requires m.candidate.value in Complete(PolicyOf(entries, jobs).value, entries, assets)
    ensures KeepsRow(entries, Complete(PolicyOf(entries, jobs).value, entries, assets), m.candidate.value)
  {
    hide PolicyOf, Complete, Held, Withheld, Awaited, AwaitedLike, Uploaded;
    var c := m.candidate.value;
    CompleteRow(entries, jobs, assets, c);
    if !Held(entries, jobs, c) {
      SealedHoldsBack(entries, jobs, snapshot, m);
      CompleteIsExactly(entries, jobs, assets, c);
      forall i | 0 <= i < |assets| && assets[i].id == c ensures Awaited(jobs, assets[i]) {
        UploadedIsAwaited(jobs, m, assets[i]);
      }
    }
  }

  // A refresh whose list of jobs has this one, sealed, leaves it on its way, and
  // adds nothing that could stand in the way of its publication; if the job has
  // been published, on condition that the candidate is still there.
  lemma RefreshKeepsGood(w: World, me: Uuid, srv: Server, origin: Remote, jobs: seq<Manifest>, assets: seq<Remote>,
                         snapshot: Manifest, after: Entries, next: int)
    requires Good(w, me, srv, origin) && w.job.Some? && !Locked(w) && !w.pc.Blocking?
             && CatalogOk(w.entries, w.nextInode)
    requires RefreshedTo(w.entries, w.nextInode, jobs, assets, after, next)
    requires snapshot in jobs && Sealed(snapshot) && Earlier(snapshot, w.job.value)
             && ListsTruly(w.job.value, srv, assets)
    requires w.published != [] && w.job.value.candidate.Some? ==> w.job.value.candidate.value in after
    ensures Good(w.(entries := after, nextInode := next), me, srv, origin)
    ensures w.published == [] && srv.stored.Some? && srv.stored.value.asset.id !in w.entries ==>
            srv.stored.value.asset.id !in after
  {
    hide Good, BaseOk, RunOk, Shaped, Inv, PolicyOf, Complete, Locked, Uploaded, KeepsRow, CatalogOk;
    var m, v := w.job.value, w.(entries := after, nextInode := next);
    GoodParts(w, me, srv, origin);
    SourceRow(w, me, srv, origin);
    RowsAreNamed(w.entries, w.nextInode);
    SourceStays(w, me, srv, origin, jobs, assets, snapshot, after, next);
    if w.published == [] {
      NothingAdded(w, srv, jobs, assets, snapshot, after, next);
    } else {
      CandidateStays(w, me, srv, origin, jobs, assets, snapshot, after, next);
    }
    ChangedBase(w, v, me, srv, origin);
    ChangedRun(w, v, srv, origin);
    Assemble(v, me, srv, origin);
  }

  lemma RowsAreNamed(entries: Entries, next: int)
    requires CatalogOk(entries, next)
    ensures RowsNamed(entries)
  {
  }

  lemma SourceStays(w: World, me: Uuid, srv: Server, origin: Remote, jobs: seq<Manifest>, assets: seq<Remote>,
                    snapshot: Manifest, after: Entries, next: int)
    requires RowsNamed(w.entries) && RefreshedTo(w.entries, w.nextInode, jobs, assets, after, next)
    requires w.job.Some? && w.job.value.source.Some? && w.job.value.source.value.asset == origin.id
    requires snapshot in jobs && Sealed(snapshot) && Earlier(snapshot, w.job.value)
    ensures origin.id in w.entries && origin.id in after && after[origin.id] == w.entries[origin.id]
  {
    hide PolicyOf, Complete, CatalogMoves;
    CompleteKeepsSource(w.entries, jobs, assets, snapshot);
    KeptRow(w.entries, w.nextInode, jobs, assets, after, next, origin.id);
  }

  lemma NothingAdded(w: World, srv: Server, jobs: seq<Manifest>, assets: seq<Remote>, snapshot: Manifest,
                     after: Entries, next: int)
    requires RowsNamed(w.entries) && RefreshedTo(w.entries, w.nextInode, jobs, assets, after, next)
    requires w.job.Some? && ListsTruly(w.job.value, srv, assets)
    requires w.job.value.candidate.Some? ==>
             srv.stored.Some? && w.job.value.candidate == Some(srv.stored.value.asset.id)
    requires snapshot in jobs && Sealed(snapshot) && Earlier(snapshot, w.job.value)
    ensures srv.stored.Some? && srv.stored.value.asset.id !in w.entries ==> srv.stored.value.asset.id !in after
  {
    hide PolicyOf, Complete, CatalogMoves, Uploaded;
    if srv.stored.Some? && srv.stored.value.asset.id !in w.entries {
      CompleteNeverAddsUnpublished(w.entries, jobs, assets, snapshot, WithStored(w.job.value, srv));
    }
  }

  lemma CandidateStays(w: World, me: Uuid, srv: Server, origin: Remote, jobs: seq<Manifest>, assets: seq<Remote>,
                       snapshot: Manifest, after: Entries, next: int)
    requires BaseOk(w, me, srv, origin) && w.published != [] && RowsNamed(w.entries)
    requires RefreshedTo(w.entries, w.nextInode, jobs, assets, after, next) && ListsTruly(w.job.value, srv, assets)
    requires snapshot in jobs && Sealed(snapshot) && Earlier(snapshot, w.job.value)
    requires w.job.value.candidate.Some? ==> w.job.value.candidate.value in after
    ensures w.job.value.candidate.Some? && w.job.value.candidate.value in w.entries
    ensures w.job.value.candidate.value in after
            && after[w.job.value.candidate.value] == w.entries[w.job.value.candidate.value]
  {
    hide PolicyOf, Complete, CatalogMoves, Uploaded, Inv, SourceMatches, UploadMatches, CandidateMatches;
    var m := w.job.value;
    assert WithStored(m, srv) == m;
    PublishedRow(w.entries, jobs, assets, snapshot, m);
    KeptRow(w.entries, w.nextInode, jobs, assets, after, next, m.candidate.value);
  }

  // Only the rows have changed, and not the job's.
  lemma ChangedBase(w: World, v: World, me: Uuid, srv: Server, origin: Remote)
    requires BaseOk(w, me, srv, origin) && v == w.(entries := v.entries, nextInode := v.nextInode)
             && w.nextInode <= v.nextInode
    requires origin.id in w.entries && origin.id in v.entries && v.entries[origin.id] == w.entries[origin.id]
    requires w.published != [] && w.job.value.candidate.Some? && w.job.value.candidate.value in w.entries ==>
               var c := w.job.value.candidate.value; c in v.entries && v.entries[c] == w.entries[c]
    ensures BaseOk(v, me, srv, origin)
  {
    hide Inv, ServerOk, SourceMatches, UploadMatches, CandidateMatches, SameManagedChecksum;
    SourceRow(w, me, srv, origin);
  }

  lemma ChangedRun(w: World, v: World, srv: Server, origin: Remote)
    requires w.job.Some? && RunOk(w, srv, origin) && Shaped(w) && !Locked(w) && !w.pc.Blocking?
    requires w.job.value.operation == Replacement && (w.pc != Idle ==> w.run.job == w.job.value)
    requires v == w.(entries := v.entries, nextInode := v.nextInode)
    ensures RunOk(v, srv, origin) && Shaped(v)
  {
    hide ListsOk, Placeable;
  }
}
