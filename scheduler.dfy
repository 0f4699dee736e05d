/** The scheduler (worker/handlers/scheduler.py): every pass asks the job
    handler to create a job for each key listed under `models-`.

    One pass of `Scheduler.run` is the method `Pass`; the sleep between
    passes is not modelled. */
module Scheduling {
  import opened Results
  import opened Seqs
  import Db
  import opened JobsHandler

  /** The ids not yet drawn from `uuids` are not pooled. */
  ghost predicate Undrawn(p: Pool, uuids: nat -> string, n: nat)
  {
    forall m: nat :: n <= m ==> uuids(m) !in p.owner
  }

  /** `create(w)` for each `w` of `ws` in order, drawing new ids from
      `uuids` from index `n`: the final pool and the next index. */
  function CreateAll(p: Pool, ws: seq<string>, uuids: nat -> string, n: nat): (Pool, nat)
    decreases |ws|
  {
    if ws == [] then (p, n)
    else
      var m := Creation(p, ws[0], uuids(n));
      CreateAll(m.pool, ws[1..], uuids, if m.added then n + 1 else n)
  }

  /** One `create` keeps the invariant and the undrawn ids undrawn, keeps
      every pooled job, and pools a job for `w` if there was none. */
  lemma CreationStep(p: Pool, maxJobs: int, w: string, uuids: nat -> string, n: nat)
    requires Inv(p, maxJobs) && Unique(uuids) && Undrawn(p, uuids, n)
    ensures var m := Creation(p, w, uuids(n));
      && Inv(m.pool, maxJobs) && Undrawn(m.pool, uuids, if m.added then n + 1 else n)
      && m.pool.running == p.running
      && (forall k :: k in p.owner ==> k in m.pool.owner && m.pool.owner[k] == p.owner[k])
      && (forall k :: k in m.pool.owner && k !in p.owner ==> m.pool.owner[k] == w)
      && m.id in m.pool.owner && m.pool.owner[m.id] == w
  {
    var m := Creation(p, w, uuids(n));
    CreationPreserves(p, maxJobs, w, uuids(n));
    forall j: nat | (if m.added then n + 1 else n) <= j
      ensures uuids(j) !in m.pool.owner
    {
      if m.added {
        assert uuids(j) != uuids(n);
      }
    }
  }

  /** A pass keeps the job handler's invariant, so after it no entity has two
      pooled jobs; it never removes or retargets a pooled job, never touches
      the workers, and pools a job for every listed key and for nothing else. */
  lemma {:induction false} CreateAllPreserves(p: Pool, maxJobs: int, ws: seq<string>, uuids: nat -> string, n: nat)
    requires Inv(p, maxJobs) && Unique(uuids) && Undrawn(p, uuids, n)
    ensures var r := CreateAll(p, ws, uuids, n);
      && Inv(r.0, maxJobs) && Undrawn(r.0, uuids, r.1) && n <= r.1
      && r.0.running == p.running
      && (forall k :: k in p.owner ==> k in r.0.owner && r.0.owner[k] == p.owner[k])
      && (forall k :: k in r.0.owner && k !in p.owner ==> r.0.owner[k] in ws)
      && (forall w :: w in ws ==> w in r.0.owner.Values)
    decreases |ws|
  {
    if ws != [] {
      var m := Creation(p, ws[0], uuids(n));
      var n' := if m.added then n + 1 else n;
      CreationStep(p, maxJobs, ws[0], uuids, n);
      CreateAllPreserves(m.pool, maxJobs, ws[1..], uuids, n');
      var r := CreateAll(m.pool, ws[1..], uuids, n');
      assert forall w :: w in ws ==> w == ws[0] || w in ws[1..];
      assert m.id in r.0.owner && r.0.owner[m.id] == ws[0];
    }
  }

  /** A pass over keys that all have pooled jobs changes nothing and draws
      no id. */
  lemma {:induction false} CreateAllKnown(p: Pool, maxJobs: int, ws: seq<string>, uuids: nat -> string, n: nat)
    requires Inv(p, maxJobs)
    requires forall w :: w in ws ==> w in p.owner.Values
    ensures CreateAll(p, ws, uuids, n) == (p, n)
    decreases |ws|
  {
    if ws != [] {
      assert ws[0] in p.owner.Values;
      var k :| k in p.owner && p.owner[k] == ws[0];
      CreationFindsExisting(p, maxJobs, ws[0], uuids(n), k);
      CreateAllKnown(p, maxJobs, ws[1..], uuids, n);
    }
  }

  /** Two passes over the same keys with no reaping in between: the second
      creates nothing. */
  lemma CreateAllIdempotent(p: Pool, maxJobs: int, ws: seq<string>, uuids: nat -> string, n: nat)
    requires Inv(p, maxJobs) && Unique(uuids) && Undrawn(p, uuids, n)
    ensures var r := CreateAll(p, ws, uuids, n); CreateAll(r.0, ws, uuids, r.1) == r
  {
    CreateAllPreserves(p, maxJobs, ws, uuids, n);
    var r := CreateAll(p, ws, uuids, n);
    CreateAllKnown(r.0, maxJobs, ws, uuids, r.1);
  }

  /** `Scheduler`: the job handler and the store it was given. */
  class Scheduler {
    const jobs: Jobs
    const store: Db.Store

    constructor (jobs: Jobs, store: Db.Store)
      ensures this.jobs == jobs && this.store == store
    {
      this.jobs := jobs;
      this.store := store;
    }

    /** One pass of `Scheduler.run`: `create` for each key listed under
        `models-`, in listing order. `keys` is that listing. The store is
        only read, and nothing but the job handler changes. */
    method Pass(now: int) returns (keys: seq<string>)
      requires jobs.Valid()
      modifies jobs
      ensures jobs.Valid()
      ensures Db.Increasing(keys) && forall k :: k in keys <==> Db.ModelsNs + k in store.kvs
      ensures (jobs.Model(), jobs.issued) == CreateAll(old(jobs.Model()), keys, jobs.uuids, old(jobs.issued))
      ensures jobs.workerPool == old(jobs.workerPool)
      ensures forall k :: k in old(jobs.jobPool) ==> k in jobs.jobPool && jobs.jobPool[k] == old(jobs.jobPool[k])
    {
      keys := store.ListKeys(Db.ModelsNs);
      ghost var outcome := CreateAll(jobs.Model(), keys, jobs.uuids, jobs.issued);
      var i := 0;
      while i < |keys|
        invariant 0 <= i <= |keys| && jobs.Valid()
        invariant outcome == CreateAll(jobs.Model(), keys[i..], jobs.uuids, jobs.issued)
        invariant jobs.workerPool == old(jobs.workerPool)
        invariant forall k :: k in old(jobs.jobPool) ==> k in jobs.jobPool && jobs.jobPool[k] == old(jobs.jobPool[k])
      {
        assert keys[i..][1..] == keys[i + 1..];
        var _ := jobs.Create(keys[i], now);
        i := i + 1;
      }
    }
  }
}
