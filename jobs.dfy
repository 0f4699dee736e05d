/** The job orchestrator (worker/handlers/jobs.py).

    `Jobs` keeps a pool of jobs (a dict, so its keys keep insertion order),
    a FIFO queue of job ids waiting for a worker, and a pool of workers
    bounded by `max_jobs`. `create` deduplicates by entity id; one pass of
    `Jobs.run` dispatches at most one queued job and reaps the workers that
    are done; `Worker.run` computes one entity's result and always stores
    the job record.

    Threads are not modelled: one pass of `Jobs.run` is the method `Step`,
    and a worker's thread body is the method `Worker.Run`, which the
    environment calls. `uuid.uuid4()` is a stream `uuids` of ids that never
    repeats; clocks are the integer `now`; the Weibull fit is the function
    parameter `fit`. */
module JobsHandler {
  import opened Results
  import opened Models
  import opened Seqs
  import Util
  import Db
  import DataCache

  // ------------------------------------------------ the pool, abstractly

  /** The bookkeeping of `Jobs`: the pool's keys in insertion order, the
      entity each pooled job targets, the queue, and the keys of the worker
      pool. */
  datatype Pool = Pool(order: seq<string>, owner: map<string, string>, queue: seq<string>, running: set<string>)

  /** What `Jobs` keeps true between steps: the pool's key list is its keys
      once each; at most one pooled job per entity; every queued id and
      every worker's id is pooled; a queued job has no worker and is queued
      once; there are at most `max_jobs` workers. */
  ghost predicate Inv(p: Pool, maxJobs: int)
  {
    && (forall k :: k in p.order <==> k in p.owner)
    && Distinct(p.order)
    && (forall a, b :: a in p.owner && b in p.owner && p.owner[a] == p.owner[b] ==> a == b)
    && (forall k :: k in p.queue ==> k in p.owner && k !in p.running)
    && Distinct(p.queue)
    && p.running <= p.owner.Keys
    && (|p.running| <= maxJobs || p.running == {})
  }

  /** The first pooled job, in pool order, that targets entity `w`. */
  function FirstOwned(order: seq<string>, owner: map<string, string>, w: string): (r: Option<string>)
    ensures r.Some? ==> r.value in order && r.value in owner && owner[r.value] == w
    ensures r.None? ==> forall k :: k in order && k in owner ==> owner[k] != w
  {
    if order == [] then None
    else if order[0] in owner && owner[order[0]] == w then Some(order[0])
    else FirstOwned(order[1..], owner, w)
  }

  /** The outcome of `create`: the new pool, the returned id, and whether a
      job was added. */
  datatype Made = Made(pool: Pool, id: string, added: bool)

  /** `Jobs.create(w)` when `uuid4()` would give `id`. */
  function Creation(p: Pool, w: string, id: string): Made
  {
    match FirstOwned(p.order, p.owner, w)
    case Some(k) => Made(p, k, false)
    case None => Made(Pool(p.order + [id], p.owner[id := w], p.queue + [id], p.running), id, true)
  }

  /** The dispatch half of one `Jobs.run` pass: below `max_jobs` workers, the
      oldest queued job gets a worker; otherwise nothing changes. */
  function Dispatched(p: Pool, maxJobs: int): (q: Pool)
    ensures q.order == p.order && q.owner == p.owner
    ensures q.running != p.running ==> |p.running| < maxJobs
  {
    if |p.running| < maxJobs && p.queue != [] then
      p.(queue := p.queue[1..], running := p.running + {p.queue[0]})
    else p
  }

  /** The reap half of one `Jobs.run` pass: every job whose worker is `done`
      leaves both the worker pool and the job pool. */
  function Reaped(p: Pool, done: set<string>): Pool
  {
    var gone := p.running * done;
    Pool(Without(p.order, gone), p.owner - gone, p.queue, p.running - gone)
  }

  /** `create(w)` for an entity that already has a pooled job returns that
      job's id and changes nothing. */
  lemma CreationFindsExisting(p: Pool, maxJobs: int, w: string, id: string, k: string)
    requires Inv(p, maxJobs) && k in p.owner && p.owner[k] == w
    ensures Creation(p, w, id) == Made(p, k, false)
  {
    assert k in p.order;
  }

  /** Otherwise `create(w)` adds exactly one pending job under the new id,
      at the end of the pool and of the queue. */
  lemma CreationAddsOne(p: Pool, w: string, id: string)
    requires forall k :: k in p.owner ==> p.owner[k] != w
    ensures Creation(p, w, id) == Made(Pool(p.order + [id], p.owner[id := w], p.queue + [id], p.running), id, true)
  {
  }

  lemma CreationPreserves(p: Pool, maxJobs: int, w: string, id: string)
    requires Inv(p, maxJobs) && id !in p.owner
    ensures Inv(Creation(p, w, id).pool, maxJobs)
  {
    if FirstOwned(p.order, p.owner, w).None? {
      var q := Creation(p, w, id).pool;
      AppendDistinct(p.order, id);
      AppendDistinct(p.queue, id);
      assert forall k :: k in p.owner ==> k in p.order && p.owner[k] != w;
      forall a, b | a in q.owner && b in q.owner && a != b
        ensures q.owner[a] != q.owner[b]
      {
      }
    }
  }

  /** Creating the same entity twice returns the first id and the second
      call changes nothing. */
  lemma CreationIdempotent(p: Pool, maxJobs: int, w: string, id1: string, id2: string)
    requires Inv(p, maxJobs) && id1 !in p.owner
    ensures var m := Creation(p, w, id1); Creation(m.pool, w, id2) == Made(m.pool, m.id, false)
  {
    var m := Creation(p, w, id1);
    CreationPreserves(p, maxJobs, w, id1);
    CreationFindsExisting(m.pool, maxJobs, w, id2, m.id);
  }

  /** A worker is added only below `max_jobs`, and it is the oldest queued
      job's; the pool itself does not change. */
  lemma DispatchOnlyBelowLimit(p: Pool, maxJobs: int)
    requires Inv(p, maxJobs)
    ensures var q := Dispatched(p, maxJobs);
      && q.order == p.order && q.owner == p.owner
      && (q.running != p.running <==> |p.running| < maxJobs && p.queue != [])
      && (q.running != p.running ==> q.running == p.running + {p.queue[0]} && q.queue == p.queue[1..])
      && (q.running == p.running ==> q.queue == p.queue)
  {
    if |p.running| < maxJobs && p.queue != [] {
      assert p.queue[0] !in p.running;
    }
  }

  lemma DispatchPreserves(p: Pool, maxJobs: int)
    requires Inv(p, maxJobs)
    ensures Inv(Dispatched(p, maxJobs), maxJobs)
  {
    if |p.running| < maxJobs && p.queue != [] {
      var q := Dispatched(p, maxJobs);
      var x := p.queue[0];
      assert x !in p.running;
      assert |q.running| == |p.running| + 1;
      forall k | k in q.queue
        ensures k in q.owner && k !in q.running
      {
        assert k in p.queue[1..];
        assert k != x by {
          var i :| 0 <= i < |p.queue[1..]| && p.queue[1..][i] == k;
          assert p.queue[i + 1] == k;
        }
      }
    }
  }

  /** Reaping removes a job from both pools exactly when its worker is done;
      every other job, queued id and worker is kept. */
  lemma ReapExactlyDone(p: Pool, maxJobs: int, done: set<string>)
    requires Inv(p, maxJobs)
    ensures var q := Reaped(p, done);
      && (forall k :: k in q.owner <==> k in p.owner && !(k in p.running && k in done))
      && (forall k :: k in q.owner ==> q.owner[k] == p.owner[k])
      && (forall k :: k in q.running <==> k in p.running && k !in done)
      && (forall k :: k in q.order <==> k in q.owner)
      && q.queue == p.queue
  {
  }

  lemma ReapPreserves(p: Pool, maxJobs: int, done: set<string>)
    requires Inv(p, maxJobs)
    ensures Inv(Reaped(p, done), maxJobs)
  {
    var q := Reaped(p, done);
    assert q.running <= p.running;
    if q.running != {} {
      assert |q.running| <= |p.running|;
    }
  }

  // ------------------------------------------------ a worker's outcome

  /** The config keys `Worker.run` reads, in the order it reads them. */
  const TargetErrorCode: string := "target_error_code"
  const TargetCol: string := "target_col"

  /** `weibull.generate_weibull(df_from_csv(files, time_field), column,
      error_code)`: the result text, or the message of the exception it
      raises. */
  type Fit = (seq<string>, string, string, string) -> Result<string, string>

  /** `config[key]` on the entity's config (a dict, so each key occurs once):
      the value of the first entry with that key, or `KeyError`. */
  function ConfigValue(config: seq<Util.Entry>, key: string): (r: Option<string>)
    ensures r.Some? ==> (key, r.value) in config
    ensures r.None? ==> forall e :: e in config ==> e.0 != key
  {
    if config == [] then None
    else if config[0].0 == key then Some(config[0].1)
    else ConfigValue(config[1..], key)
  }

  /** `models.Weibull(json.loads(db.get("weibull-", id)))`: the stored
      entity, `KeyError` when it is missing or empty, and a failure when the
      value is not an entity record. */
  function Readable(found: Result<Doc, Db.KeyError>): (r: Result<Weibull, Failure>)
    ensures r.Ok? <==> found.Ok? && found.value.Entity?
    ensures r.Ok? ==> r.value == found.value.weibull
    ensures found.Err? ==> r == Err(RecordMissing(found.error.key))
    ensures found.Ok? && !found.value.Entity? ==> r == Err(RecordUnreadable)
  {
    match found
    case Err(e) => Err(RecordMissing(e.key))
    case Ok(Entity(w)) => Ok(w)
    case Ok(_) => Err(RecordUnreadable)
  }

  /** The rest of `Worker.run` once the entity is read: the data, then the
      two config values, then the fit, each failing the job with its own
      exception; on success the entity carries the result, the data
      checksum and the completion time. */
  function Finish(w: Weibull, fetched: Result<DataCache.Fill, DataError>, fit: Fit, now: int): (r: Result<Weibull, Failure>)
    ensures r.Ok? <==>
      && fetched.Ok?
      && ConfigValue(w.config, TargetErrorCode).Some?
      && ConfigValue(w.config, TargetCol).Some?
      && fit(fetched.value.files, fetched.value.timeField,
             ConfigValue(w.config, TargetCol).value, ConfigValue(w.config, TargetErrorCode).value).Ok?
    ensures r.Ok? ==>
      && r.value.id == w.id && r.value.serviceId == w.serviceId && r.value.config == w.config
      && r.value.created == Some(now)
      && r.value.dataChecksum == Some(fetched.value.checksum)
      && r.value.result.Some?
    ensures fetched.Err? ==> r == Err(DataUnavailable(fetched.error))
    ensures fetched.Ok? && ConfigValue(w.config, TargetErrorCode).None? ==> r == Err(ConfigMissing(TargetErrorCode))
    ensures fetched.Ok? && ConfigValue(w.config, TargetErrorCode).Some? && ConfigValue(w.config, TargetCol).None? ==>
      r == Err(ConfigMissing(TargetCol))
  {
    match fetched
    case Err(e) => Err(DataUnavailable(e))
    case Ok(fill) =>
      match ConfigValue(w.config, TargetErrorCode)
      case None => Err(ConfigMissing(TargetErrorCode))
      case Some(code) =>
        match ConfigValue(w.config, TargetCol)
        case None => Err(ConfigMissing(TargetCol))
        case Some(col) =>
          match fit(fill.files, fill.timeField, col, code)
          case Err(message) => Err(FitFailed(message))
          case Ok(result) =>
            Ok(w.(result := Some(result), created := Some(now), dataChecksum := Some(fill.checksum)))
  }

  /** The writes `Worker.run` makes: the entity under `weibull-` on success
      only, then the job record under `jobs-` in every case. */
  function Persist(kvs: map<string, Doc>, job: JobRecord, o: Result<Weibull, Failure>): map<string, Doc>
  {
    var written := if o.Ok? then kvs[Db.WeibullNs + o.value.id := Entity(o.value)] else kvs;
    written[Db.JobsNs + job.id := JobEntry(job)]
  }

  /** After a worker's run the job record can be read back under `jobs-`; an
      entity changes only on success and only under its own id; the
      `models-` keys never change. */
  lemma PersistRecordsJob(kvs: map<string, Doc>, job: JobRecord, o: Result<Weibull, Failure>)
    ensures Db.Lookup(Persist(kvs, job, o), Db.JobsNs, job.id) == Ok(JobEntry(job))
    ensures forall k :: Db.Lookup(Persist(kvs, job, o), Db.WeibullNs, k) ==
                        if o.Ok? && k == o.value.id then Ok(Entity(o.value)) else Db.Lookup(kvs, Db.WeibullNs, k)
    ensures Db.Suffixes(Persist(kvs, job, o), Db.ModelsNs) == Db.Suffixes(kvs, Db.ModelsNs)
  {
    Db.CodeNamespacesSeparate();
    var written := if o.Ok? then kvs[Db.WeibullNs + o.value.id := Entity(o.value)] else kvs;
    Db.WriteKeepsSeparateNamespace(written, Db.JobsNs, Db.WeibullNs, job.id, JobEntry(job));
    Db.WriteKeepsSeparateNamespace(written, Db.JobsNs, Db.ModelsNs, job.id, JobEntry(job));
    if o.Ok? {
      Db.WriteKeepsSeparateNamespace(kvs, Db.WeibullNs, Db.ModelsNs, o.value.id, Entity(o.value));
      forall k | k != o.value.id
        ensures Db.WeibullNs + k != Db.WeibullNs + o.value.id
      {
        assert (Db.WeibullNs + k)[|Db.WeibullNs|..] == k;
      }
    }
  }

  // ------------------------------------------------ the objects

  /** `models.Job`: shared between the job pool and the job's worker, which
      updates its status and reason in place. */
  class Job {
    const id: string
    const created: int
    const weibullId: string
    var status: JobStatus
    var reason: Option<Failure>

    /** A new job is pending and has no reason. */
    constructor (id: string, weibullId: string, created: int)
      ensures this.id == id && this.weibullId == weibullId && this.created == created
      ensures status == Pending && reason == None
    {
      this.id := id;
      this.weibullId := weibullId;
      this.created := created;
      status := Pending;
      reason := None;
    }

    /** The job starts running; nothing else about it changes. */
    method Start()
      modifies this
      ensures status == Running && reason == old(reason)
    {
      status := Running;
    }

    /** `dict(job)` */
    function Record(): JobRecord
      reads this
    {
      JobRecord(id, created, status, weibullId, reason)
    }
  }

  /** `Worker`: runs one job against the store and the data cache. */
  class Worker {
    const job: Job
    const store: Db.Store
    const data: DataCache.Data
    var done: bool

    constructor (job: Job, store: Db.Store, data: DataCache.Data)
      ensures this.job == job && this.store == store && this.data == data && !done
    {
      this.job := job;
      this.store := store;
      this.data := data;
      done := false;
    }

    /** What `data.get(sourceId)` would do now. */
    function Fetch(sourceId: string, now: int, remote: DataCache.Remote, sha: seq<byte> -> string): DataCache.Access
      reads data, data.cache.Values
    {
      DataCache.Serve(data.ItemAt(sourceId, now), now, data.maxAge, sourceId, remote, sha)
    }

    /** `Worker.run`: the job runs, then ends `finished` if every step
        succeeded and `failed` with the reason otherwise; the entity is
        stored only on success, the job record always, and only then is the
        worker done. */
    method Run(now: int, remote: DataCache.Remote, sha: seq<byte> -> string, fit: Fit)
      requires data.Valid()
      modifies this, job, store, data, data.cache.Values
      ensures done && data.Valid()
      ensures var rec := Readable(Db.Lookup(old(store.kvs), Db.WeibullNs, job.weibullId));
        var o := if rec.Err? then rec else Finish(rec.value, old(Fetch(rec.value.serviceId, now, remote, sha)).result, fit, now);
        && job.status == (if o.Ok? then Finished else Failed)
        && job.reason == (if o.Ok? then old(job.reason) else Some(o.error))
        && store.kvs == Persist(old(store.kvs), job.Record(), o)
      ensures var rec := Readable(Db.Lookup(old(store.kvs), Db.WeibullNs, job.weibullId));
        rec.Err? ==> data.calls == old(data.calls) && data.cache == old(data.cache) && data.disk == old(data.disk)
      ensures var rec := Readable(Db.Lookup(old(store.kvs), Db.WeibullNs, job.weibullId));
        rec.Ok? ==>
          var a := old(Fetch(rec.value.serviceId, now, remote, sha));
          && data.calls == old(data.calls) + a.calls
          && data.disk == (old(data.disk) + a.written) - a.removed
          && rec.value.serviceId in data.cache && data.cache[rec.value.serviceId].State() == a.item
      ensures var rec := Readable(Db.Lookup(old(store.kvs), Db.WeibullNs, job.weibullId));
        var s := if rec.Ok? then rec.value.serviceId else "";
        && data.order == (if rec.Err? || s in old(data.cache) then old(data.order) else old(data.order) + [s])
        && (forall k :: k in data.cache <==> k in old(data.cache) || (rec.Ok? && k == s))
        && (forall k :: k in old(data.cache) && (rec.Err? || k != s) ==>
              data.cache[k] == old(data.cache[k]) && data.cache[k].State() == old(data.cache[k].State()))
    {
      job.Start();
      var o := Attempt(now, remote, sha, fit);
      Conclude(o);
    }

    /** The end of `Worker.run` once the outcome `o` is known: the entity is
        stored and the job finished on success, the job failed with the
        reason otherwise; then the job record is stored and the worker is
        done. */
    method Conclude(o: Result<Weibull, Failure>)
      modifies this, job, store
      ensures done
      ensures job.status == (if o.Ok? then Finished else Failed)
      ensures job.reason == (if o.Ok? then old(job.reason) else Some(o.error))
      ensures store.kvs == Persist(old(store.kvs), job.Record(), o)
    {
      if o.Ok? {
        store.Put(Db.WeibullNs, o.value.id, Entity(o.value));
        job.status := Finished;
      } else {
        job.status := Failed;
        job.reason := Some(o.error);
      }
      store.Put(Db.JobsNs, job.id, JobEntry(job.Record()));
      done := true;
    }

    /** The body of `Worker.run`'s `try` after the job is marked running,
        up to the computed entity: the entity is read, then `Compute`. */
    method Attempt(now: int, remote: DataCache.Remote, sha: seq<byte> -> string, fit: Fit)
      returns (o: Result<Weibull, Failure>)
      requires data.Valid()
      modifies data, data.cache.Values
      ensures data.Valid()
      ensures var rec := Readable(Db.Lookup(store.kvs, Db.WeibullNs, job.weibullId));
        && (rec.Err? ==> o == rec && data.calls == old(data.calls) && data.cache == old(data.cache) && data.disk == old(data.disk))
        && (rec.Ok? ==>
              var a := old(Fetch(rec.value.serviceId, now, remote, sha));
              && o == Finish(rec.value, a.result, fit, now)
              && data.calls == old(data.calls) + a.calls
              && data.disk == (old(data.disk) + a.written) - a.removed
              && rec.value.serviceId in data.cache && data.cache[rec.value.serviceId].State() == a.item)
      ensures var rec := Readable(Db.Lookup(store.kvs, Db.WeibullNs, job.weibullId));
        var s := if rec.Ok? then rec.value.serviceId else "";
        && data.order == (if rec.Err? || s in old(data.cache) then old(data.order) else old(data.order) + [s])
        && (forall k :: k in data.cache <==> k in old(data.cache) || (rec.Ok? && k == s))
        && (forall k :: k in old(data.cache) && (rec.Err? || k != s) ==>
              data.cache[k] == old(data.cache[k]) && data.cache[k].State() == old(data.cache[k].State()))
    {
      var found := store.Get(Db.WeibullNs, job.weibullId);
      var rec := Readable(found);
      if rec.Err? {
        return rec;
      }
      o := Compute(rec.value, now, remote, sha, fit);
    }

    /** The rest of the `try` once the entity `w` is read: its data, then
        the two config values, then the fit, each failing the job with its
        own exception. */
    method Compute(w: Weibull, now: int, remote: DataCache.Remote, sha: seq<byte> -> string, fit: Fit)
      returns (o: Result<Weibull, Failure>)
      requires data.Valid()
      modifies data, data.cache.Values
      ensures data.Valid()
      ensures var a := old(Fetch(w.serviceId, now, remote, sha));
        && o == Finish(w, a.result, fit, now)
        && data.calls == old(data.calls) + a.calls
        && data.disk == (old(data.disk) + a.written) - a.removed
        && w.serviceId in data.cache && data.cache[w.serviceId].State() == a.item
      ensures data.order == if w.serviceId in old(data.cache) then old(data.order) else old(data.order) + [w.serviceId]
      ensures forall k :: k in data.cache <==> k in old(data.cache) || k == w.serviceId
      ensures forall k :: k in old(data.cache) && k != w.serviceId ==>
                data.cache[k] == old(data.cache[k]) && data.cache[k].State() == old(data.cache[k].State())
    {
      var fetched := data.Get(w.serviceId, now, remote, sha);
      if fetched.Err? {
        return Err(DataUnavailable(fetched.error));
      }
      var fill := fetched.value;
      var code := ConfigValue(w.config, TargetErrorCode);
      if code.None? {
        return Err(ConfigMissing(TargetErrorCode));
      }
      var col := ConfigValue(w.config, TargetCol);
      if col.None? {
        return Err(ConfigMissing(TargetCol));
      }
      var result := fit(fill.files, fill.timeField, col.value, code.value);
      if result.Err? {
        return Err(FitFailed(result.error));
      }
      o := Ok(w.(result := Some(result.value), created := Some(now), dataChecksum := Some(fill.checksum)));
    }
  }

  /** `uuid.uuid4()` never gives the same id twice. */
  ghost predicate Unique(uuids: nat -> string)
  {
    forall i: nat, j: nat :: i != j ==> uuids(i) != uuids(j)
  }

  /** Each pooled job reduced to the entity it targets. */
  function Owners(jobPool: map<string, Job>): map<string, string>
  {
    map k | k in jobPool :: jobPool[k].weibullId
  }

  lemma OwnersPut(jobPool: map<string, Job>, job: Job)
    ensures Owners(jobPool[job.id := job]) == Owners(jobPool)[job.id := job.weibullId]
  {
  }

  lemma OwnersRemove(jobPool: map<string, Job>, gone: set<string>)
    ensures Owners(jobPool - gone) == Owners(jobPool) - gone
  {
  }

  /** The objects agree with the bookkeeping: each job is pooled under its
      own id, each worker runs the pooled job with its id, and the ids not
      yet drawn from `uuids` are not pooled. */
  ghost predicate Matched(uuids: nat -> string, issued: nat, jobPool: map<string, Job>, workerPool: map<string, Worker>)
  {
    && Unique(uuids)
    && (forall k :: k in jobPool ==> jobPool[k].id == k)
    && (forall k :: k in workerPool ==> k in jobPool && workerPool[k].job == jobPool[k])
    && (forall n: nat :: issued <= n ==> uuids(n) !in jobPool)
  }

  /** The invariant of `Jobs` over the values of its fields. */
  ghost predicate Holds(maxJobs: int, uuids: nat -> string, issued: nat, jobPool: map<string, Job>,
                        order: seq<string>, queue: seq<string>, workerPool: map<string, Worker>)
  {
    Inv(Pool(order, Owners(jobPool), queue, workerPool.Keys), maxJobs) && Matched(uuids, issued, jobPool, workerPool)
  }

  lemma CreateMatched(uuids: nat -> string, issued: nat, jobPool: map<string, Job>, workerPool: map<string, Worker>, job: Job)
    requires Matched(uuids, issued, jobPool, workerPool) && job.id == uuids(issued)
    ensures Matched(uuids, issued + 1, jobPool[job.id := job], workerPool)
  {
    forall n: nat | issued + 1 <= n
      ensures uuids(n) !in jobPool[job.id := job]
    {
      assert uuids(n) != uuids(issued);
    }
  }

  /** Pooling and queueing a new job under the next uuid keeps the
      invariant, as `Creation` says. */
  lemma CreateHolds(maxJobs: int, uuids: nat -> string, issued: nat, jobPool: map<string, Job>,
                    order: seq<string>, queue: seq<string>, workerPool: map<string, Worker>, job: Job)
    requires Holds(maxJobs, uuids, issued, jobPool, order, queue, workerPool)
    requires job.id == uuids(issued)
    requires FirstOwned(order, Owners(jobPool), job.weibullId).None?
    ensures Holds(maxJobs, uuids, issued + 1, jobPool[job.id := job], order + [job.id], queue + [job.id], workerPool)
    ensures Pool(order + [job.id], Owners(jobPool[job.id := job]), queue + [job.id], workerPool.Keys)
         == Creation(Pool(order, Owners(jobPool), queue, workerPool.Keys), job.weibullId, job.id).pool
  {
    var p := Pool(order, Owners(jobPool), queue, workerPool.Keys);
    OwnersPut(jobPool, job);
    CreationPreserves(p, maxJobs, job.weibullId, job.id);
    CreateMatched(uuids, issued, jobPool, workerPool, job);
  }

  lemma DispatchMatched(uuids: nat -> string, issued: nat, jobPool: map<string, Job>, workerPool: map<string, Worker>, id: string, worker: Worker)
    requires Matched(uuids, issued, jobPool, workerPool) && id in jobPool && worker.job == jobPool[id]
    ensures Matched(uuids, issued, jobPool, workerPool[id := worker])
  {
  }

  /** Giving the oldest queued job a worker keeps the invariant, as
      `Dispatched` says. */
  lemma DispatchHolds(maxJobs: int, uuids: nat -> string, issued: nat, jobPool: map<string, Job>,
                      order: seq<string>, queue: seq<string>, workerPool: map<string, Worker>, worker: Worker)
    requires Holds(maxJobs, uuids, issued, jobPool, order, queue, workerPool)
    requires |workerPool| < maxJobs && queue != []
    requires queue[0] in jobPool && worker.job == jobPool[queue[0]]
    ensures Holds(maxJobs, uuids, issued, jobPool, order, queue[1..], workerPool[queue[0] := worker])
    ensures Pool(order, Owners(jobPool), queue[1..], workerPool[queue[0] := worker].Keys)
         == Dispatched(Pool(order, Owners(jobPool), queue, workerPool.Keys), maxJobs)
  {
    var p := Pool(order, Owners(jobPool), queue, workerPool.Keys);
    assert |p.running| == |workerPool|;
    assert workerPool[queue[0] := worker].Keys == p.running + {queue[0]};
    DispatchPreserves(p, maxJobs);
    DispatchMatched(uuids, issued, jobPool, workerPool, queue[0], worker);
  }

  lemma ReapMatched(uuids: nat -> string, issued: nat, jobPool: map<string, Job>, workerPool: map<string, Worker>, gone: set<string>)
    requires Matched(uuids, issued, jobPool, workerPool)
    ensures Matched(uuids, issued, jobPool - gone, workerPool - gone)
  {
  }

  /** Removing the jobs `gone`, all of which have workers, from both pools
      keeps the invariant, as `Reaped` says. */
  lemma ReapHolds(maxJobs: int, uuids: nat -> string, issued: nat, jobPool: map<string, Job>,
                  order: seq<string>, queue: seq<string>, workerPool: map<string, Worker>, gone: set<string>)
    requires Holds(maxJobs, uuids, issued, jobPool, order, queue, workerPool)
    requires gone <= workerPool.Keys
    ensures Holds(maxJobs, uuids, issued, jobPool - gone, Without(order, gone), queue, workerPool - gone)
    ensures Pool(Without(order, gone), Owners(jobPool - gone), queue, (workerPool - gone).Keys)
         == Reaped(Pool(order, Owners(jobPool), queue, workerPool.Keys), gone)
  {
    var p := Pool(order, Owners(jobPool), queue, workerPool.Keys);
    assert p.running * gone == gone;
    OwnersRemove(jobPool, gone);
    assert (workerPool - gone).Keys == p.running - gone;
    ReapPreserves(p, maxJobs, gone);
    ReapMatched(uuids, issued, jobPool, workerPool, gone);
  }

  /** The loop of the reap half, over the worker pool's keys: a job whose
      worker is done is deleted from the worker pool, the job pool and the
      pool's key list. `done` names the workers that are done. */
  method Collect(workers: map<string, Worker>, jobs: map<string, Job>, order: seq<string>, ghost done: set<string>)
    returns (workers': map<string, Worker>, jobs': map<string, Job>, order': seq<string>)
    requires forall k :: k in workers ==> (workers[k].done <==> k in done)
    ensures workers' == workers - (workers.Keys * done)
    ensures jobs' == jobs - (workers.Keys * done)
    ensures order' == Without(order, workers.Keys * done)
  {
    ghost var gone: set<string> := {};
    workers', jobs', order' := workers, jobs, order;
    var pending := workers.Keys;
    WithoutNothing(order);
    while pending != {}
      invariant pending <= workers.Keys
      invariant forall j :: j in gone <==> j in workers && j !in pending && j in done
      invariant forall j :: j in workers' <==> j in workers && j !in gone
      invariant forall j :: j in workers' ==> workers'[j] == workers[j]
      invariant forall j :: j in jobs' <==> j in jobs && j !in gone
      invariant forall j :: j in jobs' ==> jobs'[j] == jobs[j]
      invariant order' == Without(order, gone)
      decreases pending
    {
      var k :| k in pending;
      if workers[k].done {
        WithoutWithout(order, gone, {k});
        workers' := workers' - {k};
        jobs' := jobs' - {k};
        order' := Without(order', {k});
        gone := gone + {k};
      }
      pending := pending - {k};
    }
    assert gone == workers.Keys * done;
    assert workers' == workers - gone;
    assert jobs' == jobs - gone;
  }

  /** `Jobs`: the job pool (with its keys in insertion order), the queue and
      the worker pool. `issued` counts the ids drawn from `uuids`. */
  class Jobs {
    const maxJobs: int
    const uuids: nat -> string
    const store: Db.Store
    const data: DataCache.Data
    var jobPool: map<string, Job>
    var poolOrder: seq<string>
    var queue: seq<string>
    var workerPool: map<string, Worker>
    var issued: nat

    /** The bookkeeping, with each job reduced to the entity it targets. */
    function Model(): Pool
      reads this
    {
      Pool(poolOrder, Owners(jobPool), queue, workerPool.Keys)
    }

    ghost predicate Valid()
      reads this
    {
      Holds(maxJobs, uuids, issued, jobPool, poolOrder, queue, workerPool)
    }

    /** The ids of the jobs whose worker is done. */
    function DoneIds(): set<string>
      reads this, workerPool.Values
    {
      set k | k in workerPool && workerPool[k].done
    }

    /** `Jobs.__init__`: empty pools and queue. */
    constructor (store: Db.Store, data: DataCache.Data, maxJobs: int, uuids: nat -> string)
      requires Unique(uuids)
      ensures Valid()
      ensures this.store == store && this.data == data && this.maxJobs == maxJobs && this.uuids == uuids
      ensures jobPool == map[] && poolOrder == [] && queue == [] && workerPool == map[] && issued == 0
    {
      this.store := store;
      this.data := data;
      this.maxJobs := maxJobs;
      this.uuids := uuids;
      jobPool := map[];
      poolOrder := [];
      queue := [];
      workerPool := map[];
      issued := 0;
    }

    /** `Jobs.create(weibullId)`: the id of the pooled job for that entity if
        there is one, else a new pending job under the next uuid, stamped
        `now`, pooled and queued. */
    method Create(weibullId: string, now: int) returns (id: string)
      requires Valid()
      modifies this
      ensures Valid()
      ensures var m := Creation(old(Model()), weibullId, uuids(old(issued)));
        && Model() == m.pool && id == m.id
        && issued == if m.added then old(issued) + 1 else old(issued)
      ensures id in jobPool && jobPool[id].weibullId == weibullId
      ensures forall k :: k in old(jobPool) ==> k in jobPool && jobPool[k] == old(jobPool[k])
      ensures id !in old(jobPool) ==> fresh(jobPool[id]) && jobPool[id].Record() == JobRecord(id, now, Pending, weibullId, None)
      ensures workerPool == old(workerPool)
    {
      var existing := Find(weibullId);
      if existing.Some? {
        return existing.value;
      }
      id := Add(weibullId, now);
    }

    /** The second half of `create`: a new pending job under the next uuid,
        pooled and queued. */
    method Add(weibullId: string, now: int) returns (id: string)
      requires Valid()
      requires FirstOwned(poolOrder, Owners(jobPool), weibullId).None?
      modifies this
      ensures Valid()
      ensures id == uuids(old(issued)) && id !in old(jobPool) && issued == old(issued) + 1
      ensures Model() == Creation(old(Model()), weibullId, id).pool
      ensures forall k :: k in old(jobPool) ==> k in jobPool && jobPool[k] == old(jobPool[k])
      ensures id in jobPool && workerPool == old(workerPool)
      ensures fresh(jobPool[id]) && jobPool[id].Record() == JobRecord(id, now, Pending, weibullId, None)
    {
      id := uuids(issued);
      var job := new Job(id, weibullId, now);
      CreateHolds(maxJobs, uuids, issued, jobPool, poolOrder, queue, workerPool, job);
      jobPool, poolOrder, queue, issued := jobPool[id := job], poolOrder + [id], queue + [id], issued + 1;
    }

    /** The search at the head of `create`: the first pooled job, in pool
        order, that targets `weibullId`. */
    method Find(weibullId: string) returns (r: Option<string>)
      requires forall k :: k in poolOrder ==> k in jobPool
      ensures r == FirstOwned(poolOrder, Owners(jobPool), weibullId)
    {
      var i := 0;
      while i < |poolOrder|
        invariant 0 <= i <= |poolOrder|
        invariant FirstOwned(poolOrder[i..], Owners(jobPool), weibullId) == FirstOwned(poolOrder, Owners(jobPool), weibullId)
      {
        assert poolOrder[i..][1..] == poolOrder[i + 1..];
        var job := jobPool[poolOrder[i]];
        if job.weibullId == weibullId {
          return Some(poolOrder[i]);
        }
        i := i + 1;
      }
      return None;
    }

    /** `Jobs.get_job`: the pooled job, or `KeyError`. */
    method GetJob(jobId: string) returns (r: Result<Job, Db.KeyError>)
      ensures r.Ok? <==> jobId in jobPool
      ensures r.Ok? ==> r.value == jobPool[jobId]
      ensures r.Err? ==> r.error == Db.KeyError(jobId)
    {
      if jobId in jobPool {
        r := Ok(jobPool[jobId]);
      } else {
        r := Err(Db.KeyError(jobId));
      }
    }

    /** `Jobs.list_jobs`: the pool's ids, each once, oldest first (the
        dict's insertion order). */
    method ListJobs() returns (ids: seq<string>)
      requires Valid()
      ensures ids == poolOrder
      ensures forall k :: k in ids <==> k in jobPool
      ensures Distinct(ids)
    {
      ids := poolOrder;
    }

    /** One pass of `Jobs.run`: dispatch, then reap. The new worker is not
        started here, so it is not done yet. */
    method Step()
      requires Valid()
      modifies this
      ensures Valid()
      ensures Model() == Reaped(Dispatched(old(Model()), maxJobs), old(DoneIds()))
      ensures issued == old(issued)
      ensures forall k :: k in jobPool ==> k in old(jobPool) && jobPool[k] == old(jobPool[k])
      ensures forall k :: k in workerPool && k in old(workerPool) ==> workerPool[k] == old(workerPool[k])
      ensures forall k :: k in workerPool && k !in old(workerPool) ==>
                fresh(workerPool[k]) && workerPool[k].job == jobPool[k] && !workerPool[k].done
      ensures forall k :: k in workerPool ==> !workerPool[k].done
    {
      ghost var done, before := DoneIds(), workerPool;
      Dispatch();
      ghost var dispatched := workerPool;
      Reap(done);
      forall k | k in workerPool
        ensures workerPool[k] == dispatched[k] && !workerPool[k].done
        ensures k in before ==> workerPool[k] == before[k]
      {
        assert k !in done;
      }
    }

    /** The dispatch half: below `max_jobs` workers, the oldest queued job
        gets a new worker. */
    method Dispatch()
      requires Valid()
      modifies this
      ensures Valid()
      ensures Model() == Dispatched(old(Model()), maxJobs)
      ensures jobPool == old(jobPool) && issued == old(issued)
      ensures forall k :: k in old(workerPool) ==> k in workerPool && workerPool[k] == old(workerPool[k])
      ensures forall k :: k in workerPool && k !in old(workerPool) ==>
                fresh(workerPool[k]) && workerPool[k].job == jobPool[k] && !workerPool[k].done
    {
      if |workerPool| < maxJobs && queue != [] {
        var jobId := queue[0];
        var worker := new Worker(jobPool[jobId], store, data);
        DispatchHolds(maxJobs, uuids, issued, jobPool, poolOrder, queue, workerPool, worker);
        queue, workerPool := queue[1..], workerPool[jobId := worker];
      }
    }

    /** The reap half: every job whose worker is done leaves both pools.
        `done` names the workers that are done. */
    method Reap(ghost done: set<string>)
      requires Valid()
      requires forall k :: k in workerPool ==> (workerPool[k].done <==> k in done)
      modifies this
      ensures Valid()
      ensures Model() == Reaped(old(Model()), done)
      ensures forall k :: k in workerPool ==> k in old(workerPool) && workerPool[k] == old(workerPool[k])
      ensures forall k :: k in workerPool ==> k !in done
      ensures forall k :: k in jobPool ==> k in old(jobPool) && jobPool[k] == old(jobPool[k])
      ensures issued == old(issued)
    {
      ghost var gone := workerPool.Keys * done;
      ReapHolds(maxJobs, uuids, issued, jobPool, poolOrder, queue, workerPool, gone);
      var workers, jobs, order := Collect(workerPool, jobPool, poolOrder, done);
      workerPool, jobPool, poolOrder := workers, jobs, order;
    }
  }
}
