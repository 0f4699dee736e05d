/** The HTTP resources (worker/api.py), reduced to the status each handler
    answers and the body it sends. Routing, headers and JSON are not
    modelled: a request body that does not parse, or lacks a field the
    handler reads, is `None`. */
module Api {
  import opened Results
  import opened Models
  import Util
  import Db
  import opened JobsHandler

  const Ok200: int := 200
  const Created201: int := 201
  const NotFound404: int := 404
  const Failed500: int := 500

  /** What a handler sends back: a status and one of the bodies the
      resources produce. */
  datatype Body =
    | NoBody
    | Id(id: string)                                        // text: an entity or job id
    | Stored(doc: Doc)                                      // a value read from the store
    | Keys(keys: seq<string>)                               // a JSON list of ids
    | JobList(current: seq<string>, history: seq<string>)   // `{"current": ..., "history": ...}`
    | JobView(job: JobRecord)                               // `dict(job)` of an active job
  datatype Response = Response(status: int, body: Body)

  /** `models.WeibullRequest`: the fields `on_post` reads. */
  datatype WeibullRequest = WeibullRequest(serviceId: string, config: seq<Util.Entry>)

  /** The record `on_post` stores for a new entity: no result, no data
      checksum and no completion time yet. */
  function NewEntity(req: WeibullRequest, id: string): Weibull
  {
    Weibull(id, None, req.config, None, req.serviceId, None)
  }

  // ------------------------------------------------ create-or-get

  /** `WeibullCollection.on_post` on a well-formed request: the response and
      the store after it. */
  function Admission(kvs: map<string, Doc>, digest: string -> string, req: WeibullRequest): (Response, map<string, Doc>)
  {
    var id := Util.GetHash(digest, req.serviceId, req.config);
    if Db.Lookup(kvs, Db.WeibullNs, id).Ok? then (Response(Ok200, Id(id)), kvs)
    else (Response(Created201, Id(id)), kvs[Db.WeibullNs + id := Entity(NewEntity(req, id))])
  }

  /** Both outcomes answer with the entity's id. A stored, non-empty record
      gives 200 and no write; otherwise the new record is stored under its
      id, and 201. No other key of the store changes. */
  lemma AdmissionOutcomes(kvs: map<string, Doc>, digest: string -> string, req: WeibullRequest)
    ensures var id := Util.GetHash(digest, req.serviceId, req.config);
      var (resp, after) := Admission(kvs, digest, req);
      && resp.body == Id(id)
      && (resp.status == Ok200 <==> Db.Lookup(kvs, Db.WeibullNs, id).Ok?)
      && (resp.status == Ok200 ==> after == kvs)
      && (resp.status != Ok200 ==>
            && resp.status == Created201
            && Db.Lookup(after, Db.WeibullNs, id) == Ok(Entity(NewEntity(req, id)))
            && (forall p :: p != Db.WeibullNs + id ==> (p in after <==> p in kvs))
            && (forall p :: p in kvs && p != Db.WeibullNs + id ==> after[p] == kvs[p]))
  {
    var id := Util.GetHash(digest, req.serviceId, req.config);
    if Db.Lookup(kvs, Db.WeibullNs, id).Err? {
      Db.GetAfterPut(kvs, Db.WeibullNs, id, Entity(NewEntity(req, id)));
    }
  }

  /** Repeating an identical request answers 200 with the id of the first
      answer and writes nothing. */
  lemma AdmissionRepeat(kvs: map<string, Doc>, digest: string -> string, req: WeibullRequest)
    ensures var (first, after) := Admission(kvs, digest, req);
      Admission(after, digest, req) == (Response(Ok200, first.body), after)
  {
    var id := Util.GetHash(digest, req.serviceId, req.config);
    if Db.Lookup(kvs, Db.WeibullNs, id).Err? {
      Db.GetAfterPut(kvs, Db.WeibullNs, id, Entity(NewEntity(req, id)));
    }
  }

  /** Requests whose configs hold the same entries in another order name the
      same entity: the answer is the same. */
  lemma AdmissionOrderFree(kvs: map<string, Doc>, digest: string -> string, req1: WeibullRequest, req2: WeibullRequest)
    requires req1.serviceId == req2.serviceId && multiset(req1.config) == multiset(req2.config)
    ensures Admission(kvs, digest, req1).0 == Admission(kvs, digest, req2).0
  {
    Util.GetHashOrderFree(digest, req1.serviceId, req1.config, req2.config);
  }

  /** `WeibullCollection.on_post`: a malformed request answers 500 and
      changes nothing; otherwise the answer and the store are as `Admission`
      says, and on 201 (only) `create` is called once for the new id. */
  method CreateOrGet(store: Db.Store, jobs: Jobs, body: Option<WeibullRequest>, digest: string -> string, now: int)
    returns (resp: Response)
    requires jobs.Valid()
    modifies store, jobs
    ensures jobs.Valid()
    ensures body.None? ==>
      && resp == Response(Failed500, NoBody)
      && store.kvs == old(store.kvs) && jobs.Model() == old(jobs.Model()) && jobs.issued == old(jobs.issued)
    ensures body.Some? ==>
      var (answer, after) := Admission(old(store.kvs), digest, body.value);
      && resp == answer && store.kvs == after
      && (resp.status == Created201 ==>
            var m := Creation(old(jobs.Model()), resp.body.id, jobs.uuids(old(jobs.issued)));
            jobs.Model() == m.pool && jobs.issued == if m.added then old(jobs.issued) + 1 else old(jobs.issued))
      && (resp.status != Created201 ==> jobs.Model() == old(jobs.Model()) && jobs.issued == old(jobs.issued))
    ensures jobs.workerPool == old(jobs.workerPool)
    ensures forall k :: k in old(jobs.jobPool) ==> k in jobs.jobPool && jobs.jobPool[k] == old(jobs.jobPool[k])
  {
    if body.None? {
      return Response(Failed500, NoBody);
    }
    var req := body.value;
    var id := Util.GetHash(digest, req.serviceId, req.config);
    var found := store.Get(Db.WeibullNs, id);
    if found.Ok? {
      resp := Response(Ok200, Id(id));
    } else {
      store.Put(Db.WeibullNs, id, Entity(NewEntity(req, id)));
      var _ := jobs.Create(id, now);
      resp := Response(Created201, Id(id));
    }
  }

  // ------------------------------------------------ entity resources

  /** `WeibullResource.on_get`: the stored record, or 404 when it is missing
      or empty. */
  function EntityResponse(kvs: map<string, Doc>, id: string): Response
  {
    match Db.Lookup(kvs, Db.WeibullNs, id)
    case Ok(doc) => Response(Ok200, Stored(doc))
    case Err(_) => Response(NotFound404, NoBody)
  }

  /** The entity lookup answers 404 exactly when the record is absent or
      empty, and otherwise sends the stored value. */
  lemma EntityFound(kvs: map<string, Doc>, id: string)
    ensures EntityResponse(kvs, id).status == NotFound404 <==>
              Db.WeibullNs + id !in kvs || Empty(kvs[Db.WeibullNs + id])
    ensures EntityResponse(kvs, id).status != NotFound404 ==>
              EntityResponse(kvs, id) == Response(Ok200, Stored(kvs[Db.WeibullNs + id]))
  {
  }

  /** After a 201 from create-or-get the new entity can be read back. */
  lemma EntityAfterAdmission(kvs: map<string, Doc>, digest: string -> string, req: WeibullRequest)
    ensures var (resp, after) := Admission(kvs, digest, req);
      resp.status == Created201 ==>
        EntityResponse(after, resp.body.id) == Response(Ok200, Stored(Entity(NewEntity(req, resp.body.id))))
  {
    AdmissionOutcomes(kvs, digest, req);
  }

  /** After a delete the entity lookup answers 404. */
  lemma EntityAfterDelete(kvs: map<string, Doc>, id: string)
    ensures EntityResponse(kvs - {Db.WeibullNs + id}, id) == Response(NotFound404, NoBody)
  {
    Db.GetAfterDelete(kvs, Db.WeibullNs, id);
  }

  /** `WeibullResource.on_delete`: deletes the record, present or not, and
      answers 200. */
  method DeleteEntity(store: Db.Store, id: string) returns (resp: Response)
    modifies store
    ensures store.kvs == old(store.kvs) - {Db.WeibullNs + id}
    ensures resp == Response(Ok200, NoBody)
  {
    store.Delete(Db.WeibullNs, id);
    resp := Response(Ok200, NoBody);
  }

  /** `WeibullCollection.on_get`: the ids of all stored entities, in key
      order, each once. */
  method ListEntities(store: Db.Store) returns (resp: Response)
    ensures resp.status == Ok200 && resp.body.Keys?
    ensures Db.Increasing(resp.body.keys)
    ensures forall k :: k in resp.body.keys <==> Db.WeibullNs + k in store.kvs
  {
    var keys := store.ListKeys(Db.WeibullNs);
    resp := Response(Ok200, Keys(keys));
  }

  // ------------------------------------------------ job resources

  /** `Job.on_get` once the active pool has been asked: the active job if
      there is one, else the record stored under `jobs-`, else 404. */
  function JobLookup(active: Option<JobRecord>, kvs: map<string, Doc>, jobId: string): Response
  {
    if active.Some? then Response(Ok200, JobView(active.value))
    else match Db.Lookup(kvs, Db.JobsNs, jobId)
      case Ok(doc) => Response(Ok200, Stored(doc))
      case Err(_) => Response(NotFound404, NoBody)
  }

  /** The lookup answers 404 exactly when the job is neither active nor
      stored; an active job is answered from the pool whatever the store
      holds. */
  lemma JobLookupOrder(active: Option<JobRecord>, kvs: map<string, Doc>, jobId: string)
    ensures JobLookup(active, kvs, jobId).status == NotFound404 <==>
              active.None? && Db.Lookup(kvs, Db.JobsNs, jobId).Err?
    ensures active.Some? ==> forall other :: JobLookup(active, other, jobId) == JobLookup(active, kvs, jobId)
  {
  }

  /** A job whose worker has stored its record is still found after it has
      left the active pool: the answer is the record the worker stored. */
  lemma JobFoundAfterReap(kvs: map<string, Doc>, job: JobRecord, o: Result<Weibull, Failure>)
    ensures JobLookup(None, Persist(kvs, job, o), job.id) == Response(Ok200, Stored(JobEntry(job)))
  {
    PersistRecordsJob(kvs, job, o);
  }

  /** `Job.on_get`: asks the active pool first, then the store. */
  method GetJob(jobs: Jobs, store: Db.Store, jobId: string) returns (resp: Response)
    ensures resp == JobLookup(if jobId in jobs.jobPool then Some(jobs.jobPool[jobId].Record()) else None, store.kvs, jobId)
  {
    var active := jobs.GetJob(jobId);
    if active.Ok? {
      resp := Response(Ok200, JobView(active.value.Record()));
    } else {
      var stored := store.Get(Db.JobsNs, jobId);
      if stored.Ok? {
        resp := Response(Ok200, Stored(stored.value));
      } else {
        resp := Response(NotFound404, NoBody);
      }
    }
  }

  /** `Jobs.on_get`: `current` lists the active jobs, oldest first, and
      `history` the ids stored under `jobs-`, in key order. */
  method ListJobs(jobs: Jobs, store: Db.Store) returns (resp: Response)
    requires jobs.Valid()
    ensures resp.status == Ok200 && resp.body.JobList?
    ensures resp.body.current == jobs.poolOrder
    ensures forall k :: k in resp.body.current <==> k in jobs.jobPool
    ensures Db.Increasing(resp.body.history)
    ensures forall k :: k in resp.body.history <==> Db.JobsNs + k in store.kvs
  {
    var current := jobs.ListJobs();
    var history := store.ListKeys(Db.JobsNs);
    resp := Response(Ok200, JobList(current, history));
  }

  /** `Jobs.on_post`: `create` for the posted entity id, answering the job's
      id; a body without `weibull_id` answers 500. */
  method PostJob(jobs: Jobs, weibullId: Option<string>, now: int) returns (resp: Response)
    requires jobs.Valid()
    modifies jobs
    ensures jobs.Valid()
    ensures weibullId.None? ==>
      resp == Response(Failed500, NoBody) && jobs.Model() == old(jobs.Model()) && jobs.issued == old(jobs.issued)
    ensures weibullId.Some? ==>
      var m := Creation(old(jobs.Model()), weibullId.value, jobs.uuids(old(jobs.issued)));
      && resp == Response(Ok200, Id(m.id)) && jobs.Model() == m.pool
      && jobs.issued == if m.added then old(jobs.issued) + 1 else old(jobs.issued)
    ensures jobs.workerPool == old(jobs.workerPool)
    ensures forall k :: k in old(jobs.jobPool) ==> k in jobs.jobPool && jobs.jobPool[k] == old(jobs.jobPool[k])
  {
    if weibullId.None? {
      return Response(Failed500, NoBody);
    }
    var id := jobs.Create(weibullId.value, now);
    resp := Response(Ok200, Id(id));
  }
}
