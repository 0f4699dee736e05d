# Weibull analytics worker: a verified model of its core

This project models, in Dafny, the decision logic of a background worker. The worker computes a Weibull fit for each monitored entity, stores the results, and keeps them fresh. The model covers six pieces:

- **Entity identity** (`worker/util.py`, `get_hash`). An entity's id is the SHA-256 hex digest of its service id followed by its config's "key value" pieces. The pieces are sorted and joined with no separator.
- **Namespaced key-value store** (`worker/handlers/db.py`). One map over physical keys. A namespace is a key prefix. `get` treats a missing or empty value as not found, and `list_keys` lists a namespace in ascending key order.
- **Remote data cache** (`worker/handlers/data.py`). One cache item per data source, with a small state machine:
  - an item with no files gets a full refresh;
  - a fresh item is served as it is;
  - a stale item has its metadata checked, and is refreshed only when the checksum changed.

  Downloads use one retry counter shared by all files. A checksum mismatch only re-requests the metadata. A background sweep evicts stale, unlocked items.
- **Job orchestrator** (`worker/handlers/jobs.py`). A deduplicating `create` over a job pool, a FIFO queue, and a worker pool bounded by `max_jobs`. One pass of the orchestrator loop dispatches and then reaps. A worker run ends `finished` or `failed` and always stores the job record.
- **Scheduler pass** (`worker/handlers/scheduler.py`). Calls `create` for every key listed under `models-`.
- **HTTP resources** (`worker/api.py`). Create-or-get, the entity lookup, list and delete, job creation, and the job lookup and list. Each is reduced to the status it answers and the body it sends.

## How the model is built

The code that changes state is written as imperative Dafny:

- `Db.Store`, `DataCache.CacheItem`, `DataCache.Data`, `JobsHandler.Job`, `JobsHandler.Worker`, `JobsHandler.Jobs` and `Scheduling.Scheduler` are classes with the source's fields.
- Python dicts are `map` fields. Their insertion order is kept in a `seq`, because both the sweep and `list_jobs` follow it.
- The retry loops, the download loop, the sweep loops, the reap loop and the scheduling loop are `while` loops with invariants.

Each method is proved against a pure specification function, and the source's promises are lemmas about those functions:

| Method | Specification function |
|---|---|
| `Data.Get` | `Serve` |
| `Data.GetNew` | `NewFetch` |
| `Data.ServeStale` | `Recheck`, the stale branch of `Serve` |
| `Data.Sweep` | `Evicted` |
| `Jobs.Create` | `Creation` |
| `Jobs.Step` | `Dispatched` and `Reaped`, over the abstract `Pool` |
| `Scheduler.Pass` | `CreateAll` |
| `Api.CreateOrGet` | `Admission` |

`Jobs` keeps the invariant `Valid()` across every method. It says:

- at most one pooled job per entity;
- every queued id and every worker's id is pooled;
- a queued job has no worker;
- there are at most `max_jobs` workers;
- the job objects agree with the bookkeeping.

Things outside the program are parameters:

- SHA-256 is a function parameter (`digest`, `sha`), so every property holds for any hash function.
- The data service is an oracle, `Remote`, which gives the n-th metadata answer of one `get` and the outcome of each file request.
- `uuid.uuid4()` is a stream `uuids` that never repeats.
- Clocks are the integer `now`.
- The Weibull fit is the function parameter `fit`, which may fail.
- A ghost log `Data.calls` records every request sent to the data service, so that "no request" and "at most six metadata requests" can be stated.

Several quirks of the code are modelled as written:

- **A reused file name is removed.** After a stale item is refreshed, every old file name is removed, including one that the new manifest uses again. `ServeStaleChanged` shows that such a file is then served but is no longer on disk.
- **An unfilled item blocks the sweep.** If a stale, unlocked item was never filled, because its first refresh raised, the deletion loop of `Data.run` hits a `TypeError` on it. That ends the pass, so it and every stale item after it stay cached (`UnfilledStaleBlocksLater`).
- **The first fill does not reset `created`.** A full refresh of an item with no files leaves its timestamp alone.
- **The refresh uses the last metadata.** `__get_new` returns the files of the last metadata it fetched, even though only the first metadata's files were downloaded (`RefreshReturnsLastManifest`, `RefreshAnswersUndownloadedFile`).
- **The scheduler reads an empty namespace.** It lists `models-`, which nothing in the code writes.
- **Dedup can hand back a finished job.** `create` returns the id of a job that has finished but has not been reaped yet.
- **The id ignores piece boundaries.** Pieces are joined with no separator, so `{"ab": "c"}` and `{"a": "bc"}` get the same id (`PieceBoundaryCollision`).

Other behaviours of the code that the model follows:

- On a checksum mismatch `__get_new` requests only the metadata again, at most 4 times (`retries > 3`), and never downloads the files again (worker/handlers/data.py:97-104).
- One chunk-retry counter is shared by all files of a source. A failed file is skipped and never requested again, and the sixth failure overall raises (worker/handlers/data.py:80-91).
- The running checksum is fed the raw bytes as they are streamed, before any decompression (worker/handlers/data.py:70-75).
- A scheduler pass only lists the `models-` keys and calls `create` for each. It sends no metadata request and compares no checksum (worker/handlers/scheduler.py:41-43).
- The worker thread writes the entity and the job record to the store itself (worker/handlers/jobs.py:68 and 75).

The record declarations in `worker/models.py` differ from how the handlers use them. The model uses the fields as the handlers use them:

- `Job` declares `model_id`, but `jobs.py` uses `weibull_id`.
- `Weibull` has no `data_checksum` field, but `jobs.py` assigns one (worker/handlers/jobs.py:51).
- `MetaData` declares no `files` field (the declaration is commented out), but `data.py` reads `metadata.files` (worker/handlers/data.py:96 and 104).

Also, `app.py` passes `data_handler` to a `Scheduler.__init__` that does not accept it.

## Model

| member | source | states |
|---|---|---|
| Util.Pieces | worker/util.py:26 | one piece per config entry, in entry order, each the key text immediately followed by the value text |
| Util.PreImage | worker/util.py:26-28 | the hashed string: the service id followed by the pieces in sorted order, joined with no separator (its properties are the lemmas below) |
| Util.GetHash | worker/util.py:25-29 | the id is the digest of that string alone, for a digest function given as a parameter |
| Util.PiecesOfPermutation | worker/util.py:26 | reordering the config entries only reorders the pieces (same multiset) |
| Util.PreImageOrderFree | worker/util.py:26-28 | the hashed string is the same for any order of the config entries |
| Util.GetHashOrderFree | worker/util.py:25-29 | reordering the entries of `config` never changes the id, for any digest function |
| Util.PreImageShape | worker/util.py:27-28 | the hashed string is exactly the service id followed by the pieces in sorted order, concatenated with no separator |
| Util.PieceBoundaryCollision | worker/util.py:26-29 | for all inputs: configs whose pieces agree as a multiset get the same id, even when the entries differ, e.g. `{"ab": "c"}` and `{"a": "bc"}` |
| Util.SplitEntryCollision | worker/util.py:26-29 | any two single-entry configs with `k1 + v1 == k2 + v2` get the same id |
| Lex.Insert | worker/util.py:27 | inserting into a sorted list gives a sorted list with exactly one more occurrence of the element |
| Lex.Sort | worker/util.py:27 | `list.sort()` on strings: the result is in code-point order and is a permutation of the input |
| Lex.SortedUnique | worker/util.py:27 | two sorted arrangements of the same multiset of strings are equal, so the sorted list is determined by its elements |
| Lex.SortOrderFree | worker/util.py:27 | sorting gives the same list for any order of its input |
| Db.Lookup | worker/handlers/db.py:37-43 | `get` succeeds iff the physical key is stored with a non-empty value, returns that value, and otherwise raises `KeyError(key)` |
| Db.Suffixes | worker/handlers/db.py:50-54 | the keys of a namespace are exactly the `k` such that prefix + `k` is a stored physical key |
| Db.KeyListUnique | worker/handlers/db.py:50-54 | two strictly increasing key lists with the same elements are equal, so `list_keys` is determined by the stored keys |
| Db.GetAfterPut | worker/handlers/db.py:32-43 | after `put(ns, k, v)` with non-empty `v`, `get(ns, k)` returns `v` |
| Db.GetAfterEmptyPut | worker/handlers/db.py:40-42 | after a `put` of the empty value, `get` raises `KeyError` |
| Db.GetAfterDelete | worker/handlers/db.py:45-48 | after `delete(ns, k)`, `get(ns, k)` raises `KeyError`, and every other physical key keeps its presence and value |
| Db.SeparateKeysDiffer | worker/handlers/db.py:32-35 | no key of a namespace is a physical key of a namespace whose prefix neither extends nor is extended by it |
| Db.WriteKeepsSeparateNamespace | worker/handlers/db.py:32-54 | a put or delete under one namespace changes neither the key list nor any `get` of a separate namespace |
| Db.CodeNamespacesSeparate | worker/handlers/db.py:34 | the prefixes `weibull-`, `jobs-` and `models-` are pairwise separate |
| Db.Store.constructor | worker/handlers/db.py:28-30 | opening the store exposes what is already stored |
| Db.Store.Put | worker/handlers/db.py:32-35 | `put` changes physical key prefix + key to the value and nothing else |
| Db.Store.Get | worker/handlers/db.py:37-43 | `get` answers as `Lookup` says: the non-empty stored value, or `KeyError` |
| Db.Store.Delete | worker/handlers/db.py:45-48 | `delete` removes physical key prefix + key, present or not, and nothing else |
| Db.Store.ListKeys | worker/handlers/db.py:50-54 | `list_keys` returns exactly the namespace's keys, each once, in strictly increasing order |
| DataCache.CheckMetadata | worker/handlers/data.py:54-61 | metadata is accepted iff the response is ok and its checksum is non-empty; a non-ok status raises that status, a missing checksum raises "no data" |
| DataCache.Download | worker/handlers/data.py:78-92 | `__get_data` as a function of the per-file outcomes: the error raised, if any, and how many files are requested (never more than the manifest); when it raises is stated by the next row |
| DataCache.DownloadRaisesOnSixthFailure | worker/handlers/data.py:78-92 | with one counter shared by all files, the download raises iff more than five files fail; it then stops at the sixth failed file and raises its status, and otherwise requests every file |
| DataCache.Confirm | worker/handlers/data.py:97-104 | the mismatch loop makes at most four more metadata requests, and a success carries a checksum equal to the one computed locally |
| DataCache.NewFetch | worker/handlers/data.py:94-104 | `__get_new`: one metadata request, then `Retrieval`; its outcome, requests and writes are what the two lemmas below state |
| DataCache.Retrieval | worker/handlers/data.py:96-104 | the download of the first metadata's manifest, then the mismatch loop `Confirm` over the checksum of the downloaded bytes |
| DataCache.NewFetchRequests | worker/handlers/data.py:94-104 | a full refresh sends one metadata request, then requests a prefix of the manifest (each file once, in manifest order, never again), then at most four metadata requests: at most five in all |
| DataCache.NewFetchChecksum | worker/handlers/data.py:94-104 | a refresh that succeeds returns the checksum computed locally over the bytes downloaded for the first metadata's manifest |
| DataCache.RefreshReturnsLastManifest | worker/handlers/data.py:96-104 | when the second metadata's checksum matches the download of the first one's files, the refresh answers the second manifest, while only the first one's files were written |
| DataCache.RefreshAnswersUndownloadedFile | worker/handlers/data.py:96-104 | an instance: first manifest `["a"]` with a stale checksum, second `["b"]`; the answer names `b`, and only `a` was written |
| DataCache.Serve | worker/handlers/data.py:109-128 | a successful `get` returns the item's new fill; a `get` that raises leaves the item as it was and removes no file |
| DataCache.Recheck | worker/handlers/data.py:117-127 | the stale branch of `get`: a successful recheck leaves the item filled with its answer and `created` renewed to now; one that raises leaves the item as it was and removes no file (each branch is spelled out by `ServeStaleUnchanged` and `ServeStaleChanged`) |
| DataCache.ServeFresh | worker/handlers/data.py:115-128 | an item with files and age at most `max_age` is returned with no remote request and no change |
| DataCache.ServeUnfilled | worker/handlers/data.py:106-116 | an item with no files gets a full refresh that leaves `created` alone; if the refresh raises, files, checksum and time field are unchanged |
| DataCache.ServeStaleUnchanged | worker/handlers/data.py:117-127 | past `max_age` with an unchanged metadata checksum, files and checksum are kept, only `created` is reset, and the one request made is for metadata |
| DataCache.ServeStaleChanged | worker/handlers/data.py:117-127 | past `max_age` with a changed checksum, a successful refresh replaces the fill and resets `created`, then every old file name is removed, including one the new manifest reuses |
| DataCache.ServeErrorKeepsItem | worker/handlers/data.py:109-128 | a `get` that raises leaves the item's fill and `created` untouched and removes no file |
| DataCache.ServeRequests | worker/handlers/data.py:109-128 | whatever branch it takes, one `get` makes at most six metadata requests |
| DataCache.StaleKeys | worker/handlers/data.py:136-138 | the sweep selects, in dict order and each once, exactly the entries that are unlocked and older than `max_age` |
| DataCache.FilledPrefix | worker/handlers/data.py:139-140 | the deletion loop gets through exactly the leading selected entries that have a file list, and stops at the first that has none |
| DataCache.Evicted | worker/handlers/data.py:136-145 | a sweep pass evicts only entries that are in the dict, unlocked, older than `max_age` and filled |
| DataCache.EvictsExactlyStale | worker/handlers/data.py:136-145 | when every stale entry has been filled, a sweep pass evicts exactly the unlocked entries older than `max_age` |
| DataCache.UnfilledStaleBlocksLater | worker/handlers/data.py:136-147 | a stale entry that was never filled ends the pass, and it and every stale entry after it stay cached |
| DataCache.CacheItem.constructor | worker/handlers/data.py:34-40 | a new item has no files and is stamped with the current time |
| DataCache.Data.constructor | worker/handlers/data.py:46-52 | a new cache is empty and has sent no request |
| DataCache.Data.GetMetadata | worker/handlers/data.py:54-61 | `get_metadata` sends one metadata request and answers as `CheckMetadata` says |
| DataCache.Data.GetChunk | worker/handlers/data.py:63-76 | `__get_chunk` sends one file request, and the file is written iff it is served |
| DataCache.Data.GetData | worker/handlers/data.py:78-92 | `__get_data` raises the sixth failure's status, or returns the digest of the served files' bytes in manifest order; it requests exactly the files `Download` reaches, once each in order, and writes the served ones |
| DataCache.Data.GetNew | worker/handlers/data.py:94-104 | `__get_new` answers, requests and writes exactly what `NewFetch` says |
| DataCache.Data.Retrieve | worker/handlers/data.py:96-104 | the download and then the mismatch loop, as `Retrieval` says |
| DataCache.Data.Reconcile | worker/handlers/data.py:97-104 | while the checksums differ, only the metadata is requested again, at most four times, as `Confirm` says |
| DataCache.Data.RemoveFiles | worker/handlers/data.py:122-126 | the named files are removed, and a missing one is skipped |
| DataCache.Data.Get | worker/handlers/data.py:109-128 | `get` creates the item if missing (it stays even when the fetch raises), answers and updates the item, requests and files as `Serve` says, and changes no other item |
| DataCache.Data.Entry | worker/handlers/data.py:110-113 | the item under the source id, created with no files and stamped now, and appended to the dict if missing |
| DataCache.Data.RefreshItem | worker/handlers/data.py:106-107 | the refresh's files, checksum and time field are assigned together only when `__get_new` returns; `created` is left alone |
| DataCache.Data.ServeItem | worker/handlers/data.py:114-128 | the locked part of `get`: result, item, requests and files as `Serve` says |
| DataCache.Data.ServeStale | worker/handlers/data.py:117-127 | the result, the item, the requests and the disk are as `Recheck` says |
| DataCache.Data.Replace | worker/handlers/data.py:119-126 | the refresh after a changed checksum: the result and requests are `NewFetch`'s; on success the item gets the new fill and the old file names are removed from the disk; on an error the item and its files are kept; `created` is left to the caller |
| DataCache.Data.Sweep | worker/handlers/data.py:135-147 | one sweep pass drops exactly the entries `Evicted` names, keeps the others in order, and removes exactly their files |
| DataCache.Data.Evict | worker/handlers/data.py:139-145 | one deletion step removes the entry's files and then its key, and changes nothing else |
| DataCache.Data.CollectStale | worker/handlers/data.py:136-138 | the selection loop returns `StaleKeys` of the dict in its order |
| DataCache.Data.PurgeCache | worker/handlers/data.py:150-155 | `purge_cache` leaves the storage directory empty |
| JobsHandler.FirstOwned | worker/handlers/jobs.py:91-94 | the search returns a pooled job that targets the entity, or none when no pooled job does |
| JobsHandler.Creation | worker/handlers/jobs.py:90-103 | `create(w)` on the bookkeeping: the first pooled job for `w` unchanged, or a new id appended to the pool order and the queue (see the lemmas below) |
| JobsHandler.Dispatched | worker/handlers/jobs.py:114-125 | the dispatch half leaves the job pool alone and adds a worker only when fewer than `max_jobs` are running |
| JobsHandler.Reaped | worker/handlers/jobs.py:128-131 | the reap half: the jobs whose worker is done leave the pool order, the pool and the worker pool; the queue is kept (see `ReapExactlyDone`) |
| JobsHandler.CreationFindsExisting | worker/handlers/jobs.py:91-94 | `create(w)` with a pooled job for `w` returns that job's id and changes neither pool nor queue |
| JobsHandler.CreationAddsOne | worker/handlers/jobs.py:95-103 | otherwise `create(w)` adds exactly one job under the new id, at the end of the pool and of the queue |
| JobsHandler.CreationPreserves | worker/handlers/jobs.py:90-103 | `create` keeps the invariant: at most one pooled job per entity, every queued id pooled and without a worker |
| JobsHandler.CreationIdempotent | worker/handlers/jobs.py:90-103 | creating the same entity twice returns the first id, and the second call changes nothing |
| JobsHandler.DispatchOnlyBelowLimit | worker/handlers/jobs.py:114-123 | a worker is added iff there are fewer than `max_jobs` and a job is queued; it is the oldest queued job's, and the job pool does not change |
| JobsHandler.DispatchPreserves | worker/handlers/jobs.py:114-123 | dispatch keeps the invariant, so the worker pool never exceeds `max_jobs` |
| JobsHandler.ReapExactlyDone | worker/handlers/jobs.py:128-131 | reaping removes a job from both pools iff its worker is done, and keeps every other job, worker and queued id |
| JobsHandler.ReapPreserves | worker/handlers/jobs.py:128-131 | reaping keeps the invariant |
| JobsHandler.ConfigValue | worker/handlers/jobs.py:54-65 | `config[key]` gives a value stored under that key, or `KeyError` when no entry has that key |
| JobsHandler.Readable | worker/handlers/jobs.py:50 | reading the entity succeeds iff a non-empty entity record is stored; a missing record raises `KeyError` |
| JobsHandler.Finish | worker/handlers/jobs.py:51-67 | the run succeeds iff the data, both config values and the fit succeed; the entity then keeps its id, service and config and gets the result, the cache's checksum and the completion time; each failure has its own reason |
| JobsHandler.Persist | worker/handlers/jobs.py:68-75 | the store after a run: the entity put under `weibull-` on success only, then the job record put under `jobs-` (see `PersistRecordsJob`) |
| JobsHandler.PersistRecordsJob | worker/handlers/jobs.py:68-75 | after a run the job record reads back under `jobs-`, an entity changes only on success and only under its own id, and the `models-` keys never change |
| JobsHandler.CreateHolds | worker/handlers/jobs.py:95-103 | pooling and queueing a new job under the next uuid keeps the invariant of `Jobs`, and the bookkeeping follows `Creation` |
| JobsHandler.DispatchHolds | worker/handlers/jobs.py:114-123 | giving the oldest queued job a worker keeps the invariant of `Jobs`, and the bookkeeping follows `Dispatched` |
| JobsHandler.ReapHolds | worker/handlers/jobs.py:128-131 | removing jobs whose workers are done keeps the invariant of `Jobs`, and the bookkeeping follows `Reaped` |
| JobsHandler.Collect | worker/handlers/jobs.py:128-131 | the loop over the worker pool's keys deletes exactly the done workers' entries from the worker pool, the job pool and the pool's key order |
| JobsHandler.Job.constructor | worker/handlers/jobs.py:95-99 | a new job carries its id, entity and creation time, is pending, and has no reason |
| JobsHandler.Job.Start | worker/handlers/jobs.py:49 | the job's status becomes running and its reason is kept |
| JobsHandler.Worker.constructor | worker/handlers/jobs.py:39-44 | a new worker holds its job, store and cache, and is not done |
| JobsHandler.Worker.Run | worker/handlers/jobs.py:46-76 | the job ends `finished` iff every step succeeded, otherwise `failed` with the reason; the entity is stored only on success, the job record always, and then the worker is done; the cache changes as one `get` does (its item, requests, files, dict order, and no other entry), or not at all if the entity cannot be read |
| JobsHandler.Worker.Conclude | worker/handlers/jobs.py:68-76 | on success the entity is stored and the job finished, otherwise the job failed with the reason; then the job record is stored and the worker is done |
| JobsHandler.Worker.Attempt | worker/handlers/jobs.py:50-67 | a missing or unreadable entity fails the job without touching the cache; otherwise the outcome is `Finish` of the cache's answer, and the cache changes as that one `get` does, no other entry included |
| JobsHandler.Worker.Compute | worker/handlers/jobs.py:51-67 | the outcome is `Finish` of what one `get` of the cache answers; the cache changes as that `get` does: the served item, the requests and files, the dict order (the source appended only if new), and no other entry |
| JobsHandler.Jobs.constructor | worker/handlers/jobs.py:80-88 | empty job pool, queue and worker pool, and the invariant holds |
| JobsHandler.Jobs.Create | worker/handlers/jobs.py:90-103 | `create` returns the pooled job for the entity if there is one, else a fresh pending job under a uuid never used before, pooled and queued as `Creation` says; old jobs and workers are kept and the invariant holds |
| JobsHandler.Jobs.Add | worker/handlers/jobs.py:95-103 | a new pending job under the next uuid, not pooled before, stamped now, added to the pool and the queue |
| JobsHandler.Jobs.Find | worker/handlers/jobs.py:91-94 | the loop over the pool returns the first job, in pool order, that targets the entity |
| JobsHandler.Jobs.GetJob | worker/handlers/jobs.py:105-106 | `get_job` returns the pooled job, and raises `KeyError` iff the id is not pooled |
| JobsHandler.Jobs.ListJobs | worker/handlers/jobs.py:108-109 | `list_jobs` returns the pool's ids in insertion order: exactly the pooled ids, each once |
| JobsHandler.Jobs.Step | worker/handlers/jobs.py:111-131 | one pass of `Jobs.run` is dispatch then reap, as `Reaped(Dispatched(...))` says, and keeps the invariant; every job left is the same object as before, every old worker left is the same object, a new worker is fresh, holds its pooled job and is not done, and no worker left is done |
| JobsHandler.Jobs.Dispatch | worker/handlers/jobs.py:114-125 | below `max_jobs`, the oldest queued job gets a new worker that is not done; otherwise nothing changes |
| JobsHandler.Jobs.Reap | worker/handlers/jobs.py:128-131 | every job whose worker is done leaves both pools; every other entry is kept unchanged, and no worker left is one of the done ones |
| Scheduling.CreationStep | worker/handlers/scheduler.py:43 | one `create` keeps the invariant and every pooled job, and pools a job for the key |
| Scheduling.CreateAll | worker/handlers/scheduler.py:41-43 | `create` for each listed key in order, drawing new ids from the uuid stream (its properties are the three lemmas below) |
| Scheduling.CreateAllPreserves | worker/handlers/scheduler.py:41-43 | a pass keeps the invariant (so no entity has two pooled jobs), never removes or retargets a pooled job or touches the workers, and pools a job for every listed key and nothing else |
| Scheduling.CreateAllKnown | worker/handlers/scheduler.py:41-43 | a pass over keys that all have pooled jobs changes nothing and draws no id |
| Scheduling.CreateAllIdempotent | worker/handlers/scheduler.py:36-47 | a second pass over the same keys with no reap in between creates nothing |
| Scheduling.Scheduler.constructor | worker/handlers/scheduler.py:30-34 | the scheduler holds the job handler and the store |
| Scheduling.Scheduler.Pass | worker/handlers/scheduler.py:36-47 | one pass lists the `models-` keys and calls `create` once for each, in listing order, as `CreateAll` says; the store is only read, the worker pool is unchanged and every existing job entry is kept |
| Api.AdmissionOutcomes | worker/api.py:54-68 | both outcomes answer the entity's id; 200 with no write iff a non-empty record is stored under that id; otherwise 201, the new record reads back, and no other key changes |
| Api.AdmissionRepeat | worker/api.py:58-68 | repeating an identical request answers 200 with the first answer's id and writes nothing |
| Api.AdmissionOrderFree | worker/api.py:57-58 | requests whose configs hold the same entries in another order get the same answer |
| Api.Admission | worker/api.py:57-68 | create-or-get on a well-formed request: the id is `get_hash`; a stored record answers 200 and writes nothing, otherwise the new record is put and 201 (see `AdmissionOutcomes`) |
| Api.CreateOrGet | worker/api.py:54-71 | a malformed body answers 500 and changes nothing; otherwise the answer and store are as `Admission` says, and `create` is called for the new id only on 201; the worker pool is unchanged and every existing job entry is kept |
| Api.EntityFound | worker/api.py:78-89 | the entity lookup answers 404 iff the record is absent or empty, and otherwise 200 with the stored value |
| Api.EntityResponse | worker/api.py:78-89 | the entity lookup: the stored record with 200, or 404 when `get` raises (see `EntityFound`) |
| Api.EntityAfterAdmission | worker/api.py:60-66 | after a 201 the new entity can be read back |
| Api.EntityAfterDelete | worker/api.py:91-98 | after a delete, the entity lookup answers 404 |
| Api.DeleteEntity | worker/api.py:91-98 | delete removes the record, present or not, and answers 200 |
| Api.ListEntities | worker/api.py:44-52 | the entity list is exactly the stored entity ids, each once, in key order |
| Api.JobLookupOrder | worker/api.py:138-152 | the job lookup answers 404 iff the job is neither active nor stored; an active job is answered from the pool whatever the store holds |
| Api.JobLookup | worker/api.py:138-152 | the job lookup: the active job, else the `jobs-` record, else 404 (see `JobLookupOrder`) |
| Api.JobFoundAfterReap | worker/api.py:142-146 | a job whose worker stored its record is still found after it left the active pool, with the stored record |
| Api.GetJob | worker/api.py:138-152 | `Job.on_get` asks the active pool first, then the `jobs-` store, then answers 404 |
| Api.ListJobs | worker/api.py:117-130 | `current` is the active job ids in pool insertion order, and `history` is exactly the `jobs-` keys in key order |
| Api.PostJob | worker/api.py:106-115 | `create` for the posted entity id answers 200 with the job id, with the pool and the drawn uuid count as `Creation` says; a body without `weibull_id` answers 500 and changes nothing; the worker pool is unchanged and every existing job entry is kept |

## Left out

- Threads, locks and sleeps. Each loop iteration of `Data.run`, `Jobs.run` and `Scheduler.run` is one sequential step. `check_delay`, `time.sleep` and the queue timeout are not modelled. The per-item lock is not modelled, and the sweep is told which items are locked.
- The network, the filesystem and time:
  - requests to the data service come from an oracle;
  - cached files are a set of names, and failed removals are ignored;
  - time is an integer parameter.
- SHA-256, `uuid.uuid4()` and the Weibull fit (`weibull.generate_weibull`, `df_from_csv`) are parameters. The properties hold for every choice of them.
- `Decompress` (worker/util.py:32-49) and the `compressed` flag are not modelled. Neither is the 64 KiB chunk size: a file's streamed bytes are one value, and a partial write of a file that fails mid-stream is not modelled.
- JSON and Falcon routing. Store values are a datatype rather than serialised bytes. A body that fails to parse, or lacks a field, is `None`. Storage exceptions, and the 500s they would give, are not modelled.
- `st_path` joining and `DB.close` are not modelled.
- Util.Pieces: a config value is taken to be text already. `"{}{}".format(key, val)` (worker/util.py:26) also turns numbers, booleans and nested JSON values into text; that conversion is not modelled.
- DataCache.Data.Get: returns the file names, not `os.path.join(st_path, file)` paths.
- JobsHandler.ConfigValue: a config is a list of entries, and the value of its first entry with the key is taken. For a dict, whose keys are unique, this is the only entry.
- JobsHandler.Jobs.Step: the new worker is not started here. Its run is `Worker.Run`, which the environment calls.
- JobsHandler.Jobs.Find: requires every key of the pool's order to be pooled, which the invariant of `Jobs` guarantees. Python iterates the dict's values directly.
- Scheduling.Scheduler.Pass: in the model `create` cannot raise, so the per-key `except` at worker/handlers/scheduler.py:44-45 never runs. "A failing `create` does not stop the pass" therefore holds trivially.
- `app.py` and `worker/configuration.py` only wire and configure, and are not part of this model.
