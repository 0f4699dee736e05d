/** Records the handlers pass around (worker/models.py), with the fields as
    worker/handlers/jobs.py uses them: a job targets `weibull_id` (models.py
    declares `model_id`), and the entity record carries `data_checksum`
    (models.py does not declare it). */
module Models {
  import opened Results
  import Util

  newtype byte = x: int | 0 <= x < 256

  datatype JobStatus = Pending | Running | Finished | Failed | Aborted

  /** The Weibull entity record stored under `weibull-`. Timestamps are
      integers; `created` is `None` until a job completes. */
  datatype Weibull = Weibull(
    id: string,
    created: Option<int>,
    config: seq<Util.Entry>,
    result: Option<string>,
    serviceId: string,
    dataChecksum: Option<string>)

  /** Why a fetch from the remote data service failed. */
  datatype DataError =
    | HttpError(status: int)          // `RuntimeError(resp.status_code)`
    | NoData(sourceId: string)        // metadata without a checksum
    | ChecksumMismatch                // its message's `{}` is never filled in

  /** Why a job failed: the exception whose text becomes `job.reason`. */
  datatype Failure =
    | RecordMissing(key: string)      // `KeyError` from the store
    | RecordUnreadable                // the stored value is not an entity record
    | DataUnavailable(cause: DataError)
    | ConfigMissing(key: string)      // `KeyError` on `config[...]`
    | FitFailed(message: string)

  /** A job as `dict(job)` serialises it. */
  datatype JobRecord = JobRecord(
    id: string,
    created: int,
    status: JobStatus,
    weibullId: string,
    reason: Option<Failure>)

  /** A stored value. JSON is not modelled: records are stored as values, and
      `Text` stands for any other byte string (`Text("")` is the empty value). */
  datatype Doc = Text(text: string) | Entity(weibull: Weibull) | JobEntry(job: JobRecord)

  /** Python's `not value` on the bytes read back from the store. */
  predicate Empty(d: Doc)
  {
    d == Text("")
  }

  /** The part of the data service's metadata the cache uses. A missing
      checksum or time field is the empty string. */
  datatype MetaData = MetaData(checksum: string, timeField: string, files: seq<string>, compressed: bool)
}
