/** The data that crosses the boundary between the controller (background service worker)
    and the worker (offscreen document): the stored job record and the closed set of
    runtime messages. */
module Protocol {
  import opened Wrappers

  /** A job identity: a UUID string in the extension. */
  type JobId = string

  /** One byte of media data. */
  newtype byte = x: int | 0 <= x < 256

  datatype Status = Idle | Running | Canceled | Finished | Error

  /** What a finished job records about its output file; the file name may be absent. */
  datatype Output = Output(filename: Option<string>)

  /** The job record kept in extension storage. Fields the JavaScript object may lack are
      `None` (or empty) here; the idle placeholder lacks all of them. */
  datatype Job = Job(
    id: Option<JobId>,
    url: Option<string>,
    status: Status,
    progress: real,
    logTail: seq<string>,
    startedAt: Option<int>,
    endedAt: Option<int>,
    output: Option<Output>,
    error: Option<string>)

  /** The record the controller answers with when storage holds no job. */
  const IdleJob := Job(None, None, Idle, 0.0, [], None, None, None, None)

  /** The runtime messages of the extension. A job id of `None` is a JavaScript `null`,
      which the logger and ratio callbacks of the engine can send after a cancel. */
  datatype Msg =
    // popup -> controller
    | ConvertM4a(url: string)
    | JobCancel
    // controller -> worker
    | OffscreenConvert(jobId: JobId, url: string)
    | OffscreenCancel
    // worker -> controller
    | JobProgress(progressJobId: Option<JobId>, progress: real, log: string)
    | JobDone(jobId: JobId, ok: bool, savedAs: Option<string>, failure: Option<string>)
    | JobCanceled(jobId: JobId)
    | JobSaveStart(jobId: JobId, filename: string, mime: string)
    | JobSaveChunk(jobId: JobId, totalBytes: nat, chunk: seq<byte>)
    | JobSaveEnd(jobId: JobId)
    // controller -> popup
    | JobUpdate(job: Job)
    | UrlUpdate(url: string)
}
