/** One iteration of a `worker` task: take the job at the head of the
    queue, derive the file name and caption to upload with, run the
    transfer (whose result the client library decides) and report. The job
    is consumed whatever happens; nothing is put back. */
module Worker {
  import opened Model

  /** The name used when the attachment has none. */
  const FallbackName: string := "file.bin"

  /** What Python reports when the message has no attachment and
      `media.file_name` is read from `None`. */
  const NoMediaError: string := "'NoneType' object has no attribute 'file_name'"

  /** `media.file_name or "file.bin"`: an absent or empty name falls back. */
  function OriginalName(media: Media): (r: string)
    ensures r != ""
    ensures media.fileName.Some? && media.fileName.value != "" ==> r == media.fileName.value
    ensures media.fileName.None? || media.fileName.value == "" ==> r == FallbackName
  {
    match media.fileName
    case Some(name) => if name != "" then name else FallbackName
    case None => FallbackName
  }

  /** `new_name if new_name else original_name`: a non-empty new name
      wins, else a non-empty attachment name, else the fallback. `None`
      when the message has no attachment, where reading the name raises;
      a name that exists is never empty. */
  function FinalName(job: Job): (r: Option<string>)
    ensures r.Some? <==> MediaOf(job.message).Some?
    ensures r.Some? ==> r.value != ""
    ensures job.newName.Some? && job.newName.value != "" && MediaOf(job.message).Some? ==>
      r == job.newName
    ensures (job.newName.None? || job.newName.value == "") && MediaOf(job.message).Some? ==>
      var media := MediaOf(job.message).value;
      r == Some(if media.fileName.Some? && media.fileName.value != "" then media.fileName.value else FallbackName)
  {
    match MediaOf(job.message)
    case None => None
    case Some(media) =>
      match job.newName
      case Some(name) => if name != "" then Some(name) else Some(OriginalName(media))
      case None => Some(OriginalName(media))
  }

  /** The result of the download-and-upload calls, decided by the client
      library: both succeeded, Telegram asked for a wait of `seconds`, or
      some other exception was raised with the given text. */
  datatype Transfer = Delivered | RateLimited(seconds: nat) | Raised(error: string)

  /** What the worker did with the job: completed it, slept out a flood
      wait without telling anyone, or replied with an error message. */
  datatype Outcome = Success | FloodWait(seconds: nat) | Failure(reply: string)

  /** The name and caption the upload is attempted with. */
  datatype Upload = Upload(fileName: string, caption: string)

  /** One consumed job: the upload plan (absent when the name could not be
      derived) and the outcome. */
  datatype Processed = Processed(job: Job, upload: Option<Upload>, outcome: Outcome)

  /** `caption if caption else ""`. */
  function UploadCaption(caption: string): (r: string)
    ensures r == caption
  {
    if caption != "" then caption else ""
  }

  /** The body of the `try` with its two handlers. A message without an
      attachment fails before any transfer is attempted. */
  function Execute(job: Job, io: Transfer): (p: Processed)
    ensures p.job == job
    ensures p.upload.Some? <==> FinalName(job).Some?
    ensures p.upload.Some? ==> p.upload.value == Upload(FinalName(job).value, job.caption)
    ensures p.outcome.Success? <==> io.Delivered? && p.upload.Some?
    ensures p.outcome.FloodWait? <==> io.RateLimited? && p.upload.Some?
    ensures p.outcome.FloodWait? ==> p.outcome.seconds == io.seconds
    ensures p.upload.None? ==> p.outcome == Failure("Error: " + NoMediaError)
    ensures p.upload.Some? && io.Raised? ==> p.outcome == Failure("Error: " + io.error)
  {
    match FinalName(job)
    case None => Processed(job, None, Failure("Error: " + NoMediaError))
    case Some(name) =>
      var plan := Upload(name, UploadCaption(job.caption));
      match io
      case Delivered => Processed(job, Some(plan), Success)
      case RateLimited(seconds) => Processed(job, Some(plan), FloodWait(seconds))
      case Raised(error) => Processed(job, Some(plan), Failure("Error: " + error))
  }

  /** A job taken off the queue, with what remains behind it. */
  datatype Dequeued = Dequeued(record: Processed, rest: seq<Job>)

  /** One turn of the `while True` loop. On an empty queue the worker
      blocks in `queue.get()`, modelled as no step. */
  function WorkerStep(queue: seq<Job>, io: Transfer): (r: Option<Dequeued>)
    ensures r.None? <==> queue == []
    ensures r.Some? ==> r.value.record.job == queue[0]
    ensures r.Some? ==> r.value.rest == queue[1..]
    ensures r.Some? ==> |r.value.rest| == |queue| - 1
  {
    if queue == [] then None
    else Some(Dequeued(Execute(queue[0], io), queue[1..]))
  }

  /** Whatever the transfer does, the head job is consumed and not put
      back: the queue behind it is exactly what was behind it before. */
  lemma NeverRequeued(queue: seq<Job>, io: Transfer)
    requires queue != []
    ensures var r := WorkerStep(queue, io);
            && r.Some?
            && [r.value.record.job] + r.value.rest == queue
  {
  }
}
