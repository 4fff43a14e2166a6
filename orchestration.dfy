/**
 * The submit handler's effect, stated as a function of the state it starts
 * from and of what each of its three network steps comes back with.
 */
module Orchestration {
  import opened Wrappers
  import opened JsValue
  import opened JsString
  import opened Extraction

  /**
   * What one `fetch` step comes back with: a rejected promise (a network
   * error, or a body `response.json()` cannot parse), a response whose `ok`
   * is false, or an ok response and its parsed body.
   */
  datatype FetchOutcome =
    | Rejected(message: string)
    | NotOk(statusText: string)
    | OkJson(body: Json)

  /** The component's seven state fields; `error == None` is `null`. */
  datatype View = View(
    tiktokUrl: string,
    jobId: Json,
    frames: seq<Json>,
    transcript: Json,
    loading: bool,
    transcriptLoading: bool,
    error: Option<string>)

  /** The state `useState` starts the component in. */
  const Initial: View := View("", Null, [], Null, false, false, None)

  /** A POST the handler sends, with the value it puts in the request body. */
  datatype Request =
    | PostIngest(tiktokUrl: string)
    | PostFrames(jobId: Json)
    | PostTranscribe(jobId: Json)

  /** A request and the state the component shows while it is in flight. */
  datatype Call = Call(request: Request, during: View)

  /** The requests one submission sends, in order, and the state it leaves. */
  datatype Trace = Trace(calls: seq<Call>, after: View)

  /** The state a submission that passed validation resets to before ingest. */
  function Cleared(v: View): (r: View)
    ensures r.tiktokUrl == v.tiktokUrl
    ensures r.loading && !r.transcriptLoading && r.error == None
    ensures r.jobId == Null && r.frames == [] && r.transcript == Null
  {
    v.(loading := true, transcriptLoading := false, error := None,
       jobId := Null, frames := [], transcript := Null)
  }

  /**
   * The hard step: the job id, or the message of the error that aborts the
   * submission (a rejected fetch, a non-ok status, a `null` body, no alias).
   */
  function IngestResult(ingest: FetchOutcome): (r: Result<Json, string>)
    ensures r.Success? ==> Truthy(r.value)
    ensures ingest.Rejected? ==> r == Failure(ingest.message)
    ensures ingest.NotOk? ==> r == Failure(IngestFailedMessage(ingest.statusText))
    ensures ingest.OkJson? && ReceivedJobId(ingest.body).Failure? ==> r == ReceivedJobId(ingest.body)
    ensures ingest == OkJson(Null) ==> r == Failure(NullAccessMessage("null", "job_id"))
    ensures ingest.OkJson? && ReceivedJobId(ingest.body).Success? ==>
      if Truthy(ReceivedJobId(ingest.body).value) then r == ReceivedJobId(ingest.body)
      else r == Failure(NoJobIdMessage)
  {
    match ingest
    case Rejected(message) => Failure(message)
    case NotOk(statusText) => Failure(IngestFailedMessage(statusText))
    case OkJson(body) =>
      match ReceivedJobId(body)
      case Failure(message) => Failure(message)
      case Success(id) => if Truthy(id) then Success(id) else Failure(NoJobIdMessage)
  }

  /** The frame list after the soft frames step: empty whenever that step fails. */
  function FramesAfter(frames: FetchOutcome): (r: seq<Json>)
    ensures !frames.OkJson? ==> r == []
    ensures frames.OkJson? && frames.body == Null ==> r == []
    ensures frames.OkJson? && FrameList(frames.body).Success? ==> r == FrameList(frames.body).value
  {
    match frames
    case OkJson(body) =>
      (match FrameList(body)
       case Success(urls) => urls
       case Failure(_) => [])
    case _ => []
  }

  /** The transcript after the soft transcribe step: `null` whenever that step fails. */
  function TranscriptAfter(transcribe: FetchOutcome): (r: Json)
    ensures !transcribe.OkJson? ==> r == Null
    ensures transcribe.OkJson? ==> r == TranscriptValue(transcribe.body)
  {
    if transcribe.OkJson? then TranscriptValue(transcribe.body) else Null
  }

  /**
   * One submission from state `before`. A blank URL only sets the validation
   * error. Otherwise the state is cleared, ingest is sent with the trimmed URL
   * and, when it yields a job id, frames and then transcribe are sent with it;
   * `loading` is cleared at the end, and `transcriptLoading` is set only while
   * transcribe is in flight.
   */
  function Run(before: View, ingest: FetchOutcome, frames: FetchOutcome, transcribe: FetchOutcome): (t: Trace)
    // the handler never edits the input field
    ensures t.after.tiktokUrl == before.tiktokUrl
    // validation: nothing is sent and nothing but `error` changes
    ensures Trim(before.tiktokUrl) == [] ==>
      t.calls == [] && t.after == before.(error := Some(EmptyUrlMessage))
    // a validated submission first sends ingest, with the trimmed URL, from the cleared state
    ensures Trim(before.tiktokUrl) != [] ==>
      1 <= |t.calls| && t.calls[0] == Call(PostIngest(Trim(before.tiktokUrl)), Cleared(before))
    // both flags are false on every exit of a validated submission
    ensures Trim(before.tiktokUrl) != [] ==> !t.after.loading && !t.after.transcriptLoading
    // a hard failure: only ingest is sent, its message is shown, the results keep their reset values
    ensures Trim(before.tiktokUrl) != [] && IngestResult(ingest).Failure? ==>
      && |t.calls| == 1
      && t.after == Cleared(before).(loading := false, error := Some(ErrorText(IngestResult(ingest).error)))
    // success of ingest: frames and then transcribe are sent with the job id; no error is shown
    ensures Trim(before.tiktokUrl) != [] && IngestResult(ingest).Success? ==>
      var id := IngestResult(ingest).value;
      && |t.calls| == 3
      && t.calls[1] == Call(PostFrames(id), Cleared(before).(jobId := id))
      && t.calls[2].request == PostTranscribe(id)
      && t.calls[2].during.transcriptLoading
      && t.calls[2].during.loading
      && t.calls[2].during.frames == t.after.frames
      && t.after.error == None
      && t.after.jobId == id
      && t.after.frames == FramesAfter(frames)
      && t.after.transcript == TranscriptAfter(transcribe)
  {
    var url := Trim(before.tiktokUrl);
    if url == [] then
      Trace([], before.(error := Some(EmptyUrlMessage)))
    else
      var cleared := Cleared(before);
      var ingestCall := Call(PostIngest(url), cleared);
      match IngestResult(ingest)
      case Failure(message) =>
        Trace([ingestCall], cleared.(loading := false, error := Some(ErrorText(message))))
      case Success(id) =>
        var withId := cleared.(jobId := id);
        var withFrames := withId.(frames := FramesAfter(frames), transcriptLoading := true);
        var done := withFrames.(transcript := TranscriptAfter(transcribe), transcriptLoading := false, loading := false);
        Trace([ingestCall, Call(PostFrames(id), withId), Call(PostTranscribe(id), withFrames)], done)
  }

  /** `Run` on a blank URL. */
  lemma RunOnBlank(before: View, ingest: FetchOutcome, frames: FetchOutcome, transcribe: FetchOutcome)
    requires Trim(before.tiktokUrl) == []
    ensures Run(before, ingest, frames, transcribe) == Trace([], before.(error := Some(EmptyUrlMessage)))
  {
  }

  /** `Run` on a validated submission whose ingest step fails. */
  lemma RunOnHardFailure(before: View, ingest: FetchOutcome, frames: FetchOutcome, transcribe: FetchOutcome)
    requires Trim(before.tiktokUrl) != [] && IngestResult(ingest).Failure?
    ensures Run(before, ingest, frames, transcribe) == Trace(
      [Call(PostIngest(Trim(before.tiktokUrl)), Cleared(before))],
      Cleared(before).(loading := false, error := Some(ErrorText(IngestResult(ingest).error))))
  {
  }

  /** `Run` on a validated submission whose ingest step yields a job id. */
  lemma RunOnIngestSuccess(before: View, ingest: FetchOutcome, frames: FetchOutcome, transcribe: FetchOutcome)
    requires Trim(before.tiktokUrl) != [] && IngestResult(ingest).Success?
    ensures var id := IngestResult(ingest).value;
      var withId := Cleared(before).(jobId := id);
      var withFrames := withId.(frames := FramesAfter(frames), transcriptLoading := true);
      Run(before, ingest, frames, transcribe) == Trace(
        [Call(PostIngest(Trim(before.tiktokUrl)), Cleared(before)),
         Call(PostFrames(id), withId), Call(PostTranscribe(id), withFrames)],
        withFrames.(transcript := TranscriptAfter(transcribe), transcriptLoading := false, loading := false))
  {
  }

  /** A validated submission is sent in full only when the URL has a non-whitespace character. */
  lemma SubmissionSendsIffNotBlank(before: View, ingest: FetchOutcome, frames: FetchOutcome, transcribe: FetchOutcome)
    ensures Run(before, ingest, frames, transcribe).calls != [] <==> !Blank(before.tiktokUrl)
  {
    TrimEmptyIffBlank(before.tiktokUrl);
  }

  /** A non-ok ingest response is shown as "Ingest failed: <statusText>"; `jobId` stays `null`. */
  lemma IngestNotOkIsHardFailure(before: View, statusText: string, frames: FetchOutcome, transcribe: FetchOutcome)
    requires Trim(before.tiktokUrl) != []
    ensures var t := Run(before, NotOk(statusText), frames, transcribe);
      && |t.calls| == 1 && t.calls[0].request.PostIngest?
      && t.after.error == Some("Ingest failed: " + statusText)
      && t.after.jobId == Null && t.after.frames == [] && t.after.transcript == Null
  {
  }

  /** An ok ingest body with no truthy alias is shown as the missing-identifier error. */
  lemma MissingJobIdIsHardFailure(before: View, body: Json, frames: FetchOutcome, transcribe: FetchOutcome)
    requires Trim(before.tiktokUrl) != []
    requires body != Null && body != Undefined
    requires !Truthy(Member(body, "job_id")) && !Truthy(Member(body, "jobId")) && !Truthy(Member(body, "id"))
    ensures var t := Run(before, OkJson(body), frames, transcribe);
      && |t.calls| == 1
      && t.after.error == Some(NoJobIdMessage)
      && t.after.jobId == Null && t.after.frames == [] && t.after.transcript == Null
  {
  }

  /** The job id kept is the first truthy alias among `job_id`, `jobId` and `id`. */
  lemma JobIdPriority(before: View, body: Json, frames: FetchOutcome, transcribe: FetchOutcome)
    requires Trim(before.tiktokUrl) != []
    requires body.Obj?
    ensures var t := Run(before, OkJson(body), frames, transcribe);
      var a, b, c := Member(body, "job_id"), Member(body, "jobId"), Member(body, "id");
      && (Truthy(a) ==> t.after.jobId == a)
      && (!Truthy(a) && Truthy(b) ==> t.after.jobId == b)
      && (!Truthy(a) && !Truthy(b) && Truthy(c) ==> t.after.jobId == c)
  {
  }

  /** A failed frames step leaves no frames and no error, and transcribe is still sent. */
  lemma FramesFailureIsSoft(before: View, ingest: FetchOutcome, frames: FetchOutcome, transcribe: FetchOutcome)
    requires Trim(before.tiktokUrl) != [] && IngestResult(ingest).Success?
    requires frames.Rejected? || frames.NotOk? || frames == OkJson(Null)
    ensures var t := Run(before, ingest, frames, transcribe);
      && t.after.frames == [] && t.after.error == None
      && |t.calls| == 3 && t.calls[2].request == PostTranscribe(IngestResult(ingest).value)
      && t.after.transcript == TranscriptAfter(transcribe)
  {
  }

  /** A failed transcribe step leaves the transcript `null` and sets no error. */
  lemma TranscribeFailureIsSoft(before: View, ingest: FetchOutcome, frames: FetchOutcome, transcribe: FetchOutcome)
    requires Trim(before.tiktokUrl) != [] && IngestResult(ingest).Success?
    requires transcribe.Rejected? || transcribe.NotOk?
    ensures var t := Run(before, ingest, frames, transcribe);
      t.after.transcript == Null && t.after.error == None && !t.after.transcriptLoading
  {
  }

  /** A validated submission never leaves a falsy transcript other than `null`. */
  lemma TranscriptNullOrTruthy(before: View, ingest: FetchOutcome, frames: FetchOutcome, transcribe: FetchOutcome)
    requires Trim(before.tiktokUrl) != []
    ensures var after := Run(before, ingest, frames, transcribe).after;
      after.transcript == Null || Truthy(after.transcript)
  {
  }

  /**
   * Nothing of an earlier submission survives a validated one: the outcome
   * depends on the URL and the three step outcomes only.
   */
  lemma ValidatedRunForgetsPreviousState(b1: View, b2: View, ingest: FetchOutcome, frames: FetchOutcome, transcribe: FetchOutcome)
    requires b1.tiktokUrl == b2.tiktokUrl && Trim(b1.tiktokUrl) != []
    ensures Run(b1, ingest, frames, transcribe) == Run(b2, ingest, frames, transcribe)
  {
  }

  /** Submitting a blank URL twice is the same as submitting it once. */
  lemma BlankRunIdempotent(before: View, ingest: FetchOutcome, frames: FetchOutcome, transcribe: FetchOutcome)
    requires Trim(before.tiktokUrl) == []
    ensures var once := Run(before, ingest, frames, transcribe).after;
      Run(once, ingest, frames, transcribe).after == once
  {
  }
}
