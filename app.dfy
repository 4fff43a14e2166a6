/**
 * The `App` component's state and its submit handler, written as the
 * handler runs: one state update after another, with the outer try/catch/
 * finally and the two inner best-effort try blocks.
 */
module AppComponent {
  import opened Wrappers
  import opened JsValue
  import opened JsString
  import opened Extraction
  import opened Orchestration

  class App {
    var tiktokUrl: string
    var jobId: Json
    var frames: seq<Json>
    var transcript: Json
    var loading: bool
    var transcriptLoading: bool
    var error: Option<string>
    /** The requests sent so far, each with the state shown while it was in flight. */
    ghost var calls: seq<Call>

    /** The seven state fields as one value. */
    function Snapshot(): View
      reads this
    {
      View(tiktokUrl, jobId, frames, transcript, loading, transcriptLoading, error)
    }

    /** The state `useState` gives a freshly mounted component. */
    constructor ()
      ensures Snapshot() == Initial && calls == []
    {
      tiktokUrl := "";
      jobId := Null;
      frames := [];
      transcript := Null;
      loading := false;
      transcriptLoading := false;
      error := None;
      calls := [];
    }

    /** The input's change handler: stores what the user typed. */
    method SetTiktokUrl(value: string)
      modifies this
      ensures Snapshot() == old(Snapshot()).(tiktokUrl := value)
      ensures calls == old(calls)
    {
      tiktokUrl := value;
    }

    /** The reset a validated submission starts with: busy, no error, no results. */
    method Reset()
      modifies this
      ensures Snapshot() == Cleared(old(Snapshot()))
      ensures calls == old(calls)
    {
      loading := true;
      transcriptLoading := false;
      error := None;
      jobId := Null;
      frames := [];
      transcript := Null;
    }

    /** Records that `request` is sent now, while the current state is shown. */
    method Send(request: Request)
      modifies this
      ensures Snapshot() == old(Snapshot())
      ensures calls == old(calls) + [Call(request, Snapshot())]
    {
      calls := calls + [Call(request, Snapshot())];
    }

    /**
     * The best-effort frames step: sends the job id and, on an ok response
     * whose body can be read, stores the frame list; every failure is swallowed.
     */
    method FetchFrames(id: Json, reply: FetchOutcome)
      requires frames == []
      modifies this
      ensures Snapshot() == old(Snapshot()).(frames := FramesAfter(reply))
      ensures calls == old(calls) + [Call(PostFrames(id), old(Snapshot()))]
    {
      Send(PostFrames(id));
      if reply.OkJson? {
        var urls := FrameList(reply.body);
        if urls.Success? {
          frames := urls.value;
        }
        // a TypeError from a `null` body is caught and only logged
      }
    }

    /**
     * The best-effort transcribe step: sends the job id and, on an ok
     * response, stores the body or `null`; every failure is swallowed.
     */
    method FetchTranscript(id: Json, reply: FetchOutcome)
      requires transcript == Null
      modifies this
      ensures Snapshot() == old(Snapshot()).(transcript := TranscriptAfter(reply))
      ensures calls == old(calls) + [Call(PostTranscribe(id), old(Snapshot()))]
    {
      Send(PostTranscribe(id));
      if reply.OkJson? {
        transcript := TranscriptValue(reply.body);
      }
    }

    /**
     * The ingest step inside the outer try: sends the trimmed URL and yields
     * the job id, or the message of the error the step throws.
     */
    method Ingest(url: string, reply: FetchOutcome) returns (received: Result<Json, string>)
      modifies this
      ensures Snapshot() == old(Snapshot())
      ensures calls == old(calls) + [Call(PostIngest(url), old(Snapshot()))]
      ensures received == IngestResult(reply)
    {
      Send(PostIngest(url));
      match reply {
        case Rejected(message) =>
          received := Failure(message);
        case NotOk(statusText) =>
          received := Failure(IngestFailedMessage(statusText));
        case OkJson(body) =>
          received := ReceivedJobId(body);
          if received.Success? && !Truthy(received.value) {
            received := Failure(NoJobIdMessage);
          }
      }
    }

    /**
     * What follows a successful ingest: stores the job id, runs the frames
     * step, then the transcribe step with `transcriptLoading` set around it.
     */
    method LoadResults(id: Json, framesReply: FetchOutcome, transcribeReply: FetchOutcome)
      requires frames == [] && transcript == Null
      modifies this
      ensures Snapshot() == old(Snapshot()).(jobId := id, frames := FramesAfter(framesReply),
                                             transcript := TranscriptAfter(transcribeReply),
                                             transcriptLoading := false)
      ensures calls == old(calls) + [
        Call(PostFrames(id), old(Snapshot()).(jobId := id)),
        Call(PostTranscribe(id), old(Snapshot()).(jobId := id, frames := FramesAfter(framesReply),
                                                  transcriptLoading := true))]
    {
      jobId := id;
      FetchFrames(id, framesReply);
      transcriptLoading := true;
      FetchTranscript(id, transcribeReply);
      // inner finally
      transcriptLoading := false;
    }

    /**
     * The part of `handleProcess` after validation has passed: the reset, the
     * outer try with ingest and the two soft steps, the catch and the finally.
     */
    method Submit(url: string, ingest: FetchOutcome, framesReply: FetchOutcome, transcribeReply: FetchOutcome)
      requires url == Trim(tiktokUrl) && url != []
      modifies this
      ensures Snapshot() == Run(old(Snapshot()), ingest, framesReply, transcribeReply).after
      ensures calls == old(calls) + Run(old(Snapshot()), ingest, framesReply, transcribeReply).calls
    {
      ghost var before := Snapshot();
      Reset();

      // try
      var received := Ingest(url, ingest);
      if received.Success? {
        LoadResults(received.value, framesReply, transcribeReply);
        RunOnIngestSuccess(before, ingest, framesReply, transcribeReply);
      } else {
        // catch
        error := Some(ErrorText(received.error));
        RunOnHardFailure(before, ingest, framesReply, transcribeReply);
      }
      // finally
      loading := false;
    }

    /**
     * `handleProcess`, with each network step replaced by its outcome. Its
     * requests and the state it leaves are exactly what `Run` prescribes.
     */
    method HandleProcess(ingest: FetchOutcome, framesReply: FetchOutcome, transcribeReply: FetchOutcome)
      modifies this
      ensures Snapshot() == Run(old(Snapshot()), ingest, framesReply, transcribeReply).after
      ensures calls == old(calls) + Run(old(Snapshot()), ingest, framesReply, transcribeReply).calls
    {
      var url := Trim(tiktokUrl);
      if url == [] {
        RunOnBlank(Snapshot(), ingest, framesReply, transcribeReply);
        error := Some(EmptyUrlMessage);
        return;
      }
      Submit(url, ingest, framesReply, transcribeReply);
    }
  }
}
