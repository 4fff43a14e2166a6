/**
 * The expressions the submit handler evaluates on response bodies and on the
 * error it catches, and the user-visible messages it sets.
 */
module Extraction {
  import opened Wrappers
  import opened JsValue

  const EmptyUrlMessage: string := "Please enter a TikTok URL"
  const NoJobIdMessage: string := "No job_id received from ingest endpoint"
  const FallbackErrorMessage: string := "An error occurred while processing"

  /** The message of the error thrown when the ingest response is not ok. */
  function IngestFailedMessage(statusText: string): (r: string)
    ensures |r| == 15 + |statusText| && r[..15] == "Ingest failed: " && r[15..] == statusText
  {
    "Ingest failed: " + statusText
  }

  /**
   * `ingestData.job_id || ingestData.jobId || ingestData.id`: the first truthy
   * alias in that order, or `id` when none is truthy; reading `job_id` of a
   * `null` body throws.
   */
  function ReceivedJobId(data: Json): (r: Result<Json, string>)
    ensures r.Failure? <==> data == Null || data == Undefined
    ensures data == Null ==> r == Failure(NullAccessMessage("null", "job_id"))
    ensures r.Success? ==>
      var a, b, c := Member(data, "job_id"), Member(data, "jobId"), Member(data, "id");
      && (Truthy(r.value) <==> Truthy(a) || Truthy(b) || Truthy(c))
      && (Truthy(a) ==> r.value == a)
      && (!Truthy(a) && Truthy(b) ==> r.value == b)
      && (!Truthy(a) && !Truthy(b) ==> r.value == c)
  {
    // once `data.job_id` has not thrown, neither do the later reads
    var a :- Prop(data, "job_id");
    Success(Or(Or(a, Member(data, "jobId")), Member(data, "id")))
  }

  /** The value `Array.isArray` guards: `urls` itself when it is an array, otherwise no frames. */
  function ArrayOrEmpty(urls: Json): (r: seq<Json>)
    ensures urls.Arr? ==> r == urls.items
    ensures !urls.Arr? ==> r == []
  {
    if urls.Arr? then urls.items else []
  }

  /**
   * `framesData.frames || framesData.frame_urls || framesData.thumbnails || []`
   * followed by the `Array.isArray` guard. The first truthy alias decides: when
   * it is not an array the list is empty, with no fall-through to a later alias.
   * Reading `frames` of a `null` body throws.
   */
  function FrameList(data: Json): (r: Result<seq<Json>, string>)
    ensures r.Failure? <==> data == Null || data == Undefined
    ensures data == Null ==> r == Failure(NullAccessMessage("null", "frames"))
    ensures r.Success? ==>
      var a, b, c := Member(data, "frames"), Member(data, "frame_urls"), Member(data, "thumbnails");
      && (Truthy(a) ==> r.value == ArrayOrEmpty(a))
      && (!Truthy(a) && Truthy(b) ==> r.value == ArrayOrEmpty(b))
      && (!Truthy(a) && !Truthy(b) && Truthy(c) ==> r.value == ArrayOrEmpty(c))
      && (!Truthy(a) && !Truthy(b) && !Truthy(c) ==> r.value == [])
  {
    var a :- Prop(data, "frames");
    Success(ArrayOrEmpty(Or(Or(Or(a, Member(data, "frame_urls")), Member(data, "thumbnails")), Arr([]))))
  }

  /** `transcribeData || null`: the body when it is truthy, `null` otherwise. */
  function TranscriptValue(data: Json): (r: Json)
    ensures Truthy(r) <==> Truthy(data)
    ensures Truthy(data) ==> r == data
    ensures !Truthy(data) ==> r == Null
  {
    Or(data, Null)
  }

  /** `err.message || 'An error occurred while processing'`: never empty. */
  function ErrorText(message: string): (r: string)
    ensures r != ""
    ensures message != "" ==> r == message
    ensures message == "" ==> r == FallbackErrorMessage
  {
    if message != "" then message else FallbackErrorMessage
  }

  /** When a body carries all three identifier aliases, each truthy, `job_id` wins, wherever the pairs stand. */
  lemma JobIdPrefersJobUnderscoreId(props: seq<(string, Json)>)
    requires Truthy(Lookup(props, "job_id")) && Truthy(Lookup(props, "jobId")) && Truthy(Lookup(props, "id"))
    ensures ReceivedJobId(Obj(props)) == Success(Lookup(props, "job_id"))
  {
  }

  /** A body with none of the three identifier aliases yields a falsy identifier. */
  lemma NoAliasNoJobId(props: seq<(string, Json)>)
    requires forall i :: 0 <= i < |props| ==> props[i].0 !in {"job_id", "jobId", "id"}
    ensures ReceivedJobId(Obj(props)) == Success(Undefined)
  {
  }
}
