/**
 * The rules the component's markup applies to its state: when the Process
 * button is enabled, what the transcript section shows, and which transcript
 * entries are listed.
 */
module Rendering {
  import opened JsValue
  import opened JsString
  import opened Orchestration

  /** `disabled={loading || !tiktokURL.trim()}`, negated. */
  predicate ProcessEnabled(loading: bool, tiktokUrl: string)
    ensures ProcessEnabled(loading, tiktokUrl) ==> !loading && tiktokUrl != []
  {
    !loading && Trim(tiktokUrl) != []
  }

  /** The button is enabled exactly when no submission is busy and the URL has a non-whitespace character. */
  lemma ProcessEnabledIff(loading: bool, tiktokUrl: string)
    ensures ProcessEnabled(loading, tiktokUrl) <==>
            !loading && exists i :: 0 <= i < |tiktokUrl| && !IsWhitespace(tiktokUrl[i])
  {
    TrimEmptyIffBlank(tiktokUrl);
  }

  /** A click on an enabled button always passes validation. */
  lemma EnabledClickPassesValidation(v: View, ingest: FetchOutcome, frames: FetchOutcome, transcribe: FetchOutcome)
    requires ProcessEnabled(v.loading, v.tiktokUrl)
    ensures var calls := Run(v, ingest, frames, transcribe).calls;
      calls != [] && calls[0].request == PostIngest(Trim(v.tiktokUrl))
  {
  }

  /** Once a validated submission returns, the button is enabled again, whatever its outcome. */
  lemma ProcessReenabledAfterRun(v: View, ingest: FetchOutcome, frames: FetchOutcome, transcribe: FetchOutcome)
    requires Trim(v.tiktokUrl) != []
    ensures var after := Run(v, ingest, frames, transcribe).after;
      ProcessEnabled(after.loading, after.tiktokUrl)
  {
  }

  /**
   * While a submission has a request in flight the button is disabled, so a
   * click cannot start a second one.
   */
  lemma ProcessDisabledWhileInFlight(v: View, ingest: FetchOutcome, frames: FetchOutcome, transcribe: FetchOutcome)
    ensures var calls := Run(v, ingest, frames, transcribe).calls;
      forall i :: 0 <= i < |calls| ==> !ProcessEnabled(calls[i].during.loading, calls[i].during.tiktokUrl)
  {
  }

  /** The entry filter: `value !== null && value !== undefined && value !== ''` (strict, so `0` and `false` pass). */
  predicate Listed(value: Json)
    ensures Truthy(value) ==> Listed(value)
    ensures value == Num(0.0) || value == Bool(false) ==> Listed(value)
  {
    value != Null && value != Undefined && value != Str("")
  }

  /** Elements paired with their decimal indices, so no two share a key. */
  function Indexed(items: seq<Json>): (r: seq<(string, Json)>)
    ensures |r| == |items| && forall i :: 0 <= i < |r| ==> r[i] == (DecimalString(i), items[i])
    ensures forall i, j :: 0 <= i < j < |r| ==> r[i].0 != r[j].0
  {
    IndexKeysDistinct(|items|);
    seq(|items|, i requires 0 <= i < |items| => (DecimalString(i), items[i]))
  }

  /** A string's characters, each as a one-character string. */
  function Chars(s: string): (r: seq<Json>)
    ensures |r| == |s| && forall i :: 0 <= i < |r| ==> r[i] == Str([s[i]])
  {
    seq(|s|, i requires 0 <= i < |s| => Str([s[i]]))
  }

  /**
   * `Object.entries(v)` for a `v` that is not `null` or `undefined` (on those
   * it throws): an object's pairs, an array's or a string's elements under
   * their indices, nothing for a number or a boolean.
   */
  function Entries(v: Json): (r: seq<(string, Json)>)
    requires v != Null && v != Undefined
    ensures v.Obj? ==> r == v.props
    ensures v.Arr? ==> |r| == |v.items| && forall i :: 0 <= i < |r| ==> r[i] == (DecimalString(i), v.items[i])
    ensures v.Str? ==> |r| == |v.s| && forall i :: 0 <= i < |r| ==> r[i] == (DecimalString(i), Str([v.s[i]]))
    ensures !v.Obj? && !v.Arr? && !v.Str? ==> r == []
  {
    match v
    case Obj(props) => props
    case Arr(items) => Indexed(items)
    case Str(s) => Indexed(Chars(s))
    case _ => []
  }

  /** The entries `.filter` keeps: exactly the listed ones, each once, in their original order. */
  function FilterListed(entries: seq<(string, Json)>): (r: seq<(string, Json)>)
    ensures |r| <= |entries|
    ensures forall i :: 0 <= i < |r| ==> Listed(r[i].1)
    ensures forall e :: e in r ==> e in entries
    ensures forall e :: e in entries && Listed(e.1) ==> e in r
  {
    if entries == [] then []
    else if Listed(entries[0].1) then [entries[0]] + FilterListed(entries[1..])
    else FilterListed(entries[1..])
  }

  /** Filtering distributes over concatenation, so it keeps the relative order of what it keeps. */
  lemma {:induction false} FilterListedAppend(a: seq<(string, Json)>, b: seq<(string, Json)>)
    ensures FilterListed(a + b) == FilterListed(a) + FilterListed(b)
  {
    if a != [] {
      assert (a + b)[0] == a[0];
      assert (a + b)[1..] == a[1..] + b;
      FilterListedAppend(a[1..], b);
      if Listed(a[0].1) {
        assert FilterListed(a + b) == [a[0]] + FilterListed(a[1..] + b);
      } else {
        assert FilterListed(a + b) == FilterListed(a[1..] + b);
      }
    } else {
      assert a + b == b;
    }
  }

  /** Filtering a list whose entries are all listed leaves it unchanged; in particular filtering is idempotent. */
  lemma {:induction false} FilterListedKeepsListed(entries: seq<(string, Json)>)
    requires forall i :: 0 <= i < |entries| ==> Listed(entries[i].1)
    ensures FilterListed(entries) == entries
  {
    if entries != [] {
      FilterListedKeepsListed(entries[1..]);
    }
  }

  /** Filtering drops exactly the entries that are not listed: none of them is in the result. */
  lemma FilterListedDropsUnlisted(entries: seq<(string, Json)>, e: (string, Json))
    requires !Listed(e.1)
    ensures e !in FilterListed(entries)
  {
  }

  /** The transcript entries rendered for a truthy transcript: its listed entries, in order. */
  function TranscriptEntries(transcript: Json): (r: seq<(string, Json)>)
    requires Truthy(transcript)
    ensures forall i :: 0 <= i < |r| ==> Listed(r[i].1)
    ensures forall e :: e in r ==> e in Entries(transcript)
    ensures forall e :: e in Entries(transcript) && Listed(e.1) ==> e in r
  {
    FilterListed(Entries(transcript))
  }

  /** `{a: "x", b: null, c: ""}` renders only `a`. */
  lemma FilterExample()
    ensures TranscriptEntries(Obj([("a", Str("x")), ("b", Null), ("c", Str(""))])) == [("a", Str("x"))]
  {
  }

  /** `0` and `false` are falsy but still rendered. */
  lemma FalsyValuesStillListed(key: string)
    ensures TranscriptEntries(Obj([(key, Num(0.0)), (key + "!", Bool(false))]))
            == [(key, Num(0.0)), (key + "!", Bool(false))]
  {
  }

  /** What the transcript section shows. */
  datatype TranscriptSection = Hidden | Spinner | EntryList(entries: seq<(string, Json)>)

  /**
   * `(transcriptLoading || transcript) && …`: a spinner while transcribe is
   * in flight, otherwise the filtered entries of a truthy transcript, otherwise nothing.
   */
  function TranscriptView(transcriptLoading: bool, transcript: Json): (r: TranscriptSection)
    ensures r.Spinner? <==> transcriptLoading
    ensures r.Hidden? <==> !transcriptLoading && !Truthy(transcript)
    ensures r.EntryList? ==> forall i :: 0 <= i < |r.entries| ==> Listed(r.entries[i].1)
    ensures !transcriptLoading && Truthy(transcript) ==> r == EntryList(TranscriptEntries(transcript))
  {
    if transcriptLoading then Spinner
    else if Truthy(transcript) then EntryList(TranscriptEntries(transcript))
    else Hidden
  }

  /** A failed transcribe step leaves the transcript section hidden once the submission returns. */
  lemma NoTranscriptSectionAfterSoftFailure(v: View, ingest: FetchOutcome, frames: FetchOutcome, transcribe: FetchOutcome)
    requires Trim(v.tiktokUrl) != []
    requires !transcribe.OkJson?
    ensures var after := Run(v, ingest, frames, transcribe).after;
      TranscriptView(after.transcriptLoading, after.transcript) == Hidden
  {
  }

  /** While transcribe is in flight the section shows the spinner. */
  lemma SpinnerWhileTranscribing(v: View, ingest: FetchOutcome, frames: FetchOutcome, transcribe: FetchOutcome)
    requires Trim(v.tiktokUrl) != [] && IngestResult(ingest).Success?
    ensures var during := Run(v, ingest, frames, transcribe).calls[2].during;
      TranscriptView(during.transcriptLoading, during.transcript) == Spinner
  {
  }
}
