# TikTok Processor submit flow, modelled in Dafny

The application is a single React component, `App` (`src/App.jsx`). The user
pastes a TikTok URL and presses **Process**. The handler `handleProcess` then
calls three webhook endpoints one after another:

- **ingest** is a hard dependency. It must return a job id, read from
  `job_id`, `jobId` or `id`.
- **frames** is best-effort. It returns the frame thumbnail URLs, read from
  `frames`, `frame_urls` or `thumbnails`.
- **transcribe** is best-effort. It returns a transcript object, which is shown
  as a list of label/value entries.

This project models that handler and the few value rules around it:

- `JsValue`: the JSON values a response body can hold (plus `undefined`), JavaScript
  truthiness, the `||` operator, and property access. Property access throws a
  TypeError on `null`.
- `JsString`: `String.prototype.trim` with ECMAScript's whitespace set, and the
  decimal keys `Object.entries` gives array and string elements.
- `Extraction`: the expressions the handler evaluates. These are the job-id
  fallback chain, the frame-list fallback chain with its `Array.isArray` guard,
  `transcribeData || null`, `err.message || …`, and the error texts.
- `Orchestration`: the handler as a state machine over the component's seven
  state fields (`View`). Each network step is replaced by a `FetchOutcome`: a
  rejected promise, a non-ok status with its `statusText`, or an ok status with
  a parsed body. `Run` says which requests one submission sends, the state
  shown while each one is in flight, and the state it leaves. Lemmas state the
  promised behaviour: validation, reset, hard and soft failures, alias
  priority and flag restoration.
- `AppComponent.App`: a class with the seven state fields. A ghost log records
  each request sent. `HandleProcess` follows the source step by step: an early
  return on a blank URL, then the reset, then an outer try that holds ingest
  and two inner best-effort tries, then catch and finally. It is proved to do
  exactly what `Run` prescribes.
- `Rendering`: the Process button condition, the transcript section (spinner,
  entries or nothing) and the entry filter, which drops `null`, `undefined` and
  `''` and keeps order.

Modelling conventions:

- A body that `response.json()` cannot parse is the same as a rejected fetch in
  that step (`Rejected`).
- An object is a list of key/value pairs in its own-property order, with no
  repeated keys. That is the form `JSON.parse` produces.
- Reading a property of a string, number, boolean or array yields `undefined`.
  That is correct for every key the component reads.
- The text of the TypeError thrown by reading a property of `null` is V8's
  wording.

## Model

| member | source | states |
|---|---|---|
| JsValue.Truthy | src/App.jsx:49 | the falsy values are exactly `null`, `undefined`, `false`, `0` and `''` |
| JsValue.Or | src/App.jsx:47 | JavaScript's logical or is the left operand when that is truthy and the right operand otherwise, and is truthy iff either operand is |
| JsValue.Lookup | src/App.jsx:47 | reading a key gives the value of the first pair with that key, `undefined` when no pair has it |
| JsValue.Member | src/App.jsx:47 | a non-object has none of the keys read; an object gives the value of its first pair with the key, or `undefined` |
| JsValue.NullAccessMessage | src/App.jsx:47 | V8's TypeError text: `Cannot read properties of `, the receiver, ` (reading '`, the key, `')` |
| JsValue.Prop | src/App.jsx:47 | `v.key` throws exactly when `v` is `null` or `undefined` (with the TypeError text); otherwise it is the member's value |
| JsString.TrimStartSpec | src/App.jsx:18 | leading trim removes a whitespace-only prefix and stops at a non-whitespace character |
| JsString.TrimEndSpec | src/App.jsx:18 | trailing trim removes a whitespace-only suffix and stops at a non-whitespace character |
| JsString.IsWhitespace | src/App.jsx:18 | ECMAScript's WhiteSpace and LineTerminator set, which `trim` removes: space and tab through carriage return are in it, and no printable ASCII character is |
| JsString.Trim | src/App.jsx:18 | the trimmed URL is never longer than the URL |
| JsString.TrimSpec | src/App.jsx:18 | `trim()` is a contiguous slice with non-whitespace ends and only whitespace outside it |
| JsString.TrimEmptyIffBlank | src/App.jsx:18 | the trimmed URL is empty exactly when the URL is empty or all whitespace |
| JsString.TrimIdempotent | src/App.jsx:18 | a general fact about `String.prototype.trim`: trimming a trimmed string changes nothing |
| JsString.DigitChar | src/App.jsx:182 | a digit's character is `'0'`..`'9'` and encodes that digit |
| JsString.DecimalString | src/App.jsx:182 | an index key is a non-empty digit string without a leading zero |
| JsString.DecimalRoundTrip | src/App.jsx:182 | reading an index key back gives the index |
| JsString.IndexKeysDistinct | src/App.jsx:182-185 | distinct indices have distinct decimal texts, so the `key` of each listed array or string element is unique |
| Extraction.ReceivedJobId | src/App.jsx:47 | throws exactly on a `null` body, with the TypeError for reading `job_id`; otherwise the first truthy of `job_id`, `jobId`, `id` (else `id`), and truthy iff one of them is |
| Extraction.IngestFailedMessage | src/App.jsx:43 | the message is `Ingest failed: ` followed by the status text |
| Extraction.ArrayOrEmpty | src/App.jsx:71 | the value itself when it is an array, otherwise no frames |
| Extraction.FrameList | src/App.jsx:70-71 | throws exactly on a `null` body, with the TypeError for reading `frames`; the first truthy alias decides, and a non-array there gives no frames instead of falling through |
| Extraction.TranscriptValue | src/App.jsx:95 | the body when truthy, `null` otherwise |
| Extraction.ErrorText | src/App.jsx:104 | the error text is never empty: the message, or the fallback when the message is empty |
| Extraction.JobIdPrefersJobUnderscoreId | src/App.jsx:47 | for any object whose `job_id`, `jobId` and `id` are all truthy, wherever they stand, `job_id` wins |
| Extraction.NoAliasNoJobId | src/App.jsx:47-50 | a body with none of the three aliases yields `undefined`, which the handler reports as missing |
| Orchestration.Cleared | src/App.jsx:23-28 | the reset: loading on, transcript loading off, no error, no job id, no frames, no transcript, URL kept |
| Orchestration.IngestResult | src/App.jsx:32-51 | the hard step yields a truthy job id, or the thrown message: the rejection's, "Ingest failed: " + statusText, the TypeError of an ok `null` body, or the missing-id message |
| Orchestration.FramesAfter | src/App.jsx:56-76 | the frame list is empty after a rejected or non-ok frames call or a `null` body; otherwise it is the extracted list |
| Orchestration.TranscriptAfter | src/App.jsx:80-102 | the transcript is `null` after a failed transcribe call; otherwise it is the body, or `null` when the body is falsy |
| Orchestration.Run | src/App.jsx:17-109 | a blank URL sends nothing and changes only `error`. Otherwise ingest is sent first, with the trimmed URL, from the reset state. Both flags are false at the end. A hard failure sends only ingest and keeps the reset results. A job id sends frames and then transcribe with it, sets no error, and stores the frames and transcript results |
| Orchestration.RunOnBlank | src/App.jsx:18-21 | the whole outcome of a blank submission |
| Orchestration.RunOnHardFailure | src/App.jsx:42-51 | the whole outcome of a submission whose ingest step fails |
| Orchestration.RunOnIngestSuccess | src/App.jsx:53-108 | the whole outcome of a submission whose ingest step yields a job id |
| Orchestration.SubmissionSendsIffNotBlank | src/App.jsx:18-21 | a request is sent exactly when the URL has a non-whitespace character |
| Orchestration.IngestNotOkIsHardFailure | src/App.jsx:42-44 | a non-ok ingest shows "Ingest failed: " + statusText, sends nothing else, and leaves `jobId`, `frames` and `transcript` reset |
| Orchestration.MissingJobIdIsHardFailure | src/App.jsx:47-51 | with no truthy alias, the error is "No job_id received from ingest endpoint", nothing else is sent, and the results stay reset |
| Orchestration.JobIdPriority | src/App.jsx:47-53 | the stored job id is the first truthy of `job_id`, `jobId`, `id` |
| Orchestration.FramesFailureIsSoft | src/App.jsx:56-79 | for any ingest that yields a job id, a rejected, non-ok or `null`-body frames call leaves no frames and no error, transcribe is still sent with that id, and its result is stored |
| Orchestration.TranscribeFailureIsSoft | src/App.jsx:80-102 | a failed transcribe call leaves the transcript `null`, no error, and transcript loading off |
| Orchestration.TranscriptNullOrTruthy | src/App.jsx:95 | after a validated submission the transcript is `null` or truthy, never another falsy value |
| Orchestration.ValidatedRunForgetsPreviousState | src/App.jsx:23-28 | a validated submission's requests and result depend only on the URL and the step outcomes, never on earlier results |
| Orchestration.BlankRunIdempotent | src/App.jsx:18-21 | submitting a blank URL again changes nothing more |
| AppComponent.App.constructor | src/App.jsx:9-15 | the initial state is an empty URL, `null`s, no frames and both flags off |
| AppComponent.App.SetTiktokUrl | src/App.jsx:120 | typing replaces the URL and nothing else |
| AppComponent.App.Reset | src/App.jsx:23-28 | the six setter calls leave exactly the `Cleared` state |
| AppComponent.App.Send | src/App.jsx:32-40 | a request is logged with the state shown while it is in flight; no field changes |
| AppComponent.App.Ingest | src/App.jsx:30-51 | sends the trimmed URL to ingest, changes no field, and yields `IngestResult` |
| AppComponent.App.FetchFrames | src/App.jsx:56-76 | sends the job id to frames, and only `frames` changes, to `FramesAfter` |
| AppComponent.App.FetchTranscript | src/App.jsx:80-102 | sends the job id to transcribe, and only `transcript` changes, to `TranscriptAfter` |
| AppComponent.App.LoadResults | src/App.jsx:53-102 | stores the job id, sends frames then transcribe with transcript loading on, and turns it off in the finally |
| AppComponent.App.Submit | src/App.jsx:23-108 | the validated part of the handler leaves the state and the request log `Run` prescribes |
| AppComponent.App.HandleProcess | src/App.jsx:17-109 | the handler leaves exactly the state `Run` prescribes and appends exactly `Run`'s requests to the log |
| Rendering.ProcessEnabled | src/App.jsx:127 | an enabled button implies not loading and a non-empty URL |
| Rendering.ProcessEnabledIff | src/App.jsx:127 | the button is enabled exactly when not loading and the URL has a non-whitespace character |
| Rendering.ProcessDisabledWhileInFlight | src/App.jsx:123-127 | during every request a submission makes, the button is disabled |
| Rendering.EnabledClickPassesValidation | src/App.jsx:126-127 | clicking an enabled button always sends ingest, with the trimmed URL |
| Rendering.ProcessReenabledAfterRun | src/App.jsx:107 | after a validated submission returns, the button is enabled again, whatever the outcome |
| Rendering.Listed | src/App.jsx:183 | every truthy value passes the entry filter, and so do `0` and `false` |
| Rendering.Indexed | src/App.jsx:182-185 | each element is paired with its decimal index, in order, and no two pairs share a key |
| Rendering.Chars | src/App.jsx:182 | a string's elements are its characters, each as a one-character string |
| Rendering.Entries | src/App.jsx:182 | `Object.entries` of a non-null value: an object's own pairs in order, array or string elements under their decimal indices, and nothing for a number or boolean |
| Rendering.FilterListed | src/App.jsx:183 | keeps only entries whose value is not `null`, `undefined` or `''`, keeps every such entry, and adds none |
| Rendering.FilterListedAppend | src/App.jsx:183 | filtering distributes over concatenation, so the original order is kept |
| Rendering.FilterListedKeepsListed | src/App.jsx:183 | entries that all pass are left unchanged; filtering is idempotent |
| Rendering.FilterListedDropsUnlisted | src/App.jsx:183 | no entry whose value is `null`, `undefined` or `''` is rendered |
| Rendering.TranscriptEntries | src/App.jsx:182-183 | the rendered entries of a truthy transcript are listed, come from its entries, and include every listed entry |
| Rendering.FilterExample | src/App.jsx:182-183 | `{a: "x", b: null, c: ""}` renders only `a` |
| Rendering.FalsyValuesStillListed | src/App.jsx:183 | `0` and `false` are rendered, because the filter uses strict comparisons and not truthiness |
| Rendering.TranscriptView | src/App.jsx:171-191 | the spinner shows exactly while transcript loading is on; the section is hidden exactly when it is off and the transcript is falsy; otherwise the list is exactly `TranscriptEntries` of the transcript, its filtered `Object.entries` |
| Rendering.NoTranscriptSectionAfterSoftFailure | src/App.jsx:91-102 | after a failed transcribe call the transcript section is hidden |
| Rendering.SpinnerWhileTranscribing | src/App.jsx:79 | while transcribe is in flight the section shows the spinner |

## Left out

- The `fetch` transport, request headers, `JSON.stringify` bodies and the endpoint URLs (src/App.jsx:4-6, 32-40, 57-65, 81-89). These are network I/O. Each step is an explicit `FetchOutcome` input, and the request log records only which endpoint was called and the value put in the body.
- JSON parsing of response bodies. A parse failure is a `Rejected` outcome of that step, which is how the source's try blocks treat it.
- Async interleaving. The model runs one submission at a time. `loading` is set before the first request and cleared only in the outer `finally` (src/App.jsx:23, 107), and the button and input are disabled while it is set (src/App.jsx:123-127). So `Rendering.ProcessDisabledWhileInFlight` shows no click can start a second submission. Only another caller of `handleProcess` could cause a race, and the component has none.
- React rendering beyond the Process button and the transcript section: the DOM structure, CSS classes, the job-id and frame sections, and the `onError` image-hiding handler (src/App.jsx:157-160).
- Rendering each transcript entry's value as a React child. React throws for a plain object, or an array holding one; it renders strings, numbers and arrays of them. The model stops at the list of entries.
- `console.log` and `console.error` (src/App.jsx:74, 93, 98, 105). These only log.
- `Object.entries` on an object whose keys look like array indices lists those keys first, in numeric order. The model takes an object's pairs to be in that own-property order already.
- Rendering.Chars, Rendering.Entries: split a string into Unicode code points, where `Object.entries` splits it into UTF-16 code units. A character outside the Basic Multilingual Plane gives one entry here and two in JavaScript. A lone surrogate is not a Dafny `char`, so those entries cannot be represented.
- JsValue.Prop: a string's or array's `length` and other prototype members are not modelled; the component reads none of them.
