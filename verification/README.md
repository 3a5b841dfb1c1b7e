# Transcription job decision layer

A Dafny model of the decision logic of the meeting-summarizer service's
transcription layer. The layer submits an uploaded S3 object to a remote
transcription provider, reports the job's state, and extracts the transcript
text from the result document. The model covers two classes:

- `TranscribeService`. It derives the media format from the object key, builds
  the job name and the `s3://bucket/key` media URI, turns the provider's job
  record into the status map, and selects
  `results.transcripts[0].transcript` from the downloaded result document.
- `TranscribeController`. It holds the three HTTP handlers: `startJob`
  validates the key, `getStatus` passes the status through, and `getResult`
  decides between "not ready", "no transcript URI" and "fetch the text".

Every operation is a pure function. The provider's submit and describe
calls, the transcript download (with its parse), the configured S3 bucket
name, the clock and the random UUID are all parameters. A Java `null` is `Option.None`. A thrown exception
is `Outcome.Threw(message)`; its message may itself be null. A handler
returns its `Response` together with the list of service calls it made. That
list lets the model state which calls do *not* happen.

Files:

- `values.dfy` (module `Values`): nullable values, outcomes, `long`,
  `Map.get`, and `Map.of`, which throws on a null value.
- `java_strings.dfy` (module `JavaStrings`): `toLowerCase`, `endsWith`,
  `equalsIgnoreCase`, `isBlank`, and `Long.toString` with its inverse.
- `json_tree.dfy` (module `JsonTree`): a parsed JSON document, Jackson's
  `path`/`asText`, and a reference path lookup.
- `transcribe_service.dfy` (module `TranscribeService`) and
  `transcribe_controller.dfy` (module `TranscribeController`): the two classes.
- `orchestrator.dfy` (module `Orchestrator`): the controller wired to the
  service, with end-to-end properties.

Notes on faithfulness:

- `Map.of` rejects null values. It throws a `NullPointerException` whose
  message is null. Inside a handler's `try` block that exception is caught.
  The catch block then calls `Map.of("error", null)`, which throws again,
  and this second exception leaves the handler. The model calls that
  response `Escaped`: the web framework's own 500 response. It is the
  outcome for:
  - a null status in `getResult`;
  - a null transcript text after COMPLETED;
  - any exception with a null message.
- A FAILED job takes the "Transcript not ready yet" path of `getResult`,
  like every status that is not COMPLETED in some letter case.
- Case mapping is ASCII. This is exact here. Outside A-Z, Java maps four
  characters onto an ASCII letter: the Kelvin sign lower-cases to `k`, the
  dotted capital I lower-cases to `i`, the dotless small i upper-cases to `I`
  (`equalsIgnoreCase` compares upper-case forms too), and the long s
  upper-cases to `S`. Under a Turkish default locale, `toLowerCase` also
  maps `I` to the dotless small i. All of these involve only the letters i,
  k and s, and none of them occurs in the five extensions or in
  "COMPLETED".
- The start response holds exactly `jobName` and `mediaUri`.
- A non-2xx transcript response body is parsed like a 2xx one.
- A COMPLETED job with no transcript entry in its result document ends in an
  escaped exception (see "## Findings").

## Model

| member | source | states |
|---|---|---|
| `TranscribeService.MediaFormatFromKey` | src/main/java/com/souvik/ai/meeting_summarizer/service/TranscribeService.java:140-149 | the format is always one of mp3, mp4, wav, flac, m4a, and any format other than mp3 is the extension of the lower-cased key |
| `TranscribeService.MediaFormatIsTheNamedFormat` | src/main/java/com/souvik/ai/meeting_summarizer/service/TranscribeService.java:142-148 | the format is exactly the one the key names. A key names a format when its lower-cased form ends in "." plus that format; a key with none of the five extensions names mp3. This holds in both directions, so the order of the tests does not matter |
| `TranscribeService.ExtensionsExclusive` | src/main/java/com/souvik/ai/meeting_summarizer/service/TranscribeService.java:142-146 | no key ends with two different extensions of the five |
| `TranscribeService.MediaFormatIgnoresCase` | src/main/java/com/souvik/ai/meeting_summarizer/service/TranscribeService.java:141 | a key and its lower-cased form give the same format |
| `TranscribeService.SameLowerCaseSameFormat` | src/main/java/com/souvik/ai/meeting_summarizer/service/TranscribeService.java:141 | two keys with the same lower-cased form give the same format |
| `TranscribeService.MediaFormatOfSuffixedKey` | src/main/java/com/souvik/ai/meeting_summarizer/service/TranscribeService.java:142-146 | for any prefix, a suffix that lower-cases to ".mp3", ".mp4", ".wav", ".flac" or ".m4a" yields that format |
| `TranscribeService.MediaFormatWithoutExtension` | src/main/java/com/souvik/ai/meeting_summarizer/service/TranscribeService.java:147-148 | a key with no '.' at all defaults to mp3 |
| `TranscribeService.MediaFormatExamples` | src/main/java/com/souvik/ai/meeting_summarizer/service/TranscribeService.java:140-149 | "a.MP3" gives mp3, "a.wav" gives wav, and "a" gives mp3 |
| `JavaStrings.ToLower` | src/main/java/com/souvik/ai/meeting_summarizer/service/TranscribeService.java:141 | lower-casing keeps the length, lower-cases each character in place, and leaves no upper-case letter |
| `JavaStrings.LongToString` | src/main/java/com/souvik/ai/meeting_summarizer/service/TranscribeService.java:48 | the epoch second is written as digits, with a leading minus sign exactly when it is negative |
| `JavaStrings.NatToStringRoundTrip` | src/main/java/com/souvik/ai/meeting_summarizer/service/TranscribeService.java:48 | reading back the decimal digits of a number gives the number |
| `JavaStrings.LongToStringRoundTrip` | src/main/java/com/souvik/ai/meeting_summarizer/service/TranscribeService.java:48 | parsing the decimal text of any `long` gives the `long` back |
| `TranscribeService.JobName` | src/main/java/com/souvik/ai/meeting_summarizer/service/TranscribeService.java:48 | a job name starts with "transcribe-", and ends with '-' followed by eight lower-case hexadecimal digits |
| `TranscribeService.JobNameRoundTrip` | src/main/java/com/souvik/ai/meeting_summarizer/service/TranscribeService.java:48 | a job name reads back as "transcribe-", the epoch second, '-', and the first eight UUID characters |
| `TranscribeService.DistinctPartsGiveDistinctJobNames` | src/main/java/com/souvik/ai/meeting_summarizer/service/TranscribeService.java:48 | two submissions whose epoch seconds or UUID prefixes differ get different job names |
| `TranscribeService.MediaUriRoundTrip` | src/main/java/com/souvik/ai/meeting_summarizer/service/TranscribeService.java:51 | the media URI "s3://" + bucket + "/" + key splits back into that bucket and that key |
| `TranscribeService.JobRequestRecordsItsInputs` | src/main/java/com/souvik/ai/meeting_summarizer/service/TranscribeService.java:53-64 | the submitted request carries the job name's clock reading and UUID prefix, the en-US language, one of the five formats, and the bucket and key in its media URI |
| `TranscribeService.StartTranscriptionJob` | src/main/java/com/souvik/ai/meeting_summarizer/service/TranscribeService.java:47-72 | a provider exception propagates with its message. Otherwise the response has exactly the keys `jobName` and `mediaUri`: `mediaUri` is "s3://" + bucket + "/" + key, and `jobName` is the submitted job name |
| `TranscribeService.StatusMap` | src/main/java/com/souvik/ai/meeting_summarizer/service/TranscribeService.java:87-98 | `status` is always present, and no keys besides `status`, `transcriptUri` and `failureReason` occur. `transcriptUri` is present iff the transcript and its file URI are non-null, and `failureReason` iff the failure reason is non-null. Each present key holds the record's value |
| `TranscribeService.StatusMapRoundTrip` | src/main/java/com/souvik/ai/meeting_summarizer/service/TranscribeService.java:87-98 | reading the status map with `Map.get` gives back the job's status, transcript URI and failure reason |
| `TranscribeService.StatusMapDeterminedByView` | src/main/java/com/souvik/ai/meeting_summarizer/service/TranscribeService.java:87-98 | two job records give equal status maps iff they agree on status, transcript URI and failure reason |
| `TranscribeService.GetJobStatus` | src/main/java/com/souvik/ai/meeting_summarizer/service/TranscribeService.java:79-99 | the describe call's exception propagates with its message. Otherwise the answer is the job record's status map: `status` is always a key, even when null, no keys besides `status`, `transcriptUri` and `failureReason` occur, and `Map.get` reads back the record's three values |
| `TranscribeService.TranscriptText` | src/main/java/com/souvik/ai/meeting_summarizer/service/TranscribeService.java:126-134 | the selection equals a lookup of the path results, transcripts, 0, transcript, read as text with a null fallback. An absent field, a non-array, an empty array or a JSON null gives null |
| `TranscribeService.NoTranscriptEntriesGiveNull` | src/main/java/com/souvik/ai/meeting_summarizer/service/TranscribeService.java:128-134 | a missing `results.transcripts`, a non-array one, or an empty array gives null, not an error |
| `TranscribeService.TranscriptTextOfResultDocument` | src/main/java/com/souvik/ai/meeting_summarizer/service/TranscribeService.java:125-130 | in a provider result document the selection gives the first transcript, or null when there are none |
| `TranscribeService.FetchTranscriptTextFromUri` | src/main/java/com/souvik/ai/meeting_summarizer/service/TranscribeService.java:107-138 | a download or parse failure propagates with its message; otherwise the text is the path lookup of the downloaded document |
| `Values.MapOf2` | src/main/java/com/souvik/ai/meeting_summarizer/controller/TranscribeController.java:74 | a two-entry `Map.of` succeeds iff both values are non-null, and then holds exactly those two entries. A null value throws an exception with a null message |
| `Values.MapOf1` | src/main/java/com/souvik/ai/meeting_summarizer/controller/TranscribeController.java:77 | a one-entry `Map.of` succeeds iff the value is non-null. A null value throws an exception with a null message |
| `Values.Get` | src/main/java/com/souvik/ai/meeting_summarizer/controller/TranscribeController.java:63 | `Map.get` gives null exactly when the key is absent or mapped to null, and otherwise the value the map holds for the key |
| `JavaStrings.EndsWith` | src/main/java/com/souvik/ai/meeting_summarizer/service/TranscribeService.java:142-146 | a string ends with a suffix iff it is some prefix followed by that suffix |
| `JavaStrings.EqualsIgnoreCase` | src/main/java/com/souvik/ai/meeting_summarizer/controller/TranscribeController.java:64 | `equalsIgnoreCase` is false against null, true against the same string, and true only for a string of the same length |
| `JavaStrings.EqualsIgnoreCaseIsLowerEquality` | src/main/java/com/souvik/ai/meeting_summarizer/controller/TranscribeController.java:64 | `equalsIgnoreCase` on non-null strings holds iff their lower-cased forms are equal |
| `JavaStrings.IsWhitespace` | src/main/java/com/souvik/ai/meeting_summarizer/controller/TranscribeController.java:26 | among ASCII characters, exactly space, tab, line feed, vertical tab, form feed, carriage return and U+001C to U+001F are white space. The non-breaking spaces U+00A0, U+2007 and U+202F are not, and nothing above U+3000 is |
| `JavaStrings.FirstNonWhitespace` | src/main/java/com/souvik/ai/meeting_summarizer/controller/TranscribeController.java:26 | the scan stops at the first character that is not white space, or at the end, and every character before that point is white space |
| `JavaStrings.IsBlank` | src/main/java/com/souvik/ai/meeting_summarizer/controller/TranscribeController.java:26 | a string is blank iff every character is white space, so the empty string is blank |
| `JsonTree.PathField` | src/main/java/com/souvik/ai/meeting_summarizer/service/TranscribeService.java:126-129 | `path(field)` on a missing node stays missing, and on a node it is a one-step lookup of that field: missing unless the node is an object that has the field |
| `JsonTree.AsText` | src/main/java/com/souvik/ai/meeting_summarizer/service/TranscribeService.java:129 | `asText(null)` gives the fallback (null) for a missing node and for JSON null. Any other node gives non-null text: a string's own text, and "" for an array or object |
| `TranscribeController.CatchAll` | src/main/java/com/souvik/ai/meeting_summarizer/controller/TranscribeController.java:33-36 | the catch block answers 500 with `{error: message}` iff the exception's message is non-null. A null message makes `Map.of` throw inside the catch block, and that exception escapes the handler |
| `TranscribeController.StartJob` | src/main/java/com/souvik/ai/meeting_summarizer/controller/TranscribeController.java:24-37 | a missing, empty or whitespace-only `s3Key` is rejected iff no service call is made, and iff the answer is BadRequest "s3Key is required in request body". Otherwise the service is called exactly once with the key. Its map is returned unchanged, or its exception message becomes a 500 (escaped if the message is null) |
| `TranscribeController.GetStatus` | src/main/java/com/souvik/ai/meeting_summarizer/controller/TranscribeController.java:43-52 | one status call is made; a returned map is passed through as 200; an exception message becomes a 500 (escaped if the message is null) |
| `TranscribeController.GetResult` | src/main/java/com/souvik/ai/meeting_summarizer/controller/TranscribeController.java:59-79 | the status is asked first, and a request is never answered BadRequest. A status other than COMPLETED answers 200 {status, "Transcript not ready yet"} without fetching. COMPLETED without a URI answers 500 "No transcriptUri returned by Transcribe" without fetching. COMPLETED with a URI fetches exactly that URI, and non-null text answers 200 {status: COMPLETED, transcript: text} |
| `TranscribeController.NotReadyIsNeverAnError` | src/main/java/com/souvik/ai/meeting_summarizer/controller/TranscribeController.java:64-66 | any reported status that differs from COMPLETED after lower-casing gets 200 with that status and the not-ready message, and no fetch |
| `TranscribeController.FetchOnlyForCompletedJobWithUri` | src/main/java/com/souvik/ai/meeting_summarizer/controller/TranscribeController.java:64-73 | a fetch of URI u happens iff the status is COMPLETED in some letter case and the status map's `transcriptUri` is u |
| `TranscribeController.GetResultLosesAbsentTranscript` | src/main/java/com/souvik/ai/meeting_summarizer/controller/TranscribeController.java:73-77 | as written, a COMPLETED job whose fetch returns null text ends in an escaped exception |
| `TranscribeController.GetResultIntended` | src/main/java/com/souvik/ai/meeting_summarizer/controller/TranscribeController.java:73-74 | the corrected handler makes the same calls as `getResult`, and answers as it does everywhere except a completed fetch with null text |
| `TranscribeController.IntendedCompletedFetchIsOk` | src/main/java/com/souvik/ai/meeting_summarizer/controller/TranscribeController.java:73-74 | with the correction, any completed fetch without an exception answers 200 with exactly `status` COMPLETED and the fetched text, null included |
| `Orchestrator.StartAcceptedEndToEnd` | src/main/java/com/souvik/ai/meeting_summarizer/service/TranscribeService.java:47-72 | a start request with a usable key makes exactly one call. If the provider accepts, the answer is 200 with exactly `jobName` and `mediaUri`: the job name starts with "transcribe-" and reads back as the clock and UUID prefix, and the URI reads back as the bucket and the key. If the provider refuses, the answer is not 200 |
| `Orchestrator.StatusEndToEnd` | src/main/java/com/souvik/ai/meeting_summarizer/controller/TranscribeController.java:43-52 | a status request makes one status call and answers 200 with the job record's status map: `status` is always a key, even when null, no other keys than the three occur, and each reads back as the record holds it |
| `Orchestrator.UnfinishedJobIsNotReady` | src/main/java/com/souvik/ai/meeting_summarizer/controller/TranscribeController.java:64-66 | QUEUED, IN_PROGRESS and FAILED jobs answer 200 "Transcript not ready yet" without fetching |
| `Orchestrator.CompletedJobEndToEnd` | src/main/java/com/souvik/ai/meeting_summarizer/controller/TranscribeController.java:73-74 | a COMPLETED job whose result document's first transcript is `text` answers 200 with `text`, after fetching the provider's URI |
| `Orchestrator.CompletedJobWithoutTranscripts` | src/main/java/com/souvik/ai/meeting_summarizer/controller/TranscribeController.java:73-74 | a COMPLETED job with an empty transcripts array escapes as written, and answers 200 with a null transcript as intended |

## Left out

- AWS client construction, region and credentials (TranscribeService.java:34-40): these are foreign SDK set-up. The provider's submit and describe calls are parameters.
- The HTTP download in `fetchTranscriptTextFromUri` (TranscribeService.java:109-121): URL parsing, the 15-second connect and read timeouts, and the reading of the body are network I/O. A non-2xx response's error body is parsed like a success body, so the model does not treat it as a separate error. The download and parse together are the `download` parameter.
- Jackson parsing: the document arrives as a `Json` value. A JSON number carries the text Jackson renders for it.
- The clock and the random UUID in the job name: these are parameters. Their uniqueness cannot be shown from this code. The model only shows that distinct clock readings or UUID prefixes give distinct names.
- `e.printStackTrace()` in every catch block: this is logging only.
- Spring request binding before `startJob` runs (a missing or non-object body), and the content of the framework's default 500 response: both are framework behaviour. That response is the `Escaped` answer.
- A provider response without a job record (`transcriptionJob()` null): the describe call either returns a record or throws.
- `S3Service.uploadFile`, `FileUploadController`, `MeetingController` and `S3Config`: these are upload plumbing outside the transcription layer.
- `JavaStrings.ToLower`: models only the ASCII case mapping, not Java's full Unicode and locale-dependent `toLowerCase`. As argued above, this does not change any format the model derives.
- `JavaStrings.EqualsIgnoreCase`: ASCII case folding only. It is exact against the literal "COMPLETED", as argued above.
- `JavaStrings.IsWhitespace`: follows `Character.isWhitespace` for one Unicode version. Later versions may reclassify a separator.

## Findings

| source | as written | input that shows it | evidently intended | confidence | as-written member | corrected member |
|---|---|---|---|---|---|---|
| src/main/java/com/souvik/ai/meeting_summarizer/controller/TranscribeController.java:73-74 | `Map.of("status", "COMPLETED", "transcript", text)` throws when `text` is null. The exception has a null message, so the catch block's `Map.of("error", null)` throws too, and the request fails with the framework's 500 | a COMPLETED job whose result document has `"transcripts": []`, or whose first entry has no `transcript` field | answer 200 with status COMPLETED and a null transcript. The service documents its result as "the raw transcript text (or null)" | high; not executed | `TranscribeController.GetResultLosesAbsentTranscript` | `TranscribeController.IntendedCompletedFetchIsOk` |
