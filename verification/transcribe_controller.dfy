/** The three handlers of `TranscribeController` (start, status, result) as
    pure functions. Each one takes the service calls it may make as
    parameters: a function from the call's argument to what the call
    produced. It returns the HTTP response together with the service calls
    it made, in order, so the model can say which calls did not happen. */
module TranscribeController {
  import opened Values
  import opened JavaStrings

  /** A call into the transcription service. */
  datatype Call =
    | StartCall(s3Key: string)
    | StatusCall(jobName: string)
    | FetchCall(transcriptUri: string)

  /** What a handler answers. `Escaped` is an exception that left the
      handler, which the web framework turns into its own 500 response. */
  datatype Response =
    | Ok(body: StringMap)
    | BadRequest(body: StringMap)
    | ServerError(body: StringMap)
    | Escaped

  datatype Handled = Handled(response: Response, calls: seq<Call>)

  const S3KeyRequired := "s3Key is required in request body"
  const NotReadyMessage := "Transcript not ready yet"
  const NoTranscriptUri := "No transcriptUri returned by Transcribe"

  /** The body `Map.of("error", message)` for a message known not to be null. */
  function ErrorBody(message: string): StringMap
  {
    map["error" := Some(message)]
  }

  /** The catch block every handler shares: a 500 with the exception's
      message. `Map.of` refuses a null message, and the exception it throws
      from inside the catch block leaves the handler. */
  function CatchAll(message: Option<string>): (r: Response)
    ensures message.Some? <==> r.ServerError?
    ensures r.ServerError? ==> r.body == ErrorBody(message.value)
    ensures message.None? <==> r == Escaped
  {
    match MapOf1("error", message)
    case Returned(body) => ServerError(body)
    case Threw(_) => Escaped
  }

  /** `ResponseEntity.ok(Map.of(...))` inside the try block: a map that could
      not be built throws, and the catch block handles that exception. */
  function OkOrCatch(body: Outcome<StringMap>): Response
  {
    match body
    case Returned(b) => Ok(b)
    case Threw(message) => CatchAll(message)
  }

  /** True for a missing request field and for a blank one. */
  predicate MissingOrBlank(s: Option<string>)
  {
    s.None? || IsBlank(s.value)
  }

  /** `startJob`: rejects a missing or blank `s3Key` before calling anything;
      otherwise calls the service once with that key and answers with its map
      or with its exception's message. */
  function StartJob(request: StringMap, start: string -> Outcome<StringMap>): (h: Handled)
    ensures MissingOrBlank(Get(request, "s3Key")) <==> h.calls == []
    ensures MissingOrBlank(Get(request, "s3Key")) <==> h.response.BadRequest?
    ensures h.response.BadRequest? ==> h.response.body == ErrorBody(S3KeyRequired)
    ensures !MissingOrBlank(Get(request, "s3Key")) ==>
      var key := Get(request, "s3Key").value;
      && h.calls == [StartCall(key)]
      && (start(key).Returned? ==> h.response == Ok(start(key).value))
      && (start(key).Threw? && start(key).message.Some? ==>
            h.response == ServerError(ErrorBody(start(key).message.value)))
      && (start(key).Threw? && start(key).message.None? ==> h.response == Escaped)
  {
    var s3Key := Get(request, "s3Key");
    if MissingOrBlank(s3Key) then
      Handled(BadRequest(ErrorBody(S3KeyRequired)), [])
    else
      var response :=
        match start(s3Key.value)
        case Returned(resp) => Ok(resp)
        case Threw(message) => CatchAll(message);
      Handled(response, [StartCall(s3Key.value)])
  }

  /** `getStatus`: calls the service once and passes its map through, or
      answers with its exception's message. */
  function GetStatus(jobName: string, status: string -> Outcome<StringMap>): (h: Handled)
    ensures h.calls == [StatusCall(jobName)]
    ensures status(jobName).Returned? <==> h.response.Ok?
    ensures h.response.Ok? ==> h.response.body == status(jobName).value
    ensures status(jobName).Threw? && status(jobName).message.Some? ==>
      h.response == ServerError(ErrorBody(status(jobName).message.value))
    ensures status(jobName).Threw? && status(jobName).message.None? ==> h.response == Escaped
  {
    var response :=
      match status(jobName)
      case Returned(resp) => Ok(resp)
      case Threw(message) => CatchAll(message);
    Handled(response, [StatusCall(jobName)])
  }

  /** True when the status map says the job is done, ignoring case. */
  predicate IsCompleted(statusMap: StringMap)
  {
    EqualsIgnoreCase("COMPLETED", Get(statusMap, "status"))
  }

  /** `getResult`, as written: asks for the status; a status other than
      COMPLETED is answered "not ready"; COMPLETED without a transcript URI is
      an error; otherwise the transcript is fetched from that URI and
      returned. Java's `Map.of` refuses null values, so a null status or a
      null transcript text ends in the catch block. */
  function GetResult(jobName: string, status: string -> Outcome<StringMap>,
                     fetch: string -> Outcome<Option<string>>): (h: Handled)
    ensures |h.calls| >= 1 && h.calls[0] == StatusCall(jobName)
    ensures !h.response.BadRequest?
    ensures status(jobName).Threw? ==> h.calls == [StatusCall(jobName)]
    ensures status(jobName).Threw? && status(jobName).message.Some? ==>
      h.response == ServerError(ErrorBody(status(jobName).message.value))
    ensures status(jobName).Threw? && status(jobName).message.None? ==> h.response == Escaped
    ensures status(jobName).Returned? && !IsCompleted(status(jobName).value) ==>
      var st := Get(status(jobName).value, "status");
      && h.calls == [StatusCall(jobName)]
      && (st.Some? ==> h.response == Ok(map["status" := st, "message" := Some(NotReadyMessage)]))
      && (st.None? ==> h.response == Escaped)
    ensures status(jobName).Returned? && IsCompleted(status(jobName).value)
            && Get(status(jobName).value, "transcriptUri").None? ==>
      && h.calls == [StatusCall(jobName)]
      && h.response == ServerError(ErrorBody(NoTranscriptUri))
    ensures status(jobName).Returned? && IsCompleted(status(jobName).value)
            && Get(status(jobName).value, "transcriptUri").Some? ==>
      var uri := Get(status(jobName).value, "transcriptUri").value;
      && h.calls == [StatusCall(jobName), FetchCall(uri)]
      && (fetch(uri).Returned? && fetch(uri).value.Some? ==>
            h.response == Ok(map["status" := Some("COMPLETED"), "transcript" := fetch(uri).value]))
      && (fetch(uri).Returned? && fetch(uri).value.None? ==> h.response == Escaped)
      && (fetch(uri).Threw? && fetch(uri).message.Some? ==>
            h.response == ServerError(ErrorBody(fetch(uri).message.value)))
      && (fetch(uri).Threw? && fetch(uri).message.None? ==> h.response == Escaped)
  {
    var first := [StatusCall(jobName)];
    match status(jobName)
    case Threw(message) => Handled(CatchAll(message), first)
    case Returned(statusMap) =>
      var st := Get(statusMap, "status");
      if !EqualsIgnoreCase("COMPLETED", st) then
        Handled(OkOrCatch(MapOf2("status", st, "message", Some(NotReadyMessage))), first)
      else
        var transcriptUri := Get(statusMap, "transcriptUri");
        if transcriptUri.None? then
          Handled(ServerError(ErrorBody(NoTranscriptUri)), first)
        else
          var calls := first + [FetchCall(transcriptUri.value)];
          match fetch(transcriptUri.value)
          case Threw(message) => Handled(CatchAll(message), calls)
          case Returned(text) =>
            Handled(OkOrCatch(MapOf2("status", Some("COMPLETED"), "transcript", text)), calls)
  }

  /** An incomplete job is never reported as an error: any status the
      provider reports other than COMPLETED (in any case) is answered with 200
      and the "not ready" message, and nothing is fetched. */
  lemma NotReadyIsNeverAnError(jobName: string, status: string -> Outcome<StringMap>,
                               fetch: string -> Outcome<Option<string>>, reported: string)
    requires status(jobName).Returned?
    requires Get(status(jobName).value, "status") == Some(reported)
    requires ToLower(reported) != ToLower("COMPLETED")
    ensures GetResult(jobName, status, fetch).response.Ok?
    ensures GetResult(jobName, status, fetch).response.body["message"] == Some(NotReadyMessage)
    ensures GetResult(jobName, status, fetch).response.body["status"] == Some(reported)
    ensures forall c :: c in GetResult(jobName, status, fetch).calls ==> !c.FetchCall?
  {
    EqualsIgnoreCaseIsLowerEquality("COMPLETED", reported);
  }

  /** The transcript is fetched exactly when the status reads COMPLETED in
      any case and the status map carries a transcript URI, and then from
      that URI. */
  lemma FetchOnlyForCompletedJobWithUri(jobName: string, status: string -> Outcome<StringMap>,
                                        fetch: string -> Outcome<Option<string>>, uri: string)
    ensures FetchCall(uri) in GetResult(jobName, status, fetch).calls <==>
      && status(jobName).Returned?
      && Get(status(jobName).value, "status").Some?
      && ToLower("COMPLETED") == ToLower(Get(status(jobName).value, "status").value)
      && Get(status(jobName).value, "transcriptUri") == Some(uri)
  {
    if status(jobName).Returned? && Get(status(jobName).value, "status").Some? {
      EqualsIgnoreCaseIsLowerEquality("COMPLETED", Get(status(jobName).value, "status").value);
    }
  }

  /** A completed job whose transcript URI is known and whose fetch returned
      a null text: the case `getResult` as written turns into an exception. */
  predicate CompletedWithoutText(jobName: string, status: string -> Outcome<StringMap>,
                                 fetch: string -> Outcome<Option<string>>)
  {
    && status(jobName).Returned?
    && IsCompleted(status(jobName).value)
    && Get(status(jobName).value, "transcriptUri").Some?
    && fetch(Get(status(jobName).value, "transcriptUri").value) == Returned(None)
  }

  /** As written, a completed job whose result document has no transcript
      entry does not get a 200 answer: `Map.of` rejects the null text and
      the handler ends in an escaped exception. */
  lemma GetResultLosesAbsentTranscript(jobName: string, status: string -> Outcome<StringMap>,
                                       fetch: string -> Outcome<Option<string>>)
    requires CompletedWithoutText(jobName, status, fetch)
    ensures GetResult(jobName, status, fetch).response == Escaped
  {
  }

  /** `getResult` as the service's "text or null" contract intends: a
      completed job without a transcript entry is answered 200 with a null
      transcript. Every other case is answered as `GetResult` answers it. */
  function GetResultIntended(jobName: string, status: string -> Outcome<StringMap>,
                             fetch: string -> Outcome<Option<string>>): (h: Handled)
    ensures h.calls == GetResult(jobName, status, fetch).calls
    ensures !CompletedWithoutText(jobName, status, fetch) ==> h == GetResult(jobName, status, fetch)
  {
    var written := GetResult(jobName, status, fetch);
    if CompletedWithoutText(jobName, status, fetch)
    then Handled(Ok(map["status" := Some("COMPLETED"), "transcript" := None]), written.calls)
    else written
  }

  /** With the correction, a completed job whose transcript was fetched
      without an exception is always answered 200 with the fetched text,
      null included. */
  lemma IntendedCompletedFetchIsOk(jobName: string, status: string -> Outcome<StringMap>,
                                   fetch: string -> Outcome<Option<string>>)
    requires status(jobName).Returned? && IsCompleted(status(jobName).value)
    requires Get(status(jobName).value, "transcriptUri").Some?
    requires fetch(Get(status(jobName).value, "transcriptUri").value).Returned?
    ensures var h := GetResultIntended(jobName, status, fetch);
      && h.response.Ok?
      && h.response.body.Keys == {"status", "transcript"}
      && h.response.body["status"] == Some("COMPLETED")
      && h.response.body["transcript"] == fetch(Get(status(jobName).value, "transcriptUri").value).value
  {
  }
}
