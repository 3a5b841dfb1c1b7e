/** The controller wired to the service model: the start, status and result
    requests end to end, with the provider's submit and describe calls and
    the transcript download as the only parameters. */
module Orchestrator {
  import opened Values
  import opened JavaStrings
  import opened JsonTree
  import opened TranscribeService
  import opened TranscribeController

  /** The service's start operation for a configured bucket, one clock
      reading and one random UUID. */
  function StartService(bucket: string, epochSecond: Long, uuid: UuidText,
                        submit: JobRequest -> Outcome<()>): string -> Outcome<StringMap>
  {
    key => StartTranscriptionJob(bucket, key, epochSecond, uuid, submit)
  }

  function StatusService(describe: string -> Outcome<ProviderJob>): string -> Outcome<StringMap>
  {
    jobName => GetJobStatus(jobName, describe)
  }

  function FetchService(download: string -> Outcome<Json>): string -> Outcome<Option<string>>
  {
    uri => FetchTranscriptTextFromUri(uri, download)
  }

  /** A start request with a usable key makes one submission. When the
      provider accepts it the answer is 200 with exactly the job name and the
      media URI; the job name reads back as the clock reading and the UUID
      prefix, and the media URI as the bucket and the key. When the provider
      refuses it the answer is not 200. */
  lemma StartAcceptedEndToEnd(request: StringMap, bucket: string, epochSecond: Long, uuid: UuidText,
                              submit: JobRequest -> Outcome<()>, key: string)
    requires Get(request, "s3Key") == Some(key) && !IsBlank(key)
    requires '/' !in bucket
    ensures var h := StartJob(request, StartService(bucket, epochSecond, uuid, submit));
      && h.calls == [StartCall(key)]
      && (submit(JobRequestFor(bucket, key, epochSecond, uuid)).Threw? ==> !h.response.Ok?)
    ensures var h := StartJob(request, StartService(bucket, epochSecond, uuid, submit));
      submit(JobRequestFor(bucket, key, epochSecond, uuid)).Returned? ==>
      && h.response.Ok?
      && h.response.body.Keys == {"jobName", "mediaUri"}
      && h.response.body["jobName"].Some?
      && h.response.body["jobName"].value[..|JobNamePrefix|] == JobNamePrefix
      && ParseJobName(h.response.body["jobName"].value) == Some(JobNameParts(epochSecond, uuid[..8]))
      && h.response.body["mediaUri"].Some?
      && SplitMediaUri(h.response.body["mediaUri"].value) == Some((bucket, key))
  {
    JobNameRoundTrip(epochSecond, uuid);
    MediaUriRoundTrip(bucket, key);
  }

  /** A status request answers 200 with the status map of the provider's job
      record: `status` is always a key, even when null, no keys besides the
      three occur, and each reads back as the record holds it. */
  lemma StatusEndToEnd(jobName: string, describe: string -> Outcome<ProviderJob>)
    requires describe(jobName).Returned?
    ensures var h := GetStatus(jobName, StatusService(describe));
      && h.calls == [StatusCall(jobName)]
      && h.response.Ok?
      && h.response.body == StatusMap(describe(jobName).value)
      && "status" in h.response.body
      && h.response.body.Keys <= {"status", "transcriptUri", "failureReason"}
      && ReadStatusMap(h.response.body) == ViewOf(describe(jobName).value)
  {
  }

  /** A job still QUEUED or IN_PROGRESS, and also one that FAILED, is
      answered 200 with "Transcript not ready yet" and nothing is fetched. */
  lemma UnfinishedJobIsNotReady(jobName: string, describe: string -> Outcome<ProviderJob>,
                                download: string -> Outcome<Json>)
    requires describe(jobName).Returned?
    requires describe(jobName).value.status in {Some("QUEUED"), Some("IN_PROGRESS"), Some("FAILED")}
    ensures var h := GetResult(jobName, StatusService(describe), FetchService(download));
      && h.calls == [StatusCall(jobName)]
      && h.response == Ok(map["status" := describe(jobName).value.status, "message" := Some(NotReadyMessage)])
  {
    var reported := describe(jobName).value.status.value;
    NotReadyIsNeverAnError(jobName, StatusService(describe), FetchService(download), reported);
  }

  /** A COMPLETED job whose result document starts its transcripts with
      `text` is answered 200 with that text, after fetching the transcript
      URI the provider reported. */
  lemma CompletedJobEndToEnd(jobName: string, describe: string -> Outcome<ProviderJob>,
                             download: string -> Outcome<Json>, uri: string,
                             text: string, more: seq<string>)
    requires describe(jobName) == Returned(ProviderJob(Some("COMPLETED"), Some(Transcript(Some(uri))), None))
    requires download(uri) == Returned(ResultDocument(jobName, [text] + more))
    ensures var h := GetResult(jobName, StatusService(describe), FetchService(download));
      && h.calls == [StatusCall(jobName), FetchCall(uri)]
      && h.response == Ok(map["status" := Some("COMPLETED"), "transcript" := Some(text)])
  {
    TranscriptTextOfResultDocument(jobName, [text] + more);
  }

  /** A COMPLETED job whose result document has no transcripts: as written
      the request ends in an escaped exception; as intended it is answered
      200 with a null transcript. */
  lemma CompletedJobWithoutTranscripts(jobName: string, describe: string -> Outcome<ProviderJob>,
                                       download: string -> Outcome<Json>, uri: string)
    requires describe(jobName) == Returned(ProviderJob(Some("COMPLETED"), Some(Transcript(Some(uri))), None))
    requires download(uri) == Returned(ResultDocument(jobName, []))
    ensures GetResult(jobName, StatusService(describe), FetchService(download)).response == Escaped
    ensures GetResultIntended(jobName, StatusService(describe), FetchService(download)).response
            == Ok(map["status" := Some("COMPLETED"), "transcript" := None])
  {
    TranscriptTextOfResultDocument(jobName, []);
  }
}
