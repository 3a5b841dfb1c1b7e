/** The decision layer of `TranscribeService`: the media format a key names,
    the job name and media URI a submission uses, the status map a provider
    job record is reported as, and the transcript text a result document
    yields. The transcription provider, the clock, the random UUID and the
    network download are parameters. */
module TranscribeService {
  import opened Values
  import opened JavaStrings
  import opened JsonTree

  // ---------------------------------------------------------------------
  // Media format
  // ---------------------------------------------------------------------

  /** The formats a job is submitted with; `mp3` is also the default. */
  const MediaFormats: set<string> := {"mp3", "mp4", "wav", "flac", "m4a"}

  /** `getMediaFormatFromKey`: the lower-cased key is tested against each
      extension in turn; a key with none of them is submitted as mp3. */
  function MediaFormatFromKey(key: string): (format: string)
    ensures format in MediaFormats
    ensures format != "mp3" ==> EndsWith(ToLower(key), "." + format)
  {
    FormatOfLowerCased(ToLower(key))
  }

  /** The chain of suffix tests on the already lower-cased key. */
  function FormatOfLowerCased(lower: string): (format: string)
    ensures format in MediaFormats
    ensures format != "mp3" ==> EndsWith(lower, "." + format)
  {
    ExtensionLiterals();
    if EndsWith(lower, ".mp3") then "mp3"
    else if EndsWith(lower, ".mp4") then "mp4"
    else if EndsWith(lower, ".wav") then "wav"
    else if EndsWith(lower, ".flac") then "flac"
    else if EndsWith(lower, ".m4a") then "m4a"
    else "mp3"
  }

  /** A key names a format when its lower-cased form ends in "." followed by
      the format; a key that names none of them names mp3. This reading does
      not depend on any order among the extensions. */
  ghost predicate Names(key: string, format: string)
  {
    && format in MediaFormats
    && (|| EndsWith(ToLower(key), "." + format)
        || (format == "mp3" && forall other :: other in MediaFormats ==> !EndsWith(ToLower(key), "." + other)))
  }

  /** No string ends with two different extensions: their last characters
      ('3', '4', 'v', 'c', 'a') are pairwise different. */
  lemma ExtensionsExclusive(s: string, format: string, other: string)
    requires format in MediaFormats && other in MediaFormats && format != other
    requires EndsWith(s, "." + format)
    ensures !EndsWith(s, "." + other)
  {
    assert s[|s| - 1] == ("." + format)[|format|];
  }

  /** The extensions, written out. */
  lemma ExtensionLiterals()
    ensures "." + "mp3" == ".mp3" && "." + "mp4" == ".mp4" && "." + "wav" == ".wav"
    ensures "." + "flac" == ".flac" && "." + "m4a" == ".m4a"
  {
  }

  /** `getMediaFormatFromKey` tests the extensions in an order that does not
      matter: the format it returns is exactly the one the key names. */
  lemma MediaFormatIsTheNamedFormat(key: string, format: string)
    ensures Names(key, format) <==> MediaFormatFromKey(key) == format
  {
    var lower := ToLower(key);
    var chosen := MediaFormatFromKey(key);
    ExtensionLiterals();
    if EndsWith(lower, "." + chosen) {
      forall other | other in MediaFormats && other != chosen
        ensures !EndsWith(lower, "." + other)
      {
        ExtensionsExclusive(lower, chosen, other);
      }
    } else {
      assert chosen == "mp3";
      forall other | other in MediaFormats
        ensures !EndsWith(lower, "." + other)
      {
      }
    }
  }

  /** Format derivation ignores case: a key and its lower-cased form give the
      same format. */
  lemma MediaFormatIgnoresCase(key: string)
    ensures MediaFormatFromKey(ToLower(key)) == MediaFormatFromKey(key)
  {
    ToLowerIdempotent(key);
    SameLowerCaseSameFormat(ToLower(key), key);
  }

  /** The format depends on the key only through its lower-cased form. */
  lemma SameLowerCaseSameFormat(a: string, b: string)
    requires ToLower(a) == ToLower(b)
    ensures MediaFormatFromKey(a) == MediaFormatFromKey(b)
  {
  }

  /** Whatever comes before it, a suffix that lower-cases to one of the five
      extensions decides the format, e.g. "a.MP3" and "a.mp3" both give mp3. */
  lemma MediaFormatOfSuffixedKey(prefix: string, suffix: string, format: string)
    requires format in MediaFormats
    requires ToLower(suffix) == "." + format
    ensures MediaFormatFromKey(prefix + suffix) == format
  {
    ToLowerAppend(prefix, suffix);
    var lower := ToLower(prefix + suffix);
    assert lower[|lower| - |suffix|..] == "." + format;
    MediaFormatIsTheNamedFormat(prefix + suffix, format);
  }

  /** A key without any '.' has no extension and is submitted as mp3. */
  lemma MediaFormatWithoutExtension(key: string)
    requires '.' !in key
    ensures MediaFormatFromKey(key) == "mp3"
  {
    var lower := ToLower(key);
    forall other | other in MediaFormats
      ensures !EndsWith(lower, "." + other)
    {
      if |other| + 1 <= |lower| {
        assert lower[|lower| - |other| - 1] != '.';
      }
    }
    MediaFormatIsTheNamedFormat(key, "mp3");
  }

  /** "a.MP3" gives mp3, "a.wav" gives wav, and "a" falls back to mp3. */
  lemma MediaFormatExamples()
    ensures MediaFormatFromKey("a.MP3") == "mp3"
    ensures MediaFormatFromKey("a.wav") == "wav"
    ensures MediaFormatFromKey("a") == "mp3"
  {
    assert ToLower(".MP3") == ".mp3";
    MediaFormatOfSuffixedKey("a", ".MP3", "mp3");
    assert "a" + ".MP3" == "a.MP3";
    assert ToLower(".wav") == ".wav";
    MediaFormatOfSuffixedKey("a", ".wav", "wav");
    assert "a" + ".wav" == "a.wav";
    MediaFormatWithoutExtension("a");
  }

  // ---------------------------------------------------------------------
  // Job name and media URI
  // ---------------------------------------------------------------------

  const JobNamePrefix := "transcribe-"

  predicate IsLowerHex(c: char)
  {
    ('0' <= c <= '9') || ('a' <= c <= 'f')
  }

  /** The text of `UUID.toString()`: 36 characters, lower-case hexadecimal
      digits in groups of 8, 4, 4, 4 and 12 separated by '-'. */
  predicate IsUuidText(s: string)
  {
    && |s| == 36
    && forall i :: 0 <= i < |s| ==>
         if i == 8 || i == 13 || i == 18 || i == 23 then s[i] == '-' else IsLowerHex(s[i])
  }

  type UuidText = s: string | IsUuidText(s) witness "00000000-0000-0000-0000-000000000000"

  /** The job name `startTranscriptionJob` submits: the prefix, the epoch
      second of the clock, '-', and the first eight characters of a random
      UUID. */
  function JobName(epochSecond: Long, uuid: UuidText): (name: string)
    ensures |JobNamePrefix| + 10 <= |name|
    ensures name[..|JobNamePrefix|] == JobNamePrefix
    ensures name[|name| - 9] == '-'
    ensures forall i :: |name| - 8 <= i < |name| ==> IsLowerHex(name[i])
  {
    JobNamePrefix + LongToString(epochSecond) + "-" + uuid[..8]
  }

  /** The two varying parts of a job name. */
  datatype JobNameParts = JobNameParts(epochSecond: int, uuidPrefix: string)

  /** Reads a job name back: the prefix, a decimal number, '-', and the last
      eight characters. */
  function ParseJobName(name: string): Option<JobNameParts>
  {
    var p := |JobNamePrefix|;
    if |name| < p + 10 || name[..p] != JobNamePrefix || name[|name| - 9] != '-' then None
    else
      match ParseDecimal(name[p..|name| - 9])
      case None => None
      case Some(t) => Some(JobNameParts(t, name[|name| - 8..]))
  }

  /** A job name records its clock reading and UUID prefix recoverably. */
  lemma JobNameRoundTrip(epochSecond: Long, uuid: UuidText)
    ensures ParseJobName(JobName(epochSecond, uuid)) == Some(JobNameParts(epochSecond, uuid[..8]))
  {
    var name := JobName(epochSecond, uuid);
    var digits := LongToString(epochSecond);
    assert name == JobNamePrefix + digits + "-" + uuid[..8];
    assert name[|JobNamePrefix|..|name| - 9] == digits;
    assert name[|name| - 8..] == uuid[..8];
    LongToStringRoundTrip(epochSecond);
  }

  /** Job names collide only when both the epoch second and the UUID prefix
      do; whether they do is up to the clock and the random source. */
  lemma DistinctPartsGiveDistinctJobNames(t1: Long, u1: UuidText, t2: Long, u2: UuidText)
    requires t1 != t2 || u1[..8] != u2[..8]
    ensures JobName(t1, u1) != JobName(t2, u2)
  {
    JobNameRoundTrip(t1, u1);
    JobNameRoundTrip(t2, u2);
  }

  /** The S3 URI of the media object. */
  function MediaUri(bucket: string, s3Key: string): string
  {
    "s3://" + bucket + "/" + s3Key
  }

  /** The position of the first occurrence of `c` in `s`. */
  function IndexOf(s: string, c: char): (r: Option<nat>)
    ensures r.Some? ==> r.value < |s| && s[r.value] == c && c !in s[..r.value]
    ensures r.None? ==> c !in s
  {
    if s == [] then None
    else if s[0] == c then Some(0)
    else
      match IndexOf(s[1..], c)
      case None => None
      case Some(k) => Some(k + 1)
  }

  /** Splits an `s3://bucket/key` URI into bucket and key at the first '/'
      after the scheme. */
  function SplitMediaUri(uri: string): Option<(string, string)>
  {
    if |uri| < 5 || uri[..5] != "s3://" then None
    else
      var rest := uri[5..];
      match IndexOf(rest, '/')
      case None => None
      case Some(k) => Some((rest[..k], rest[k + 1..]))
  }

  /** The media URI names the bucket and the key it was built from (S3 bucket
      names contain no '/'). */
  lemma MediaUriRoundTrip(bucket: string, s3Key: string)
    requires '/' !in bucket
    ensures SplitMediaUri(MediaUri(bucket, s3Key)) == Some((bucket, s3Key))
  {
    var uri := MediaUri(bucket, s3Key);
    var rest := uri[5..];
    assert rest == bucket + "/" + s3Key;
    assert rest[|bucket|] == '/';
    assert rest[..|bucket|] == bucket;
    var k := IndexOf(rest, '/');
    assert k.Some?;
    assert k.value == |bucket|;
    assert rest[|bucket| + 1..] == s3Key;
  }

  // ---------------------------------------------------------------------
  // Starting a job
  // ---------------------------------------------------------------------

  /** The language every job is submitted with. */
  const LanguageCode := "en-US"

  /** The request `startTranscriptionJob` sends to the provider. No output
      bucket is set. */
  datatype JobRequest = JobRequest(jobName: string, languageCode: string, mediaFormat: string, mediaFileUri: string)

  function JobRequestFor(bucket: string, s3Key: string, epochSecond: Long, uuid: UuidText): JobRequest
  {
    JobRequest(JobName(epochSecond, uuid), LanguageCode, MediaFormatFromKey(s3Key), MediaUri(bucket, s3Key))
  }

  /** The submitted request carries the job name's clock reading and UUID
      prefix, one of the five formats, and a media URI that names the bucket
      and the key. */
  lemma JobRequestRecordsItsInputs(bucket: string, s3Key: string, epochSecond: Long, uuid: UuidText)
    requires '/' !in bucket
    ensures var request := JobRequestFor(bucket, s3Key, epochSecond, uuid);
      && ParseJobName(request.jobName) == Some(JobNameParts(epochSecond, uuid[..8]))
      && request.languageCode == LanguageCode
      && request.mediaFormat in MediaFormats
      && SplitMediaUri(request.mediaFileUri) == Some((bucket, s3Key))
  {
    JobNameRoundTrip(epochSecond, uuid);
    MediaUriRoundTrip(bucket, s3Key);
  }

  /** `startTranscriptionJob`: submits one request; the provider's exception
      propagates, and otherwise the response holds exactly the job name and
      the media URI. */
  function StartTranscriptionJob(bucket: string, s3Key: string, epochSecond: Long, uuid: UuidText,
                                 submit: JobRequest -> Outcome<()>): (r: Outcome<StringMap>)
    ensures var submitted := submit(JobRequestFor(bucket, s3Key, epochSecond, uuid));
      && (r.Threw? <==> submitted.Threw?)
      && (r.Threw? ==> r.message == submitted.message)
    ensures r.Returned? ==> r.value.Keys == {"jobName", "mediaUri"}
    ensures r.Returned? ==> r.value["mediaUri"] == Some("s3://" + bucket + "/" + s3Key)
    ensures r.Returned? ==> r.value["jobName"] == Some(JobName(epochSecond, uuid))
  {
    var request := JobRequestFor(bucket, s3Key, epochSecond, uuid);
    match submit(request)
    case Threw(message) => Threw(message)
    case Returned(_) => Returned(map["jobName" := Some(request.jobName), "mediaUri" := Some(request.mediaFileUri)])
  }

  // ---------------------------------------------------------------------
  // Job status
  // ---------------------------------------------------------------------

  /** Where the provider put the transcript of a completed job. */
  datatype Transcript = Transcript(transcriptFileUri: Option<string>)

  /** The parts of the provider's job record the service reads. `status` is
      the raw status string (QUEUED, IN_PROGRESS, FAILED, COMPLETED, or any
      other value the provider sends). */
  datatype ProviderJob = ProviderJob(status: Option<string>, transcript: Option<Transcript>, failureReason: Option<string>)

  function TranscriptUriOf(job: ProviderJob): Option<string>
  {
    if job.transcript.Some? then job.transcript.value.transcriptFileUri else None
  }

  /** `getJobStatus`: the status map reported for a provider job record. */
  function StatusMap(job: ProviderJob): (m: StringMap)
    ensures "status" in m && m["status"] == job.status
    ensures m.Keys <= {"status", "transcriptUri", "failureReason"}
    ensures "transcriptUri" in m <==> job.transcript.Some? && job.transcript.value.transcriptFileUri.Some?
    ensures "transcriptUri" in m ==> m["transcriptUri"] == job.transcript.value.transcriptFileUri
    ensures "failureReason" in m <==> job.failureReason.Some?
    ensures "failureReason" in m ==> m["failureReason"] == job.failureReason
  {
    var withStatus := map["status" := job.status];
    var withUri :=
      if job.transcript.Some? && job.transcript.value.transcriptFileUri.Some?
      then withStatus["transcriptUri" := job.transcript.value.transcriptFileUri]
      else withStatus;
    if job.failureReason.Some? then withUri["failureReason" := job.failureReason] else withUri
  }

  /** What a caller can learn about a job: its status, transcript URI and
      failure reason, null where there is none. */
  datatype StatusView = StatusView(status: Option<string>, transcriptUri: Option<string>, failureReason: Option<string>)

  function ViewOf(job: ProviderJob): StatusView
  {
    StatusView(job.status, TranscriptUriOf(job), job.failureReason)
  }

  /** How a caller reads a status map with `Map.get`. */
  function ReadStatusMap(m: StringMap): StatusView
  {
    StatusView(Get(m, "status"), Get(m, "transcriptUri"), Get(m, "failureReason"))
  }

  /** Reading the status map gives back exactly what the job record says. */
  lemma StatusMapRoundTrip(job: ProviderJob)
    ensures ReadStatusMap(StatusMap(job)) == ViewOf(job)
  {
  }

  /** Two job records give the same status map exactly when they agree on
      status, transcript URI and failure reason. */
  lemma StatusMapDeterminedByView(a: ProviderJob, b: ProviderJob)
    ensures StatusMap(a) == StatusMap(b) <==> ViewOf(a) == ViewOf(b)
  {
  }

  /** `getJobStatus` with the provider's describe call as a parameter: the
      provider's exception propagates unchanged; otherwise the answer is the
      status map of the returned record, so `status` is always a key (null
      or not) and no other keys than the three occur. */
  function GetJobStatus(jobName: string, describe: string -> Outcome<ProviderJob>): (r: Outcome<StringMap>)
    ensures describe(jobName).Threw? <==> r.Threw?
    ensures r.Threw? ==> r.message == describe(jobName).message
    ensures r.Returned? ==> r.value == StatusMap(describe(jobName).value)
    ensures r.Returned? ==> "status" in r.value && r.value.Keys <= {"status", "transcriptUri", "failureReason"}
    ensures r.Returned? ==> ReadStatusMap(r.value) == ViewOf(describe(jobName).value)
  {
    match describe(jobName)
    case Threw(message) => Threw(message)
    case Returned(job) => StatusMapRoundTrip(job); Returned(StatusMap(job))
  }

  // ---------------------------------------------------------------------
  // Transcript text
  // ---------------------------------------------------------------------

  /** Where a transcription result document keeps the transcript. */
  const TranscriptPath: seq<Step> := [Field("results"), Field("transcripts"), Index(0), Field("transcript")]

  /** The selection `fetchTranscriptTextFromUri` makes in the downloaded
      document: the `transcript` text of the first entry of
      `results.transcripts` when that is a non-empty array, null otherwise.
      It agrees with following the path results, transcripts, 0, transcript
      through the document and reading the node found as text. */
  function TranscriptText(root: Json): (r: Option<string>)
    ensures r == AsText(Lookup(root, TranscriptPath), None)
  {
    var transcripts := PathField(PathField(Some(root), "results"), "transcripts");
    if transcripts.Some? && transcripts.value.JArray? && |transcripts.value.items| > 0
    then AsText(PathField(Some(transcripts.value.items[0]), "transcript"), None)
    else None
  }

  /** A missing `results.transcripts`, one that is not an array and an empty
      array all give null rather than an error. */
  lemma NoTranscriptEntriesGiveNull(root: Json)
    requires var transcripts := Lookup(root, [Field("results"), Field("transcripts")]);
      transcripts.None? || !transcripts.value.JArray? || transcripts.value.items == []
    ensures TranscriptText(root) == None
  {
  }

  /** The document the provider writes for a finished job: job name,
      status, and the transcripts under `results`. */
  function ResultDocument(jobName: string, transcripts: seq<string>): Json
  {
    JObject(map[
      "jobName" := JString(jobName),
      "status" := JString("COMPLETED"),
      "results" := JObject(map[
        "transcripts" := JArray(seq(|transcripts|, i requires 0 <= i < |transcripts| =>
                                      JObject(map["transcript" := JString(transcripts[i])]))),
        "items" := JArray([])])])
  }

  /** Selecting from a result document returns its first transcript, and
      null when it has none. */
  lemma TranscriptTextOfResultDocument(jobName: string, transcripts: seq<string>)
    ensures transcripts != [] ==> TranscriptText(ResultDocument(jobName, transcripts)) == Some(transcripts[0])
    ensures transcripts == [] ==> TranscriptText(ResultDocument(jobName, transcripts)) == None
  {
  }

  /** `fetchTranscriptTextFromUri` with the download and parse of the URI as
      a parameter: a failure to download or parse propagates, and otherwise
      the selection decides the text. */
  function FetchTranscriptTextFromUri(transcriptUri: string, download: string -> Outcome<Json>): (r: Outcome<Option<string>>)
    ensures download(transcriptUri).Threw? <==> r.Threw?
    ensures r.Threw? ==> r.message == download(transcriptUri).message
    ensures r.Returned? ==> r.value == AsText(Lookup(download(transcriptUri).value, TranscriptPath), None)
  {
    match download(transcriptUri)
    case Threw(message) => Threw(message)
    case Returned(root) => Returned(TranscriptText(root))
  }
}
