/** tools/post_tiktok.py: post a video through TikTok's Content Posting API
    in FILE_UPLOAD mode: precondition, an init call declaring one chunk, a
    single PUT of the whole file, and a status poll. */
module PostTikTok {
  import opened Wrappers
  import opened Text
  import opened Captions
  import opened Http

  const Platform: string := "tiktok"
  const TikTokApi: string := "https://open.tiktokapis.com/v2"

  const MissingCredentials: string := "TIKTOK_ACCESS_TOKEN must be set in .env"
  const TimedOutMessage: string := "Publish timed out after 300s"

  /** TikTok fails when publishing is not confirmed before the ceiling. */
  const Policy: TimeoutPolicy := FailOnTimeout(TimedOutMessage)

  datatype Config = Config(accessToken: string)

  /** The init response, the upload response, and the status responses that
      arrive before the ceiling. */
  datatype Transcript = Transcript(init: Response, upload: Response, polls: seq<Response>)

  /** An accepted init response carries `data.publish_id` and
      `data.upload_url`; the source indexes both without a check, so a
      response lacking them is outside what it handles. */
  predicate InitCarriesHandles(r: Response) {
    r.status == 200 && Field(r, "error.code") == Some("ok") ==>
      "data.publish_id" in r.fields && "data.upload_url" in r.fields
  }

  function JsonHeaders(cfg: Config): map<string, string> {
    map["Authorization" := "Bearer " + cfg.accessToken,
        "Content-Type" := "application/json; charset=UTF-8"]
  }

  /** The init body: the caption as title, public privacy, and one chunk of
      the whole file. */
  function InitBody(caption: string, fileSize: nat): (b: map<string, Json>)
    ensures Wrappers.Get(b, "source_info.video_size") == Some(JNum(fileSize))
    ensures Wrappers.Get(b, "source_info.chunk_size") == Some(JNum(fileSize))
    ensures Wrappers.Get(b, "source_info.total_chunk_count") == Some(JNum(1))
    ensures Wrappers.Get(b, "post_info.title") == Some(JStr(caption))
  {
    map["post_info.title" := JStr(caption),
        "post_info.privacy_level" := JStr("PUBLIC_TO_EVERYONE"),
        "source_info.source" := JStr("FILE_UPLOAD"),
        "source_info.video_size" := JNum(fileSize),
        "source_info.chunk_size" := JNum(fileSize),
        "source_info.total_chunk_count" := JNum(1)]
  }

  /** The init call: a JSON POST of the init body, with the bearer token. */
  function InitRequest(cfg: Config, caption: string, fileSize: nat): (r: Request)
    ensures r.verb == Post && r.body == JsonBody(InitBody(caption, fileSize))
    ensures Wrappers.Get(r.headers, "Authorization") == Some("Bearer " + cfg.accessToken)
  {
    Request(Post, TikTokApi + "/post/publish/video/init/", map[], JsonHeaders(cfg),
      JsonBody(InitBody(caption, fileSize)))
  }

  /** `f"bytes 0-{file_size - 1}/{file_size}"`: the unit, the first byte,
      a dash, the last byte, a slash and the total. */
  function ContentRange(fileSize: nat): string {
    "bytes 0-" + IntToString(fileSize - 1) + "/" + IntToString(fileSize)
  }

  /** The header split at its separators, in the shape the range parser
      reads. */
  lemma ContentRangeParts(fileSize: nat)
    ensures ContentRange(fileSize) == "bytes " + ("0" + ['-'] + (IntToString(fileSize - 1) + ['/'] + IntToString(fileSize)))
  {
  }

  function UploadHeaders(fileSize: nat): (h: map<string, string>)
    ensures Wrappers.Get(h, "Content-Range") == Some(ContentRange(fileSize))
    ensures Wrappers.Get(h, "Content-Length") == Some(NatToString(fileSize))
    ensures Wrappers.Get(h, "Content-Type") == Some("video/mp4")
  {
    map["Content-Range" := ContentRange(fileSize),
        "Content-Type" := "video/mp4",
        "Content-Length" := NatToString(fileSize)]
  }

  /** The upload streams the file to the upload URL with the size headers. */
  function UploadRequest(uploadUrl: string, videoPath: string, fileSize: nat): (r: Request)
    ensures r.verb == Put && r.url == uploadUrl && r.body == FileStream(videoPath)
    ensures r.headers == UploadHeaders(fileSize)
  {
    Request(Put, uploadUrl, map[], UploadHeaders(fileSize), FileStream(videoPath))
  }

  /** A status check names the publish id in its JSON body. */
  function StatusRequest(cfg: Config, publishId: string): (r: Request)
    ensures r.verb == Post && r.body.JsonBody?
    ensures Wrappers.Get(r.body.fields, "publish_id") == Some(JStr(publishId))
  {
    Request(Post, TikTokApi + "/post/publish/status/fetch/", map[], JsonHeaders(cfg),
      JsonBody(map["publish_id" := JStr(publishId)]))
  }

  /** A status response counts only with HTTP 200; then `data.status` decides. */
  function Judge(r: Response): (v: Verdict)
    ensures r.status != 200 ==> v == Pending
    ensures v == Complete <==> r.status == 200 && Field(r, "data.status") == Some("PUBLISH_COMPLETE")
    ensures v.Errored? <==>
              r.status == 200 && (Field(r, "data.status") == Some("FAILED") || Field(r, "data.status") == Some("PUBLISH_FAILED"))
    ensures v.Errored? ==> v.resp == r
  {
    if r.status != 200 then Pending
    else
      var status := Field(r, "data.status").GetOr("");
      if status == "PUBLISH_COMPLETE" then Complete
      else if status == "FAILED" || status == "PUBLISH_FAILED" then Errored(r)
      else Pending
  }

  /** What `post_video(video_path, caption, hashtags)` does, where `file` is
      the size of the file at `videoPath`, or `None` when it does not exist. */
  function Run(cfg: Config, videoPath: string, file: Option<nat>, caption: string, hashtags: seq<string>, t: Transcript): (x: Exchange)
    requires InitCarriesHandles(t.init)
    ensures x.outcome.platform == Platform
    ensures x.outcome.success <==> x.outcome.error.None?
    ensures |x.sent| <= |t.polls| + 2
    ensures !x.outcome.success ==> x.outcome.ids == map[]
    ensures x.outcome.success ==> x.outcome.ids.Keys == {"publish_id"}
  {
    if cfg.accessToken == "" then
      Exchange(Failure(Platform, MissingCredentials), [])
    else if file.None? then
      Exchange(Failure(Platform, "Video file not found: " + videoPath), [])
    else
      var init := InitRequest(cfg, FullCaption(caption, TikTokSeparator, hashtags), file.value);
      var rest := AfterInit(cfg, videoPath, file.value, t);
      Exchange(rest.outcome, [init] + rest.sent)
  }

  /** The steps after the init request. */
  function AfterInit(cfg: Config, videoPath: string, fileSize: nat, t: Transcript): (x: Exchange)
    requires InitCarriesHandles(t.init)
    ensures x.outcome.platform == Platform
    ensures x.outcome.success <==> x.outcome.error.None?
    ensures |x.sent| <= |t.polls| + 1
    ensures !x.outcome.success ==> x.outcome.ids == map[]
    ensures x.outcome.success ==> x.outcome.ids.Keys == {"publish_id"}
  {
    if t.init.status != 200 then
      Exchange(Failure(Platform, "Init failed (" + NatToString(t.init.status) + "): " + t.init.text), [])
    else if Field(t.init, "error.code") != Some("ok") then
      Exchange(Failure(Platform, "Init error: " + t.init.text), [])
    else
      AfterAccepted(cfg, videoPath, fileSize, t.init.fields["data.publish_id"], t.init.fields["data.upload_url"], t)
  }

  /** The steps after an accepted init: upload the file, then poll. */
  function AfterAccepted(cfg: Config, videoPath: string, fileSize: nat, publishId: string, uploadUrl: string, t: Transcript): (x: Exchange)
    ensures x.outcome.platform == Platform
    ensures x.outcome.success <==> x.outcome.error.None?
    ensures 1 <= |x.sent| <= |t.polls| + 1
    ensures x.sent[0] == UploadRequest(uploadUrl, videoPath, fileSize)
    ensures !x.outcome.success ==> x.outcome.ids == map[]
    ensures x.outcome.success ==> x.outcome.ids.Keys == {"publish_id"}
  {
    var upload := UploadRequest(uploadUrl, videoPath, fileSize);
    if t.upload.status != 200 && t.upload.status != 201 then
      Exchange(Failure(Platform, "Upload failed (" + NatToString(t.upload.status) + "): " + t.upload.text), [upload])
    else
      var end := FirstTerminal(t.polls, Judge, 0);
      Exchange(AfterPoll(publishId, end),
        [upload] + Repeat(StatusRequest(cfg, publishId), PollsMade(t.polls, end)))
  }

  function AfterPoll(publishId: string, end: PollEnd): (o: Outcome)
    ensures o.platform == Platform
    ensures o.success <==> o.error.None?
    ensures !o.success ==> o.ids == map[]
    ensures o.success ==> o.ids.Keys == {"publish_id"}
  {
    match end
    case TimedOut => OnTimeout(Policy, Platform, map[])
    case Ended(_, v) =>
      if v.Errored? then
        Failure(Platform, "Publish failed: " + Field(v.resp, "data.fail_reason").GetOr("unknown"))
      else
        Outcome(true, Platform, None, map["publish_id" := Some(publishId)])
  }

  /** `post_video`, step by step, with early returns. */
  method PostVideo(cfg: Config, videoPath: string, file: Option<nat>, caption: string, hashtags: seq<string>, t: Transcript)
    returns (outcome: Outcome, sent: seq<Request>)
    requires InitCarriesHandles(t.init)
    ensures Exchange(outcome, sent) == Run(cfg, videoPath, file, caption, hashtags, t)
  {
    sent := [];
    if cfg.accessToken == "" {
      return Failure(Platform, MissingCredentials), sent;
    }
    if file.None? {
      return Failure(Platform, "Video file not found: " + videoPath), sent;
    }
    var fileSize := file.value;
    var fullCaption := FullCaption(caption, TikTokSeparator, hashtags);

    // Step 1: initialise the upload.
    sent := sent + [InitRequest(cfg, fullCaption, fileSize)];
    var init := t.init;
    if init.status != 200 {
      return Failure(Platform, "Init failed (" + NatToString(init.status) + "): " + init.text), sent;
    }
    if Field(init, "error.code") != Some("ok") {
      return Failure(Platform, "Init error: " + init.text), sent;
    }
    var rest := UploadAndPoll(cfg, videoPath, fileSize,
      init.fields["data.publish_id"], init.fields["data.upload_url"], t);
    assert rest == AfterInit(cfg, videoPath, fileSize, t);
    assert sent == [InitRequest(cfg, fullCaption, fileSize)];
    return rest.outcome, sent + rest.sent;
  }

  /** Steps 2 and 3 of `post_video`: stream the whole file in one PUT, then
      poll for completion. */
  method UploadAndPoll(cfg: Config, videoPath: string, fileSize: nat, publishId: string, uploadUrl: string, t: Transcript)
    returns (x: Exchange)
    ensures x == AfterAccepted(cfg, videoPath, fileSize, publishId, uploadUrl, t)
  {
    var sent := [UploadRequest(uploadUrl, videoPath, fileSize)];
    var up := t.upload;
    if up.status != 200 && up.status != 201 {
      return Exchange(Failure(Platform, "Upload failed (" + NatToString(up.status) + "): " + up.text), sent);
    }
    var end := Poll(t.polls, Judge);
    sent := sent + Repeat(StatusRequest(cfg, publishId), PollsMade(t.polls, end));
    if end.TimedOut? {
      return Exchange(Failure(Platform, TimedOutMessage), sent);
    }
    if end.verdict.Errored? {
      var reason := Field(end.verdict.resp, "data.fail_reason").GetOr("unknown");
      return Exchange(Failure(Platform, "Publish failed: " + reason), sent);
    }
    return Exchange(Outcome(true, Platform, None, map["publish_id" := Some(publishId)]), sent);
  }

  // ------------------------------------------------------------ properties

  /** Without a token, or without the file, nothing is sent. */
  lemma PreconditionSendsNothing(cfg: Config, videoPath: string, file: Option<nat>, caption: string, hashtags: seq<string>, t: Transcript)
    requires InitCarriesHandles(t.init)
    requires cfg.accessToken == "" || file.None?
    ensures !Run(cfg, videoPath, file, caption, hashtags, t).outcome.success
    ensures Run(cfg, videoPath, file, caption, hashtags, t).sent == []
  {
  }

  /** The init request declares a single chunk holding the whole file, and
      titles the post with the caption followed by a space and the tags. */
  lemma InitDeclaresOneChunk(cfg: Config, videoPath: string, file: Option<nat>, caption: string, hashtags: seq<string>, t: Transcript)
    requires InitCarriesHandles(t.init)
    requires |Run(cfg, videoPath, file, caption, hashtags, t).sent| > 0
    ensures file.Some?
    ensures var r := Run(cfg, videoPath, file, caption, hashtags, t).sent[0];
            && r.body.JsonBody?
            && r.body.fields["source_info.video_size"] == JNum(file.value)
            && r.body.fields["source_info.chunk_size"] == JNum(file.value)
            && r.body.fields["source_info.total_chunk_count"] == JNum(1)
            && r.body.fields["post_info.title"] == JStr(Strip(caption + " " + TagString(hashtags)))
  {
  }

  /** A rejected init (non-200, or an `error.code` other than "ok") ends the
      run before any upload. */
  lemma InitFailureStops(cfg: Config, videoPath: string, fileSize: nat, caption: string, hashtags: seq<string>, t: Transcript)
    requires InitCarriesHandles(t.init) && cfg.accessToken != ""
    requires t.init.status != 200 || Field(t.init, "error.code") != Some("ok")
    ensures !Run(cfg, videoPath, Some(fileSize), caption, hashtags, t).outcome.success
    ensures |Run(cfg, videoPath, Some(fileSize), caption, hashtags, t).sent| == 1
  {
  }

  /** After an accepted init the run is the init request followed by the
      upload-and-poll exchange. */
  lemma RunAfterAccept(cfg: Config, videoPath: string, fileSize: nat, caption: string, hashtags: seq<string>, t: Transcript)
    requires InitCarriesHandles(t.init) && cfg.accessToken != ""
    requires t.init.status == 200 && Field(t.init, "error.code") == Some("ok")
    ensures var x := Run(cfg, videoPath, Some(fileSize), caption, hashtags, t);
            var rest := AfterAccepted(cfg, videoPath, fileSize, t.init.fields["data.publish_id"], t.init.fields["data.upload_url"], t);
            && x.outcome == rest.outcome
            && |x.sent| == |rest.sent| + 1
            && forall k :: 1 <= k < |x.sent| ==> x.sent[k] == rest.sent[k - 1]
  {
  }

  /** After an accepted init: the upload first; on a rejected upload nothing
      more, otherwise only status requests. */
  lemma AcceptedThenPolls(cfg: Config, videoPath: string, fileSize: nat, publishId: string, uploadUrl: string, t: Transcript)
    ensures var x := AfterAccepted(cfg, videoPath, fileSize, publishId, uploadUrl, t);
            && (t.upload.status != 200 && t.upload.status != 201 ==>
                  |x.sent| == 1
                  && x.outcome.error == Some("Upload failed (" + NatToString(t.upload.status) + "): " + t.upload.text))
            && (t.upload.status == 200 || t.upload.status == 201 ==>
                  forall k :: 1 <= k < |x.sent| ==> x.sent[k] == StatusRequest(cfg, publishId))
  {
    if t.upload.status == 200 || t.upload.status == 201 {
      var x := AfterAccepted(cfg, videoPath, fileSize, publishId, uploadUrl, t);
      var polls := Repeat(StatusRequest(cfg, publishId), PollsMade(t.polls, FirstTerminal(t.polls, Judge, 0)));
      assert x.sent == [UploadRequest(uploadUrl, videoPath, fileSize)] + polls;
      assert forall k :: 1 <= k < |x.sent| ==> x.sent[k] == polls[k - 1];
    }
  }

  /** For a non-empty file the `Content-Range` header reads back as the range
      0 to size-1 of a representation of `size` bytes (section 14.4 of
      RFC 9110), and `Content-Length` reads back as `size`. */
  lemma {:induction false} ContentRangeCoversFile(fileSize: nat)
    requires fileSize > 0
    ensures ParseContentRange(ContentRange(fileSize)) == Some(ByteRange(0, fileSize - 1, fileSize))
    ensures CoversWhole(ByteRange(0, fileSize - 1, fileSize))
    ensures ParseNat(NatToString(fileSize)) == Some(fileSize)
  {
    var last, total := NatToString(fileSize - 1), NatToString(fileSize);
    ContentRangeParts(fileSize);
    assert IntToString(fileSize - 1) == last && IntToString(fileSize) == total;
    DecimalHasNoSlash(fileSize - 1);
    NatToStringRoundTrip(fileSize - 1);
    NatToStringRoundTrip(fileSize);
    ParseContentRangeOf("0", last, total);
    assert ParseNat("0") == Some(0);
  }

  lemma DecimalHasNoSlash(n: nat)
    ensures '/' !in NatToString(n)
  {
    var d := NatToString(n);
    forall k | 0 <= k < |d| ensures d[k] != '/' { assert IsDigit(d[k]); }
  }

  /** For an empty file the header is "bytes 0--1/0", which is not a valid
      byte range. */
  lemma EmptyFileRange()
    ensures ContentRange(0) == "bytes 0-" + "-1" + "/" + "0"
    ensures ParseContentRange(ContentRange(0)) == None
  {
    ContentRangeParts(0);
    assert IntToString(-1) == "-1" && IntToString(0) == "0";
    assert !IsDigit('-');
    ParseContentRangeOf("0", "-1", "0");
  }

  /** Once the upload is accepted, the poll decides: `PUBLISH_COMPLETE`
      succeeds with the init's `publish_id`; `FAILED` or `PUBLISH_FAILED`
      fails with the reported reason or "unknown"; the ceiling fails. */
  lemma PollDecides(cfg: Config, videoPath: string, fileSize: nat, caption: string, hashtags: seq<string>, t: Transcript)
    requires InitCarriesHandles(t.init) && cfg.accessToken != ""
    requires t.init.status == 200 && Field(t.init, "error.code") == Some("ok")
    requires t.upload.status == 200 || t.upload.status == 201
    ensures var o := Run(cfg, videoPath, Some(fileSize), caption, hashtags, t).outcome;
            var end := FirstTerminal(t.polls, Judge, 0);
            && (end.TimedOut? ==> !o.success && o.error == Some(TimedOutMessage))
            && (end.Ended? && end.verdict == Complete ==>
                  o.success && o.ids == map["publish_id" := Some(t.init.fields["data.publish_id"])])
            && (end.Ended? && end.verdict.Errored? ==>
                  !o.success
                  && Field(t.polls[end.at], "data.status") in {Some("FAILED"), Some("PUBLISH_FAILED")}
                  && o.error == Some("Publish failed: " + Field(t.polls[end.at], "data.fail_reason").GetOr("unknown")))
  {
    RunAfterAccept(cfg, videoPath, fileSize, caption, hashtags, t);
  }

  /** A successful run carries exactly the init's `publish_id`. */
  lemma SuccessIds(cfg: Config, videoPath: string, file: Option<nat>, caption: string, hashtags: seq<string>, t: Transcript)
    requires InitCarriesHandles(t.init)
    ensures var o := Run(cfg, videoPath, file, caption, hashtags, t).outcome;
            o.success ==> o.ids == map["publish_id" := Some(t.init.fields["data.publish_id"])]
  {
  }
}
