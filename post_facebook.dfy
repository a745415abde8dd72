/** tools/post_facebook.py: post a Reel to a Facebook Page through the Graph
    API's resumable upload: precondition, an init call for a video id, the
    binary upload, a finish call that publishes, and a status poll that
    treats reaching its ceiling as success. */
module PostFacebook {
  import opened Wrappers
  import opened Text
  import opened Captions
  import opened Http

  const Platform: string := "facebook"
  const GraphApi: string := "https://graph.facebook.com/v22.0"
  const RuploadApi: string := "https://rupload.facebook.com/video-upload/v22.0"

  const MissingCredentials: string := "FACEBOOK_PAGE_ID and FACEBOOK_PAGE_ACCESS_TOKEN must be set in .env"

  /** The finish call already returned 200, so the ceiling counts as success. */
  const Policy: TimeoutPolicy := SucceedOnTimeout

  datatype Config = Config(pageId: string, pageToken: string)

  /** The init, upload and finish responses, and the status responses that
      arrive before the ceiling. */
  datatype Transcript = Transcript(init: Response, upload: Response, finish: Response, polls: seq<Response>)

  /** The start phase of the upload session on the page's reels edge. */
  function InitRequest(cfg: Config): (r: Request)
    ensures r.verb == Post && r.url == GraphApi + "/" + cfg.pageId + "/video_reels"
    ensures Wrappers.Get(r.params, "upload_phase") == Some("start")
    ensures Wrappers.Get(r.params, "access_token") == Some(cfg.pageToken)
  {
    Request(Post, GraphApi + "/" + cfg.pageId + "/video_reels",
      map["upload_phase" := "start", "access_token" := cfg.pageToken], map[], NoBody)
  }

  /** The upload streams the file to the upload host under the video id,
      from offset 0, with the file size. */
  function UploadRequest(cfg: Config, videoId: string, videoPath: string, fileSize: nat): (r: Request)
    ensures r.verb == Post && r.url == RuploadApi + "/" + videoId && r.body == FileStream(videoPath)
    ensures Wrappers.Get(r.headers, "Authorization") == Some("OAuth " + cfg.pageToken)
    ensures Wrappers.Get(r.headers, "offset") == Some("0")
    ensures Wrappers.Get(r.headers, "file_size") == Some(NatToString(fileSize))
  {
    Request(Post, RuploadApi + "/" + videoId, map[],
      map["Authorization" := "OAuth " + cfg.pageToken, "offset" := "0",
          "file_size" := NatToString(fileSize), "Content-Type" := "application/octet-stream"],
      FileStream(videoPath))
  }

  /** The finish call publishes the video under its id with the caption as
      description. */
  function FinishRequest(cfg: Config, videoId: string, caption: string): (r: Request)
    ensures r.verb == Post && r.url == GraphApi + "/" + cfg.pageId + "/video_reels"
    ensures Wrappers.Get(r.params, "upload_phase") == Some("finish")
    ensures Wrappers.Get(r.params, "video_id") == Some(videoId)
    ensures Wrappers.Get(r.params, "description") == Some(caption)
    ensures Wrappers.Get(r.params, "video_state") == Some("PUBLISHED")
  {
    Request(Post, GraphApi + "/" + cfg.pageId + "/video_reels",
      map["upload_phase" := "finish", "video_id" := videoId, "description" := caption,
          "video_state" := "PUBLISHED", "access_token" := cfg.pageToken],
      map[], NoBody)
  }

  /** A status check: a GET of the video's `status` field. */
  function StatusRequest(cfg: Config, videoId: string): (r: Request)
    ensures r.verb == Get && r.url == GraphApi + "/" + videoId
    ensures Wrappers.Get(r.params, "fields") == Some("status")
  {
    Request(Get, GraphApi + "/" + videoId,
      map["fields" := "status", "access_token" := cfg.pageToken], map[], NoBody)
  }

  /** A status response counts only with HTTP 200; then
      `status.publishing_phase.status` decides. */
  function Judge(r: Response): (v: Verdict)
    ensures r.status != 200 ==> v == Pending
    ensures v == Complete <==> r.status == 200 && Field(r, "status.publishing_phase.status") == Some("complete")
    ensures v.Errored? <==> r.status == 200 && Field(r, "status.publishing_phase.status") == Some("error")
    ensures v.Errored? ==> v.resp == r
  {
    if r.status != 200 then Pending
    else
      var phase := Field(r, "status.publishing_phase.status");
      if phase == Some("complete") then Complete
      else if phase == Some("error") then Errored(r)
      else Pending
  }

  /** The successful result, carrying the video id from the init call. */
  function Posted(videoId: string): Outcome {
    Outcome(true, Platform, None, map["video_id" := Some(videoId)])
  }

  /** What `post_reel(video_path, caption, hashtags)` does, where `file` is
      the size of the file at `videoPath`, or `None` when it does not exist. */
  function Run(cfg: Config, videoPath: string, file: Option<nat>, caption: string, hashtags: seq<string>, t: Transcript): (x: Exchange)
    ensures x.outcome.platform == Platform
    ensures x.outcome.success <==> x.outcome.error.None?
    ensures |x.sent| <= |t.polls| + 3
    ensures !x.outcome.success ==> x.outcome.ids == map[]
    ensures x.outcome.success ==> x.outcome.ids.Keys == {"video_id"}
  {
    if cfg.pageId == "" || cfg.pageToken == "" then
      Exchange(Failure(Platform, MissingCredentials), [])
    else if file.None? then
      Exchange(Failure(Platform, "Video file not found: " + videoPath), [])
    else
      var rest := AfterInit(cfg, videoPath, file.value, FullCaption(caption, MetaSeparator, hashtags), t);
      Exchange(rest.outcome, [InitRequest(cfg)] + rest.sent)
  }

  /** The steps after the init request: check for a video id, upload. */
  function AfterInit(cfg: Config, videoPath: string, fileSize: nat, caption: string, t: Transcript): (x: Exchange)
    ensures x.outcome.platform == Platform
    ensures x.outcome.success <==> x.outcome.error.None?
    ensures |x.sent| <= |t.polls| + 2
    ensures !x.outcome.success ==> x.outcome.ids == map[]
    ensures x.outcome.success ==> x.outcome.ids.Keys == {"video_id"}
  {
    var videoId := Field(t.init, "video_id");
    if t.init.status != 200 then
      Exchange(Failure(Platform, "Init failed: " + t.init.text), [])
    else if !Truthy(videoId) then
      Exchange(Failure(Platform, "No video_id returned: " + t.init.text), [])
    else
      var rest := AfterUpload(cfg, videoId.value, caption, t);
      Exchange(rest.outcome, [UploadRequest(cfg, videoId.value, videoPath, fileSize)] + rest.sent)
  }

  /** The steps after the upload request: check it, finish, poll. */
  function AfterUpload(cfg: Config, videoId: string, caption: string, t: Transcript): (x: Exchange)
    ensures x.outcome.platform == Platform
    ensures x.outcome.success <==> x.outcome.error.None?
    ensures |x.sent| <= |t.polls| + 1
    ensures !x.outcome.success ==> x.outcome.ids == map[]
    ensures x.outcome.success ==> x.outcome.ids.Keys == {"video_id"}
  {
    if t.upload.status != 200 then
      Exchange(Failure(Platform, "Upload failed: " + t.upload.text), [])
    else
      var finish := FinishRequest(cfg, videoId, caption);
      if t.finish.status != 200 then
        Exchange(Failure(Platform, "Finish/publish failed: " + t.finish.text), [finish])
      else
        var end := FirstTerminal(t.polls, Judge, 0);
        Exchange(AfterPoll(videoId, end),
          [finish] + Repeat(StatusRequest(cfg, videoId), PollsMade(t.polls, end)))
  }

  function AfterPoll(videoId: string, end: PollEnd): (o: Outcome)
    ensures o.platform == Platform
    ensures o.success <==> o.error.None?
    ensures !o.success ==> o.ids == map[]
    ensures o.success ==> o.ids.Keys == {"video_id"}
  {
    match end
    case TimedOut => OnTimeout(Policy, Platform, map["video_id" := Some(videoId)])
    case Ended(_, v) =>
      if v.Errored? then Failure(Platform, "Publishing error: " + v.resp.text)
      else Posted(videoId)
  }

  /** `post_reel`, step by step, with early returns. */
  method PostReel(cfg: Config, videoPath: string, file: Option<nat>, caption: string, hashtags: seq<string>, t: Transcript)
    returns (outcome: Outcome, sent: seq<Request>)
    ensures Exchange(outcome, sent) == Run(cfg, videoPath, file, caption, hashtags, t)
  {
    if cfg.pageId == "" || cfg.pageToken == "" {
      return Failure(Platform, MissingCredentials), [];
    }
    if file.None? {
      return Failure(Platform, "Video file not found: " + videoPath), [];
    }
    var fileSize := file.value;
    var fullCaption := FullCaption(caption, MetaSeparator, hashtags);

    // Step 1: initialise the upload and obtain a video id.
    sent := [InitRequest(cfg)];
    var init := t.init;
    if init.status != 200 {
      return Failure(Platform, "Init failed: " + init.text), sent;
    }
    var videoId := Field(init, "video_id");
    if !Truthy(videoId) {
      return Failure(Platform, "No video_id returned: " + init.text), sent;
    }

    // Step 2: upload the binary.
    sent := sent + [UploadRequest(cfg, videoId.value, videoPath, fileSize)];
    if t.upload.status != 200 {
      return Failure(Platform, "Upload failed: " + t.upload.text), sent;
    }

    var rest := FinishAndPoll(cfg, videoId.value, fullCaption, t);
    return rest.outcome, sent + rest.sent;
  }

  /** Steps 3 and 4 of `post_reel`: finish (publish), then verify the status. */
  method FinishAndPoll(cfg: Config, videoId: string, caption: string, t: Transcript) returns (x: Exchange)
    requires t.upload.status == 200
    ensures x == AfterUpload(cfg, videoId, caption, t)
  {
    var sent := [FinishRequest(cfg, videoId, caption)];
    if t.finish.status != 200 {
      return Exchange(Failure(Platform, "Finish/publish failed: " + t.finish.text), sent);
    }
    var end := Poll(t.polls, Judge);
    sent := sent + Repeat(StatusRequest(cfg, videoId), PollsMade(t.polls, end));
    if end.Ended? && end.verdict.Errored? {
      return Exchange(Failure(Platform, "Publishing error: " + end.verdict.resp.text), sent);
    }
    // Confirmed complete, or the ceiling reached after a successful finish.
    return Exchange(Posted(videoId), sent);
  }

  // ------------------------------------------------------------ properties

  /** Without the page id, the token or the file, nothing is sent. */
  lemma PreconditionSendsNothing(cfg: Config, videoPath: string, file: Option<nat>, caption: string, hashtags: seq<string>, t: Transcript)
    requires cfg.pageId == "" || cfg.pageToken == "" || file.None?
    ensures !Run(cfg, videoPath, file, caption, hashtags, t).outcome.success
    ensures Run(cfg, videoPath, file, caption, hashtags, t).sent == []
  {
  }

  /** A rejected init, or one without a `video_id`, stops after one request. */
  lemma InitFailureStops(cfg: Config, videoPath: string, fileSize: nat, caption: string, hashtags: seq<string>, t: Transcript)
    requires cfg.pageId != "" && cfg.pageToken != ""
    requires t.init.status != 200 || !Truthy(Field(t.init, "video_id"))
    ensures Run(cfg, videoPath, Some(fileSize), caption, hashtags, t) ==
      Exchange(Failure(Platform,
                 if t.init.status != 200 then "Init failed: " + t.init.text
                 else "No video_id returned: " + t.init.text),
               [InitRequest(cfg)])
  {
  }

  /** After an init that issues a video id, the first two requests are the
      init and the upload, and the rest of the run is what follows the
      upload. */
  lemma RunAfterUpload(cfg: Config, videoPath: string, fileSize: nat, caption: string, hashtags: seq<string>, t: Transcript)
    requires cfg.pageId != "" && cfg.pageToken != ""
    requires t.init.status == 200 && Truthy(Field(t.init, "video_id"))
    ensures var x := Run(cfg, videoPath, Some(fileSize), caption, hashtags, t);
            var vid := Field(t.init, "video_id").value;
            var rest := AfterUpload(cfg, vid, FullCaption(caption, MetaSeparator, hashtags), t);
            && x.outcome == rest.outcome
            && x.sent == [InitRequest(cfg), UploadRequest(cfg, vid, videoPath, fileSize)] + rest.sent
  {
  }

  /** A rejected upload sends nothing more and fails; an accepted one is
      followed by the finish call. */
  lemma UploadedThenFinishes(cfg: Config, videoId: string, caption: string, t: Transcript)
    ensures var x := AfterUpload(cfg, videoId, caption, t);
            && (t.upload.status != 200 ==> x.sent == [] && !x.outcome.success)
            && (t.upload.status == 200 ==> |x.sent| >= 1 && x.sent[0] == FinishRequest(cfg, videoId, caption))
  {
  }

  /** A finish call answered with anything but 200 fails with the
      response text after the finish request alone: no status is polled. */
  lemma FinishFailureStops(cfg: Config, videoId: string, caption: string, t: Transcript)
    requires t.upload.status == 200 && t.finish.status != 200
    ensures AfterUpload(cfg, videoId, caption, t) ==
              Exchange(Failure(Platform, "Finish/publish failed: " + t.finish.text), [FinishRequest(cfg, videoId, caption)])
  {
  }

  /** After a successful finish the run fails only on an explicit
      publishing error: a `complete` status and the poll ceiling both
      succeed with the init's video id. */
  lemma FinishedMeansPosted(cfg: Config, videoPath: string, fileSize: nat, caption: string, hashtags: seq<string>, t: Transcript)
    requires cfg.pageId != "" && cfg.pageToken != ""
    requires t.init.status == 200 && Truthy(Field(t.init, "video_id"))
    requires t.upload.status == 200 && t.finish.status == 200
    ensures var o := Run(cfg, videoPath, Some(fileSize), caption, hashtags, t).outcome;
            var end := FirstTerminal(t.polls, Judge, 0);
            && (o.success <==> !(end.Ended? && end.verdict.Errored?))
            && (o.success ==> o.ids == map["video_id" := Some(Field(t.init, "video_id").value)])
            && (!o.success ==>
                  t.polls[end.at].status == 200
                  && Field(t.polls[end.at], "status.publishing_phase.status") == Some("error"))
  {
    RunAfterUpload(cfg, videoPath, fileSize, caption, hashtags, t);
  }

  /** In particular a run whose status checks are all pending, or all
      answered with errors at the HTTP level, reports success. */
  lemma {:induction false} SilentPollSucceeds(cfg: Config, videoPath: string, fileSize: nat, caption: string, hashtags: seq<string>, t: Transcript)
    requires cfg.pageId != "" && cfg.pageToken != ""
    requires t.init.status == 200 && Truthy(Field(t.init, "video_id"))
    requires t.upload.status == 200 && t.finish.status == 200
    requires forall k :: 0 <= k < |t.polls| ==> t.polls[k].status != 200
    ensures Run(cfg, videoPath, Some(fileSize), caption, hashtags, t).outcome.success
    ensures |Run(cfg, videoPath, Some(fileSize), caption, hashtags, t).sent| == |t.polls| + 3
  {
    assert forall k :: 0 <= k < |t.polls| ==> Judge(t.polls[k]) == Pending;
    assert FirstTerminal(t.polls, Judge, 0).TimedOut?;
  }

  /** What follows the upload succeeds only with the given video id. */
  lemma UploadedSuccessIds(cfg: Config, videoId: string, caption: string, t: Transcript)
    ensures var o := AfterUpload(cfg, videoId, caption, t).outcome;
            o.success ==> o.ids == map["video_id" := Some(videoId)]
  {
  }

  /** A successful run carries exactly the init's `video_id`. */
  lemma SuccessIds(cfg: Config, videoPath: string, file: Option<nat>, caption: string, hashtags: seq<string>, t: Transcript)
    ensures var o := Run(cfg, videoPath, file, caption, hashtags, t).outcome;
            o.success ==> Truthy(Field(t.init, "video_id")) && o.ids == map["video_id" := Some(Field(t.init, "video_id").value)]
  {
    if cfg.pageId != "" && cfg.pageToken != "" && file.Some? && t.init.status == 200 && Truthy(Field(t.init, "video_id")) {
      RunAfterUpload(cfg, videoPath, file.value, caption, hashtags, t);
      UploadedSuccessIds(cfg, Field(t.init, "video_id").value, FullCaption(caption, MetaSeparator, hashtags), t);
    }
  }
}
