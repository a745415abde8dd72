/** tools/post_instagram.py: publish a Reel through the Instagram Graph API.
    The video is referenced by a public URL; the run is precondition, media
    container creation, a status poll, then a separate publish call. */
module PostInstagram {
  import opened Wrappers
  import opened Text
  import opened Captions
  import opened Http

  const Platform: string := "instagram"
  const GraphApi: string := "https://graph.instagram.com"

  const MissingCredentials: string := "INSTAGRAM_USER_ID and INSTAGRAM_ACCESS_TOKEN must be set in .env"
  const TimedOutMessage: string := "Container processing timed out after 300s"

  /** Instagram fails when processing is not confirmed before the ceiling. */
  const Policy: TimeoutPolicy := FailOnTimeout(TimedOutMessage)

  datatype Config = Config(userId: string, accessToken: string)

  /** The responses the API gives, in the order the run asks for them: the
      container creation, the status checks that fit before the ceiling, and
      the publish call. A run reads only the responses it gets to. */
  datatype Transcript = Transcript(container: Response, polls: seq<Response>, publish: Response)

  /** The container creation: a POST to the user's media edge carrying the
      video URL and the caption; it is not a publish call. */
  function ContainerRequest(cfg: Config, videoUrl: string, caption: string): (r: Request)
    ensures r.verb == Post && r.body == NoBody && !IsPublish(r)
    ensures Wrappers.Get(r.params, "media_type") == Some("REELS")
    ensures Wrappers.Get(r.params, "video_url") == Some(videoUrl) && Wrappers.Get(r.params, "caption") == Some(caption)
    ensures Wrappers.Get(r.params, "access_token") == Some(cfg.accessToken)
  {
    Request(Post, GraphApi + "/" + cfg.userId + "/media",
      map["media_type" := "REELS", "video_url" := videoUrl,
          "caption" := caption, "access_token" := cfg.accessToken],
      map[], NoBody)
  }

  /** A status check: a GET of the container's `status_code`; it is not a
      publish call. */
  function StatusRequest(cfg: Config, containerId: string): (r: Request)
    ensures r.verb == Get && r.url == GraphApi + "/" + containerId && !IsPublish(r)
    ensures Wrappers.Get(r.params, "fields") == Some("status_code") && Wrappers.Get(r.params, "access_token") == Some(cfg.accessToken)
  {
    Request(Get, GraphApi + "/" + containerId,
      map["fields" := "status_code", "access_token" := cfg.accessToken],
      map[], NoBody)
  }

  /** The publish call for the container. */
  function PublishRequest(cfg: Config, containerId: string): (r: Request)
    ensures IsPublish(r) && Wrappers.Get(r.params, "creation_id") == Some(containerId)
    ensures r.url == GraphApi + "/" + cfg.userId + "/media_publish"
  {
    Request(Post, GraphApi + "/" + cfg.userId + "/media_publish",
      map["creation_id" := containerId, "access_token" := cfg.accessToken],
      map[], NoBody)
  }

  /** A status response's `status_code` field; the HTTP status of the poll is
      not looked at. */
  function Judge(r: Response): (v: Verdict)
    ensures v == Complete <==> Field(r, "status_code") == Some("FINISHED")
    ensures v.Errored? <==> Field(r, "status_code") == Some("ERROR")
    ensures v.Errored? ==> v.resp == r
  {
    var status := Field(r, "status_code").GetOr("");
    if status == "FINISHED" then Complete
    else if status == "ERROR" then Errored(r)
    else Pending
  }

  /** The publish call is the only request carrying a `creation_id`. */
  predicate IsPublish(r: Request) {
    r.verb == Post && "creation_id" in r.params
  }

  /** What `post_reel(video_url, caption, hashtags)` does against transcript
      `t`. */
  function Run(cfg: Config, videoUrl: string, caption: string, hashtags: seq<string>, t: Transcript): (x: Exchange)
    ensures x.outcome.platform == Platform
    ensures x.outcome.success <==> x.outcome.error.None?
    ensures forall k :: 0 <= k < |x.sent| ==> x.sent[k].body == NoBody
    ensures |x.sent| <= |t.polls| + 2
    ensures !x.outcome.success ==> x.outcome.ids == map[]
    ensures x.outcome.success ==> x.outcome.ids.Keys == {"media_id"}
  {
    if cfg.userId == "" || cfg.accessToken == "" then
      Exchange(Failure(Platform, MissingCredentials), [])
    else
      var create := ContainerRequest(cfg, videoUrl, FullCaption(caption, MetaSeparator, hashtags));
      var rest := AfterContainer(cfg, t);
      Exchange(rest.outcome, [create] + rest.sent)
  }

  /** The steps after the container request: check the response, then poll. */
  function AfterContainer(cfg: Config, t: Transcript): (x: Exchange)
    ensures x.outcome.platform == Platform
    ensures x.outcome.success <==> x.outcome.error.None?
    ensures forall k :: 0 <= k < |x.sent| ==> x.sent[k].body == NoBody
    ensures |x.sent| <= |t.polls| + 1
    ensures !x.outcome.success ==> x.outcome.ids == map[]
    ensures x.outcome.success ==> x.outcome.ids.Keys == {"media_id"}
  {
    var containerId := Field(t.container, "id");
    if t.container.status != 200 then
      Exchange(Failure(Platform, "Container creation failed: " + t.container.text), [])
    else if !Truthy(containerId) then
      Exchange(Failure(Platform, "No container ID returned: " + t.container.text), [])
    else
      var end := FirstTerminal(t.polls, Judge, 0);
      var rest := AfterPoll(cfg, containerId.value, end, t.publish);
      Exchange(rest.outcome, Repeat(StatusRequest(cfg, containerId.value), PollsMade(t.polls, end)) + rest.sent)
  }

  /** The steps after the poll loop ended with `end`. */
  function AfterPoll(cfg: Config, containerId: string, end: PollEnd, publish: Response): (x: Exchange)
    ensures x.outcome.platform == Platform
    ensures x.outcome.success <==> x.outcome.error.None?
    ensures forall k :: 0 <= k < |x.sent| ==> x.sent[k].body == NoBody
    ensures |x.sent| <= 1
    ensures !x.outcome.success ==> x.outcome.ids == map[]
    ensures x.outcome.success ==> x.outcome.ids.Keys == {"media_id"}
  {
    match end
    case TimedOut =>
      Exchange(OnTimeout(Policy, Platform, map[]), [])
    case Ended(_, v) =>
      if v.Errored? then
        Exchange(Failure(Platform, "Container processing failed: " + v.resp.text), [])
      else
        var sent := [PublishRequest(cfg, containerId)];
        if publish.status != 200 then
          Exchange(Failure(Platform, "Publish failed: " + publish.text), sent)
        else
          Exchange(Outcome(true, Platform, None, map["media_id" := Field(publish, "id")]), sent)
  }

  /** `post_reel`, step by step, with early returns. */
  method PostReel(cfg: Config, videoUrl: string, caption: string, hashtags: seq<string>, t: Transcript)
    returns (outcome: Outcome, sent: seq<Request>)
    ensures Exchange(outcome, sent) == Run(cfg, videoUrl, caption, hashtags, t)
  {
    sent := [];
    if cfg.userId == "" || cfg.accessToken == "" {
      return Failure(Platform, MissingCredentials), sent;
    }
    var fullCaption := FullCaption(caption, MetaSeparator, hashtags);

    // Step 1: create the media container.
    sent := sent + [ContainerRequest(cfg, videoUrl, fullCaption)];
    var resp := t.container;
    if resp.status != 200 {
      return Failure(Platform, "Container creation failed: " + resp.text), sent;
    }
    var containerId := Field(resp, "id");
    if !Truthy(containerId) {
      return Failure(Platform, "No container ID returned: " + resp.text), sent;
    }

    // Step 2: poll until the container is ready.
    var end := Poll(t.polls, Judge);
    RunAfterContainer(cfg, videoUrl, caption, hashtags, t);
    sent := sent + Repeat(StatusRequest(cfg, containerId.value), PollsMade(t.polls, end));
    if end.TimedOut? {
      return Failure(Platform, TimedOutMessage), sent;
    }
    if end.verdict.Errored? {
      return Failure(Platform, "Container processing failed: " + end.verdict.resp.text), sent;
    }

    // Step 3: publish.
    sent := sent + [PublishRequest(cfg, containerId.value)];
    var pub := t.publish;
    if pub.status != 200 {
      return Failure(Platform, "Publish failed: " + pub.text), sent;
    }
    return Outcome(true, Platform, None, map["media_id" := Field(pub, "id")]), sent;
  }

  // ------------------------------------------------------------ properties

  /** Without a user id or a token the run fails before any request. */
  lemma MissingCredentialsSendNothing(cfg: Config, videoUrl: string, caption: string, hashtags: seq<string>, t: Transcript)
    requires cfg.userId == "" || cfg.accessToken == ""
    ensures !Run(cfg, videoUrl, caption, hashtags, t).outcome.success
    ensures Run(cfg, videoUrl, caption, hashtags, t).sent == []
  {
  }

  /** A rejected container request, or one answered without an `id`, ends the
      run: only the container request was sent. */
  lemma ContainerFailureStops(cfg: Config, videoUrl: string, caption: string, hashtags: seq<string>, t: Transcript)
    requires cfg.userId != "" && cfg.accessToken != ""
    requires t.container.status != 200 || !Truthy(Field(t.container, "id"))
    ensures !Run(cfg, videoUrl, caption, hashtags, t).outcome.success
    ensures Run(cfg, videoUrl, caption, hashtags, t).sent
         == [ContainerRequest(cfg, videoUrl, FullCaption(caption, MetaSeparator, hashtags))]
  {
  }

  /** The container caption is the caption, a blank line, and the
      normalised hashtags, stripped. */
  lemma ContainerCarriesCaption(cfg: Config, videoUrl: string, caption: string, hashtags: seq<string>, t: Transcript)
    requires |Run(cfg, videoUrl, caption, hashtags, t).sent| > 0
    ensures Run(cfg, videoUrl, caption, hashtags, t).sent[0].params["caption"]
         == Strip(caption + "\n\n" + TagString(hashtags))
    ensures Run(cfg, videoUrl, caption, hashtags, t).sent[0].params["video_url"] == videoUrl
  {
  }

  /** When the container exists, the poll decides: an error marker fails
      without publishing, the ceiling fails with the time-out message without
      publishing, and only a `FINISHED` status leads to the publish call. */
  lemma PollDecides(cfg: Config, videoUrl: string, caption: string, hashtags: seq<string>, t: Transcript)
    requires cfg.userId != "" && cfg.accessToken != ""
    requires t.container.status == 200 && Truthy(Field(t.container, "id"))
    ensures var x := Run(cfg, videoUrl, caption, hashtags, t);
            var end := FirstTerminal(t.polls, Judge, 0);
            && (end.TimedOut? ==> !x.outcome.success && x.outcome.error == Some(TimedOutMessage)
                                  && |x.sent| == |t.polls| + 1)
            && (end.Ended? && end.verdict.Errored? ==> !x.outcome.success && |x.sent| == end.at + 2)
            && (end.Ended? && end.verdict == Complete ==>
                  |x.sent| == end.at + 3 && x.sent[end.at + 2] == PublishRequest(cfg, Field(t.container, "id").value))
  {
  }

  /** When the container exists, the run sends the container request, the
      status checks the poll makes, then what follows the poll. */
  lemma RunAfterContainer(cfg: Config, videoUrl: string, caption: string, hashtags: seq<string>, t: Transcript)
    requires cfg.userId != "" && cfg.accessToken != ""
    requires t.container.status == 200 && Truthy(Field(t.container, "id"))
    ensures var x := Run(cfg, videoUrl, caption, hashtags, t);
            var containerId := Field(t.container, "id").value;
            var end := FirstTerminal(t.polls, Judge, 0);
            var rest := AfterPoll(cfg, containerId, end, t.publish);
            && x.outcome == rest.outcome
            && x.sent == [ContainerRequest(cfg, videoUrl, FullCaption(caption, MetaSeparator, hashtags))]
                         + Repeat(StatusRequest(cfg, containerId), PollsMade(t.polls, end)) + rest.sent
  {
  }

  /** After the poll, the publish request is sent exactly when the poll
      ended on a verdict other than an error. */
  lemma PollEndsPublish(cfg: Config, containerId: string, end: PollEnd, publish: Response)
    ensures AfterPoll(cfg, containerId, end, publish).sent ==
              if end.Ended? && !end.verdict.Errored? then [PublishRequest(cfg, containerId)] else []
  {
  }

  /** Publishing is requested only after a status check reported
      `FINISHED`, and only once, as the last request. */
  lemma PublishOnlyAfterFinished(cfg: Config, videoUrl: string, caption: string, hashtags: seq<string>, t: Transcript, k: nat)
    requires k < |Run(cfg, videoUrl, caption, hashtags, t).sent|
    requires IsPublish(Run(cfg, videoUrl, caption, hashtags, t).sent[k])
    ensures k == |Run(cfg, videoUrl, caption, hashtags, t).sent| - 1
    ensures FirstTerminal(t.polls, Judge, 0).Ended? && k >= 2
    ensures Field(t.polls[k - 2], "status_code") == Some("FINISHED")
  {
    var x := Run(cfg, videoUrl, caption, hashtags, t);
    if cfg.userId == "" || cfg.accessToken == "" {
      MissingCredentialsSendNothing(cfg, videoUrl, caption, hashtags, t);
      assert false;
    } else if t.container.status != 200 || !Truthy(Field(t.container, "id")) {
      ContainerFailureStops(cfg, videoUrl, caption, hashtags, t);
      assert false;
    } else {
      var containerId := Field(t.container, "id").value;
      var end := FirstTerminal(t.polls, Judge, 0);
      var n := PollsMade(t.polls, end);
      var status := StatusRequest(cfg, containerId);
      var rest := AfterPoll(cfg, containerId, end, t.publish);
      RunAfterContainer(cfg, videoUrl, caption, hashtags, t);
      PollEndsPublish(cfg, containerId, end, t.publish);
      assert forall j :: 1 <= j <= n ==> x.sent[j] == status;
      assert |rest.sent| == 1 && k == n + 1;
    }
  }

  /** The run succeeds exactly when the credentials are set, the container is
      created with an id, a status check reports `FINISHED` before the
      ceiling, and publishing returns 200; the published media id is the
      publish response's `id`. */
  lemma SuccessExactly(cfg: Config, videoUrl: string, caption: string, hashtags: seq<string>, t: Transcript)
    ensures var x := Run(cfg, videoUrl, caption, hashtags, t);
            x.outcome.success <==>
              && cfg.userId != "" && cfg.accessToken != ""
              && t.container.status == 200 && Truthy(Field(t.container, "id"))
              && FirstTerminal(t.polls, Judge, 0).Ended?
              && FirstTerminal(t.polls, Judge, 0).verdict == Complete
              && t.publish.status == 200
    ensures var x := Run(cfg, videoUrl, caption, hashtags, t);
            x.outcome.success ==> x.outcome.ids == map["media_id" := Field(t.publish, "id")]
  {
  }
}
