/** tools/execute_posting_plan.py: walk the posting schedule in order and
    post each entry through the matching uploader, skipping what was already
    posted, what has no content and what has no credentials, appending one
    result record per attempt and saving the results after each one.

    The uploaders' results are an input: `attempts[i]` is what the uploader
    returns, and the timestamp taken, if entry `i` is attempted. */
module ExecutePostingPlan {
  import opened Wrappers
  import opened Http
  import opened PlanModel
  import PostInstagram
  import PostTikTok
  import PostFacebook

  const Instagram: string := "instagram"
  const TikTok: string := "tiktok"
  const Facebook: string := "facebook"
  const Platforms: seq<string> := [Instagram, TikTok, Facebook]

  const NoS3Url: string := "No S3 URL \U{2014} run upload_to_s3.py first"
  const NoVideoPath: string := "No video file path"

  // ------------------------------------------------------ get_item_content

  /** The block for `platform` of the first item whose video id is
      `videoId`; `None` when no item has that id or the first one that does
      has no such block. */
  function ItemContent(items: seq<Item>, videoId: string, platform: string): (r: Option<Block>)
    ensures r.Some? ==> exists k :: 0 <= k < |items| && items[k].videoId == Some(videoId) && Wrappers.Get(items[k].blocks, platform) == r
  {
    if items == [] then None
    else if items[0].videoId == Some(videoId) then Wrappers.Get(items[0].blocks, platform)
    else ItemContent(items[1..], videoId, platform)
  }

  /** With no item carrying the id there is no content. */
  lemma {:induction false} ItemContentAbsent(items: seq<Item>, videoId: string, platform: string)
    requires forall k :: 0 <= k < |items| ==> items[k].videoId != Some(videoId)
    ensures ItemContent(items, videoId, platform).None?
  {
    if items != [] {
      assert forall k :: 0 <= k < |items| - 1 ==> items[1..][k] == items[k + 1];
      ItemContentAbsent(items[1..], videoId, platform);
    }
  }

  /** Only the first item carrying the id counts: the content is that
      item's block for the platform, whatever later items hold. */
  lemma {:induction false} ItemContentFirstMatch(items: seq<Item>, videoId: string, platform: string, k: nat)
    requires k < |items| && items[k].videoId == Some(videoId)
    requires forall j :: 0 <= j < k ==> items[j].videoId != Some(videoId)
    ensures ItemContent(items, videoId, platform) == Wrappers.Get(items[k].blocks, platform)
  {
    if k > 0 {
      var rest := items[1..];
      assert rest[k - 1] == items[k];
      assert forall j :: 0 <= j < k - 1 ==> rest[j] == items[j + 1];
      ItemContentFirstMatch(rest, videoId, platform, k - 1);
    }
  }

  /** The search reads `item["video_id"]` of every item up to the first
      match, so each of those must carry one. */
  predicate KeyedUntil(items: seq<Item>, videoId: string) {
    forall k :: 0 <= k < |items| && (forall j :: 0 <= j < k ==> items[j].videoId != Some(videoId))
      ==> items[k].videoId.Some?
  }

  /** `get_item_content`: a scan with an early return. */
  method GetItemContent(items: seq<Item>, videoId: string, platform: string) returns (r: Option<Block>)
    requires KeyedUntil(items, videoId)
    ensures r == ItemContent(items, videoId, platform)
  {
    var k := 0;
    while k < |items|
      invariant 0 <= k <= |items|
      invariant forall j :: 0 <= j < k ==> items[j].videoId != Some(videoId)
      invariant ItemContent(items[k..], videoId, platform) == ItemContent(items, videoId, platform)
    {
      if items[k].videoId.value == videoId {
        return Wrappers.Get(items[k].blocks, platform);
      }
      assert items[k..][1..] == items[k + 1..];
      k := k + 1;
    }
    return None;
  }

  // ----------------------------------------------------- check_credentials

  /** The access tokens `check_credentials` looks at. */
  datatype Tokens = Tokens(instagram: string, tiktok: string, facebook: string)

  function Token(tokens: Tokens, platform: string): string
    requires platform in Platforms
  {
    if platform == Instagram then tokens.instagram
    else if platform == TikTok then tokens.tiktok
    else tokens.facebook
  }

  /** A platform's place in the fixed order instagram, tiktok, facebook. */
  function Rank(platform: string): nat {
    if platform == Instagram then 0 else if platform == TikTok then 1 else 2
  }

  /** The configured platforms: exactly those with a non-empty token, each
      once, in the fixed order. */
  function Configured(tokens: Tokens): (r: seq<string>)
    ensures forall p :: p in r <==> p in Platforms && Token(tokens, p) != ""
    ensures forall i, j :: 0 <= i < j < |r| ==> Rank(r[i]) < Rank(r[j])
    ensures |r| <= 3
  {
    (if tokens.instagram != "" then [Instagram] else [])
    + (if tokens.tiktok != "" then [TikTok] else [])
    + (if tokens.facebook != "" then [Facebook] else [])
  }

  /** `check_credentials`: three guarded appends. */
  method CheckCredentials(tokens: Tokens) returns (available: seq<string>)
    ensures available == Configured(tokens)
  {
    available := [];
    if tokens.instagram != "" {
      available := available + [Instagram];
    }
    if tokens.tiktok != "" {
      available := available + [TikTok];
    }
    if tokens.facebook != "" {
      available := available + [Facebook];
    }
  }

  // ------------------------------------------------------- lookups at start

  /** `{v["video_id"]: v["file_name"] for v in video_metadata}` */
  function FileLookup(meta: seq<VideoMeta>): (m: map<string, string>)
    ensures |meta| > 0 ==> meta[|meta| - 1].videoId in m
  {
    if meta == [] then map[]
    else FileLookup(meta[..|meta| - 1])[meta[|meta| - 1].videoId := meta[|meta| - 1].fileName]
  }

  /** The lookup holds exactly the metadata's ids. */
  lemma {:induction false} FileLookupKeys(meta: seq<VideoMeta>)
    ensures forall v :: v in FileLookup(meta) <==> exists k :: 0 <= k < |meta| && meta[k].videoId == v
  {
    if meta != [] {
      var front, last := meta[..|meta| - 1], meta[|meta| - 1];
      FileLookupKeys(front);
      forall v
        ensures v in FileLookup(meta) <==> exists k :: 0 <= k < |meta| && meta[k].videoId == v
      {
        if v == last.videoId {
          assert meta[|meta| - 1].videoId == v;
        } else {
          if v in FileLookup(front) {
            var k :| 0 <= k < |front| && front[k].videoId == v;
            assert meta[k].videoId == v;
          }
          if exists k :: 0 <= k < |meta| && meta[k].videoId == v {
            var k :| 0 <= k < |meta| && meta[k].videoId == v;
            assert front[k].videoId == v;
          }
        }
      }
    }
  }

  /** A repeated id maps to the file name of the last record with that id. */
  lemma {:induction false} FileLookupLastWins(meta: seq<VideoMeta>, k: nat)
    requires k < |meta| && forall j :: k < j < |meta| ==> meta[j].videoId != meta[k].videoId
    ensures meta[k].videoId in FileLookup(meta) && FileLookup(meta)[meta[k].videoId] == meta[k].fileName
  {
    var n := |meta| - 1;
    if k < n {
      var front := meta[..n];
      assert front[k] == meta[k];
      assert forall j :: k < j < n ==> front[j] == meta[j];
      FileLookupLastWins(front, k);
      assert meta[n].videoId != meta[k].videoId;
    }
  }

  /** The keys with a success record among the saved results. */
  function PostedKeys(saved: seq<PostResult>): (keys: set<(string, string)>)
    ensures forall k :: 0 <= k < |saved| && saved[k].success ==> (saved[k].videoId, saved[k].platform) in keys
    ensures forall key :: key in keys ==>
              exists k :: 0 <= k < |saved| && saved[k].success && key == (saved[k].videoId, saved[k].platform)
  {
    set k | 0 <= k < |saved| && saved[k].success :: (saved[k].videoId, saved[k].platform)
  }

  // ------------------------------------------------------------ one entry

  /** Everything an entry's handling depends on besides the entry itself. */
  datatype Context = Context(
    items: seq<Item>,
    fileLookup: map<string, string>,
    urls: map<string, string>,
    available: seq<string>,
    posted: set<(string, string)>,
    dryRun: bool,
    videosDir: string)

  predicate ValidContext(ctx: Context) {
    forall p :: p in ctx.available ==> p in Platforms
  }

  /** What an entry's uploader returns and when, if it is attempted. */
  datatype Attempt = Attempt(outcome: Outcome, postedAt: string)

  /** One invocation of an uploader: the schedule index, the platform, the
      hosted URL (Instagram) or local path (TikTok, Facebook), the caption and
      the hashtags passed to it. */
  datatype Call = Call(index: nat, platform: string, locator: string, caption: string, hashtags: seq<string>)

  /** The executor's observable state: the in-memory results, the content of
      the results file and how often it was written, the three counters, the
      uploader calls, the indices after which the run paused, and the
      indices previewed in a dry run. */
  datatype State = State(
    results: seq<PostResult>,
    persisted: seq<PostResult>,
    writes: nat,
    succeeded: nat,
    failed: nat,
    skipped: nat,
    calls: seq<Call>,
    pauses: seq<nat>,
    previews: seq<nat>)

  /** Before the loop: the results are a copy of the saved results. */
  function Initial(saved: seq<PostResult>): State {
    State(saved, saved, 0, 0, 0, 0, [], [], [])
  }

  predicate Keyed(e: ScheduleEntry) {
    e.videoId.Some? && e.platform.Some?
  }

  function Key(e: ScheduleEntry): (string, string)
    requires Keyed(e)
  {
    (e.videoId.value, e.platform.value)
  }

  /** The entry has a non-empty content block. */
  predicate HasContent(ctx: Context, videoId: string, platform: string) {
    var c := ItemContent(ctx.items, videoId, platform);
    c.Some? && !c.value.IsEmpty()
  }

  /** The entry gets past every skip and the dry-run preview: it is posted
      or recorded as failed. */
  predicate Reaches(ctx: Context, e: ScheduleEntry)
    requires Keyed(e)
  {
    && Key(e) !in ctx.posted
    && HasContent(ctx, e.videoId.value, e.platform.value)
    && !ctx.dryRun
    && e.platform.value in ctx.available
  }

  /** The entry is shown in the dry-run preview. */
  predicate Previewed(ctx: Context, e: ScheduleEntry)
    requires Keyed(e)
  {
    Key(e) !in ctx.posted && HasContent(ctx, e.videoId.value, e.platform.value) && ctx.dryRun
  }

  /** The local path of the video: empty when the metadata names no file,
      otherwise the file name under the videos directory. */
  function VideoPath(ctx: Context, videoId: string): (p: string)
    ensures p == "" <==> GetOrDefault(ctx.fileLookup, videoId, "") == ""
    ensures p != "" ==> |ctx.videosDir| < |p| && p[..|ctx.videosDir| + 1] == ctx.videosDir + "/"
  {
    var fileName := GetOrDefault(ctx.fileLookup, videoId, "");
    if fileName == "" then "" else ctx.videosDir + "/" + fileName
  }

  /** What an uploader is given to find the video: the hosted URL for
      Instagram, the local path otherwise. */
  function Locator(ctx: Context, videoId: string, platform: string): (l: string)
    ensures platform == Instagram ==> (l == "" <==> GetOrDefault(ctx.urls, videoId, "") == "")
    ensures platform != Instagram ==> (l == "" <==> GetOrDefault(ctx.fileLookup, videoId, "") == "")
  {
    if platform == Instagram then GetOrDefault(ctx.urls, videoId, "") else VideoPath(ctx, videoId)
  }

  datatype Dispatched = Dispatched(result: Outcome, call: Option<Call>)

  /** The dispatch on the platform: without a URL or path the result is a
      failure made on the spot; otherwise the uploader is called and its
      result taken. */
  function Dispatch(ctx: Context, i: nat, videoId: string, platform: string, block: Block, uploaded: Outcome): (d: Dispatched)
    requires platform in Platforms
    ensures d.call.None? <==> Locator(ctx, videoId, platform) == ""
    ensures d.call.None? ==> d.result == Failure(platform, if platform == Instagram then NoS3Url else NoVideoPath)
    ensures d.call.Some? ==>
              && d.result == uploaded
              && d.call.value == Call(i, platform, Locator(ctx, videoId, platform),
                                      block.CaptionOrEmpty(), block.HashtagsOrEmpty())
  {
    var locator := Locator(ctx, videoId, platform);
    if locator == "" then
      Dispatched(Failure(platform, if platform == Instagram then NoS3Url else NoVideoPath), None)
    else
      Dispatched(uploaded, Some(Call(i, platform, locator, block.CaptionOrEmpty(), block.HashtagsOrEmpty())))
  }

  /** The platform ids a record copies from an uploader result: `media_id`
      and `publish_id` whenever present, `video_id` as `fb_video_id` only
      for facebook. */
  function CopyIds(platform: string, ids: map<string, Option<string>>): (r: map<string, Option<string>>)
    ensures r.Keys <= {"media_id", "publish_id", "fb_video_id"}
    ensures "media_id" in r <==> "media_id" in ids
    ensures "publish_id" in r <==> "publish_id" in ids
    ensures "fb_video_id" in r <==> platform == Facebook && "video_id" in ids
    ensures "media_id" in r ==> r["media_id"] == ids["media_id"]
    ensures "publish_id" in r ==> r["publish_id"] == ids["publish_id"]
    ensures "fb_video_id" in r ==> r["fb_video_id"] == ids["video_id"]
  {
    var a := if "media_id" in ids then map["media_id" := ids["media_id"]] else map[];
    var b := if "publish_id" in ids then a["publish_id" := ids["publish_id"]] else a;
    if platform == Facebook && "video_id" in ids then b["fb_video_id" := ids["video_id"]] else b
  }

  /** The record of one attempt: its key, the uploader's verdict and error,
      the time, and only the platform ids the results file keeps. */
  function Record(videoId: string, platform: string, result: Outcome, postedAt: string): (r: PostResult)
    ensures r.videoId == videoId && r.platform == platform && r.postedAt == postedAt
    ensures r.success == result.success && r.error == result.error
    ensures r.ids.Keys <= {"media_id", "publish_id", "fb_video_id"}
  {
    PostResult(videoId, platform, result.success, postedAt, result.error, CopyIds(platform, result.ids))
  }

  /** The dispatch for an entry that gets past every skip. */
  function EntryDispatch(ctx: Context, i: nat, e: ScheduleEntry, attempt: Attempt): (d: Dispatched)
    requires ValidContext(ctx) && Keyed(e) && Reaches(ctx, e)
    ensures d.call.Some? ==>
              d.call.value.index == i && d.call.value.platform == e.platform.value && d.call.value.locator != ""
  {
    var videoId, platform := e.videoId.value, e.platform.value;
    Dispatch(ctx, i, videoId, platform, ItemContent(ctx.items, videoId, platform).value, attempt.outcome)
  }

  /** The record appended for an entry that gets past every skip. */
  function EntryRecord(ctx: Context, i: nat, e: ScheduleEntry, attempt: Attempt): (r: PostResult)
    requires ValidContext(ctx) && Keyed(e) && Reaches(ctx, e)
    ensures (r.videoId, r.platform) == Key(e) && r.postedAt == attempt.postedAt
  {
    Record(e.videoId.value, e.platform.value, EntryDispatch(ctx, i, e, attempt).result, attempt.postedAt)
  }

  /** The bookkeeping after the dispatch of entry `i`: the record appended
      and the results saved, the outcome counted, the call noted, and the
      entry's index logged if a pause follows it. */
  function Committed(st: State, rec: PostResult, call: Option<Call>, i: nat, pause: bool): (r: State)
    ensures r.results == st.results + [rec] && r.persisted == r.results && r.writes == st.writes + 1
    ensures r.succeeded + r.failed == st.succeeded + st.failed + 1 && (r.succeeded > st.succeeded <==> rec.success)
    ensures r.skipped == st.skipped && r.previews == st.previews
    ensures st.calls <= r.calls && |r.calls| <= |st.calls| + 1
  {
    var results := st.results + [rec];
    State(
      results, results, st.writes + 1,
      st.succeeded + (if rec.success then 1 else 0),
      st.failed + (if rec.success then 0 else 1),
      st.skipped,
      st.calls + (if call.Some? then [call.value] else []),
      st.pauses + (if pause then [i] else []),
      st.previews)
  }

  /** An attempt: the dispatch, then its bookkeeping, with a pause unless the
      entry is the last. */
  function AttemptEntry(ctx: Context, n: nat, i: nat, e: ScheduleEntry, attempt: Attempt, st: State): (st': State)
    requires ValidContext(ctx) && Keyed(e) && Reaches(ctx, e)
    ensures st'.results == st.results + [EntryRecord(ctx, i, e, attempt)] && st'.persisted == st'.results
    ensures st'.writes == st.writes + 1 && st'.succeeded + st'.failed == st.succeeded + st.failed + 1
    ensures st'.skipped == st.skipped && st'.previews == st.previews
    ensures st.pauses <= st'.pauses && (st'.pauses != st.pauses <==> i + 1 < n)
  {
    Committed(st, EntryRecord(ctx, i, e, attempt), EntryDispatch(ctx, i, e, attempt).call, i, i + 1 < n)
  }

  /** How entry `i` of an `n`-entry schedule changes the state: a skip
      counts, a preview is noted, an attempt is as above. */
  function Step(ctx: Context, n: nat, i: nat, e: ScheduleEntry, attempt: Attempt, st: State): (st': State)
    requires ValidContext(ctx) && Keyed(e)
    ensures st.results <= st'.results && |st'.results| <= |st.results| + 1
    ensures st'.succeeded + st'.failed + st'.skipped + |st'.previews| == st.succeeded + st.failed + st.skipped + |st.previews| + 1
  {
    var videoId, platform := e.videoId.value, e.platform.value;
    if Key(e) in ctx.posted || !HasContent(ctx, videoId, platform) then
      st.(skipped := st.skipped + 1)
    else if ctx.dryRun then
      st.(previews := st.previews + [i])
    else if platform !in ctx.available then
      st.(skipped := st.skipped + 1)
    else
      AttemptEntry(ctx, n, i, e, attempt, st)
  }

  /** The three ways an entry can go. */
  lemma StepCases(ctx: Context, n: nat, i: nat, e: ScheduleEntry, attempt: Attempt, st: State)
    requires ValidContext(ctx) && Keyed(e)
    ensures Reaches(ctx, e) ==> Step(ctx, n, i, e, attempt, st) == AttemptEntry(ctx, n, i, e, attempt, st)
    ensures Previewed(ctx, e) ==> Step(ctx, n, i, e, attempt, st) == st.(previews := st.previews + [i])
    ensures !Reaches(ctx, e) && !Previewed(ctx, e) ==> Step(ctx, n, i, e, attempt, st) == st.(skipped := st.skipped + 1)
  {
  }

  /** What a step appends to the results: the entry's record exactly when
      it is attempted. */
  lemma StepResults(ctx: Context, n: nat, i: nat, e: ScheduleEntry, attempt: Attempt, st: State)
    requires ValidContext(ctx) && Keyed(e)
    ensures Step(ctx, n, i, e, attempt, st).results ==
              st.results + (if Reaches(ctx, e) then [EntryRecord(ctx, i, e, attempt)] else [])
  {
  }

  /** A step counts a success exactly when it attempts the entry and the
      dispatch succeeds. */
  lemma StepSucceeded(ctx: Context, n: nat, i: nat, e: ScheduleEntry, attempt: Attempt, st: State)
    requires ValidContext(ctx) && Keyed(e)
    ensures Step(ctx, n, i, e, attempt, st).succeeded ==
              st.succeeded + (if Reaches(ctx, e) && EntryDispatch(ctx, i, e, attempt).result.success then 1 else 0)
  {
  }

  /** A step calls an uploader only for an attempted entry whose dispatch
      found a URL or path. */
  lemma StepCalls(ctx: Context, n: nat, i: nat, e: ScheduleEntry, attempt: Attempt, st: State)
    requires ValidContext(ctx) && Keyed(e)
    ensures var st' := Step(ctx, n, i, e, attempt, st);
            if Reaches(ctx, e) then
              var d := EntryDispatch(ctx, i, e, attempt);
              st'.calls == st.calls + (if d.call.Some? then [d.call.value] else [])
            else st'.calls == st.calls
  {
  }

  /** A step pauses after an attempted entry that is not the last. */
  lemma StepPauses(ctx: Context, n: nat, i: nat, e: ScheduleEntry, attempt: Attempt, st: State)
    requires ValidContext(ctx) && Keyed(e)
    ensures Step(ctx, n, i, e, attempt, st).pauses ==
              st.pauses + (if Reaches(ctx, e) && i + 1 < n then [i] else [])
  {
  }

  /** A step only appends records, saves them whenever it appends one, and
      writes the file and raises `succeeded` or `failed` once per record. */
  lemma StepAppends(ctx: Context, n: nat, i: nat, e: ScheduleEntry, attempt: Attempt, st: State)
    requires ValidContext(ctx) && Keyed(e) && st.persisted == st.results
    ensures var st' := Step(ctx, n, i, e, attempt, st);
            && st.results <= st'.results && st'.persisted == st'.results
            && |st'.results| + st.succeeded + st.failed == |st.results| + st'.succeeded + st'.failed
            && st'.writes + st.succeeded + st.failed == st.writes + st'.succeeded + st'.failed
  {
  }

  /** A normal step raises exactly one counter and previews nothing; a
      dry-run step changes neither records nor calls nor the file, and
      either previews the entry or counts it as skipped. */
  lemma StepCounters(ctx: Context, n: nat, i: nat, e: ScheduleEntry, attempt: Attempt, st: State)
    requires ValidContext(ctx) && Keyed(e)
    ensures var st' := Step(ctx, n, i, e, attempt, st);
            && (!ctx.dryRun ==>
                  st'.succeeded + st'.failed + st'.skipped == st.succeeded + st.failed + st.skipped + 1
                  && st'.previews == st.previews)
            && (ctx.dryRun ==>
                  && st'.results == st.results && st'.persisted == st.persisted && st'.calls == st.calls
                  && st'.writes == st.writes && st'.succeeded == st.succeeded && st'.failed == st.failed
                  && |st'.previews| + st'.skipped == |st.previews| + st.skipped + 1)
  {
  }

  /** The search for every entry that is not already posted can read the
      video id of each item it passes. */
  predicate EntryReady(ctx: Context, e: ScheduleEntry) {
    Keyed(e) && (Key(e) !in ctx.posted ==> KeyedUntil(ctx.items, e.videoId.value))
  }

  predicate ScheduleReady(ctx: Context, schedule: seq<ScheduleEntry>, attempts: seq<Attempt>) {
    |attempts| == |schedule| && forall k :: 0 <= k < |schedule| ==> EntryReady(ctx, schedule[k])
  }

  /** The state after the first `i` entries of the schedule. */
  function Fold(ctx: Context, schedule: seq<ScheduleEntry>, attempts: seq<Attempt>, saved: seq<PostResult>, i: nat): (st: State)
    requires ValidContext(ctx) && ScheduleReady(ctx, schedule, attempts) && i <= |schedule|
    ensures saved <= st.results && |st.results| <= |saved| + i
    ensures st.succeeded + st.failed + st.skipped + |st.previews| == i
  {
    if i == 0 then Initial(saved)
    else Step(ctx, |schedule|, i - 1, schedule[i - 1], attempts[i - 1], Fold(ctx, schedule, attempts, saved, i - 1))
  }

  // ------------------------------------------------------------- whole run

  function ContextOf(saved: seq<PostResult>, plan: Plan, meta: seq<VideoMeta>, urls: map<string, string>,
                     tokens: Tokens, dryRun: bool, videosDir: string): (ctx: Context)
    ensures ValidContext(ctx)
  {
    Context(plan.items, FileLookup(meta), urls, Configured(tokens), PostedKeys(saved), dryRun, videosDir)
  }

  datatype Execution = Execution(exit: nat, state: State)

  /** The schedule loop of `main` from the saved results `saved`, and its
      exit status. */
  function Execute(saved: seq<PostResult>, plan: Plan, meta: seq<VideoMeta>, urls: map<string, string>,
                   tokens: Tokens, dryRun: bool, videosDir: string, attempts: seq<Attempt>): (x: Execution)
    requires ScheduleReady(ContextOf(saved, plan, meta, urls, tokens, dryRun, videosDir), plan.schedule, attempts)
    ensures x.exit <= 1 && (dryRun ==> x.exit == 0)
    ensures plan.schedule != [] && !dryRun && Configured(tokens) == [] ==> x.exit == 1
    ensures saved <= x.state.results
  {
    if plan.schedule == [] then Execution(0, Initial(saved))
    else if !dryRun && Configured(tokens) == [] then Execution(1, Initial(saved))
    else
      var ctx := ContextOf(saved, plan, meta, urls, tokens, dryRun, videosDir);
      var st := Fold(ctx, plan.schedule, attempts, saved, |plan.schedule|);
      Execution(if !dryRun && st.failed > 0 then 1 else 0, st)
  }

  class Executor {
    var results: seq<PostResult>
    /** The content of the results file. */
    var persisted: seq<PostResult>
    var writes: nat
    var succeeded: nat
    var failed: nat
    var skipped: nat
    var calls: seq<Call>
    var pauses: seq<nat>
    var previews: seq<nat>

    function Snapshot(): State
      reads this
    {
      State(results, persisted, writes, succeeded, failed, skipped, calls, pauses, previews)
    }

    /** An executor over the results file's saved content (empty when there
        is no file). */
    constructor(saved: seq<PostResult>)
      ensures Snapshot() == Initial(saved)
    {
      results, persisted, writes := saved, saved, 0;
      succeeded, failed, skipped := 0, 0, 0;
      calls, pauses, previews := [], [], [];
    }

    /** One iteration of the schedule loop. */
    method ProcessEntry(ctx: Context, n: nat, i: nat, e: ScheduleEntry, attempt: Attempt)
      requires ValidContext(ctx) && EntryReady(ctx, e)
      modifies this
      ensures Snapshot() == Step(ctx, n, i, e, attempt, old(Snapshot()))
    {
      var videoId, platform := e.videoId.value, e.platform.value;
      if (videoId, platform) in ctx.posted {
        skipped := skipped + 1;
        return;
      }
      var content := GetItemContent(ctx.items, videoId, platform);
      if content.None? || content.value.IsEmpty() {
        skipped := skipped + 1;
        return;
      }
      if ctx.dryRun {
        previews := previews + [i];
        return;
      }
      if platform !in ctx.available {
        skipped := skipped + 1;
        return;
      }
      StepCases(ctx, n, i, e, attempt, Snapshot());
      PostEntry(ctx, n, i, e, attempt);
    }

    /** The rest of an iteration once the entry is past every skip: the
        dispatch, its record, the save and the pause. */
    method PostEntry(ctx: Context, n: nat, i: nat, e: ScheduleEntry, attempt: Attempt)
      requires ValidContext(ctx) && Keyed(e) && Reaches(ctx, e)
      modifies this
      ensures Snapshot() == AttemptEntry(ctx, n, i, e, attempt, old(Snapshot()))
    {
      var d := EntryDispatch(ctx, i, e, attempt);
      Commit(EntryRecord(ctx, i, e, attempt), d.call, i, i + 1 < n);
    }

    /** The bookkeeping of one attempt, in the order of the loop body. */
    method Commit(rec: PostResult, call: Option<Call>, i: nat, pause: bool)
      modifies this
      ensures Snapshot() == Committed(old(Snapshot()), rec, call, i, pause)
    {
      if call.Some? {
        calls := calls + [call.value];
      }
      results := results + [rec];
      if rec.success {
        succeeded := succeeded + 1;
      } else {
        failed := failed + 1;
      }
      // Save after each post.
      persisted := results;
      writes := writes + 1;
      if pause {
        pauses := pauses + [i];
      }
    }

    /** The run of `main` from the results file's content: an empty schedule
        exits 0, a normal run with no configured platform exits 1, and
        otherwise every entry is processed in order and the run exits 1
        exactly when a normal run recorded a failure. */
    method Run(plan: Plan, meta: seq<VideoMeta>, urls: map<string, string>, tokens: Tokens,
               dryRun: bool, videosDir: string, attempts: seq<Attempt>) returns (exit: nat)
      requires Snapshot() == Initial(persisted)
      requires ScheduleReady(ContextOf(persisted, plan, meta, urls, tokens, dryRun, videosDir), plan.schedule, attempts)
      modifies this
      ensures Execution(exit, Snapshot()) == Execute(old(persisted), plan, meta, urls, tokens, dryRun, videosDir, attempts)
    {
      var saved := persisted;
      var schedule := plan.schedule;
      if |schedule| == 0 {
        return 0;
      }
      var available := CheckCredentials(tokens);
      if !dryRun && |available| == 0 {
        return 1;
      }
      var ctx := Context(plan.items, FileLookup(meta), urls, available, PostedKeys(saved), dryRun, videosDir);
      assert ctx == ContextOf(saved, plan, meta, urls, tokens, dryRun, videosDir);
      RunSchedule(ctx, schedule, attempts, saved);
      exit := if !dryRun && failed > 0 then 1 else 0;
    }

    /** The schedule loop: every entry in order, from the saved results. */
    method RunSchedule(ctx: Context, schedule: seq<ScheduleEntry>, attempts: seq<Attempt>, saved: seq<PostResult>)
      requires ValidContext(ctx) && ScheduleReady(ctx, schedule, attempts)
      requires Snapshot() == Initial(saved)
      modifies this
      ensures Snapshot() == Fold(ctx, schedule, attempts, saved, |schedule|)
    {
      var i := 0;
      while i < |schedule|
        invariant 0 <= i <= |schedule|
        invariant Snapshot() == Fold(ctx, schedule, attempts, saved, i)
      {
        ProcessEntry(ctx, |schedule|, i, schedule[i], attempts[i]);
        i := i + 1;
      }
    }
  }

  // ------------------------------------------------------------ properties

  /** The indices, in order, of the first `i` entries that get past every
      skip and are attempted. */
  function Attempted(ctx: Context, schedule: seq<ScheduleEntry>, attempts: seq<Attempt>, i: nat): (a: seq<nat>)
    requires ScheduleReady(ctx, schedule, attempts) && i <= |schedule|
    ensures forall k :: 0 <= k < |a| ==> a[k] < i && Reaches(ctx, schedule[a[k]])
    ensures forall k, l :: 0 <= k < l < |a| ==> a[k] < a[l]
    ensures forall j :: 0 <= j < i && Reaches(ctx, schedule[j]) ==> j in a
  {
    if i == 0 then []
    else Attempted(ctx, schedule, attempts, i - 1) + (if Reaches(ctx, schedule[i - 1]) then [i - 1] else [])
  }

  /** The number of successful records in `rs`. */
  function Successes(rs: seq<PostResult>): (c: nat)
    ensures c <= |rs|
  {
    if rs == [] then 0 else Successes(rs[..|rs| - 1]) + (if rs[|rs| - 1].success then 1 else 0)
  }

  /** All records are successes exactly when they are all counted as such. */
  lemma {:induction false} SuccessesAll(rs: seq<PostResult>)
    ensures Successes(rs) == |rs| <==> forall k :: 0 <= k < |rs| ==> rs[k].success
  {
    if rs != [] {
      var front := rs[..|rs| - 1];
      SuccessesAll(front);
      assert forall k :: 0 <= k < |front| ==> front[k] == rs[k];
      if Successes(rs) == |rs| {
        assert Successes(front) == |front|;
      }
    }
  }

  /** Records are only appended; the results file always holds the
      in-memory results; each attempt writes it once and is counted once as
      succeeded or failed. */
  lemma {:induction false} FoldAppends(ctx: Context, schedule: seq<ScheduleEntry>, attempts: seq<Attempt>, saved: seq<PostResult>, i: nat)
    requires ValidContext(ctx) && ScheduleReady(ctx, schedule, attempts) && i <= |schedule|
    ensures var st := Fold(ctx, schedule, attempts, saved, i);
            && |st.results| == |saved| + st.succeeded + st.failed
            && st.results[..|saved|] == saved
            && st.persisted == st.results
            && st.writes == st.succeeded + st.failed
  {
    if i > 0 {
      FoldAppends(ctx, schedule, attempts, saved, i - 1);
      var prev := Fold(ctx, schedule, attempts, saved, i - 1);
      StepAppends(ctx, |schedule|, i - 1, schedule[i - 1], attempts[i - 1], prev);
      var st := Fold(ctx, schedule, attempts, saved, i);
      assert st.results[..|saved|] == prev.results[..|saved|];
    }
  }

  /** `succeeded` counts the successful records of this run, so `failed`
      counts its failure records. */
  lemma {:induction false} FoldCountsOutcomes(ctx: Context, schedule: seq<ScheduleEntry>, attempts: seq<Attempt>, saved: seq<PostResult>, i: nat)
    requires ValidContext(ctx) && ScheduleReady(ctx, schedule, attempts) && i <= |schedule|
    ensures var st := Fold(ctx, schedule, attempts, saved, i);
            |saved| <= |st.results| && st.succeeded == Successes(st.results[|saved|..])
  {
    if i == 0 {
      assert Fold(ctx, schedule, attempts, saved, 0).results[|saved|..] == [];
    } else {
      FoldCountsOutcomes(ctx, schedule, attempts, saved, i - 1);
      var prev := Fold(ctx, schedule, attempts, saved, i - 1);
      var st := Fold(ctx, schedule, attempts, saved, i);
      var e, attempt := schedule[i - 1], attempts[i - 1];
      StepResults(ctx, |schedule|, i - 1, e, attempt, prev);
      StepSucceeded(ctx, |schedule|, i - 1, e, attempt, prev);
      if Reaches(ctx, e) {
        var rec := EntryRecord(ctx, i - 1, e, attempt);
        SuccessesOfSnoc(prev.results, rec, |saved|);
      }
    }
  }

  /** Appending one record to a list adds its success to the count of any
      suffix. */
  lemma SuccessesOfSnoc(rs: seq<PostResult>, rec: PostResult, n: nat)
    requires n <= |rs|
    ensures Successes((rs + [rec])[n..]) == Successes(rs[n..]) + (if rec.success then 1 else 0)
  {
    var added := (rs + [rec])[n..];
    assert added[..|added| - 1] == rs[n..];
  }

  /** In a normal run every entry raises exactly one counter; a dry run
      records, calls and writes nothing and counts only skips. */
  lemma {:induction false} FoldCounters(ctx: Context, schedule: seq<ScheduleEntry>, attempts: seq<Attempt>, saved: seq<PostResult>, i: nat)
    requires ValidContext(ctx) && ScheduleReady(ctx, schedule, attempts) && i <= |schedule|
    ensures var st := Fold(ctx, schedule, attempts, saved, i);
            && (!ctx.dryRun ==> st.succeeded + st.failed + st.skipped == i && st.previews == [])
            && (ctx.dryRun ==>
                  && st.results == saved && st.persisted == saved && st.calls == [] && st.writes == 0
                  && st.succeeded == 0 && st.failed == 0 && |st.previews| + st.skipped == i)
  {
    if i > 0 {
      FoldCounters(ctx, schedule, attempts, saved, i - 1);
      var prev := Fold(ctx, schedule, attempts, saved, i - 1);
      StepCounters(ctx, |schedule|, i - 1, schedule[i - 1], attempts[i - 1], prev);
    }
  }

  /** Earlier records are never changed: the results after `i` entries are
      a prefix of the results after any later `j`. */
  lemma {:induction false} FoldAppendOnly(ctx: Context, schedule: seq<ScheduleEntry>, attempts: seq<Attempt>, saved: seq<PostResult>, i: nat, j: nat)
    requires ValidContext(ctx) && ScheduleReady(ctx, schedule, attempts) && i <= j <= |schedule|
    ensures Fold(ctx, schedule, attempts, saved, i).results <= Fold(ctx, schedule, attempts, saved, j).results
  {
    if i < j {
      FoldAppendOnly(ctx, schedule, attempts, saved, i, j - 1);
      var prev := Fold(ctx, schedule, attempts, saved, j - 1);
      var e := schedule[j - 1];
      StepResults(ctx, |schedule|, j - 1, e, attempts[j - 1], prev);
      PrefixThenAppend(Fold(ctx, schedule, attempts, saved, i).results, prev.results,
        if Reaches(ctx, e) then [EntryRecord(ctx, j - 1, e, attempts[j - 1])] else []);
    }
  }

  lemma PrefixThenAppend<T>(a: seq<T>, b: seq<T>, c: seq<T>)
    requires a <= b
    ensures a <= b + c
  {
    assert (b + c)[..|a|] == b[..|a|];
  }

  /** The records from `base` on are those of the entries `a`, in order,
      each of which gets past every skip. */
  predicate RecordsOf(ctx: Context, schedule: seq<ScheduleEntry>, attempts: seq<Attempt>, rs: seq<PostResult>, base: nat, a: seq<nat>)
    requires ValidContext(ctx) && ScheduleReady(ctx, schedule, attempts)
  {
    && |rs| == base + |a|
    && forall k :: 0 <= k < |a| ==>
         && a[k] < |schedule| && Reaches(ctx, schedule[a[k]])
         && rs[base + k] == EntryRecord(ctx, a[k], schedule[a[k]], attempts[a[k]])
  }

  /** One schedule position on from `RecordsOf`: an attempted entry adds
      its record and its index, any other adds nothing. */
  lemma RecordsStep(ctx: Context, schedule: seq<ScheduleEntry>, attempts: seq<Attempt>, base: nat, j: nat,
                    rs: seq<PostResult>, a: seq<nat>, rs': seq<PostResult>, a': seq<nat>)
    requires ValidContext(ctx) && ScheduleReady(ctx, schedule, attempts) && j < |schedule|
    requires RecordsOf(ctx, schedule, attempts, rs, base, a)
    requires rs' == rs + (if Reaches(ctx, schedule[j]) then [EntryRecord(ctx, j, schedule[j], attempts[j])] else [])
    requires a' == a + (if Reaches(ctx, schedule[j]) then [j] else [])
    ensures RecordsOf(ctx, schedule, attempts, rs', base, a')
  {
    forall k | 0 <= k < |a|
      ensures a'[k] < |schedule| && Reaches(ctx, schedule[a'[k]])
      ensures rs'[base + k] == EntryRecord(ctx, a'[k], schedule[a'[k]], attempts[a'[k]])
    {
      assert a'[k] == a[k] && rs'[base + k] == rs[base + k];
    }
  }

  /** The results after the first `i` entries, built from the records of
      the attempted ones alone. */
  function ResultsAfter(ctx: Context, schedule: seq<ScheduleEntry>, attempts: seq<Attempt>, saved: seq<PostResult>, i: nat): seq<PostResult>
    requires ValidContext(ctx) && ScheduleReady(ctx, schedule, attempts) && i <= |schedule|
  {
    if i == 0 then saved
    else
      ResultsAfter(ctx, schedule, attempts, saved, i - 1)
        + (if Reaches(ctx, schedule[i - 1]) then [EntryRecord(ctx, i - 1, schedule[i - 1], attempts[i - 1])] else [])
  }

  lemma {:induction false} FoldResultsAfter(ctx: Context, schedule: seq<ScheduleEntry>, attempts: seq<Attempt>, saved: seq<PostResult>, i: nat)
    requires ValidContext(ctx) && ScheduleReady(ctx, schedule, attempts) && i <= |schedule|
    ensures Fold(ctx, schedule, attempts, saved, i).results == ResultsAfter(ctx, schedule, attempts, saved, i)
  {
    if i > 0 {
      FoldResultsAfter(ctx, schedule, attempts, saved, i - 1);
      StepResults(ctx, |schedule|, i - 1, schedule[i - 1], attempts[i - 1], Fold(ctx, schedule, attempts, saved, i - 1));
    }
  }

  lemma {:induction false} ResultsAfterRecords(ctx: Context, schedule: seq<ScheduleEntry>, attempts: seq<Attempt>, saved: seq<PostResult>, i: nat)
    requires ValidContext(ctx) && ScheduleReady(ctx, schedule, attempts) && i <= |schedule|
    ensures RecordsOf(ctx, schedule, attempts, ResultsAfter(ctx, schedule, attempts, saved, i), |saved|,
                      Attempted(ctx, schedule, attempts, i))
  {
    if i > 0 {
      ResultsAfterRecords(ctx, schedule, attempts, saved, i - 1);
      RecordsStep(ctx, schedule, attempts, |saved|, i - 1,
                  ResultsAfter(ctx, schedule, attempts, saved, i - 1), Attempted(ctx, schedule, attempts, i - 1),
                  ResultsAfter(ctx, schedule, attempts, saved, i), Attempted(ctx, schedule, attempts, i));
    }
  }

  /** Exactly one record per attempted entry, in schedule order: the
      records after the saved ones are the attempted entries' records. */
  lemma FoldRecordsAttempts(ctx: Context, schedule: seq<ScheduleEntry>, attempts: seq<Attempt>, saved: seq<PostResult>, i: nat)
    requires ValidContext(ctx) && ScheduleReady(ctx, schedule, attempts) && i <= |schedule|
    ensures RecordsOf(ctx, schedule, attempts, Fold(ctx, schedule, attempts, saved, i).results, |saved|,
                      Attempted(ctx, schedule, attempts, i))
  {
    FoldResultsAfter(ctx, schedule, attempts, saved, i);
    ResultsAfterRecords(ctx, schedule, attempts, saved, i);
  }

  /** Every call is for one of the entries `attempted`, with that entry's
      platform and a non-empty URL or path. */
  predicate CallsMatch(calls: seq<Call>, schedule: seq<ScheduleEntry>, attempted: seq<nat>) {
    forall k :: 0 <= k < |calls| ==>
      && calls[k].index in attempted
      && calls[k].index < |schedule|
      && schedule[calls[k].index].platform == Some(calls[k].platform)
      && calls[k].locator != ""
  }

  /** Uploaders are called only for attempted entries, each with the
      entry's platform and a non-empty URL or path. */
  lemma {:induction false} FoldCallsAttempts(ctx: Context, schedule: seq<ScheduleEntry>, attempts: seq<Attempt>, saved: seq<PostResult>, i: nat)
    requires ValidContext(ctx) && ScheduleReady(ctx, schedule, attempts) && i <= |schedule|
    ensures CallsMatch(Fold(ctx, schedule, attempts, saved, i).calls, schedule, Attempted(ctx, schedule, attempts, i))
  {
    if i > 0 {
      FoldCallsAttempts(ctx, schedule, attempts, saved, i - 1);
      var prev := Fold(ctx, schedule, attempts, saved, i - 1);
      StepCalls(ctx, |schedule|, i - 1, schedule[i - 1], attempts[i - 1], prev);
      var a := Attempted(ctx, schedule, attempts, i - 1);
      var a' := Attempted(ctx, schedule, attempts, i);
      if Reaches(ctx, schedule[i - 1]) {
        assert a' == a + [i - 1];
        var d := EntryDispatch(ctx, i - 1, schedule[i - 1], attempts[i - 1]);
        var added := if d.call.Some? then [d.call.value] else [];
        CallsMatchAppend(prev.calls, added, schedule, a, a');
      } else {
        assert a' == a;
      }
    }
  }

  lemma CallsMatchAppend(calls: seq<Call>, added: seq<Call>, schedule: seq<ScheduleEntry>, a: seq<nat>, a': seq<nat>)
    requires CallsMatch(calls, schedule, a) && CallsMatch(added, schedule, a')
    requires forall x :: x in a ==> x in a'
    ensures CallsMatch(calls + added, schedule, a')
  {
    var all := calls + added;
    forall k | 0 <= k < |all|
      ensures all[k].index in a' && all[k].index < |schedule|
      ensures schedule[all[k].index].platform == Some(all[k].platform) && all[k].locator != ""
    {
      if k < |calls| {
        assert all[k] == calls[k];
      } else {
        assert all[k] == added[k - |calls|];
      }
    }
  }

  /** Every call is for an entry before `i`. */
  predicate CallsBefore(calls: seq<Call>, i: nat) {
    forall k :: 0 <= k < |calls| ==> calls[k].index < i
  }

  /** The calls' entry indices strictly increase. */
  predicate CallsIncreasing(calls: seq<Call>) {
    forall k, l :: 0 <= k < l < |calls| ==> calls[k].index < calls[l].index
  }

  /** Calls for entry `j` appended after calls for earlier entries keep
      the calls in order. */
  lemma CallsOrderedSnoc(calls: seq<Call>, added: seq<Call>, j: nat)
    requires CallsBefore(calls, j) && CallsIncreasing(calls)
    requires |added| <= 1 && forall k :: 0 <= k < |added| ==> added[k].index == j
    ensures CallsBefore(calls + added, j + 1) && CallsIncreasing(calls + added)
  {
    var all := calls + added;
    assert forall k :: 0 <= k < |calls| ==> all[k] == calls[k];
    assert forall k :: |calls| <= k < |all| ==> all[k] == added[k - |calls|];
  }

  /** Uploader calls happen in schedule order, at most one per entry. */
  lemma {:induction false} FoldCallsOrdered(ctx: Context, schedule: seq<ScheduleEntry>, attempts: seq<Attempt>, saved: seq<PostResult>, i: nat)
    requires ValidContext(ctx) && ScheduleReady(ctx, schedule, attempts) && i <= |schedule|
    ensures CallsBefore(Fold(ctx, schedule, attempts, saved, i).calls, i)
    ensures CallsIncreasing(Fold(ctx, schedule, attempts, saved, i).calls)
  {
    if i > 0 {
      FoldCallsOrdered(ctx, schedule, attempts, saved, i - 1);
      var prev := Fold(ctx, schedule, attempts, saved, i - 1);
      StepCalls(ctx, |schedule|, i - 1, schedule[i - 1], attempts[i - 1], prev);
      if Reaches(ctx, schedule[i - 1]) {
        var d := EntryDispatch(ctx, i - 1, schedule[i - 1], attempts[i - 1]);
        CallsOrderedSnoc(prev.calls, if d.call.Some? then [d.call.value] else [], i - 1);
      }
    }
  }

  /** Pausing after entry `j` exactly when it is attempted and not the
      last keeps the pauses in step with the attempts. */
  lemma PausesSnoc(pauses: seq<nat>, a: seq<nat>, pauses': seq<nat>, a': seq<nat>, n: nat, j: nat, attempted: bool)
    requires forall p :: p in pauses <==> p in a && p + 1 < n
    requires pauses' == pauses + (if attempted && j + 1 < n then [j] else [])
    requires a' == a + (if attempted then [j] else [])
    ensures forall p :: p in pauses' <==> p in a' && p + 1 < n
  {
  }

  /** The run pauses after exactly the attempted entries that are not the
      last of the schedule. */
  lemma {:induction false} FoldPausesAttempts(ctx: Context, schedule: seq<ScheduleEntry>, attempts: seq<Attempt>, saved: seq<PostResult>, i: nat)
    requires ValidContext(ctx) && ScheduleReady(ctx, schedule, attempts) && i <= |schedule|
    ensures var st := Fold(ctx, schedule, attempts, saved, i);
            forall p :: p in st.pauses <==> p in Attempted(ctx, schedule, attempts, i) && p + 1 < |schedule|
  {
    if i > 0 {
      FoldPausesAttempts(ctx, schedule, attempts, saved, i - 1);
      var prev := Fold(ctx, schedule, attempts, saved, i - 1);
      StepPauses(ctx, |schedule|, i - 1, schedule[i - 1], attempts[i - 1], prev);
      PausesSnoc(prev.pauses, Attempted(ctx, schedule, attempts, i - 1),
                 Fold(ctx, schedule, attempts, saved, i).pauses, Attempted(ctx, schedule, attempts, i),
                 |schedule|, i - 1, Reaches(ctx, schedule[i - 1]));
    }
  }

  /** An entry whose key has a success record in the saved results is never
      attempted and never sent to an uploader. */
  lemma PostedNeverSent(ctx: Context, schedule: seq<ScheduleEntry>, attempts: seq<Attempt>, saved: seq<PostResult>, j: nat)
    requires ValidContext(ctx) && ScheduleReady(ctx, schedule, attempts) && j < |schedule|
    requires Key(schedule[j]) in ctx.posted
    ensures j !in Attempted(ctx, schedule, attempts, |schedule|)
    ensures forall k :: 0 <= k < |Fold(ctx, schedule, attempts, saved, |schedule|).calls| ==>
              Fold(ctx, schedule, attempts, saved, |schedule|).calls[k].index != j
  {
    FoldCallsAttempts(ctx, schedule, attempts, saved, |schedule|);
  }

  /** Only success records mark a key as posted: a key all of whose saved
      records failed is retried. */
  lemma FailedKeysRetried(saved: seq<PostResult>, videoId: string, platform: string)
    requires forall k :: 0 <= k < |saved| && saved[k].videoId == videoId && saved[k].platform == platform ==> !saved[k].success
    ensures (videoId, platform) !in PostedKeys(saved)
  {
  }

  /** The exit status: 0 for an empty schedule, 1 for a normal run without
      credentials, and otherwise 1 exactly when a normal run appended a
      failure record. */
  lemma ExitStatus(saved: seq<PostResult>, plan: Plan, meta: seq<VideoMeta>, urls: map<string, string>,
                   tokens: Tokens, dryRun: bool, videosDir: string, attempts: seq<Attempt>)
    requires ScheduleReady(ContextOf(saved, plan, meta, urls, tokens, dryRun, videosDir), plan.schedule, attempts)
    ensures var e := Execute(saved, plan, meta, urls, tokens, dryRun, videosDir, attempts);
            && (plan.schedule == [] ==> e == Execution(0, Initial(saved)))
            && (plan.schedule != [] && !dryRun && Configured(tokens) == [] ==> e == Execution(1, Initial(saved)))
            && (e.exit == 1 <==>
                  plan.schedule != [] && !dryRun
                  && (Configured(tokens) == []
                      || exists k :: |saved| <= k < |e.state.results| && !e.state.results[k].success))
  {
    var e := Execute(saved, plan, meta, urls, tokens, dryRun, videosDir, attempts);
    if plan.schedule != [] && (dryRun || Configured(tokens) != []) {
      var ctx := ContextOf(saved, plan, meta, urls, tokens, dryRun, videosDir);
      FoldAppends(ctx, plan.schedule, attempts, saved, |plan.schedule|);
      FoldCountsOutcomes(ctx, plan.schedule, attempts, saved, |plan.schedule|);
      var added := e.state.results[|saved|..];
      SuccessesAll(added);
      assert forall k :: |saved| <= k < |e.state.results| ==> e.state.results[k] == added[k - |saved|];
      if exists k :: |saved| <= k < |e.state.results| && !e.state.results[k].success {
        var k :| |saved| <= k < |e.state.results| && !e.state.results[k].success;
        assert !added[k - |saved|].success;
      }
      if e.state.failed > 0 {
        var k :| 0 <= k < |added| && !added[k].success;
        assert !e.state.results[|saved| + k].success;
      }
    }
  }

  /** A dry run exits 0 and changes nothing: no record, no call, no write. */
  lemma DryRunChangesNothing(saved: seq<PostResult>, plan: Plan, meta: seq<VideoMeta>, urls: map<string, string>,
                             tokens: Tokens, videosDir: string, attempts: seq<Attempt>)
    requires ScheduleReady(ContextOf(saved, plan, meta, urls, tokens, true, videosDir), plan.schedule, attempts)
    ensures var e := Execute(saved, plan, meta, urls, tokens, true, videosDir, attempts);
            && e.exit == 0 && e.state.results == saved && e.state.persisted == saved
            && e.state.calls == [] && e.state.writes == 0
            && e.state.succeeded == 0 && e.state.failed == 0
  {
    if plan.schedule != [] {
      FoldCounters(ContextOf(saved, plan, meta, urls, tokens, true, videosDir), plan.schedule, attempts, saved, |plan.schedule|);
    }
  }

  /** An Instagram entry with content but no hosted URL is recorded as a
      failure without calling the uploader, and the run exits 1. */
  lemma MissingUrlFailsEntry(saved: seq<PostResult>, item: Item, block: Block, videoId: string,
                             tokens: Tokens, videosDir: string, meta: seq<VideoMeta>, attempt: Attempt)
    requires item.videoId == Some(videoId) && Instagram in item.blocks && item.blocks[Instagram] == block
    requires !block.IsEmpty() && tokens.instagram != ""
    requires (videoId, Instagram) !in PostedKeys(saved)
    ensures var plan := Plan([item], [ScheduleEntry(Some(videoId), Some(Instagram), None)]);
            var e := Execute(saved, plan, meta, map[], tokens, false, videosDir, [attempt]);
            && e.exit == 1
            && e.state.results == saved + [PostResult(videoId, Instagram, false, attempt.postedAt, Some(NoS3Url), map[])]
            && e.state.calls == [] && e.state.failed == 1 && e.state.pauses == []
  {
    var entry := ScheduleEntry(Some(videoId), Some(Instagram), None);
    var plan := Plan([item], [entry]);
    var ctx := ContextOf(saved, plan, meta, map[], tokens, false, videosDir);
    assert ItemContent(ctx.items, videoId, Instagram) == Some(block);
    assert Instagram in ctx.available;
    assert Reaches(ctx, entry);
    var e := Execute(saved, plan, meta, map[], tokens, false, videosDir, [attempt]);
    assert e.state == Fold(ctx, plan.schedule, [attempt], saved, 1)
                   == Step(ctx, 1, 0, entry, attempt, Initial(saved));
    StepCases(ctx, 1, 0, entry, attempt, Initial(saved));
    assert EntryDispatch(ctx, 0, entry, attempt) == Dispatched(Failure(Instagram, NoS3Url), None);
    assert CopyIds(Instagram, map[]) == map[];
  }

  /** Re-running after a success skips the entry: nothing is recorded or
      called and the run exits 0. */
  lemma RerunSkipsPosted(saved: seq<PostResult>, plan: Plan, meta: seq<VideoMeta>, urls: map<string, string>,
                         tokens: Tokens, videosDir: string, attempt: Attempt, r: nat)
    requires |plan.schedule| == 1 && Keyed(plan.schedule[0])
    requires Configured(tokens) != []
    requires r < |saved| && saved[r].success && (saved[r].videoId, saved[r].platform) == Key(plan.schedule[0])
    ensures var e := Execute(saved, plan, meta, urls, tokens, false, videosDir, [attempt]);
            && e.exit == 0 && e.state.results == saved && e.state.calls == [] && e.state.skipped == 1
  {
    var ctx := ContextOf(saved, plan, meta, urls, tokens, false, videosDir);
    assert Key(plan.schedule[0]) in ctx.posted;
    var e := Execute(saved, plan, meta, urls, tokens, false, videosDir, [attempt]);
    assert e.state == Fold(ctx, plan.schedule, [attempt], saved, 1)
                   == Step(ctx, 1, 0, plan.schedule[0], attempt, Initial(saved));
    StepCases(ctx, 1, 0, plan.schedule[0], attempt, Initial(saved));
  }

  /** A key listed twice in one schedule is attempted twice: the posted keys
      are fixed before the loop. */
  lemma DuplicateKeyAttemptedTwice(ctx: Context, e: ScheduleEntry, attempts: seq<Attempt>, saved: seq<PostResult>)
    requires ValidContext(ctx) && Keyed(e) && ScheduleReady(ctx, [e, e], attempts) && Reaches(ctx, e)
    ensures var st := Fold(ctx, [e, e], attempts, saved, 2);
            && |st.results| == |saved| + 2
            && (st.results[|saved|].videoId, st.results[|saved|].platform) == Key(e)
            && (st.results[|saved| + 1].videoId, st.results[|saved| + 1].platform) == Key(e)
            && st.pauses == [0]
  {
    var schedule := [e, e];
    assert Fold(ctx, schedule, attempts, saved, 0) == Initial(saved);
    var st1 := Fold(ctx, schedule, attempts, saved, 1);
    assert schedule[0] == e && schedule[1] == e && |schedule| == 2;
    assert st1 == Step(ctx, 2, 0, e, attempts[0], Initial(saved));
    StepCases(ctx, 2, 0, e, attempts[0], Initial(saved));
    assert st1.results == saved + [EntryRecord(ctx, 0, e, attempts[0])] && st1.pauses == [0];
    var st2 := Fold(ctx, schedule, attempts, saved, 2);
    assert st2 == Step(ctx, 2, 1, e, attempts[1], st1);
    StepCases(ctx, 2, 1, e, attempts[1], st1);
    assert st2.results == st1.results + [EntryRecord(ctx, 1, e, attempts[1])] && st2.pauses == [0];
  }

  // ---------------------------------------------- records of the uploaders

  lemma CopyNothing(platform: string)
    ensures CopyIds(platform, map[]) == map[]
  {
  }

  lemma CopyMediaId(ids: map<string, Option<string>>)
    requires ids.Keys == {"media_id"}
    ensures CopyIds(Instagram, ids) == map["media_id" := ids["media_id"]]
  {
  }

  lemma CopyPublishId(ids: map<string, Option<string>>)
    requires ids.Keys == {"publish_id"}
    ensures CopyIds(TikTok, ids) == map["publish_id" := ids["publish_id"]]
  {
  }

  lemma CopyVideoId(ids: map<string, Option<string>>)
    requires ids.Keys == {"video_id"}
    ensures CopyIds(Facebook, ids) == map["fb_video_id" := ids["video_id"]]
  {
  }

  /** A record of an Instagram run carries the published media id when the
      run succeeded, and no id otherwise. */
  lemma InstagramRecordIds(videoId: string, postedAt: string, cfg: PostInstagram.Config, videoUrl: string,
                           caption: string, hashtags: seq<string>, t: PostInstagram.Transcript)
    ensures var o := PostInstagram.Run(cfg, videoUrl, caption, hashtags, t).outcome;
            Record(videoId, Instagram, o, postedAt).ids
              == if o.success then map["media_id" := Field(t.publish, "id")] else map[]
  {
    var o := PostInstagram.Run(cfg, videoUrl, caption, hashtags, t).outcome;
    PostInstagram.SuccessExactly(cfg, videoUrl, caption, hashtags, t);
    if o.success {
      CopyMediaId(o.ids);
    } else {
      CopyNothing(Instagram);
    }
  }

  /** A record of a TikTok run carries the init's `publish_id` when the run
      succeeded, and no id otherwise. */
  lemma TikTokRecordIds(videoId: string, postedAt: string, cfg: PostTikTok.Config, videoPath: string, file: Option<nat>,
                        caption: string, hashtags: seq<string>, t: PostTikTok.Transcript)
    requires PostTikTok.InitCarriesHandles(t.init)
    ensures var o := PostTikTok.Run(cfg, videoPath, file, caption, hashtags, t).outcome;
            && (o.success ==> Record(videoId, TikTok, o, postedAt).ids
                                == map["publish_id" := Some(t.init.fields["data.publish_id"])])
            && (!o.success ==> Record(videoId, TikTok, o, postedAt).ids == map[])
  {
    var o := PostTikTok.Run(cfg, videoPath, file, caption, hashtags, t).outcome;
    PostTikTok.SuccessIds(cfg, videoPath, file, caption, hashtags, t);
    if o.success {
      CopyPublishId(o.ids);
    } else {
      CopyNothing(TikTok);
    }
  }

  /** A record of a Facebook run carries the init's video id as
      `fb_video_id` when the run succeeded, and no id otherwise. */
  lemma FacebookRecordIds(videoId: string, postedAt: string, cfg: PostFacebook.Config, videoPath: string, file: Option<nat>,
                          caption: string, hashtags: seq<string>, t: PostFacebook.Transcript)
    ensures var o := PostFacebook.Run(cfg, videoPath, file, caption, hashtags, t).outcome;
            && (o.success ==> Record(videoId, Facebook, o, postedAt).ids
                                == map["fb_video_id" := Some(Field(t.init, "video_id").value)])
            && (!o.success ==> Record(videoId, Facebook, o, postedAt).ids == map[])
  {
    var o := PostFacebook.Run(cfg, videoPath, file, caption, hashtags, t).outcome;
    PostFacebook.SuccessIds(cfg, videoPath, file, caption, hashtags, t);
    if o.success {
      CopyVideoId(o.ids);
    } else {
      CopyNothing(Facebook);
    }
  }
}
