# Post-Bulk-Videos-to-Platforms, modelled in Dafny

The repository is a small pipeline. It takes a batch of short videos from a
local folder, has a language model write platform-specific captions,
hashtags and a posting schedule, and posts each scheduled entry to
Instagram, TikTok or Facebook through their HTTP APIs. Once a post
succeeds it is never repeated: a later run skips it.

This project models the core of that pipeline and proves properties of the
model:

- **Batch selection** (`tools/scan_videos.py`, module `ScanVideos`). The
  folder listing is filtered to regular files whose lower-cased suffix is a
  video extension. A sample of at most the batch size is drawn, and each
  pick gets a metadata record numbered `v001`, `v002`, … in selection
  order.
- **Plan generation** (`tools/generate_posting_plan.py`, module
  `GeneratePostingPlan`). The user message sent to the model is assembled
  from the brand settings (or their defaults), the batch size and the
  metadata JSON. The returned plan is then validated: item count, hashtag
  bounds per platform, Instagram caption length, captions repeated across
  platforms, a missing schedule, and repeated publish times.
- **The three uploaders** (`tools/post_instagram.py`, `tools/post_tiktok.py`,
  `tools/post_facebook.py`; modules `PostInstagram`, `PostTikTok`,
  `PostFacebook`, with the shared pieces in `Captions` and `Http`). Each
  one is a fixed sequence of HTTP steps around a status poll: Instagram
  polls the container and then calls `media_publish`, while TikTok ends
  with the poll of the publish status and Facebook with the poll of the
  video status after its finish call. Each uploader is
  modelled as a function from the responses it receives (a *transcript*) to
  the outcome dictionary it returns and every request it sent. A method with
  the source's loop is proved equal to that function. The Facebook uploader
  counts a poll that hits its ceiling as success; Instagram and TikTok count
  it as failure. This asymmetry is kept as a per-platform `TimeoutPolicy`.
- **Plan execution** (`tools/execute_posting_plan.py`, module
  `ExecutePostingPlan`). The main loop runs as a class `Executor` whose
  fields are the in-memory results, the content of the results file, the
  three counters, the uploader calls made, the pauses taken and the dry-run
  previews. Each iteration is proved equal to a pure `Step`. The whole loop
  is proved equal to a fold of `Step` over the schedule. The lemmas about
  that fold state that:
  - records are only appended;
  - the file is rewritten after every attempt;
  - an entry that was already posted is never sent again;
  - a dry run changes nothing;
  - an empty schedule exits 0 before anything else is checked; otherwise
    the exit status is 1 exactly when the run is not a dry run and either
    no platform has credentials or a failure was recorded.

Inputs that the source reads from the outside world are parameters of the
model:

| Source input | Model parameter |
|---|---|
| The folder listing | a `seq<DirEntry>` |
| `random.sample` | the chosen positions |
| Whether a video file exists, and its size | an `Option<nat>` |
| Each HTTP response | a field of the transcript |
| The status responses that arrive before the 300-second ceiling | the transcript's `polls` sequence |
| The outcome and timestamp of each attempted entry | an `Attempt` |
| The `json.dumps` text of the metadata | a string |

An entry with no hosted URL (Instagram) or no file path (TikTok, Facebook)
is recorded as a failed result without calling the uploader, so a normal
run then exits 1 (execute_posting_plan.py lines 157–174);
`MissingUrlFailsEntry` states this.

Integers are unbounded in both Python and Dafny, so no wrap-around is
involved. Each `nat` stands for a count, a size or an HTTP status.

## Model

| member | source | states |
|---|---|---|
| ExecutePostingPlan.ItemContent | tools/execute_posting_plan.py:40-45 | Content is only ever found in an item that carries the video id: it is that item's block for the platform. |
| ExecutePostingPlan.ItemContentAbsent | tools/execute_posting_plan.py:40-45 | With no item carrying the video id, there is no content. |
| ExecutePostingPlan.ItemContentFirstMatch | tools/execute_posting_plan.py:40-45 | Only the first item carrying the video id counts: the content is that item's block for the platform, or `None` when it has none, whatever later items hold. |
| ExecutePostingPlan.GetItemContent | tools/execute_posting_plan.py:40-45 | The scan with its early return yields exactly `ItemContent`. |
| ExecutePostingPlan.Configured | tools/execute_posting_plan.py:48-57 | A platform is listed iff its token is non-empty. The order is Instagram, TikTok, Facebook, and at most three are listed. |
| ExecutePostingPlan.CheckCredentials | tools/execute_posting_plan.py:48-57 | The appending code returns exactly `Configured`. |
| ExecutePostingPlan.FileLookup | tools/execute_posting_plan.py:103 | The id of the last metadata record is always a key. |
| ExecutePostingPlan.FileLookupKeys | tools/execute_posting_plan.py:103 | The lookup's keys are exactly the metadata ids. |
| ExecutePostingPlan.FileLookupLastWins | tools/execute_posting_plan.py:103 | For a repeated id, the last record with that id supplies the file name. |
| ExecutePostingPlan.PostedKeys | tools/execute_posting_plan.py:89-93 | The posted keys are exactly the (video id, platform) pairs of saved records marked successful. |
| ExecutePostingPlan.FailedKeysRetried | tools/execute_posting_plan.py:89-93 | A key whose saved records all failed is not posted, so it is retried. |
| ExecutePostingPlan.VideoPath | tools/execute_posting_plan.py:135-136 | The local path is empty iff the metadata names no file for the video; otherwise it lies under the videos directory. |
| ExecutePostingPlan.Locator | tools/execute_posting_plan.py:135-137 | What the uploader is given is empty iff the hosted URL is missing or empty (Instagram), or the metadata names no file (TikTok, Facebook). |
| ExecutePostingPlan.Dispatch | tools/execute_posting_plan.py:156-174 | The uploader is called iff the URL (Instagram) or the local path (TikTok, Facebook) is non-empty. When it is called, its result is taken and the call carries the entry's index, platform, locator, caption and hashtags. Otherwise the result is the failure "No S3 URL …" or "No video file path". |
| ExecutePostingPlan.CopyIds | tools/execute_posting_plan.py:184-190 | `media_id` and `publish_id` are copied whenever present. `video_id` is copied as `fb_video_id` only for Facebook. Nothing else is copied. |
| ExecutePostingPlan.Record | tools/execute_posting_plan.py:177-190 | A record bears the entry's video id and platform, the uploader's success flag and error, and the timestamp. Of the ids it keeps only `media_id`, `publish_id` and `fb_video_id`. |
| ExecutePostingPlan.EntryDispatch | tools/execute_posting_plan.py:156-174 | A call made for an entry carries its index, its platform and a non-empty locator. |
| ExecutePostingPlan.EntryRecord | tools/execute_posting_plan.py:177-183 | The record bears the entry's video id and platform and the attempt's timestamp. |
| ExecutePostingPlan.Committed | tools/execute_posting_plan.py:192-203 | The record is appended and the results file then holds exactly the in-memory results, written once more. Exactly one of `succeeded`/`failed` rises, `succeeded` iff the record succeeded. The skips and previews are unchanged, and at most one call is added. |
| ExecutePostingPlan.AttemptEntry | tools/execute_posting_plan.py:153-207 | An attempt appends the entry's record, saves the results, writes the file once and raises `succeeded` or `failed` by one. It pauses afterwards iff the entry is not the schedule's last. |
| ExecutePostingPlan.Step | tools/execute_posting_plan.py:115-207 | An entry only appends to the results, at most one record. It is settled exactly once: as a success, a failure, a skip or a preview. |
| ExecutePostingPlan.Fold | tools/execute_posting_plan.py:110-207 | After `i` entries the saved results are still a prefix, at most `i` records were added, and each of the `i` entries was settled exactly once. |
| ExecutePostingPlan.Execute | tools/execute_posting_plan.py:74-218 | The exit status is 0 or 1. A dry run exits 0. A normal run with a non-empty schedule and no credentials exits 1. The saved results stay a prefix of the final results. |
| ExecutePostingPlan.StepCases | tools/execute_posting_plan.py:115-207 | An entry can go three ways. It is attempted when it is not yet posted, has content, the run is not dry and its platform is configured. It is previewed in a dry run. Otherwise only the skip counter changes. |
| ExecutePostingPlan.Executor.constructor | tools/execute_posting_plan.py:110-113 | The results start as a copy of the saved results, and every counter and log starts at zero or empty. |
| ExecutePostingPlan.Executor.ProcessEntry | tools/execute_posting_plan.py:115-207 | One loop iteration changes the executor's fields exactly as `Step` says: the three skips, the dry-run preview, and otherwise the attempt. |
| ExecutePostingPlan.Executor.PostEntry | tools/execute_posting_plan.py:153-207 | An entry past every skip is dispatched, its record appended, the outcome counted, the results saved, and a pause taken unless it is the last entry, exactly as `AttemptEntry` says. |
| ExecutePostingPlan.Executor.Commit | tools/execute_posting_plan.py:192-207 | The bookkeeping appends the record, counts it as a success or failure by its `success` flag, saves the results, notes the call, and logs a pause only when asked. Nothing else changes. |
| ExecutePostingPlan.Executor.RunSchedule | tools/execute_posting_plan.py:115-207 | The schedule loop leaves the fields as the fold of `Step` over every entry, in order. |
| ExecutePostingPlan.Executor.Run | tools/execute_posting_plan.py:74-218 | The exit status and the final fields are those of `Execute`. An empty schedule exits 0 and a normal run without credentials exits 1, both before the loop. Otherwise the result is the fold of `Step` over the schedule. |
| ExecutePostingPlan.Attempted | tools/execute_posting_plan.py:115-151 | The attempted indices are strictly increasing. Each passes every skip, and every index that passes every skip is included. |
| ExecutePostingPlan.SuccessesAll | tools/execute_posting_plan.py:194-199 | The success count equals the number of records iff every record succeeded. |
| ExecutePostingPlan.FoldAppends | tools/execute_posting_plan.py:110-203 | The saved results stay a prefix. One record is added per succeeded or failed count. The results file always equals the in-memory results, and it is written once per attempt. |
| ExecutePostingPlan.FoldCountsOutcomes | tools/execute_posting_plan.py:192-199 | `succeeded` is the number of successful records appended in this run. |
| ExecutePostingPlan.FoldCounters | tools/execute_posting_plan.py:115-151 | In a normal run each entry raises exactly one of the three counters. A dry run records, calls and writes nothing, and each entry is either previewed or skipped. |
| ExecutePostingPlan.FoldAppendOnly | tools/execute_posting_plan.py:192 | The results after `i` entries are a prefix of the results after any later `j`. |
| ExecutePostingPlan.FoldRecordsAttempts | tools/execute_posting_plan.py:177-192 | The records after the saved ones are exactly the attempted entries' records, one each, in schedule order. |
| ExecutePostingPlan.FoldCallsAttempts | tools/execute_posting_plan.py:155-174 | Every uploader call belongs to an attempted entry, goes to that entry's platform and has a non-empty locator. |
| ExecutePostingPlan.FoldCallsOrdered | tools/execute_posting_plan.py:115-174 | Calls happen in schedule order, at most one per entry, and only for entries already processed. |
| ExecutePostingPlan.FoldPausesAttempts | tools/execute_posting_plan.py:205-207 | The run pauses after exactly those attempted entries that are not the schedule's last. |
| ExecutePostingPlan.PostedNeverSent | tools/execute_posting_plan.py:120-124 | An entry whose key has a saved success is never attempted and never sent to an uploader. |
| ExecutePostingPlan.ExitStatus | tools/execute_posting_plan.py:77-218 | An empty schedule exits 0 with nothing changed. A normal run without credentials exits 1 with nothing changed. The exit status is 1 iff a normal run had no credentials or appended a failure record. |
| ExecutePostingPlan.DryRunChangesNothing | tools/execute_posting_plan.py:139-145 | A dry run exits 0. It appends no record, makes no call and writes no file. |
| ExecutePostingPlan.MissingUrlFailsEntry | tools/execute_posting_plan.py:157-160 | An Instagram entry with content but no hosted URL is recorded as failed with the "No S3 URL" message. The uploader is not called and the run exits 1. |
| ExecutePostingPlan.RerunSkipsPosted | tools/execute_posting_plan.py:120-124 | Re-running a schedule entry that already has a success record skips it: no record, no call, exit 0. |
| ExecutePostingPlan.DuplicateKeyAttemptedTwice | tools/execute_posting_plan.py:89-124 | The posted keys are fixed before the loop, so a key scheduled twice is attempted twice. It gets two records, with one pause between them. |
| ExecutePostingPlan.CopyNothing | tools/execute_posting_plan.py:185-190 | A result without ids gives a record without ids. |
| ExecutePostingPlan.CopyMediaId | tools/execute_posting_plan.py:185-186 | An Instagram result's `media_id` is copied as is. |
| ExecutePostingPlan.CopyPublishId | tools/execute_posting_plan.py:187-188 | A TikTok result's `publish_id` is copied as is. |
| ExecutePostingPlan.CopyVideoId | tools/execute_posting_plan.py:189-190 | A Facebook result's `video_id` becomes `fb_video_id`. |
| ExecutePostingPlan.InstagramRecordIds | tools/execute_posting_plan.py:185-186 | The record of an Instagram run carries the published media id when the run succeeded, and no id otherwise. |
| ExecutePostingPlan.TikTokRecordIds | tools/execute_posting_plan.py:187-188 | The record of a TikTok run carries the init's `publish_id` when the run succeeded, and no id otherwise. |
| ExecutePostingPlan.FacebookRecordIds | tools/execute_posting_plan.py:189-190 | The record of a Facebook run carries the init's video id as `fb_video_id` when the run succeeded, and no id otherwise. |
| Captions.NormalizeTag | tools/post_instagram.py:40 | An emitted tag starts with exactly one `#`, followed by the tag with all its leading `#` removed. |
| Captions.NormalizeIgnoresHashes | tools/post_instagram.py:40 | Any number of leading `#` on the input gives the same emitted tag. |
| Captions.NormalizeIdempotent | tools/post_instagram.py:40 | Normalising an emitted tag again changes nothing. |
| Captions.TagStringUpToMarkers | tools/post_instagram.py:40 | Tag lists that agree once leading `#` are stripped give the same tag string. |
| Captions.TagString | tools/post_instagram.py:40 | The tag string is empty iff there are no hashtags; otherwise it starts with `#`. |
| Captions.FullCaption | tools/post_instagram.py:41 | The posted text neither starts nor ends with whitespace, and is never longer than caption + separator + tag string. |
| Captions.CaptionWithoutTags | tools/post_instagram.py:41 | With no hashtags, the assembled caption is the stripped caption; no separator dangles. |
| Captions.PlainCaptionKeptVerbatim | tools/post_instagram.py:40-41 | If the caption does not start with whitespace and the last tag does not end with it, the posted text is caption + separator + tag string. Nothing is stripped. |
| Captions.NormalizedTagEndsPlain | tools/post_instagram.py:40 | Normalising a tag that does not end in whitespace gives a tag that does not either. |
| Captions.TagStringEndsPlain | tools/post_instagram.py:40 | If the last tag does not end in whitespace, the tag string is non-empty and does not end in whitespace either. |
| Text.Strip | tools/post_instagram.py:41 | `strip()` never lengthens its input and leaves a result that neither starts nor ends with whitespace. |
| Text.LStripChar | tools/post_instagram.py:40 | `lstrip('#')` removes a prefix made only of `#` and leaves a result that does not start with `#`. |
| Text.StripSpec | tools/post_instagram.py:41 | `strip()` removes only whitespace, at both ends, and leaves a result that neither starts nor ends with whitespace. It is empty only for an all-whitespace input. |
| Text.StripOfTrimmed | tools/post_instagram.py:41 | A string with no whitespace at either end is its own strip. |
| Text.NatToStringRoundTrip | tools/post_tiktok.py:94 | `str(n)` of a natural number is a digit string that parses back to `n`. |
| Http.FirstTerminal | tools/post_instagram.py:64-84 | The poll ends at the first non-pending verdict, and every earlier response was pending. It reaches the ceiling iff every response was pending. |
| Http.Poll | tools/post_instagram.py:64-84 | The polling loop returns exactly `FirstTerminal` and never makes more requests than the responses that arrive. |
| Http.OnTimeout | tools/post_facebook.py:124-125 | At the ceiling, the outcome succeeds iff the platform's policy is success-on-timeout. A fail-on-timeout policy gives that policy's message. |
| PostInstagram.Run | tools/post_instagram.py:35-100 | The outcome carries the platform, and it carries an error iff it failed. Every request goes by query parameters only. At most two requests are sent besides the status polls. A failure carries no ids; a success exactly `media_id`. |
| PostInstagram.AfterContainer | tools/post_instagram.py:54-100 | The same properties hold once the container request is answered, with at most one request besides the polls. |
| PostInstagram.AfterPoll | tools/post_instagram.py:75-100 | After the poll, at most the publish request is sent. A failure carries no ids; a success exactly `media_id`. |
| PostInstagram.PostReel | tools/post_instagram.py:23-100 | The imperative uploader returns exactly the outcome and requests of `Run`. |
| PostInstagram.ContainerRequest | tools/post_instagram.py:44-52 | The container creation is a POST to the user's media edge with `media_type` REELS, the video URL, the caption and the token. It is not a publish call. |
| PostInstagram.StatusRequest | tools/post_instagram.py:66-72 | A status check is a GET of the container asking for `status_code`, with the token. It is not a publish call. |
| PostInstagram.PublishRequest | tools/post_instagram.py:87-93 | The publish call goes to the user's `media_publish` edge and carries the container id as `creation_id`. |
| PostInstagram.Judge | tools/post_instagram.py:73-79 | A status check ends the poll successfully iff its `status_code` is `FINISHED`, and with an error iff it is `ERROR`; the error keeps that response. |
| PostInstagram.MissingCredentialsSendNothing | tools/post_instagram.py:35-37 | Without a user id or token, the run fails and sends nothing. |
| PostInstagram.ContainerFailureStops | tools/post_instagram.py:54-61 | A rejected container request, or one answered without an `id`, fails the run. Only the container request was sent. |
| PostInstagram.ContainerCarriesCaption | tools/post_instagram.py:40-52 | The container request carries the video URL. Its caption is the stripped caption + blank line + normalised tags. |
| PostInstagram.PollDecides | tools/post_instagram.py:63-93 | Reaching the ceiling fails with the timeout message and sends no publish request. An `ERROR` status fails without publishing. A `FINISHED` status is followed by exactly one publish request for the container id. |
| PostInstagram.RunAfterContainer | tools/post_instagram.py:43-93 | Once the container has an id, the run sends the container request, then one status check per poll made, then what follows the poll, and its outcome is the latter's. |
| PostInstagram.PollEndsPublish | tools/post_instagram.py:75-93 | After the poll, the publish request is sent exactly when the loop broke without an error: never after an `ERROR` or the ceiling. |
| PostInstagram.PublishOnlyAfterFinished | tools/post_instagram.py:75-93 | A publish request is the last request and comes only once. It comes only after a poll reported `FINISHED`. |
| PostInstagram.SuccessExactly | tools/post_instagram.py:35-100 | Success iff the credentials are set, the container has an id, a poll reports `FINISHED` before the ceiling, and publishing answers 200. The media id is the publish response's `id`. |
| PostTikTok.Run | tools/post_tiktok.py:39-127 | The outcome carries the platform, and an error iff it failed. At most two requests are sent besides the polls. A failure carries no ids; a success exactly `publish_id`. |
| PostTikTok.AfterInit | tools/post_tiktok.py:78-127 | The same properties hold once the init is answered, with at most one request besides the polls. |
| PostTikTok.AfterAccepted | tools/post_tiktok.py:90-127 | After an accepted init, the first request is the file upload, and at most one request per status response follows it. A failure carries no ids; a success exactly `publish_id`. |
| PostTikTok.AfterPoll | tools/post_tiktok.py:104-127 | The poll's end decides the outcome. A failure carries no ids; a success exactly `publish_id`. |
| PostTikTok.PostVideo | tools/post_tiktok.py:27-127 | The imperative uploader returns exactly the outcome and requests of `Run`. |
| PostTikTok.UploadAndPoll | tools/post_tiktok.py:90-127 | The upload and poll steps return exactly `AfterAccepted`. |
| PostTikTok.InitBody | tools/post_tiktok.py:59-70 | The init body declares the file size as video size and chunk size, a chunk count of 1, and the caption as post title. |
| PostTikTok.InitRequest | tools/post_tiktok.py:53-76 | The init is a POST of that JSON body with the bearer token. |
| PostTikTok.UploadHeaders | tools/post_tiktok.py:91-95 | The upload headers carry that `Content-Range`, the size in decimal as `Content-Length`, and `video/mp4` as `Content-Type`. |
| PostTikTok.UploadRequest | tools/post_tiktok.py:97-98 | The upload is a PUT of the file, streamed, to the upload URL with those headers. |
| PostTikTok.StatusRequest | tools/post_tiktok.py:107-111 | A status check is a JSON POST naming the publish id. |
| PostTikTok.Judge | tools/post_tiktok.py:113-122 | A status response other than 200 never ends the poll. A 200 ends it successfully iff `data.status` is `PUBLISH_COMPLETE`, and with an error iff it is `FAILED` or `PUBLISH_FAILED`; the error keeps that response. |
| PostTikTok.PreconditionSendsNothing | tools/post_tiktok.py:39-45 | Without a token or without the file, the run fails and sends nothing. |
| PostTikTok.InitDeclaresOneChunk | tools/post_tiktok.py:49-76 | The init declares one chunk whose size is the whole file. The post title is the stripped caption + space + tags. |
| PostTikTok.InitFailureStops | tools/post_tiktok.py:78-85 | A non-200 init, or an `error.code` other than "ok", fails after that single request. |
| PostTikTok.RunAfterAccept | tools/post_tiktok.py:78-127 | After an accepted init, the run sends the init, then exactly what follows the acceptance, and its outcome is the latter's. |
| PostTikTok.AcceptedThenPolls | tools/post_tiktok.py:97-111 | A status other than 200/201 fails after the upload alone, with the status and text. Otherwise every later request is a status poll for the publish id. |
| PostTikTok.ContentRangeCoversFile | tools/post_tiktok.py:91-95 | For a non-empty file, `Content-Range` parses back as bytes 0 to size−1 of size (section 14.4 of RFC 9110). `Content-Length` parses back as the size. |
| PostTikTok.EmptyFileRange | tools/post_tiktok.py:92 | For an empty file the header is `bytes 0--1/0`, which does not parse as a byte range. |
| PostTikTok.PollDecides | tools/post_tiktok.py:104-127 | `PUBLISH_COMPLETE` succeeds with the init's publish id. `FAILED`/`PUBLISH_FAILED` fail with the reported reason, or "unknown". The ceiling fails with the timeout message. |
| PostTikTok.SuccessIds | tools/post_tiktok.py:87-118 | A success carries exactly the init's `publish_id`. |
| PostFacebook.Run | tools/post_facebook.py:37-125 | The outcome carries the platform, and an error iff it failed. At most three requests are sent besides the polls. A failure carries no ids; a success exactly `video_id`. |
| PostFacebook.AfterInit | tools/post_facebook.py:60-125 | The same properties hold once the init is answered, with at most two requests besides the polls. |
| PostFacebook.AfterUpload | tools/post_facebook.py:82-125 | The same properties hold once the upload is answered, with at most one request besides the polls. |
| PostFacebook.AfterPoll | tools/post_facebook.py:102-125 | The poll's end decides the outcome. A failure carries no ids; a success exactly `video_id`. |
| PostFacebook.PostReel | tools/post_facebook.py:25-125 | The imperative uploader returns exactly the outcome and requests of `Run`. |
| PostFacebook.FinishAndPoll | tools/post_facebook.py:86-125 | The finish and poll steps return exactly `AfterUpload`. |
| PostFacebook.InitRequest | tools/post_facebook.py:52-58 | The init is a POST to the page's `video_reels` edge with phase `start` and the page token. |
| PostFacebook.UploadRequest | tools/post_facebook.py:70-80 | The upload is a POST of the file, streamed, to the upload host under the video id, with the OAuth token, offset `0` and the file size in decimal. |
| PostFacebook.FinishRequest | tools/post_facebook.py:87-96 | The finish call is a POST to the page's `video_reels` edge with phase `finish`, the video id, the caption as description and state `PUBLISHED`. |
| PostFacebook.StatusRequest | tools/post_facebook.py:105-111 | A status check is a GET of the video asking for `status`. |
| PostFacebook.Judge | tools/post_facebook.py:113-120 | A status response other than 200 never ends the poll. A 200 ends it successfully iff the publishing phase is `complete`, and with an error iff it is `error`; the error keeps that response. |
| PostFacebook.PreconditionSendsNothing | tools/post_facebook.py:37-43 | Without the page id, the token or the file, the run fails and sends nothing. |
| PostFacebook.InitFailureStops | tools/post_facebook.py:60-67 | A non-200 init fails with "Init failed: …". An init without `video_id` fails with "No video_id returned: …". Either way only the init request was sent. |
| PostFacebook.RunAfterUpload | tools/post_facebook.py:51-84 | After an init that issues a video id, the run sends the init and then the upload, and the rest of the run is exactly what follows the upload. |
| PostFacebook.UploadedThenFinishes | tools/post_facebook.py:82-96 | A non-200 upload fails and sends nothing more. Otherwise the next request is the finish call. |
| PostFacebook.FinishFailureStops | tools/post_facebook.py:98-100 | A finish call answered with anything but 200 fails with "Finish/publish failed: " and the response text, after the finish request alone: no status is polled. |
| PostFacebook.FinishedMeansPosted | tools/post_facebook.py:98-125 | After a successful finish, the run fails iff a poll reports publishing phase `error`. Both `complete` and the ceiling succeed with the init's video id. |
| PostFacebook.SilentPollSucceeds | tools/post_facebook.py:103-125 | When no status response is a 200, the run still succeeds, after the full number of polls. |
| PostFacebook.UploadedSuccessIds | tools/post_facebook.py:86-125 | Once the upload is accepted, a success carries exactly the given video id, whether `complete` was seen or the ceiling was reached. |
| PostFacebook.SuccessIds | tools/post_facebook.py:64-125 | A success implies the init returned a video id, and the outcome carries exactly that id. |
| GeneratePostingPlan.BlockOf | tools/generate_posting_plan.py:149 | A missing platform block reads as an empty block. |
| GeneratePostingPlan.HashtagWarning | tools/generate_posting_plan.py:148-161 | One platform's check gives at most one warning, and none iff the hashtag count is within the platform's bounds. |
| GeneratePostingPlan.ItemWarnings | tools/generate_posting_plan.py:145-175 | An item gives at most five warnings. An over-long Instagram caption is reported with its length. Repeated captions give the item's last warning. |
| GeneratePostingPlan.ScheduleWarnings | tools/generate_posting_plan.py:177-185 | At most two warnings. An empty schedule is reported alone, as "No posting schedule generated"; a non-empty one never is. |
| GeneratePostingPlan.PlanWarnings | tools/generate_posting_plan.py:137-187 | A count mismatch gives the first warning. A plan without warnings has the expected number of items and a non-empty schedule. |
| GeneratePostingPlan.ValidatePlan | tools/generate_posting_plan.py:137-187 | The validator returns exactly `PlanWarnings`: the count check, then each item's checks in order, then the schedule checks. |
| GeneratePostingPlan.CheckItems | tools/generate_posting_plan.py:145-175 | The item loop returns the items' warnings in item order. |
| GeneratePostingPlan.CheckSchedule | tools/generate_posting_plan.py:177-185 | Missing-schedule and duplicate-time warnings. |
| GeneratePostingPlan.CheckItem | tools/generate_posting_plan.py:146-175 | One item's five checks, in source order. |
| GeneratePostingPlan.CheckHashtags | tools/generate_posting_plan.py:148-161 | One platform's hashtag-bounds check. |
| GeneratePostingPlan.ThreeDistinct | tools/generate_posting_plan.py:174 | A three-element set has fewer than 3 members iff two of the elements are equal. |
| GeneratePostingPlan.ElementsCount | tools/generate_posting_plan.py:184 | A list's set is never larger than the list, and it is the same size iff the list has no repeats. |
| GeneratePostingPlan.CaptionsRepeatIff | tools/generate_posting_plan.py:169-175 | The duplicate-caption rule fires iff two of the three captions are equal. |
| GeneratePostingPlan.ItemWarningsEmptyIff | tools/generate_posting_plan.py:145-175 | An item yields no warning iff it has 5–12, 3–6 and 3–8 hashtags, an Instagram caption of at most 2200 characters, and three different captions. |
| GeneratePostingPlan.ItemsWarningsEmptyIff | tools/generate_posting_plan.py:145-175 | The items yield no warning iff every item passes. |
| GeneratePostingPlan.ItemsWarningsConcat | tools/generate_posting_plan.py:145-175 | Items are judged independently: the warnings for two lists of items are the two lists of warnings, concatenated. |
| GeneratePostingPlan.PlanPassesIff | tools/generate_posting_plan.py:137-187 | A plan has no warnings iff the item count matches, every item passes, the schedule is non-empty and all publish times differ. |
| GeneratePostingPlan.ItemRulesWarn | tools/generate_posting_plan.py:148-175 | Each broken rule adds its own message, naming the item and the measured value. |
| GeneratePostingPlan.MissingBlockCountsAsEmpty | tools/generate_posting_plan.py:149-151 | A missing block has no hashtags and an empty caption, so a missing Instagram block warns about 0 hashtags. |
| GeneratePostingPlan.ItemWarningsReported | tools/generate_posting_plan.py:145-175 | Every warning about any item appears in the plan's warnings. |
| GeneratePostingPlan.CountAndScheduleWarnings | tools/generate_posting_plan.py:141-185 | A count mismatch gives the first warning. A missing schedule, or repeated publish times, gives the last warning. |
| GeneratePostingPlan.UserMessageLines | tools/generate_posting_plan.py:89-106 | The message has sixteen lines. It opens with "Inputs", carries the batch line and then the metadata JSON as lines 9 and 10, has blank separator lines, and closes with "Now generate the JSON.". |
| GeneratePostingPlan.BuildUserMessage | tools/generate_posting_plan.py:87-107 | The message opens with the "Inputs" heading line. |
| GeneratePostingPlan.LineInMessage | tools/generate_posting_plan.py:89-107 | Each line of the message, and the value it ends with, appears in the message. |
| GeneratePostingPlan.UserMessageStatesBrand | tools/generate_posting_plan.py:91-96 | The message has a labelled line for each of the six brand settings, showing its value or its default ("not specified", "none"). |
| GeneratePostingPlan.UserMessageStatesVideos | tools/generate_posting_plan.py:98-99 | The message states the batch size and carries the metadata JSON verbatim. |
| GeneratePostingPlan.UserMessageStatesSchedule | tools/generate_posting_plan.py:101-103 | The message states the timezone, posts per day and start date, or their defaults "America/New_York", "3", "auto". |
| GeneratePostingPlan.BrandValuesAppear | tools/generate_posting_plan.py:91-93 | A set brand voice, audience or niche appears in the message. An unset voice shows "not specified". |
| GeneratePostingPlan.BatchLineStatesSize | tools/generate_posting_plan.py:98 | The size can be read back: the batch line's digits parse to the batch size. |
| ScanVideos.Suffix | tools/scan_videos.py:49 | A suffix starts at the name's last dot. That dot is neither the first nor the last character, and no later dot follows. The suffix is empty iff no such dot exists. |
| ScanVideos.IsVideoFile | tools/scan_videos.py:49 | A video file is a regular file with a non-empty suffix that starts with a dot and is shorter than its name. |
| ScanVideos.Candidates | tools/scan_videos.py:47-50 | An entry is a candidate iff it is in the listing and is a video file. There are never more candidates than entries. |
| ScanVideos.ScanAndSelect | tools/scan_videos.py:41-82 | The batch holds min(batch size, number of candidates) records, none when there are no candidates. The records are those of the sampled files, numbered in selection order. |
| ScanVideos.Selected | tools/scan_videos.py:60 | One file per sampled position. |
| ScanVideos.SelectedAreVideoFiles | tools/scan_videos.py:47-60 | Every sampled entry is a regular file of the listing whose suffix is a video extension. |
| ScanVideos.VideoId | tools/scan_videos.py:70 | An id is "v" followed by digits that parse back to the position, at least four characters long. |
| ScanVideos.MetaRecord | tools/scan_videos.py:69-77 | A record names its file, is numbered by its position, and has empty topic, transcript and notes. |
| ScanVideos.BatchMetadata | tools/scan_videos.py:64-77 | There is one record per selected file, in selection order. Record k (from 0) names the k-th file, has id "v" + digits parsing to k+1, and has empty topic, transcript and notes. |
| ScanVideos.IdsDistinct | tools/scan_videos.py:65-70 | No two records share an id. |
| ScanVideos.FirstIds | tools/scan_videos.py:70 | The first ids are `v001`, `v002`, `v003`. |
| ScanVideos.CandidatesKeepNamesDistinct | tools/scan_videos.py:47-50 | When folder names are distinct, candidate names are distinct too. |
| ScanVideos.SelectedNamesDistinct | tools/scan_videos.py:60 | Distinct sample positions in a list of distinct names select entries with distinct names. |
| ScanVideos.NoFileTwice | tools/scan_videos.py:60 | Sampling is without replacement: no file appears twice in a batch. |
| ScanVideos.SuffixIgnoresCase | tools/scan_videos.py:49 | A file named `clip.MP4` counts as a video: the suffix is compared in lower case. |
| ScanVideos.SuffixRejects | tools/scan_videos.py:49 | `.mp4`, `clip` and `clip.mp4.txt` do not count, and neither does a directory named `clip.mp4`. |

## Left out

- HTTP transport: connection errors, exceptions from `requests`, and response bodies that are not JSON are not modelled. A response is taken as given.
- Error texts that interpolate `resp.json()` or a status dictionary are modelled with the response's raw text.
- Polling time: the 5-second sleeps and the 300-second wall clock are not modelled. The responses that arrive before the ceiling are an input sequence.
- `time.sleep(POST_DELAY)` is modelled only as the record of where the run pauses.
- `datetime.now().isoformat()` is the `postedAt` string of each `Attempt`.
- I/O: loading and writing the JSON files, missing input files (`load_json` exits), `print` output and the environment/config loading are not part of this model.
  - The results file is the `persisted` field, counted by `writes`.
  - The saved results and the parsed plan are inputs.
- File system: `os.path.exists`/`getsize` become an optional file size, and `VIDEOS_DIR / file_name` becomes a "/" join.
- tools/scan_videos.py `get_duration` (ffprobe) and `file_size_mb` (floating point) are not part of this model. A record holds id, file name, topic, transcript and notes.
- The `iterdir` order is the order of the given listing.
- `random.sample` is the `picks` parameter: a sequence of distinct positions.
- tools/generate_posting_plan.py `call_openai` and `main`, tools/upload_to_s3.py and tools/run_pipeline.py are not part of this model.
- Text: `str.lower()` is modelled for ASCII letters only. `json.dumps(videos, indent=2)` is a parameter. Brand values are given as their rendered text; `Posts per day` defaults to "3".
- Brand's `videos_per_batch` is taken as a non-negative integer; a negative or non-integer value (which makes `random.sample` raise) is not modelled.
- ExecutePostingPlan.GetItemContent: requires every item before the first match to have a `video_id`. The source raises `KeyError` otherwise; the model excludes the crash rather than modelling it.
- ExecutePostingPlan.Executor.Run: requires every schedule entry to have `video_id` and `platform`. The source raises `KeyError` on an entry without them.
- PostTikTok.Run: requires an accepted init response to carry `data.publish_id` and `data.upload_url`. The source raises `KeyError` otherwise.
- GeneratePostingPlan.ItemRulesWarn: states each rule in one direction only (a broken rule yields its message). The converse is stated for the item as a whole by `ItemWarningsEmptyIff`.
- PostTikTok.EmptyFileRange: an empty video file produces the header `bytes 0--1/0` as written. The model records this and does not decide whether TikTok accepts it.
