/** The records that move between the pipeline's stages, as values: the
    video metadata written by tools/scan_videos.py, the posting plan written
    by tools/generate_posting_plan.py, and the result records appended by
    tools/execute_posting_plan.py. A key that may be missing from the JSON
    is an `Option`; a list that may be missing is an empty sequence. */
module PlanModel {
  import opened Wrappers

  /** One platform's block of a plan item. Only `caption` and `hashtags` are
      read; `otherKeys` names whatever else the block holds (Instagram's
      `title`, say), which matters only for whether the block is empty. */
  datatype Block = Block(caption: Option<string>, hashtags: Option<seq<string>>, otherKeys: set<string>)
  {
    /** An empty dictionary, which is falsy in Python. */
    predicate IsEmpty() {
      caption.None? && hashtags.None? && otherKeys == {}
    }

    /** `block.get("caption", "")` */
    function CaptionOrEmpty(): string {
      caption.GetOr("")
    }

    /** `block.get("hashtags", [])` */
    function HashtagsOrEmpty(): seq<string> {
      hashtags.GetOr([])
    }
  }

  /** One plan item: its video id and a block per platform name. */
  datatype Item = Item(videoId: Option<string>, blocks: map<string, Block>)

  /** One entry of `posting_plan.recommended_schedule`. */
  datatype ScheduleEntry = ScheduleEntry(
    videoId: Option<string>,
    platform: Option<string>,
    publishTime: Option<string>)

  /** The plan: `items` and `posting_plan.recommended_schedule`, each empty
      when missing. */
  datatype Plan = Plan(items: seq<Item>, schedule: seq<ScheduleEntry>)

  /** One record of the video metadata. The size and duration are not part
      of this model. */
  datatype VideoMeta = VideoMeta(
    videoId: string,
    fileName: string,
    topic: string,
    transcript: string,
    notes: string)

  /** One record of the posting results: the key, the outcome, an opaque
      timestamp and the platform ids copied from the uploader's result
      (`media_id`, `publish_id`, `fb_video_id`). */
  datatype PostResult = PostResult(
    videoId: string,
    platform: string,
    success: bool,
    postedAt: string,
    error: Option<string>,
    ids: map<string, Option<string>>)
}
