/** The two pure parts of tools/generate_posting_plan.py: the rule checker
    that reports what is wrong with a generated plan, and the assembly of the
    prompt's user message from the brand settings and the video metadata.
    The model call and the file handling around them are not part of this
    model. */
module GeneratePostingPlan {
  import opened Wrappers
  import opened Text
  import opened PlanModel

  // ------------------------------------------------------------ the rules

  const InstagramTags: (nat, nat) := (5, 12)
  const TikTokTags: (nat, nat) := (3, 6)
  const FacebookTags: (nat, nat) := (3, 8)
  const MaxInstagramCaption: nat := 2200

  const NoScheduleMessage: string := "No posting schedule generated"
  const DuplicateTimesMessage: string := "Schedule has duplicate publish times"

  /** `item.get(platform, {})`: a missing block reads as an empty one. */
  function BlockOf(item: Item, platform: string): (b: Block)
    ensures platform !in item.blocks ==> b.IsEmpty()
  {
    GetOrDefault(item.blocks, platform, Block(None, None, {}))
  }

  function TagCount(item: Item, platform: string): nat {
    |BlockOf(item, platform).HashtagsOrEmpty()|
  }

  function CaptionOf(item: Item, platform: string): string {
    BlockOf(item, platform).CaptionOrEmpty()
  }

  /** `item.get("video_id", "?")` */
  function VideoLabel(item: Item): string {
    item.videoId.GetOr("?")
  }

  function CountMessage(expected: nat, got: nat): string {
    "Expected " + NatToString(expected) + " items, got " + NatToString(got)
  }

  function HashtagMessage(vid: string, name: string, n: nat, bounds: (nat, nat)): string {
    vid + ": " + name + " has " + NatToString(n) + " hashtags (expected "
      + NatToString(bounds.0) + "-" + NatToString(bounds.1) + ")"
  }

  function CaptionLengthMessage(vid: string, n: nat): string {
    vid + ": Instagram caption is " + NatToString(n) + " chars (max 2200)"
  }

  function DuplicateCaptionsMessage(vid: string): string {
    vid + ": Duplicate captions detected across platforms"
  }

  predicate InBounds(n: nat, bounds: (nat, nat)) {
    bounds.0 <= n <= bounds.1
  }

  /** `len(set(captions)) < 3` over the three platform captions. */
  predicate CaptionsRepeat(item: Item) {
    |{CaptionOf(item, "instagram"), CaptionOf(item, "tiktok"), CaptionOf(item, "facebook")}| < 3
  }

  /** The set of elements of a list, Python's `set(xs)`. */
  function Elements<T>(xs: seq<T>): set<T> {
    set x | x in xs
  }

  /** `entry.get("publish_time_local", "")` for every schedule entry. */
  function PublishTimes(schedule: seq<ScheduleEntry>): (times: seq<string>)
    ensures |times| == |schedule|
  {
    seq(|schedule|, k requires 0 <= k < |schedule| => schedule[k].publishTime.GetOr(""))
  }

  /** A warning for the platform's hashtags exactly when their number is
      out of its bounds. */
  function HashtagWarning(item: Item, platform: string, name: string, bounds: (nat, nat)): (w: seq<string>)
    ensures |w| <= 1 && (w == [] <==> InBounds(TagCount(item, platform), bounds))
  {
    var n := TagCount(item, platform);
    if InBounds(n, bounds) then [] else [HashtagMessage(VideoLabel(item), name, n, bounds)]
  }

  /** The warnings for one item, in the order the checks run. */
  function ItemWarnings(item: Item): (w: seq<string>)
    ensures |w| <= 5
    ensures |CaptionOf(item, "instagram")| > MaxInstagramCaption ==>
              CaptionLengthMessage(VideoLabel(item), |CaptionOf(item, "instagram")|) in w
    ensures CaptionsRepeat(item) ==> w != [] && w[|w| - 1] == DuplicateCaptionsMessage(VideoLabel(item))
  {
    var vid := VideoLabel(item);
    var caption := CaptionOf(item, "instagram");
    HashtagWarning(item, "instagram", "Instagram", InstagramTags)
      + HashtagWarning(item, "tiktok", "TikTok", TikTokTags)
      + HashtagWarning(item, "facebook", "Facebook", FacebookTags)
      + (if |caption| > MaxInstagramCaption then [CaptionLengthMessage(vid, |caption|)] else [])
      + (if CaptionsRepeat(item) then [DuplicateCaptionsMessage(vid)] else [])
  }

  /** The lists of `xss`, one after another. */
  function Flatten<T>(xss: seq<seq<T>>): seq<T> {
    if xss == [] then [] else Flatten(xss[..|xss| - 1]) + xss[|xss| - 1]
  }

  /** Each item's warnings, item by item. */
  function PerItem(items: seq<Item>): (ws: seq<seq<string>>)
    ensures |ws| == |items|
  {
    seq(|items|, k requires 0 <= k < |items| => ItemWarnings(items[k]))
  }

  /** The item warnings of `items`, item after item. */
  function ItemsWarnings(items: seq<Item>): seq<string> {
    Flatten(PerItem(items))
  }

  /** A missing schedule is reported alone; otherwise only repeated publish
      times are. */
  function ScheduleWarnings(schedule: seq<ScheduleEntry>): (w: seq<string>)
    ensures |w| <= 2
    ensures schedule == [] ==> w == [NoScheduleMessage]
    ensures schedule != [] ==> NoScheduleMessage !in w
  {
    var times := PublishTimes(schedule);
    (if schedule == [] then [NoScheduleMessage] else [])
      + (if |times| != |Elements(times)| then [DuplicateTimesMessage] else [])
  }

  /** Everything `validate_plan` reports about `plan` for a batch of
      `videoCount` videos: the count, then each item, then the schedule. */
  function PlanWarnings(plan: Plan, videoCount: nat): (w: seq<string>)
    ensures |plan.items| != videoCount ==> w != [] && w[0] == CountMessage(videoCount, |plan.items|)
    ensures w == [] ==> |plan.items| == videoCount && plan.schedule != []
  {
    (if |plan.items| != videoCount then [CountMessage(videoCount, |plan.items|)] else [])
      + ItemsWarnings(plan.items) + ScheduleWarnings(plan.schedule)
  }

  /** The checker, as the source runs it: the count, one pass over the
      items, then the schedule checks, each appending its warnings. */
  method ValidatePlan(plan: Plan, videoCount: nat) returns (warnings: seq<string>)
    ensures warnings == PlanWarnings(plan, videoCount)
  {
    warnings := [];
    if |plan.items| != videoCount {
      warnings := warnings + [CountMessage(videoCount, |plan.items|)];
    }
    var itemWarnings := CheckItems(plan.items);
    var scheduleWarnings := CheckSchedule(plan.schedule);
    warnings := warnings + itemWarnings + scheduleWarnings;
  }

  /** The loop over the items. */
  method CheckItems(items: seq<Item>) returns (warnings: seq<string>)
    ensures warnings == ItemsWarnings(items)
  {
    warnings := [];
    var i := 0;
    while i < |items|
      invariant 0 <= i <= |items|
      invariant warnings == ItemsWarnings(items[..i])
    {
      var itemWarnings := CheckItem(items[i]);
      ItemsWarningsSnoc(items, i);
      warnings := warnings + itemWarnings;
      i := i + 1;
    }
    assert items[..i] == items;
  }

  /** The schedule must exist and its publish times must all differ. */
  method CheckSchedule(schedule: seq<ScheduleEntry>) returns (warnings: seq<string>)
    ensures warnings == ScheduleWarnings(schedule)
  {
    warnings := [];
    if schedule == [] {
      warnings := warnings + [NoScheduleMessage];
    }
    var times := PublishTimes(schedule);
    if |times| != |Elements(times)| {
      warnings := warnings + [DuplicateTimesMessage];
    }
  }

  /** The body of the item loop: the rules for one item in order, each
      adding its warning when the item breaks it. */
  method CheckItem(item: Item) returns (warnings: seq<string>)
    ensures warnings == ItemWarnings(item)
  {
    var vid := VideoLabel(item);
    var ig := CheckHashtags(item, "instagram", "Instagram", InstagramTags);
    var tt := CheckHashtags(item, "tiktok", "TikTok", TikTokTags);
    var fb := CheckHashtags(item, "facebook", "Facebook", FacebookTags);
    warnings := ig + tt + fb;
    var igCaption := CaptionOf(item, "instagram");
    if |igCaption| > 2200 {
      warnings := warnings + [CaptionLengthMessage(vid, |igCaption|)];
    }
    var captions := [igCaption, CaptionOf(item, "tiktok"), CaptionOf(item, "facebook")];
    assert Elements(captions) == {captions[0], captions[1], captions[2]};
    if |Elements(captions)| < 3 {
      warnings := warnings + [DuplicateCaptionsMessage(vid)];
    }
  }

  /** One platform's hashtag-count rule. */
  method CheckHashtags(item: Item, platform: string, name: string, bounds: (nat, nat)) returns (warnings: seq<string>)
    ensures warnings == HashtagWarning(item, platform, name, bounds)
  {
    warnings := [];
    var tags := TagCount(item, platform);
    if tags < bounds.0 || tags > bounds.1 {
      warnings := [HashtagMessage(VideoLabel(item), name, tags, bounds)];
    }
  }

  // ------------------------------------------------------- what it means

  /** An item that every per-item rule accepts. */
  predicate ItemOk(item: Item) {
    var ig, tt, fb := CaptionOf(item, "instagram"), CaptionOf(item, "tiktok"), CaptionOf(item, "facebook");
    && InBounds(TagCount(item, "instagram"), InstagramTags)
    && InBounds(TagCount(item, "tiktok"), TikTokTags)
    && InBounds(TagCount(item, "facebook"), FacebookTags)
    && |ig| <= MaxInstagramCaption
    && ig != tt && tt != fb && ig != fb
  }

  predicate Distinct<T(==)>(xs: seq<T>) {
    forall j, k :: 0 <= j < k < |xs| ==> xs[j] != xs[k]
  }

  /** A plan that every rule accepts: one item per video, every item
      acceptable, a schedule, and no two entries at the same publish time. */
  predicate PlanOk(plan: Plan, videoCount: nat) {
    && |plan.items| == videoCount
    && (forall k :: 0 <= k < |plan.items| ==> ItemOk(plan.items[k]))
    && plan.schedule != []
    && Distinct(PublishTimes(plan.schedule))
  }

  /** Three values have fewer than three distinct members exactly when two
      of them are equal. */
  lemma ThreeDistinct<T>(a: T, b: T, c: T)
    ensures |{a, b, c}| < 3 <==> a == b || b == c || a == c
  {
    if a != b && b != c && a != c {
      assert {a, b, c} == {a, b} + {c};
      assert |{a, b}| == 2;
    }
  }

  /** A list has as many distinct elements as entries exactly when no value
      repeats; it never has more. */
  lemma {:induction false} ElementsCount<T>(xs: seq<T>)
    ensures |Elements(xs)| <= |xs|
    ensures |Elements(xs)| == |xs| <==> Distinct(xs)
  {
    if xs != [] {
      var init, x := xs[..|xs| - 1], xs[|xs| - 1];
      ElementsCount(init);
      assert xs == init + [x];
      assert Elements(xs) == Elements(init) + {x};
      if x in Elements(init) {
        var j :| 0 <= j < |init| && init[j] == x;
        assert xs[j] == xs[|xs| - 1];
      } else {
        assert forall j :: 0 <= j < |init| ==> xs[j] == init[j] && init[j] != x;
        if Distinct(init) {
          forall j, k | 0 <= j < k < |xs| ensures xs[j] != xs[k] {
            if k < |init| {
              assert xs[j] == init[j] && xs[k] == init[k];
            }
          }
        } else {
          var j, k :| 0 <= j < k < |init| && init[j] == init[k];
          assert xs[j] == xs[k];
        }
      }
    }
  }

  lemma CaptionsRepeatIff(item: Item)
    ensures CaptionsRepeat(item) <==>
              var ig, tt, fb := CaptionOf(item, "instagram"), CaptionOf(item, "tiktok"), CaptionOf(item, "facebook");
              ig == tt || tt == fb || ig == fb
  {
    ThreeDistinct(CaptionOf(item, "instagram"), CaptionOf(item, "tiktok"), CaptionOf(item, "facebook"));
  }

  lemma ItemWarningsEmptyIff(item: Item)
    ensures ItemWarnings(item) == [] <==> ItemOk(item)
  {
    CaptionsRepeatIff(item);
  }

  /** A concatenation of lists is empty exactly when each list is. */
  lemma {:induction false} FlattenEmptyIff<T>(xss: seq<seq<T>>)
    ensures Flatten(xss) == [] <==> forall k :: 0 <= k < |xss| ==> xss[k] == []
  {
    if xss != [] {
      var init := xss[..|xss| - 1];
      FlattenEmptyIff(init);
      assert forall k :: 0 <= k < |init| ==> init[k] == xss[k];
    }
  }

  /** The item checks of a list are empty exactly when every item passes. */
  lemma ItemsWarningsEmptyIff(items: seq<Item>)
    ensures ItemsWarnings(items) == [] <==> forall k :: 0 <= k < |items| ==> ItemOk(items[k])
  {
    var ws := PerItem(items);
    FlattenEmptyIff(ws);
    forall k | 0 <= k < |items|
      ensures ws[k] == [] <==> ItemOk(items[k])
    {
      ItemWarningsEmptyIff(items[k]);
    }
  }

  /** A plan draws no warning exactly when every rule accepts it. */
  lemma PlanPassesIff(plan: Plan, videoCount: nat)
    ensures PlanWarnings(plan, videoCount) == [] <==> PlanOk(plan, videoCount)
  {
    ItemsWarningsEmptyIff(plan.items);
    ElementsCount(PublishTimes(plan.schedule));
  }

  lemma {:induction false} FlattenConcat<T>(a: seq<seq<T>>, b: seq<seq<T>>)
    ensures Flatten(a + b) == Flatten(a) + Flatten(b)
  {
    if b == [] {
      assert a + b == a;
    } else {
      var init := b[..|b| - 1];
      FlattenConcat(a, init);
      assert (a + b)[..|a + b| - 1] == a + init;
    }
  }

  lemma ItemsWarningsSnoc(items: seq<Item>, i: nat)
    requires i < |items|
    ensures ItemsWarnings(items[..i + 1]) == ItemsWarnings(items[..i]) + ItemWarnings(items[i])
  {
    var p := PerItem(items[..i + 1]);
    assert p[..i] == PerItem(items[..i]);
  }

  /** Items are checked independently and reported in item order. */
  lemma ItemsWarningsConcat(a: seq<Item>, b: seq<Item>)
    ensures ItemsWarnings(a + b) == ItemsWarnings(a) + ItemsWarnings(b)
  {
    assert PerItem(a + b) == PerItem(a) + PerItem(b);
    FlattenConcat(PerItem(a), PerItem(b));
  }

  /** Each rule an item breaks yields its own warning, naming the item and
      the measured value. */
  lemma ItemRulesWarn(item: Item)
    ensures var vid, n := VideoLabel(item), TagCount(item, "instagram");
            !InBounds(n, InstagramTags) ==> HashtagMessage(vid, "Instagram", n, InstagramTags) in ItemWarnings(item)
    ensures var vid, n := VideoLabel(item), TagCount(item, "tiktok");
            !InBounds(n, TikTokTags) ==> HashtagMessage(vid, "TikTok", n, TikTokTags) in ItemWarnings(item)
    ensures var vid, n := VideoLabel(item), TagCount(item, "facebook");
            !InBounds(n, FacebookTags) ==> HashtagMessage(vid, "Facebook", n, FacebookTags) in ItemWarnings(item)
    ensures var c := CaptionOf(item, "instagram");
            |c| > MaxInstagramCaption ==> CaptionLengthMessage(VideoLabel(item), |c|) in ItemWarnings(item)
    ensures var ig, tt, fb := CaptionOf(item, "instagram"), CaptionOf(item, "tiktok"), CaptionOf(item, "facebook");
            (ig == tt || tt == fb || ig == fb) ==> DuplicateCaptionsMessage(VideoLabel(item)) in ItemWarnings(item)
  {
    CaptionsRepeatIff(item);
  }

  /** A missing platform block counts as no hashtags and an empty caption,
      so a missing Instagram block warns about zero hashtags. */
  lemma MissingBlockCountsAsEmpty(item: Item, platform: string)
    requires platform !in item.blocks
    ensures TagCount(item, platform) == 0 && CaptionOf(item, platform) == ""
    ensures platform == "instagram" ==>
              HashtagMessage(VideoLabel(item), "Instagram", 0, InstagramTags) in ItemWarnings(item)
  {
  }

  /** Every warning about item `k` appears among the plan's warnings. */
  lemma ItemWarningsReported(plan: Plan, videoCount: nat, k: nat, w: string)
    requires k < |plan.items| && w in ItemWarnings(plan.items[k])
    ensures w in PlanWarnings(plan, videoCount)
  {
    var items := plan.items;
    ItemsWarningsSnoc(items, k);
    ItemsWarningsConcat(items[..k + 1], items[k + 1..]);
    assert items[..k + 1] + items[k + 1..] == items;
    assert w in ItemsWarnings(items[..k + 1]);
    assert w in ItemsWarnings(items);
  }

  /** The count check comes first; the schedule checks come last. */
  lemma CountAndScheduleWarnings(plan: Plan, videoCount: nat)
    ensures |plan.items| != videoCount ==>
              PlanWarnings(plan, videoCount)[0] == CountMessage(videoCount, |plan.items|)
    ensures var w := PlanWarnings(plan, videoCount);
            plan.schedule == [] ==> |w| > 0 && w[|w| - 1] == NoScheduleMessage
    ensures var w := PlanWarnings(plan, videoCount);
            !Distinct(PublishTimes(plan.schedule)) ==> |w| > 0 && w[|w| - 1] == DuplicateTimesMessage
  {
    ElementsCount(PublishTimes(plan.schedule));
  }

  // ------------------------------------------------------ the user message

  /** `brand.get(key, default)`, each brand value given as its text. */
  function BrandField(brand: map<string, string>, key: string, default: string): string {
    GetOrDefault(brand, key, default)
  }

  /** The line that introduces the metadata, stating the batch size. */
  function BatchLine(batchSize: nat): string {
    "Videos (batch of " + NatToString(batchSize) + "):"
  }

  /** The lines of the user message. `videosJson` is the indented JSON text
      of the video metadata. */
  function UserMessageLines(brand: map<string, string>, batchSize: nat, videosJson: string): (ls: seq<string>)
    ensures |ls| == 16 && ls[0] == "Inputs" && ls[15] == "Now generate the JSON."
    ensures ls[8] == BatchLine(batchSize) && ls[9] == videosJson
    ensures ls[7] == "" && ls[10] == "" && ls[14] == ""
  {
    [
      "Inputs",
      "Brand voice: " + BrandField(brand, "brand_voice", "not specified"),
      "Audience: " + BrandField(brand, "audience", "not specified"),
      "Niche: " + BrandField(brand, "niche", "not specified"),
      "Call to action style: " + BrandField(brand, "cta_style", "not specified"),
      "Hashtag style: " + BrandField(brand, "hashtag_style", "not specified"),
      "Banned words or topics: " + BrandField(brand, "banned_list", "none"),
      "",
      BatchLine(batchSize),
      videosJson,
      "",
      "Timezone for scheduling: " + BrandField(brand, "timezone", "America/New_York"),
      "Posts per day: " + BrandField(brand, "posts_per_day", "3"),
      "Start date: " + BrandField(brand, "start_date", "auto"),
      "",
      "Now generate the JSON."
    ]
  }

  /** The user message: the lines joined by newlines, so it opens with the
      "Inputs" heading line. */
  function BuildUserMessage(brand: map<string, string>, videos: seq<VideoMeta>, videosJson: string): (msg: string)
    ensures |msg| >= 7 && msg[..7] == "Inputs\n"
  {
    var lines := UserMessageLines(brand, |videos|, videosJson);
    var rest := Join(lines[1..], "\n");
    assert Join(lines, "\n") == "Inputs" + "\n" + rest;
    assert ("Inputs" + "\n" + rest)[..7] == "Inputs\n";
    Join(lines, "\n")
  }

  lemma InfixOfSuffix(a: string, prefix: string)
    ensures IsInfix(a, prefix + a)
  {
    assert InfixAt(a, prefix + a, |prefix|);
  }

  /** Line `k` of the message, and whatever it ends with, appear in it. */
  lemma LineInMessage(brand: map<string, string>, videos: seq<VideoMeta>, videosJson: string,
                      k: nat, heading: string, value: string)
    requires k < 16 && UserMessageLines(brand, |videos|, videosJson)[k] == heading + value
    ensures IsInfix(heading + value, BuildUserMessage(brand, videos, videosJson))
    ensures IsInfix(value, BuildUserMessage(brand, videos, videosJson))
  {
    var lines := UserMessageLines(brand, |videos|, videosJson);
    JoinContainsPart(lines, "\n", k);
    InfixOfSuffix(value, heading);
    InfixTransitive(value, heading + value, Join(lines, "\n"));
  }

  /** The message states every brand setting, or its default, on its own
      labelled line. */
  lemma UserMessageStatesBrand(brand: map<string, string>, videos: seq<VideoMeta>, videosJson: string)
    ensures var msg := BuildUserMessage(brand, videos, videosJson);
            && IsInfix("Brand voice: " + BrandField(brand, "brand_voice", "not specified"), msg)
            && IsInfix("Audience: " + BrandField(brand, "audience", "not specified"), msg)
            && IsInfix("Niche: " + BrandField(brand, "niche", "not specified"), msg)
            && IsInfix("Call to action style: " + BrandField(brand, "cta_style", "not specified"), msg)
            && IsInfix("Hashtag style: " + BrandField(brand, "hashtag_style", "not specified"), msg)
            && IsInfix("Banned words or topics: " + BrandField(brand, "banned_list", "none"), msg)
  {
    var lines := UserMessageLines(brand, |videos|, videosJson);
    var msg := Join(lines, "\n");
    assert IsInfix(lines[1], msg) by { JoinContainsPart(lines, "\n", 1); }
    assert IsInfix(lines[2], msg) by { JoinContainsPart(lines, "\n", 2); }
    assert IsInfix(lines[3], msg) by { JoinContainsPart(lines, "\n", 3); }
    assert IsInfix(lines[4], msg) by { JoinContainsPart(lines, "\n", 4); }
    assert IsInfix(lines[5], msg) by { JoinContainsPart(lines, "\n", 5); }
    assert IsInfix(lines[6], msg) by { JoinContainsPart(lines, "\n", 6); }
  }

  /** The message states the batch size and carries the metadata JSON
      verbatim. */
  lemma UserMessageStatesVideos(brand: map<string, string>, videos: seq<VideoMeta>, videosJson: string)
    ensures var msg := BuildUserMessage(brand, videos, videosJson);
            && IsInfix(BatchLine(|videos|), msg)
            && IsInfix(videosJson, msg)
  {
    var lines := UserMessageLines(brand, |videos|, videosJson);
    JoinContainsValue(lines, "\n", 8, BatchLine(|videos|));
    JoinContainsValue(lines, "\n", 9, videosJson);
  }

  /** The message states the scheduling settings, or their defaults. */
  lemma UserMessageStatesSchedule(brand: map<string, string>, videos: seq<VideoMeta>, videosJson: string)
    ensures var msg := BuildUserMessage(brand, videos, videosJson);
            && IsInfix("Timezone for scheduling: " + BrandField(brand, "timezone", "America/New_York"), msg)
            && IsInfix("Posts per day: " + BrandField(brand, "posts_per_day", "3"), msg)
            && IsInfix("Start date: " + BrandField(brand, "start_date", "auto"), msg)
  {
    var lines := UserMessageLines(brand, |videos|, videosJson);
    var msg := Join(lines, "\n");
    assert IsInfix(lines[11], msg) by { JoinContainsPart(lines, "\n", 11); }
    assert IsInfix(lines[12], msg) by { JoinContainsPart(lines, "\n", 12); }
    assert IsInfix(lines[13], msg) by { JoinContainsPart(lines, "\n", 13); }
  }

  /** A brand value that is set appears in the message; a brand with no
      voice set shows the "not specified" default. */
  lemma BrandValuesAppear(brand: map<string, string>, videos: seq<VideoMeta>, videosJson: string)
    ensures "brand_voice" in brand ==> IsInfix(brand["brand_voice"], BuildUserMessage(brand, videos, videosJson))
    ensures "audience" in brand ==> IsInfix(brand["audience"], BuildUserMessage(brand, videos, videosJson))
    ensures "niche" in brand ==> IsInfix(brand["niche"], BuildUserMessage(brand, videos, videosJson))
    ensures "brand_voice" !in brand ==> IsInfix("not specified", BuildUserMessage(brand, videos, videosJson))
  {
    var msg := BuildUserMessage(brand, videos, videosJson);
    UserMessageStatesBrand(brand, videos, videosJson);
    LabelledValueIn("Brand voice: ", BrandField(brand, "brand_voice", "not specified"), msg);
    LabelledValueIn("Audience: ", BrandField(brand, "audience", "not specified"), msg);
    LabelledValueIn("Niche: ", BrandField(brand, "niche", "not specified"), msg);
  }

  /** The value of a labelled line that appears in a text appears in it. */
  lemma LabelledValueIn(heading: string, value: string, text: string)
    requires IsInfix(heading + value, text)
    ensures IsInfix(value, text)
  {
    InfixOfSuffix(value, heading);
    InfixTransitive(value, heading + value, text);
  }

  /** The batch line gives the batch size back: the text between its label
      and its closing "):" is the size in decimal. */
  lemma BatchLineStatesSize(batchSize: nat)
    ensures var line := BatchLine(batchSize);
            |line| >= 19 && line[..17] == "Videos (batch of " && line[|line| - 2..] == "):"
            && ParseNat(line[17..|line| - 2]) == Some(batchSize)
  {
    var line := BatchLine(batchSize);
    var digits := NatToString(batchSize);
    assert line == "Videos (batch of " + digits + "):";
    assert line[17..|line| - 2] == digits;
    NatToStringRoundTrip(batchSize);
  }
}
