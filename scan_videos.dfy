/** The batch selection of tools/scan_videos.py: the video files of the
    videos folder are the regular files whose lower-cased suffix is a known
    video extension; a random sample of at most the batch size is taken; and
    each selected file gets a metadata record numbered from v001 in
    selection order. The directory listing and the random sample are
    inputs; file sizes and durations are not part of this model. */
module ScanVideos {
  import opened Wrappers
  import opened Text
  import opened PlanModel

  /** The extensions that mark a video file (tools/config.py). */
  const VideoExtensions: set<string> := {".mp4", ".mov", ".avi", ".mkv", ".webm"}

  /** `brand.get("videos_per_batch", 15)` */
  const DefaultBatchSize: nat := 15

  /** One entry of the videos folder: its name and whether it is a regular
      file. */
  datatype DirEntry = DirEntry(name: string, isFile: bool)

  /** Python's `s.rfind(c)`: the last position of `c`, or -1. */
  function LastIndexOf(s: string, c: char): (r: int)
    ensures -1 <= r < |s|
    ensures r >= 0 ==> s[r] == c
    ensures forall k :: r < k < |s| ==> s[k] != c
  {
    if s == [] then -1
    else if s[|s| - 1] == c then |s| - 1
    else LastIndexOf(s[..|s| - 1], c)
  }

  /** The last occurrence is the one with no later occurrence. */
  lemma {:induction false} LastIndexOfIs(s: string, c: char, i: nat)
    requires i < |s| && s[i] == c && forall k :: i < k < |s| ==> s[k] != c
    ensures LastIndexOf(s, c) == i
  {
    if i < |s| - 1 {
      LastIndexOfIs(s[..|s| - 1], c, i);
    }
  }

  /** `Path(name).suffix`: from the last dot on, provided that dot is
      neither the first nor the last character; otherwise empty. */
  function Suffix(name: string): (r: string)
    ensures r != [] ==>
              && 2 <= |r| < |name| && r == name[|name| - |r|..] && r[0] == '.'
              && forall k :: 1 <= k < |r| ==> r[k] != '.'
    ensures r == [] <==> var i := LastIndexOf(name, '.'); !(0 < i < |name| - 1)
  {
    var i := LastIndexOf(name, '.');
    if 0 < i < |name| - 1 then name[i..] else ""
  }

  /** The filter of the folder scan: a regular file with a video suffix, in
      any letter case. */
  predicate IsVideoFile(e: DirEntry)
    ensures IsVideoFile(e) ==> e.isFile && 2 <= |Suffix(e.name)| < |e.name| && Suffix(e.name)[0] == '.'
  {
    e.isFile && Lower(Suffix(e.name)) in VideoExtensions
  }

  /** The video files of a listing, in listing order. */
  function Candidates(entries: seq<DirEntry>): (c: seq<DirEntry>)
    ensures |c| <= |entries|
    ensures forall e :: e in c <==> e in entries && IsVideoFile(e)
  {
    if entries == [] then []
    else
      var last := entries[|entries| - 1];
      Candidates(entries[..|entries| - 1]) + (if IsVideoFile(last) then [last] else [])
  }

  function BatchSize(setting: Option<nat>): nat {
    setting.GetOr(DefaultBatchSize)
  }

  function Min(a: nat, b: nat): nat {
    if a <= b then a else b
  }

  /** What `random.sample(population, k)` returns, as positions into the
      population: `k` distinct positions. */
  predicate IsSample(picks: seq<nat>, population: nat, k: nat) {
    && |picks| == k
    && (forall j :: 0 <= j < |picks| ==> picks[j] < population)
    && (forall j, l :: 0 <= j < l < |picks| ==> picks[j] != picks[l])
  }

  /** `f"v{i:03d}"`: "v" followed by the position in at least three
      digits. */
  function VideoId(position: nat): (id: string)
    ensures |id| >= 4 && id[0] == 'v' && ParseNat(id[1..]) == Some(position)
  {
    assert ("v" + ZeroPadded(position, 3))[1..] == ZeroPadded(position, 3);
    "v" + ZeroPadded(position, 3)
  }

  /** The record of the file at 1-based `position` of the batch: it names
      the file, is numbered by the position, and leaves topic, transcript and
      notes empty. */
  function MetaRecord(position: nat, e: DirEntry): (m: VideoMeta)
    ensures m.fileName == e.name && m.topic == "" && m.transcript == "" && m.notes == ""
    ensures |m.videoId| >= 4 && m.videoId[0] == 'v' && ParseNat(m.videoId[1..]) == Some(position)
  {
    VideoMeta(VideoId(position), e.name, "", "", "")
  }

  /** The records for a selection, numbered from 1 in selection order: the
      `k`-th record (from 0) names the `k`-th selected file and is numbered
      `k + 1`. */
  function BatchMetadata(selected: seq<DirEntry>): (m: seq<VideoMeta>)
    ensures |m| == |selected|
    ensures forall k :: 0 <= k < |m| ==>
              && m[k].fileName == selected[k].name
              && m[k].topic == "" && m[k].transcript == "" && m[k].notes == ""
    ensures forall k :: 0 <= k < |m| ==>
              |m[k].videoId| >= 4 && m[k].videoId[0] == 'v' && ParseNat(m[k].videoId[1..]) == Some(k + 1)
  {
    seq(|selected|, k requires 0 <= k < |selected| => MetaRecord(k + 1, selected[k]))
  }

  /** The scan: filter the listing, take the sample, number the records.
      `picks` is the random sample, `setting` the brand's batch size. */
  method ScanAndSelect(entries: seq<DirEntry>, setting: Option<nat>, picks: seq<nat>) returns (metadata: seq<VideoMeta>)
    requires IsSample(picks, |Candidates(entries)|, Min(BatchSize(setting), |Candidates(entries)|))
    ensures |metadata| == Min(BatchSize(setting), |Candidates(entries)|)
    ensures Candidates(entries) == [] ==> metadata == []
    ensures metadata == BatchMetadata(Selected(entries, picks))
  {
    var allVideos := Candidates(entries);
    if allVideos == [] {
      return [];
    }
    var selected := seq(|picks|, j requires 0 <= j < |picks| => allVideos[picks[j]]);
    metadata := [];
    var i := 0;
    while i < |selected|
      invariant 0 <= i <= |selected|
      invariant |metadata| == i
      invariant forall k :: 0 <= k < i ==> metadata[k] == MetaRecord(k + 1, selected[k])
    {
      var rec := MetaRecord(i + 1, selected[i]);
      ghost var before := metadata;
      metadata := metadata + [rec];
      assert forall k :: 0 <= k < i ==> metadata[k] == before[k];
      i := i + 1;
    }
    assert metadata == BatchMetadata(selected);
  }

  // ------------------------------------------------------------ properties

  /** The selection a sample denotes. */
  function Selected(entries: seq<DirEntry>, picks: seq<nat>): (s: seq<DirEntry>)
    requires forall j :: 0 <= j < |picks| ==> picks[j] < |Candidates(entries)|
    ensures |s| == |picks|
  {
    seq(|picks|, j requires 0 <= j < |picks| => Candidates(entries)[picks[j]])
  }

  /** Every selected entry is a video file of the folder. */
  lemma SelectedAreVideoFiles(entries: seq<DirEntry>, picks: seq<nat>)
    requires forall j :: 0 <= j < |picks| ==> picks[j] < |Candidates(entries)|
    ensures var s := Selected(entries, picks);
            forall k :: 0 <= k < |s| ==> s[k] in entries && IsVideoFile(s[k])
  {
    var s, c := Selected(entries, picks), Candidates(entries);
    forall k | 0 <= k < |s|
      ensures s[k] in entries && IsVideoFile(s[k])
    {
      assert s[k] == c[picks[k]] && c[picks[k]] in c;
    }
  }

  /** No two records share an id. */
  lemma IdsDistinct(selected: seq<DirEntry>)
    ensures var m := BatchMetadata(selected);
            forall j, k :: 0 <= j < k < |m| ==> m[j].videoId != m[k].videoId
  {
    var m := BatchMetadata(selected);
    forall j, k | 0 <= j < k < |m|
      ensures m[j].videoId != m[k].videoId
    {
      assert ParseNat(m[j].videoId[1..]) != ParseNat(m[k].videoId[1..]);
    }
  }

  /** The first three ids. */
  lemma FirstIds()
    ensures VideoId(1) == "v001" && VideoId(2) == "v002" && VideoId(3) == "v003"
  {
    assert Zeros(2) == "00" by {
      assert Zeros(1) == "0";
    }
    assert NatToString(1) == "1" && NatToString(2) == "2" && NatToString(3) == "3";
  }

  /** No two entries share a name, as in one folder. */
  predicate NamesDistinct(entries: seq<DirEntry>) {
    forall j, k :: 0 <= j < k < |entries| ==> entries[j].name != entries[k].name
  }

  lemma NamesDistinctSnoc(c: seq<DirEntry>, last: DirEntry)
    requires NamesDistinct(c) && forall j :: 0 <= j < |c| ==> c[j].name != last.name
    ensures NamesDistinct(c + [last])
  {
    var d := c + [last];
    forall j, k | 0 <= j < k < |d|
      ensures d[j].name != d[k].name
    {
      assert d[j] == c[j];
      if k < |c| {
        assert d[k] == c[k];
      }
    }
  }

  /** In a folder whose entries have distinct names, the video files have
      distinct names too. */
  lemma {:induction false} CandidatesKeepNamesDistinct(entries: seq<DirEntry>)
    requires NamesDistinct(entries)
    ensures NamesDistinct(Candidates(entries))
  {
    if entries != [] {
      var init, last := entries[..|entries| - 1], entries[|entries| - 1];
      assert NamesDistinct(init) by {
        assert forall j :: 0 <= j < |init| ==> init[j] == entries[j];
      }
      CandidatesKeepNamesDistinct(init);
      var c0 := Candidates(init);
      if IsVideoFile(last) {
        forall j | 0 <= j < |c0|
          ensures c0[j].name != last.name
        {
          assert c0[j] in init;
          var i :| 0 <= i < |init| && init[i] == c0[j];
          assert entries[i] == init[i];
        }
        NamesDistinctSnoc(c0, last);
      }
    }
  }

  /** Distinct positions of a list whose names are distinct pick entries
      with distinct names. */
  lemma SelectedNamesDistinct(entries: seq<DirEntry>, picks: seq<nat>, k: nat)
    requires IsSample(picks, |Candidates(entries)|, k) && NamesDistinct(Candidates(entries))
    ensures NamesDistinct(Selected(entries, picks))
  {
    var c, s := Candidates(entries), Selected(entries, picks);
    forall j, l | 0 <= j < l < |s|
      ensures s[j].name != s[l].name
    {
      var a, b := picks[j], picks[l];
      assert s[j] == c[a] && s[l] == c[b] && a != b;
      if a < b {
        assert c[a].name != c[b].name;
      } else {
        assert c[b].name != c[a].name;
      }
    }
  }

  /** Sampling is without replacement: in a folder whose entries have
      distinct names, no file is selected twice. */
  lemma NoFileTwice(entries: seq<DirEntry>, picks: seq<nat>, k: nat)
    requires IsSample(picks, |Candidates(entries)|, k) && NamesDistinct(entries)
    ensures var m := BatchMetadata(Selected(entries, picks));
            forall j, l :: 0 <= j < l < |m| ==> m[j].fileName != m[l].fileName
  {
    CandidatesKeepNamesDistinct(entries);
    var s := Selected(entries, picks);
    SelectedNamesDistinct(entries, picks, k);
  }

  /** A suffix in capitals still counts. */
  lemma SuffixIgnoresCase()
    ensures IsVideoFile(DirEntry("clip.MP4", true))
  {
    LastIndexOfIs("clip.MP4", '.', 4);
    assert Suffix("clip.MP4") == ".MP4";
    assert Lower(".MP4") == ".mp4";
  }

  /** The suffix rule rejects a dot file, a file without an extension, a
      file whose last extension is not a video one, and a folder. */
  lemma SuffixRejects()
    ensures !IsVideoFile(DirEntry(".mp4", true))
    ensures !IsVideoFile(DirEntry("clip", true))
    ensures !IsVideoFile(DirEntry("clip.mp4.txt", true))
    ensures !IsVideoFile(DirEntry("clip.mp4", false))
  {
    assert Suffix(".mp4") == "";
    assert Suffix("clip") == "";
    LastIndexOfIs("clip.mp4.txt", '.', 8);
    assert Suffix("clip.mp4.txt") == ".txt";
    assert Lower(".txt") == ".txt";
  }
}
