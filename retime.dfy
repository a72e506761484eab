/** The episode loop of `retime.py`: pairing videos with subtitles, carrying
    the midpoint from episode to episode, the missing-midpoint warning, and
    the name of each retimed subtitle file. File-system access, the chapter
    probe and subtitle loading are replaced by the values they produce. */
module Retime {
  import opened Wrappers
  import opened Paths
  import opened Chapters
  import opened Offsets

  /** A video of the input directory: its file name and the chapters the
      probe reports for it. */
  datatype Video = Video(name: string, chapters: seq<Chapter>)

  /** A subtitle of `subs_orig`: its file name and the events loading it yields. */
  datatype Subtitle = Subtitle(name: string, lines: seq<Line>)

  /** A retimed subtitle written to `subs`: its file name and its events. */
  datatype Saved = Saved(name: string, lines: seq<Line>)

  datatype Status = Completed | Aborted(failure: Failure)

  /** What a run leaves behind: the files saved, in order, the episode numbers
      a warning was raised for, and how the run ended. */
  datatype Report = Report(saved: seq<Saved>, warnings: seq<nat>, status: Status)

  function VideoName(v: Video): string { v.name }
  function SubtitleName(s: Subtitle): string { s.name }

  /** `vid.stem + ".ja" + orig_sub.suffix`. */
  function OutputName(video: string, subtitle: string): string
  {
    Stem(video) + ".ja" + Suffix(subtitle)
  }

  /** The output keeps the subtitle's format: its suffix is the original
      subtitle's suffix, and its stem is the video's stem tagged `.ja`. */
  lemma OutputKeepsFormat(video: string, subtitle: string)
    requires Suffix(subtitle) != []
    ensures Suffix(OutputName(video, subtitle)) == Suffix(subtitle)
    ensures Stem(OutputName(video, subtitle)) == Stem(video) + ".ja"
  {
    var ext := Suffix(subtitle)[1..];
    assert Suffix(subtitle) == "." + ext;
    assert OutputName(video, subtitle) == (Stem(video) + ".ja") + "." + ext;
    DottedName(Stem(video) + ".ja", ext);
  }

  /** `secondhalf_offset and not midpoint`: `Ok(true)` when the warning is
      raised; reading an unbound midpoint fails. */
  function WarningCheck(season: Season, mid: Midpoint): (r: Result<bool, Failure>)
    ensures r == Ok(true) <==> Truthy(season.secondHalf) && mid == Bound(0)
    ensures r.Err? <==> Truthy(season.secondHalf) && mid.Unbound?
    ensures r.Err? ==> r.error == UnboundMidpoint
  {
    if !Truthy(season.secondHalf) then Ok(false)
    else match mid
      case Unbound => Err(UnboundMidpoint)
      case Bound(m) => Ok(m == 0)
  }

  /** One episode once its chapters have been scanned and `mid` is the
      midpoint in force: the warning test, the override lookup, the line
      loop and the file to save. */
  function EpisodeRun(cfg: Config, season: Season, number: nat, video: Video, sub: Subtitle, mid: Midpoint): Result<Saved, Failure>
  {
    var _ :- WarningCheck(season, mid);
    var ep :- EpisodeOverrides(cfg, number);
    var lines :- ShiftAll(sub.lines, mid, ep, season);
    Ok(Saved(OutputName(video.name, sub.name), lines))
  }

  /** The body of the episode loop for episode `number`, entered with the
      midpoint left by the previous episodes. */
  method ProcessEpisode(cfg: Config, season: Season, number: nat, video: Video, sub: Subtitle, before: Midpoint)
    returns (mid: Midpoint, warned: bool, result: Result<Saved, Failure>)
    ensures mid == NextMidpoint(video.chapters, before)
    ensures warned <==> WarningCheck(season, mid) == Ok(true)
    ensures result == EpisodeRun(cfg, season, number, video, sub, mid)
  {
    mid := ScanChapters(video.chapters, before);
    var check := WarningCheck(season, mid);
    if check.Err? {
      return mid, false, Err(check.error);
    }
    warned := check.value;
    var ep := EpisodeOverrides(cfg, number);
    if ep.Err? {
      return mid, warned, Err(ep.error);
    }
    var events := new Line[|sub.lines|](i requires 0 <= i < |sub.lines| => sub.lines[i]);
    assert events[..] == sub.lines;
    var shifted := ShiftInPlace(events, mid, ep.value, season);
    if shifted.Err? {
      return mid, warned, Err(shifted.error);
    }
    result := Ok(Saved(OutputName(video.name, sub.name), events[..]));
  }

  function ChapterLists(videos: seq<Video>): (r: seq<seq<Chapter>>)
    ensures |r| == |videos| && forall k :: 0 <= k < |videos| ==> r[k] == videos[k].chapters
  {
    seq(|videos|, k requires 0 <= k < |videos| => videos[k].chapters)
  }

  /** The midpoint in force while the video at 0-based position `k` is processed. */
  function MidpointFor(videos: seq<Video>, k: nat): Midpoint
    requires k < |videos|
  {
    Carried(ChapterLists(videos), k + 1)
  }

  /** Episode `k + 1`: the `k`-th video paired with the `k`-th subtitle. */
  function EpisodeAt(cfg: Config, season: Season, videos: seq<Video>, subs: seq<Subtitle>, k: nat): Result<Saved, Failure>
    requires k < |videos| && k < |subs|
  {
    EpisodeRun(cfg, season, k + 1, videos[k], subs[k], MidpointFor(videos, k))
  }

  predicate WarnsAt(season: Season, videos: seq<Video>, k: nat)
    requires k < |videos|
  {
    WarningCheck(season, MidpointFor(videos, k)) == Ok(true)
  }

  /** The numbers, in increasing order, of the first `m` episodes that raise the warning. */
  function Warned(season: Season, videos: seq<Video>, m: nat): seq<nat>
    requires m <= |videos|
  {
    if m == 0 then []
    else Warned(season, videos, m - 1) + (if WarnsAt(season, videos, m - 1) then [m] else [])
  }

  /** How many pairs `range(...)` asks for: `first` when given, all otherwise. */
  function Requested(first: Option<int>, n: nat): int
  {
    if first.Some? then first.value else n
  }

  function Max0(x: int): nat { if x < 0 then 0 else x }

  /** `report` is what the episode loop over the sorted pairs `videos` and
      `subs` leaves behind when `count` pairs are requested: every saved file
      is the run of its episode, in order; the run completes after
      `max(count, 0)` episodes, or stops at the first episode that fails, or
      fails on the index one past the last pair; and a warning is listed for
      every episode entered that raises it. */
  predicate Reports(cfg: Config, season: Season, videos: seq<Video>, subs: seq<Subtitle>, count: int, report: Report)
    requires |videos| == |subs|
  {
    var n, done := |videos|, |report.saved|;
    && done <= n && done <= Max0(count)
    && (forall k :: 0 <= k < done ==> EpisodeAt(cfg, season, videos, subs, k) == Ok(report.saved[k]))
    && (report.status == Completed ==> done == Max0(count))
    && (report.status.Aborted? ==>
          (done < n && done < count && EpisodeAt(cfg, season, videos, subs, done) == Err(report.status.failure))
          || (done == n < count && report.status.failure == IndexOutOfRange(n)))
    && report.warnings == Warned(season, videos, if report.status.Aborted? && done < n then done + 1 else done)
  }

  /** `main`: the season offsets are read, the counts compared, both lists
      sorted, and then pair after pair is retimed until the requested number
      is done or something fails. */
  method RetimeAll(cfg: Config, videos: seq<Video>, subs: seq<Subtitle>, first: Option<int>) returns (report: Report)
    ensures "main" !in cfg ==> report == Report([], [], Aborted(MissingKey("main")))
    ensures "main" in cfg && |videos| != |subs| ==> report == Report([], [], Aborted(CountMismatch(|videos|, |subs|)))
    ensures "main" in cfg && |videos| == |subs| ==>
      Reports(cfg, SeasonOffsets(cfg).value, SortByName(videos, VideoName), SortByName(subs, SubtitleName),
              Requested(first, |videos|), report)
  {
    var seasonOffsets := SeasonOffsets(cfg);
    if seasonOffsets.Err? {
      return Report([], [], Aborted(seasonOffsets.error));
    }
    var season := seasonOffsets.value;
    if |videos| != |subs| {
      return Report([], [], Aborted(CountMismatch(|videos|, |subs|)));
    }
    var vs := SortByName(videos, VideoName);
    var ss := SortByName(subs, SubtitleName);
    report := RunEpisodes(cfg, season, vs, ss, Requested(first, |videos|));
  }

  /** The episode loop proper over the sorted pairs, with `count` pairs requested. */
  method RunEpisodes(cfg: Config, season: Season, vs: seq<Video>, ss: seq<Subtitle>, count: int) returns (report: Report)
    requires |vs| == |ss|
    ensures Reports(cfg, season, vs, ss, count, report)
  {
    var saved: seq<Saved> := [];
    var warnings: seq<nat> := [];
    var mid := Unbound;
    var i := 0;
    while i < count
      invariant 0 <= i <= |vs| && i <= Max0(count)
      invariant |saved| == i
      invariant mid == Carried(ChapterLists(vs), i)
      invariant forall k :: 0 <= k < i ==> EpisodeAt(cfg, season, vs, ss, k) == Ok(saved[k])
      invariant warnings == Warned(season, vs, i)
    {
      if i >= |ss| {
        ReportsAtEnd(cfg, season, vs, ss, count, saved, warnings, Aborted(IndexOutOfRange(i)));
        return Report(saved, warnings, Aborted(IndexOutOfRange(i)));
      }
      var warned, result;
      mid, warned, result := ProcessEpisode(cfg, season, i + 1, vs[i], ss[i], mid);
      EpisodeStep(cfg, season, vs, ss, i, mid);
      if warned {
        warnings := warnings + [i + 1];
      }
      if result.Err? {
        ReportsFailure(cfg, season, vs, ss, count, saved, warnings, result.error);
        return Report(saved, warnings, Aborted(result.error));
      }
      SavedExtends(cfg, season, vs, ss, saved, result.value);
      saved := saved + [result.value];
      i := i + 1;
    }
    ReportsAtEnd(cfg, season, vs, ss, count, saved, warnings, Completed);
    report := Report(saved, warnings, Completed);
  }

  /** One turn of the episode loop moves the carried midpoint on by one video
      and runs episode `i + 1` with it. */
  lemma EpisodeStep(cfg: Config, season: Season, vs: seq<Video>, ss: seq<Subtitle>, i: nat, mid: Midpoint)
    requires i < |vs| == |ss|
    requires mid == NextMidpoint(vs[i].chapters, Carried(ChapterLists(vs), i))
    ensures mid == Carried(ChapterLists(vs), i + 1) == MidpointFor(vs, i)
    ensures EpisodeRun(cfg, season, i + 1, vs[i], ss[i], mid) == EpisodeAt(cfg, season, vs, ss, i)
    ensures Warned(season, vs, i + 1) == Warned(season, vs, i) + (if WarningCheck(season, mid) == Ok(true) then [i + 1] else [])
  {
    assert ChapterLists(vs)[i] == vs[i].chapters;
  }

  /** The run stops after the episodes in `saved` without an episode failing. */
  lemma ReportsAtEnd(cfg: Config, season: Season, vs: seq<Video>, ss: seq<Subtitle>, count: int,
                     saved: seq<Saved>, warnings: seq<nat>, status: Status)
    requires |vs| == |ss| && |saved| <= |vs| && |saved| <= Max0(count)
    requires forall k :: 0 <= k < |saved| ==> EpisodeAt(cfg, season, vs, ss, k) == Ok(saved[k])
    requires warnings == Warned(season, vs, |saved|)
    requires status == Completed ==> |saved| == Max0(count)
    requires status.Aborted? ==> |saved| == |vs| < count && status.failure == IndexOutOfRange(|vs|)
    ensures Reports(cfg, season, vs, ss, count, Report(saved, warnings, status))
  {
  }

  /** The run stops at the first episode after `saved` because that episode failed. */
  lemma ReportsFailure(cfg: Config, season: Season, vs: seq<Video>, ss: seq<Subtitle>, count: int,
                       saved: seq<Saved>, warnings: seq<nat>, failure: Failure)
    requires |vs| == |ss| && |saved| < |vs| && |saved| < count
    requires forall k :: 0 <= k < |saved| ==> EpisodeAt(cfg, season, vs, ss, k) == Ok(saved[k])
    requires EpisodeAt(cfg, season, vs, ss, |saved|) == Err(failure)
    requires warnings == Warned(season, vs, |saved| + 1)
    ensures Reports(cfg, season, vs, ss, count, Report(saved, warnings, Aborted(failure)))
  {
  }

  lemma SavedExtends(cfg: Config, season: Season, vs: seq<Video>, ss: seq<Subtitle>, saved: seq<Saved>, next: Saved)
    requires |saved| < |vs| == |ss|
    requires forall k :: 0 <= k < |saved| ==> EpisodeAt(cfg, season, vs, ss, k) == Ok(saved[k])
    requires EpisodeAt(cfg, season, vs, ss, |saved|) == Ok(next)
    ensures forall k :: 0 <= k < |saved| + 1 ==> EpisodeAt(cfg, season, vs, ss, k) == Ok((saved + [next])[k])
  {
  }

  /** An episode without a marker chapter inherits the previous episode's
      midpoint; when that one is non-zero the warning stays silent even
      though this video has no second-half chapter. */
  lemma StaleMidpointSuppressesWarning(season: Season, videos: seq<Video>, k: nat, x: int)
    requires 0 < k < |videos|
    requires FirstMarker(videos[k].chapters).None?
    requires MidpointFor(videos, k - 1) == Bound(x) && x != 0
    ensures MidpointFor(videos, k) == Bound(x)
    ensures !WarnsAt(season, videos, k)
  {
    assert ChapterLists(videos)[k] == videos[k].chapters;
  }

  /** Before any video has had a marker chapter the midpoint is unbound:
      with its overrides read, the episode fails exactly when something
      truthy forces the midpoint to be read, either the season 2nd-half in the
      warning test or the episode 2nd-half on the first line; a truthy
      episode main, and overrides set to 0, leave it unread. */
  lemma UnboundMidpointFailsOnlyWhenRead(cfg: Config, season: Season, videos: seq<Video>, subs: seq<Subtitle>, k: nat)
    requires k < |videos| && k < |subs|
    requires forall j :: 0 <= j <= k ==> FirstMarker(videos[j].chapters).None?
    ensures MidpointFor(videos, k) == Unbound
    ensures Truthy(season.secondHalf) ==> EpisodeAt(cfg, season, videos, subs, k) == Err(UnboundMidpoint)
    ensures EpisodeOverrides(cfg, k + 1).Err? ==> EpisodeAt(cfg, season, videos, subs, k).Err?
    ensures EpisodeOverrides(cfg, k + 1).Ok? ==>
      (EpisodeAt(cfg, season, videos, subs, k).Err? <==>
         Truthy(season.secondHalf) || (subs[k].lines != [] && Truthy(EpisodeOverrides(cfg, k + 1).value.secondHalf)))
  {
    var lists := ChapterLists(videos);
    CarriedUnbound(lists, k + 1);
  }
}
