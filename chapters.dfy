/** Finding the split point of an episode in its video's chapter list, and the
    midpoint as `retime.py` carries it from one episode to the next. */
module Chapters {
  import opened Wrappers

  /** The chapter titles that mark the start of an episode's second half. */
  const SecondHalfChapterNames: set<string> := {"Part 2", "Part B"}

  /** One entry of the probe's `chapters` list: its optional `tags` dictionary
      and its start time, already converted to whole milliseconds as
      `round(float(start_time) * 1000)`. */
  datatype Chapter = Chapter(tags: Option<map<string, string>>, startMs: int)

  /** The local `midpoint` of `main`: unassigned until some chapter scan
      binds it, and never cleared afterwards. */
  datatype Midpoint = Unbound | Bound(ms: int)

  /** A chapter that has `tags`, a `title` among them, and that title is
      exactly one of the second-half names. */
  predicate IsMarker(c: Chapter)
  {
    c.tags.Some? && "title" in c.tags.value && c.tags.value["title"] in SecondHalfChapterNames
  }

  /** The position of the first marker chapter in list order, if any. */
  function FirstMarker(chapters: seq<Chapter>): (r: Option<nat>)
    ensures r.Some? ==> r.value < |chapters| && IsMarker(chapters[r.value])
    ensures r.Some? ==> forall j :: 0 <= j < r.value ==> !IsMarker(chapters[j])
    ensures r.None? ==> forall j :: 0 <= j < |chapters| ==> !IsMarker(chapters[j])
  {
    if chapters == [] then None
    else if IsMarker(chapters[0]) then Some(0)
    else match FirstMarker(chapters[1..])
      case None => None
      case Some(k) => Some(k + 1)
  }

  /** The midpoint after scanning one video's chapters: the first marker's
      start, or whatever the midpoint was before when there is no marker. */
  function NextMidpoint(chapters: seq<Chapter>, before: Midpoint): Midpoint
  {
    match FirstMarker(chapters)
    case Some(k) => Bound(chapters[k].startMs)
    case None => before
  }

  /** The chapter scan of one episode: walks the chapters in order, skips
      those without `tags` or `title`, and stops at the first marker. */
  method ScanChapters(chapters: seq<Chapter>, before: Midpoint) returns (after: Midpoint)
    ensures after == NextMidpoint(chapters, before)
    ensures after != before ==> exists k :: 0 <= k < |chapters| && IsMarker(chapters[k]) && after == Bound(chapters[k].startMs)
  {
    after := before;
    var i := 0;
    while i < |chapters|
      invariant 0 <= i <= |chapters|
      invariant after == before
      invariant forall j :: 0 <= j < i ==> !IsMarker(chapters[j])
    {
      var tags := chapters[i].tags;
      if tags.Some? && "title" in tags.value {
        var title := tags.value["title"];
        if title in SecondHalfChapterNames {
          after := Bound(chapters[i].startMs);
          assert FirstMarker(chapters) == Some(i);
          return;
        }
      }
      i := i + 1;
    }
  }

  /** The midpoint once the first `k` videos (in processing order) have been
      scanned, starting from an unassigned one. */
  function Carried(videos: seq<seq<Chapter>>, k: nat): Midpoint
    requires k <= |videos|
  {
    if k == 0 then Unbound
    else NextMidpoint(videos[k - 1], Carried(videos, k - 1))
  }

  /** The midpoint stays unassigned exactly as long as no video scanned so far
      had a marker chapter. */
  lemma {:induction false} CarriedUnbound(videos: seq<seq<Chapter>>, k: nat)
    requires k <= |videos|
    ensures Carried(videos, k).Unbound? <==> forall j :: 0 <= j < k ==> FirstMarker(videos[j]).None?
  {
    if k > 0 {
      CarriedUnbound(videos, k - 1);
    }
  }

  /** The midpoint in force after `k` videos is the first marker's start of the
      latest video before `k` that had one: videos without a marker leave the
      previous episode's midpoint in place. */
  lemma {:induction false} CarriedFromLatestMarked(videos: seq<seq<Chapter>>, j: nat, k: nat)
    requires j < k <= |videos|
    requires FirstMarker(videos[j]).Some?
    requires forall i :: j < i < k ==> FirstMarker(videos[i]).None?
    ensures Carried(videos, k) == Bound(videos[j][FirstMarker(videos[j]).value].startMs)
  {
    if k - 1 > j {
      CarriedFromLatestMarked(videos, j, k - 1);
    }
  }
}
