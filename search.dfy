/** The pure core of `search.py`: stripping subtitle suffixes from a path,
    finding the start time of the SRT cue above a search hit, and the counts
    of results shown and omitted. The search itself, the terminal interface
    and the player launch are not modelled. */
module Search {
  import opened Wrappers
  import opened Paths
  import Retime

  /** The suffixes `strip_subtitle_extensions` removes. */
  const SubtitleExtensions: set<string> := {".srt", ".ass", ".ja"}

  /** The path left once trailing subtitle suffixes are removed one at a time. */
  function Stripped(p: Path): (r: Path)
    ensures r.parent == p.parent
    ensures Suffix(r.name) !in SubtitleExtensions
    decreases |p.name|
  {
    if Suffix(p.name) in SubtitleExtensions then Stripped(WithoutSuffix(p)) else p
  }

  /** The suffixes removed, in the order they appear in the name. */
  function StrippedSuffixes(p: Path): seq<string>
    decreases |p.name|
  {
    if Suffix(p.name) in SubtitleExtensions then StrippedSuffixes(WithoutSuffix(p)) + [Suffix(p.name)] else []
  }

  function Concat(parts: seq<string>): string
  {
    if parts == [] then [] else Concat(parts[..|parts| - 1]) + parts[|parts| - 1]
  }

  /** `strip_subtitle_extensions`: a loop that drops the last suffix while it
      is a subtitle suffix. */
  method StripSubtitleExtensions(path: Path) returns (r: Path)
    ensures r == Stripped(path)
  {
    r := path;
    while Suffix(r.name) in SubtitleExtensions
      invariant Stripped(r) == Stripped(path)
      decreases |r.name|
    {
      r := WithoutSuffix(r);
    }
  }

  /** Only a trailing run is removed: the input name is the result's name
      followed by the removed suffixes, each of them a subtitle suffix. */
  lemma {:induction false} StrippedIsTrailingRun(p: Path)
    ensures p.name == Stripped(p).name + Concat(StrippedSuffixes(p))
    ensures forall i :: 0 <= i < |StrippedSuffixes(p)| ==> StrippedSuffixes(p)[i] in SubtitleExtensions
    decreases |p.name|
  {
    if Suffix(p.name) in SubtitleExtensions {
      var q := WithoutSuffix(p);
      StrippedIsTrailingRun(q);
      TrailingRunStep(p.name, q.name, Suffix(p.name), Stripped(q).name, StrippedSuffixes(q));
    }
  }

  lemma TrailingRunStep(name: string, shorter: string, sfx: string, stripped: string, run: seq<string>)
    requires name == shorter + sfx && shorter == stripped + Concat(run)
    ensures name == stripped + Concat(run + [sfx])
  {
    ConcatSnoc(run, sfx);
  }

  lemma ConcatSnoc(parts: seq<string>, x: string)
    ensures Concat(parts + [x]) == Concat(parts) + x
  {
    assert (parts + [x])[..|parts|] == parts;
  }

  /** Stripping twice is stripping once. */
  lemma StripIdempotent(p: Path)
    ensures Stripped(Stripped(p)) == Stripped(p)
  {
  }

  /** Removing one subtitle suffix from `base` followed by that suffix
      continues with `base`. */
  lemma StripStep(dir: string, base: string, sfx: string)
    requires base != [] && sfx in SubtitleExtensions
    ensures Stripped(Path(dir, base + sfx)) == Stripped(Path(dir, base))
  {
    var ext := sfx[1..];
    assert sfx == "." + ext && ext != [] && '.' !in ext;
    DottedName(base, ext);
  }

  /** A name whose suffix is not a subtitle suffix is left as it is. */
  lemma StripStops(dir: string, name: string)
    requires Suffix(name) !in SubtitleExtensions
    ensures Stripped(Path(dir, name)) == Path(dir, name)
  {
  }

  /** Stripping `base.ext.srt` stops at `.ext` when that is not a subtitle
      suffix: `ep.mkv.srt` becomes `ep.mkv`. */
  lemma StripStopsAtVideo(dir: string, base: string, ext: string)
    requires base != [] && ext != [] && '.' !in ext && "." + ext !in SubtitleExtensions
    ensures Stripped(Path(dir, base + "." + ext + ".srt")) == Path(dir, base + "." + ext)
  {
    StripStep(dir, base + "." + ext, ".srt");
    DottedName(base, ext);
    StripStops(dir, base + "." + ext);
  }

  /** A subtitle that `retime.py` saved is traced back by stripping to the
      stem of the video it was made for, so the video is found again by
      appending that video's own suffix. */
  lemma StripFindsRetimedVideo(dir: string, video: string, subtitle: string)
    requires video != []
    requires Suffix(subtitle) in {".srt", ".ass"}
    requires Suffix(Stem(video)) !in SubtitleExtensions
    ensures Stripped(Path(dir, Retime.OutputName(video, subtitle))) == Path(dir, Stem(video))
    ensures Stripped(Path(dir, Retime.OutputName(video, subtitle))).name + Suffix(video) == video
  {
    var stem := Stem(video);
    assert stem != [] by {
      if Suffix(video) == [] {
        assert stem == video;
      }
    }
    StripStep(dir, stem + ".ja", Suffix(subtitle));
    StripStep(dir, stem, ".ja");
    StripStops(dir, stem);
  }

  // ---------------------------------------------------------------------
  // The SRT cue line `^\s*(\d+:\d+:\d+,\d+)\s*-->\s*(\d+:\d+:\d+,\d+)`

  /** `\s`, restricted to ASCII: the space, and tab, line feed, vertical
      tab, form feed and carriage return (code points 9 to 13). */
  predicate IsSpace(c: char)
  {
    c == ' ' || '\t' <= c <= '\r'
  }

  /** `\d`, restricted to ASCII. */
  predicate IsDigit(c: char)
  {
    '0' <= c <= '9'
  }

  /** Every character of `s[i..j]` is white space. */
  predicate SpacesIn(s: string, i: nat, j: nat)
    decreases j - i
  {
    i <= j <= |s| && (i < j ==> IsSpace(s[i]) && SpacesIn(s, i + 1, j))
  }

  /** Every character of `s[i..j]` is a digit. */
  predicate DigitRun(s: string, i: nat, j: nat)
    decreases j - i
  {
    i <= j <= |s| && (i < j ==> IsDigit(s[i]) && DigitRun(s, i + 1, j))
  }

  /** `s[i..j]` is a non-empty run of digits. */
  predicate DigitsIn(s: string, i: nat, j: nat)
  {
    i < j && DigitRun(s, i, j)
  }

  lemma {:induction false} DigitRunAt(s: string, i: nat, j: nat, k: nat)
    requires DigitRun(s, i, j) && i <= k < j
    ensures IsDigit(s[k])
    decreases k - i
  {
    if i < k {
      DigitRunAt(s, i + 1, j, k);
    }
  }

  /** Where a timestamp `H:M:S,ms` lies in a line: it starts at `start`, its
      two colons and its comma are at `colon1`, `colon2` and `comma`, and it
      ends just before `end`. */
  datatype Stamp = Stamp(start: nat, colon1: nat, colon2: nat, comma: nat, end: nat)

  /** `s` holds the timestamp `t`: four runs of digits joined by `:`, `:`
      and `,`. */
  predicate StampAt(s: string, t: Stamp)
  {
    t.start < t.colon1 < t.colon2 < t.comma < t.end <= |s|
    && DigitsIn(s, t.start, t.colon1) && s[t.colon1] == ':'
    && DigitsIn(s, t.colon1 + 1, t.colon2) && s[t.colon2] == ':'
    && DigitsIn(s, t.colon2 + 1, t.comma) && s[t.comma] == ','
    && DigitsIn(s, t.comma + 1, t.end)
  }

  /** The timestamp is not followed by another digit: its last run is taken
      whole, as the greedy `\d+` takes it. */
  predicate Whole(s: string, t: Stamp)
    requires t.end <= |s|
  {
    t.end == |s| || !IsDigit(s[t.end])
  }

  /** Where a match of the cue pattern lies: the start stamp, the arrow
      `-->` at `arrow`, and the end stamp. */
  datatype Cue = Cue(start: Stamp, arrow: nat, end: Stamp)

  /** `line` begins with white space, the start stamp, white space, the
      arrow, white space and the end stamp, one right after the other. */
  predicate CueAt(line: string, c: Cue)
  {
    SpacesIn(line, 0, c.start.start) && StampAt(line, c.start)
    && SpacesIn(line, c.start.end, c.arrow) && c.arrow + 3 <= |line|
    && line[c.arrow] == '-' && line[c.arrow + 1] == '-' && line[c.arrow + 2] == '>'
    && SpacesIn(line, c.arrow + 3, c.end.start) && StampAt(line, c.end)
  }

  function SkipSpaces(s: string, i: nat): (j: nat)
    requires i <= |s|
    ensures SpacesIn(s, i, j)
    ensures j < |s| ==> !IsSpace(s[j])
    decreases |s| - i
  {
    if i < |s| && IsSpace(s[i]) then SkipSpaces(s, i + 1) else i
  }

  function SkipDigits(s: string, i: nat): (j: nat)
    requires i <= |s|
    ensures DigitRun(s, i, j)
    ensures j < |s| ==> !IsDigit(s[j])
    decreases |s| - i
  {
    if i < |s| && IsDigit(s[i]) then SkipDigits(s, i + 1) else i
  }

  /** `\d+` at `i`, taken whole, then the character `sep`: where `sep` is. */
  function DigitsThen(s: string, i: nat, sep: char): (r: Option<nat>)
    requires i <= |s|
    ensures r.Some? ==> DigitsIn(s, i, r.value) && r.value < |s| && s[r.value] == sep
  {
    var j := SkipDigits(s, i);
    if j == i || j == |s| || s[j] != sep then None else Some(j)
  }

  /** `\d+:\d+:\d+,\d+` at position `i`, every run of digits taken whole. */
  function ParseStamp(s: string, i: nat): (r: Option<Stamp>)
    requires i <= |s|
    ensures r.Some? ==> r.value.start == i && StampAt(s, r.value) && Whole(s, r.value)
  {
    match DigitsThen(s, i, ':')
    case None => None
    case Some(a) =>
      match DigitsThen(s, a + 1, ':')
      case None => None
      case Some(b) =>
        match DigitsThen(s, b + 1, ',')
        case None => None
        case Some(c) =>
          var d := SkipDigits(s, c + 1);
          if d == c + 1 then None else Some(Stamp(i, a, b, c, d))
  }

  /** `regex.match(line)`: where the cue pattern matches at the start of
      `line`, if it does. */
  function MatchCue(line: string): (r: Option<Cue>)
    ensures r.Some? ==> CueAt(line, r.value) && Whole(line, r.value.end)
  {
    match ParseStamp(line, SkipSpaces(line, 0))
    case None => None
    case Some(start) => MatchArrow(line, start)
  }

  /** The rest of the cue pattern once the start stamp is read: white
      space, the arrow, white space and the end stamp. */
  function MatchArrow(line: string, start: Stamp): (r: Option<Cue>)
    requires SpacesIn(line, 0, start.start) && StampAt(line, start)
    ensures r.Some? ==> CueAt(line, r.value) && Whole(line, r.value.end) && r.value.start == start
  {
    var arrow := SkipSpaces(line, start.end);
    if arrow + 3 > |line| || line[arrow] != '-' || line[arrow + 1] != '-' || line[arrow + 2] != '>' then None
    else MatchEnd(line, start, arrow)
  }

  /** The end of the cue pattern once the arrow is found: white space and
      the end stamp. */
  function MatchEnd(line: string, start: Stamp, arrow: nat): (r: Option<Cue>)
    requires SpacesIn(line, 0, start.start) && StampAt(line, start) && SpacesIn(line, start.end, arrow)
    requires arrow + 3 <= |line| && line[arrow] == '-' && line[arrow + 1] == '-' && line[arrow + 2] == '>'
    ensures r.Some? ==> CueAt(line, r.value) && Whole(line, r.value.end) && r.value.start == start && r.value.arrow == arrow
  {
    match ParseStamp(line, SkipSpaces(line, arrow + 3))
    case None => None
    case Some(end) => Some(Cue(start, arrow, end))
  }

  lemma {:induction false} SkipDigitsExact(s: string, i: nat, j: nat)
    requires DigitRun(s, i, j)
    requires j < |s| ==> !IsDigit(s[j])
    ensures SkipDigits(s, i) == j
    decreases j - i
  {
    if i < j {
      SkipDigitsExact(s, i + 1, j);
    }
  }

  lemma {:induction false} SkipSpacesExact(s: string, i: nat, j: nat)
    requires SpacesIn(s, i, j)
    requires j < |s| ==> !IsSpace(s[j])
    ensures SkipSpaces(s, i) == j
    decreases j - i
  {
    if i < j {
      SkipSpacesExact(s, i + 1, j);
    }
  }

  /** Digits up to `j` carry the digit scan from `i` at least that far. */
  lemma {:induction false} SkipDigitsPast(s: string, i: nat, j: nat)
    requires DigitRun(s, i, j)
    ensures SkipDigits(s, i) >= j
    decreases j - i
  {
    if i < j {
      SkipDigitsPast(s, i + 1, j);
    }
  }

  /** Wherever a timestamp is written, the stamp parser succeeds at its
      start, finds the same colons and comma, and finds the same stamp when
      it is not followed by a digit. */
  lemma ParseStampFinds(s: string, t: Stamp)
    requires StampAt(s, t)
    ensures ParseStamp(s, t.start).Some?
    ensures var u := ParseStamp(s, t.start).value; u.colon1 == t.colon1 && u.colon2 == t.colon2 && u.comma == t.comma
    ensures Whole(s, t) ==> ParseStamp(s, t.start) == Some(t)
  {
    SkipDigitsExact(s, t.start, t.colon1);
    SkipDigitsExact(s, t.colon1 + 1, t.colon2);
    SkipDigitsExact(s, t.colon2 + 1, t.comma);
    SkipDigitsPast(s, t.comma + 1, t.end);
    if Whole(s, t) {
      SkipDigitsExact(s, t.comma + 1, t.end);
    }
  }

  /** A stamp in a cue line is followed by white space or the arrow, not a
      digit. */
  lemma StartIsWhole(line: string, c: Cue)
    requires CueAt(line, c)
    ensures Whole(line, c.start)
  {
  }

  /** After a written arrow, `MatchEnd` succeeds. */
  lemma MatchEndFinds(line: string, c: Cue)
    requires CueAt(line, c)
    ensures MatchEnd(line, c.start, c.arrow).Some?
  {
    SkipSpacesExact(line, c.arrow + 3, c.end.start);
    ParseStampFinds(line, c.end);
  }

  /** After a written start stamp, `MatchArrow` finds the same arrow. */
  lemma MatchArrowFinds(line: string, c: Cue)
    requires CueAt(line, c)
    ensures MatchArrow(line, c.start).Some? && MatchArrow(line, c.start).value.arrow == c.arrow
  {
    SkipSpacesExact(line, c.start.end, c.arrow);
    MatchEndFinds(line, c);
  }

  /** Every line the cue pattern can match is matched, with the same start
      stamp and the same arrow, whatever follows the end stamp. */
  lemma MatchCueFinds(line: string, c: Cue)
    requires CueAt(line, c)
    ensures MatchCue(line).Some?
    ensures MatchCue(line).value.start == c.start && MatchCue(line).value.arrow == c.arrow
  {
    SkipSpacesExact(line, 0, c.start.start);
    StartIsWhole(line, c);
    ParseStampFinds(line, c.start);
    MatchArrowFinds(line, c);
  }

  /** `line[a..b].replace(",", ".")`. */
  function ReplaceCommas(line: string, a: nat, b: nat): (r: string)
    requires a <= b <= |line|
    ensures |r| == b - a
    ensures forall k :: 0 <= k < b - a ==> r[k] == if line[a + k] == ',' then '.' else line[a + k]
  {
    seq(b - a, k requires 0 <= k < b - a => if line[a + k] == ',' then '.' else line[a + k])
  }

  /** `r` is the text of the stamp `t` in `line` with its comma turned into
      a dot, `H:M:S.ms`, and nothing else changed. */
  predicate PlayerStamp(line: string, t: Stamp, r: string)
    requires StampAt(line, t)
  {
    |r| == t.end - t.start && r[t.comma - t.start] == '.'
    && r[t.colon1 - t.start] == ':' && r[t.colon2 - t.start] == ':'
    && forall k :: 0 <= k < |r| && k + t.start != t.comma ==> r[k] == line[t.start + k] && r[k] != ','
  }

  /** Every character of a written stamp other than its colons and its
      comma is a digit. */
  lemma StampDigit(line: string, t: Stamp, k: nat)
    requires StampAt(line, t) && t.start <= k < t.end && k != t.colon1 && k != t.colon2 && k != t.comma
    ensures IsDigit(line[k])
  {
    if k < t.colon1 {
      DigitRunAt(line, t.start, t.colon1, k);
    } else if k < t.colon2 {
      DigitRunAt(line, t.colon1 + 1, t.colon2, k);
    } else if k < t.comma {
      DigitRunAt(line, t.colon2 + 1, t.comma, k);
    } else {
      DigitRunAt(line, t.comma + 1, t.end, k);
    }
  }

  /** The text a stamp covers, with `.replace(",", ".")` applied, is the
      stamp in the form the player takes. */
  lemma StampTextForm(line: string, t: Stamp)
    requires StampAt(line, t)
    ensures PlayerStamp(line, t, ReplaceCommas(line, t.start, t.end))
  {
    var r := ReplaceCommas(line, t.start, t.end);
    forall k | 0 <= k < |r| && k + t.start != t.comma
      ensures r[k] == line[t.start + k] && r[k] != ','
    {
      if k + t.start != t.colon1 && k + t.start != t.colon2 {
        StampDigit(line, t, k + t.start);
      }
    }
  }

  /** `match.group(1).replace(",", ".")`, when the line is a cue line: the
      start stamp as the player takes it. */
  function StartTimestamp(line: string): (r: Option<string>)
    ensures r.Some? <==> MatchCue(line).Some?
    ensures r.Some? ==> PlayerStamp(line, MatchCue(line).value.start, r.value)
  {
    match MatchCue(line)
    case None => None
    case Some(c) =>
      StampTextForm(line, c.start);
      Some(ReplaceCommas(line, c.start.start, c.start.end))
  }

  predicate IsCueLine(line: string)
  {
    MatchCue(line).Some?
  }

  /** The nearest index at or above `from`, walking upwards, whose line
      `accepts` holds of. */
  function NearestAbove(lines: seq<string>, from: int, accepts: string -> bool): (r: Option<nat>)
    requires from < |lines|
    ensures r.Some? ==> r.value <= from && accepts(lines[r.value])
    ensures r.Some? ==> forall j :: r.value < j <= from ==> !accepts(lines[j])
    ensures r.None? ==> forall j :: 0 <= j <= from ==> !accepts(lines[j])
    decreases if from < 0 then 0 else from + 1
  {
    if from < 0 then None
    else if accepts(lines[from]) then Some(from)
    else NearestAbove(lines, from - 1, accepts)
  }

  /** One step of the upward scan: a cue line is the nearest one, any other
      line passes the search on to the line above. */
  lemma NearestStep(lines: seq<string>, current: nat)
    requires current < |lines|
    ensures StartTimestamp(lines[current]).Some? ==> NearestAbove(lines, current, IsCueLine) == Some(current)
    ensures StartTimestamp(lines[current]).None? ==>
      NearestAbove(lines, current, IsCueLine) == NearestAbove(lines, current - 1, IsCueLine)
  {
  }

  /** How `open_video_for_result` ends: the player would be started at
      `start` for the video next to `base`, or one of its early returns. */
  datatype Opened = Launch(start: string, base: Path) | NoCueBefore(lineNum: int) | AssPending | UnknownFileType

  /** `open_video_for_result` for a hit at 1-based `lineNumber` of the
      subtitle at `subtitle`, whose right-stripped lines are `lines`: the
      scan starts on the line above the hit and never looks at the hit. */
  method OpenVideoForResult(subtitle: Path, lineNumber: int, lines: seq<string>) returns (o: Opened)
    requires Suffix(subtitle.name) == ".srt" ==> lineNumber - 2 < |lines|
    ensures Suffix(subtitle.name) == ".srt" && NearestAbove(lines, lineNumber - 2, IsCueLine).Some? ==>
      o == Launch(StartTimestamp(lines[NearestAbove(lines, lineNumber - 2, IsCueLine).value]).value, Stripped(subtitle))
    ensures Suffix(subtitle.name) == ".srt" && NearestAbove(lines, lineNumber - 2, IsCueLine).None? ==>
      o == NoCueBefore(lineNumber - 1)
    ensures Suffix(subtitle.name) == ".ass" ==> o == AssPending
    ensures Suffix(subtitle.name) !in {".srt", ".ass"} ==> o == UnknownFileType
  {
    var lineNum := lineNumber - 1;
    var timestamp: string;
    if Suffix(subtitle.name) == ".srt" {
      var current := lineNum - 1;
      while current >= 0
        invariant current <= lineNumber - 2
        invariant NearestAbove(lines, lineNumber - 2, IsCueLine) == NearestAbove(lines, current, IsCueLine)
        decreases current + 1
      {
        var found := StartTimestamp(lines[current]);
        NearestStep(lines, current);
        if found.Some? {
          timestamp := found.value;
          break;
        }
        current := current - 1;
      }
      if current < 0 {
        return NoCueBefore(lineNum);
      }
    } else if Suffix(subtitle.name) == ".ass" {
      return AssPending;
    } else {
      return UnknownFileType;
    }
    var base := StripSubtitleExtensions(subtitle);
    o := Launch(timestamp, base);
  }

  // ---------------------------------------------------------------------
  // Result counts

  /** How many search results are left out and how many are offered. */
  datatype Counts = Counts(omitted: nat, shown: nat)

  /** `max(0, total - limit)` and the sample size `min(limit, total)`; a
      negative sample size makes `random.sample` fail. */
  function ResultCounts(total: nat, limit: int): (r: Option<Counts>)
    ensures r.Some? <==> limit >= 0
    ensures r.Some? ==> r.value.omitted + r.value.shown == total
    ensures r.Some? ==> r.value.shown <= limit && r.value.shown <= total
    ensures r.Some? ==> (r.value.shown == total || r.value.shown == limit)
    ensures r.Some? ==> (r.value.omitted > 0 <==> total > limit)
  {
    var omitted := if total - limit > 0 then total - limit else 0;
    var shown := if limit < total then limit else total;
    if shown < 0 then None else Some(Counts(omitted, shown))
  }
}
