/** The `[offsets]` configuration of `retime.py`, the four-tier choice of an
    offset for one subtitle line, and the shift that applies it. Python's
    truthiness is kept: an offset of 0 and a midpoint of 0 count as absent. */
module Offsets {
  import opened Wrappers
  import opened Chapters

  /** The `[offsets]` section of `retime.toml`, every value already parsed
      by `int(...)`; keys are in the lower case configparser gives them. */
  type Config = map<string, int>

  /** What ends a run of `retime.py` early. */
  datatype Failure =
    | MissingKey(key: string)                  // KeyError from the config section
    | UnboundMidpoint                          // UnboundLocalError on `midpoint`
    | CountMismatch(videos: nat, subtitles: nat)  // the `exit(1)` before any episode
    | IndexOutOfRange(index: nat)              // IndexError when `first` exceeds the pairs

  /** Python's truth value of an optional offset. */
  predicate Truthy(o: Option<int>)
  {
    o.Some? && o.value != 0
  }

  /** The season-wide offsets: `main` (required) and `2nd_half` (optional). */
  datatype Season = Season(main: int, secondHalf: Option<int>)

  /** The per-episode overrides of one episode. */
  datatype Episode = Episode(main: Option<int>, secondHalf: Option<int>)

  function SeasonOffsets(cfg: Config): (r: Result<Season, Failure>)
    ensures r.Err? <==> "main" !in cfg
    ensures r.Err? ==> r.error == MissingKey("main")
    ensures r.Ok? ==> r.value.main == cfg["main"]
    ensures r.Ok? ==> (r.value.secondHalf.Some? <==> "2nd_half" in cfg)
    ensures r.Ok? && r.value.secondHalf.Some? ==> r.value.secondHalf.value == cfg["2nd_half"]
  {
    if "main" !in cfg then Err(MissingKey("main"))
    else Ok(Season(cfg["main"], if "2nd_half" in cfg then Some(cfg["2nd_half"]) else None))
  }

  function DigitChar(d: nat): (c: char)
    requires d < 10
    ensures '0' <= c <= '9'
  {
    ('0' as int + d) as char
  }

  /** `f"{n}"`: the decimal digits of `n`. */
  function DecimalString(n: nat): (s: string)
    ensures s != []
    ensures forall i :: 0 <= i < |s| ==> '0' <= s[i] <= '9'
    ensures |s| > 1 ==> s[0] != '0'
  {
    if n < 10 then [DigitChar(n)] else DecimalString(n / 10) + [DigitChar(n % 10)]
  }

  /** The number a non-empty run of decimal digits spells, most significant first. */
  function DecimalValue(s: string): nat
  {
    if s == [] then 0
    else if '0' <= s[|s| - 1] <= '9' then 10 * DecimalValue(s[..|s| - 1]) + (s[|s| - 1] as int - '0' as int)
    else 10 * DecimalValue(s[..|s| - 1])
  }

  /** The digits `f"{n}"` produces spell `n` back. */
  lemma {:induction false} DecimalRoundTrip(n: nat)
    ensures DecimalValue(DecimalString(n)) == n
  {
    if n >= 10 {
      var s := DecimalString(n / 10) + [DigitChar(n % 10)];
      assert s[..|s| - 1] == DecimalString(n / 10);
      DecimalRoundTrip(n / 10);
    }
  }

  /** Distinct episodes have distinct key spellings. */
  lemma EpisodeKeysDistinct(m: nat, n: nat)
    requires m != n
    ensures DecimalString(m) != DecimalString(n)
    ensures MainFlagKey(m) != MainFlagKey(n) && MainValueKey(m) != MainValueKey(n)
    ensures SecondHalfFlagKey(m) != SecondHalfFlagKey(n) && SecondHalfValueKey(m) != SecondHalfValueKey(n)
  {
    DecimalRoundTrip(m);
    DecimalRoundTrip(n);
    var dm, dn := DecimalString(m), DecimalString(n);
    SameTailSameHead(dm, dn, "_main");
    SameTailSameHead(dm, dn, "_2nd_half");
    SameHeadSameTail("main_", dm, dn);
    SameHeadSameTail("2nd_half_", dm, dn);
  }

  lemma SameTailSameHead(a: string, b: string, t: string)
    ensures a + t == b + t ==> a == b
  {
    if a + t == b + t {
      assert a == (a + t)[..|a|] && b == (b + t)[..|b|];
    }
  }

  lemma SameHeadSameTail(h: string, a: string, b: string)
    ensures h + a == h + b ==> a == b
  {
    if h + a == h + b {
      assert a == (h + a)[|h|..] && b == (h + b)[|h|..];
    }
  }

  /** The key whose presence switches on episode `n`'s main override ... */
  function MainFlagKey(n: nat): string { DecimalString(n) + "_main" }
  /** ... and the key its value is then read from. */
  function MainValueKey(n: nat): string { "main_" + DecimalString(n) }
  /** The key whose presence switches on episode `n`'s 2nd-half override ... */
  function SecondHalfFlagKey(n: nat): string { DecimalString(n) + "_2nd_half" }
  /** ... and the key its value is then read from. */
  function SecondHalfValueKey(n: nat): string { "2nd_half_" + DecimalString(n) }

  /** `int(cfg[valueKey]) if flagKey in cfg else None`. */
  function Override(cfg: Config, flagKey: string, valueKey: string): Result<Option<int>, Failure>
  {
    if flagKey !in cfg then Ok(None)
    else if valueKey !in cfg then Err(MissingKey(valueKey))
    else Ok(Some(cfg[valueKey]))
  }

  /** The overrides of episode `n`, the main one looked up first. */
  function EpisodeOverrides(cfg: Config, n: nat): (r: Result<Episode, Failure>)
    ensures r.Ok? ==> (r.value.main.Some? <==> MainFlagKey(n) in cfg)
    ensures r.Ok? ==> (r.value.secondHalf.Some? <==> SecondHalfFlagKey(n) in cfg)
    ensures r.Ok? && r.value.main.Some? ==> MainValueKey(n) in cfg && r.value.main.value == cfg[MainValueKey(n)]
    ensures r.Ok? && r.value.secondHalf.Some? ==>
      SecondHalfValueKey(n) in cfg && r.value.secondHalf.value == cfg[SecondHalfValueKey(n)]
    ensures r.Err? <==>
      (MainFlagKey(n) in cfg && MainValueKey(n) !in cfg) || (SecondHalfFlagKey(n) in cfg && SecondHalfValueKey(n) !in cfg)
    ensures MainFlagKey(n) in cfg && MainValueKey(n) !in cfg ==> r == Err(MissingKey(MainValueKey(n)))
  {
    var main :- Override(cfg, MainFlagKey(n), MainValueKey(n));
    var second :- Override(cfg, SecondHalfFlagKey(n), SecondHalfValueKey(n));
    Ok(Episode(main, second))
  }

  /** The keys the configuration template documents: the season-wide
      `main` and `2nd_half`, and the episode keys `main_1`, `2nd_half_1`, ... */
  ghost predicate TemplateKey(k: string)
  {
    k == "main" || k == "2nd_half" || exists m: nat :: k == MainValueKey(m) || k == SecondHalfValueKey(m)
  }

  /** A configuration that only uses the template's spelling never switches
      on an episode override, whatever values those keys hold. */
  lemma TemplateSpellingNeverOverrides(cfg: Config, n: nat)
    requires forall k :: k in cfg ==> TemplateKey(k)
    ensures EpisodeOverrides(cfg, n) == Ok(Episode(None, None))
  {
    SwitchKeysNotTemplate(n);
  }

  /** The switch keys `{n}_main` and `{n}_2nd_half` have a digit or `_` as
      their second character; `main`, `main_{m}` have `a` there and `2nd_half`,
      `2nd_half_{m}` have `n`. */
  lemma SwitchKeysNotTemplate(n: nat)
    ensures !TemplateKey(MainFlagKey(n)) && !TemplateKey(SecondHalfFlagKey(n))
  {
    var d := DecimalString(n);
    var second := if |d| == 1 then '_' else d[1];
    assert MainFlagKey(n)[1] == second && SecondHalfFlagKey(n)[1] == second;
    forall m: nat
      ensures MainValueKey(m)[1] == 'a' && SecondHalfValueKey(m)[1] == 'n'
    {
    }
  }

  /** The flag key and the value key of an override are never the same
      key, so an override takes effect only when both spellings are present. */
  lemma OverrideSpellingsDiffer(n: nat)
    ensures MainFlagKey(n) != MainValueKey(n)
    ensures SecondHalfFlagKey(n) != SecondHalfValueKey(n)
  {
    var d := DecimalString(n);
    assert MainFlagKey(n)[0] == d[0] && MainValueKey(n)[0] == 'm';
    assert SecondHalfValueKey(n)[1] == 'n';
    assert SecondHalfFlagKey(n)[1] == if |d| == 1 then '_' else d[1];
  }

  /** A line starts strictly after a midpoint that is bound and non-zero. */
  predicate PastMidpoint(start: int, mid: Midpoint)
  {
    mid.Bound? && mid.ms != 0 && start > mid.ms
  }

  /** The ladder's evaluation reaches an unbound `midpoint`: a truthy
      episode 2nd-half, or a truthy season 2nd-half when no truthy episode
      main stops the ladder first. */
  predicate LineFails(mid: Midpoint, ep: Episode, season: Season)
  {
    mid.Unbound? && (Truthy(ep.secondHalf) || (!Truthy(ep.main) && Truthy(season.secondHalf)))
  }

  /** Which of the four branches of the ladder gives a line its offset. */
  datatype Tier = EpisodeSecondHalf | EpisodeMain | SeasonSecondHalf | SeasonMain

  /** `o and midpoint and start > midpoint`, evaluated left to right. */
  function SecondHalfTest(o: Option<int>, mid: Midpoint, start: int): Result<bool, Failure>
  {
    if !Truthy(o) then Ok(false)
    else match mid
      case Unbound => Err(UnboundMidpoint)
      case Bound(m) => Ok(m != 0 && start > m)
  }

  /** The `if`/`elif` ladder of the line loop. */
  function SelectTier(start: int, mid: Midpoint, ep: Episode, season: Season): (r: Result<Tier, Failure>)
    ensures r.Err? <==> LineFails(mid, ep, season)
    ensures r.Err? ==> r.error == UnboundMidpoint
    ensures r == Ok(EpisodeSecondHalf) ==> Truthy(ep.secondHalf) && PastMidpoint(start, mid)
    ensures r == Ok(EpisodeMain) ==> Truthy(ep.main)
    ensures r == Ok(SeasonSecondHalf) ==> Truthy(season.secondHalf) && !Truthy(ep.main) && PastMidpoint(start, mid)
    ensures r.Ok? && Truthy(ep.secondHalf) && PastMidpoint(start, mid) ==> r.value == EpisodeSecondHalf
    ensures r.Ok? && Truthy(ep.main) ==> r.value in {EpisodeSecondHalf, EpisodeMain}
    ensures r.Ok? && Truthy(season.secondHalf) && PastMidpoint(start, mid) ==> r.value != SeasonMain
    ensures r.Ok? && !PastMidpoint(start, mid) ==> r.value in {EpisodeMain, SeasonMain}
  {
    var episodeSecond :- SecondHalfTest(ep.secondHalf, mid, start);
    if episodeSecond then Ok(EpisodeSecondHalf)
    else if Truthy(ep.main) then Ok(EpisodeMain)
    else
      var seasonSecond :- SecondHalfTest(season.secondHalf, mid, start);
      if seasonSecond then Ok(SeasonSecondHalf) else Ok(SeasonMain)
  }

  /** The offset a tier stands for. */
  function TierOffset(t: Tier, ep: Episode, season: Season): int
    requires t == EpisodeSecondHalf ==> ep.secondHalf.Some?
    requires t == EpisodeMain ==> ep.main.Some?
    requires t == SeasonSecondHalf ==> season.secondHalf.Some?
  {
    match t
    case EpisodeSecondHalf => ep.secondHalf.value
    case EpisodeMain => ep.main.value
    case SeasonSecondHalf => season.secondHalf.value
    case SeasonMain => season.main
  }

  /** The offset the line loop adds to a line starting at `start`. Only the
      fallback season main offset can be 0. */
  function LineOffset(start: int, mid: Midpoint, ep: Episode, season: Season): (r: Result<int, Failure>)
    ensures r.Err? <==> LineFails(mid, ep, season)
    ensures r.Ok? && r.value == 0 ==> SelectTier(start, mid, ep, season) == Ok(SeasonMain) && season.main == 0
  {
    var t :- SelectTier(start, mid, ep, season);
    Ok(TierOffset(t, ep, season))
  }

  /** Each of the three upper tiers outranks the ones below it: with four
      distinct non-zero offsets and a line past a non-zero midpoint, removing
      the winning override falls through to the next tier. */
  lemma PrecedenceLadder(start: int, m: int, epSecond: int, epMain: int, seasonSecond: int, seasonMain: int)
    requires m != 0 && start > m
    requires epSecond != 0 && epMain != 0 && seasonSecond != 0
    ensures LineOffset(start, Bound(m), Episode(Some(epMain), Some(epSecond)), Season(seasonMain, Some(seasonSecond))) == Ok(epSecond)
    ensures LineOffset(start, Bound(m), Episode(Some(epMain), None), Season(seasonMain, Some(seasonSecond))) == Ok(epMain)
    ensures LineOffset(start, Bound(m), Episode(None, None), Season(seasonMain, Some(seasonSecond))) == Ok(seasonSecond)
    ensures LineOffset(start, Bound(m), Episode(None, None), Season(seasonMain, None)) == Ok(seasonMain)
  {
  }

  /** An override configured as 0 is the same as no override at all. */
  function DropZero(o: Option<int>): (r: Option<int>)
    ensures Truthy(r) == Truthy(o) && (r.Some? ==> r.value != 0)
  {
    if Truthy(o) then o else None
  }

  lemma ZeroActsAsUnset(start: int, mid: Midpoint, ep: Episode, season: Season)
    ensures LineOffset(start, mid, Episode(DropZero(ep.main), DropZero(ep.secondHalf)), Season(season.main, DropZero(season.secondHalf)))
         == LineOffset(start, mid, ep, season)
  {
  }

  /** A line that starts exactly at the midpoint, or any line when the
      midpoint is 0, is a first-half line: only the main tiers apply. */
  lemma NotPastMidpointUsesMain(start: int, m: int, ep: Episode, season: Season)
    requires start <= m || m == 0
    ensures LineOffset(start, Bound(m), ep, season) == Ok(if Truthy(ep.main) then ep.main.value else season.main)
  {
  }

  /** One subtitle event: its start and end in milliseconds and everything
      else about it, which the retiming never looks at. */
  datatype Line = Line(start: int, end: int, payload: string)

  /** `line.start += offset; line.end += offset`: no clamping, so the result
      may be negative; the duration and the payload are kept. */
  function Shift(line: Line, offset: int): (r: Line)
    ensures r.end - r.start == line.end - line.start
    ensures r.start - line.start == offset
    ensures r.payload == line.payload
  {
    Line(line.start + offset, line.end + offset, line.payload)
  }

  /** Two shifts add up, and a shift by 0 changes nothing. */
  lemma ShiftComposes(line: Line, a: int, b: int)
    ensures Shift(Shift(line, a), b) == Shift(line, a + b)
    ensures Shift(line, 0) == line
  {
  }

  /** The whole line loop as a value: every line shifted by its own offset,
      count, order and payloads kept; the loop fails on its first line when
      the ladder would read an unbound midpoint. */
  function ShiftAll(lines: seq<Line>, mid: Midpoint, ep: Episode, season: Season): (r: Result<seq<Line>, Failure>)
    ensures r.Err? <==> lines != [] && LineFails(mid, ep, season)
    ensures r.Err? ==> r.error == UnboundMidpoint
    ensures r.Ok? ==> |r.value| == |lines|
    ensures r.Ok? ==> forall i :: 0 <= i < |lines| ==>
      r.value[i].payload == lines[i].payload && r.value[i].end - r.value[i].start == lines[i].end - lines[i].start
    ensures r.Ok? ==> forall i :: 0 <= i < |lines| ==>
      LineOffset(lines[i].start, mid, ep, season) == Ok(r.value[i].start - lines[i].start)
  {
    if lines == [] then Ok([])
    else
      var offset :- LineOffset(lines[0].start, mid, ep, season);
      var rest := ShiftAll(lines[1..], mid, ep, season);
      Ok([Shift(lines[0], offset)] + rest.value)
  }

  /** The line loop, shifting the loaded events in place. */
  method ShiftInPlace(events: array<Line>, mid: Midpoint, ep: Episode, season: Season) returns (outcome: Result<(), Failure>)
    modifies events
    ensures outcome.Ok? <==> ShiftAll(old(events[..]), mid, ep, season).Ok?
    ensures outcome.Ok? ==> ShiftAll(old(events[..]), mid, ep, season) == Ok(events[..])
    ensures outcome.Err? ==> outcome.error == UnboundMidpoint && events[..] == old(events[..])
  {
    ghost var before := events[..];
    var i := 0;
    while i < events.Length
      invariant 0 <= i <= events.Length
      invariant i > 0 ==> !LineFails(mid, ep, season)
      invariant forall k :: 0 <= k < i ==> LineOffset(before[k].start, mid, ep, season).Ok?
      invariant forall k :: 0 <= k < i ==>
        events[k] == Shift(before[k], LineOffset(before[k].start, mid, ep, season).value)
      invariant forall k :: i <= k < events.Length ==> events[k] == before[k]
    {
      var offset := LineOffset(events[i].start, mid, ep, season);
      if offset.Err? {
        return Err(offset.error);
      }
      events[i] := Shift(events[i], offset.value);
      i := i + 1;
    }
    outcome := Ok(());
    ShiftAllMatches(before, events[..], mid, ep, season);
  }

  /** A line-by-line shift of every line is exactly what `ShiftAll` yields. */
  lemma {:induction false} ShiftAllMatches(lines: seq<Line>, shifted: seq<Line>, mid: Midpoint, ep: Episode, season: Season)
    requires |shifted| == |lines|
    requires forall k :: 0 <= k < |lines| ==> LineOffset(lines[k].start, mid, ep, season).Ok?
    requires forall k :: 0 <= k < |lines| ==>
      shifted[k] == Shift(lines[k], LineOffset(lines[k].start, mid, ep, season).value)
    ensures ShiftAll(lines, mid, ep, season) == Ok(shifted)
  {
    if lines != [] {
      ShiftAllMatches(lines[1..], shifted[1..], mid, ep, season);
      assert shifted == [shifted[0]] + shifted[1..];
    }
  }
}
