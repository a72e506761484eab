# Subtitle retiming and search, modelled in Dafny

The repository holds two scripts.

- `retime.py` takes a directory of episode videos (`*.mp4`, `*.mkv`) and their
  original subtitles under `subs_orig` (`*.srt`, `*.ass`). It pairs them by sorted
  file name and shifts every subtitle line by an offset taken from the
  `[offsets]` section of `retime.toml`, then writes the result to `subs` as
  `<video stem>.ja<subtitle suffix>`. The offset is chosen per line from four
  tiers: episode 2nd half, episode main, season 2nd half, season main. The
  "2nd half" of an episode begins at the first chapter of its video titled
  `Part 2` or `Part B`.
- `search.py` searches the retimed subtitles and, for a chosen hit in an SRT
  file, finds the start time of the nearest cue line above the hit and the video
  the subtitle belongs to, so the player can be started there.

The model follows the code as written, including three behaviours a reader of the
code may not expect:

- Python truthiness: an offset of `0` and a midpoint of `0` act as if absent
  (`Offsets.Truthy`).
- The midpoint is a local of the episode loop that is never reset: an episode
  whose video has no marker chapter reuses the previous episode's midpoint, and
  reading it before any episode bound it is an `UnboundLocalError`
  (`Chapters.Midpoint`, `Failure.UnboundMidpoint`).
- Episode overrides are switched on by one key spelling (`1_main`) and read
  from another (`main_1`): the documented spelling alone never takes effect,
  and the switch without the value is a `KeyError`.

Modules:

- `Wrappers`: `Option` and `Result`.
- `Paths`: pathlib's `suffix`, `stem` and `with_suffix("")`, and the name
  order `list.sort()` gives paths of one directory.
- `Chapters`: the marker-chapter scan and the midpoint carried across episodes.
- `Offsets`: configuration lookups, the per-line tier ladder and the shift.
- `Retime`: one episode, the batch loop, the output name.
- `Search`: `strip_subtitle_extensions`, the SRT back-scan of
  `open_video_for_result`, and the result counts of `main`.

## Model

| member | source | states |
|---|---|---|
| Chapters.FirstMarker | retime.py:76-79 | the index found is the first chapter, in list order, that has `tags`, a `title`, and a title in `{"Part 2", "Part B"}`; `None` exactly when no chapter qualifies |
| Chapters.ScanChapters | retime.py:75-81 | the chapter loop stops at the first marker and binds the midpoint to its start; with no marker the previous midpoint (bound or not) is kept |
| Chapters.CarriedUnbound | retime.py:67-81 | across episodes the midpoint stays unbound exactly as long as no video processed so far had a marker chapter |
| Chapters.CarriedFromLatestMarked | retime.py:67-81 | the midpoint in force is the marker start of the latest earlier-or-current video that had one; marker-less videos inherit it |
| Offsets.SeasonOffsets | retime.py:44-47 | fails with `KeyError('main')` exactly when `main` is missing; otherwise `main` is its value and `2nd_half` is present exactly when its key is |
| Offsets.DecimalString | retime.py:88-98 | the episode number's decimal text is non-empty, all digits, and without a leading zero, as `f"{n}"` writes it in the override keys |
| Offsets.DecimalRoundTrip | retime.py:91-97 | the digits `f"{n}"` produces spell `n` back: the keys carry the episode number itself |
| Offsets.EpisodeKeysDistinct | retime.py:90-98 | distinct episodes use distinct switch keys and distinct value keys, for both overrides |
| Offsets.EpisodeOverrides | retime.py:88-99 | an override is present exactly when `"{n}_main"` / `"{n}_2nd_half"` is a key; its value is then read from `"main_{n}"` / `"2nd_half_{n}"`; the lookup fails exactly when a switch key is there but its value key is not, the main override being looked up first |
| Offsets.TemplateSpellingNeverOverrides | retime.py:33-40 | a configuration whose keys are all spelled as the template documents them (`main`, `2nd_half`, `main_{m}`, `2nd_half_{m}`) yields no episode override for any episode, whatever values those keys hold |
| Offsets.SwitchKeysNotTemplate | retime.py:90-98 | neither switch key `{n}_main` nor `{n}_2nd_half` is spelled like any key the template documents |
| Offsets.OverrideSpellingsDiffer | retime.py:90-98 | the switch key and the value key of each override are different keys |
| Offsets.SelectTier | retime.py:103-110 | the ladder: episode 2nd half wins for a line strictly past a truthy midpoint when truthy; a truthy episode main wins otherwise, also past the midpoint; then season 2nd half past the midpoint; else season main; it fails exactly when a truthy 2nd-half test reaches an unbound midpoint |
| Offsets.LineOffset | retime.py:103-110 | fails exactly as the ladder does; a zero offset can only come from season main being 0 |
| Offsets.PrecedenceLadder | retime.py:103-110 | with four non-zero offsets and a line past the midpoint, each tier beats every tier below it, and removing the winner falls to the next |
| Offsets.DropZero | retime.py:103-107 | replacing a 0 override by "unset" keeps its truth value and leaves no 0 value behind |
| Offsets.ZeroActsAsUnset | retime.py:103-107 | an override of 0 in any of the three upper tiers gives every line the same offset as no override at all |
| Offsets.NotPastMidpointUsesMain | retime.py:103-110 | a line starting at or before the midpoint, or any line when the midpoint is 0, gets the episode main if truthy, else season main |
| Offsets.Shift | retime.py:112-113 | start and end both move by the offset, without clamping; duration and payload are kept |
| Offsets.ShiftComposes | retime.py:112-113 | two shifts add up and a shift by 0 changes nothing |
| Offsets.ShiftAll | retime.py:102-113 | every line is shifted by its own ladder offset with count, order, durations and payloads kept; the loop fails exactly when there is a line and the ladder reads an unbound midpoint |
| Offsets.ShiftInPlace | retime.py:102-113 | the line loop over the loaded events in place leaves exactly `ShiftAll` of the old events, or fails on the first line and changes nothing |
| Offsets.ShiftAllMatches | retime.py:102-113 | shifting each line by its own offset, position by position, is `ShiftAll` |
| Retime.OutputKeepsFormat | retime.py:116 | the output name's suffix is the original subtitle's suffix and its stem is the video stem followed by `.ja` |
| Retime.WarningCheck | retime.py:83-86 | the warning fires exactly when the season 2nd half is truthy and the midpoint is bound to 0; it fails exactly when the season 2nd half is truthy and the midpoint is unbound; episode overrides play no part |
| Retime.ProcessEpisode | retime.py:72-118 | one episode: the midpoint after its chapter scan, whether it warns, and the saved subtitle or the failure of the warning test, the override lookup or the line loop |
| Retime.RunEpisodes | retime.py:67-118 | the loop over sorted pairs: the i-th video with the i-th subtitle as episode `i+1`, each saved file in order, stopping after `max(first, 0)` pairs, at the first failing episode, or with `IndexError` one past the last pair; warnings listed for every episode entered that raises one |
| Retime.RetimeAll | retime.py:44-73 | a missing `main` aborts before anything is saved; unequal counts abort with nothing saved; otherwise both lists are sorted by name and the loop runs over `first` pairs when given, all pairs otherwise |
| Retime.EpisodeStep | retime.py:67-88 | one turn of the episode loop moves the carried midpoint on by one video and runs episode `i+1` with it |
| Retime.StaleMidpointSuppressesWarning | retime.py:76-86 | an episode without a marker chapter keeps the previous non-zero midpoint and raises no warning |
| Retime.UnboundMidpointFailsOnlyWhenRead | retime.py:83-110 | before any marker chapter the midpoint is unbound; a failing override lookup fails the episode, and otherwise the episode fails exactly when the season 2nd half is truthy (the warning test reads the midpoint) or the subtitle has a line and the episode 2nd half is truthy (the ladder reads it); a truthy episode main or overrides of 0 leave it unread |
| Paths.SuffixStart | search.py:21 | the suffix starts at a dot that is neither the first nor the last character of the name, or it is empty |
| Paths.Suffix | search.py:21 | the suffix is empty or a dot followed by at least one dot-free character, shorter than the name |
| Paths.Stem | retime.py:116 | the name is the stem followed by the suffix; a name with a suffix has a non-empty stem |
| Paths.WithoutSuffix | search.py:22 | `with_suffix("")` keeps the parent and drops exactly the suffix from the name |
| Paths.DottedName | search.py:21-22 | a name `base.ext` with a dot-free `ext` has suffix `.ext` and stem `base` |
| Paths.NameLeTotal | retime.py:64-65 | the name order compares any two names |
| Paths.SortByName | retime.py:64-65 | `list.sort()` yields a list ordered by name holding exactly the input's elements |
| Search.Stripped | search.py:20-23 | stripping keeps the parent directory and ends on a name whose suffix is not `.srt`, `.ass` or `.ja` |
| Search.StripSubtitleExtensions | search.py:20-23 | the loop removes one suffix at a time while it is a subtitle suffix, and returns `Stripped` of its input |
| Search.StrippedIsTrailingRun | search.py:21-22 | the input name is the result's name followed by the removed suffixes, each a subtitle suffix: only a trailing run is removed, and the result's name is a prefix of the input's |
| Search.StripIdempotent | search.py:20-23 | stripping twice is stripping once |
| Search.StripStep | search.py:21-22 | stripping `base` followed by a subtitle suffix continues as stripping `base` |
| Search.StripStops | search.py:21 | a name whose suffix is not a subtitle suffix is returned unchanged |
| Search.StripStopsAtVideo | search.py:21-22 | `ep.mkv.srt` becomes `ep.mkv`: stripping stops at the first suffix outside the set |
| Search.StripFindsRetimedVideo | search.py:120-124 | when the video's stem does not itself end in `.srt`, `.ass` or `.ja`, a subtitle named by `retime.py` strips back to the stem of its video, so the video's own suffix re-creates the video's name (a video named `ep.ja.mkv` does not meet that condition) |
| Search.ParseStamp | search.py:104 | a stamp is read as `\d+:\d+:\d+,\d+` at the given position, every digit run taken whole |
| Search.MatchCue | search.py:104-106 | a match means the line starts with white space, a stamp, white space, `-->`, white space and a second stamp |
| Search.ParseStampFinds | search.py:104 | wherever a stamp is written, the parser reads it with the same separators, and exactly it when its last run is whole |
| Search.MatchCueFinds | search.py:104-106 | every line of the cue form is matched, with the same first stamp and arrow |
| Search.StampTextForm | search.py:107 | the first stamp's text with `,` replaced by `.` is the digits of the stamp with `:`, `:`, `.` between the runs |
| Search.StartTimestamp | search.py:104-107 | a timestamp exists exactly when the line matches, and it is the first stamp's text with the comma turned into a dot |
| Search.NearestAbove | search.py:103-109 | the index found is at or above the start, its line accepted, and no line between it and the start accepted; `None` exactly when no line from the start up to index 0 is accepted |
| Search.NearestStep | search.py:105-109 | one step of the upward scan: a matching line ends the scan, any other line passes it on to the line above |
| Search.OpenVideoForResult | search.py:96-120 | for an `.srt` hit the scan starts at index `line_number-2`, never examining the hit line, and yields the nearest cue's start time with the stripped subtitle path, or "no timestamp before line" when none matches; `.ass` and any other suffix return early |
| Search.ResultCounts | search.py:140-143 | defined exactly when the limit is non-negative; then omitted plus shown is the total, shown is `min(limit, total)`, and something is omitted exactly when the total exceeds the limit |

## Left out

- File-system access in `retime.py` (globbing, directory checks, `mkdir`, the template write of `retime.toml`, `config.read`): the lists of videos and subtitles and the `[offsets]` section are inputs.
- `ffmpeg.probe`: a video comes with its chapter list.
- `round(float(start_time) * 1000)`: each chapter's start is given as whole milliseconds; floating point and banker's rounding are not modelled.
- `int(...)` on configuration values: the section is a map from keys to integers; a value that does not parse is not modelled.
- A missing `[offsets]` section (a `KeyError` before the `main` lookup): the section is taken to exist.
- `pysubs2.load` and `save`: a subtitle is its list of events as `(start, end, payload)` values, and saving is the returned `Saved` record.
- `print`, `warnings.warn` and the exit codes: the run returns a report of saved files, warned episode numbers and how it ended.
- Path sorting is by plain code-point order of file names; the case-folding comparison pathlib uses on Windows is not modelled.
- Paths.Path: a path is a parent directory text and a final name; `parents[1]` and joining are not modelled.
- Search.IsSpace, Search.IsDigit: ASCII white space and ASCII digits stand for Python's Unicode `\s` and `\d`.
- Search.OpenVideoForResult: reading the subtitle file is replaced by its right-stripped lines; it requires the hit to lie within the file, where Python would raise `IndexError`.
- Search.OpenVideoForResult: the video-existence loop over `.mp4` and `.mkv` and the `mpv` launch are left out; the result carries the start time and the stripped path the video is looked up from.
- The ripgrep search, `random.sample`'s choice, the terminal size, the result highlighting and the prompt interface of `search.py`: only the counts of omitted and shown results are modelled.
