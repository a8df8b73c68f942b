# Lyric timing engine of a browser karaoke player

This project models the part of a browser karaoke player that decides what to show and when.

- **`LRCParser`** (scripts/lrc_parser.js) reads word-timed LRC text.
  - Each line has the form `[MM:SS.CC]<MM:SS.CC>word <MM:SS.CC>word …`.
  - The parser turns it into line records `{lineTimestamp, words, rawText}`.
  - A line whose remainder holds the musical-note marker or `INSTRUMENTAL` becomes one synthetic word. Its duration runs to an optional end tag.
  - A debug offset in milliseconds moves every time.
  - `getWordAtTime` is an older query that picks the word to highlight from the flat list of lines.
- **`ScreenManager`** (scripts/screen_manager.js) pages the lines and answers the player's per-tick query.
  - `generateScreens` cuts the lines into screens of at most `maxLinesPerScreen` lines. An instrumental line gets a screen of its own, and a blank line ends a screen. Each screen gets a start and an end time, padded by 5 s at the end of the song.
  - `getScreenAtTime(time)` answers the per-tick query with:
    - the screen whose `[startTime, endTime)` holds `time`;
    - in it, the latest word that has started;
    - that word's duration, clamped to [0.1 s, 5 s];
    - the progress of an instrumental break.

All times are exact `real` seconds.
- A tag `MM:SS.CC` is worth `MM*60 + SS + CC/100`.
- The offset adds `offsetMs / 1000`.

Modules, one file each:
- `Wrappers` (wrappers.dfy): `Option`, the model of `null`.
- `Text` (text.dfy): JavaScript's `trim`, `includes`, `split` and `join`, and the `Number` reading of digit strings.
- `LrcFormat` (lrc_format.dfy): the parser, as the class `LrcParser`.
- `Screens` (screens.dfy): the pager, as the class `ScreenManager`.

Both classes hold the source's fields. Their constructors and `SetDebugOffset`, `ParseLine`, `Parse`, `GetWordAtTime`, `GenerateScreens` and `GetScreenAtTime` are the source's methods. The other methods are pieces of them:
- `TagToSeconds` is the `timestampToSeconds` call on a matched tag inside `parseLine`, for the line tag and for the end tag of an instrumental line;
- `InstrumentalWords` and `TimedWords` are the two branches of `parseLine`;
- `ApplyOffset` is the offset step inside the loop of `parse`;
- `LatestWord` and `NextWord` are the two scans inside `getScreenAtTime`;
- `LineTurn` is the body of the `generateScreens` loop.

Each method that loops is proved against a specification function:
- `ParseLineSpec` and `WordsFrom` for `parseLine`;
- `ParseAll` for `parse`;
- `WordAtTime` for `getWordAtTime`;
- `ScreensOf` (through `Step`, `Run` and `RunTo`) for `generateScreens`;
- `ScreenAtTime` (through `Scan` and `NextWordTime`) for `getScreenAtTime`.

The lemmas prove what those functions promise.

## Model

| member | source | states |
|---|---|---|
| LrcFormat.LrcParser.constructor | scripts/lrc_parser.js:2-5 | a new parser has no lyrics and a debug offset of 0 |
| LrcFormat.LrcParser.SetDebugOffset | scripts/lrc_parser.js:8-10 | the debug offset becomes the given milliseconds and the lyrics stay |
| LrcFormat.TimestampToSeconds | scripts/lrc_parser.js:13-16 | with its first and last character cut off, the text is split at ':' and read as minutes * 60 plus the seconds as a decimal number, which is never negative |
| LrcFormat.TagSeconds | scripts/lrc_parser.js:13-16 | on a whole tag `[MM:SS.CC]` or `<MM:SS.CC>`, `timestampToSeconds` gives MM*60 + SS + CC/100 |
| LrcFormat.LrcParser.TagToSeconds | scripts/lrc_parser.js:23 | the time of a matched tag is the time its clock denotes |
| LrcFormat.Search | scripts/lrc_parser.js:30 | a regular-expression search returns a position at which the pattern matches |
| LrcFormat.SearchLeftmost | scripts/lrc_parser.js:30 | that position is the leftmost match, and no match exists when it returns none |
| LrcFormat.EndTimestampLeftmost | scripts/lrc_parser.js:30-31 | an instrumental line's end time is absent exactly when its remainder holds no `[MM:SS.CC]` tag, and otherwise is the time of the leftmost such tag |
| LrcFormat.RunEnd | scripts/lrc_parser.js:41 | the greedy `[^<]+` run ends at the next `<` or at the end, and is non-empty when it can be |
| LrcFormat.InstrumentalNotBlank | scripts/lrc_parser.js:28 | text holding the marker or `INSTRUMENTAL` never trims to "" |
| LrcFormat.LrcParser.ParseLine | scripts/lrc_parser.js:19-62 | `parseLine` returns what `ParseLineSpec` gives for the line |
| LrcFormat.ParseLineMeaning | scripts/lrc_parser.js:19-62 | null exactly without a leading `[MM:SS.CC]`; otherwise the line is at that tag's time and `rawText` is the word texts joined by a space; `rawText` is empty exactly when there are no words; an instrumental remainder gives one word holding the whole remainder at the line's time, whose duration is present exactly when the end time is truthy and is then end minus start; any other remainder gives the non-blank words of its tokens, well formed and in source order |
| LrcFormat.LrcParser.InstrumentalWords | scripts/lrc_parser.js:28-38 | the instrumental branch yields exactly the one synthetic word `InstrumentalWord` |
| LrcFormat.LrcParser.TimedWords | scripts/lrc_parser.js:41-54 | the `exec` loop yields exactly the words of the word tokens (`WordsFrom`) |
| LrcFormat.ExecStep | scripts/lrc_parser.js:44-53 | one turn of the `exec` loop adds the token's word, if non-blank, and continues after the run |
| LrcFormat.WordsFromWellFormed | scripts/lrc_parser.js:44-53 | every word of the word-timed branch has a non-empty text with no white space at either end and no `<`, and no duration |
| LrcFormat.TokensIncreasing | scripts/lrc_parser.js:44 | the tokens the loop meets lie at strictly increasing positions |
| LrcFormat.Tokens | scripts/lrc_parser.js:44 | every token position is at or after the start and holds a match of the word pattern |
| LrcFormat.WordsInSourceOrder | scripts/lrc_parser.js:44-54 | the words are the non-blank words of the tokens, in left-to-right order |
| LrcFormat.RawTextEmpty | scripts/lrc_parser.js:60 | with non-empty word texts, `rawText` is "" exactly when there are no words |
| LrcFormat.Texts | scripts/lrc_parser.js:60 | `words.map(w => w.text)` keeps the length and starts with the first word's text |
| Text.Trim | scripts/lrc_parser.js:25 | `trim` is no longer than its input, and its result neither starts nor ends with white space |
| Text.TrimEmpty | scripts/lrc_parser.js:25 | a text trims to "" exactly when it is all white space |
| Text.TrimIsSlice | scripts/lrc_parser.js:25 | the trimmed text is a slice of the input with only white space cut off on either side |
| Text.TrimIdempotent | scripts/lrc_parser.js:70 | trimming twice is trimming once |
| Text.TrimKeepsChars | scripts/lrc_parser.js:46 | trimming adds no character |
| Text.ContainsNotBlank | scripts/lrc_parser.js:28 | a text that contains a non-blank text is not blank |
| Text.Split | scripts/lrc_parser.js:67 | `split('\n')` gives at least one piece and no piece holds a newline |
| Text.SplitConcat | scripts/lrc_parser.js:67 | splitting `a + "\n" + b` gives the pieces of `a` followed by those of `b` |
| Text.JoinSplit | scripts/lrc_parser.js:67 | joining the pieces with the separator gives back the content |
| Text.SplitJoin | scripts/lrc_parser.js:67 | splitting pieces that hold no separator, once joined, gives back the pieces |
| LrcFormat.LrcParser.Parse | scripts/lrc_parser.js:65-82 | `parse` replaces the lyrics by `ParseAll` of the newline-separated pieces under the current offset, whatever the lyrics were before (so it is idempotent), returns them, and keeps the offset |
| LrcFormat.ParseStep | scripts/lrc_parser.js:69-78 | one turn of the loop of `parse` appends the piece's parse, moved by the offset, when it parses |
| LrcFormat.ParseAllOne | scripts/lrc_parser.js:69-78 | one piece contributes its parse moved by the offset, or nothing when it does not parse |
| LrcFormat.ParseAllAppend | scripts/lrc_parser.js:69-79 | the lines of two runs of pieces are the lines of the first followed by those of the second (lines that do not parse shift nothing) |
| LrcFormat.ParseConcat | scripts/lrc_parser.js:65-82 | two contents joined by a newline parse to the lyrics of the first followed by those of the second |
| LrcFormat.ParseAllLength | scripts/lrc_parser.js:69-79 | there are never more lines than pieces |
| LrcFormat.LrcParser.ApplyOffset | scripts/lrc_parser.js:72-76 | the in-place offset step moves the line's time and every word's time by the shift and changes nothing else |
| LrcFormat.ShiftWords | scripts/lrc_parser.js:74-76 | moving the words keeps their number |
| LrcFormat.ShiftLineZero | scripts/lrc_parser.js:72-76 | a zero offset changes nothing |
| LrcFormat.ParseAllOffset | scripts/lrc_parser.js:72-76 | the lines parsed with an offset are those parsed without one, each with every time moved by `offsetMs / 1000` |
| LrcFormat.LrcParser.GetWordAtTime | scripts/lrc_parser.js:85-146 | `getWordAtTime` returns `WordAtTime` on the lyrics, with the current line corrected as in Findings |
| LrcFormat.FirstLaterLine | scripts/lrc_parser.js:90-92 | the `findIndex` of the first line later than the time: every line before it has started |
| LrcFormat.FirstLaterLineUnique | scripts/lrc_parser.js:90-92 | the `findIndex` loop's exit position is that index |
| LrcFormat.LineAtTimeSelects | scripts/lrc_parser.js:90-94 | there is no current line exactly when there are no lines or the first line is later; otherwise the current line has started, every earlier line has started, and the next line, if any, has not |
| LrcFormat.LineAtTimeAsWrittenMissesLast | scripts/lrc_parser.js:90-94 | as written, the last line is never current; the query finds nothing once every line has started; otherwise it agrees with `LineAtTime` |
| LrcFormat.LineAtTimeAsWrittenExample | scripts/lrc_parser.js:90-94 | one line at 0 s, asked at 1 s: as written the index is -2, corrected it is line 0 |
| LrcFormat.FirstCurrentWord | scripts/lrc_parser.js:99-103 | the `findIndex` of the current word: that word has started, the next word (if any) has not, and no earlier word is current |
| LrcFormat.FirstCurrentWordUnique | scripts/lrc_parser.js:99-103 | the word loop's exit position is that index |
| LrcFormat.WordDuration | scripts/lrc_parser.js:108-135 | the highlighted word's duration always lies in [0.1, 5] |
| LrcFormat.WordDurationOwn | scripts/lrc_parser.js:110-112 | a truthy own duration is kept when in [0.1, 5]; below 0.1 it becomes 0.5, and above 5 it becomes 5 |
| LrcFormat.WordDurationIsGap | scripts/lrc_parser.js:115-117 | without its own duration, a word lasts until the next word of its line when that gap is in [0.1, 5] |
| LrcFormat.WordDurationDefault | scripts/lrc_parser.js:127-132 | the last word of the last line, without its own duration, gets the 0.5 s default |
| LrcFormat.WordAtTimeMeaning | scripts/lrc_parser.js:85-146 | a word is found exactly when a line has started and one of its words is current; it then reports that line, the first current word with its own text and time and its index, and a duration in [0.1, 5] |
| LrcFormat.WordTimestampAsWrittenDiffers | scripts/lrc_parser.js:45 | the word time as written agrees with the tag's time exactly when the minutes' tens digit and the last hundredths digit are 0, and is never larger |
| LrcFormat.WordTimestampAsWrittenExample | scripts/lrc_parser.js:45 | as written, `<00:01.25>` reads as 1.2 s instead of 1.25 s |
| LrcFormat.WordTimestampAsWrittenMinutes | scripts/lrc_parser.js:45 | as written, `<10:00.00>` reads as 0 s instead of 600 s |
| LrcFormat.WordTimestamp | scripts/lrc_parser.js:45 | corrected: a word's time is what `timestampToSeconds` gives on its whole tag `<MM:SS.CC>` |
| LrcFormat.CaptureIsTimestampText | scripts/lrc_parser.js:45 | the capture `MM:SS.CC`, read by `timestampToSeconds`, is worth the minutes' units digit * 60 + SS + the first hundredths digit / 10 |
| Screens.ScreenManager.constructor | scripts/screen_manager.js:2-6 | a new pager has the given line cap (4 when none is given), no screens and a current screen index of -1 |
| Screens.ScreenManager.GenerateScreens | scripts/screen_manager.js:9-83 | `generateScreens` replaces the screens by `ScreensOf` of the lines under the cap, returns them, keeps the cap and the screen index, and leaves every screen holding a line |
| Screens.ScreenManager.LineTurn | scripts/screen_manager.js:15-70 | one turn of the loop pushes the screens that `Step` gives for the line and leaves the lines it keeps collected; this covers the instrumental, blank and cap/last-line flush rules and their end times |
| Screens.RunToThenRun | scripts/screen_manager.js:14-71 | the turns up to line i, and then the rest from there, are all the turns |
| Screens.RunToIsRun | scripts/screen_manager.js:14-71 | the loop taken in order from the first line is the whole run |
| Screens.RunLeavesNothing | scripts/screen_manager.js:61 | once the loop has seen a line, it leaves nothing collected, because the last line always closes the collection |
| Screens.ScreensAreRunScreens | scripts/screen_manager.js:73-80 | the flush after the loop never adds a screen |
| Screens.ScreensOfEmpty | scripts/screen_manager.js:9-83 | no lines give no screens |
| Screens.FirstNonBlank | scripts/screen_manager.js:44 | the `find` of the next non-blank line returns a non-blank line, or none |
| Screens.FirstNonBlankSkipsBlank | scripts/screen_manager.js:44 | every line it skips is blank |
| Screens.BlankIsTrimmedEmpty | scripts/screen_manager.js:42 | a line is blank exactly when its `rawText` trims to "" |
| Screens.InstrumentalNotBlankLine | scripts/screen_manager.js:16-42 | an instrumental line is never blank, so the blank rule never sees it |
| Screens.StepCovers | scripts/screen_manager.js:15-70 | one turn loses no line and adds none: what it pushes and keeps is what was kept before plus its line unless blank |
| Screens.RunCovers | scripts/screen_manager.js:14-71 | the same holds for the turns from any line on |
| Screens.LinesOfAppend | scripts/screen_manager.js:22-75 | the lines of two runs of screens are the lines of each |
| Screens.ScreensCover | scripts/screen_manager.js:14-80 | the screens' lines, concatenated, are exactly the non-blank input lines, in input order |
| Screens.StepShaped | scripts/screen_manager.js:15-70 | each pushed screen is shaped, and what is kept stays below the cap and plain |
| Screens.RunShaped | scripts/screen_manager.js:14-71 | the same holds for the turns from any line on |
| Screens.ScreensShaped | scripts/screen_manager.js:14-80 | every screen has 1 to `max` lines (1 when `max` < 1) and starts at its first line's time; an instrumental screen is that one instrumental line, and no other screen holds an instrumental or a blank line |
| Screens.InstrumentalAlone | scripts/screen_manager.js:19-38 | every instrumental input line is shown alone on an instrumental screen that starts at its time |
| Screens.EndPadded | scripts/screen_manager.js:35-66 | when the last line is not blank, the last screen holds it and ends 5 s after it |
| Screens.StepOrdered | scripts/screen_manager.js:15-70 | for sorted lines, a turn's screens are ordered; the last of them ends before any later non-blank line starts; what is kept starts no later than anything after it |
| Screens.RunStartsAfter | scripts/screen_manager.js:14-71 | no screen of a run starts before a time that no line still to come, and no kept line, precedes |
| Screens.OrderedAppend | scripts/screen_manager.js:22-67 | two ordered runs of screens, the first ending before the second starts, are ordered together |
| Screens.RunOrdered | scripts/screen_manager.js:14-71 | for sorted lines, the turns from any line on give ordered screens |
| Screens.ScreensOrdered | scripts/screen_manager.js:14-80 | for lines in time order, every screen starts no later than it ends and ends no later than any later screen starts |
| Screens.RunFirst | scripts/screen_manager.js:14-71 | the first screen the turns from line i push starts at the first line already collected, or, with nothing collected, at the first non-blank line from i on |
| Screens.StepContiguous | scripts/screen_manager.js:15-70 | a turn at a non-blank line pushes screens that follow on each other and keeps nothing when it pushes any; the last one ends where the next line starts |
| Screens.ContiguousAppend | scripts/screen_manager.js:22-67 | two runs of screens that each follow on without a gap, the first ending where the second starts, follow on without a gap when joined |
| Screens.RunContiguous | scripts/screen_manager.js:14-71 | with no blank line from i on, each screen the turns from i push ends where the next one starts |
| Screens.ScreensContiguous | scripts/screen_manager.js:14-80 | with no blank line in the input, each screen of `generateScreens` ends exactly where the next one starts: the instrumental flush (line 25), the next line's time for an instrumental screen (line 35) and for a full or last screen (line 66) |
| Screens.BlankTurn | scripts/screen_manager.js:41-54 | the turn at a blank line after collected lines pushes one screen of them, ending at the next non-blank line or 5 s after the last of them, and keeps nothing |
| Screens.BlankBreak | scripts/screen_manager.js:41-54 | a blank line after collected lines gives `generateScreens` a screen of exactly those lines, ending at the next non-blank line's time or 5 s after the last of them; the screen after it starts at that next non-blank line |
| Screens.ScreenManager.GetScreenAtTime | scripts/screen_manager.js:86-172 | `getScreenAtTime` returns `ScreenAtTime` on the screens |
| Screens.FirstCovering | scripts/screen_manager.js:99-101 | the `findIndex` of the first screen whose `[startTime, endTime)` holds the time: it holds it and no earlier screen does |
| Screens.FirstCoveringUnique | scripts/screen_manager.js:99-101 | the search loop's exit position is that index |
| Screens.CoveringUnique | scripts/screen_manager.js:99-103 | for ordered screens, no screen after the one that holds a time holds it too |
| Screens.ScreenManager.LatestWord | scripts/screen_manager.js:106-124 | the nested `forEach` scan returns the line index and word of the position `Scan` finds, or -1 and null |
| Screens.Scan | scripts/screen_manager.js:114-124 | the scan only ever points at a word of the screen |
| Screens.ConsiderTracks | scripts/screen_manager.js:116-122 | one word of the scan keeps the meaning of its state |
| Screens.NextLineTracks | scripts/screen_manager.js:114-115 | moving on to the next line keeps it |
| Screens.ScanTracks | scripts/screen_manager.js:114-124 | the whole scan keeps it |
| Screens.ScanMeaning | scripts/screen_manager.js:110-124 | no word is found exactly when no word has started (after -1); otherwise the found word has started, has the latest time of all started words, and every started word before it started strictly earlier (ties go to the first scanned) |
| Screens.ScreenManager.NextWord | scripts/screen_manager.js:127-151 | the next-word search returns `NextWordTime`: the next word of the line, else the first word of the first later line with words, else — when that is null or 0 — the first word of the next screen's first line |
| Screens.NextInLinesMeaning | scripts/screen_manager.js:136-141 | the later-lines loop finds nothing exactly when no later line has a word, and otherwise the first word of the first such line |
| Screens.WordSpan | scripts/screen_manager.js:153-161 | the duration always lies in [0.1, 5]: the gap to the next word time when that is within bounds, 0.5 without a next word, 0.1 below and 5 above |
| Screens.FractionBelowOne | scripts/screen_manager.js:169-170 | the progress of a time inside a screen's span lies in [0, 1) |
| Screens.ScreenAtTimePreRoll | scripts/screen_manager.js:87-96 | at or before 0, with screens, the result is screen 0 with line -1, no word and progress 0 |
| Screens.ScreenAtTimeMeaning | scripts/screen_manager.js:86-172 | past the pre-roll: null exactly when no screen holds the time; otherwise the first screen that does. Its word is null exactly when no word has started, and the line index is then -1. Otherwise it is the latest-started word, with its own text, time and index and the index of its line, and its duration is the clamped gap to the next word time, in [0.1, 5]. Progress lies in [0, 1) on an instrumental screen and is 0 otherwise |
| Screens.NoScreensNoState | scripts/screen_manager.js:99-103 | with no screens the result is null |

## Left out

- DOM rendering, audio, the visualizer, the controls, scripts/main.js, scripts/lyrics_display.js and serve.py are user-interface code and I/O. They are not part of this model.
- The `console.log` of the default duration (scripts/lrc_parser.js:131) is output only.
- JavaScript numbers are IEEE-754 doubles, and this model uses exact reals. Rounding of sums such as `debugOffset / 1000` or of the progress quotient is not modelled.
- JavaScript's regular-expression engine is not modelled. The two patterns of the parser are written out as matchers: `TagAt`, `WordMatchAt`, `Search` and `RunEnd`.
- `Text.Trim` uses the ECMAScript white-space and line-terminator set. Unicode normalisation and surrogate pairs are not modelled: strings are sequences of characters.
- The marker is the source's literal, `"\U{E2}\U{2122}\U{AA}"`, which is the UTF-8 of U+266A read as Windows-1252. File encodings are not modelled.
- `parse` mutates each parsed record in place, and `generateScreens` and `getScreenAtTime` build object literals that alias the input lines. The model works on values, so aliasing between the returned lyrics and later mutations is not captured.
- `LrcFormat.LrcParser.Parse` collects the pushes to `this.lyrics` in a local and assigns the field once after the loop. `Screens.ScreenManager.GenerateScreens` does the same with `this.screens`. Nothing reads either field during its loop, so the final states agree.
- `Screens.ScreenManager.LineTurn`: `currentLineCount` is always the length of `currentScreen`, so the model uses that length.
- `Screens.ScreenManager.GetScreenAtTime`: JavaScript's `findIndex` result -1 is modelled as the number of screens.
- `Screens.ScreenManager.LatestWord`: `currentWord` starts with a duration of 0. The word's own `duration`, copied by the spread, is always overwritten before return.
- `Screens.ScreenManager.GetScreenAtTime` requires every screen to hold a line (`Valid`). In the source, a screen without lines would raise a TypeError at `nextScreen.lines[0]`. `generateScreens` never makes one (`ScreensShaped`).
- Screens other than instrumental ones carry no `isInstrumental` key in the source, and the model gives them `false`.
- `Screens.FirstNonBlank` models `slice(i + 1).find(...)` by its position in the input.
- Tie-breaking in `getScreenAtTime`: among words that start at the same time, the strict `>` at scripts/screen_manager.js:117 keeps the first one scanned, and the model follows it (`Screens.ScanMeaning`).
- `currentScreenIndex` is only initialised by these operations, and the model does the same.
- `Screens.ScreensOrdered` assumes the input lines are in time order, as an LRC file lists them. For unsorted input the model computes the screens faithfully but proves no ordering.
- `LrcFormat.LrcParser.GetWordAtTime` and `LrcFormat.WordTimestamp` implement the corrected behaviour of the Findings. So do `LrcFormat.LrcParser.TimedWords`, `LrcFormat.LrcParser.ParseLine`, `LrcFormat.ParseLineSpec` and `LrcFormat.LrcParser.Parse`: they carry the corrected word time, while scripts/lrc_parser.js:45 hands `timestampToSeconds` the bare `MM:SS.CC` of `match[1]`. The code as written is modelled by `LrcFormat.LineAtTimeAsWritten` and `LrcFormat.WordTimestampAsWritten`.

## Findings

| source | as written | input that shows it | evidently intended | confidence | as-written member | corrected member |
|---|---|---|---|---|---|---|
| scripts/lrc_parser.js:45 | the word time is `timestampToSeconds(match[1])`, on the capture `MM:SS.CC` without its `<>`; `timestampToSeconds` cuts off one more character on each side, dropping the minutes' tens digit and the last hundredths digit | `[00:00.00]<00:01.25>a` gives the word time 1.2 s instead of 1.25 s; `<10:00.00>` gives 0 s instead of 600 s | the tag's own time, MM*60 + SS + CC/100, as the line tag at line 23 gets | not executed | LrcFormat.WordTimestampAsWrittenDiffers | LrcFormat.WordTimestamp |
| scripts/lrc_parser.js:90-92 | the current line is `findIndex(line => line.lineTimestamp > time) - 1`, and `findIndex` yields -1 when no line is later, giving -2 | one line at 0 s, asked at 1 s: the index is -2 and the query returns null, so the last line is never highlighted | the last line is current once it has started, as lines 118-127 expect for "the last word of the last line" | not executed | LrcFormat.LineAtTimeAsWrittenMissesLast | LrcFormat.LineAtTimeSelects |
