/** The screen pager (scripts/screen_manager.js): the parsed lines are cut into screens of at
    most `maxLinesPerScreen` lines, instrumental breaks get a screen of their own and blank
    lines end a screen; a time query then picks the screen to show, the word to highlight in it,
    how long that word lasts and how far an instrumental break has progressed. */
module Screens {
  import opened Wrappers
  import opened Text
  import opened LrcFormat

  /** A screen: its lines, the time span it is shown for, and whether it is an instrumental
      break (the source leaves the flag out on other screens, which reads as false). */
  datatype Screen = Screen(lines: seq<Line>, startTime: real, endTime: real, isInstrumental: bool)

  /** What `getScreenAtTime` returns: the screen and its index, the index within the screen of the
      line holding the current word (-1 for none), that word, and the progress of an instrumental
      break. */
  datatype ScreenState = ScreenState(screen: Screen, screenIndex: nat, currentLineIndex: int,
                                     currentWord: Option<WordAt>, progress: real)

  /** The screen pager's instrumental test, made on the line's `rawText`. */
  predicate IsInstrumental(line: Line) {
    IsInstrumentalText(line.rawText)
  }

  /** A line whose `rawText` is all white space, that is, trims to "" (`BlankIsTrimmedEmpty`). */
  predicate IsBlank(line: Line) {
    SkipWhite(line.rawText, 0) == |line.rawText|
  }

  lemma BlankIsTrimmedEmpty(line: Line)
    ensures IsBlank(line) <==> Trim(line.rawText) == []
  {
    var s := line.rawText;
    TrimEmpty(s);
    SkipWhiteSkipsWhite(s, 0);
    if !IsBlank(line) {
      assert !IsWhite(s[SkipWhite(s, 0)]);
    }
  }

  lemma InstrumentalNotBlankLine(line: Line)
    requires IsInstrumental(line)
    ensures !IsBlank(line)
  {
    InstrumentalNotBlank(line.rawText);
    BlankIsTrimmedEmpty(line);
  }

  // ---------------------------------------------------------------------------------------
  // generateScreens

  /** A screen of collected lines, shown from the first line's time to `endTime`. */
  function Regular(lines: seq<Line>, endTime: real): Screen
    requires lines != []
  {
    Screen(lines, lines[0].lineTimestamp, endTime, false)
  }

  /** The first non-blank line at or after `from` (`slice(from).find(...)`), or the length. */
  function FirstNonBlank(input: seq<Line>, from: nat): (k: nat)
    requires from <= |input|
    ensures from <= k <= |input|
    ensures k < |input| ==> !IsBlank(input[k])
    decreases |input| - from
  {
    if from == |input| || !IsBlank(input[from]) then from else FirstNonBlank(input, from + 1)
  }

  lemma {:induction false} FirstNonBlankSkipsBlank(input: seq<Line>, from: nat)
    requires from <= |input|
    ensures forall j :: from <= j < FirstNonBlank(input, from) ==> IsBlank(input[j])
    decreases |input| - from
  {
    if from < |input| && IsBlank(input[from]) {
      FirstNonBlankSkipsBlank(input, from + 1);
    }
  }

  /** The screens one turn of the loop pushes and the lines it leaves collected. */
  /** The screen a blank line closes: the lines collected before it, until the next non-blank
      line or 5 s after the last of them. */
  function BlankClosed(input: seq<Line>, pending: seq<Line>, i: nat): Screen
    requires i < |input| && pending != []
  {
    var next := FirstNonBlank(input, i + 1);
    Regular(pending, if next < |input| then input[next].lineTimestamp
                     else pending[|pending| - 1].lineTimestamp + 5.0)
  }

  datatype Turn = Turn(emitted: seq<Screen>, pending: seq<Line>)

  /** One turn of the loop of `generateScreens` at line i, with `pending` collected so far:
      an instrumental line closes the collected lines at its own time and gets a screen until
      the next line (or for 5 s); a blank line closes them at the next non-blank line (or 5 s
      after the last of them); any other line is collected, and the collection is closed at the
      next line (or 5 s after it) once it holds `max` lines or the input ends. */
  function Step(input: seq<Line>, max: int, i: nat, pending: seq<Line>): Turn
    requires i < |input|
  {
    var line := input[i];
    if IsInstrumental(line) then
      var flushed := if pending == [] then [] else [Regular(pending, line.lineTimestamp)];
      var endTime := if i < |input| - 1 then input[i + 1].lineTimestamp else line.lineTimestamp + 5.0;
      Turn(flushed + [Screen([line], line.lineTimestamp, endTime, true)], [])
    else if IsBlank(line) then
      if pending == [] then Turn([], []) else Turn([BlankClosed(input, pending, i)], [])
    else
      var collected := pending + [line];
      if |collected| >= max || i == |input| - 1 then
        var endTime := if i + 1 < |input| then input[i + 1].lineTimestamp else line.lineTimestamp + 5.0;
        Turn([Regular(collected, endTime)], [])
      else
        Turn([], collected)
  }

  /** The turns of the loop from line i on: every screen they push, and the lines left
      collected when the loop ends. */
  function Run(input: seq<Line>, max: int, i: nat, pending: seq<Line>): Turn
    requires i <= |input|
    decreases |input| - i
  {
    if i == |input| then Turn([], pending)
    else
      var turn := Step(input, max, i, pending);
      var rest := Run(input, max, i + 1, turn.pending);
      Turn(turn.emitted + rest.emitted, rest.pending)
  }

  /** The turns of the loop over lines 0 to i-1, in the order the loop takes them: what
      `screens` and `currentScreen` hold when the loop reaches line i. */
  function RunTo(input: seq<Line>, max: int, i: nat): Turn
    requires i <= |input|
  {
    if i == 0 then Turn([], [])
    else
      var before := RunTo(input, max, i - 1);
      var turn := Step(input, max, i - 1, before.pending);
      Turn(before.emitted + turn.emitted, turn.pending)
  }

  /** Taking the turns up to line i and then the rest from there is taking them all. */
  lemma {:induction false} RunToThenRun(input: seq<Line>, max: int, i: nat)
    requires i <= |input|
    ensures RunTo(input, max, i).emitted + Run(input, max, i, RunTo(input, max, i).pending).emitted
            == Run(input, max, 0, []).emitted
    ensures Run(input, max, i, RunTo(input, max, i).pending).pending == Run(input, max, 0, []).pending
  {
    if i == 0 {
      assert [] + Run(input, max, 0, []).emitted == Run(input, max, 0, []).emitted;
    } else {
      var before := RunTo(input, max, i - 1);
      var turn := Step(input, max, i - 1, before.pending);
      var rest := Run(input, max, i, turn.pending);
      assert RunTo(input, max, i) == Turn(before.emitted + turn.emitted, turn.pending);
      assert Run(input, max, i - 1, before.pending) == Turn(turn.emitted + rest.emitted, rest.pending);
      RunToThenRun(input, max, i - 1);
      AppendAssoc(before.emitted, turn.emitted, rest.emitted);
    }
  }

  /** The whole loop, taken in order, is `Run` from the first line. */
  lemma RunToIsRun(input: seq<Line>, max: int)
    ensures RunTo(input, max, |input|) == Run(input, max, 0, [])
  {
    RunToThenRun(input, max, |input|);
    assert RunTo(input, max, |input|).emitted + [] == RunTo(input, max, |input|).emitted;
  }

  /** The flush after the loop of `generateScreens`: a screen of whatever is left collected,
      until 5 s after its last line, or nothing. */
  function FinalFlush(pending: seq<Line>): seq<Screen> {
    if |pending| > 0 then [Regular(pending, pending[|pending| - 1].lineTimestamp + 5.0)] else []
  }

  /** `generateScreens` as a function: the loop's screens, then the final flush. */
  function ScreensOf(input: seq<Line>, max: int): seq<Screen> {
    var run := Run(input, max, 0, []);
    run.emitted + FinalFlush(run.pending)
  }

  /** The loop leaves nothing collected once it has seen a line: the last line always closes
      the collection, so the final flush after the loop never happens. */
  lemma {:induction false} RunLeavesNothing(input: seq<Line>, max: int, i: nat, pending: seq<Line>)
    requires i < |input|
    ensures Run(input, max, i, pending).pending == []
    decreases |input| - i
  {
    var turn := Step(input, max, i, pending);
    if i + 1 < |input| {
      RunLeavesNothing(input, max, i + 1, turn.pending);
    }
  }

  /** `generateScreens` never takes its final flush. */
  lemma ScreensAreRunScreens(input: seq<Line>, max: int)
    ensures Run(input, max, 0, []).pending == []
    ensures ScreensOf(input, max) == Run(input, max, 0, []).emitted
  {
    if input != [] {
      RunLeavesNothing(input, max, 0, []);
    }
  }

  /** `generateScreens([])` is `[]`. */
  lemma ScreensOfEmpty(max: int)
    ensures ScreensOf([], max) == []
  {
  }

  // ---------------------------------------------------------------------------------------
  // What the screens hold

  /** All the lines of the screens, screen after screen. */
  function LinesOf(screens: seq<Screen>): seq<Line>
    decreases |screens|
  {
    if screens == [] then [] else screens[0].lines + LinesOf(screens[1..])
  }

  lemma {:induction false} LinesOfAppend(a: seq<Screen>, b: seq<Screen>)
    ensures LinesOf(a + b) == LinesOf(a) + LinesOf(b)
    decreases |a|
  {
    if a == [] {
      assert a + b == b;
    } else {
      assert (a + b)[1..] == a[1..] + b;
      LinesOfAppend(a[1..], b);
      AppendAssoc(a[0].lines, LinesOf(a[1..]), LinesOf(b));
    }
  }

  /** The line itself unless it is blank. */
  function KeptLine(line: Line): seq<Line> {
    if IsBlank(line) then [] else [line]
  }

  /** The non-blank lines from position i on, in input order. */
  function NonBlankFrom(input: seq<Line>, i: nat): seq<Line>
    requires i <= |input|
    decreases |input| - i
  {
    if i == |input| then [] else KeptLine(input[i]) + NonBlankFrom(input, i + 1)
  }

  /** One turn loses no line and adds none: the lines it pushes, then those it leaves
      collected, are the lines collected before followed by its own line unless blank. */
  lemma StepCovers(input: seq<Line>, max: int, i: nat, pending: seq<Line>)
    requires i < |input|
    ensures LinesOf(Step(input, max, i, pending).emitted) + Step(input, max, i, pending).pending
            == pending + KeptLine(input[i])
  {
    var line := input[i];
    var turn := Step(input, max, i, pending);
    if IsInstrumental(line) {
      InstrumentalNotBlankLine(line);
      var flushed := if pending == [] then [] else [Regular(pending, line.lineTimestamp)];
      var endTime := if i < |input| - 1 then input[i + 1].lineTimestamp else line.lineTimestamp + 5.0;
      var screen := Screen([line], line.lineTimestamp, endTime, true);
      LinesOfAppend(flushed, [screen]);
      LinesOfOne(screen);
      if pending != [] {
        LinesOfOne(Regular(pending, line.lineTimestamp));
      }
      assert turn.emitted == flushed + [screen];
    } else if IsBlank(line) {
      assert KeptLine(line) == [];
      if pending != [] {
        LinesOfOne(turn.emitted[0]);
        assert turn.emitted == [turn.emitted[0]] && turn.emitted[0].lines == pending;
      }
    } else {
      assert KeptLine(line) == [line];
      var collected := pending + [line];
      if |collected| >= max || i == |input| - 1 {
        LinesOfOne(turn.emitted[0]);
        assert turn.emitted == [turn.emitted[0]] && turn.emitted[0].lines == collected;
      } else {
        assert turn == Turn([], collected);
      }
    }
  }

  lemma LinesOfOne(screen: Screen)
    ensures LinesOf([screen]) == screen.lines
  {
    assert [screen][1..] == [];
  }

  /** The turns from line i on lose no line and add none. */
  lemma {:induction false} RunCovers(input: seq<Line>, max: int, i: nat, pending: seq<Line>)
    requires i <= |input|
    ensures LinesOf(Run(input, max, i, pending).emitted) + Run(input, max, i, pending).pending
            == pending + NonBlankFrom(input, i)
    decreases |input| - i
  {
    if i < |input| {
      var turn := Step(input, max, i, pending);
      var rest := Run(input, max, i + 1, turn.pending);
      StepCovers(input, max, i, pending);
      RunCovers(input, max, i + 1, turn.pending);
      LinesOfAppend(turn.emitted, rest.emitted);
      Regroup(LinesOf(turn.emitted), turn.pending, LinesOf(rest.emitted), rest.pending,
              pending, KeptLine(input[i]), NonBlankFrom(input, i + 1));
    }
  }

  /** The sequence algebra of one turn followed by the rest of the run. */
  lemma Regroup<T>(pushed: seq<T>, left: seq<T>, later: seq<T>, final: seq<T>,
                   before: seq<T>, kept: seq<T>, rest: seq<T>)
    requires pushed + left == before + kept
    requires later + final == left + rest
    ensures (pushed + later) + final == before + (kept + rest)
  {
    calc {
      (pushed + later) + final;
      { AppendAssoc(pushed, later, final); }
      pushed + (left + rest);
      { AppendAssoc(pushed, left, rest); }
      (before + kept) + rest;
      { AppendAssoc(before, kept, rest); }
      before + (kept + rest);
    }
  }

  /** Coverage and order: the screens hold, one after the other, exactly the non-blank input
      lines in input order; blank lines are in no screen. */
  lemma ScreensCover(input: seq<Line>, max: int)
    ensures LinesOf(ScreensOf(input, max)) == NonBlankFrom(input, 0)
  {
    ScreensAreRunScreens(input, max);
    RunCovers(input, max, 0, []);
    var run := Run(input, max, 0, []);
    assert LinesOf(run.emitted) + [] == LinesOf(run.emitted);
    assert [] + NonBlankFrom(input, 0) == NonBlankFrom(input, 0);
  }

  /** A screen holds at least one line and at most `maxLinesPerScreen` of them (one when that
      is below 1). */
  function Cap(max: int): nat {
    if max >= 1 then max else 1
  }

  /** Lines of a regular screen: neither instrumental nor blank. */
  predicate Plain(lines: seq<Line>) {
    forall k :: 0 <= k < |lines| ==> !IsInstrumental(lines[k]) && !IsBlank(lines[k])
  }

  /** The shape of every screen: lines, starting at the first line's time; an instrumental
      screen is that one instrumental line, a regular one has at most `Cap(max)` plain lines. */
  predicate Shaped(screen: Screen, max: int) {
    && screen.lines != []
    && screen.startTime == screen.lines[0].lineTimestamp
    && (screen.isInstrumental ==> |screen.lines| == 1 && IsInstrumental(screen.lines[0]))
    && (!screen.isInstrumental ==> |screen.lines| <= Cap(max) && Plain(screen.lines))
  }

  predicate AllShaped(screens: seq<Screen>, max: int) {
    forall k :: 0 <= k < |screens| ==> Shaped(screens[k], max)
  }

  /** What the loop keeps collected: fewer lines than the cap, all plain. */
  predicate PendingOk(pending: seq<Line>, max: int) {
    |pending| < Cap(max) && Plain(pending)
  }

  lemma StepShaped(input: seq<Line>, max: int, i: nat, pending: seq<Line>)
    requires i < |input| && PendingOk(pending, max)
    ensures AllShaped(Step(input, max, i, pending).emitted, max)
    ensures PendingOk(Step(input, max, i, pending).pending, max)
  {
    var line := input[i];
    if !IsInstrumental(line) && !IsBlank(line) {
      var collected := pending + [line];
      assert Plain(collected) by {
        forall k | 0 <= k < |collected|
          ensures !IsInstrumental(collected[k]) && !IsBlank(collected[k])
        {
          if k < |pending| {
            assert collected[k] == pending[k];
          }
        }
      }
    }
  }

  lemma {:induction false} RunShaped(input: seq<Line>, max: int, i: nat, pending: seq<Line>)
    requires i <= |input| && PendingOk(pending, max)
    ensures AllShaped(Run(input, max, i, pending).emitted, max)
    ensures PendingOk(Run(input, max, i, pending).pending, max)
    decreases |input| - i
  {
    if i < |input| {
      var turn := Step(input, max, i, pending);
      StepShaped(input, max, i, pending);
      RunShaped(input, max, i + 1, turn.pending);
      var both := turn.emitted + Run(input, max, i + 1, turn.pending).emitted;
      assert AllShaped(both, max) by {
        forall k | 0 <= k < |both|
          ensures Shaped(both[k], max)
        {
          if k >= |turn.emitted| {
            assert both[k] == Run(input, max, i + 1, turn.pending).emitted[k - |turn.emitted|];
          }
        }
      }
    }
  }

  /** Every screen has 1 to `Cap(max)` lines and starts at its first line; every instrumental
      line is a screen of its own and no other screen holds an instrumental or a blank line. */
  lemma ScreensShaped(input: seq<Line>, max: int)
    ensures AllShaped(ScreensOf(input, max), max)
  {
    ScreensAreRunScreens(input, max);
    RunShaped(input, max, 0, []);
  }

  /** A line held by the lines of some screens is held by one of the screens. */
  lemma {:induction false} InSomeScreen(screens: seq<Screen>, line: Line)
    requires line in LinesOf(screens)
    ensures exists k :: 0 <= k < |screens| && line in screens[k].lines
    decreases |screens|
  {
    if line !in screens[0].lines {
      InSomeScreen(screens[1..], line);
      var k :| 0 <= k < |screens[1..]| && line in screens[1..][k].lines;
      assert line in screens[k + 1].lines;
    }
  }

  /** A non-blank line at or after i is among the non-blank lines from i on. */
  lemma {:induction false} NonBlankHolds(input: seq<Line>, i: nat, j: nat)
    requires i <= j < |input| && !IsBlank(input[j])
    ensures input[j] in NonBlankFrom(input, i)
    decreases j - i
  {
    if i < j {
      NonBlankHolds(input, i + 1, j);
    }
  }

  /** Every instrumental line of the input is shown on a screen of its own: an instrumental
      screen holding that one line and starting at its time. */
  lemma InstrumentalAlone(input: seq<Line>, max: int, j: nat)
    requires j < |input| && IsInstrumental(input[j])
    ensures exists k :: 0 <= k < |ScreensOf(input, max)|
                        && ScreensOf(input, max)[k].isInstrumental
                        && ScreensOf(input, max)[k].lines == [input[j]]
                        && ScreensOf(input, max)[k].startTime == input[j].lineTimestamp
  {
    var screens := ScreensOf(input, max);
    InstrumentalNotBlankLine(input[j]);
    NonBlankHolds(input, 0, j);
    ScreensCover(input, max);
    ScreensShaped(input, max);
    InSomeScreen(screens, input[j]);
    var k :| 0 <= k < |screens| && input[j] in screens[k].lines;
    assert Shaped(screens[k], max);
    var m :| 0 <= m < |screens[k].lines| && screens[k].lines[m] == input[j];
    assert screens[k].lines == [screens[k].lines[0]];
  }

  /** When the last line is not blank, the last screen holds it and ends 5 s after it. */
  lemma EndPadded(input: seq<Line>, max: int)
    requires input != [] && !IsBlank(input[|input| - 1])
    ensures var screens := ScreensOf(input, max);
            && screens != []
            && var last := screens[|screens| - 1];
            && last.lines != [] && last.lines[|last.lines| - 1] == input[|input| - 1]
            && last.endTime == input[|input| - 1].lineTimestamp + 5.0
  {
    var n := |input|;
    var before := RunTo(input, max, n - 1);
    var turn := Step(input, max, n - 1, before.pending);
    RunToIsRun(input, max);
    ScreensAreRunScreens(input, max);
    assert ScreensOf(input, max) == before.emitted + turn.emitted;
    var line := input[n - 1];
    if IsInstrumental(line) {
      var flushed := if before.pending == [] then [] else [Regular(before.pending, line.lineTimestamp)];
      assert turn.emitted == flushed + [Screen([line], line.lineTimestamp, line.lineTimestamp + 5.0, true)];
    } else {
      var collected := before.pending + [line];
      assert turn.emitted == [Regular(collected, line.lineTimestamp + 5.0)];
    }
  }

  // ---------------------------------------------------------------------------------------
  // Screen times

  /** Lines in non-decreasing time order, as an LRC file lists them. */
  predicate SortedLines(input: seq<Line>) {
    forall j, k :: 0 <= j < k < |input| ==> input[j].lineTimestamp <= input[k].lineTimestamp
  }

  /** Every screen ends no earlier than it starts, and no later than any later screen
      starts. */
  predicate Ordered(screens: seq<Screen>) {
    && (forall k :: 0 <= k < |screens| ==> screens[k].startTime <= screens[k].endTime)
    && (forall j, k :: 0 <= j < k < |screens| ==> screens[j].endTime <= screens[k].startTime)
  }

  /** No non-blank line from position i on starts before t. */
  predicate NothingBefore(input: seq<Line>, i: nat, t: real) {
    forall j :: i <= j < |input| && !IsBlank(input[j]) ==> t <= input[j].lineTimestamp
  }

  /** When no line still to come, and no line collected first, starts before t, no screen
      of the run starts before t. */
  lemma {:induction false} RunStartsAfter(input: seq<Line>, max: int, i: nat, pending: seq<Line>, t: real)
    requires i <= |input| && NothingBefore(input, i, t) && (pending != [] ==> t <= pending[0].lineTimestamp)
    ensures forall k :: 0 <= k < |Run(input, max, i, pending).emitted| ==>
              t <= Run(input, max, i, pending).emitted[k].startTime
    decreases |input| - i
  {
    if i < |input| {
      var turn := Step(input, max, i, pending);
      var line := input[i];
      if IsInstrumental(line) {
        InstrumentalNotBlankLine(line);
      }
      assert forall k :: 0 <= k < |turn.emitted| ==> t <= turn.emitted[k].startTime;
      RunStartsAfter(input, max, i + 1, turn.pending, t);
      var rest := Run(input, max, i + 1, turn.pending).emitted;
      forall k | 0 <= k < |turn.emitted + rest|
        ensures t <= (turn.emitted + rest)[k].startTime
      {
        if k >= |turn.emitted| {
          assert (turn.emitted + rest)[k] == rest[k - |turn.emitted|];
        }
      }
    }
  }

  /** What the loop keeps collected lies before what is still to come: its first line is
      its earliest and no later than any input line from i on. */
  predicate PendingBefore(input: seq<Line>, i: nat, pending: seq<Line>) {
    pending != [] ==>
      && (forall m :: 0 <= m < |pending| ==> pending[0].lineTimestamp <= pending[m].lineTimestamp)
      && (forall j :: i <= j < |input| ==> pending[0].lineTimestamp <= input[j].lineTimestamp)
  }

  lemma StepOrdered(input: seq<Line>, max: int, i: nat, pending: seq<Line>)
    requires i < |input| && SortedLines(input) && PendingBefore(input, i, pending)
    ensures Ordered(Step(input, max, i, pending).emitted)
    ensures PendingBefore(input, i + 1, Step(input, max, i, pending).pending)
    ensures var turn := Step(input, max, i, pending);
            turn.emitted != [] ==>
              turn.pending == [] && NothingBefore(input, i + 1, turn.emitted[|turn.emitted| - 1].endTime)
  {
    var line := input[i];
    var turn := Step(input, max, i, pending);
    if IsInstrumental(line) {
    } else if IsBlank(line) {
      if pending != [] {
        var next := FirstNonBlank(input, i + 1);
        FirstNonBlankSkipsBlank(input, i + 1);
        var endTime := turn.emitted[0].endTime;
        forall j | i + 1 <= j < |input| && !IsBlank(input[j])
          ensures endTime <= input[j].lineTimestamp
        {
          assert next <= j && endTime == input[next].lineTimestamp;
        }
      }
    } else {
      var collected := pending + [line];
      if |collected| >= max || i == |input| - 1 {
      } else {
        assert PendingBefore(input, i + 1, collected) by {
          forall m | 0 <= m < |collected|
            ensures collected[0].lineTimestamp <= collected[m].lineTimestamp
          {
            if pending != [] && m < |pending| {
              assert collected[m] == pending[m];
            }
          }
        }
      }
    }
  }

  lemma OrderedAppend(a: seq<Screen>, b: seq<Screen>)
    requires Ordered(a) && Ordered(b)
    requires a != [] && b != [] ==> a[|a| - 1].endTime <= b[0].startTime
    ensures Ordered(a + b)
  {
    forall j, k | 0 <= j < k < |a + b|
      ensures (a + b)[j].endTime <= (a + b)[k].startTime
    {
      OrderedAppendPair(a, b, j, k);
    }
    forall k | 0 <= k < |a + b|
      ensures (a + b)[k].startTime <= (a + b)[k].endTime
    {
      if k < |a| {
        assert (a + b)[k] == a[k];
      } else {
        assert (a + b)[k] == b[k - |a|];
      }
    }
  }

  lemma OrderedAppendPair(a: seq<Screen>, b: seq<Screen>, j: nat, k: nat)
    requires Ordered(a) && Ordered(b)
    requires a != [] && b != [] ==> a[|a| - 1].endTime <= b[0].startTime
    requires j < k < |a + b|
    ensures (a + b)[j].endTime <= (a + b)[k].startTime
  {
    if k < |a| {
      assert (a + b)[j] == a[j] && (a + b)[k] == a[k];
    } else if j >= |a| {
      assert (a + b)[j] == b[j - |a|] && (a + b)[k] == b[k - |a|];
    } else {
      var last := |a| - 1;
      assert (a + b)[j] == a[j] && (a + b)[k] == b[k - |a|];
      assert a[j].endTime <= a[last].endTime by {
        if j < last {
          assert a[j].endTime <= a[last].startTime;
        }
      }
      assert b[0].startTime <= b[k - |a|].startTime by {
        if k - |a| > 0 {
          assert b[0].endTime <= b[k - |a|].startTime;
        }
      }
    }
  }

  lemma {:induction false} RunOrdered(input: seq<Line>, max: int, i: nat, pending: seq<Line>)
    requires i <= |input| && SortedLines(input) && PendingBefore(input, i, pending)
    ensures Ordered(Run(input, max, i, pending).emitted)
    decreases |input| - i
  {
    if i < |input| {
      var turn := Step(input, max, i, pending);
      StepOrdered(input, max, i, pending);
      RunOrdered(input, max, i + 1, turn.pending);
      var rest := Run(input, max, i + 1, turn.pending).emitted;
      if turn.emitted != [] {
        RunStartsAfter(input, max, i + 1, turn.pending, turn.emitted[|turn.emitted| - 1].endTime);
      }
      OrderedAppend(turn.emitted, rest);
    }
  }

  /** For lines in time order, every screen starts no later than it ends and ends no later
      than the next screen starts. */
  lemma ScreensOrdered(input: seq<Line>, max: int)
    requires SortedLines(input)
    ensures Ordered(ScreensOf(input, max))
  {
    ScreensAreRunScreens(input, max);
    RunOrdered(input, max, 0, []);
  }

  /** Each screen ends where the next one starts. */
  ghost predicate Contiguous(screens: seq<Screen>) {
    forall j, k :: 0 <= j < k < |screens| && k == j + 1 ==> screens[j].endTime == screens[k].startTime
  }

  /** Where the first screen of a run starts: at the first line collected before it, or, with
      nothing collected, at the first non-blank line from i on (which then exists). */
  lemma {:induction false} RunFirst(input: seq<Line>, max: int, i: nat, pending: seq<Line>)
    requires i <= |input|
    ensures var screens := Run(input, max, i, pending).emitted;
            var next := FirstNonBlank(input, i);
            screens != [] ==>
              && (pending != [] ==> screens[0].startTime == pending[0].lineTimestamp)
              && (pending == [] ==> next < |input| && screens[0].startTime == input[next].lineTimestamp)
    decreases |input| - i
  {
    if i < |input| {
      var line := input[i];
      var turn := Step(input, max, i, pending);
      RunFirst(input, max, i + 1, turn.pending);
      if IsInstrumental(line) {
        InstrumentalNotBlankLine(line);
      } else if !IsBlank(line) {
        assert (pending + [line])[0] == if pending != [] then pending[0] else line;
      }
    }
  }

  /** A turn at a non-blank line pushes contiguous screens; when it pushes any, it keeps
      nothing collected, and the last of them ends at the next line's time. */
  lemma StepContiguous(input: seq<Line>, max: int, i: nat, pending: seq<Line>)
    requires i < |input| && !IsBlank(input[i])
    ensures var turn := Step(input, max, i, pending);
            && Contiguous(turn.emitted)
            && (turn.emitted != [] ==>
                  && turn.pending == []
                  && (i + 1 < |input| ==> turn.emitted[|turn.emitted| - 1].endTime == input[i + 1].lineTimestamp))
  {
  }

  /** Two contiguous runs of screens, the first ending where the second starts, are contiguous
      together. */
  lemma ContiguousAppend(a: seq<Screen>, b: seq<Screen>)
    requires Contiguous(a) && Contiguous(b)
    requires a != [] && b != [] ==> a[|a| - 1].endTime == b[0].startTime
    ensures Contiguous(a + b)
  {
    forall j, k | 0 <= j < k < |a + b| && k == j + 1
      ensures (a + b)[j].endTime == (a + b)[k].startTime
    {
      if k < |a| {
        assert (a + b)[j] == a[j] && (a + b)[k] == a[k];
      } else if j >= |a| {
        assert (a + b)[j] == b[j - |a|] && (a + b)[k] == b[k - |a|];
      } else {
        assert (a + b)[j] == a[|a| - 1] && (a + b)[k] == b[0];
      }
    }
  }

  /** Without blank lines from i on, the turns from i on push contiguous screens. */
  lemma {:induction false} RunContiguous(input: seq<Line>, max: int, i: nat, pending: seq<Line>)
    requires i <= |input| && forall j :: i <= j < |input| ==> !IsBlank(input[j])
    ensures Contiguous(Run(input, max, i, pending).emitted)
    decreases |input| - i
  {
    if i < |input| {
      var turn := Step(input, max, i, pending);
      var rest := Run(input, max, i + 1, turn.pending).emitted;
      StepContiguous(input, max, i, pending);
      RunContiguous(input, max, i + 1, turn.pending);
      RunFirst(input, max, i + 1, turn.pending);
      if turn.emitted != [] && rest != [] {
        assert i + 1 < |input| && FirstNonBlank(input, i + 1) == i + 1;
      }
      ContiguousAppend(turn.emitted, rest);
    }
  }

  /** For lyrics without blank lines, every screen ends exactly where the next one starts. */
  lemma ScreensContiguous(input: seq<Line>, max: int)
    requires forall j :: 0 <= j < |input| ==> !IsBlank(input[j])
    ensures forall k :: 0 <= k && k + 1 < |ScreensOf(input, max)| ==>
              ScreensOf(input, max)[k].endTime == ScreensOf(input, max)[k + 1].startTime
  {
    ScreensAreRunScreens(input, max);
    RunContiguous(input, max, 0, []);
  }

  /** The turn at a blank line pushes that screen and leaves nothing collected. */
  lemma BlankTurn(input: seq<Line>, max: int, i: nat)
    requires i < |input| && IsBlank(input[i]) && RunTo(input, max, i).pending != []
    ensures RunTo(input, max, i + 1)
            == Turn(RunTo(input, max, i).emitted + [BlankClosed(input, RunTo(input, max, i).pending, i)], [])
  {
    if IsInstrumental(input[i]) {
      InstrumentalNotBlankLine(input[i]);
    }
  }

  /** A blank line closes the lines collected before it into a screen of their own, which ends
      at the next non-blank line's time, or 5 s after its last line when none follows; the
      screen after it, if any, starts at that next non-blank line. */
  lemma BlankBreak(input: seq<Line>, max: int, i: nat)
    requires i < |input| && IsBlank(input[i]) && RunTo(input, max, i).pending != []
    ensures var pending := RunTo(input, max, i).pending;
            var next := FirstNonBlank(input, i + 1);
            var screens := ScreensOf(input, max);
            exists k :: 0 <= k < |screens|
                        && screens[k].lines == pending
                        && screens[k].endTime == (if next < |input| then input[next].lineTimestamp
                                                  else pending[|pending| - 1].lineTimestamp + 5.0)
                        && (k + 1 < |screens| ==> next < |input| && screens[k + 1].startTime == input[next].lineTimestamp)
  {
    var before := RunTo(input, max, i);
    var closed := BlankClosed(input, before.pending, i);
    BlankTurn(input, max, i);
    var rest := Run(input, max, i + 1, []).emitted;
    RunToThenRun(input, max, i + 1);
    ScreensAreRunScreens(input, max);
    RunFirst(input, max, i + 1, []);
    var screens := ScreensOf(input, max);
    assert screens == (before.emitted + [closed]) + rest;
    AppendAssoc(before.emitted, [closed], rest);
    var k := |before.emitted|;
    assert screens[k] == closed;
    if k + 1 < |screens| {
      assert screens[k + 1] == rest[0];
    }
  }

  // ---------------------------------------------------------------------------------------
  // getScreenAtTime

  /** The half-open span `[startTime, endTime)` of the screen holds `time`. */
  predicate Covers(screen: Screen, time: real) {
    screen.startTime <= time < screen.endTime
  }

  /** The `findIndex` of the first screen from i on that holds `time`, or the length. */
  function FirstCovering(screens: seq<Screen>, time: real, i: nat): (k: nat)
    requires i <= |screens|
    ensures i <= k <= |screens|
    ensures k < |screens| ==> Covers(screens[k], time)
    ensures forall j :: i <= j < k ==> !Covers(screens[j], time)
    decreases |screens| - i
  {
    if i == |screens| || Covers(screens[i], time) then i else FirstCovering(screens, time, i + 1)
  }

  /** A position with the two properties of `FirstCovering` is `FirstCovering`. */
  lemma FirstCoveringUnique(screens: seq<Screen>, time: real, k: nat)
    requires k <= |screens| && (k < |screens| ==> Covers(screens[k], time))
    requires forall j :: 0 <= j < k ==> !Covers(screens[j], time)
    ensures k == FirstCovering(screens, time, 0)
  {
  }

  /** Screens in time order hold any time in at most one of them: no screen after one that
      holds it holds it too. */
  lemma CoveringUnique(screens: seq<Screen>, time: real, j: nat, k: nat)
    requires Ordered(screens) && j < k < |screens| && Covers(screens[j], time)
    ensures !Covers(screens[k], time)
  {
    assert screens[j].endTime <= screens[k].startTime;
  }

  /** A word of a screen: the index of its line in the screen and its index in the line. */
  datatype WordPos = WordPos(line: nat, word: nat)

  /** The state of the scan: `latestTime` and where the word it came from stands. */
  datatype Latest = Latest(time: real, at: Option<WordPos>)

  predicate ValidPos(lines: seq<Line>, p: WordPos) {
    p.line < |lines| && p.word < |lines[p.line].words|
  }

  function TimeAt(lines: seq<Line>, p: WordPos): real
    requires ValidPos(lines, p)
  {
    lines[p.line].words[p.word].timestamp
  }

  /** p comes before q in the scan's reading order: line by line, word by word. */
  predicate Before(p: WordPos, q: WordPos) {
    p.line < q.line || (p.line == q.line && p.word < q.word)
  }

  /** A word the scan can pick at `time`: it has started, and it started after -1 (the
      initial `latestTime`). */
  predicate Started(lines: seq<Line>, p: WordPos, time: real) {
    ValidPos(lines, p) && -1.0 < TimeAt(lines, p) <= time
  }

  /** One word of the scan: it becomes the latest when it has started and started strictly
      later than the latest so far. */
  function Consider(acc: Latest, word: Word, p: WordPos, time: real): Latest {
    if word.timestamp <= time && word.timestamp > acc.time then Latest(word.timestamp, Some(p)) else acc
  }

  /** The nested `forEach` over the screen's lines and their words, from word wi of line li
      on. */
  function Scan(lines: seq<Line>, time: real, li: nat, wi: nat, acc: Latest): (r: Latest)
    requires li <= |lines| && (li < |lines| ==> wi <= |lines[li].words|)
    requires acc.at.Some? ==> ValidPos(lines, acc.at.value)
    ensures r.at.Some? ==> ValidPos(lines, r.at.value)
    decreases |lines| - li, if li < |lines| then |lines[li].words| - wi else 0
  {
    if li == |lines| then acc
    else if wi == |lines[li].words| then Scan(lines, time, li + 1, 0, acc)
    else Scan(lines, time, li, wi + 1, Consider(acc, lines[li].words[wi], WordPos(li, wi), time))
  }

  /** What the scan state means once it has passed every word before position q: no word
      before q has started, or `at` is a started word before q with the latest time among
      them, and every started word before it started strictly earlier. */
  ghost predicate Tracks(lines: seq<Line>, time: real, acc: Latest, q: WordPos) {
    match acc.at
    case None =>
      acc.time == -1.0 && forall p :: Started(lines, p, time) ==> !Before(p, q)
    case Some(p) =>
      && Started(lines, p, time) && Before(p, q) && acc.time == TimeAt(lines, p)
      && (forall o :: Started(lines, o, time) && Before(o, q) ==> TimeAt(lines, o) <= acc.time)
      && (forall o :: Started(lines, o, time) && Before(o, p) ==> TimeAt(lines, o) < acc.time)
  }

  /** One word of the scan keeps the meaning of its state. */
  lemma ConsiderTracks(lines: seq<Line>, time: real, li: nat, wi: nat, acc: Latest)
    requires li < |lines| && wi < |lines[li].words| && Tracks(lines, time, acc, WordPos(li, wi))
    ensures Tracks(lines, time, Consider(acc, lines[li].words[wi], WordPos(li, wi), time), WordPos(li, wi + 1))
  {
    var here := WordPos(li, wi);
    var next := WordPos(li, wi + 1);
    var acc' := Consider(acc, lines[li].words[wi], here, time);
    assert forall o :: Before(o, next) ==> Before(o, here) || o == here;
    if acc'.at == Some(here) {
      assert acc.at.Some? ==> Before(acc.at.value, here);
      forall o | Started(lines, o, time) && Before(o, next)
        ensures TimeAt(lines, o) <= acc'.time
        ensures Before(o, here) ==> TimeAt(lines, o) < acc'.time
      {
      }
    } else if acc.at.Some? {
      var p := acc.at.value;
      assert Before(p, next);
    }
  }

  /** Passing from the end of one line to the start of the next passes no word. */
  lemma NextLineTracks(lines: seq<Line>, time: real, li: nat, acc: Latest)
    requires li < |lines| && Tracks(lines, time, acc, WordPos(li, |lines[li].words|))
    ensures Tracks(lines, time, acc, WordPos(li + 1, 0))
  {
    var q := WordPos(li, |lines[li].words|);
    var q' := WordPos(li + 1, 0);
    assert forall o :: ValidPos(lines, o) ==> (Before(o, q) <==> Before(o, q'));
  }

  lemma {:induction false} ScanTracks(lines: seq<Line>, time: real, li: nat, wi: nat, acc: Latest)
    requires li <= |lines| && (li < |lines| ==> wi <= |lines[li].words|)
    requires acc.at.Some? ==> ValidPos(lines, acc.at.value)
    requires Tracks(lines, time, acc, WordPos(li, wi))
    ensures Tracks(lines, time, Scan(lines, time, li, wi, acc), WordPos(|lines|, 0))
    decreases |lines| - li, if li < |lines| then |lines[li].words| - wi else 0
  {
    if li == |lines| {
      assert forall o :: ValidPos(lines, o) ==> Before(o, WordPos(li, wi)) && Before(o, WordPos(|lines|, 0));
    } else if wi == |lines[li].words| {
      NextLineTracks(lines, time, li, acc);
      ScanTracks(lines, time, li + 1, 0, acc);
    } else {
      ConsiderTracks(lines, time, li, wi, acc);
      ScanTracks(lines, time, li, wi + 1, Consider(acc, lines[li].words[wi], WordPos(li, wi), time));
    }
  }

  /** The scan finds no word exactly when no word of the screen has started (after -1);
      otherwise it finds a started word with the latest time of them all, and of the words
      with that time the first in reading order. */
  lemma ScanMeaning(lines: seq<Line>, time: real)
    ensures var r := Scan(lines, time, 0, 0, Latest(-1.0, None));
            && (r.at.None? <==> forall p :: !Started(lines, p, time))
            && (r.at.Some? ==>
                  var p := r.at.value;
                  && Started(lines, p, time) && r.time == TimeAt(lines, p)
                  && (forall o :: Started(lines, o, time) ==> TimeAt(lines, o) <= TimeAt(lines, p))
                  && (forall o :: Started(lines, o, time) && Before(o, p) ==> TimeAt(lines, o) < TimeAt(lines, p)))
  {
    if lines != [] {
      ScanTracks(lines, time, 0, 0, Latest(-1.0, None));
    }
    assert forall o :: ValidPos(lines, o) ==> Before(o, WordPos(|lines|, 0));
  }

  /** The first word time of the first line from `from` on that has words, if any (the
      `for` loop over the later lines of the screen). */
  function NextInLines(lines: seq<Line>, from: nat): Option<real>
    requires from <= |lines|
    decreases |lines| - from
  {
    if from == |lines| then None
    else if |lines[from].words| > 0 then Some(lines[from].words[0].timestamp)
    else NextInLines(lines, from + 1)
  }

  /** The later-lines search finds nothing exactly when no line from `from` on has a word;
      otherwise it gives the first word time of the first such line. */
  lemma {:induction false} NextInLinesMeaning(lines: seq<Line>, from: nat)
    requires from <= |lines|
    ensures NextInLines(lines, from).None? <==> forall m :: from <= m < |lines| ==> lines[m].words == []
    ensures NextInLines(lines, from).Some? ==>
              exists m :: from <= m < |lines| && lines[m].words != []
                          && (forall n :: from <= n < m ==> lines[n].words == [])
                          && NextInLines(lines, from).value == lines[m].words[0].timestamp
    decreases |lines| - from
  {
    if from < |lines| {
      NextInLinesMeaning(lines, from + 1);
      if lines[from].words == [] && NextInLines(lines, from + 1).Some? {
        var m :| from + 1 <= m < |lines| && lines[m].words != []
                 && (forall n :: from + 1 <= n < m ==> lines[n].words == [])
                 && NextInLines(lines, from + 1).value == lines[m].words[0].timestamp;
        assert forall n :: from <= n < m ==> lines[n].words == [];
      }
    }
  }

  /** Every screen holds a line, as `generateScreens` makes them (`ScreensShaped`); the
      next-screen lookup reads `lines[0]`. */
  predicate WellFormed(screens: seq<Screen>) {
    forall k :: 0 <= k < |screens| ==> screens[k].lines != []
  }

  /** `nextWordTime`: the next word of the same line; else the first word of the first later
      line of the screen that has words; and when that finds nothing truthy (null, or a time
      of 0), the first word of the next screen's first line if it has one. */
  function NextWordTime(screens: seq<Screen>, si: nat, p: WordPos): Option<real>
    requires WellFormed(screens) && si < |screens| && ValidPos(screens[si].lines, p)
  {
    var lines := screens[si].lines;
    var words := lines[p.line].words;
    if p.word < |words| - 1 then Some(words[p.word + 1].timestamp)
    else
      var inScreen := NextInLines(lines, p.line + 1);
      if !Truthy(inScreen) && si < |screens| - 1 && |screens[si + 1].lines[0].words| > 0 then
        Some(screens[si + 1].lines[0].words[0].timestamp)
      else inScreen
  }

  /** The highlighted word's duration: up to the next word time, 0.5 s without one, and
      always clamped to [0.1, 5]. */
  function WordSpan(next: Option<real>, timestamp: real): (d: real)
    ensures 0.1 <= d <= 5.0
    ensures next.None? ==> d == 0.5
    ensures next.Some? && 0.1 <= next.value - timestamp <= 5.0 ==> d == next.value - timestamp
    ensures next.Some? && next.value - timestamp < 0.1 ==> d == 0.1
    ensures next.Some? && next.value - timestamp > 5.0 ==> d == 5.0
  {
    var duration := if next.Some? then next.value - timestamp else 0.5;
    Max(0.1, Min(duration, 5.0))
  }

  /** `getScreenAtTime` as a function. */
  function ScreenAtTime(screens: seq<Screen>, time: real): Option<ScreenState>
    requires WellFormed(screens)
  {
    if time <= 0.0 && |screens| > 0 then Some(ScreenState(screens[0], 0, -1, None, 0.0))
    else
      var si := FirstCovering(screens, time, 0);
      if si == |screens| then None
      else
        var screen := screens[si];
        var progress := if screen.isInstrumental then (time - screen.startTime) / (screen.endTime - screen.startTime)
                        else 0.0;
        match Scan(screen.lines, time, 0, 0, Latest(-1.0, None)).at
        case None => Some(ScreenState(screen, si, -1, None, progress))
        case Some(p) =>
          var word := screen.lines[p.line].words[p.word];
          var duration := WordSpan(NextWordTime(screens, si, p), word.timestamp);
          Some(ScreenState(screen, si, p.line, Some(WordAt(word.text, word.timestamp, p.word, duration)), progress))
  }

  lemma FractionBelowOne(a: real, b: real)
    requires 0.0 <= a < b
    ensures 0.0 <= a / b < 1.0
  {
    var q := a / b;
    assert q * b == a;
    assert (1.0 - q) * b == b - a;
  }

  /** Pre-roll: at or before 0 the first screen, with no line, no word and no progress. */
  lemma ScreenAtTimePreRoll(screens: seq<Screen>, time: real)
    requires WellFormed(screens) && time <= 0.0 && screens != []
    ensures ScreenAtTime(screens, time) == Some(ScreenState(screens[0], 0, -1, None, 0.0))
  {
  }

  /** Past the pre-roll, the query finds nothing exactly when no screen's span holds the time;
      otherwise it reports the first screen that holds it; a word exactly when one of the
      screen's words has started, and then the latest-started one (the first scanned of
      equal times) with its own text, time and index, the index of its line, and its
      duration from the next word time clamped to [0.1, 5]; and the progress of an
      instrumental screen, which then lies in [0, 1), or 0 for other screens. */
  lemma ScreenAtTimeMeaning(screens: seq<Screen>, time: real)
    requires WellFormed(screens) && !(time <= 0.0 && screens != [])
    ensures ScreenAtTime(screens, time).None? <==> forall k :: 0 <= k < |screens| ==> !Covers(screens[k], time)
    ensures ScreenAtTime(screens, time).Some? ==>
              var st := ScreenAtTime(screens, time).value;
              var si := st.screenIndex;
              && si < |screens| && st.screen == screens[si] && Covers(screens[si], time)
              && (forall j :: 0 <= j < si ==> !Covers(screens[j], time))
              && (screens[si].isInstrumental ==> 0.0 <= st.progress < 1.0)
              && (!screens[si].isInstrumental ==> st.progress == 0.0)
              && (st.currentWord.None? <==> forall p :: !Started(screens[si].lines, p, time))
              && (st.currentWord.None? ==> st.currentLineIndex == -1)
              && (st.currentWord.Some? ==>
                    var w := st.currentWord.value;
                    var lines := screens[si].lines;
                    && 0 <= st.currentLineIndex
                    && var p := WordPos(st.currentLineIndex, w.index);
                    && Started(lines, p, time)
                    && w.text == lines[p.line].words[p.word].text && w.timestamp == TimeAt(lines, p)
                    && (forall o :: Started(lines, o, time) ==> TimeAt(lines, o) <= w.timestamp)
                    && (forall o :: Started(lines, o, time) && Before(o, p) ==> TimeAt(lines, o) < w.timestamp)
                    && w.duration == WordSpan(NextWordTime(screens, si, p), w.timestamp)
                    && 0.1 <= w.duration <= 5.0)
  {
    var si := FirstCovering(screens, time, 0);
    if si < |screens| {
      var screen := screens[si];
      ScanMeaning(screen.lines, time);
      if screen.isInstrumental {
        FractionBelowOne(time - screen.startTime, screen.endTime - screen.startTime);
      }
    }
  }

  /** With no screens there is nothing to show, at any time. */
  lemma NoScreensNoState(time: real)
    ensures ScreenAtTime([], time).None?
  {
  }

  /** Where the scan's `currentLineIndex` and `currentWord.index` point, once it has a word. */
  function PosOf(currentLineIndex: int, currentWord: Option<WordAt>): Option<WordPos> {
    if currentWord.Some? && currentLineIndex >= 0 then Some(WordPos(currentLineIndex, currentWord.value.index))
    else None
  }

  // ---------------------------------------------------------------------------------------
  // The class

  /** `ScreenManager`: the line cap, the screens of the last `generateScreens`, and the
      current screen index, which these operations only initialise. */
  class ScreenManager {
    var maxLinesPerScreen: int
    var screens: seq<Screen>
    var currentScreenIndex: int

    /** The screens always hold lines. */
    predicate Valid()
      reads this
    {
      WellFormed(screens)
    }

    constructor(maxLinesPerScreen: int := 4)
      ensures this.maxLinesPerScreen == maxLinesPerScreen && screens == [] && currentScreenIndex == -1
      ensures Valid()
    {
      this.maxLinesPerScreen := maxLinesPerScreen;
      screens := [];
      currentScreenIndex := -1;
    }

    /** `generateScreens`: the loop of `ScreensOf`, pushing the screens of each turn as it
        goes, and the final flush of whatever is left collected. */
    method GenerateScreens(parsedLyrics: seq<Line>) returns (result: seq<Screen>)
      modifies this
      ensures screens == ScreensOf(parsedLyrics, maxLinesPerScreen) && result == screens
      ensures maxLinesPerScreen == old(maxLinesPerScreen) && currentScreenIndex == old(currentScreenIndex)
      ensures Valid()
    {
      // `this.screens = []` and the pushes, gathered in a local until the loop ends
      var generated: seq<Screen> := [];
      var currentScreen: seq<Line> := [];
      for i := 0 to |parsedLyrics|
        modifies {}
        invariant Turn(generated, currentScreen) == RunTo(parsedLyrics, maxLinesPerScreen, i)
      {
        var pushed, left := LineTurn(parsedLyrics, i, currentScreen);
        generated := generated + pushed;
        currentScreen := left;
      }
      RunToIsRun(parsedLyrics, maxLinesPerScreen);
      generated := generated + FinalFlush(currentScreen);
      screens := generated;
      result := screens;
      ScreensShaped(parsedLyrics, maxLinesPerScreen);
    }

    /** `getScreenAtTime`: the first screen at `time`, and in it the word to highlight, its
        line and how long it lasts. */
    method GetScreenAtTime(time: real) returns (r: Option<ScreenState>)
      requires Valid()
      ensures r == ScreenAtTime(screens, time)
    {
      if time <= 0.0 && |screens| > 0 {
        var firstScreen := screens[0];
        return Some(ScreenState(firstScreen, 0, -1, None, 0.0));
      }
      // `findIndex`, with the length standing for -1
      var screenIndex := 0;
      while screenIndex < |screens| && !Covers(screens[screenIndex], time)
        invariant screenIndex <= |screens|
        invariant forall j :: 0 <= j < screenIndex ==> !Covers(screens[j], time)
      {
        screenIndex := screenIndex + 1;
      }
      FirstCoveringUnique(screens, time, screenIndex);
      if screenIndex == |screens| {
        return None;
      }
      var screen := screens[screenIndex];
      var currentLineIndex: int, currentWord := LatestWord(screen.lines, time);
      if currentWord.Some? {
        var nextWordTime := NextWord(screenIndex, currentLineIndex, currentWord.value.index);
        // the word's own `duration`, copied by the spread, is overwritten here
        var duration := if nextWordTime.Some? then nextWordTime.value - currentWord.value.timestamp else 0.5;
        duration := Max(0.1, Min(duration, 5.0));
        currentWord := Some(currentWord.value.(duration := duration));
      }
      var progress := if screen.isInstrumental then (time - screen.startTime) / (screen.endTime - screen.startTime)
                      else 0.0;
      r := Some(ScreenState(screen, screenIndex, currentLineIndex, currentWord, progress));
    }

    /** The first pass of `getScreenAtTime`: the latest word of `lines` that has started by
        `time`, and its line, as the scan finds them (-1 and no word when none has). */
    method LatestWord(lines: seq<Line>, time: real) returns (currentLineIndex: int, currentWord: Option<WordAt>)
      ensures var scan := Scan(lines, time, 0, 0, Latest(-1.0, None));
              match scan.at
              case None => currentLineIndex == -1 && currentWord.None?
              case Some(p) =>
                var word := lines[p.line].words[p.word];
                currentLineIndex == p.line && currentWord == Some(WordAt(word.text, word.timestamp, p.word, 0.0))
    {
      currentLineIndex, currentWord := -1, None;
      var latestTime := -1.0;
      for lineIdx := 0 to |lines|
        invariant currentWord.None? ==> currentLineIndex == -1
        invariant currentWord.Some? ==>
                    && 0 <= currentLineIndex < lineIdx
                    && currentWord.value.index < |lines[currentLineIndex].words|
                    && currentWord.value == var word := lines[currentLineIndex].words[currentWord.value.index];
                                            WordAt(word.text, word.timestamp, currentWord.value.index, 0.0)
        invariant Scan(lines, time, lineIdx, 0, Latest(latestTime, PosOf(currentLineIndex, currentWord)))
                  == Scan(lines, time, 0, 0, Latest(-1.0, None))
      {
        var words := lines[lineIdx].words;
        for wordIdx := 0 to |words|
          invariant currentWord.None? ==> currentLineIndex == -1
          invariant currentWord.Some? ==>
                      && 0 <= currentLineIndex <= lineIdx
                      && currentWord.value.index < |lines[currentLineIndex].words|
                      && currentWord.value == var word := lines[currentLineIndex].words[currentWord.value.index];
                                              WordAt(word.text, word.timestamp, currentWord.value.index, 0.0)
          invariant Scan(lines, time, lineIdx, wordIdx, Latest(latestTime, PosOf(currentLineIndex, currentWord)))
                    == Scan(lines, time, 0, 0, Latest(-1.0, None))
        {
          var word := words[wordIdx];
          if word.timestamp <= time && word.timestamp > latestTime {
            latestTime := word.timestamp;
            currentLineIndex := lineIdx;
            currentWord := Some(WordAt(word.text, word.timestamp, wordIdx, 0.0));
          }
        }
      }
    }

    /** The next word time of `getScreenAtTime` for word `index` of line `currentLineIndex`
        of screen `screenIndex`: the rest of the line, then the later lines, then the next
        screen. */
    method NextWord(screenIndex: nat, currentLineIndex: nat, index: nat) returns (nextWordTime: Option<real>)
      requires Valid() && screenIndex < |screens|
      requires ValidPos(screens[screenIndex].lines, WordPos(currentLineIndex, index))
      ensures nextWordTime == NextWordTime(screens, screenIndex, WordPos(currentLineIndex, index))
    {
      var screen := screens[screenIndex];
      var currentLine := screen.lines[currentLineIndex];
      nextWordTime := None;
      if index < |currentLine.words| - 1 {
        nextWordTime := Some(currentLine.words[index + 1].timestamp);
      } else {
        var i := currentLineIndex + 1;
        while i < |screen.lines|
          invariant currentLineIndex + 1 <= i <= |screen.lines|
          invariant nextWordTime.None?
          invariant NextInLines(screen.lines, i) == NextInLines(screen.lines, currentLineIndex + 1)
        {
          if |screen.lines[i].words| > 0 {
            nextWordTime := Some(screen.lines[i].words[0].timestamp);
            break;
          }
          i := i + 1;
        }
        assert nextWordTime == NextInLines(screen.lines, currentLineIndex + 1);
        if !Truthy(nextWordTime) && screenIndex < |screens| - 1 {
          var nextScreen := screens[screenIndex + 1];
          if |nextScreen.lines[0].words| > 0 {
            nextWordTime := Some(nextScreen.lines[0].words[0].timestamp);
          }
        }
      }
    }

    /** The body of the loop of `generateScreens` for line i: the screens it pushes and the
        lines it leaves in `currentScreen` (whose length is `currentLineCount`). */
    method LineTurn(parsedLyrics: seq<Line>, i: nat, currentScreen: seq<Line>)
        returns (pushed: seq<Screen>, left: seq<Line>)
      requires i < |parsedLyrics|
      ensures Turn(pushed, left) == Step(parsedLyrics, maxLinesPerScreen, i, currentScreen)
    {
      var line := parsedLyrics[i];
      var isInstrumental := Contains(line.rawText, NoteMarker) || Contains(line.rawText, "INSTRUMENTAL");
      BlankIsTrimmedEmpty(line);
      pushed, left := [], currentScreen;
      if isInstrumental {
        if |left| > 0 {
          pushed := pushed + [Screen(left, left[0].lineTimestamp, line.lineTimestamp, false)];
          left := [];
        }
        var endTime := if i < |parsedLyrics| - 1 then parsedLyrics[i + 1].lineTimestamp else line.lineTimestamp + 5.0;
        pushed := pushed + [Screen([line], line.lineTimestamp, endTime, true)];
      } else if Trim(line.rawText) == [] {
        if |left| > 0 {
          var nextNonEmptyLine := FirstNonBlank(parsedLyrics, i + 1);
          var endTime := if nextNonEmptyLine < |parsedLyrics| then parsedLyrics[nextNonEmptyLine].lineTimestamp
                         else left[|left| - 1].lineTimestamp + 5.0;
          pushed := pushed + [Screen(left, left[0].lineTimestamp, endTime, false)];
          left := [];
        }
      } else {
        left := left + [line];
        if |left| >= maxLinesPerScreen || i == |parsedLyrics| - 1 {
          var endTime := if i + 1 < |parsedLyrics| then parsedLyrics[i + 1].lineTimestamp else line.lineTimestamp + 5.0;
          pushed := pushed + [Screen(left, left[0].lineTimestamp, endTime, false)];
          left := [];
        }
      }
    }
  }
}
