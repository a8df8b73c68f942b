/** The word-timed LRC parser (scripts/lrc_parser.js): lines of the form
    `[MM:SS.CC]<MM:SS.CC>word <MM:SS.CC>word ...` become line records whose words carry
    absolute timestamps in seconds, and an older time query picks the word to highlight.

    Time is exact: `real` seconds. The regular expressions of the source are written out
    as matchers over the string (`TagAt`, `WordMatchAt`, `Search`, `RunEnd`). */
module LrcFormat {
  import opened Wrappers
  import opened Text

  /** A word record. `duration` is set only on the synthetic word of an instrumental line
      (and is null there when no usable end tag exists); word-timed words have none. */
  datatype Word = Word(text: string, timestamp: real, duration: Option<real>)

  /** A line record: the time of its leading tag, its words, and their texts joined by a space. */
  datatype Line = Line(lineTimestamp: real, words: seq<Word>, rawText: string)

  /** The word a time query reports: the word's text and time, its index in its line, and
      the duration it stays highlighted. */
  datatype WordAt = WordAt(text: string, timestamp: real, index: nat, duration: real)

  /** The result of `getWordAtTime`: the word and the index of its line. */
  datatype WordHit = WordHit(word: WordAt, lineIndex: nat)

  // ---------------------------------------------------------------------------------------
  // Timestamps

  /** `MM:SS.CC` starts at position p of s (JavaScript's `\d` is an ASCII digit). */
  predicate ClockAt(s: string, p: nat) {
    p + 8 <= |s|
    && IsDigit(s[p]) && IsDigit(s[p + 1]) && s[p + 2] == ':'
    && IsDigit(s[p + 3]) && IsDigit(s[p + 4]) && s[p + 5] == '.'
    && IsDigit(s[p + 6]) && IsDigit(s[p + 7])
  }

  function TwoDigits(s: string, p: nat): nat
    requires p + 2 <= |s| && IsDigit(s[p]) && IsDigit(s[p + 1])
  {
    10 * DigitValue(s[p]) + DigitValue(s[p + 1])
  }

  /** The time a clock `MM:SS.CC` denotes: minutes*60 + seconds, with CC in hundredths. */
  function ClockSeconds(s: string, p: nat): real
    requires ClockAt(s, p)
  {
    (TwoDigits(s, p) * 60 + TwoDigits(s, p + 3)) as real + TwoDigits(s, p + 6) as real / 100.0
  }

  /** A tag `open MM:SS.CC close` starts at position p of s: `[..]` for line and end tags,
      `<..>` for word tags. */
  predicate TagAt(s: string, p: nat, open: char, close: char) {
    p + 10 <= |s| && s[p] == open && ClockAt(s, p + 1) && s[p + 9] == close
  }

  /** The text between the first and the last character (`slice(1, -1)`). */
  function Inner(t: string): string
    requires |t| >= 2
  {
    t[1..|t| - 1]
  }

  /** The strings `timestampToSeconds` reads: once the first and last character are cut
      off, a numeral, one ':' and a numeral. */
  predicate IsTimestampText(t: string) {
    |t| >= 2 && ':' in Inner(t)
    && IsNumeral(Inner(t)[..IndexOf(Inner(t), ':')])
    && IsNumeral(Inner(t)[IndexOf(Inner(t), ':') + 1..])
  }

  /** `LRCParser.timestampToSeconds`: cut off the delimiters, split at ':' and compute
      `minutes * 60 + seconds`, where `seconds` is read as a decimal number. */
  function TimestampToSeconds(t: string): (r: real)
    requires IsTimestampText(t)
    ensures r >= 0.0
  {
    var inner := Inner(t);
    var k := IndexOf(inner, ':');
    NumberValue(inner[..k]) * 60.0 + NumberValue(inner[k + 1..])
  }

  lemma IntValueOne(ds: string)
    requires |ds| == 1 && AllDigits(ds)
    ensures IntValue(ds) == DigitValue(ds[0])
  {
    assert ds[..0] == [];
  }

  lemma IntValueTwo(ds: string)
    requires |ds| == 2 && AllDigits(ds)
    ensures IntValue(ds) == 10 * DigitValue(ds[0]) + DigitValue(ds[1])
  {
    IntValueOne(ds[..1]);
  }

  lemma FracValueTwo(ds: string)
    requires |ds| == 2 && AllDigits(ds)
    ensures FracValue(ds) == (10 * DigitValue(ds[0]) + DigitValue(ds[1])) as real / 100.0
  {
    assert ds[1..][1..] == [];
  }

  /** The numeral `SS.CC` at position p of s, read by `Number`. */
  lemma SecondsNumeral(s: string, p: nat)
    requires p + 5 <= |s| && IsDigit(s[p]) && IsDigit(s[p + 1]) && s[p + 2] == '.'
    requires IsDigit(s[p + 3]) && IsDigit(s[p + 4])
    ensures IsNumeral(s[p..p + 5])
    ensures NumberValue(s[p..p + 5]) == TwoDigits(s, p) as real + TwoDigits(s, p + 3) as real / 100.0
  {
    var u := s[p..p + 5];
    IndexOfAt(u, '.', 2);
    assert u[..2] == s[p..p + 2] && u[3..] == s[p + 3..p + 5];
    IntValueTwo(u[..2]);
    FracValueTwo(u[3..]);
  }

  /** A tag's value as `timestampToSeconds` computes it is the time its clock denotes. */
  lemma {:induction false} TagSeconds(s: string, p: nat, open: char, close: char)
    requires TagAt(s, p, open, close)
    ensures IsTimestampText(s[p..p + 10])
    ensures TimestampToSeconds(s[p..p + 10]) == ClockSeconds(s, p + 1)
  {
    var inner := Inner(s[p..p + 10]);
    assert inner == s[p + 1..p + 9];
    IndexOfAt(inner, ':', 2);
    assert inner[..2] == s[p + 1..p + 3];
    assert '.' !in inner[..2];
    IntValueTwo(inner[..2]);
    assert inner[3..] == s[p + 4..p + 9];
    SecondsNumeral(s, p + 4);
  }

  /** JavaScript's `Number` truthiness is used on the end tag: a time of 0 counts as absent. */
  function Truthy(x: Option<real>): bool {
    x.Some? && x.value != 0.0
  }

  // ---------------------------------------------------------------------------------------
  // The two regular expressions

  /** `/<(\d{2}:\d{2}\.\d{2})>([^<]+)/` matches at p: a word tag followed by at least one
      character other than '<'. */
  predicate WordMatchAt(s: string, p: nat) {
    TagAt(s, p, '<', '>') && p + 10 < |s| && s[p + 10] != '<'
  }

  datatype Pattern = LineTag | WordToken

  predicate MatchAt(s: string, p: nat, pat: Pattern) {
    match pat
    case LineTag => TagAt(s, p, '[', ']')
    case WordToken => WordMatchAt(s, p)
  }

  /** Where a regular-expression search starting at `from` finds its leftmost match. */
  function Search(s: string, from: nat, pat: Pattern): (r: Option<nat>)
    requires from <= |s|
    ensures r.Some? ==> from <= r.value < |s| && MatchAt(s, r.value, pat)
    decreases |s| - from
  {
    if from == |s| then None
    else if MatchAt(s, from, pat) then Some(from)
    else Search(s, from + 1, pat)
  }

  /** The match `Search` finds is the leftmost one. */
  lemma {:induction false} SearchLeftmost(s: string, from: nat, pat: Pattern)
    requires from <= |s|
    ensures var r := Search(s, from, pat);
            forall q :: from <= q < |s| && (r.None? || q < r.value) ==> !MatchAt(s, q, pat)
    decreases |s| - from
  {
    if from < |s| && !MatchAt(s, from, pat) {
      SearchLeftmost(s, from + 1, pat);
    }
  }

  /** The end of the greedy `[^<]+` run that starts at `from`: the next '<' or the end. */
  function RunEnd(s: string, from: nat): (e: nat)
    requires from <= |s|
    ensures from <= e <= |s|
    ensures e < |s| ==> s[e] == '<'
    ensures from < |s| && s[from] != '<' ==> from < e
    decreases |s| - from
  {
    if from == |s| || s[from] == '<' then from else RunEnd(s, from + 1)
  }

  /** The time of the word token at p: the time its clock denotes, which is what
      `timestampToSeconds` computes for the whole tag `<MM:SS.CC>` (`TagSeconds`). The source
      passes the capture group `MM:SS.CC` instead, which loses its first and last digit (see
      `WordTimestampAsWritten`). */
  function WordTimestamp(s: string, p: nat): (r: real)
    requires TagAt(s, p, '<', '>')
    ensures IsTimestampText(s[p..p + 10]) && r == TimestampToSeconds(s[p..p + 10])
  {
    TagSeconds(s, p, '<', '>');
    ClockSeconds(s, p + 1)
  }

  /** The word timestamp exactly as scripts/lrc_parser.js:45 computes it:
      `timestampToSeconds(match[1])` on the capture `MM:SS.CC` without its delimiters. */
  function WordTimestampAsWritten(s: string, p: nat): real
    requires TagAt(s, p, '<', '>')
  {
    CaptureIsTimestampText(s, p);
    TimestampToSeconds(s[p + 1..p + 9])
  }

  lemma CaptureIsTimestampText(s: string, p: nat)
    requires TagAt(s, p, '<', '>')
    ensures IsTimestampText(s[p + 1..p + 9])
    ensures TimestampToSeconds(s[p + 1..p + 9])
            == (DigitValue(s[p + 2]) * 60 + TwoDigits(s, p + 4)) as real
               + DigitValue(s[p + 7]) as real / 10.0
  {
    var inner := Inner(s[p + 1..p + 9]);
    assert inner == s[p + 2..p + 8];
    IndexOfAt(inner, ':', 1);
    assert inner[..1] == s[p + 2..p + 3];
    assert '.' !in inner[..1];
    IntValueOne(inner[..1]);
    var secs := inner[2..];
    assert secs == s[p + 4..p + 8];
    IndexOfAt(secs, '.', 2);
    assert secs[..2] == s[p + 4..p + 6];
    IntValueTwo(secs[..2]);
    assert secs[3..] == s[p + 7..p + 8];
    assert secs[3..][1..] == [];
    assert FracValue(secs[3..]) == DigitValue(s[p + 7]) as real / 10.0;
  }

  /** The two disagree exactly when the tens digit of the minutes or the last hundredths
      digit is not zero. */
  lemma {:induction false} WordTimestampAsWrittenDiffers(s: string, p: nat)
    requires TagAt(s, p, '<', '>')
    ensures WordTimestampAsWritten(s, p) == WordTimestamp(s, p)
            <==> DigitValue(s[p + 1]) == 0 && DigitValue(s[p + 8]) == 0
    ensures WordTimestampAsWritten(s, p) <= WordTimestamp(s, p)
  {
    CaptureIsTimestampText(s, p);
  }

  /** `<00:01.25>` is read as 1.2 s instead of 1.25 s. */
  lemma WordTimestampAsWrittenExample(s: string)
    requires s == "<00:01.25>a"
    ensures TagAt(s, 0, '<', '>')
    ensures WordTimestampAsWritten(s, 0) == 1.2 && WordTimestamp(s, 0) == 1.25
  {
    assert s[1] == '0' && s[2] == '0' && s[4] == '0' && s[5] == '1' && s[7] == '2' && s[8] == '5';
    CaptureIsTimestampText(s, 0);
  }

  /** `<10:00.00>` is read as 0 s instead of 600 s. */
  lemma WordTimestampAsWrittenMinutes(s: string)
    requires s == "<10:00.00>a"
    ensures TagAt(s, 0, '<', '>')
    ensures WordTimestampAsWritten(s, 0) == 0.0 && WordTimestamp(s, 0) == 600.0
  {
    assert s[1] == '1' && s[2] == '0' && s[4] == '0' && s[5] == '0' && s[7] == '0' && s[8] == '0';
    CaptureIsTimestampText(s, 0);
  }

  // ---------------------------------------------------------------------------------------
  // Lines

  /** The instrumental marker as the source spells it: the UTF-8 bytes of the musical note
      U+266A read as Windows-1252 text. */
  const NoteMarker: string := "\U{E2}\U{2122}\U{AA}"

  /** The instrumental test of both source files. */
  predicate IsInstrumentalText(s: string) {
    Contains(s, NoteMarker) || Contains(s, "INSTRUMENTAL")
  }

  /** Instrumental text is never blank. */
  lemma InstrumentalNotBlank(s: string)
    requires IsInstrumentalText(s)
    ensures Trim(s) != []
  {
    if Contains(s, NoteMarker) {
      ContainsNotBlank(s, NoteMarker);
    } else {
      ContainsNotBlank(s, "INSTRUMENTAL");
    }
  }

  /** The one synthetic word of an instrumental line: the whole remainder, at the line's
      time, lasting until the first `[MM:SS.CC]` tag in the remainder when there is one (a
      tag of time 0 counts as none, like a falsy number). */
  function InstrumentalWord(rest: string, lineTimestamp: real): Word {
    var endTimestamp := EndTimestamp(rest);
    Word(rest, lineTimestamp,
         if Truthy(endTimestamp) then Some(endTimestamp.value - lineTimestamp) else None)
  }

  /** The time of the leftmost `[MM:SS.CC]` tag in `rest`, if any. */
  function EndTimestamp(rest: string): Option<real> {
    match Search(rest, 0, LineTag)
    case None => None
    case Some(q) => Some(ClockSeconds(rest, q + 1))
  }

  /** Where the word token at p ends: after its tag and the greedy `[^<]+` run (the regular
      expression's new `lastIndex`). */
  function TokenEnd(s: string, p: nat): (e: nat)
    requires WordMatchAt(s, p)
    ensures p + 10 < e <= |s|
  {
    RunEnd(s, p + 10)
  }

  /** The word the token at p yields: its trimmed run, at the tag's time, without a duration. */
  function TokenWord(s: string, p: nat): Word
    requires WordMatchAt(s, p)
  {
    Word(Trim(s[p + 10..TokenEnd(s, p)]), WordTimestamp(s, p), None)
  }

  /** The words of the word-timed remainder `s` from position `from` on, as the `exec`
      loop collects them: one per match, skipping those whose text trims to "". */
  function WordsFrom(s: string, from: nat): seq<Word>
    requires from <= |s|
    decreases |s| - from
  {
    match Search(s, from, WordToken)
    case None => []
    case Some(p) => Kept(TokenWord(s, p)) + WordsFrom(s, TokenEnd(s, p))
  }

  /** `if (word) words.push(...)`: a word whose text trimmed to "" is dropped. */
  function Kept(w: Word): seq<Word> {
    if w.text != [] then [w] else []
  }

  /** `words.map(w => w.text)`. */
  function Texts(words: seq<Word>): (r: seq<string>)
    ensures |r| == |words|
    ensures words != [] ==> r[0] == words[0].text
  {
    if words == [] then [] else [words[0].text] + Texts(words[1..])
  }

  /** `words.map(w => w.text).join(' ')`. */
  function RawText(words: seq<Word>): string {
    Join(Texts(words), " ")
  }

  /** `parseLine` as a function of the (already trimmed) line: null without a leading
      `[MM:SS.CC]`, otherwise the line record of the instrumental or the word-timed branch. */
  function ParseLineSpec(line: string): Option<Line> {
    if !TagAt(line, 0, '[', ']') then None
    else
      var lineTimestamp := ClockSeconds(line, 1);
      var words := LineWords(Trim(line[10..]), lineTimestamp);
      Some(Line(lineTimestamp, words, RawText(words)))
  }

  /** The words of a line from its trimmed remainder: one synthetic word for an instrumental
      line, otherwise the words of the word tokens. */
  function LineWords(rest: string, lineTimestamp: real): seq<Word> {
    if IsInstrumentalText(rest) then [InstrumentalWord(rest, lineTimestamp)] else WordsFrom(rest, 0)
  }

  /** The word the `exec` loop builds from the token at p is that token's word. */
  lemma TokenWordIs(s: string, p: nat, e: nat, text: string, timestamp: real)
    requires WordMatchAt(s, p)
    requires e == RunEnd(s, p + 10) && text == Trim(s[p + 10..e]) && timestamp == ClockSeconds(s, p + 1)
    ensures Word(text, timestamp, None) == TokenWord(s, p)
  {
  }

  /** One turn of the `exec` loop, in the terms the loop computes: the token's trimmed run
      and tag time, then the rest from the end of the run. */
  lemma ExecStep(s: string, from: nat, p: nat, e: nat, text: string, timestamp: real)
    requires from <= |s| && Search(s, from, WordToken) == Some(p)
    requires e == RunEnd(s, p + 10) && text == Trim(s[p + 10..e]) && timestamp == ClockSeconds(s, p + 1)
    ensures WordsFrom(s, from) == Kept(Word(text, timestamp, None)) + WordsFrom(s, e)
  {
    WordsFromStep(s, from, p);
    TokenWordIs(s, p, e, text, timestamp);
  }

  /** One turn of the `exec` loop. */
  lemma WordsFromStep(s: string, from: nat, p: nat)
    requires from <= |s| && Search(s, from, WordToken) == Some(p)
    ensures WordsFrom(s, from) == Kept(TokenWord(s, p)) + WordsFrom(s, TokenEnd(s, p))
  {
  }

  /** What the word-timed branch promises of each word it emits: a non-empty text with no
      white space at either end (so its own trim) and no '<', and no duration. */
  predicate IsTimedWord(w: Word) {
    w.text != [] && !IsWhite(w.text[0]) && !IsWhite(w.text[|w.text| - 1])
    && '<' !in w.text && w.duration.None?
  }

  predicate AllTimed(ws: seq<Word>) {
    forall k :: 0 <= k < |ws| ==> IsTimedWord(ws[k])
  }

  lemma AllTimedConcat(a: seq<Word>, b: seq<Word>)
    requires AllTimed(a) && AllTimed(b)
    ensures AllTimed(a + b)
  {
    forall k | 0 <= k < |a + b| ensures IsTimedWord((a + b)[k]) {
      if k >= |a| { assert (a + b)[k] == b[k - |a|]; }
    }
  }

  /** A run consists of characters other than '<'. */
  lemma {:induction false} RunHasNoOpen(s: string, from: nat, e: nat)
    requires from <= |s| && e == RunEnd(s, from)
    ensures '<' !in s[from..e]
    decreases |s| - from
  {
    if from < |s| && s[from] != '<' {
      RunHasNoOpen(s, from + 1, e);
      assert s[from..e] == [s[from]] + s[from + 1..e];
    }
  }

  /** The word of a token, when kept, is well formed. */
  lemma TokenWordTimed(s: string, p: nat)
    requires WordMatchAt(s, p)
    ensures TokenWord(s, p).text != [] ==> IsTimedWord(TokenWord(s, p))
  {
    var raw := s[p + 10..TokenEnd(s, p)];
    RunHasNoOpen(s, p + 10, TokenEnd(s, p));
    TrimKeepsChars(raw);
  }

  /** Every word the word-timed branch emits is a non-empty text without white space at
      either end, without '<' and without a duration. */
  lemma {:induction false} WordsFromWellFormed(s: string, from: nat)
    requires from <= |s|
    ensures AllTimed(WordsFrom(s, from))
    decreases |s| - from
  {
    match Search(s, from, WordToken)
    case None =>
    case Some(p) =>
      var head := Kept(TokenWord(s, p));
      var tail := WordsFrom(s, TokenEnd(s, p));
      WordsFromWellFormed(s, TokenEnd(s, p));
      TokenWordTimed(s, p);
      AllTimedConcat(head, tail);
  }

  /** The positions of all word tokens the `exec` loop meets from `from` on. */
  function Tokens(s: string, from: nat): (ps: seq<nat>)
    requires from <= |s|
    ensures forall k :: 0 <= k < |ps| ==> from <= ps[k] && WordMatchAt(s, ps[k])
    decreases |s| - from
  {
    match Search(s, from, WordToken)
    case None => []
    case Some(p) => [p] + Tokens(s, TokenEnd(s, p))
  }

  /** Positions of word tokens at or after `from`, in strictly increasing order. */
  predicate TokenPositions(s: string, from: nat, ps: seq<nat>) {
    (forall k :: 0 <= k < |ps| ==> from <= ps[k] && WordMatchAt(s, ps[k]))
    && (forall k, j :: 0 <= k < j < |ps| ==> ps[k] < ps[j])
  }

  /** The tokens lie at strictly increasing positions from `from` on. */
  lemma {:induction false} TokensIncreasing(s: string, from: nat)
    requires from <= |s|
    ensures TokenPositions(s, from, Tokens(s, from))
    decreases |s| - from
  {
    match Search(s, from, WordToken)
    case None =>
    case Some(p) =>
      var tail := Tokens(s, TokenEnd(s, p));
      TokensIncreasing(s, TokenEnd(s, p));
      var ps := [p] + tail;
      forall k | 0 < k < |ps| ensures ps[k] == tail[k - 1] { }
  }

  /** The non-blank words of the tokens at positions `ps`, in that order. */
  function KeptWords(s: string, ps: seq<nat>): seq<Word>
    requires forall k :: 0 <= k < |ps| ==> WordMatchAt(s, ps[k])
  {
    if ps == [] then [] else Kept(TokenWord(s, ps[0])) + KeptWords(s, ps[1..])
  }

  /** The words of the word-timed branch are the non-blank words of its tokens, in source
      order. */
  lemma {:induction false} WordsInSourceOrder(s: string, from: nat)
    requires from <= |s|
    ensures TokenPositions(s, from, Tokens(s, from))
    ensures WordsFrom(s, from) == KeptWords(s, Tokens(s, from))
    decreases |s| - from
  {
    TokensIncreasing(s, from);
    match Search(s, from, WordToken)
    case None =>
    case Some(p) =>
      var e := TokenEnd(s, p);
      WordsInSourceOrder(s, e);
      assert ([p] + Tokens(s, e))[1..] == Tokens(s, e);
  }

  /** `rawText` is empty exactly when the line has no words, given non-empty word texts. */
  lemma {:induction false} RawTextEmpty(words: seq<Word>)
    requires forall w :: w in words ==> w.text != []
    ensures RawText(words) == [] <==> words == []
  {
    if words != [] {
      var ts := Texts(words);
      assert ts[0] == words[0].text;
      if |ts| > 1 {
        assert Join(ts, " ") == ts[0] + " " + Join(ts[1..], " ");
      }
    }
  }

  /** q is the position of the leftmost `[MM:SS.CC]` tag of `rest`. */
  predicate IsLeftmostTag(rest: string, q: nat) {
    q < |rest| && TagAt(rest, q, '[', ']')
    && forall q' :: 0 <= q' < q ==> !TagAt(rest, q', '[', ']')
  }

  /** The end tag of an instrumental line is the leftmost `[MM:SS.CC]` tag of its remainder:
      there is none exactly when no such tag occurs, and otherwise its time is that tag's. */
  lemma {:induction false} EndTimestampLeftmost(rest: string)
    ensures EndTimestamp(rest).None? <==> forall q :: 0 <= q < |rest| ==> !TagAt(rest, q, '[', ']')
    ensures EndTimestamp(rest).Some? ==>
              exists q: nat :: IsLeftmostTag(rest, q) && EndTimestamp(rest).value == ClockSeconds(rest, q + 1)
  {
    SearchLeftmost(rest, 0, LineTag);
    match Search(rest, 0, LineTag)
    case None =>
      forall q | 0 <= q < |rest| ensures !TagAt(rest, q, '[', ']') {
        assert !MatchAt(rest, q, LineTag);
      }
    case Some(q) =>
      assert MatchAt(rest, q, LineTag);
      forall q' | 0 <= q' < q ensures !TagAt(rest, q', '[', ']') {
        assert !MatchAt(rest, q', LineTag);
      }
      assert IsLeftmostTag(rest, q);
  }

  /** `parseLine` gives null exactly when the line does not begin with `[MM:SS.CC]`, and
      otherwise a line at that tag's time whose `rawText` is its word texts joined by a space,
      empty exactly when it has no words; an instrumental remainder gives one word, the whole
      remainder at the line's time, lasting until the leftmost end tag when that tag is
      truthy; any other remainder gives the non-blank, trimmed words of its word tokens in
      source order. */
  lemma ParseLineMeaning(line: string)
    ensures ParseLineSpec(line).None? <==> !TagAt(line, 0, '[', ']')
    ensures ParseLineSpec(line).Some? ==>
              var l := ParseLineSpec(line).value;
              var rest := Trim(line[10..]);
              && l.lineTimestamp == ClockSeconds(line, 1)
              && l.rawText == Join(Texts(l.words), " ")
              && (l.rawText == [] <==> l.words == [])
              && (IsInstrumentalText(rest) ==>
                    && |l.words| == 1 && l.words[0].text == rest && l.words[0].timestamp == l.lineTimestamp
                    && (l.words[0].duration.Some? <==> Truthy(EndTimestamp(rest)))
                    && (l.words[0].duration.Some? ==>
                          l.words[0].duration.value == EndTimestamp(rest).value - l.lineTimestamp))
              && (!IsInstrumentalText(rest) ==>
                    AllTimed(l.words) && l.words == KeptWords(rest, Tokens(rest, 0)))
  {
    if TagAt(line, 0, '[', ']') {
      var rest := Trim(line[10..]);
      var words := LineWords(rest, ClockSeconds(line, 1));
      if IsInstrumentalText(rest) {
        InstrumentalNotBlank(rest);
        TrimEmpty(rest);
        assert rest != [];
        assert forall w :: w in words ==> w == words[0];
      } else {
        WordsFromWellFormed(rest, 0);
        WordsInSourceOrder(rest, 0);
        assert forall w :: w in words ==> IsTimedWord(w);
      }
      RawTextEmpty(words);
    }
  }

  // ---------------------------------------------------------------------------------------
  // Whole files and the debug offset

  /** A line with every time moved by `shift` seconds; texts and durations stay. */
  function ShiftLine(line: Line, shift: real): Line {
    Line(line.lineTimestamp + shift, ShiftWords(line.words, shift), line.rawText)
  }

  /** Every word moved by `shift` seconds. */
  function ShiftWords(words: seq<Word>, shift: real): (r: seq<Word>)
    ensures |r| == |words|
  {
    seq(|words|, k requires 0 <= k < |words| => words[k].(timestamp := words[k].timestamp + shift))
  }

  /** `parse` as a function of the pieces between the newlines: every piece that parses, after
      trimming, becomes one line, moved by `offsetMs / 1000` seconds; the others are dropped. */
  function ParseAll(pieces: seq<string>, offsetMs: real): seq<Line> {
    Collect(ParseTrimmed, pieces, |pieces|, offsetMs)
  }

  /** `parseLine(line.trim())`. */
  function ParseTrimmed(piece: string): Option<Line> {
    ParseLineSpec(Trim(piece))
  }

  /** The lines the loop of `parse` has collected after the first n pieces, for a given parse
      of one piece. The lemmas below hold whatever that parse is. */
  function Collect(parseLine: string -> Option<Line>, pieces: seq<string>, n: nat, offsetMs: real): seq<Line>
    requires n <= |pieces|
  {
    if n == 0 then [] else Collect(parseLine, pieces, n - 1, offsetMs) + Parsed(parseLine(pieces[n - 1]), offsetMs)
  }

  /** The line a piece contributes to `parse`: its parse, moved by the offset, if it parses. */
  function Parsed(parsedLine: Option<Line>, offsetMs: real): seq<Line> {
    match parsedLine
    case None => []
    case Some(l) => [ShiftLine(l, offsetMs / 1000.0)]
  }

  /** One turn of the loop of `parse`: the piece i parses, after trimming, to `parsedLine`. */
  lemma ParseStep(pieces: seq<string>, i: nat, offsetMs: real, parsedLine: Option<Line>)
    requires i < |pieces| && parsedLine == ParseLineSpec(Trim(pieces[i]))
    ensures Collect(ParseTrimmed, pieces, i + 1, offsetMs)
            == Collect(ParseTrimmed, pieces, i, offsetMs) + Parsed(parsedLine, offsetMs)
  {
  }

  /** Pieces after the first n do not change what the first n give. */
  lemma {:induction false} CollectExtend(parseLine: string -> Option<Line>, a: seq<string>, b: seq<string>,
                                         n: nat, offsetMs: real)
    requires n <= |a|
    ensures Collect(parseLine, a + b, n, offsetMs) == Collect(parseLine, a, n, offsetMs)
  {
    if n > 0 {
      CollectExtend(parseLine, a, b, n - 1, offsetMs);
      assert (a + b)[n - 1] == a[n - 1];
    }
  }

  lemma {:induction false} CollectAppend(parseLine: string -> Option<Line>, a: seq<string>, b: seq<string>,
                                         m: nat, offsetMs: real)
    requires m <= |b|
    ensures Collect(parseLine, a + b, |a| + m, offsetMs)
            == Collect(parseLine, a, |a|, offsetMs) + Collect(parseLine, b, m, offsetMs)
  {
    if m == 0 {
      CollectExtend(parseLine, a, b, |a|, offsetMs);
    } else {
      CollectAppend(parseLine, a, b, m - 1, offsetMs);
      assert (a + b)[|a| + m - 1] == b[m - 1];
      AppendAssoc(Collect(parseLine, a, |a|, offsetMs), Collect(parseLine, b, m - 1, offsetMs),
                  Parsed(parseLine(b[m - 1]), offsetMs));
    }
  }

  /** Parsing is piece by piece: the lines of two runs of pieces are the lines of each. */
  lemma ParseAllAppend(a: seq<string>, b: seq<string>, offsetMs: real)
    ensures ParseAll(a + b, offsetMs) == ParseAll(a, offsetMs) + ParseAll(b, offsetMs)
  {
    CollectAppend(ParseTrimmed, a, b, |b|, offsetMs);
  }

  /** So `parse` is line by line: two contents joined by a newline give the lyrics of the
      first followed by those of the second. */
  lemma ParseConcat(first: string, second: string, offsetMs: real)
    ensures ParseAll(Split(first + "\n" + second, '\n'), offsetMs)
            == ParseAll(Split(first, '\n'), offsetMs) + ParseAll(Split(second, '\n'), offsetMs)
  {
    SplitConcat(first, second, '\n');
    ParseAllAppend(Split(first, '\n'), Split(second, '\n'), offsetMs);
  }

  /** A single piece contributes its parse, moved by the offset, or nothing; with
      `ParseAllAppend` this fixes `parse` on every content. */
  lemma ParseAllOne(piece: string, offsetMs: real)
    ensures ParseTrimmed(piece).None? ==> ParseAll([piece], offsetMs) == []
    ensures ParseTrimmed(piece).Some? ==>
              ParseAll([piece], offsetMs) == [ShiftLine(ParseTrimmed(piece).value, offsetMs / 1000.0)]
  {
    assert Collect(ParseTrimmed, [piece], 0, offsetMs) == [];
  }

  /** Every line of the result comes from its own piece. */
  lemma {:induction false} CollectLength(parseLine: string -> Option<Line>, pieces: seq<string>, n: nat,
                                         offsetMs: real)
    requires n <= |pieces|
    ensures |Collect(parseLine, pieces, n, offsetMs)| <= n
  {
    if n > 0 {
      CollectLength(parseLine, pieces, n - 1, offsetMs);
    }
  }

  lemma ParseAllLength(pieces: seq<string>, offsetMs: real)
    ensures |ParseAll(pieces, offsetMs)| <= |pieces|
  {
    CollectLength(ParseTrimmed, pieces, |pieces|, offsetMs);
  }

  lemma ShiftLineZero(line: Line)
    ensures ShiftLine(line, 0.0) == line
  {
    assert ShiftWords(line.words, 0.0) == line.words;
  }

  lemma {:induction false} CollectOffset(parseLine: string -> Option<Line>, pieces: seq<string>, n: nat,
                                         offsetMs: real)
    requires n <= |pieces|
    ensures |Collect(parseLine, pieces, n, offsetMs)| == |Collect(parseLine, pieces, n, 0.0)|
    ensures forall k :: 0 <= k < |Collect(parseLine, pieces, n, offsetMs)| ==>
              Collect(parseLine, pieces, n, offsetMs)[k]
              == ShiftLine(Collect(parseLine, pieces, n, 0.0)[k], offsetMs / 1000.0)
  {
    if n > 0 {
      CollectOffset(parseLine, pieces, n - 1, offsetMs);
      match parseLine(pieces[n - 1])
      case None =>
      case Some(l) =>
        ShiftLineZero(l);
        var a, b := Collect(parseLine, pieces, n - 1, offsetMs), Collect(parseLine, pieces, n - 1, 0.0);
        assert Collect(parseLine, pieces, n, offsetMs) == a + [ShiftLine(l, offsetMs / 1000.0)];
        assert Collect(parseLine, pieces, n, 0.0) == b + [l];
    }
  }

  /** The debug offset only moves times: the lines parsed with an offset are the lines parsed
      without one, each moved by `offsetMs / 1000` seconds. */
  lemma ParseAllOffset(pieces: seq<string>, offsetMs: real)
    ensures |ParseAll(pieces, offsetMs)| == |ParseAll(pieces, 0.0)|
    ensures forall k :: 0 <= k < |ParseAll(pieces, offsetMs)| ==>
              ParseAll(pieces, offsetMs)[k] == ShiftLine(ParseAll(pieces, 0.0)[k], offsetMs / 1000.0)
  {
    CollectOffset(ParseTrimmed, pieces, |pieces|, offsetMs);
  }

  // ---------------------------------------------------------------------------------------
  // The time query

  /** `findIndex(line => line.lineTimestamp > time)`, with the length standing for "none". */
  function FirstLaterLine(lyrics: seq<Line>, time: real): (j: nat)
    ensures j <= |lyrics|
    ensures j < |lyrics| ==> lyrics[j].lineTimestamp > time
    ensures forall k :: 0 <= k < j ==> lyrics[k].lineTimestamp <= time
    decreases |lyrics|
  {
    if lyrics == [] then 0
    else if lyrics[0].lineTimestamp > time then 0
    else 1 + FirstLaterLine(lyrics[1..], time)
  }

  /** The line whose time has come: the one before the first later line, or the last line when
      no line is later; none before the first line starts. */
  function LineAtTime(lyrics: seq<Line>, time: real): Option<nat> {
    var j := FirstLaterLine(lyrics, time);
    if j == 0 then None else Some(j - 1)
  }

  /** The current line exactly as scripts/lrc_parser.js:90-92 computes it: `findIndex(...) - 1`,
      where `findIndex` yields -1 when no line is later. */
  function LineAtTimeAsWritten(lyrics: seq<Line>, time: real): int {
    var j := FirstLaterLine(lyrics, time);
    (if j < |lyrics| then j else -1) - 1
  }

  /** The current line is the last line whose time has come, when any has. */
  lemma LineAtTimeSelects(lyrics: seq<Line>, time: real)
    ensures LineAtTime(lyrics, time).None? <==> lyrics == [] || lyrics[0].lineTimestamp > time
    ensures LineAtTime(lyrics, time).Some? ==>
              var li := LineAtTime(lyrics, time).value;
              li < |lyrics|
              && (forall k :: 0 <= k <= li ==> lyrics[k].lineTimestamp <= time)
              && (li + 1 < |lyrics| ==> lyrics[li + 1].lineTimestamp > time)
  {
  }

  /** As written, the last line is never current, and the time query finds nothing once every
      line has started; otherwise both agree. */
  lemma LineAtTimeAsWrittenMissesLast(lyrics: seq<Line>, time: real)
    ensures LineAtTimeAsWritten(lyrics, time) != |lyrics| - 1 || lyrics == []
    ensures LineAtTimeAsWritten(lyrics, time) < 0 <==>
              LineAtTime(lyrics, time).None? || FirstLaterLine(lyrics, time) == |lyrics|
    ensures LineAtTimeAsWritten(lyrics, time) >= 0 ==>
              LineAtTime(lyrics, time) == Some(LineAtTimeAsWritten(lyrics, time) as nat)
  {
  }

  /** One line at 0 s, asked at 1 s: as written nothing is current; the line is. */
  lemma LineAtTimeAsWrittenExample(line: Line)
    requires line.lineTimestamp == 0.0
    ensures LineAtTimeAsWritten([line], 1.0) == -2
    ensures LineAtTime([line], 1.0) == Some(0)
  {
    assert FirstLaterLine([line], 1.0) == 1 by {
      assert [line][1..] == [];
    }
  }

  /** The word of `words` that is current at `time`: its time has come and the next word's
      has not (`findIndex` in scripts/lrc_parser.js:99-103). */
  predicate IsCurrentWord(words: seq<Word>, k: nat, time: real)
    requires k < |words|
  {
    words[k].timestamp <= time && (k + 1 == |words| || words[k + 1].timestamp > time)
  }

  function Max(a: real, b: real): real {
    if a >= b then a else b
  }

  function Min(a: real, b: real): real {
    if a <= b then a else b
  }

  /** How long the word at (li, wi) stays highlighted: its own duration when that is truthy,
      else the gap to the next word of the line, else the gap to the first word of the next
      line (each at least 0.1 s); 0.5 s when none applies or the value is below 0.1 s; and
      never more than 5 s. */
  function WordDuration(lyrics: seq<Line>, li: nat, wi: nat): (d: real)
    requires li < |lyrics| && wi < |lyrics[li].words|
    ensures 0.1 <= d <= 5.0
  {
    var words := lyrics[li].words;
    var w := words[wi];
    var computed :=
      if Truthy(w.duration) then w.duration
      else if wi + 1 < |words| then Some(Max(0.1, words[wi + 1].timestamp - w.timestamp))
      else if li < |lyrics| - 1 && |lyrics[li + 1].words| > 0 then
        Some(Max(0.1, lyrics[li + 1].words[0].timestamp - w.timestamp))
      else None;
    var d := if !Truthy(computed) || computed.value < 0.1 then 0.5 else computed.value;
    Min(d, 5.0)
  }

  /** A word without its own duration lasts until the next word of its line, when that gap is
      between 0.1 s and 5 s. */
  lemma WordDurationIsGap(lyrics: seq<Line>, li: nat, wi: nat)
    requires li < |lyrics| && wi + 1 < |lyrics[li].words|
    requires !Truthy(lyrics[li].words[wi].duration)
    requires 0.1 <= lyrics[li].words[wi + 1].timestamp - lyrics[li].words[wi].timestamp <= 5.0
    ensures WordDuration(lyrics, li, wi)
            == lyrics[li].words[wi + 1].timestamp - lyrics[li].words[wi].timestamp
  {
  }

  /** A word with its own truthy duration keeps it, clamped: below 0.1 s it becomes the
      0.5 s default, above 5 s it becomes 5 s. */
  lemma WordDurationOwn(lyrics: seq<Line>, li: nat, wi: nat)
    requires li < |lyrics| && wi < |lyrics[li].words| && Truthy(lyrics[li].words[wi].duration)
    ensures var own := lyrics[li].words[wi].duration.value;
            && (0.1 <= own <= 5.0 ==> WordDuration(lyrics, li, wi) == own)
            && (own < 0.1 ==> WordDuration(lyrics, li, wi) == 0.5)
            && (own > 5.0 ==> WordDuration(lyrics, li, wi) == 5.0)
  {
  }

  /** The last word of the last line, without its own duration, gets the 0.5 s default. */
  lemma WordDurationDefault(lyrics: seq<Line>, wi: nat)
    requires lyrics != [] && wi + 1 == |lyrics[|lyrics| - 1].words|
    requires !Truthy(lyrics[|lyrics| - 1].words[wi].duration)
    ensures WordDuration(lyrics, |lyrics| - 1, wi) == 0.5
  {
  }

  /** A position with the two properties of `FirstLaterLine` is `FirstLaterLine`. */
  lemma FirstLaterLineUnique(lyrics: seq<Line>, time: real, j: nat)
    requires j <= |lyrics| && (j < |lyrics| ==> lyrics[j].lineTimestamp > time)
    requires forall k :: 0 <= k < j ==> lyrics[k].lineTimestamp <= time
    ensures j == FirstLaterLine(lyrics, time)
  {
  }

  /** `findIndex` of the current word of `words` from position i on, with the length
      standing for "none". */
  function FirstCurrentWord(words: seq<Word>, time: real, i: nat): (k: nat)
    requires i <= |words|
    ensures i <= k <= |words|
    ensures k < |words| ==> IsCurrentWord(words, k, time)
    ensures forall j :: i <= j < k ==> !IsCurrentWord(words, j, time)
    decreases |words| - i
  {
    if i == |words| || IsCurrentWord(words, i, time) then i else FirstCurrentWord(words, time, i + 1)
  }

  /** A position with the two properties of `FirstCurrentWord` is `FirstCurrentWord`. */
  lemma FirstCurrentWordUnique(words: seq<Word>, time: real, k: nat)
    requires k <= |words| && (k < |words| ==> IsCurrentWord(words, k, time))
    requires forall j :: 0 <= j < k ==> !IsCurrentWord(words, j, time)
    ensures k == FirstCurrentWord(words, time, 0)
  {
  }

  /** What `getWordAtTime` reports, with the current line of `LineAtTime`: the first current
      word of that line, its index, its duration and the line's index; null when no line has
      started or no word of the current line is current. */
  function WordAtTime(lyrics: seq<Line>, time: real): Option<WordHit> {
    match LineAtTime(lyrics, time)
    case None => None
    case Some(li) =>
      var words := lyrics[li].words;
      var k := FirstCurrentWord(words, time, 0);
      if k == |words| then None
      else Some(WordHit(WordAt(words[k].text, words[k].timestamp, k, WordDuration(lyrics, li, k)), li))
  }

  /** The time query finds a word exactly when a line has started and one of its words is
      current; it then reports the current line, the first current word of that line with
      its own text and time, and the duration `WordDuration` gives it. */
  lemma WordAtTimeMeaning(lyrics: seq<Line>, time: real)
    ensures WordAtTime(lyrics, time).Some? <==>
              LineAtTime(lyrics, time).Some?
              && exists k :: 0 <= k < |lyrics[LineAtTime(lyrics, time).value].words|
                             && IsCurrentWord(lyrics[LineAtTime(lyrics, time).value].words, k, time)
    ensures WordAtTime(lyrics, time).Some? ==>
              var hit := WordAtTime(lyrics, time).value;
              var li := hit.lineIndex;
              var words := lyrics[li].words;
              var k := hit.word.index;
              LineAtTime(lyrics, time) == Some(li)
              && k < |words| && IsCurrentWord(words, k, time)
              && (forall j :: 0 <= j < k ==> !IsCurrentWord(words, j, time))
              && hit.word.text == words[k].text && hit.word.timestamp == words[k].timestamp
              && hit.word.duration == WordDuration(lyrics, li, k)
              && 0.1 <= hit.word.duration <= 5.0
  {
    match LineAtTime(lyrics, time)
    case None =>
    case Some(li) =>
      var words := lyrics[li].words;
      var k := FirstCurrentWord(words, time, 0);
      if k == |words| {
        assert forall j :: 0 <= j < |words| ==> !IsCurrentWord(words, j, time);
      }
  }

  /** `LRCParser`: the lyrics of the last `parse` and the debug offset (milliseconds) it
      applies. */
  class LrcParser {
    var lyrics: seq<Line>
    var debugOffset: real

    constructor()
      ensures lyrics == [] && debugOffset == 0.0
    {
      lyrics := [];
      debugOffset := 0.0;
    }

    method SetDebugOffset(offsetMs: real)
      modifies this
      ensures debugOffset == offsetMs && lyrics == old(lyrics)
    {
      debugOffset := offsetMs;
    }

    /** `timestampToSeconds` applied to the tag that a regular expression matched at p. */
    static method TagToSeconds(s: string, p: nat, open: char, close: char) returns (seconds: real)
      requires TagAt(s, p, open, close)
      ensures seconds == ClockSeconds(s, p + 1)
    {
      TagSeconds(s, p, open, close);
      seconds := TimestampToSeconds(s[p..p + 10]);
    }

    /** `parseLine`: the match of the leading tag, then the instrumental branch or the
        `exec` loop over the word tokens. */
    method ParseLine(line: string) returns (r: Option<Line>)
      ensures r == ParseLineSpec(line)
    {
      if !TagAt(line, 0, '[', ']') {
        return None;
      }
      var lineTimestamp := TagToSeconds(line, 0, '[', ']');
      var remainingLine := Trim(line[10..]);
      var words: seq<Word>;
      if Contains(remainingLine, NoteMarker) || Contains(remainingLine, "INSTRUMENTAL") {
        words := InstrumentalWords(remainingLine, lineTimestamp);
      } else {
        words := TimedWords(remainingLine);
      }
      r := Some(Line(lineTimestamp, words, RawText(words)));
    }

    /** The instrumental branch of `parseLine`: the first `[MM:SS.CC]` tag of the remainder,
        if any, gives the synthetic word's duration. */
    method InstrumentalWords(remainingLine: string, lineTimestamp: real) returns (words: seq<Word>)
      ensures words == [InstrumentalWord(remainingLine, lineTimestamp)]
    {
      var endTimestampMatch := Search(remainingLine, 0, LineTag);
      var endTimestamp: Option<real> := None;
      if endTimestampMatch.Some? {
        var seconds := TagToSeconds(remainingLine, endTimestampMatch.value, '[', ']');
        endTimestamp := Some(seconds);
      }
      words := [Word(remainingLine, lineTimestamp,
                     if Truthy(endTimestamp) then Some(endTimestamp.value - lineTimestamp) else None)];
    }

    /** The word-timed branch of `parseLine`: the `exec` loop of the global word regex. */
    method TimedWords(remainingLine: string) returns (words: seq<Word>)
      ensures words == WordsFrom(remainingLine, 0)
    {
      words := [];
      var lastIndex := 0;
      var match_ := Search(remainingLine, lastIndex, WordToken);
      while match_.Some?
        invariant lastIndex <= |remainingLine|
        invariant match_ == Search(remainingLine, lastIndex, WordToken)
        invariant words + WordsFrom(remainingLine, lastIndex) == WordsFrom(remainingLine, 0)
        decreases |remainingLine| - lastIndex
      {
        var p := match_.value;
        var wordTimestamp := TagToSeconds(remainingLine, p, '<', '>');
        var e := RunEnd(remainingLine, p + 10);
        var word := Trim(remainingLine[p + 10..e]);
        ExecStep(remainingLine, lastIndex, p, e, word, wordTimestamp);
        AppendAssoc(words, Kept(Word(word, wordTimestamp, None)), WordsFrom(remainingLine, e));
        // `if (word) words.push(...)`
        words := words + Kept(Word(word, wordTimestamp, None));
        lastIndex := e;
        match_ := Search(remainingLine, lastIndex, WordToken);
      }
    }

    /** `parse`: split the content at '\n', parse every trimmed piece, move the times of each
        parsed line by the debug offset, and keep the parsed lines in order. */
    method Parse(lrcContent: string) returns (result: seq<Line>)
      modifies this
      ensures lyrics == ParseAll(Split(lrcContent, '\n'), debugOffset)
      ensures result == lyrics && debugOffset == old(debugOffset)
    {
      // `this.lyrics = []` and the pushes, gathered in a local until the loop ends
      var parsedLines: seq<Line> := [];
      var lines := Split(lrcContent, '\n');
      for i := 0 to |lines|
        invariant debugOffset == old(debugOffset)
        invariant parsedLines == Collect(ParseTrimmed, lines, i, debugOffset)
      {
        var parsedLine := ParseLine(Trim(lines[i]));
        ParseStep(lines, i, debugOffset, parsedLine);
        if parsedLine.Some? {
          var shifted := ApplyOffset(parsedLine.value, debugOffset / 1000.0);
          parsedLines := parsedLines + [shifted];
        }
      }
      lyrics := parsedLines;
      result := lyrics;
    }

    /** The offset step of `parse`: the line's time and then each word's time move by `shift`. */
    static method ApplyOffset(parsedLine: Line, shift: real) returns (r: Line)
      ensures r == ShiftLine(parsedLine, shift)
    {
      var lineTimestamp := parsedLine.lineTimestamp + shift;
      var words := parsedLine.words;
      var i := 0;
      while i < |words|
        invariant i <= |words| == |parsedLine.words|
        invariant forall k :: 0 <= k < i ==>
                    words[k] == parsedLine.words[k].(timestamp := parsedLine.words[k].timestamp + shift)
        invariant forall k :: i <= k < |words| ==> words[k] == parsedLine.words[k]
      {
        words := words[i := words[i].(timestamp := words[i].timestamp + shift)];
        i := i + 1;
      }
      r := Line(lineTimestamp, words, parsedLine.rawText);
    }

    /** `getWordAtTime`, with the current line taken as the one before the first later line,
        or the last line when none is later (see `LineAtTimeAsWritten` for the code as
        written). */
    method GetWordAtTime(time: real) returns (r: Option<WordHit>)
      ensures r == WordAtTime(lyrics, time)
    {
      var later := 0;
      while later < |lyrics| && !(lyrics[later].lineTimestamp > time)
        invariant later <= |lyrics|
        invariant forall k :: 0 <= k < later ==> lyrics[k].lineTimestamp <= time
      {
        later := later + 1;
      }
      FirstLaterLineUnique(lyrics, time, later);
      var currentLineIndex := later - 1;
      if currentLineIndex < 0 {
        return None;
      }
      var currentLine := lyrics[currentLineIndex];
      var words := currentLine.words;
      var currentWordIndex := 0;
      while currentWordIndex < |words|
            && !(words[currentWordIndex].timestamp <= time
                 && (currentWordIndex + 1 == |words| || words[currentWordIndex + 1].timestamp > time))
        invariant currentWordIndex <= |words|
        invariant forall k :: 0 <= k < currentWordIndex ==> !IsCurrentWord(words, k, time)
      {
        currentWordIndex := currentWordIndex + 1;
      }
      FirstCurrentWordUnique(words, time, currentWordIndex);
      if currentWordIndex == |words| {
        return None;
      }
      var currentWord := words[currentWordIndex];
      var duration: Option<real> := None;
      if Truthy(currentWord.duration) {
        duration := currentWord.duration;
      } else if currentWordIndex + 1 < |words| {
        duration := Some(Max(0.1, words[currentWordIndex + 1].timestamp - currentWord.timestamp));
      } else if currentLineIndex < |lyrics| - 1 {
        var nextLine := lyrics[currentLineIndex + 1];
        if |nextLine.words| > 0 {
          duration := Some(Max(0.1, nextLine.words[0].timestamp - currentWord.timestamp));
        }
      }
      var seconds := if !Truthy(duration) || duration.value < 0.1 then 0.5 else duration.value;
      seconds := Min(seconds, 5.0);
      r := Some(WordHit(WordAt(currentWord.text, currentWord.timestamp, currentWordIndex, seconds),
                        currentLineIndex));
    }
  }
}
