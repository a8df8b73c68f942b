/** The JavaScript string built-ins the lyric engine relies on: `trim`, `includes`,
    `split`, `join`, and `Number` applied to an unsigned decimal numeral. */
module Text {

  /** White space removed by `String.prototype.trim`: the ECMAScript WhiteSpace and
      LineTerminator code points (tab, LF, VT, FF, CR, space, NBSP, the Unicode space
      separators, LS, PS and the byte order mark). */
  predicate IsWhite(c: char) {
    ('\t' <= c <= '\r') || c == ' ' || c == '\U{A0}' || c == '\U{1680}'
    || ('\U{2000}' <= c <= '\U{200A}') || c == '\U{2028}' || c == '\U{2029}'
    || c == '\U{202F}' || c == '\U{205F}' || c == '\U{3000}' || c == '\U{FEFF}'
  }

  predicate AllWhite(s: string) {
    forall i :: 0 <= i < |s| ==> IsWhite(s[i])
  }

  /** Where the white space that starts at position i of s ends. */
  function SkipWhite(s: string, i: nat): (j: nat)
    requires i <= |s|
    ensures i <= j <= |s|
    ensures j < |s| ==> !IsWhite(s[j])
    decreases |s| - i
  {
    if i < |s| && IsWhite(s[i]) then SkipWhite(s, i + 1) else i
  }

  /** Everything `SkipWhite` skips is white space. */
  lemma {:induction false} SkipWhiteSkipsWhite(s: string, i: nat)
    requires i <= |s|
    ensures forall k :: i <= k < SkipWhite(s, i) ==> IsWhite(s[k])
    decreases |s| - i
  {
    if i < |s| && IsWhite(s[i]) {
      SkipWhiteSkipsWhite(s, i + 1);
    }
  }

  /** Where the white space that ends at position j of s, and not before lo, starts. */
  function SkipWhiteBack(s: string, lo: nat, j: nat): (k: nat)
    requires lo <= j <= |s|
    ensures lo <= k <= j
    ensures lo < k ==> !IsWhite(s[k - 1])
    decreases j
  {
    if lo < j && IsWhite(s[j - 1]) then SkipWhiteBack(s, lo, j - 1) else j
  }

  /** Everything `SkipWhiteBack` skips is white space. */
  lemma {:induction false} SkipWhiteBackSkipsWhite(s: string, lo: nat, j: nat)
    requires lo <= j <= |s|
    ensures forall m :: SkipWhiteBack(s, lo, j) <= m < j ==> IsWhite(s[m])
    decreases j
  {
    if lo < j && IsWhite(s[j - 1]) {
      SkipWhiteBackSkipsWhite(s, lo, j - 1);
    }
  }

  /** `Trim` cuts off white space only. */
  lemma TrimCutsWhite(s: string)
    ensures forall k :: 0 <= k < KeptFrom(s) ==> IsWhite(s[k])
    ensures forall k :: KeptTo(s) <= k < |s| ==> IsWhite(s[k])
  {
    SkipWhiteSkipsWhite(s, 0);
    SkipWhiteBackSkipsWhite(s, KeptFrom(s), |s|);
  }

  /** Where the text `Trim` keeps starts ... */
  function KeptFrom(s: string): nat {
    SkipWhite(s, 0)
  }

  /** ... and where it ends. */
  function KeptTo(s: string): nat {
    SkipWhiteBack(s, KeptFrom(s), |s|)
  }

  /** `String.prototype.trim`: the part of `s` between its leading and its trailing
      white space. The result is empty exactly when `s` is all white space. */
  function Trim(s: string): (r: string)
    ensures |r| <= |s|
    ensures r != [] ==> !IsWhite(r[0]) && !IsWhite(r[|r| - 1])
  {
    var a, b := KeptFrom(s), KeptTo(s);
    SegmentIsSlice(s, a, b);
    assert a < b ==> s[a..b][0] == s[a] && s[a..b][b - a - 1] == s[b - 1];
    Segment(s, a, b)
  }

  /** The characters of s from position a up to b, copied one by one. */
  function Segment(s: string, a: nat, b: nat): (r: string)
    requires a <= b <= |s|
    ensures |r| == b - a
    decreases b - a
  {
    if a == b then [] else [s[a]] + Segment(s, a + 1, b)
  }

  lemma {:induction false} SegmentIsSlice(s: string, a: nat, b: nat)
    requires a <= b <= |s|
    ensures Segment(s, a, b) == s[a..b]
    decreases b - a
  {
    if a < b {
      SegmentIsSlice(s, a + 1, b);
      assert s[a..b] == [s[a]] + s[a + 1..b];
    }
  }

  /** What `Trim` keeps is the slice between `KeptFrom` and `KeptTo`. */
  lemma TrimSlice(s: string)
    ensures KeptFrom(s) <= KeptTo(s) <= |s| && Trim(s) == s[KeptFrom(s)..KeptTo(s)]
  {
    SegmentIsSlice(s, KeptFrom(s), KeptTo(s));
  }

  /** `s` trims to "" exactly when it is all white space. */
  lemma TrimEmpty(s: string)
    ensures Trim(s) == [] <==> AllWhite(s)
  {
    TrimCutsWhite(s);
    if Trim(s) != [] {
      assert !IsWhite(s[KeptFrom(s)]);
    }
  }

  /** What `Trim` keeps is one contiguous piece of `s`, with only white space around it. */
  lemma TrimIsSlice(s: string) returns (a: nat)
    ensures a + |Trim(s)| <= |s| && Trim(s) == s[a..a + |Trim(s)|]
    ensures AllWhite(s[..a]) && AllWhite(s[a + |Trim(s)|..])
  {
    a := KeptFrom(s);
    var b := KeptTo(s);
    TrimCutsWhite(s);
    TrimSlice(s);
    forall i | 0 <= i < |s[b..]| ensures IsWhite(s[b..][i]) {
      assert s[b..][i] == s[b + i];
    }
  }

  /** A string without white space at either end is its own trim, so `Trim` is idempotent. */
  lemma {:induction false} TrimIdempotent(s: string)
    ensures Trim(Trim(s)) == Trim(s)
  {
    var r := Trim(s);
    if r != [] {
      assert KeptFrom(r) == 0;
      assert KeptTo(r) == |r|;
      TrimSlice(r);
      assert r[0..|r|] == r;
    }
  }

  /** `Trim` introduces no character. */
  lemma TrimKeepsChars(s: string)
    ensures forall c :: c in Trim(s) ==> c in s
  {
    var a := TrimIsSlice(s);
    forall c | c in Trim(s) ensures c in s {
      var i :| 0 <= i < |Trim(s)| && Trim(s)[i] == c;
      assert s[a + i] == c;
    }
  }

  /** A string with a character that is not white space does not trim to "". */
  lemma {:induction false} TrimNonEmpty(s: string, i: nat)
    requires i < |s| && !IsWhite(s[i])
    ensures Trim(s) != []
  {
    TrimCutsWhite(s);
  }

  predicate OccursAt(s: string, sub: string, i: nat) {
    i + |sub| <= |s| && s[i..i + |sub|] == sub
  }

  /** `String.prototype.includes`. */
  predicate Contains(s: string, sub: string) {
    exists i: nat :: i <= |s| && OccursAt(s, sub, i)
  }

  /** If `s` contains a non-empty `sub` that starts with a non-white character, `s` does not
      trim to "". */
  lemma {:induction false} ContainsNotBlank(s: string, sub: string)
    requires Contains(s, sub) && sub != [] && !IsWhite(sub[0])
    ensures Trim(s) != []
  {
    var i: nat :| i <= |s| && OccursAt(s, sub, i);
    assert s[i..i + |sub|][0] == s[i];
    TrimNonEmpty(s, i);
  }

  /** The first index of `c` in `s`. */
  function IndexOf(s: string, c: char): (k: nat)
    requires c in s
    ensures k < |s| && s[k] == c && c !in s[..k]
  {
    if s[0] == c then 0
    else
      var k := 1 + IndexOf(s[1..], c);
      assert s[..k] == [s[0]] + s[1..][..k - 1];
      k
  }

  /** The first index of `c` is the position that holds `c` with no `c` before it. */
  lemma IndexOfAt(u: string, c: char, k: nat)
    requires k < |u| && u[k] == c && c !in u[..k]
    ensures IndexOf(u, c) == k
  {
  }

  /** `String.prototype.split` with a one-character separator: the pieces between the
      occurrences of `sep`, in order; a string without `sep` is one piece. */
  function Split(s: string, sep: char): (r: seq<string>)
    ensures |r| >= 1
    ensures forall k :: 0 <= k < |r| ==> sep !in r[k]
    decreases |s|
  {
    if sep !in s then [s]
    else
      var k := IndexOf(s, sep);
      [s[..k]] + Split(s[k + 1..], sep)
  }

  /** Splitting text joined at a separator splits each side. */
  lemma {:induction false} SplitConcat(a: string, b: string, sep: char)
    ensures Split(a + [sep] + b, sep) == Split(a, sep) + Split(b, sep)
    decreases |a|
  {
    var s := a + [sep] + b;
    if sep in a {
      var k := IndexOf(a, sep);
      var rest := a[k + 1..];
      assert s[..k] == a[..k];
      assert s[k + 1..] == rest + [sep] + b;
      SplitAt(a, sep, k);
      SplitAt(s, sep, k);
      SplitConcat(rest, b, sep);
      AppendAssoc([a[..k]], Split(rest, sep), Split(b, sep));
    } else {
      assert s[..|a|] == a && s[|a| + 1..] == b;
      SplitAt(s, sep, |a|);
    }
  }

  lemma AppendAssoc<T>(a: seq<T>, b: seq<T>, c: seq<T>)
    ensures (a + b) + c == a + (b + c)
  {
  }

  /** Where the first separator stands, the text splits into the piece before it and the
      pieces of the rest. */
  lemma SplitAt(s: string, sep: char, k: nat)
    requires k < |s| && s[k] == sep && sep !in s[..k]
    ensures Split(s, sep) == [s[..k]] + Split(s[k + 1..], sep)
  {
    IndexOfAt(s, sep, k);
  }

  /** `Array.prototype.join`. */
  function Join(parts: seq<string>, sep: string): string
    decreases |parts|
  {
    if parts == [] then ""
    else if |parts| == 1 then parts[0]
    else parts[0] + sep + Join(parts[1..], sep)
  }

  /** Splitting loses nothing: joining the pieces with the separator restores the text. */
  lemma {:induction false} JoinSplit(s: string, sep: char)
    ensures Join(Split(s, sep), [sep]) == s
    decreases |s|
  {
    if sep in s {
      var k := IndexOf(s, sep);
      JoinSplit(s[k + 1..], sep);
      assert s == s[..k] + [sep] + s[k + 1..];
    }
  }

  /** And the other way round: pieces free of the separator are recovered by splitting their
      join. */
  lemma {:induction false} SplitJoin(parts: seq<string>, sep: char)
    requires parts != []
    requires forall k :: 0 <= k < |parts| ==> sep !in parts[k]
    ensures Split(Join(parts, [sep]), sep) == parts
    decreases |parts|
  {
    if |parts| > 1 {
      var s := Join(parts, [sep]);
      assert s == parts[0] + [sep] + Join(parts[1..], [sep]);
      assert s[|parts[0]|] == sep;
      assert s[..|parts[0]|] == parts[0];
      assert IndexOf(s, sep) == |parts[0]|;
      assert s[|parts[0]| + 1..] == Join(parts[1..], [sep]);
      SplitJoin(parts[1..], sep);
    }
  }

  predicate IsDigit(c: char) {
    '0' <= c <= '9'
  }

  function DigitValue(c: char): (d: nat)
    requires IsDigit(c)
    ensures d < 10
  {
    c as int - '0' as int
  }

  predicate AllDigits(s: string) {
    forall i :: 0 <= i < |s| ==> IsDigit(s[i])
  }

  /** The value of a run of decimal digits, most significant first. */
  function IntValue(ds: string): nat
    requires AllDigits(ds)
  {
    if ds == [] then 0 else 10 * IntValue(ds[..|ds| - 1]) + DigitValue(ds[|ds| - 1])
  }

  /** The value of the digits after a decimal point: the first one counts tenths. */
  function FracValue(ds: string): (r: real)
    requires AllDigits(ds)
    ensures 0.0 <= r < 1.0
  {
    if ds == [] then 0.0 else (DigitValue(ds[0]) as real + FracValue(ds[1..])) / 10.0
  }

  /** An unsigned decimal numeral: digits, optionally followed by a point and more digits. */
  predicate IsNumeral(s: string) {
    if '.' in s then
      var k := IndexOf(s, '.');
      k > 0 && AllDigits(s[..k]) && AllDigits(s[k + 1..])
    else
      s != [] && AllDigits(s)
  }

  /** `Number(s)` for a numeral. */
  function NumberValue(s: string): real
    requires IsNumeral(s)
  {
    if '.' in s then
      var k := IndexOf(s, '.');
      IntValue(s[..k]) as real + FracValue(s[k + 1..])
    else
      IntValue(s) as real
  }
}
