/** String helpers shared by the readers, the document store and the refund
    processor: Python's `str.lower`, `in`/`find`, `re.sub(r'\s+', ' ', ..)`,
    `strip`, prefix slicing, and `int(..)`/`str(..)` on decimal integers. */
module Text {
  import opened Wrappers

  // ---------------------------------------------------------------------------
  // Characters

  /** Python's `str.isspace` restricted to the Latin-1 range; it is what both
      `\s` in a `str` pattern and `str.strip()` treat as whitespace. */
  predicate IsSpace(c: char) {
    c == ' ' || ('\t' <= c <= '\r') || ('\U{1C}' <= c <= '\U{1F}') || c == '\U{85}' || c == '\U{A0}'
  }

  function LowerChar(c: char): char {
    if 'A' <= c <= 'Z' then (c as int + 32) as char else c
  }

  /** `str.lower()` on ASCII letters; every other character is kept. */
  function Lower(s: string): (r: string)
    ensures |r| == |s|
  {
    seq(|s|, i requires 0 <= i < |s| => LowerChar(s[i]))
  }

  /** Lower-casing twice is lower-casing once. */
  lemma LowerIdempotent(s: string)
    ensures Lower(Lower(s)) == Lower(s)
  {
    assert forall i :: 0 <= i < |s| ==> LowerChar(LowerChar(s[i])) == LowerChar(s[i]);
  }

  predicate StartsWith(s: string, prefix: string) {
    |prefix| <= |s| && s[..|prefix|] == prefix
  }

  predicate EndsWith(s: string, suffix: string) {
    |suffix| <= |s| && s[|s| - |suffix|..] == suffix
  }

  /** `sep.join(parts)`. */
  function Join(parts: seq<string>, sep: string): string {
    if |parts| == 0 then ""
    else if |parts| == 1 then parts[0]
    else parts[0] + sep + Join(parts[1..], sep)
  }

  // ---------------------------------------------------------------------------
  // Substring search: `t in s` and `s.find(t)`

  predicate OccursAt(s: string, t: string, i: int) {
    0 <= i && i + |t| <= |s| && s[i..i + |t|] == t
  }

  predicate Contains(s: string, t: string) {
    exists i :: 0 <= i <= |s| && OccursAt(s, t, i)
  }

  function FindFrom(s: string, t: string, i: nat): (r: int)
    requires i <= |s|
    decreases |s| - i
    ensures r == -1 || (i <= r && OccursAt(s, t, r))
    ensures r != -1 ==> forall j :: i <= j < r ==> !OccursAt(s, t, j)
    ensures r == -1 ==> forall j :: i <= j ==> !OccursAt(s, t, j)
  {
    if OccursAt(s, t, i) then i
    else if i == |s| then -1
    else FindFrom(s, t, i + 1)
  }

  /** `s.find(t)`: the first index at which `t` occurs in `s`, or -1. */
  function Find(s: string, t: string): (r: int)
    ensures r == -1 || OccursAt(s, t, r)
    ensures r != -1 ==> forall j :: 0 <= j < r ==> !OccursAt(s, t, j)
    ensures r == -1 <==> !Contains(s, t)
  {
    FindFrom(s, t, 0)
  }

  // ---------------------------------------------------------------------------
  // Whitespace normalisation: `re.sub(r'\s+', ' ', text).strip()`

  function SkipSpaces(s: string): (r: string)
    ensures |r| <= |s| && r == s[|s| - |r|..]
    ensures r == [] || !IsSpace(r[0])
    ensures s != [] && IsSpace(s[0]) ==> |r| < |s|
    ensures forall i :: 0 <= i < |s| - |r| ==> IsSpace(s[i])
  {
    if s != [] && IsSpace(s[0]) then SkipSpaces(s[1..]) else s
  }

  /** Every maximal run of whitespace becomes one ' '. */
  function CollapseSpaces(s: string): string
    decreases |s|
  {
    if s == [] then []
    else if IsSpace(s[0]) then [' '] + CollapseSpaces(SkipSpaces(s))
    else [s[0]] + CollapseSpaces(s[1..])
  }

  function StripRight(s: string): (r: string)
    ensures |r| <= |s| && r == s[..|r|]
    ensures r == [] || !IsSpace(r[|r| - 1])
    ensures forall i :: |r| <= i < |s| ==> IsSpace(s[i])
  {
    if s != [] && IsSpace(s[|s| - 1]) then StripRight(s[..|s| - 1]) else s
  }

  /** `str.strip()`. */
  function Strip(s: string): string {
    StripRight(SkipSpaces(s))
  }

  /** `_clean_text` of the PDF and webpage readers. */
  function CleanText(s: string): string {
    Strip(CollapseSpaces(s))
  }

  /** No whitespace at either end. */
  predicate Stripped(s: string) {
    s == [] || (!IsSpace(s[0]) && !IsSpace(s[|s| - 1]))
  }

  /** No two whitespace characters next to each other. */
  predicate NoSpaceRuns(s: string) {
    forall i :: 0 <= i < |s| - 1 && IsSpace(s[i]) ==> !IsSpace(s[i + 1])
  }

  /** The only whitespace character is ' '. */
  predicate PlainSpacesOnly(s: string) {
    forall i :: 0 <= i < |s| && IsSpace(s[i]) ==> s[i] == ' '
  }

  predicate Normalized(s: string) {
    Stripped(s) && NoSpaceRuns(s) && PlainSpacesOnly(s)
  }

  /** The characters of `s` that are not whitespace, in order. */
  function NonSpace(s: string): string {
    if s == [] then []
    else if IsSpace(s[0]) then NonSpace(s[1..])
    else [s[0]] + NonSpace(s[1..])
  }

  lemma {:induction false} CollapseStart(s: string)
    ensures CollapseSpaces(s) == [] <==> s == []
    ensures s != [] ==> CollapseSpaces(s)[0] == if IsSpace(s[0]) then ' ' else s[0]
  {
  }

  /** Putting one character in front keeps the two shape properties when it is
      not whitespace, or is a ' ' not followed by whitespace. */
  lemma ConsShape(x: char, t: string)
    requires NoSpaceRuns(t) && PlainSpacesOnly(t)
    requires IsSpace(x) ==> x == ' ' && (t == [] || !IsSpace(t[0]))
    ensures NoSpaceRuns([x] + t) && PlainSpacesOnly([x] + t)
  {
    var u := [x] + t;
    assert u[0] == x;
    assert forall i :: 1 <= i < |u| ==> u[i] == t[i - 1];
  }

  lemma {:induction false} CollapseShape(s: string)
    ensures NoSpaceRuns(CollapseSpaces(s)) && PlainSpacesOnly(CollapseSpaces(s))
    decreases |s|
  {
    if s == [] {
    } else if IsSpace(s[0]) {
      var rest := SkipSpaces(s);
      CollapseShape(rest);
      CollapseStart(rest);
      assert CollapseSpaces(s) == [' '] + CollapseSpaces(rest);
      ConsShape(' ', CollapseSpaces(rest));
    } else {
      CollapseShape(s[1..]);
      assert CollapseSpaces(s) == [s[0]] + CollapseSpaces(s[1..]);
      ConsShape(s[0], CollapseSpaces(s[1..]));
    }
  }

  lemma {:induction false} NonSpaceAppend(a: string, b: string)
    ensures NonSpace(a + b) == NonSpace(a) + NonSpace(b)
  {
    if a == [] {
      assert a + b == b;
    } else {
      assert (a + b)[1..] == a[1..] + b;
      NonSpaceAppend(a[1..], b);
    }
  }

  lemma {:induction false} NonSpaceAllSpaces(s: string)
    requires forall i :: 0 <= i < |s| ==> IsSpace(s[i])
    ensures NonSpace(s) == []
  {
    if s != [] {
      NonSpaceAllSpaces(s[1..]);
    }
  }

  lemma {:induction false} NonSpaceSkip(s: string)
    ensures NonSpace(SkipSpaces(s)) == NonSpace(s)
  {
    var r := SkipSpaces(s);
    var k := |s| - |r|;
    var spaces := s[..k];
    assert s == spaces + r;
    assert forall i :: 0 <= i < |spaces| ==> spaces[i] == s[i];
    NonSpaceAllSpaces(spaces);
    NonSpaceAppend(spaces, r);
  }

  lemma {:induction false} NonSpaceStripRight(s: string)
    ensures NonSpace(StripRight(s)) == NonSpace(s)
  {
    var r := StripRight(s);
    assert s == r + s[|r|..];
    NonSpaceAppend(r, s[|r|..]);
    NonSpaceAllSpaces(s[|r|..]);
  }

  lemma {:induction false} NonSpaceCollapse(s: string)
    ensures NonSpace(CollapseSpaces(s)) == NonSpace(s)
    decreases |s|
  {
    if s == [] {
    } else if IsSpace(s[0]) {
      NonSpaceCollapse(SkipSpaces(s));
      NonSpaceSkip(s);
      NonSpaceAppend([' '], CollapseSpaces(SkipSpaces(s)));
    } else {
      NonSpaceCollapse(s[1..]);
      NonSpaceAppend([s[0]], CollapseSpaces(s[1..]));
    }
  }

  /** A slice of a string keeps the two run-free shape properties. */
  lemma SliceKeepsShape(s: string, lo: nat, hi: nat)
    requires lo <= hi <= |s|
    requires NoSpaceRuns(s) && PlainSpacesOnly(s)
    ensures NoSpaceRuns(s[lo..hi]) && PlainSpacesOnly(s[lo..hi])
  {
    var t := s[lo..hi];
    forall i | 0 <= i < |t| - 1 && IsSpace(t[i]) ensures !IsSpace(t[i + 1]) {
      assert t[i] == s[lo + i] && t[i + 1] == s[lo + i + 1];
    }
  }

  lemma StripShape(s: string)
    ensures Stripped(Strip(s))
    ensures NoSpaceRuns(s) && PlainSpacesOnly(s) ==> NoSpaceRuns(Strip(s)) && PlainSpacesOnly(Strip(s))
  {
    var l := SkipSpaces(s);
    var r := StripRight(l);
    if r != [] {
      assert r[0] == l[0];
    }
    if NoSpaceRuns(s) && PlainSpacesOnly(s) {
      SliceKeepsShape(s, |s| - |l|, |s|);
      SliceKeepsShape(l, 0, |r|);
    }
  }

  /** `not s.strip()`: stripping leaves nothing exactly when every
      character is whitespace. */
  lemma StripBlank(s: string)
    ensures Strip(s) == [] <==> forall i :: 0 <= i < |s| ==> IsSpace(s[i])
  {
    var l := SkipSpaces(s);
    if Strip(s) == [] {
      assert |StripRight(l)| == 0;
      assert |l| == 0;
    } else if l != [] {
      assert l[0] == s[|s| - |l|];
    }
  }

  /** `_clean_text` output has no whitespace at either end, no whitespace runs
      and no whitespace other than ' ', and keeps every other character in order. */
  lemma CleanTextNormalized(s: string)
    ensures Normalized(CleanText(s))
    ensures NonSpace(CleanText(s)) == NonSpace(s)
  {
    CollapseShape(s);
    StripShape(CollapseSpaces(s));
    NonSpaceSkip(CollapseSpaces(s));
    NonSpaceStripRight(SkipSpaces(CollapseSpaces(s)));
    NonSpaceCollapse(s);
  }

  lemma {:induction false} CollapseFixes(s: string)
    requires NoSpaceRuns(s) && PlainSpacesOnly(s)
    ensures CollapseSpaces(s) == s
    decreases |s|
  {
    if s != [] {
      SliceKeepsShape(s, 1, |s|);
      if IsSpace(s[0]) {
        assert s[1..] == [] || !IsSpace(s[1]);
        assert SkipSpaces(s) == s[1..];
      }
      CollapseFixes(s[1..]);
      assert s == [s[0]] + s[1..];
    }
  }

  /** `_clean_text` is idempotent. */
  lemma CleanTextIdempotent(s: string)
    ensures CleanText(CleanText(s)) == CleanText(s)
  {
    var c := CleanText(s);
    CleanTextNormalized(s);
    CollapseFixes(c);
  }

  // ---------------------------------------------------------------------------
  // Optional strings

  /** Python truthiness of an optional string. */
  predicate Truthy(s: Option<string>) {
    s.Some? && s.value != ""
  }

  /** `x or default` for an optional string. */
  function OrElse(s: Option<string>, default: string): (r: string)
    ensures Truthy(s) ==> r == s.value
    ensures !Truthy(s) ==> r == default
  {
    if Truthy(s) then s.value else default
  }

  // ---------------------------------------------------------------------------
  // Truncation: `if len(t) > n: t = t[:n] + "..."`

  /** Python's `s[:n]`, including a negative `n`. */
  function PyPrefix(s: string, n: int): string {
    if n >= 0 then s[..if n < |s| then n else |s|]
    else s[..if |s| + n > 0 then |s| + n else 0]
  }

  function Truncate(s: string, maxLength: int): string {
    if |s| > maxLength then PyPrefix(s, maxLength) + "..." else s
  }

  /** Text no longer than the limit is kept; longer text becomes its first
      `maxLength` characters plus "...", so it is at most `maxLength + 3` long. */
  lemma TruncateShape(s: string, maxLength: int)
    requires maxLength >= 0
    ensures |s| <= maxLength ==> Truncate(s, maxLength) == s
    ensures |s| > maxLength ==> Truncate(s, maxLength) == s[..maxLength] + "..."
    ensures |Truncate(s, maxLength)| <= maxLength + 3
  {
  }

  // ---------------------------------------------------------------------------
  // Decimal integers: `str(n)` and `int(s)`

  predicate IsDigit(c: char) {
    '0' <= c <= '9'
  }

  function DigitChar(d: nat): char
    requires d < 10
  {
    ('0' as int + d) as char
  }

  function NatToString(n: nat): (r: string)
    ensures r != [] && forall i :: 0 <= i < |r| ==> IsDigit(r[i])
  {
    if n < 10 then [DigitChar(n)] else NatToString(n / 10) + [DigitChar(n % 10)]
  }

  /** `str(i)` for an integer. */
  function IntToString(i: int): string {
    if i < 0 then "-" + NatToString(-i) else NatToString(i)
  }

  function DigitsValue(s: string): nat
    requires forall i :: 0 <= i < |s| ==> IsDigit(s[i])
  {
    if s == [] then 0
    else
      assert IsDigit(s[|s| - 1]);
      DigitsValue(s[..|s| - 1]) * 10 + (s[|s| - 1] as int - '0' as int)
  }

  predicate AllDigits(s: string) {
    s != [] && forall i :: 0 <= i < |s| ==> IsDigit(s[i])
  }

  /** `int(s)` on an optionally signed run of decimal digits; anything else
      raises `ValueError`, modelled as `None`. */
  function ParseInt(s: string): Option<int> {
    if AllDigits(s) then Some(DigitsValue(s))
    else if |s| >= 2 && (s[0] == '-' || s[0] == '+') && AllDigits(s[1..]) then
      var magnitude: int := DigitsValue(s[1..]);
      Some(if s[0] == '-' then -magnitude else magnitude)
    else None
  }

  lemma {:induction false} DigitsValueOfNat(n: nat)
    ensures DigitsValue(NatToString(n)) == n
  {
    if n >= 10 {
      var s := NatToString(n);
      assert s[..|s| - 1] == NatToString(n / 10);
      DigitsValueOfNat(n / 10);
    }
  }

  /** `int(str(i)) == i`. */
  lemma ParseIntToString(i: int)
    ensures ParseInt(IntToString(i)) == Some(i)
  {
    if i < 0 {
      var digits := NatToString(-i);
      var s := IntToString(i);
      assert s == "-" + digits;
      assert s[0] == '-' && !IsDigit(s[0]);
      assert s[1..] == digits;
      DigitsValueOfNat(-i);
    } else {
      DigitsValueOfNat(i);
    }
  }

  // ---------------------------------------------------------------------------
  // Splitting at a one-character separator: `s.split(sep)`

  /** The pieces of `s` between occurrences of `sep`: one more piece than
      there are separators, so the empty string gives one empty piece. */
  function Split(s: string, sep: char): (parts: seq<string>)
    ensures |parts| >= 1
    ensures forall i, j :: 0 <= i < |parts| && 0 <= j < |parts[i]| ==> parts[i][j] != sep
  {
    if s == [] then [[]]
    else
      var rest := Split(s[1..], sep);
      if s[0] == sep then [[]] + rest else [[s[0]] + rest[0]] + rest[1..]
  }

  /** Text without the separator is a single piece. */
  lemma {:induction false} SplitNoSep(s: string, sep: char)
    requires forall i :: 0 <= i < |s| ==> s[i] != sep
    ensures Split(s, sep) == [s]
  {
    if s != [] {
      SplitNoSep(s[1..], sep);
      assert [s[0]] + s[1..] == s;
    }
  }

  /** Splitting `a + sep + b` splits `a` and `b` apart. */
  lemma {:induction false} SplitConcat(a: string, b: string, sep: char)
    ensures Split(a + [sep] + b, sep) == Split(a, sep) + Split(b, sep)
  {
    if a == [] {
      assert a + [sep] + b == [sep] + b;
      assert ([sep] + b)[1..] == b;
    } else {
      assert (a + [sep] + b)[1..] == a[1..] + [sep] + b;
      SplitConcat(a[1..], b, sep);
    }
  }

  /** Joining the pieces with the separator gives the text back. */
  lemma {:induction false} JoinSplit(s: string, sep: char)
    ensures Join(Split(s, sep), [sep]) == s
  {
    if s != [] {
      JoinSplit(s[1..], sep);
      var rest := Split(s[1..], sep);
      if s[0] == sep {
        assert ([[]] + rest)[1..] == rest;
      } else {
        var parts := [[s[0]] + rest[0]] + rest[1..];
        if |rest| > 1 {
          assert parts[1..] == rest[1..];
          assert Join(rest, [sep]) == rest[0] + [sep] + Join(rest[1..], [sep]);
        }
        assert [s[0]] + s[1..] == s;
      }
    }
  }
}
