/**
 * The Python `str` operations the invoice core relies on, written out
 * over `seq<char>` with the behaviour of CPython 3: `isspace`, `strip`,
 * `rstrip(c)`, `find`, `in`, `startswith`, `split(c)`, `rsplit(c, n)`,
 * `sep.join`, `replace`, `upper`, `lower` and `splitlines`.
 */
module PyStr {
  import opened Wrappers

  function Min(a: int, b: int): int { if a <= b then a else b }

  /** The characters `str.isspace()` accepts; a regex `\s` matches the same set. */
  predicate IsSpace(c: char) {
    || c == ' '
    || ('\t' <= c <= '\r')
    || ('\U{1C}' <= c <= '\U{1F}')
    || c == '\U{85}' || c == '\U{A0}' || c == '\U{1680}'
    || ('\U{2000}' <= c <= '\U{200A}')
    || c == '\U{2028}' || c == '\U{2029}' || c == '\U{202F}'
    || c == '\U{205F}' || c == '\U{3000}'
  }

  /** A regex `\d`, restricted to the ASCII digits. */
  predicate IsDigit(c: char) { '0' <= c <= '9' }

  predicate AllDigits(s: string) { forall i :: 0 <= i < |s| ==> IsDigit(s[i]) }

  predicate NoSpace(s: string) { forall i :: 0 <= i < |s| ==> !IsSpace(s[i]) }

  /** Number of occurrences of `c` in `s`. */
  function Count(s: string, c: char): nat { multiset(s)[c] }

  // ---------------------------------------------------------------- search

  /** `t` occurs in `s` starting at index `i`. */
  predicate OccursAt(s: string, t: string, i: int) {
    0 <= i && i + |t| <= |s| && s[i..i + |t|] == t
  }

  function FindFrom(s: string, t: string, i: nat): (r: Option<nat>)
    requires i <= |s|
    ensures r.Some? ==> i <= r.value && OccursAt(s, t, r.value)
    ensures r.Some? ==> forall j :: i <= j < r.value ==> !OccursAt(s, t, j)
    ensures r.None? ==> forall j :: i <= j <= |s| ==> !OccursAt(s, t, j)
    decreases |s| - i
  {
    if OccursAt(s, t, i) then Some(i)
    else if i == |s| then None
    else FindFrom(s, t, i + 1)
  }

  /** A string cannot occur where its first character does not. */
  lemma NotOccursAt(s: string, t: string, i: nat)
    requires i < |s| && |t| > 0 && s[i] != t[0]
    ensures !OccursAt(s, t, i)
  {
  }

  /** `s.find(t)`, with `None` for Python's -1: the first index where `t` occurs. */
  function Find(s: string, t: string): (r: Option<nat>)
    ensures r.Some? ==> OccursAt(s, t, r.value) && forall j :: 0 <= j < r.value ==> !OccursAt(s, t, j)
    ensures r.None? ==> forall j :: !OccursAt(s, t, j)
  {
    FindFrom(s, t, 0)
  }

  /** Python's `t in s`. */
  predicate Contains(s: string, t: string) { Find(s, t).Some? }

  /** Python's `s.startswith(t)`. */
  predicate StartsWith(s: string, t: string) { |t| <= |s| && s[..|t|] == t }

  /** First index of character `c` in `s`. */
  function IndexOf(s: string, c: char): (r: Option<nat>)
    ensures r.None? ==> c !in s
    ensures r.Some? ==> r.value < |s| && s[r.value] == c && c !in s[..r.value]
  {
    if s == [] then None
    else if s[0] == c then Some(0)
    else match IndexOf(s[1..], c)
      case None => None
      case Some(k) => assert s[..k + 1] == [s[0]] + s[1..][..k]; Some(k + 1)
  }

  /** Last index of character `c` in `s`. */
  function LastIndexOf(s: string, c: char): (r: Option<nat>)
    ensures r.None? ==> c !in s
    ensures r.Some? ==> r.value < |s| && s[r.value] == c && c !in s[r.value + 1..]
  {
    if s == [] then None
    else if s[|s| - 1] == c then Some(|s| - 1)
    else
      var init := s[..|s| - 1];
      assert s == init + [s[|s| - 1]];
      match LastIndexOf(init, c)
      case None => None
      case Some(k) => assert s[k + 1..] == init[k + 1..] + [s[|s| - 1]]; Some(k)
  }

  // ------------------------------------------------------------- trimming

  /** `s.lstrip()`. */
  function TrimStart(s: string): (r: string)
    ensures |r| <= |s| && r == s[|s| - |r|..]
    ensures r == [] || !IsSpace(r[0])
  {
    if s != [] && IsSpace(s[0]) then TrimStart(s[1..]) else s
  }

  /** `s.rstrip()`. */
  function TrimEnd(s: string): (r: string)
    ensures |r| <= |s| && r == s[..|r|]
    ensures r == [] || !IsSpace(r[|r| - 1])
  {
    if s != [] && IsSpace(s[|s| - 1]) then TrimEnd(s[..|s| - 1]) else s
  }

  /** `s.strip()`: drops the leading and trailing whitespace, nothing else. */
  function Strip(s: string): (r: string)
    ensures r == [] || (!IsSpace(r[0]) && !IsSpace(r[|r| - 1]))
  {
    TrimEnd(TrimStart(s))
  }

  /** `s.strip()` is a substring of `s`. */
  lemma StripOccurs(s: string)
    ensures exists i :: OccursAt(s, Strip(s), i)
  {
    var a := TrimStart(s);
    assert OccursAt(s, Strip(s), |s| - |a|);
  }

  /** A string with no whitespace at all is its own `strip()`. */
  lemma StripNoSpace(s: string)
    requires NoSpace(s)
    ensures Strip(s) == s
  {
    if s != [] {
      assert !IsSpace(s[0]) && !IsSpace(s[|s| - 1]);
    }
  }

  /** A string that neither starts nor ends with whitespace is its own `strip()`. */
  lemma StripTrimmed(s: string)
    requires s == [] || (!IsSpace(s[0]) && !IsSpace(s[|s| - 1]))
    ensures Strip(s) == s
  {
  }

  /** `s.rstrip(c)` for a single character `c`. */
  function RStrip(s: string, c: char): (r: string)
    ensures |r| <= |s| && r == s[..|r|]
    ensures r == [] || r[|r| - 1] != c
    ensures forall i :: |r| <= i < |s| ==> s[i] == c
  {
    if s != [] && s[|s| - 1] == c then RStrip(s[..|s| - 1], c) else s
  }

  // ------------------------------------------------------- split and join

  /** `sep.join(parts)`. */
  function Join(parts: seq<string>, sep: string): string
  {
    if |parts| == 0 then ""
    else if |parts| == 1 then parts[0]
    else Join(parts[..|parts| - 1], sep) + sep + parts[|parts| - 1]
  }

  lemma {:induction false} JoinCons(x: string, parts: seq<string>, sep: string)
    requires |parts| >= 1
    ensures Join([x] + parts, sep) == x + sep + Join(parts, sep)
    decreases |parts|
  {
    var all := [x] + parts;
    if |parts| == 1 {
      assert all[..1] == [x];
    } else {
      assert all[..|all| - 1] == [x] + parts[..|parts| - 1];
      JoinCons(x, parts[..|parts| - 1], sep);
    }
  }

  lemma SplitAt(s: string, k: nat)
    requires k < |s|
    ensures s == s[..k] + [s[k]] + s[k + 1..]
  {
  }

  lemma JoinSnoc(parts: seq<string>, x: string, sep: string)
    requires |parts| >= 1
    ensures Join(parts + [x], sep) == Join(parts, sep) + sep + x
  {
    assert (parts + [x])[..|parts|] == parts;
  }

  /** `s.split(c)` for a one-character separator `c`. */
  function Split(s: string, c: char): (r: seq<string>)
    ensures |r| >= 1
    ensures forall i :: 0 <= i < |r| ==> c !in r[i]
    decreases |s|
  {
    match IndexOf(s, c)
    case None => [s]
    case Some(k) => [s[..k]] + Split(s[k + 1..], c)
  }

  /** Joining the pieces of `s.split(c)` with `c` gives `s` back. */
  lemma {:induction false} SplitJoin(s: string, c: char)
    ensures Join(Split(s, c), [c]) == s
    decreases |s|
  {
    match IndexOf(s, c)
    case None =>
    case Some(k) =>
      SplitJoin(s[k + 1..], c);
      JoinCons(s[..k], Split(s[k + 1..], c), [c]);
      SplitAt(s, k);
  }

  /** `s.split(sep)` for a separator of any non-zero length. */
  function SplitOn(s: string, sep: string): (r: seq<string>)
    requires |sep| > 0
    ensures |r| >= 1
    ensures !Contains(s, sep) ==> r == [s]
    decreases |s|
  {
    match Find(s, sep)
    case None => [s]
    case Some(k) => [s[..k]] + SplitOn(s[k + |sep|..], sep)
  }

  /** `s.rsplit(c, n)`: at most `n` splits, taken from the right. */
  function RSplit(s: string, sep: char, n: nat): (r: seq<string>)
    ensures |r| >= 1
    decreases n
  {
    if n == 0 then [s]
    else match LastIndexOf(s, sep)
      case None => [s]
      case Some(k) => RSplit(s[..k], sep, n - 1) + [s[k + 1..]]
  }

  /** Joining the pieces of `s.rsplit(c, n)` with `c` gives `s` back. */
  lemma {:induction false} RSplitJoin(s: string, sep: char, n: nat)
    ensures Join(RSplit(s, sep, n), [sep]) == s
    decreases n
  {
    if n > 0 {
      match LastIndexOf(s, sep)
      case None =>
      case Some(k) =>
        var front := RSplit(s[..k], sep, n - 1);
        var tail := s[k + 1..];
        RSplitJoin(s[..k], sep, n - 1);
        JoinSnoc(front, tail, [sep]);
        SplitAt(s, k);
    }
  }

  /**
   * `s.rsplit(c, n)` has `min(count, n) + 1` pieces, no piece but the first
   * holds `c`, and the first holds none either when fewer than `n` splits
   * were made.
   */
  lemma {:induction false} RSplitShape(s: string, sep: char, n: nat)
    ensures |RSplit(s, sep, n)| == Min(Count(s, sep), n) + 1
    ensures forall i :: 1 <= i < |RSplit(s, sep, n)| ==> sep !in RSplit(s, sep, n)[i]
    ensures |RSplit(s, sep, n)| <= n ==> sep !in RSplit(s, sep, n)[0]
    decreases n
  {
    if n > 0 {
      match LastIndexOf(s, sep)
      case None =>
        assert multiset(s)[sep] == 0;
      case Some(k) =>
        RSplitShape(s[..k], sep, n - 1);
        assert s == s[..k] + [sep] + s[k + 1..];
        assert multiset(s) == multiset(s[..k]) + multiset([sep]) + multiset(s[k + 1..]);
        assert multiset(s[k + 1..])[sep] == 0;
    }
  }

  // ------------------------------------------------------------- replace

  /** `s.replace(a, b)` for a one-character `a`: every `a` becomes `b`. */
  function ReplaceChar(s: string, a: char, b: string): (r: string)
  {
    if s == [] then [] else (if s[0] == a then b else [s[0]]) + ReplaceChar(s[1..], a, b)
  }

  /** Replacing `a` by a text without `a` leaves no `a`. */
  lemma {:induction false} ReplaceCharRemoves(s: string, a: char, b: string)
    requires a !in b
    ensures a !in ReplaceChar(s, a, b)
    decreases |s|
  {
    if s != [] { ReplaceCharRemoves(s[1..], a, b); }
  }

  /** A text without `a` is left as it is. */
  lemma {:induction false} ReplaceCharAbsent(s: string, a: char, b: string)
    requires a !in s
    ensures ReplaceChar(s, a, b) == s
    decreases |s|
  {
    if s != [] {
      ReplaceCharAbsent(s[1..], a, b);
      assert s == [s[0]] + s[1..];
    }
  }

  lemma {:induction false} ReplaceCharAppend(x: string, y: string, a: char, b: string)
    ensures ReplaceChar(x + y, a, b) == ReplaceChar(x, a, b) + ReplaceChar(y, a, b)
    decreases |x|
  {
    if x != [] {
      assert (x + y)[1..] == x[1..] + y;
      ReplaceCharAppend(x[1..], y, a, b);
    } else {
      assert x + y == y;
    }
  }

  /** Replacing in `s` never brings in a character that neither `s` nor `b` holds. */
  lemma {:induction false} ReplaceCharKeepsOut(s: string, a: char, b: string, d: char)
    requires d !in s && d !in b
    ensures d !in ReplaceChar(s, a, b)
    decreases |s|
  {
    if s != [] { ReplaceCharKeepsOut(s[1..], a, b, d); }
  }

  /**
   * `s.replace(pat, repl)`: the occurrences of `pat` are replaced from left
   * to right, none overlapping the previous one.
   */
  function ReplaceAll(s: string, pat: string, repl: string): (r: string)
    requires |pat| > 0
    decreases |s|
  {
    if s == [] then []
    else if StartsWith(s, pat) then repl + ReplaceAll(s[|pat|..], pat, repl)
    else [s[0]] + ReplaceAll(s[1..], pat, repl)
  }

  /** After `s.replace(c, repl)` no `c` is left, unless `repl` brings one in. */
  lemma {:induction false} ReplaceAllRemoves(s: string, c: char, repl: string)
    requires c !in repl
    ensures c !in ReplaceAll(s, [c], repl)
    decreases |s|
  {
    if s != [] {
      if StartsWith(s, [c]) { ReplaceAllRemoves(s[1..], c, repl); }
      else {
        assert s[0] != c by { assert s[..1] == [s[0]]; }
        ReplaceAllRemoves(s[1..], c, repl);
      }
    }
  }

  /** `s.replace(pat, repl)` does not bring in a character found in neither `s` nor `repl`. */
  lemma {:induction false} ReplaceAllKeepsOut(s: string, pat: string, repl: string, d: char)
    requires |pat| > 0 && d !in s && d !in repl
    ensures d !in ReplaceAll(s, pat, repl)
    decreases |s|
  {
    if s != [] {
      if StartsWith(s, pat) { ReplaceAllKeepsOut(s[|pat|..], pat, repl, d); }
      else { ReplaceAllKeepsOut(s[1..], pat, repl, d); }
    }
  }

  /** A string without `pat[0]` is left as it is by `s.replace(pat, repl)`. */
  lemma {:induction false} ReplaceAllAbsent(s: string, pat: string, repl: string)
    requires |pat| > 0 && pat[0] !in s
    ensures ReplaceAll(s, pat, repl) == s
    decreases |s|
  {
    if s != [] {
      ReplaceAllAbsent(s[1..], pat, repl);
    }
  }

  // --------------------------------------------------------- letter case

  /**
   * `str.upper()` on one character, for the letters that can make a page
   * heading equal to one of the upper-case headings the parsers look for:
   * ASCII, Latin-1, the Hungarian double-acute vowels, and the dotless i
   * and long s, which Python maps to 'I' and 'S'. Every other character is
   * kept as it is.
   */
  function UpperChar(c: char): char {
    if 'a' <= c <= 'z' then (c as int - 32) as char
    else if '\U{E0}' <= c <= '\U{FE}' && c != '\U{F7}' then (c as int - 32) as char
    else if c == '\U{FF}' then '\U{178}'
    else if c == '\U{151}' then '\U{150}'
    else if c == '\U{171}' then '\U{170}'
    else if c == '\U{131}' then 'I'
    else if c == '\U{17F}' then 'S'
    else c
  }

  /** `s.upper()`, character by character. */
  function Upper(s: string): (r: string)
    ensures |r| == |s| && forall i :: 0 <= i < |s| ==> r[i] == UpperChar(s[i])
  {
    seq(|s|, i requires 0 <= i < |s| => UpperChar(s[i]))
  }

  /** `str.lower()` on ASCII letters; other characters are kept. */
  function LowerAscii(c: char): char {
    if 'A' <= c <= 'Z' then (c as int + 32) as char else c
  }

  /** Python's `s.lower().endswith(t)` for a lower-case ASCII suffix `t`. */
  predicate EndsWithIgnoringCase(s: string, t: string) {
    |t| <= |s| && forall i :: 0 <= i < |t| ==> LowerAscii(s[|s| - |t| + i]) == t[i]
  }

  // ----------------------------------------------------------- splitlines

  /** The line boundaries of `str.splitlines()`. */
  predicate IsLineBreak(c: char) {
    c == '\n' || c == '\r' || c == '\U{0B}' || c == '\U{0C}'
    || ('\U{1C}' <= c <= '\U{1E}') || c == '\U{85}' || c == '\U{2028}' || c == '\U{2029}'
  }

  function FirstBreak(s: string): (r: Option<nat>)
    ensures r.None? ==> forall i :: 0 <= i < |s| ==> !IsLineBreak(s[i])
    ensures r.Some? ==> r.value < |s| && IsLineBreak(s[r.value])
    ensures r.Some? ==> forall i :: 0 <= i < r.value ==> !IsLineBreak(s[i])
  {
    if s == [] then None
    else if IsLineBreak(s[0]) then Some(0)
    else match FirstBreak(s[1..])
      case None => None
      case Some(k) => Some(k + 1)
  }

  /** `s.splitlines()`: "\r\n" is one boundary and a final boundary adds no empty line. */
  function SplitLines(s: string): (r: seq<string>)
    ensures forall i, j :: 0 <= i < |r| && 0 <= j < |r[i]| ==> !IsLineBreak(r[i][j])
    ensures s == [] <==> r == []
    decreases |s|
  {
    if s == [] then []
    else match FirstBreak(s)
      case None => [s]
      case Some(k) =>
        var w := if s[k] == '\r' && k + 1 < |s| && s[k + 1] == '\n' then 2 else 1;
        [s[..k]] + SplitLines(s[k + w..])
  }
}
