/**
 * The handful of regular expressions the invoice parsers use, each written
 * out as a matcher at one position, together with Python's `re.search`
 * (first match, left to right) and `re.findall` (all matches, each search
 * resuming where the previous match ended).
 *
 * Every pattern here is deterministic once its greedy parts are taken
 * maximally: no backtracking into a shorter repetition can ever succeed,
 * because the character that follows a shortened repetition cannot start
 * what comes next. The matchers therefore consume maximal runs.
 */
module Patterns {
  import opened Wrappers
  import opened PyStr

  /**
   * A regex `\w`: ASCII letters, digits and '_', and the letters of the
   * Latin-1 and Latin Extended-A/B blocks.
   */
  predicate IsWordChar(c: char) {
    || ('a' <= c <= 'z') || ('A' <= c <= 'Z') || IsDigit(c) || c == '_'
    || c == '\U{AA}' || c == '\U{B2}' || c == '\U{B3}' || c == '\U{B5}'
    || c == '\U{B9}' || c == '\U{BA}' || ('\U{BC}' <= c <= '\U{BE}')
    || ('\U{C0}' <= c <= '\U{24F}' && c != '\U{D7}' && c != '\U{F7}')
  }

  /** The character classes that appear in the patterns. */
  datatype CharClass =
    | Digits          // \d
    | Spaces          // \s
    | DigitsOrDots    // [\d\.]
    | NonSpaces       // \S
    | ColonsOrSpaces  // [:\s]
    | NotNewline      // [^\n] and .

  predicate InClass(k: CharClass, c: char) {
    match k
    case Digits => IsDigit(c)
    case Spaces => IsSpace(c)
    case DigitsOrDots => IsDigit(c) || c == '.'
    case NonSpaces => !IsSpace(c)
    case ColonsOrSpaces => c == ':' || IsSpace(c)
    case NotNewline => c != '\n'
  }

  /** End of the longest run of class `k` starting at `i`. */
  function RunEnd(k: CharClass, s: string, i: nat): (e: nat)
    requires i <= |s|
    ensures i <= e <= |s|
    ensures forall j :: i <= j < e ==> InClass(k, s[j])
    ensures e == |s| || !InClass(k, s[e])
    decreases |s| - i
  {
    if i < |s| && InClass(k, s[i]) then RunEnd(k, s, i + 1) else i
  }

  /** A run is determined by where it stops: the two facts above pin `RunEnd` down. */
  lemma {:induction false} RunEndUnique(k: CharClass, s: string, i: nat, e: nat)
    requires i <= e <= |s|
    requires forall j :: i <= j < e ==> InClass(k, s[j])
    requires e == |s| || !InClass(k, s[e])
    ensures RunEnd(k, s, i) == e
    decreases e - i
  {
    if i < e { RunEndUnique(k, s, i + 1, e); }
  }

  // ------------------------------------------------------------ pieces

  /** `\d{2}-\d{2}-\d{4}` at index `i`. */
  predicate DateAt(s: string, i: nat) {
    && i + 10 <= |s|
    && IsDigit(s[i]) && IsDigit(s[i + 1]) && s[i + 2] == '-'
    && IsDigit(s[i + 3]) && IsDigit(s[i + 4]) && s[i + 5] == '-'
    && IsDigit(s[i + 6]) && IsDigit(s[i + 7]) && IsDigit(s[i + 8]) && IsDigit(s[i + 9])
  }

  /** End of the greedy repetition `(?:<sep>\d{3})*` from `j`. */
  function GroupsEnd(s: string, j: nat, sep: char): (e: nat)
    requires j <= |s|
    ensures j <= e <= |s|
    ensures forall k :: j <= k < e ==> IsDigit(s[k]) || s[k] == sep
    decreases |s| - j
  {
    if j + 4 <= |s| && s[j] == sep && IsDigit(s[j + 1]) && IsDigit(s[j + 2]) && IsDigit(s[j + 3])
    then GroupsEnd(s, j + 4, sep)
    else j
  }

  // ---------------------------------------------------------- patterns

  datatype Pattern =
    | Labelled(prefix: string, value: CharClass)   // <label>\s*(<value>+)
    | LabelledAfterColons(prefix: string)          // <label>[:\s]+(\d+)
    | PeriodRange(prefix: string)                  // <label>\s*([\d\.]+ - [\d\.]+)
    | AfterLabel(prefix: string)                   // <label>\s+(\S+)
    | RestOfLine(prefix: string)                   // <label>[^\n]+
    | ForintAmount                                // (\d{1,3}(?: \d{3})*,\d{2})Ft
    | DotAmount                                   // \d{1,3}(?:\.\d{3})*,\d{2}
    | VatPercent                                  // (\d{1,2})\s?%
    | DashDate                                    // \d{2}-\d{2}-\d{4}
    | TeszorCode                                  // \b\d{2}\.\d{2}\.\d{1,2}\b
    | PhoneAfterLabel(prefix: string)              // <label>\s*(36\d{9})

  /** What the group of a match looks like. */
  datatype Match = Match(group: string, end: nat)

  /** An amount `\d{1,3}(?:<sep>\d{3})*,\d{2}` as far as its characters go. */
  predicate AmountShape(g: string, sep: char) {
    && |g| >= 4 && IsDigit(g[0])
    && g[|g| - 3] == ',' && IsDigit(g[|g| - 2]) && IsDigit(g[|g| - 1])
    && forall j :: 0 <= j < |g| - 3 ==> IsDigit(g[j]) || g[j] == sep
  }

  /** The group of a billing period: `[\d\.]+ - [\d\.]+`. */
  predicate PeriodShape(g: string) {
    var k := RunEnd(DigitsOrDots, g, 0);
    && 0 < k && k + 3 < |g| && g[k..k + 3] == " - "
    && forall j :: k + 3 <= j < |g| ==> InClass(DigitsOrDots, g[j])
  }

  predicate TeszorShape(g: string) {
    && (|g| == 7 || |g| == 8)
    && IsDigit(g[0]) && IsDigit(g[1]) && g[2] == '.' && IsDigit(g[3]) && IsDigit(g[4])
    && g[5] == '.' && AllDigits(g[6..])
  }

  predicate DateShape(g: string) { |g| == 10 && DateAt(g, 0) }

  /** What every group the pattern yields looks like. */
  predicate Shaped(p: Pattern, g: string) {
    match p
    case Labelled(_, k) => |g| > 0 && forall j :: 0 <= j < |g| ==> InClass(k, g[j])
    case LabelledAfterColons(_) => |g| > 0 && AllDigits(g)
    case PeriodRange(_) => PeriodShape(g)
    case AfterLabel(_) => |g| > 0 && NoSpace(g)
    case RestOfLine(prefix) => StartsWith(g, prefix) && |g| > |prefix| && '\n' !in g[|prefix|..]
    case ForintAmount => AmountShape(g, ' ')
    case DotAmount => AmountShape(g, '.')
    case VatPercent => 1 <= |g| <= 2 && AllDigits(g)
    case DashDate => DateShape(g)
    case TeszorCode => TeszorShape(g)
    case PhoneAfterLabel(_) => |g| == 11 && g[..2] == "36" && AllDigits(g)
  }

  function MatchAmount(s: string, i: nat, sep: char, forint: bool): (r: Option<Match>)
    requires i <= |s| && !IsDigit(sep) && sep != ','
    ensures r.Some? ==> i < r.value.end <= |s| && AmountShape(r.value.group, sep)
  {
    var d := RunEnd(Digits, s, i);
    if d == i || d - i > 3 then None
    else
      var g := GroupsEnd(s, d, sep);
      if g + 3 <= |s| && s[g] == ',' && IsDigit(s[g + 1]) && IsDigit(s[g + 2]) then
        var m := s[i..g + 3];
        assert forall j :: 0 <= j < |m| - 3 ==> IsDigit(m[j]) || m[j] == sep by {
          forall j | 0 <= j < |m| - 3 ensures IsDigit(m[j]) || m[j] == sep {
            assert m[j] == s[i + j];
          }
        }
        if !forint then Some(Match(m, g + 3))
        else if OccursAt(s, "Ft", g + 3) then Some(Match(m, g + 5))
        else None
      else None
  }

  function MatchPeriod(prefix: string, s: string, i: nat): (r: Option<Match>)
    requires i <= |s|
    ensures r.Some? ==> i < r.value.end <= |s| && PeriodShape(r.value.group)
  {
    if !OccursAt(s, prefix, i) then None
    else
      var j := RunEnd(Spaces, s, i + |prefix|);
      var a := RunEnd(DigitsOrDots, s, j);
      if a == j || !OccursAt(s, " - ", a) then None
      else
        var b := RunEnd(DigitsOrDots, s, a + 3);
        if b == a + 3 then None
        else
          PeriodGroupShape(s, j, a, b);
          Some(Match(s[j..b], b))
  }

  /** The text from `j` to `b` is a billing period when a dotted run, " - " and a dotted run fill it. */
  lemma PeriodGroupShape(s: string, j: nat, a: nat, b: nat)
    requires j < a && a + 3 < b <= |s|
    requires RunEnd(DigitsOrDots, s, j) == a && OccursAt(s, " - ", a) && RunEnd(DigitsOrDots, s, a + 3) == b
    ensures PeriodShape(s[j..b])
  {
    var g := s[j..b];
    assert s[a..a + 3] == " - ";
    assert g[a - j] == ' ' by {
      assert g[a - j] == s[a] == s[a..a + 3][0];
    }
    var dash := g[a - j..a - j + 3];
    assert dash == s[a..a + 3] by {
      var t := s[a..a + 3];
      forall x | 0 <= x < 3 ensures dash[x] == t[x] {
        assert dash[x] == g[a - j + x] == s[a + x];
      }
    }
    forall x | 0 <= x < a - j ensures InClass(DigitsOrDots, g[x]) {
      assert g[x] == s[j + x];
    }
    RunEndUnique(DigitsOrDots, g, 0, a - j);
    forall x | a - j + 3 <= x < |g| ensures InClass(DigitsOrDots, g[x]) {
      assert g[x] == s[j + x];
    }
  }

  function MatchTeszor(s: string, i: nat): (r: Option<Match>)
    requires i <= |s|
    ensures r.Some? ==> i < r.value.end <= |s| && TeszorShape(r.value.group)
  {
    if (i == 0 || !IsWordChar(s[i - 1])) && i + 7 <= |s|
       && IsDigit(s[i]) && IsDigit(s[i + 1]) && s[i + 2] == '.'
       && IsDigit(s[i + 3]) && IsDigit(s[i + 4]) && s[i + 5] == '.' && IsDigit(s[i + 6])
    then
      var d := RunEnd(Digits, s, i + 6);
      if d > i + 8 || (d < |s| && IsWordChar(s[d])) then None
      else Some(Match(s[i..d], d))
    else None
  }

  function MatchLabelled(prefix: string, k: CharClass, s: string, i: nat): (r: Option<Match>)
    requires i <= |s|
    ensures r.Some? ==> i < r.value.end <= |s| && Shaped(Labelled(prefix, k), r.value.group)
  {
    if !OccursAt(s, prefix, i) then None
    else
      var j := RunEnd(Spaces, s, i + |prefix|);
      var e := RunEnd(k, s, j);
      if e == j then None
      else
        assert forall x :: 0 <= x < e - j ==> s[j..e][x] == s[j + x];
        Some(Match(s[j..e], e))
  }

  function MatchAfterColons(prefix: string, s: string, i: nat): (r: Option<Match>)
    requires i <= |s|
    ensures r.Some? ==> i < r.value.end <= |s| && Shaped(LabelledAfterColons(prefix), r.value.group)
  {
    if !OccursAt(s, prefix, i) then None
    else
      var j := RunEnd(ColonsOrSpaces, s, i + |prefix|);
      var e := RunEnd(Digits, s, j);
      if j == i + |prefix| || e == j then None
      else
        assert forall x :: 0 <= x < e - j ==> s[j..e][x] == s[j + x];
        Some(Match(s[j..e], e))
  }

  function MatchAfterLabel(prefix: string, s: string, i: nat): (r: Option<Match>)
    requires i <= |s|
    ensures r.Some? ==> i < r.value.end <= |s| && Shaped(AfterLabel(prefix), r.value.group)
  {
    if !OccursAt(s, prefix, i) then None
    else
      var j := RunEnd(Spaces, s, i + |prefix|);
      var e := RunEnd(NonSpaces, s, j);
      if j == i + |prefix| || e == j then None
      else
        assert forall x :: 0 <= x < e - j ==> s[j..e][x] == s[j + x];
        Some(Match(s[j..e], e))
  }

  function MatchRestOfLine(prefix: string, s: string, i: nat): (r: Option<Match>)
    requires i <= |s|
    ensures r.Some? ==> i < r.value.end <= |s| && Shaped(RestOfLine(prefix), r.value.group)
  {
    if !OccursAt(s, prefix, i) then None
    else
      var e := RunEnd(NotNewline, s, i + |prefix|);
      if e == i + |prefix| then None
      else
        var g := s[i..e];
        assert g[..|prefix|] == prefix;
        assert forall x :: 0 <= x < |g| - |prefix| ==> g[|prefix|..][x] == s[i + |prefix| + x];
        Some(Match(g, e))
  }

  function MatchVatPercent(s: string, i: nat): (r: Option<Match>)
    requires i <= |s|
    ensures r.Some? ==> i < r.value.end <= |s| && Shaped(VatPercent, r.value.group)
  {
    var d := RunEnd(Digits, s, i);
    if d == i || d - i > 2 then None
    else if d < |s| && s[d] == '%' then Some(Match(s[i..d], d + 1))
    else if d + 1 < |s| && IsSpace(s[d]) && s[d + 1] == '%' then Some(Match(s[i..d], d + 2))
    else None
  }

  function MatchDate(s: string, i: nat): (r: Option<Match>)
    requires i <= |s|
    ensures r.Some? ==> i < r.value.end <= |s| && Shaped(DashDate, r.value.group)
  {
    if DateAt(s, i) then Some(Match(s[i..i + 10], i + 10)) else None
  }

  function MatchPhone(prefix: string, s: string, i: nat): (r: Option<Match>)
    requires i <= |s|
    ensures r.Some? ==> i < r.value.end <= |s| && Shaped(PhoneAfterLabel(prefix), r.value.group)
  {
    if !OccursAt(s, prefix, i) then None
    else
      var j := RunEnd(Spaces, s, i + |prefix|);
      if j + 11 <= |s| && s[j] == '3' && s[j + 1] == '6' && AllDigits(s[j + 2..j + 11]) then
        var g := s[j..j + 11];
        assert forall x :: 2 <= x < 11 ==> g[x] == s[j + 2..j + 11][x - 2];
        Some(Match(g, j + 11))
      else None
  }

  /** The match of `p` that starts exactly at index `i`, if any. */
  function MatchAt(p: Pattern, s: string, i: nat): (r: Option<Match>)
    requires i <= |s|
    ensures r.Some? ==> i < r.value.end <= |s| && Shaped(p, r.value.group)
  {
    match p
    case Labelled(prefix, k) => MatchLabelled(prefix, k, s, i)
    case LabelledAfterColons(prefix) => MatchAfterColons(prefix, s, i)
    case PeriodRange(prefix) => MatchPeriod(prefix, s, i)
    case AfterLabel(prefix) => MatchAfterLabel(prefix, s, i)
    case RestOfLine(prefix) => MatchRestOfLine(prefix, s, i)
    case ForintAmount => MatchAmount(s, i, ' ', true)
    case DotAmount => MatchAmount(s, i, '.', false)
    case VatPercent => MatchVatPercent(s, i)
    case DashDate => MatchDate(s, i)
    case TeszorCode => MatchTeszor(s, i)
    case PhoneAfterLabel(prefix) => MatchPhone(prefix, s, i)
  }

  // ------------------------------------------------- search and findall

  function FindAllFrom(p: Pattern, s: string, i: nat): (r: seq<string>)
    requires i <= |s|
    ensures forall k :: 0 <= k < |r| ==> Shaped(p, r[k])
    decreases |s| - i
  {
    if i == |s| then []
    else match MatchAt(p, s, i)
      case Some(m) => [m.group] + FindAllFrom(p, s, m.end)
      case None => FindAllFrom(p, s, i + 1)
  }

  /** `re.findall(p, s)`: the groups of the successive non-overlapping matches. */
  function FindAll(p: Pattern, s: string): (r: seq<string>)
    ensures forall k :: 0 <= k < |r| ==> Shaped(p, r[k])
  {
    FindAllFrom(p, s, 0)
  }

  function SearchFrom(p: Pattern, s: string, i: nat): (r: Option<string>)
    requires i <= |s|
    ensures r.Some? ==> Shaped(p, r.value)
    decreases |s| - i
  {
    if i == |s| then None
    else match MatchAt(p, s, i)
      case Some(m) => Some(m.group)
      case None => SearchFrom(p, s, i + 1)
  }

  /** `re.search(p, s)`, giving the group of the leftmost match. */
  function Search(p: Pattern, s: string): (r: Option<string>)
    ensures r.Some? ==> Shaped(p, r.value)
  {
    SearchFrom(p, s, 0)
  }

  lemma {:induction false} SearchFromIsFirstFound(p: Pattern, s: string, i: nat)
    requires i <= |s|
    ensures SearchFrom(p, s, i) ==
            if FindAllFrom(p, s, i) == [] then None else Some(FindAllFrom(p, s, i)[0])
    decreases |s| - i
  {
    if i < |s| && MatchAt(p, s, i).None? { SearchFromIsFirstFound(p, s, i + 1); }
  }

  /** `re.search` finds exactly the first of the matches `re.findall` lists. */
  lemma SearchIsFirstFound(p: Pattern, s: string)
    ensures Search(p, s) == if FindAll(p, s) == [] then None else Some(FindAll(p, s)[0])
  {
    SearchFromIsFirstFound(p, s, 0);
  }

  // ------------------------------------------- a lazy group before a date

  function LazyGroupEnd(s: string, j: nat): (r: Option<nat>)
    requires j <= |s|
    ensures r.Some? ==> j <= r.value <= |s| && DateAt(s, RunEnd(Spaces, s, r.value))
    ensures r.Some? ==> forall x :: j <= x < r.value ==> s[x] != '\n'
    decreases |s| - j
  {
    if DateAt(s, RunEnd(Spaces, s, j)) then Some(j)
    else if j < |s| && s[j] != '\n' then LazyGroupEnd(s, j + 1)
    else None
  }

  function LazyBeforeDateFrom(s: string, st: nat): (r: Option<string>)
    requires st <= |s|
    ensures r.Some? ==> |r.value| > 0 && '\n' !in r.value
    decreases |s| - st
  {
    if st == |s| then None
    else if s[st] != '\n' && LazyGroupEnd(s, st + 1).Some? then
      var e := LazyGroupEnd(s, st + 1).value;
      Some(s[st..e])
    else LazyBeforeDateFrom(s, st + 1)
  }

  /**
   * `re.search(r"(.+?)\s*\d{2}-\d{2}-\d{4}", s).group(1)`: the shortest
   * non-empty text, at the leftmost start, that whitespace and a
   * dd-mm-yyyy date follow.
   */
  function LazyBeforeDate(s: string): (r: Option<string>)
    ensures r.Some? ==> |r.value| > 0 && '\n' !in r.value
  {
    LazyBeforeDateFrom(s, 0)
  }
}
