/**
 * The lexical layer of the command interpreter: character classes, the
 * `lower().strip()` normalisation, and one scanner per regular expression the
 * interpreter uses (src/nlp_processor.py).  Each scanner follows Python's `re`
 * semantics for its own pattern: leftmost start position, greedy `+`/`*`/`?`,
 * lazy `*?`, and backtracking where it can change the outcome.
 */
module Lexical {
  import opened Wrappers
  import opened Geometry

  // ---------------------------------------------------------------------------
  // Characters

  /** `\d`, restricted to the ASCII digits. */
  predicate IsDigit(c: char) { '0' <= c <= '9' }

  /** Python's `str.isspace`: what `\s`, `str.strip` and `int()` treat as white space. */
  predicate IsSpace(c: char) {
    c == ' ' || '\t' <= c <= '\r' || '\U{1c}' <= c <= '\U{1f}' || c == '\U{85}' || c == '\U{a0}'
    || c == '\U{1680}' || '\U{2000}' <= c <= '\U{200a}' || c == '\U{2028}' || c == '\U{2029}'
    || c == '\U{202f}' || c == '\U{205f}' || c == '\U{3000}'
  }

  /** The class `["']`. */
  predicate IsQuote(c: char) { c == '"' || c == '\'' }

  /** `\w`: ASCII letters and digits, `_`, and the CJK ideograph blocks. */
  predicate IsWordChar(c: char) {
    'a' <= c <= 'z' || 'A' <= c <= 'Z' || IsDigit(c) || c == '_'
    || '\U{3400}' <= c <= '\U{4dbf}' || '\U{4e00}' <= c <= '\U{9fff}' || '\U{f900}' <= c <= '\U{faff}'
  }

  function LowerChar(c: char): char {
    if 'A' <= c <= 'Z' then (c as int + 32) as char else c
  }

  function UpperChar(c: char): char {
    if 'a' <= c <= 'z' then (c as int - 32) as char else c
  }

  /** `str.lower()` on the ASCII letters. */
  function Lower(s: string): (r: string)
    ensures |r| == |s|
    ensures forall i :: 0 <= i < |s| ==> r[i] == LowerChar(s[i])
  {
    seq(|s|, i requires 0 <= i < |s| => LowerChar(s[i]))
  }

  /** `str.upper()` on the ASCII letters. */
  function Upper(s: string): (r: string)
    ensures |r| == |s|
    ensures forall i :: 0 <= i < |s| ==> r[i] == UpperChar(s[i])
  {
    seq(|s|, i requires 0 <= i < |s| => UpperChar(s[i]))
  }

  /** No ASCII upper-case letter occurs in `s`. */
  predicate IsLowered(s: string) {
    forall i :: 0 <= i < |s| ==> !('A' <= s[i] <= 'Z')
  }

  /** Leading white space removed: `s` is some white space followed by the result. */
  function TrimStart(s: string): (r: string)
    ensures |r| <= |s| && r == s[|s| - |r|..]
    ensures r != [] ==> !IsSpace(r[0])
    ensures forall i :: 0 <= i < |s| - |r| ==> IsSpace(s[i])
  {
    if s != [] && IsSpace(s[0]) then TrimStart(s[1..]) else s
  }

  /** Trailing white space removed: the result followed by some white space is `s`. */
  function TrimEnd(s: string): (r: string)
    ensures |r| <= |s| && r == s[..|r|]
    ensures r != [] ==> !IsSpace(r[|r| - 1])
    ensures forall i :: |r| <= i < |s| ==> IsSpace(s[i])
  {
    if s != [] && IsSpace(s[|s| - 1]) then TrimEnd(s[..|s| - 1]) else s
  }

  /** `str.strip()`. */
  function Strip(s: string): string {
    TrimEnd(TrimStart(s))
  }

  /** `command.lower().strip()`, the form every classifier and builder sees. */
  function Normalize(s: string): string {
    Strip(Lower(s))
  }

  // ---------------------------------------------------------------------------
  // Substrings

  /** `w` occurs in `s` starting at index `i`. */
  predicate ContainsAt(s: string, w: string, i: int) {
    0 <= i && i + |w| <= |s| && forall k :: 0 <= k < |w| ==> s[i + k] == w[k]
  }

  /** Python's `w in s` on strings. */
  predicate Contains(s: string, w: string) {
    exists i | 0 <= i <= |s| - |w| :: ContainsAt(s, w, i)
  }

  // ---------------------------------------------------------------------------
  // Numeric literals

  function DigitValue(c: char): nat {
    if IsDigit(c) then c as int - '0' as int else 0
  }

  /** The value of a run of decimal digits. */
  function DigitsValue(d: string): nat {
    if d == [] then 0 else 10 * DigitsValue(d[..|d| - 1]) + DigitValue(d[|d| - 1])
  }

  /** The value of the digits after a decimal point: `0.d1d2...` is `(d1 + 0.d2...) / 10`. */
  function FractionValue(d: string): (r: real)
    ensures 0.0 <= r <= 1.0
  {
    if d == [] then 0.0 else (DigitValue(d[0]) as real + FractionValue(d[1..])) / 10.0
  }

  /** The end of the run of digits that starts at `i` (greedy `\d*`). */
  function DigitRunEnd(s: string, i: nat): (j: nat)
    requires i <= |s|
    ensures i <= j <= |s|
    ensures j < |s| ==> !IsDigit(s[j])
    decreases |s| - i
  {
    if i < |s| && IsDigit(s[i]) then DigitRunEnd(s, i + 1) else i
  }

  /** A literal found by a scan: its value and the index just past it. */
  datatype Lexeme = Lexeme(number: real, end: nat)

  /** `\d+\.?\d*` matched at `i`, as `float()` reads it. */
  function UnsignedAt(s: string, i: nat): (r: Option<Lexeme>)
    ensures r.Some? <==> i < |s| && IsDigit(s[i])
    ensures r.Some? ==> i < r.value.end <= |s| && r.value.number >= 0.0
  {
    if i < |s| && IsDigit(s[i]) then
      var j := DigitRunEnd(s, i);
      var whole := DigitsValue(s[i..j]) as real;
      if j < |s| && s[j] == '.' then
        var k := DigitRunEnd(s, j + 1);
        Some(Lexeme(whole + FractionValue(s[j + 1..k]), k))
      else
        Some(Lexeme(whole, j))
    else
      None
  }

  /** `-?\d+\.?\d*` matched at `i`. */
  function SignedAt(s: string, i: nat): (r: Option<Lexeme>)
    ensures r.Some? <==> i < |s| && (IsDigit(s[i]) || (s[i] == '-' && i + 1 < |s| && IsDigit(s[i + 1])))
    ensures r.Some? ==> i < r.value.end <= |s|
  {
    if i + 1 < |s| && s[i] == '-' && IsDigit(s[i + 1]) then
      var u := UnsignedAt(s, i + 1).value;
      Some(Lexeme(-u.number, u.end))
    else
      UnsignedAt(s, i)
  }

  /** `re.findall(r'(-?\d+\.?\d*)', s[p..])` read as floats. */
  function NumbersFrom(s: string, p: nat): seq<real>
    decreases |s| - p
  {
    if p >= |s| then []
    else
      var lit := SignedAt(s, p);
      if lit.Some? then [lit.value.number] + NumbersFrom(s, lit.value.end)
      else NumbersFrom(s, p + 1)
  }

  /** `_extract_numbers`. */
  function Numbers(s: string): seq<real> {
    NumbersFrom(s, 0)
  }

  // ---------------------------------------------------------------------------
  // Coordinates

  /** The end of the white space that starts at `i` (greedy `\s*`). */
  function SkipSpaces(s: string, i: nat): (j: nat)
    requires i <= |s|
    ensures i <= j <= |s|
    ensures j < |s| ==> !IsSpace(s[j])
    decreases |s| - i
  {
    if i < |s| && IsSpace(s[i]) then SkipSpaces(s, i + 1) else i
  }

  /** `\s*,\s*` at `i`: the index where the next component may start. */
  function CommaAt(s: string, i: nat): (r: Option<nat>)
    requires i <= |s|
    ensures r.Some? ==> i < r.value <= |s|
  {
    var j := SkipSpaces(s, i);
    if j < |s| && s[j] == ',' then Some(SkipSpaces(s, j + 1)) else None
  }

  /** A coordinate found by the scan, and the index just past its match. */
  datatype CoordinateMatch = CoordinateMatch(point: Point, end: nat)

  /**
   * The coordinate pattern
   * `\(?\s*(-?\d+\.?\d*)\s*,\s*(-?\d+\.?\d*)(?:\s*,\s*(-?\d+\.?\d*))?\s*\)?`
   * tried at `p`.  A missing third component reads as 0.0.
   */
  function CoordinateAt(s: string, p: nat): (r: Option<CoordinateMatch>)
    requires p <= |s|
    ensures r.Some? ==> p < r.value.end <= |s|
  {
    var i := SkipSpaces(s, if p < |s| && s[p] == '(' then p + 1 else p);
    var x := SignedAt(s, i);
    if x.None? then None
    else
      var j := CommaAt(s, x.value.end);
      if j.None? then None
      else
        var y := SignedAt(s, j.value);
        if y.None? then None
        else
          var third := ThirdComponent(s, y.value.end);
          var e := SkipSpaces(s, third.1);
          Some(CoordinateMatch(Point(x.value.number, y.value.number, third.0), if e < |s| && s[e] == ')' then e + 1 else e))
  }

  /** The optional group `(?:\s*,\s*(-?\d+\.?\d*))?` at `i`: the z value and where the match goes on. */
  function ThirdComponent(s: string, i: nat): (r: (real, nat))
    requires i <= |s|
    ensures i <= r.1 <= |s|
  {
    var j := CommaAt(s, i);
    if j.None? then (0.0, i)
    else
      var z := SignedAt(s, j.value);
      if z.None? then (0.0, i) else (z.value.number, z.value.end)
  }

  /** `re.finditer` of the coordinate pattern over `s[p..]`. */
  function CoordinatesFrom(s: string, p: nat): seq<Point>
    requires p <= |s|
    decreases |s| - p
  {
    if p == |s| then []
    else
      var m := CoordinateAt(s, p);
      if m.Some? then [m.value.point] + CoordinatesFrom(s, m.value.end)
      else CoordinatesFrom(s, p + 1)
  }

  /** `_extract_coordinates`. */
  function Coordinates(s: string): seq<Point> {
    CoordinatesFrom(s, 0)
  }

  /**
   * `_extract_coordinates` as the source writes it: a loop over the matches
   * that appends each coordinate to a list.
   */
  method ExtractCoordinates(s: string) returns (coordinates: seq<Point>)
    ensures coordinates == Coordinates(s)
  {
    coordinates := [];
    var p := 0;
    while p < |s|
      invariant p <= |s|
      invariant coordinates + CoordinatesFrom(s, p) == Coordinates(s)
      decreases |s| - p
    {
      var m := CoordinateAt(s, p);
      if m.Some? {
        coordinates := coordinates + [m.value.point];
        p := m.value.end;
      } else {
        p := p + 1;
      }
    }
  }

  // ---------------------------------------------------------------------------
  // re.search and labelled values

  /**
   * `re.search`: the match at the leftmost start position in `p..n` (n is the
   * length of the text) at which `at` succeeds.
   */
  function SearchFrom<T>(n: nat, p: nat, at: nat -> Option<T>): Option<T>
    decreases n + 1 - p
  {
    if p > n then None
    else if at(p).Some? then at(p)
    else SearchFrom(n, p + 1, at)
  }

  function Search<T>(s: string, at: nat -> Option<T>): Option<T> {
    SearchFrom(|s|, 0, at)
  }

  /**
   * `(?:L1|L2|...)` followed by the rest of a pattern at `p`: the alternatives
   * are tried in order and the first whose continuation `rest` matches wins.
   */
  function LabelAt<T>(s: string, labels: seq<string>, p: nat, rest: nat -> Option<T>): Option<T> {
    if labels == [] then None
    else if ContainsAt(s, labels[0], p) && rest(p + |labels[0]|).Some? then rest(p + |labels[0]|)
    else LabelAt(s, labels[1..], p, rest)
  }

  /**
   * `[^\d]*?(-?\d+\.?\d*)` (or `[^\d]*?(\d+\.?\d*)` when unsigned) from `k`:
   * non-digits are skipped one at a time until a literal can start.
   */
  function LazyNumberFrom(s: string, k: nat, signed: bool): Option<real>
    decreases |s| - k
  {
    if k >= |s| then None
    else
      var lit := if signed then SignedAt(s, k) else UnsignedAt(s, k);
      if lit.Some? then Some(lit.value.number)
      else LazyNumberFrom(s, k + 1, signed)  // s[k] is not a digit: `[^\d]` consumes it
  }

  function LazyNumber(s: string, signed: bool): nat -> Option<real> {
    (k: nat) => LazyNumberFrom(s, k, signed)
  }

  /** The label pattern for a number, tried at each start position. */
  function NumberAfterLabel(s: string, labels: seq<string>, signed: bool): nat -> Option<real> {
    (p: nat) => LabelAt(s, labels, p, LazyNumber(s, signed))
  }

  /** `re.search(r'(?:labels)[^\d]*?(-?\d+\.?\d*)', s)`, group 1 as a float. */
  function LabelledNumber(s: string, labels: seq<string>, signed: bool): Option<real> {
    Search(s, NumberAfterLabel(s, labels, signed))
  }

  // ---------------------------------------------------------------------------
  // Quoted text and words

  /**
   * `(.*?)["']` from `e` (followed by a literal `'` when `apostrophe`): the
   * index of the closing quote, which no newline may precede.
   */
  function ClosingQuoteFrom(s: string, e: nat, apostrophe: bool): (r: Option<nat>)
    ensures r.Some? ==> e <= r.value < |s|
    decreases |s| - e
  {
    if e >= |s| then None
    else if IsQuote(s[e]) && (!apostrophe || (e + 1 < |s| && s[e + 1] == '\'')) then Some(e)
    else if s[e] == '\n' then None
    else ClosingQuoteFrom(s, e + 1, apostrophe)
  }

  /** `["'](.*?)["']` (then `'` when `apostrophe`) at `k`: group 1. */
  function QuotedAt(s: string, k: nat, apostrophe: bool): Option<string> {
    if k < |s| && IsQuote(s[k]) then
      var e := ClosingQuoteFrom(s, k + 1, apostrophe);
      if e.Some? then Some(s[k + 1..e.value]) else None
    else None
  }

  /** `[^\w]*?["'](.*?)["']` from `k`: non-word characters are skipped lazily. */
  function LazyQuotedFrom(s: string, k: nat, apostrophe: bool): Option<string>
    decreases |s| - k
  {
    if k >= |s| then None
    else if QuotedAt(s, k, apostrophe).Some? then QuotedAt(s, k, apostrophe)
    else if IsWordChar(s[k]) then None
    else LazyQuotedFrom(s, k + 1, apostrophe)
  }

  /** The end of the run of word characters that starts at `i` (greedy `\w*`). */
  function WordRunEnd(s: string, i: nat): (j: nat)
    requires i <= |s|
    ensures i <= j <= |s|
    ensures j < |s| ==> !IsWordChar(s[j])
    decreases |s| - i
  {
    if i < |s| && IsWordChar(s[i]) then WordRunEnd(s, i + 1) else i
  }

  /** `[^\w]*?(\w+)` from `k`: the first run of word characters. */
  function LazyWordFrom(s: string, k: nat): Option<string>
    decreases |s| - k
  {
    if k >= |s| then None
    else if IsWordChar(s[k]) then Some(s[k..WordRunEnd(s, k)])
    else LazyWordFrom(s, k + 1)
  }

  function LazyQuoted(s: string, apostrophe: bool): nat -> Option<string> {
    (k: nat) => LazyQuotedFrom(s, k, apostrophe)
  }

  /**
   * A lower-case label matched without regard to case at `p`, then the rest
   * of the pattern: the labels are found in the lowered text, and the quoted
   * text is taken from `s` as it is, since lowering moves no quote, newline
   * or word character.
   */
  function QuotedAfterLabel(s: string, labels: seq<string>, apostrophe: bool): nat -> Option<string> {
    (p: nat) => LabelAt(Lower(s), labels, p, LazyQuoted(s, apostrophe))
  }

  /** `re.search(r'(?:labels)[^\w]*?["\'](.*?)["\']', s, re.IGNORECASE)`, group 1. */
  function LabelledQuoted(s: string, labels: seq<string>, apostrophe: bool): Option<string> {
    Search(s, QuotedAfterLabel(s, labels, apostrophe))
  }

  function LazyWord(s: string): nat -> Option<string> {
    (k: nat) => LazyWordFrom(s, k)
  }

  /** A lower-case label matched without regard to case at `p`, then `[^\w]*?(\w+)` in `s` as it is. */
  function WordAfterLabel(s: string, labels: seq<string>): nat -> Option<string> {
    (p: nat) => LabelAt(Lower(s), labels, p, LazyWord(s))
  }

  /** `re.search(r'(?:labels)[^\w]*?(\w+)', s, re.IGNORECASE)`, group 1. */
  function LabelledWord(s: string, labels: seq<string>): Option<string> {
    Search(s, WordAfterLabel(s, labels))
  }

  function Quoted(s: string): nat -> Option<string> {
    (p: nat) => QuotedAt(s, p, false)
  }

  /** `re.search(r'["\'](.*?)["\']', s)`, group 1. */
  function FirstQuoted(s: string): Option<string> {
    Search(s, Quoted(s))
  }
}
