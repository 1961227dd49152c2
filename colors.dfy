/**
 * The colour resolver `extract_color_from_command` (src/nlp_processor.py):
 * integer text in 1..255 is taken as a colour index; otherwise the first
 * colour name of the table, in definition order, that occurs in the lowered
 * text decides; otherwise a regular-expression fallback looks for words
 * ending in 色 that are table names; otherwise the index is 7 (white).
 */
module Colors {
  import opened Wrappers
  import opened Lexical
  import opened Notation

  /** The colour table in its definition order: a name and its colour index. */
  const ColorTable: seq<(string, int)> := [
    ("红色", 1), ("黄色", 2), ("绿色", 3), ("青色", 4), ("蓝色", 5), ("洋红色", 6),
    ("白色", 7), ("灰色", 8), ("浅灰色", 9), ("黑色", 250), ("棕色", 251), ("橙色", 30),
    ("紫色", 200),
    ("Red", 1), ("Yellow", 2), ("Green", 3), ("Cyan", 4), ("Blue", 5), ("Magenta", 6),
    ("White", 7), ("Gray", 8), ("Light Gray", 9), ("Black", 250), ("Brown", 251),
    ("Orange", 30), ("Purple", 200)
  ]

  /** The index returned when nothing else applies: white. */
  const DefaultColor: int := 7

  /** Every index of a table is a valid colour index. */
  predicate IndicesInRange(table: seq<(string, int)>) {
    forall i :: 0 <= i < |table| ==> 1 <= table[i].1 <= 255
  }

  lemma {:induction false} ColorTableInRange()
    ensures IndicesInRange(ColorTable)
  {
  }

  // ---------------------------------------------------------------------------
  // Python's int() on a string

  /** Decimal digits with single `_` between digits, as `int()` accepts them. */
  predicate IsIntBody(t: string) {
    t != [] && IsDigit(t[0])
    && forall i :: 0 <= i < |t| ==> IsDigit(t[i]) || (t[i] == '_' && i + 1 < |t| && IsDigit(t[i + 1]))
  }

  /** The digits of `t` with the `_` separators dropped. */
  function WithoutUnderscores(t: string): (r: string)
    ensures |r| <= |t|
  {
    if t == [] then []
    else if t[0] == '_' then WithoutUnderscores(t[1..])
    else [t[0]] + WithoutUnderscores(t[1..])
  }

  /** An unsigned `int()` body, or `None` where `int()` raises ValueError. */
  function UnsignedInt(t: string): (r: Option<nat>) {
    if IsIntBody(t) then Some(DigitsValue(WithoutUnderscores(t))) else None
  }

  /**
   * `int(s)` for a string: surrounding white space is ignored, one optional
   * sign, then the body; `None` where Python raises ValueError.
   */
  function ParseInt(s: string): (r: Option<int>) {
    var t := Strip(s);
    if t != [] && (t[0] == '+' || t[0] == '-') then
      var u := UnsignedInt(t[1..]);
      if u.None? then None else var v: int := u.value; Some(if t[0] == '-' then -v else v)
    else
      var u := UnsignedInt(t);
      if u.None? then None else Some(u.value)
  }

  // ---------------------------------------------------------------------------
  // Name lookup

  /** The first entry whose lower-cased name occurs in `c`: `for name in keys(): if name.lower() in c`. */
  function FirstColorName(c: string, table: seq<(string, int)>): (r: Option<int>)
    requires IndicesInRange(table)
    ensures r.Some? ==> 1 <= r.value <= 255
  {
    if table == [] then None
    else if Contains(c, Lower(table[0].0)) then Some(table[0].1)
    else FirstColorName(c, table[1..])
  }

  /** `table[w]`: the dictionary lookup of a word as a key. */
  function LookupName(w: string, table: seq<(string, int)>): (r: Option<int>)
    requires IndicesInRange(table)
    ensures r.Some? ==> 1 <= r.value <= 255
  {
    if table == [] then None
    else if table[0].0 == w then Some(table[0].1)
    else LookupName(w, table[1..])
  }

  // ---------------------------------------------------------------------------
  // The fallback pattern `([深浅淡]?[a-zA-Z一-龥]+色)`

  predicate IsShadePrefix(c: char) { c == '深' || c == '浅' || c == '淡' }

  /** The class `[a-zA-Z一-龥]`. */
  predicate IsColorLetter(c: char) { 'a' <= c <= 'z' || 'A' <= c <= 'Z' || '一' <= c <= '龥' }

  /** The end of the run of `[a-zA-Z一-龥]` that starts at `i` (greedy `+` before backtracking). */
  function LetterRunEnd(s: string, i: nat): (j: nat)
    requires i <= |s|
    ensures i <= j <= |s|
    ensures forall k :: i <= k < j ==> IsColorLetter(s[k])
    decreases |s| - i
  {
    if i < |s| && IsColorLetter(s[i]) then LetterRunEnd(s, i + 1) else i
  }

  /** The last `色` in `s[lo..hi]`: where the backtracking `+` gives back enough for `色` to match. */
  function LastSe(s: string, lo: nat, hi: nat): (r: Option<nat>)
    requires hi <= |s|
    ensures r.Some? ==> lo <= r.value < hi && s[r.value] == '色'
    decreases hi
  {
    if hi <= lo then None
    else if s[hi - 1] == '色' then Some(hi - 1)
    else LastSe(s, lo, hi - 1)
  }

  /**
   * The fallback pattern tried at `i`: the end of its match.  The optional
   * shade prefix is taken first; when the rest cannot match after it, the
   * pattern is tried again without it.
   */
  function ColorWordAt(s: string, i: nat): (r: Option<nat>)
    requires i <= |s|
    ensures r.Some? ==> i < r.value <= |s|
  {
    if i < |s| && IsShadePrefix(s[i]) && i + 1 < |s| && LastSe(s, i + 2, LetterRunEnd(s, i + 1)).Some? then
      Some(LastSe(s, i + 2, LetterRunEnd(s, i + 1)).value + 1)
    else if i < |s| && IsColorLetter(s[i]) then
      var k := LastSe(s, i + 1, LetterRunEnd(s, i));
      if k.Some? then Some(k.value + 1) else None
    else
      None
  }

  /** `re.findall` of the fallback pattern over `s[p..]`. */
  function ColorWordsFrom(s: string, p: nat): seq<string>
    requires p <= |s|
    decreases |s| - p
  {
    if p >= |s| then []
    else
      var e := ColorWordAt(s, p);
      if e.Some? then [s[p..e.value]] + ColorWordsFrom(s, e.value) else ColorWordsFrom(s, p + 1)
  }

  /** The first word found by the fallback pattern that is a key of the table. */
  function FirstKnownWord(words: seq<string>, table: seq<(string, int)>): (r: Option<int>)
    requires IndicesInRange(table)
    ensures r.Some? ==> 1 <= r.value <= 255
  {
    if words == [] then None
    else
      var v := LookupName(words[0], table);
      if v.Some? then v else FirstKnownWord(words[1..], table)
  }

  // ---------------------------------------------------------------------------
  // The resolver

  /** `extract_color_from_command(command)`; `None` stands for Python's `None`. */
  function ExtractColor(command: Option<string>): (r: int)
    ensures 1 <= r <= 255
  {
    if command.None? then DefaultColor
    else
      var n := ParseInt(command.value);
      if n.Some? && 1 <= n.value <= 255 then n.value
      else
        var c := Lower(command.value);
        ColorTableInRange();
        var named := FirstColorName(c, ColorTable);
        if named.Some? then named.value
        else
          var found := FirstKnownWord(ColorWordsFrom(c, 0), ColorTable);
          if found.Some? then found.value else DefaultColor
  }
}
