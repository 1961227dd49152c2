/**
 * The number and coordinate scanners read back what is written in their
 * notation: `_extract_numbers` returns every integer of a space-separated list
 * in order, and `_extract_coordinates` returns every `(x,y)` / `(x,y,z)` point
 * of a command, in order, with 0 for a missing third component.
 */
module ScanFacts {
  import opened Wrappers
  import opened Geometry
  import opened Lexical
  import opened Notation

  /** Over a run of digits, the greedy `\d*` stops exactly where the run does. */
  lemma {:induction false} DigitRunReaches(s: string, i: nat, e: nat)
    requires i <= e <= |s|
    requires forall k :: i <= k < e ==> IsDigit(s[k])
    requires e < |s| ==> !IsDigit(s[e])
    ensures DigitRunEnd(s, i) == e
    decreases e - i
  {
    if i < e {
      DigitRunReaches(s, i + 1, e);
    }
  }

  /** A numeral not followed by a digit or a `.` reads as that natural number. */
  lemma {:induction false} UnsignedReadsNumeral(s: string, i: nat, n: nat)
    requires ContainsAt(s, DecimalText(n), i)
    requires var e := i + |DecimalText(n)|; e < |s| ==> !IsDigit(s[e]) && s[e] != '.'
    ensures UnsignedAt(s, i) == Some(Lexeme(n as real, i + |DecimalText(n)|))
  {
    var d := DecimalText(n);
    var e := i + |d|;
    forall k | i <= k < e ensures IsDigit(s[k]) {
      assert s[i + (k - i)] == d[k - i];
    }
    var j := DigitRunEnd(s, i);
    DigitRunReaches(s, i, e);
    assert s[i..j] == d;
    DecimalTextValue(n);
  }

  /** A numeral without a sign, not followed by a digit or a `.`, reads as that number. */
  lemma {:induction false} SignedReadsNatural(s: string, i: nat, n: nat)
    requires ContainsAt(s, DecimalText(n), i)
    requires var e := i + |DecimalText(n)|; e < |s| ==> !IsDigit(s[e]) && s[e] != '.'
    ensures SignedAt(s, i) == Some(Lexeme(n as real, i + |DecimalText(n)|))
  {
    UnsignedReadsNumeral(s, i, n);
  }

  /** A `-` and a numeral, not followed by a digit or a `.`, reads as the negated number. */
  lemma {:induction false} SignedReadsNegative(s: string, i: nat, n: int)
    requires n < 0 && ContainsAt(s, "-" + DecimalText(-n), i)
    requires var e := i + 1 + |DecimalText(-n)|; e < |s| ==> !IsDigit(s[e]) && s[e] != '.'
    ensures SignedAt(s, i) == Some(Lexeme(n as real, i + 1 + |DecimalText(-n)|))
  {
    ConcatOccurs(s, "-", DecimalText(-n), i);
    FirstOccurs(s, "-", i);
    UnsignedReadsNumeral(s, i + 1, -n);
  }

  /** A signed numeral not followed by a digit or a `.` reads as that integer. */
  lemma {:induction false} SignedReadsInt(s: string, i: nat, n: int)
    requires ContainsAt(s, IntText(n), i)
    requires var e := i + |IntText(n)|; e < |s| ==> !IsDigit(s[e]) && s[e] != '.'
    ensures SignedAt(s, i) == Some(Lexeme(n as real, i + |IntText(n)|))
  {
    if n < 0 {
      SignedReadsNegative(s, i, n);
    } else {
      SignedReadsNatural(s, i, n);
    }
  }

  /** A numeral, a `.` and one more digit, not followed by a digit, reads as the numeral plus that many tenths. */
  lemma {:induction false} UnsignedReadsTenths(s: string, i: nat, n: nat, d: char)
    requires IsDigit(d) && ContainsAt(s, DecimalText(n) + "." + [d], i)
    requires var e := i + |DecimalText(n)| + 2; e < |s| ==> !IsDigit(s[e])
    ensures UnsignedAt(s, i) == Some(Lexeme(n as real + DigitValue(d) as real / 10.0, i + |DecimalText(n)| + 2))
  {
    var w := DecimalText(n);
    var point := i + |w|;
    ConcatOccurs(s, w + ".", [d], i);
    ConcatOccurs(s, w, ".", i);
    forall k | i <= k < point ensures IsDigit(s[k]) {
      assert s[i + (k - i)] == w[k - i];
    }
    assert s[point + 0] == "."[0];
    DigitRunReaches(s, i, point);
    assert s[i..point] == w;
    DecimalTextValue(n);
    assert s[point + 1 + 0] == [d][0];
    DigitRunReaches(s, point + 1, point + 2);
    assert s[point + 1..point + 2] == [d];
    assert FractionValue([d]) == (DigitValue(d) as real + FractionValue([])) / 10.0;
  }

  /** Where a space-separated list of integers occurs: its first numeral, a space, then the rest. */
  lemma {:induction false} IntsTextSplit(s: string, p: nat, ns: seq<int>)
    requires ns != [] && ContainsAt(s, IntsText(ns), p) && p + |IntsText(ns)| == |s|
    ensures var e, rest := p + |IntText(ns[0])|, IntsText(ns[1..]);
      && ContainsAt(s, IntText(ns[0]), p) && e < |s| && s[e] == ' '
      && ContainsAt(s, rest, e + 1) && e + 1 + |rest| == |s|
  {
    var t, rest := IntText(ns[0]), IntsText(ns[1..]);
    assert IntsText(ns) == (t + " ") + rest;
    ConcatOccurs(s, t + " ", rest, p);
    ConcatOccurs(s, t, " ", p);
    FirstOccurs(s, " ", p + |t|);
  }

  /** The space-separated integers occur at `p` and run to the end of `s`. */
  predicate IntsAt(s: string, p: nat, ns: seq<int>) {
    ContainsAt(s, IntsText(ns), p) && p + |IntsText(ns)| == |s|
  }

  /** A literal read at `p` is reported, and `findall` resumes where it ends. */
  lemma NumbersFromRead(s: string, p: nat, x: Lexeme)
    requires p < |s| && SignedAt(s, p) == Some(x)
    ensures NumbersFrom(s, p) == [x.number] + NumbersFrom(s, x.end)
  {
  }

  /** No literal at `p`: `findall` moves on to `p + 1`. */
  lemma NumbersFromSkip(s: string, p: nat)
    requires p < |s| && SignedAt(s, p).None?
    ensures NumbersFrom(s, p) == NumbersFrom(s, p + 1)
  {
  }

  /** An integer followed by a space is read, and reading goes on after the space. */
  lemma {:induction false} NumbersFromInt(s: string, p: nat, n: int)
    requires ContainsAt(s, IntText(n), p)
    requires var e := p + |IntText(n)|; e < |s| && s[e] == ' '
    ensures NumbersFrom(s, p) == [n as real] + NumbersFrom(s, p + |IntText(n)| + 1)
  {
    var e := p + |IntText(n)|;
    SignedReadsInt(s, p, n);
    NumbersFromRead(s, p, Lexeme(n as real, e));
    NumbersFromSkip(s, e);
  }

  /** `_extract_numbers` reads back a space-separated list of integers that ends the text. */
  lemma {:induction false} NumbersFromInts(s: string, p: nat, ns: seq<int>, r: seq<real>)
    requires IntsAt(s, p, ns) && r == Reals(ns)
    ensures NumbersFrom(s, p) == r
  {
    forall q: nat | IntsAt(s, q, []) ensures NumbersFrom(s, q) == [] {
      NumbersFromEnd(s, q);
    }
    forall q: nat, ms | ms != [] && IntsAt(s, q, ms)
      ensures IntsAt(s, q + |IntText(ms[0])| + 1, ms[1..])
      ensures NumbersFrom(s, q) == [ms[0] as real] + NumbersFrom(s, q + |IntText(ms[0])| + 1)
    {
      IntsAtRest(s, q, ms);
      NumbersFromIntsStep(s, q, ms);
    }
    ReadsEach((k: nat) => if k <= |s| then NumbersFrom(s, k) else [],
              (q: nat, ms: seq<int>) => IntsAt(s, q, ms),
              (q: nat, n: int) => q + |IntText(n)| + 1,
              (n: int) => n as real,
              p, ns, r);
  }

  /** Nothing is left to read at the end of the text. */
  lemma NumbersFromEnd(s: string, p: nat)
    requires p == |s|
    ensures NumbersFrom(s, p) == []
  {
  }

  /** The rest of the list is written after the first integer and its space. */
  lemma IntsAtRest(s: string, p: nat, ns: seq<int>)
    requires ns != [] && IntsAt(s, p, ns)
    ensures IntsAt(s, p + |IntText(ns[0])| + 1, ns[1..])
  {
    IntsTextSplit(s, p, ns);
  }

  /** The list opens with its first integer and a space. */
  lemma IntsAtHead(s: string, p: nat, ns: seq<int>)
    requires ns != [] && IntsAt(s, p, ns)
    ensures ContainsAt(s, IntText(ns[0]), p)
    ensures var e := p + |IntText(ns[0])|; e < |s| && s[e] == ' '
  {
    IntsTextSplit(s, p, ns);
  }

  /** The first integer of the list is read, and reading goes on after its space. */
  lemma NumbersFromIntsStep(s: string, p: nat, ns: seq<int>)
    requires ns != [] && IntsAt(s, p, ns)
    ensures NumbersFrom(s, p) == [ns[0] as real] + NumbersFrom(s, p + |IntText(ns[0])| + 1)
  {
    IntsAtHead(s, p, ns);
    NumbersFromInt(s, p, ns[0]);
  }

  lemma {:induction false} NumbersReadsInts(ns: seq<int>)
    ensures Numbers(IntsText(ns)) == Reals(ns)
  {
    NumbersFromInts(IntsText(ns), 0, ns, Reals(ns));
  }

  /** An occurrence of `a + b` is an occurrence of `a` followed by one of `b`. */
  lemma {:induction false} ConcatOccurs(s: string, a: string, b: string, p: nat)
    requires ContainsAt(s, a + b, p)
    ensures ContainsAt(s, a, p) && ContainsAt(s, b, p + |a|)
  {
    forall k | 0 <= k < |a| ensures s[p + k] == a[k] {
      assert (a + b)[k] == a[k];
    }
    forall k | 0 <= k < |b| ensures s[p + |a| + k] == b[k] {
      assert s[p + (|a| + k)] == (a + b)[|a| + k];
    }
  }

  /** An occurrence of a non-empty `w` starts with its first character. */
  lemma {:induction false} FirstOccurs(s: string, w: string, p: nat)
    requires ContainsAt(s, w, p) && w != []
    ensures p < |s| && s[p] == w[0]
  {
    assert s[p + 0] == w[0];
  }

  /** Where the pieces of a written point start and end, relative to its `(` at `p`. */
  function CommaIndex(p: nat, x: int): nat { p + 1 + |IntText(x)| }

  function PairEnd(p: nat, x: int, y: int): nat { CommaIndex(p, x) + 1 + |IntText(y)| }

  /** `(x,y` occurs at `p`, the numerals of `x` and `y` in place. */
  predicate PairAt(s: string, p: nat, x: int, y: int) {
    PairEnd(p, x, y) < |s| && s[p] == '(' && ContainsAt(s, IntText(x), p + 1)
    && s[CommaIndex(p, x)] == ',' && ContainsAt(s, IntText(y), CommaIndex(p, x) + 1)
  }

  /** The written point `g` occurs at `p`, piece by piece. */
  predicate PointAt(s: string, p: nat, g: GridPoint) {
    PairAt(s, p, g.x, g.y) && TailAt(s, PairEnd(p, g.x, g.y), g)
  }

  /** What closes the written point `g` at `d`, just after its `y`: `)` or `,z)`. */
  predicate TailAt(s: string, d: nat, g: GridPoint) {
    if g.Grid2? then d < |s| && s[d] == ')'
    else d < |s| && s[d] == ',' && ContainsAt(s, IntText(g.z), d + 1) && d + 1 + |IntText(g.z)| < |s| && s[d + 1 + |IntText(g.z)|] == ')'
  }

  /** The length of a written point, piece by piece. */
  function PointEnd(p: nat, g: GridPoint): nat {
    PairEnd(p, g.x, g.y) + if g.Grid2? then 1 else 2 + |IntText(g.z)|
  }

  /** The closing part of a written point: `)`, or `,z)`. */
  function PointTail(g: GridPoint): string {
    if g.Grid2? then ")" else "," + IntText(g.z) + ")"
  }

  /** A written point is `(`, x, `,`, y and its closing part. */
  lemma PointTextSplit(g: GridPoint)
    ensures PointText(g) == "(" + IntText(g.x) + "," + IntText(g.y) + PointTail(g)
  {
  }

  /** An occurrence of the text of `g` lays out `(x,y` as `PairAt` says, and its closing part after. */
  lemma {:induction false} PointTextOccurs(s: string, p: nat, g: GridPoint)
    requires ContainsAt(s, PointText(g), p)
    ensures PairAt(s, p, g.x, g.y) && ContainsAt(s, PointTail(g), PairEnd(p, g.x, g.y))
  {
    var X, Y := IntText(g.x), IntText(g.y);
    PointTextSplit(g);
    ConcatOccurs(s, "(" + X + "," + Y, PointTail(g), p);
    ConcatOccurs(s, "(" + X + ",", Y, p);
    ConcatOccurs(s, "(" + X, ",", p);
    ConcatOccurs(s, "(", X, p);
    FirstOccurs(s, "(", p);
    FirstOccurs(s, ",", p + 1 + |X|);
    FirstOccurs(s, PointTail(g), PairEnd(p, g.x, g.y));
  }

  /** An occurrence of the closing part of `g` closes it as `TailAt` says. */
  lemma {:induction false} PointTailOccurs(s: string, d: nat, g: GridPoint)
    requires ContainsAt(s, PointTail(g), d)
    ensures TailAt(s, d, g)
  {
    if g.Grid2? {
      FirstOccurs(s, ")", d);
    } else {
      var Z := IntText(g.z);
      ConcatOccurs(s, "," + Z, ")", d);
      ConcatOccurs(s, ",", Z, d);
      FirstOccurs(s, ",", d);
      FirstOccurs(s, ")", d + 1 + |Z|);
    }
  }

  /** An occurrence of the text of `g` lays its pieces out as `PointAt` says. */
  lemma {:induction false} PointTextLayout(s: string, p: nat, g: GridPoint)
    requires ContainsAt(s, PointText(g), p)
    ensures PointAt(s, p, g) && p + |PointText(g)| == PointEnd(p, g)
  {
    PointTextOccurs(s, p, g);
    PointTailOccurs(s, PairEnd(p, g.x, g.y), g);
  }

  /** The `x` of a written `(x,y` is read right after the `(`. */
  lemma {:induction false} PairReadsX(s: string, p: nat, x: int, y: int)
    requires PairAt(s, p, x, y)
    ensures SignedAt(s, p + 1) == Some(Lexeme(x as real, CommaIndex(p, x)))
  {
    var a := p + 1;
    assert s[a + 0] == IntText(x)[0];
    SignedReadsInt(s, a, x);
  }

  /** `(x,` read at `p`, the comma at `b` leading straight to `y`. */
  predicate PairRead(s: string, p: nat, b: nat, d: nat, x: real, y: real) {
    p < |s| && s[p] == '(' && SignedAt(s, p + 1) == Some(Lexeme(x, b))
    && b < |s| && s[b] == ',' && SignedAt(s, b + 1) == Some(Lexeme(y, d)) && d < |s|
  }

  /** No white space interrupts a pair read at `p`. */
  lemma {:induction false} PairReadSteps(s: string, p: nat, b: nat, d: nat, x: real, y: real)
    requires PairRead(s, p, b, d, x, y)
    ensures SkipSpaces(s, p + 1) == p + 1 && CommaAt(s, b) == Some(b + 1)
  {
    assert SkipSpaces(s, b) == b;
  }

  /** `,z` read right after `d`. */
  lemma {:induction false} ThirdReads(s: string, d: nat, z: real, f: nat)
    requires d < |s| && s[d] == ','
    requires SignedAt(s, d + 1) == Some(Lexeme(z, f))
    ensures ThirdComponent(s, d) == (z, f)
  {
    assert SkipSpaces(s, d) == d;
    assert CommaAt(s, d) == Some(d + 1) by {
      assert SkipSpaces(s, d + 1) == d + 1;
    }
  }

  /** Nothing but `)` right after `d`: the optional third group is skipped. */
  lemma {:induction false} ThirdAbsent(s: string, d: nat)
    requires d < |s| && s[d] == ')'
    ensures ThirdComponent(s, d) == (0.0, d)
  {
    assert SkipSpaces(s, d) == d;
  }

  /** The coordinate pattern at `(x,y` followed by the optional group read as `(z, f)`, then `)`. */
  lemma {:induction false} CoordinateAtRead(s: string, p: nat, b: nat, d: nat, x: real, y: real, z: real, f: nat, m: CoordinateMatch)
    requires PairRead(s, p, b, d, x, y) && ThirdComponent(s, d) == (z, f)
    requires SkipSpaces(s, p + 1) == p + 1 && CommaAt(s, b) == Some(b + 1)
    requires f < |s| && s[f] == ')' && SkipSpaces(s, f) == f
    requires m == CoordinateMatch(Point(x, y, z), f + 1)
    ensures CoordinateAt(s, p) == Some(m)
  {
  }

  /** A written `(x,y` laid out at `p` is read as such. */
  lemma {:induction false} PairAtReads(s: string, p: nat, g: GridPoint)
    requires PairAt(s, p, g.x, g.y)
    requires var d := PairEnd(p, g.x, g.y); s[d] == ')' || s[d] == ','
    ensures PairRead(s, p, CommaIndex(p, g.x), PairEnd(p, g.x, g.y), g.x as real, g.y as real)
  {
    SignedReadsInt(s, p + 1, g.x);
    SignedReadsInt(s, CommaIndex(p, g.x) + 1, g.y);
  }

  /** The `z` of a written `(x,y,z)` laid out at `p` is read after the second comma. */
  lemma {:induction false} TailReadsZ(s: string, d: nat, g: GridPoint)
    requires g.Grid3? && TailAt(s, d, g)
    ensures SignedAt(s, d + 1) == Some(Lexeme(g.z as real, d + 1 + |IntText(g.z)|))
  {
    assert s[d + 1 + 0] == IntText(g.z)[0];
    SignedReadsInt(s, d + 1, g.z);
  }

  /** Where the `)` closing the written point `g` sits, when its tail starts at `d`. */
  function CloseIndex(d: nat, g: GridPoint): nat {
    if g.Grid2? then d else d + 1 + |IntText(g.z)|
  }

  /** `\s*` does not move from a `)`. */
  lemma ClosedAt(s: string, f: nat)
    requires f < |s| && s[f] == ')'
    ensures SkipSpaces(s, f) == f
  {
  }

  /** The tail `,z)` of a written point is read as its z, up to the `)`. */
  lemma {:induction false} TailReads3(s: string, d: nat, g: GridPoint)
    requires g.Grid3? && TailAt(s, d, g)
    ensures ThirdComponent(s, d) == (g.z as real, CloseIndex(d, g))
  {
    TailReadsZ(s, d, g);
    ThirdReads(s, d, g.z as real, d + 1 + |IntText(g.z)|);
  }

  /** What follows the `y` of a written point is read as its z, up to its `)`. */
  lemma {:induction false} TailReads(s: string, d: nat, g: GridPoint)
    requires TailAt(s, d, g)
    ensures var f := CloseIndex(d, g);
      ThirdComponent(s, d) == (GridValue(g).z, f) && f < |s| && s[f] == ')' && SkipSpaces(s, f) == f
  {
    if g.Grid2? {
      ThirdAbsent(s, d);
    } else {
      TailReads3(s, d, g);
    }
    ClosedAt(s, CloseIndex(d, g));
  }

  /** A written point laid out at `p` is matched there in full. */
  lemma {:induction false} CoordinateReadsPointAt(s: string, p: nat, g: GridPoint, m: CoordinateMatch)
    requires PointAt(s, p, g)
    requires m == CoordinateMatch(GridValue(g), PointEnd(p, g))
    ensures CoordinateAt(s, p) == Some(m)
  {
    var b, d := CommaIndex(p, g.x), PairEnd(p, g.x, g.y);
    var f := CloseIndex(d, g);
    var v := GridValue(g);
    PairAtReads(s, p, g);
    TailReads(s, d, g);
    PairReadSteps(s, p, b, d, v.x, v.y);
    CoordinateAtRead(s, p, b, d, v.x, v.y, v.z, f, m);
  }

  /** A written point, wherever it occurs, is matched there in full. */
  lemma {:induction false} CoordinateReadsPoint(s: string, p: nat, g: GridPoint, m: CoordinateMatch)
    requires ContainsAt(s, PointText(g), p)
    requires m == CoordinateMatch(GridValue(g), p + |PointText(g)|)
    ensures CoordinateAt(s, p) == Some(m)
  {
    PointTextLayout(s, p, g);
    CoordinateReadsPointAt(s, p, g, m);
  }

  /** `\s*` from `q` stops at or before a character that is not white space. */
  lemma {:induction false} SkipSpacesStops(s: string, q: nat, n: nat)
    requires q <= n <= |s|
    requires n < |s| ==> !IsSpace(s[n])
    ensures SkipSpaces(s, q) <= n
    decreases n - q
  {
    if q < n {
      SkipSpacesStops(s, q + 1, n);
    }
  }

  /** No coordinate starts at plain text that runs up to a `(` or the end. */
  lemma {:induction false} PlainTextNoCoordinate(s: string, q: nat, n: nat)
    requires q < n <= |s|
    requires forall k :: q <= k < n ==> !IsDigit(s[k]) && s[k] != '-' && s[k] != '('
    requires n < |s| ==> s[n] == '('
    ensures CoordinateAt(s, q).None?
  {
    var i := SkipSpaces(s, q);
    SkipSpacesStops(s, q, n);
    assert i < |s| ==> !IsDigit(s[i]) && s[i] != '-';
  }

  /** No coordinate at `q`: `finditer` moves on to `q + 1`. */
  lemma CoordinatesFromSkip(s: string, q: nat)
    requires q < |s| && CoordinateAt(s, q).None?
    ensures CoordinatesFrom(s, q) == CoordinatesFrom(s, q + 1)
  {
  }

  /** Plain text at `q` holds no coordinate: `finditer` moves on to `q + 1`. */
  lemma {:induction false} PlainTextSkip(s: string, q: nat, n: nat)
    requires PlainUpTo(s, q, n) && q < n
    ensures CoordinatesFrom(s, q) == CoordinatesFrom(s, q + 1)
  {
    PlainTextNoCoordinate(s, q, n);
    CoordinatesFromSkip(s, q);
  }

  /** From `q` to `n` no digit, `-` or `(`, and then `(` or the end. */
  predicate PlainUpTo(s: string, q: nat, n: nat) {
    && q <= n <= |s|
    && (forall k :: q <= k < n ==> !IsDigit(s[k]) && s[k] != '-' && s[k] != '(')
    && (n < |s| ==> s[n] == '(')
  }

  /** A function that keeps its value from each index to the next keeps it over the whole range. */
  lemma {:induction false} SteadyOver<T>(f: nat -> T, q: nat, n: nat)
    requires q <= n
    requires forall k :: q <= k < n ==> f(k) == f(k + 1)
    ensures f(q) == f(n)
    decreases n - q
  {
    if q < n {
      SteadyOver(f, q + 1, n);
    }
  }

  /**
   * A scan `f` over a text laid out as a list: when nothing is read where an
   * empty list is laid out, and each item is read as `val` of it before the
   * scan goes on at `next`, where the rest is laid out, the scan reads every
   * item in order.
   */
  lemma {:induction false} ReadsEach<G, T>(f: nat -> seq<T>, at: (nat, seq<G>) -> bool, next: (nat, G) -> nat,
                                          val: G -> T, p: nat, gs: seq<G>, r: seq<T>)
    requires at(p, gs) && |r| == |gs| && forall i :: 0 <= i < |gs| ==> r[i] == val(gs[i])
    requires forall q :: at(q, []) ==> f(q) == []
    requires forall q, hs :: hs != [] && at(q, hs) ==> at(next(q, hs[0]), hs[1..]) && f(q) == [val(hs[0])] + f(next(q, hs[0]))
    ensures f(p) == r
    decreases gs
  {
    if gs != [] {
      ReadsEach(f, at, next, val, next(p, gs[0]), gs[1..], r[1..]);
      assert r == [val(gs[0])] + r[1..];
    }
  }

  /** Text with no digit, `-` or `(` yields no coordinate before the next `(`. */
  lemma {:induction false} PlainTextReadsNothing(s: string, q: nat, n: nat)
    requires PlainUpTo(s, q, n)
    ensures CoordinatesFrom(s, q) == CoordinatesFrom(s, n)
  {
    forall k | q <= k < n ensures CoordinatesFrom(s, k) == CoordinatesFrom(s, k + 1) {
      PlainTextSkip(s, k, n);
    }
    SteadyOver((k: nat) => if k <= |s| then CoordinatesFrom(s, k) else [], q, n);
  }

  /** A match at `p` is reported, and `finditer` resumes where it ends. */
  lemma {:induction false} CoordinatesFromMatch(s: string, p: nat, m: CoordinateMatch)
    requires p <= |s| && CoordinateAt(s, p) == Some(m)
    ensures CoordinatesFrom(s, p) == [m.point] + CoordinatesFrom(s, m.end)
  {
  }

  /** A space before `(` or the end holds no coordinate: `finditer` moves past it. */
  lemma {:induction false} CoordinatesFromSpace(s: string, e: nat)
    requires e < |s| && s[e] == ' ' && (e + 1 < |s| ==> s[e + 1] == '(')
    ensures CoordinatesFrom(s, e) == CoordinatesFrom(s, e + 1)
  {
    PlainTextNoCoordinate(s, e, e + 1);
    CoordinatesFromSkip(s, e);
  }

  /**
   * A match at `p` ending just before a space that precedes `(` or the end:
   * `finditer` reports it and goes on after the space.
   */
  lemma {:induction false} CoordinatesFromStep(s: string, p: nat, m: CoordinateMatch)
    requires p <= |s| && CoordinateAt(s, p) == Some(m)
    requires m.end < |s| && s[m.end] == ' ' && (m.end + 1 < |s| ==> s[m.end + 1] == '(')
    ensures CoordinatesFrom(s, p) == [m.point] + CoordinatesFrom(s, m.end + 1)
  {
    calc {
      CoordinatesFrom(s, p);
    == { CoordinatesFromMatch(s, p, m); }
      [m.point] + CoordinatesFrom(s, m.end);
    == { CoordinatesFromSpace(s, m.end); }
      [m.point] + CoordinatesFrom(s, m.end + 1);
    }
  }

  /** How the text of the first point, its space and the rest sit where the points occur. */
  lemma {:induction false} PointsTextSplit(s: string, p: nat, gs: seq<GridPoint>)
    requires gs != [] && ContainsAt(s, PointsText(gs), p) && p + |PointsText(gs)| == |s|
    ensures var e, rest := p + |PointText(gs[0])|, PointsText(gs[1..]);
      && ContainsAt(s, PointText(gs[0]), p) && e < |s| && s[e] == ' '
      && ContainsAt(s, rest, e + 1) && e + 1 + |rest| == |s|
      && (e + 1 < |s| ==> s[e + 1] == '(')
  {
    var t, rest := PointText(gs[0]), PointsText(gs[1..]);
    assert PointsText(gs) == (t + " ") + rest;
    if rest != [] {
      PointsTextOpens(gs[1..]);
    }
    SpacedSplit(s, p, t, rest);
  }

  /** Where a text, a space and an opening rest occur up to the end of `s`, and where each part sits. */
  lemma {:induction false} SpacedSplit(s: string, p: nat, t: string, rest: string)
    requires ContainsAt(s, (t + " ") + rest, p) && p + |t| + 1 + |rest| == |s|
    requires rest != [] ==> rest[0] == '('
    ensures var e := p + |t|;
      && ContainsAt(s, t, p) && e < |s| && s[e] == ' '
      && ContainsAt(s, rest, e + 1) && e + 1 + |rest| == |s|
      && (e + 1 < |s| ==> s[e + 1] == '(')
  {
    ConcatOccurs(s, t + " ", rest, p);
    ConcatOccurs(s, t, " ", p);
    FirstOccurs(s, " ", p + |t|);
    if rest != [] {
      FirstOccurs(s, rest, p + |t| + 1);
    }
  }

  /** The text of points, when there are any, starts with `(`. */
  lemma {:induction false} PointsTextOpens(gs: seq<GridPoint>)
    requires gs != []
    ensures PointsText(gs) != [] && PointsText(gs)[0] == '('
  {
    PointTextSplit(gs[0]);
  }

  /** The written points occur at `p` and run to the end of `s`. */
  predicate PointsAt(s: string, p: nat, gs: seq<GridPoint>) {
    ContainsAt(s, PointsText(gs), p) && p + |PointsText(gs)| == |s|
  }

  /** A written point ending at `e`, then a space, then `(` or the end: it is read, and reading goes on after the space. */
  lemma {:induction false} CoordinatesFromPoint(s: string, p: nat, g: GridPoint, e: nat)
    requires ContainsAt(s, PointText(g), p) && e == p + |PointText(g)|
    requires e < |s| && s[e] == ' ' && (e + 1 < |s| ==> s[e + 1] == '(')
    ensures CoordinatesFrom(s, p) == [GridValue(g)] + CoordinatesFrom(s, e + 1)
  {
    var m := CoordinateMatch(GridValue(g), e);
    CoordinateReadsPoint(s, p, g, m);
    CoordinatesFromStep(s, p, m);
  }

  /** `re.finditer` from `p` reads every written point in order: `r` is their values. */
  lemma {:induction false} CoordinatesFromPoints(s: string, p: nat, gs: seq<GridPoint>, r: seq<Point>)
    requires PointsAt(s, p, gs) && r == GridValues(gs)
    ensures CoordinatesFrom(s, p) == r
  {
    CoordinatesFromNoPoints(s);
    CoordinatesFromPointsSteps(s);
    ReadsEach((k: nat) => if k <= |s| then CoordinatesFrom(s, k) else [],
              (q: nat, hs: seq<GridPoint>) => PointsAt(s, q, hs),
              (q: nat, g: GridPoint) => q + |PointText(g)| + 1,
              GridValue,
              p, gs, r);
  }

  /** Nothing is left to match at the end of the text. */
  lemma CoordinatesFromEnd(s: string, p: nat)
    requires p == |s|
    ensures CoordinatesFrom(s, p) == []
  {
  }

  /** Where no points are written, up to the end of the text, nothing is read. */
  lemma CoordinatesFromNoPoints(s: string)
    ensures forall q: nat :: PointsAt(s, q, []) ==> CoordinatesFrom(s, q) == []
  {
    forall q: nat | PointsAt(s, q, []) ensures CoordinatesFrom(s, q) == [] {
      CoordinatesFromEnd(s, q);
    }
  }

  /** Wherever points are written, the first is read, and the rest of the list is written after its space. */
  lemma CoordinatesFromPointsSteps(s: string)
    ensures forall q: nat, hs :: hs != [] && PointsAt(s, q, hs) ==>
      && PointsAt(s, q + |PointText(hs[0])| + 1, hs[1..])
      && CoordinatesFrom(s, q) == [GridValue(hs[0])] + CoordinatesFrom(s, q + |PointText(hs[0])| + 1)
  {
    forall q: nat, hs | hs != [] && PointsAt(s, q, hs)
      ensures PointsAt(s, q + |PointText(hs[0])| + 1, hs[1..])
      ensures CoordinatesFrom(s, q) == [GridValue(hs[0])] + CoordinatesFrom(s, q + |PointText(hs[0])| + 1)
    {
      CoordinatesFromPointsStep(s, q, hs);
    }
  }

  /** The first point is read, and the rest of the list is written after its space. */
  lemma CoordinatesFromPointsStep(s: string, p: nat, gs: seq<GridPoint>)
    requires gs != [] && PointsAt(s, p, gs)
    ensures var e := p + |PointText(gs[0])| + 1;
      && PointsAt(s, e, gs[1..])
      && CoordinatesFrom(s, p) == [GridValue(gs[0])] + CoordinatesFrom(s, e)
  {
    var e := p + |PointText(gs[0])|;
    PointsTextSplit(s, p, gs);
    CoordinatesFromPoint(s, p, gs[0], e);
  }

  /**
   * A command made of a word free of digits, `-` and `(`, followed by written
   * points, yields exactly those points: `_extract_coordinates("画多段线 (0,0) (10,0,5) ")`
   * is `[(0,0,0), (10,0,5)]`.
   */
  lemma {:induction false} CoordinatesReadPoints(w: string, gs: seq<GridPoint>)
    requires forall k :: 0 <= k < |w| ==> !IsDigit(w[k]) && w[k] != '-' && w[k] != '('
    ensures Coordinates(w + PointsText(gs)) == GridValues(gs)
  {
    var s := w + PointsText(gs);
    var all := PointsText(gs);
    if all != [] {
      assert all[0] == PointText(gs[0])[0] == '(';
      assert s[|w|] == all[0];
    }
    PlainTextReadsNothing(s, 0, |w|);
    assert ContainsAt(s, all, |w|) by {
      forall k | 0 <= k < |all| ensures s[|w| + k] == all[k] {
      }
    }
    CoordinatesFromPoints(s, |w|, gs, GridValues(gs));
  }

  /** A number literal at or after `q` makes `_extract_numbers` from `p` non-empty. */
  lemma {:induction false} NumbersFromNonEmpty(s: string, p: nat, q: nat)
    requires p <= q < |s| && SignedAt(s, q).Some?
    ensures NumbersFrom(s, p) != []
    decreases q - p
  {
    if SignedAt(s, p).None? {
      NumbersFromNonEmpty(s, p + 1, q);
    }
  }

  lemma {:induction false} CoordinatesFromHaveNumbers(s: string, p: nat)
    requires p <= |s| && CoordinatesFrom(s, p) != []
    ensures exists q :: p <= q < |s| && SignedAt(s, q).Some?
    decreases |s| - p
  {
    var m := CoordinateAt(s, p);
    if m.Some? {
      var i := SkipSpaces(s, if p < |s| && s[p] == '(' then p + 1 else p);
      assert SignedAt(s, i).Some?;
    } else {
      CoordinatesFromHaveNumbers(s, p + 1);
    }
  }

  /**
   * A command holding a coordinate holds a number: with no radius label, the
   * circle and arc builders take their radius from the command, never the default.
   */
  lemma {:induction false} CoordinatesHaveNumbers(s: string)
    requires Coordinates(s) != []
    ensures Numbers(s) != []
  {
    CoordinatesFromHaveNumbers(s, 0);
    var q :| 0 <= q < |s| && SignedAt(s, q).Some?;
    NumbersFromNonEmpty(s, 0, q);
  }
}
