/**
 * Text written in the notation the interpreter reads: integer numerals and
 * points in the `(x,y)` / `(x,y,z)` form.  These renderings are the reference
 * against which the scanners of module Lexical are proved to read back what
 * was written.
 */
module Notation {
  import opened Geometry
  import opened Lexical

  function DigitChar(d: nat): (c: char)
    requires d < 10
    ensures IsDigit(c) && DigitValue(c) == d
  {
    ('0' as int + d) as char
  }

  /** The decimal numeral of `n`, without leading zeros. */
  function DecimalText(n: nat): (r: string)
    ensures |r| >= 1
    ensures forall i :: 0 <= i < |r| ==> IsDigit(r[i])
  {
    if n < 10 then [DigitChar(n)] else DecimalText(n / 10) + [DigitChar(n % 10)]
  }

  /** The numeral of `n`: a `-` before the digits when `n` is negative. */
  function IntText(n: int): (r: string)
    ensures |r| >= 1
    ensures r[0] == '-' || IsDigit(r[0])
    ensures forall i :: 1 <= i < |r| ==> IsDigit(r[i])
  {
    if n < 0 then "-" + DecimalText(-n) else DecimalText(n)
  }

  /** Reading the digits of a numeral gives back the number. */
  lemma {:induction false} DecimalTextValue(n: nat)
    ensures DigitsValue(DecimalText(n)) == n
  {
    if n >= 10 {
      var d := DecimalText(n);
      assert d[..|d| - 1] == DecimalText(n / 10);
      DecimalTextValue(n / 10);
    }
  }

  /** A point with integer components, written with two or three components. */
  datatype GridPoint = Grid2(x: int, y: int) | Grid3(x: int, y: int, z: int)

  /** The point a written coordinate stands for: a missing third component is 0. */
  function GridValue(g: GridPoint): Point {
    Point(g.x as real, g.y as real, if g.Grid3? then g.z as real else 0.0)
  }

  function GridValues(gs: seq<GridPoint>): (r: seq<Point>)
    ensures |r| == |gs|
    ensures forall i :: 0 <= i < |gs| ==> r[i] == GridValue(gs[i])
  {
    seq(|gs|, i requires 0 <= i < |gs| => GridValue(gs[i]))
  }

  /** `(x,y)` or `(x,y,z)`. */
  function PointText(g: GridPoint): string {
    "(" + IntText(g.x) + "," + IntText(g.y) + (if g.Grid3? then "," + IntText(g.z) else "") + ")"
  }

  /** The points one after another, each followed by a space. */
  function PointsText(gs: seq<GridPoint>): string {
    if gs == [] then "" else PointText(gs[0]) + " " + PointsText(gs[1..])
  }

  /** The integers one after another, each followed by a space. */
  function IntsText(ns: seq<int>): string {
    if ns == [] then "" else IntText(ns[0]) + " " + IntsText(ns[1..])
  }

  function Reals(ns: seq<int>): (r: seq<real>)
    ensures |r| == |ns|
    ensures forall i :: 0 <= i < |ns| ==> r[i] == ns[i] as real
  {
    seq(|ns|, i requires 0 <= i < |ns| => ns[i] as real)
  }
}
