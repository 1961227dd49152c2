/**
 * What the builders promise.  A command made of a word followed by written
 * points gives back those points: the first two for lines, walls and
 * rectangles, all of them for polylines and hatches, which fail below two and
 * three points; the first point and its `x` for a circle without a radius
 * cue.  A command without digits gets every default.  Unsigned values (hatch
 * scale, wall width) are never negative.
 */
module BuilderFacts {
  import opened Wrappers
  import opened Geometry
  import opened Lexical
  import opened LexicalFacts
  import opened Notation
  import opened ScanFacts
  import opened Builders

  /** Text in which no coordinate can start: no digit, `-` or `(`. */
  predicate Plain(w: string) {
    forall k :: 0 <= k < |w| ==> !IsDigit(w[k]) && w[k] != '-' && w[k] != '('
  }

  /** Text without a digit. */
  predicate DigitFree(s: string) {
    forall k :: 0 <= k < |s| ==> !IsDigit(s[k])
  }

  // ---------------------------------------------------------------------------
  // Labelled values

  /** An unsigned labelled number is never negative. */
  lemma {:induction false} UnsignedLabelledNonNegative(s: string, labels: seq<string>)
    requires LabelledNumber(s, labels, false).Some?
    ensures LabelledNumber(s, labels, false).value >= 0.0
  {
    LabelledNumberValue(s, labels, false);
  }

  /** The fill scale of a hatch is never negative. */
  lemma {:induction false} HatchScaleNonNegative(command: string)
    ensures HatchScale(command) >= 0.0
  {
    if LabelledNumber(Lower(command), ScaleLabels, false).Some? {
      UnsignedLabelledNonNegative(Lower(command), ScaleLabels);
    }
  }

  /** The width of a wall is never negative. */
  lemma {:induction false} WallWidthNonNegative(command: string)
    ensures WallWidth(command) >= 0.0
  {
    if LabelledNumber(command, WallWidthLabels, false).Some? {
      UnsignedLabelledNonNegative(command, WallWidthLabels);
    }
  }

  /** Without a digit no labelled number is found. */
  lemma {:induction false} DigitFreeNoLabelled(s: string, labels: seq<string>, signed: bool)
    requires DigitFree(s)
    ensures LabelledNumber(s, labels, signed).None?
  {
    LabelledNumberFound(s, labels, signed);
    forall p | 0 <= p <= |s| ensures !LabelWithDigitAt(s, labels, p) {
      forall i | 0 <= i < |labels| && ContainsAt(s, labels[i], p)
        ensures FirstDigitFrom(s, p + |labels[i]|) == |s|
      {
      }
    }
  }

  /** Lowering keeps every non-digit a non-digit. */
  lemma {:induction false} LowerDigitFree(s: string)
    requires DigitFree(s)
    ensures DigitFree(Lower(s))
  {
  }

  /** Without a digit `_extract_numbers` finds nothing. */
  lemma {:induction false} DigitFreeNoNumbers(s: string, p: nat)
    requires DigitFree(s)
    ensures NumbersFrom(s, p) == []
    decreases |s| - p
  {
    if p < |s| {
      DigitFreeNoNumbers(s, p + 1);
    }
  }

  /** Without a digit `_extract_coordinates` finds nothing. */
  lemma {:induction false} DigitFreeNoCoordinates(s: string)
    requires DigitFree(s)
    ensures Coordinates(s) == []
  {
    if Coordinates(s) != [] {
      CoordinatesHaveNumbers(s);
      DigitFreeNoNumbers(s, 0);
    }
  }

  // ---------------------------------------------------------------------------
  // Defaults

  /** Without a digit the circle and arc builders use the origin and radius 50, and the arc spans 0 to 90. */
  lemma {:induction false} DigitFreeCircleDefaults(command: string)
    requires DigitFree(command)
    ensures ParseDrawCircle(command) == DrawCircle(Origin, 50.0)
    ensures ParseDrawArc(command) == DrawArc(Origin, 50.0, 0.0, 90.0)
  {
    var c := Lower(command);
    LowerDigitFree(command);
    DigitFreeNoCoordinates(command);
    DigitFreeNoNumbers(command, 0);
    DigitFreeNoLabelled(c, RadiusLabels, true);
    DigitFreeNoLabelled(c, StartAngleLabels, true);
    DigitFreeNoLabelled(c, EndAngleLabels, true);
  }

  /**
   * Without a digit the line builder draws (0,0,0) to (100,100,0) with its
   * note, the rectangle spans (0,0,0) to (100,100,0), and text sits at the
   * origin with height 2.5 and no rotation.
   */
  lemma {:induction false} DigitFreeShapeDefaults(command: string)
    requires DigitFree(command)
    ensures ParseDrawLine(command) == DrawLine(Origin, Point(100.0, 100.0, 0.0), Some(LineNote))
    ensures ParseDrawRectangle(command) == DrawRectangle(Origin, Point(100.0, 100.0, 0.0))
    ensures var d := ParseDrawText(command); d.position == Origin && d.height == 2.5 && d.rotation == 0.0
  {
    var c := Lower(command);
    LowerDigitFree(command);
    DigitFreeNoCoordinates(command);
    DigitFreeNoLabelled(c, WidthLabels, true);
    DigitFreeNoLabelled(c, HeightLabels, true);
    DigitFreeNoLabelled(c, RotationLabels, true);
  }

  /** Without a digit the polyline, hatch and wall builders report their errors. */
  lemma {:induction false} DigitFreeErrors(command: string)
    requires DigitFree(command)
    ensures ParseDrawPolyline(command) == Error(PolylineMessage)
    ensures ParseDrawHatch(command) == Error(HatchMessage)
    ensures ParseSave(command) == Error(WallMessage)
  {
    DigitFreeNoCoordinates(command);
  }

  /** With a coordinate and no radius cue, the radius is the first number of the command, never the default. */
  lemma {:induction false} RadiusFromCoordinates(command: string)
    requires LabelledNumber(Lower(command), RadiusLabels, true).None? && Coordinates(command) != []
    ensures Numbers(command) != [] && Radius(command) == Numbers(command)[0]
  {
    CoordinatesHaveNumbers(command);
  }

  // ---------------------------------------------------------------------------
  // Written points read back

  /** A line runs from the first written point to the second; with fewer it takes the default and its note. */
  lemma {:induction false} LineReadsPoints(w: string, gs: seq<GridPoint>)
    requires Plain(w)
    ensures ParseDrawLine(w + PointsText(gs)) ==
      if |gs| >= 2 then DrawLine(GridValue(gs[0]), GridValue(gs[1]), None)
      else DrawLine(Origin, Point(100.0, 100.0, 0.0), Some(LineNote))
  {
    CoordinatesReadPoints(w, gs);
  }

  /** A polyline keeps every written point, in order; with fewer than two it is an error. */
  lemma {:induction false} PolylineReadsPoints(w: string, gs: seq<GridPoint>)
    requires Plain(w)
    ensures var d := ParseDrawPolyline(w + PointsText(gs));
      && (d.Error? <==> |gs| < 2)
      && (d.DrawPolyline? ==> d.points == GridValues(gs))
  {
    CoordinatesReadPoints(w, gs);
  }

  /** A hatch keeps every written point, in order, with a scale of at least 0; with fewer than three it is an error. */
  lemma {:induction false} HatchReadsPoints(w: string, gs: seq<GridPoint>)
    requires Plain(w)
    ensures var d := ParseDrawHatch(w + PointsText(gs));
      && (d.Error? <==> |gs| < 3)
      && (d.DrawHatch? ==> d.points == GridValues(gs) && d.scale >= 0.0)
  {
    CoordinatesReadPoints(w, gs);
    HatchScaleNonNegative(w + PointsText(gs));
  }

  /** A wall runs from the first written point to the second, at least 0 wide; with fewer it is an error. */
  lemma {:induction false} WallReadsPoints(w: string, gs: seq<GridPoint>)
    requires Plain(w)
    ensures var d := ParseSave(w + PointsText(gs));
      && (d.Error? <==> |gs| < 2)
      && (d.DrawWall? ==> d.startPoint == GridValue(gs[0]) && d.endPoint == GridValue(gs[1]) && d.width >= 0.0)
  {
    CoordinatesReadPoints(w, gs);
    WallWidthNonNegative(w + PointsText(gs));
  }

  /**
   * A rectangle spans the first two written points; from a single point it
   * extends by the width and height at the same height `z`; with none it
   * starts at the origin.
   */
  lemma {:induction false} RectangleReadsPoints(w: string, gs: seq<GridPoint>)
    requires Plain(w)
    ensures var s := w + PointsText(gs);
      var d := ParseDrawRectangle(s);
      var width, height := CaselessNumber(s, WidthLabels, 100.0), CaselessNumber(s, HeightLabels, 100.0);
      && (|gs| >= 2 ==> d == DrawRectangle(GridValue(gs[0]), GridValue(gs[1])))
      && (|gs| == 1 ==> var c := GridValue(gs[0]); d == DrawRectangle(c, Point(c.x + width, c.y + height, c.z)))
      && (|gs| == 0 ==> d == DrawRectangle(Origin, Point(width, height, 0.0)))
  {
    CoordinatesReadPoints(w, gs);
  }

  /** With no digit, `-` or `(` in `s[q..n]`, `_extract_numbers` reads nothing there. */
  lemma {:induction false} NumbersSkipPlain(s: string, q: nat, n: nat)
    requires q <= n <= |s|
    requires forall k :: q <= k < n ==> !IsDigit(s[k]) && s[k] != '-'
    ensures NumbersFrom(s, q) == NumbersFrom(s, n)
  {
    forall k | q <= k < n ensures NumbersFrom(s, k) == NumbersFrom(s, k + 1) {
      NumbersFromSkip(s, k);
    }
    SteadyOver((k: nat) => if k <= |s| then NumbersFrom(s, k) else [], q, n);
  }

  /** Plain text and the `(` after it hold no digit and no `-`. */
  lemma {:induction false} PlainThenParen(s: string, w: string)
    requires Plain(w) && |w| < |s| && s[..|w|] == w && s[|w|] == '('
    ensures forall k :: 0 <= k < |w| + 1 ==> !IsDigit(s[k]) && s[k] != '-'
  {
    forall k | 0 <= k < |w| + 1 ensures !IsDigit(s[k]) && s[k] != '-' {
      if k < |w| {
        assert s[k] == s[..|w|][k] == w[k];
      }
    }
  }

  /** Just inside the text of a point, `_extract_numbers` first reads its `x`. */
  lemma {:induction false} NumbersAtPoint(s: string, p: nat, g: GridPoint)
    requires ContainsAt(s, PointText(g), p)
    ensures var ns := NumbersFrom(s, p + 1); ns != [] && ns[0] == g.x as real
  {
    PointTextOccurs(s, p, g);
    PairReadsX(s, p, g.x, g.y);
  }

  /** Plain text followed by written points: the first point's text, with its `(`, starts right after the text. */
  lemma {:induction false} PlainThenPoints(w: string, gs: seq<GridPoint>)
    requires gs != []
    ensures var s := w + PointsText(gs);
            ContainsAt(s, PointText(gs[0]), |w|) && |w| < |s| && s[|w|] == '(' && s[..|w|] == w
  {
    var s := w + PointsText(gs);
    var p := |w|;
    var all := PointsText(gs);
    assert ContainsAt(s, all, p) by {
      forall k | 0 <= k < |all| ensures s[p + k] == all[k] {
      }
    }
    PointsTextSplit(s, p, gs);
    PointTextOccurs(s, p, gs[0]);
    assert s[..p] == w;
  }

  /** The first number of plain text followed by written points is the first point's `x`. */
  lemma {:induction false} FirstNumberIsX(w: string, gs: seq<GridPoint>)
    requires Plain(w) && gs != []
    ensures var ns := Numbers(w + PointsText(gs)); ns != [] && ns[0] == gs[0].x as real
  {
    var s := w + PointsText(gs);
    PlainThenPoints(w, gs);
    PlainThenParen(s, w);
    NumbersSkipPlain(s, 0, |w| + 1);
    NumbersAtPoint(s, |w|, gs[0]);
  }

  /**
   * A circle centres on the first written point; without a radius cue its
   * radius is the first number of the command, that point's `x`.
   */
  lemma {:induction false} CircleReadsPoint(w: string, gs: seq<GridPoint>)
    requires Plain(w) && gs != []
    requires forall i :: 0 <= i < |RadiusLabels| ==> !Contains(Lower(w + PointsText(gs)), RadiusLabels[i])
    ensures ParseDrawCircle(w + PointsText(gs)) == DrawCircle(GridValue(gs[0]), gs[0].x as real)
  {
    var s := w + PointsText(gs);
    CoordinatesReadPoints(w, gs);
    FirstNumberIsX(w, gs);
    LabelledNumberFound(Lower(s), RadiusLabels, true);
  }

  /** An arc, like a circle, centres on the first written point and without a radius cue takes its `x` as radius. */
  lemma {:induction false} ArcReadsPoint(w: string, gs: seq<GridPoint>)
    requires Plain(w) && gs != []
    requires forall i :: 0 <= i < |RadiusLabels| ==> !Contains(Lower(w + PointsText(gs)), RadiusLabels[i])
    ensures var d := ParseDrawArc(w + PointsText(gs)); d.center == GridValue(gs[0]) && d.radius == gs[0].x as real
  {
    CircleReadsPoint(w, gs);
  }

  /** The first label of `labels` that starts at `p` decides, when its continuation matches. */
  lemma {:induction false} LabelAtPicks<T>(s: string, labels: seq<string>, p: nat, i: nat, rest: nat -> Option<T>)
    requires i < |labels| && ContainsAt(s, labels[i], p) && rest(p + |labels[i]|).Some?
    requires forall j :: 0 <= j < i ==> !ContainsAt(s, labels[j], p)
    ensures LabelAt(s, labels, p, rest) == rest(p + |labels[i]|)
    decreases i
  {
    if i > 0 {
      assert forall j :: 0 <= j < i - 1 ==> labels[1..][j] == labels[j + 1];
      LabelAtPicks(s, labels[1..], p, i - 1, rest);
    }
  }

  /** The number pattern, tried where a label starts, reads the integer written right after that label. */
  lemma {:induction false} NumberAfterLabelReads(c: string, labels: seq<string>, q: nat, i: nat, n: int)
    requires i < |labels| && ContainsAt(c, labels[i], q)
    requires forall j :: 0 <= j < i ==> !ContainsAt(c, labels[j], q)
    requires var k := q + |labels[i]|; ContainsAt(c, IntText(n), k) && k + |IntText(n)| < |c| && c[k + |IntText(n)|] == ' '
    ensures NumberAfterLabel(c, labels, true)(q) == Some(n as real)
  {
    var k := q + |labels[i]|;
    SignedReadsInt(c, k, n);
    assert LazyNumberFrom(c, k, true) == Some(n as real);
    LabelAtPicks(c, labels, q, i, LazyNumber(c, true));
  }

  /** Before the first label, the number pattern matches nowhere. */
  lemma NoLabelBefore(c: string, labels: seq<string>, q: nat)
    requires forall p, j :: 0 <= p < q && 0 <= j < |labels| ==> !ContainsAt(c, labels[j], p)
    ensures forall p :: 0 <= p < q ==> NumberAfterLabel(c, labels, true)(p).None?
  {
    forall p | 0 <= p < q ensures NumberAfterLabel(c, labels, true)(p).None? {
      NoLabelAt(c, labels, p, LazyNumber(c, true));
    }
  }

  /**
   * A labelled search reads an integer written right after the leftmost
   * label, when a space follows it.
   */
  lemma {:induction false} LabelledReadsInt(c: string, labels: seq<string>, q: nat, i: nat, n: int)
    requires i < |labels| && ContainsAt(c, labels[i], q)
    requires forall j :: 0 <= j < i ==> !ContainsAt(c, labels[j], q)
    requires forall p, j :: 0 <= p < q && 0 <= j < |labels| ==> !ContainsAt(c, labels[j], p)
    requires var k := q + |labels[i]|; ContainsAt(c, IntText(n), k) && k + |IntText(n)| < |c| && c[k + |IntText(n)|] == ' '
    ensures LabelledNumber(c, labels, true) == Some(n as real)
  {
    NumberAfterLabelReads(c, labels, q, i, n);
    NoLabelBefore(c, labels, q);
    SearchFinds(|c|, 0, NumberAfterLabel(c, labels, true), q);
  }

  /** The two parts of a concatenation occur in it, one after the other. */
  lemma Appended(s: string, u: string, v: string)
    requires s == u + v
    ensures |s| == |u| + |v| && ContainsAt(s, u, 0) && ContainsAt(s, v, |u|)
  {
    forall k | 0 <= k < |v| ensures s[|u| + k] == v[k] {
    }
  }

  /** An occurrence inside an occurrence is an occurrence. */
  lemma Within(s: string, u: string, w: string, j: nat, i: nat)
    requires ContainsAt(s, u, j) && ContainsAt(u, w, i)
    ensures ContainsAt(s, w, j + i)
  {
    forall k | 0 <= k < |w| ensures s[j + i + k] == w[k] {
      assert s[j + (i + k)] == u[i + k];
    }
  }

  /** Where the parts of an arc command with both angles sit. */
  lemma {:induction false} AngleTextParts(s: string, ta: string, tb: string)
    requires s == "起始角度" + ta + " 结束角度" + tb + " "
    ensures var la, lb := |ta|, |tb|;
      && |s| == 10 + la + lb
      && ContainsAt(s, "起始角度", 0) && ContainsAt(s, ta, 4)
      && ContainsAt(s, " 结束角度", 4 + la) && ContainsAt(s, tb, 9 + la) && s[9 + la + lb] == ' '
  {
    var head := "起始角度" + ta;
    var middle := head + " 结束角度";
    var body := middle + tb;
    Appended(s, body, " ");
    Appended(body, middle, tb);
    Appended(middle, head, " 结束角度");
    Appended(head, "起始角度", ta);
    Within(s, body, middle, 0, 0);
    Within(s, middle, head, 0, 0);
    Within(s, head, "起始角度", 0, 0);
    Within(s, head, ta, 0, 4);
    Within(s, middle, " 结束角度", 0, |head|);
    Within(s, body, tb, 0, |middle|);
    assert s[|body| + 0] == " "[0];
  }

  /** An arc command with both angles has no capital letter, and no end label starts before its middle space. */
  lemma {:induction false} AngleTextChars(s: string, ta: string, tb: string)
    requires var la, lb := |ta|, |tb|;
      && |s| == 10 + la + lb
      && ContainsAt(s, "起始角度", 0) && ContainsAt(s, ta, 4)
      && ContainsAt(s, " 结束角度", 4 + la) && ContainsAt(s, tb, 9 + la) && s[9 + la + lb] == ' '
    requires forall k :: 0 <= k < |ta| ==> ta[k] == '-' || IsDigit(ta[k])
    requires forall k :: 0 <= k < |tb| ==> tb[k] == '-' || IsDigit(tb[k])
    ensures IsLowered(s)
    ensures forall p :: 0 <= p < 5 + |ta| ==> s[p] != '结' && s[p] != 'e'
  {
    var la, lb := |ta|, |tb|;
    forall p | 0 <= p < |s| ensures !('A' <= s[p] <= 'Z') && (p < 5 + la ==> s[p] != '结' && s[p] != 'e') {
      if p < 4 {
        assert s[0 + p] == "起始角度"[p];
      } else if p < 4 + la {
        assert s[4 + (p - 4)] == ta[p - 4];
      } else if p < 9 + la {
        assert s[4 + la + (p - 4 - la)] == " 结束角度"[p - 4 - la];
      } else if p < 9 + la + lb {
        assert s[9 + la + (p - 9 - la)] == tb[p - 9 - la];
      }
    }
  }

  /**
   * The layout of an arc command with both angles: the start label, the start
   * angle, a space, the end label, the end angle and a space, with no capital
   * letter and no end label's first character before the end label.
   */
  predicate AngleLayout(s: string, ta: string, tb: string) {
    var la, lb := |ta|, |tb|;
    && |s| == 10 + la + lb && IsLowered(s)
    && ContainsAt(s, "起始角度", 0) && ContainsAt(s, ta, 4) && s[4 + la] == ' '
    && ContainsAt(s, "结束角度", 5 + la) && ContainsAt(s, tb, 9 + la) && s[9 + la + lb] == ' '
    && forall p :: 0 <= p < 5 + la ==> s[p] != '结' && s[p] != 'e'
  }

  /** The parts found by `AngleTextParts` make up an `AngleLayout` when the angles are written with digits and signs. */
  lemma {:induction false} AngleTextLayout(s: string, ta: string, tb: string)
    requires var la, lb := |ta|, |tb|;
      && |s| == 10 + la + lb
      && ContainsAt(s, "起始角度", 0) && ContainsAt(s, ta, 4)
      && ContainsAt(s, " 结束角度", 4 + la) && ContainsAt(s, tb, 9 + la) && s[9 + la + lb] == ' '
    requires forall k :: 0 <= k < |ta| ==> ta[k] == '-' || IsDigit(ta[k])
    requires forall k :: 0 <= k < |tb| ==> tb[k] == '-' || IsDigit(tb[k])
    ensures AngleLayout(s, ta, tb)
  {
    AngleTextChars(s, ta, tb);
    assert ContainsAt(" 结束角度", "结束角度", 1);
    Within(s, " 结束角度", "结束角度", 4 + |ta|, 1);
    assert s[4 + |ta| + 0] == " 结束角度"[0];
  }

  /** No label of `labels` starts before `q` when none of their first characters occurs there. */
  lemma NoneStartBefore(s: string, labels: seq<string>, q: nat)
    requires forall j :: 0 <= j < |labels| ==> labels[j] != [] && (labels[j][0] == '结' || labels[j][0] == 'e')
    requires q <= |s| && forall p :: 0 <= p < q ==> s[p] != '结' && s[p] != 'e'
    ensures forall p, j :: 0 <= p < q && 0 <= j < |labels| ==> !ContainsAt(s, labels[j], p)
  {
    forall p, j | 0 <= p < q && 0 <= j < |labels| ensures !ContainsAt(s, labels[j], p) {
      assert s[p + 0] != labels[j][0];
    }
  }

  /** The start angle written after "起始角度" (start angle) is read back. */
  lemma {:induction false} StartAngleReads(s: string, a: int, tb: string)
    requires AngleLayout(s, IntText(a), tb)
    ensures CaselessNumber(s, StartAngleLabels, 0.0) == a as real
  {
    LowerOfLowered(s);
    LabelledReadsInt(s, StartAngleLabels, 0, 0, a);
  }

  /** The end angle written after "结束角度" (end angle) is read back: no end label starts before it. */
  lemma {:induction false} EndAngleReads(s: string, ta: string, b: int)
    requires AngleLayout(s, ta, IntText(b))
    ensures CaselessNumber(s, EndAngleLabels, 90.0) == b as real
  {
    var q := 5 + |ta|;
    LowerOfLowered(s);
    NoneStartBefore(s, EndAngleLabels, q);
    assert ContainsAt(s, EndAngleLabels[0], q);
    LabelledReadsInt(s, EndAngleLabels, q, 0, b);
  }

  /** The start and end angles written after their labels are read back. */
  lemma {:induction false} ArcReadsAngles(a: int, b: int)
    ensures var d := ParseDrawArc("起始角度" + IntText(a) + " 结束角度" + IntText(b) + " ");
            d.startAngle == a as real && d.endAngle == b as real
  {
    var s := "起始角度" + IntText(a) + " 结束角度" + IntText(b) + " ";
    AngleTextParts(s, IntText(a), IntText(b));
    AngleTextLayout(s, IntText(a), IntText(b));
    StartAngleReads(s, a, IntText(b));
    EndAngleReads(s, IntText(a), b);
  }

  // ---------------------------------------------------------------------------
  // Quoted text

  /** `(.*?)["']` from `e` stops at the first quote when no quote or newline precedes it. */
  lemma {:induction false} ClosingQuoteReads(s: string, e: nat, k: nat)
    requires e <= k < |s| && IsQuote(s[k])
    requires forall j :: e <= j < k ==> !IsQuote(s[j]) && s[j] != '\n'
    ensures ClosingQuoteFrom(s, e, false) == Some(k)
    decreases k - e
  {
    if e < k {
      ClosingQuoteReads(s, e + 1, k);
    }
  }

  /** Text free of quotes and newlines. */
  predicate Unquoted(t: string) {
    forall j :: 0 <= j < |t| ==> !IsQuote(t[j]) && t[j] != '\n'
  }

  /** A quoted `t` at `k` is read back. */
  lemma {:induction false} QuotedReads(s: string, k: nat, t: string)
    requires Unquoted(t) && k + |t| + 1 < |s| && IsQuote(s[k]) && IsQuote(s[k + 1 + |t|])
    requires s[k + 1..k + 1 + |t|] == t
    ensures QuotedAt(s, k, false) == Some(t)
  {
    forall j | k + 1 <= j < k + 1 + |t| ensures !IsQuote(s[j]) && s[j] != '\n' {
      assert s[j] == t[j - (k + 1)];
    }
    ClosingQuoteReads(s, k + 1, k + 1 + |t|);
  }

  /**
   * The text cue is one character of the class `[文本内容|text|内容]` and a
   * colon: "x:", "e:" or "|:" cue the text as well as "本:".
   */
  lemma {:induction false} TextCueReads(cue: char, t: string)
    requires IsTextCueChar(cue) && Unquoted(t)
    ensures TextContent([cue, ':', '"'] + t + ['"']) == t
  {
    var s := [cue, ':', '"'] + t + ['"'];
    assert s[3..3 + |t|] == t;
    QuotedReads(s, 2, t);
    assert TextCueAt(s, 0) == Some(t);
    SearchFinds(|s|, 0, TextCue(s), 0);
  }

  // ---------------------------------------------------------------------------
  // Paths

  /** A quoted path after "路径" (path) is the file to save, exactly as written. */
  lemma {:induction false} PathCueReads(t: string)
    requires Unquoted(t)
    ensures ParseCreateLayer("路径'" + t + "'", "", "") == Save(t)
  {
    var s := "路径'" + t + "'";
    assert s[3..3 + |t|] == t;
    QuotedReads(s, 2, t);
    assert ContainsAt(Lower(s), PathLabels[0], 0);
    assert LazyQuotedFrom(s, 2, false) == Some(t);
    SearchFinds(|s|, 0, QuotedAfterLabel(s, PathLabels, false), 0);
  }

  /** No label at `p`: the alternatives fail there. */
  lemma {:induction false} NoLabelAt<T>(s: string, labels: seq<string>, p: nat, rest: nat -> Option<T>)
    requires forall i :: 0 <= i < |labels| ==> !ContainsAt(s, labels[i], p)
    ensures LabelAt(s, labels, p, rest).None?
  {
    if labels != [] {
      assert forall i :: 0 <= i < |labels[1..]| ==> labels[1..][i] == labels[i + 1];
      NoLabelAt(s, labels[1..], p, rest);
    }
  }

  /** Without a path cue the file is the configured directory joined with the default name. */
  lemma {:induction false} DefaultPath(command: string, directory: string, defaultFilename: string)
    requires forall i :: 0 <= i < |PathLabels| ==> !Contains(Lower(command), PathLabels[i])
    ensures ParseCreateLayer(command, directory, defaultFilename) == Save(JoinPath(directory, defaultFilename))
  {
    var c := Lower(command);
    var at := QuotedAfterLabel(command, PathLabels, false);
    forall p | 0 <= p <= |command| ensures at(p).None? {
      NoLabelAt(c, PathLabels, p, LazyQuoted(command, false));
    }
    SearchFails(|command|, 0, at);
  }

  /** `os.path.join` ends with the file name, and keeps the directory in front of a relative one. */
  lemma {:induction false} JoinPathParts(directory: string, filename: string)
    ensures var r := JoinPath(directory, filename);
      && |filename| <= |r| && r[|r| - |filename|..] == filename
      && (filename == [] || filename[0] != '/' ==> |directory| <= |r| && r[..|directory|] == directory)
  {
    var r := JoinPath(directory, filename);
    if !(filename != [] && filename[0] == '/') {
      if directory == [] || directory[|directory| - 1] == '/' {
        assert r == directory + filename;
      } else {
        assert r == directory + "/" + filename;
      }
    }
  }
}
