/**
 * What the classifier promises.  The nested loops come down to one rule: when
 * some drawing verb occurs, the first shape word of the shape table that
 * occurs and has a drawing intent decides, whichever verb it was; only when
 * that finds nothing do the special cases run, in their fixed order.  Words
 * that contain an earlier word of the table are shadowed by it, so the
 * polyline intent is never produced and "画圆弧" (draw an arc) draws a circle.
 */
module ClassifierFacts {
  import opened Wrappers
  import opened Lexical
  import opened LexicalFacts
  import opened Classifier

  // ---------------------------------------------------------------------------
  // The tables

  /** Only the first four actions draw. */
  lemma {:induction false} DrawEntries(i: nat)
    requires i < |ActionTable| && ActionTable[i].1 == Draw
    ensures i < 4 && ActionTable[i].0 == DrawVerbs[i]
  {
  }

  /** Only "多段线" and "折线" name polylines. */
  lemma {:induction false} PolylineEntries(i: nat)
    requires i < |ShapeTable| && ShapeTable[i].1 == Polyline
    ensures i == 9 || i == 10
  {
  }

  /** Only arcs are drawn as arcs and only polylines as polylines; no shape is drawn as a hatch or a wall. */
  lemma DrawnTypeInverse(shape: Shape)
    ensures DrawnType(shape) == Some(DrawArc) ==> shape == Arc
    ensures DrawnType(shape) == Some(DrawPolyline) ==> shape == Polyline
    ensures DrawnType(shape) != Some(DrawHatch) && DrawnType(shape) != Some(DrawWall)
  {
  }

  /** The checks after the loops yield a layer, an annotation, saving or nothing. */
  lemma SpecialCaseRange(command: string)
    ensures SpecialCase(command) in {CommandType.CreateLayer, AddDimension, CommandType.Save, Unknown}
  {
  }

  /** Only "弧" and "圆弧" name arcs. */
  lemma {:induction false} ArcEntries(i: nat)
    requires i < |ShapeTable| && ShapeTable[i].1 == Arc
    ensures i == 4 || i == 5
  {
  }

  /** Some drawing verb of `actions` occurs in the command. */
  predicate DrawVerbIn(command: string, actions: seq<(string, Action)>) {
    exists i :: 0 <= i < |actions| && actions[i].1 == Draw && Contains(command, actions[i].0)
  }

  /** The shape word at `i` occurs and has a drawing intent. */
  predicate BasicShapeAt(command: string, shapes: seq<(string, Shape)>, i: nat)
    requires i < |shapes|
  {
    Contains(command, shapes[i].0) && DrawnType(shapes[i].1).Some?
  }

  // ---------------------------------------------------------------------------
  // The inner loop

  /** The inner loop finds nothing exactly when no shape word with a drawing intent occurs. */
  lemma {:induction false} FirstDrawnShapeNone(command: string, shapes: seq<(string, Shape)>)
    ensures FirstDrawnShape(command, shapes).None? <==> forall i :: 0 <= i < |shapes| ==> !BasicShapeAt(command, shapes, i)
  {
    if shapes != [] {
      var tail := shapes[1..];
      FirstDrawnShapeNone(command, tail);
      assert forall i :: 1 <= i < |shapes| ==> BasicShapeAt(command, shapes, i) == BasicShapeAt(command, tail, i - 1);
      if FirstDrawnShape(command, shapes).None? {
        assert !BasicShapeAt(command, shapes, 0);
      } else if !BasicShapeAt(command, shapes, 0) {
        var j :| 0 <= j < |tail| && BasicShapeAt(command, tail, j);
        assert BasicShapeAt(command, shapes, j + 1);
      }
    }
  }

  /** The inner loop returns the intent of the first shape word with a drawing intent that occurs. */
  lemma {:induction false} FirstDrawnShapeAt(command: string, shapes: seq<(string, Shape)>, i: nat)
    requires i < |shapes| && BasicShapeAt(command, shapes, i)
    requires forall j :: 0 <= j < i ==> !BasicShapeAt(command, shapes, j)
    ensures FirstDrawnShape(command, shapes) == DrawnType(shapes[i].1)
  {
    if i > 0 {
      assert !BasicShapeAt(command, shapes, 0);
      assert forall j :: 0 <= j < i - 1 ==> BasicShapeAt(command, shapes[1..], j) == BasicShapeAt(command, shapes, j + 1);
      FirstDrawnShapeAt(command, shapes[1..], i - 1);
    }
  }

  /** A result of the inner loop comes from the first shape word with a drawing intent that occurs. */
  lemma {:induction false} FirstDrawnShapeFound(command: string, shapes: seq<(string, Shape)>)
    requires FirstDrawnShape(command, shapes).Some?
    ensures exists i ::
      && 0 <= i < |shapes| && BasicShapeAt(command, shapes, i)
      && FirstDrawnShape(command, shapes) == DrawnType(shapes[i].1)
      && forall j :: 0 <= j < i ==> !BasicShapeAt(command, shapes, j)
  {
    if !BasicShapeAt(command, shapes, 0) {
      FirstDrawnShapeFound(command, shapes[1..]);
      var i :| && 0 <= i < |shapes[1..]| && BasicShapeAt(command, shapes[1..], i)
        && FirstDrawnShape(command, shapes[1..]) == DrawnType(shapes[1..][i].1)
        && forall j :: 0 <= j < i ==> !BasicShapeAt(command, shapes[1..], j);
      assert forall j :: 1 <= j < i + 1 ==> BasicShapeAt(command, shapes, j) == BasicShapeAt(command, shapes[1..], j - 1);
      assert shapes[i + 1] == shapes[1..][i];
    } else {
      assert FirstDrawnShape(command, shapes) == DrawnType(shapes[0].1);
    }
  }

  /** A word of the table that contains an earlier word with a drawing intent is shadowed by it. */
  lemma {:induction false} ShadowedBy(command: string, shapes: seq<(string, Shape)>, i: nat, j: nat, k: nat)
    requires j < i < |shapes| && BasicShapeAt(command, shapes, i)
    requires ContainsAt(shapes[i].0, shapes[j].0, k) && DrawnType(shapes[j].1).Some?
    ensures BasicShapeAt(command, shapes, j)
  {
    ContainsTransitive(command, shapes[i].0, shapes[j].0);
  }

  // ---------------------------------------------------------------------------
  // The outer loop

  /** The outer loop runs the inner loop exactly when some drawing verb occurs. */
  lemma {:induction false} ActionScanRule(command: string, actions: seq<(string, Action)>)
    ensures ActionScan(command, actions) ==
      if DrawVerbIn(command, actions) then FirstDrawnShape(command, ShapeTable) else None
  {
    if actions != [] {
      ActionScanRule(command, actions[1..]);
      assert forall i :: 1 <= i < |actions| ==> actions[i] == actions[1..][i - 1];
      if DrawVerbIn(command, actions[1..]) {
        var i :| 0 <= i < |actions[1..]| && actions[1..][i].1 == Draw && Contains(command, actions[1..][i].0);
        assert actions[i + 1] == actions[1..][i];
      }
    }
  }

  /** The drawing verbs of the action table are exactly 画, 绘制, 创建 and 添加. */
  lemma {:induction false} DrawVerbsOfTable(command: string)
    ensures DrawVerbIn(command, ActionTable) <==> AnyOccurs(command, DrawVerbs)
  {
    if DrawVerbIn(command, ActionTable) {
      var i :| 0 <= i < |ActionTable| && ActionTable[i].1 == Draw && Contains(command, ActionTable[i].0);
      DrawEntries(i);
    }
    if AnyOccurs(command, DrawVerbs) {
      var i :| 0 <= i < |DrawVerbs| && Contains(command, DrawVerbs[i]);
      assert ActionTable[i] == (DrawVerbs[i], Draw);
    }
  }

  // ---------------------------------------------------------------------------
  // The classifier

  /**
   * The drawing-verb rule: with any drawing verb and any shape word with a
   * drawing intent, the first such shape word in table order decides, whatever
   * the verb; the special cases are reached only otherwise.
   */
  lemma {:induction false} DrawVerbRule(command: string)
    ensures IdentifyCommandType(command) ==
      var drawn := FirstDrawnShape(command, ShapeTable);
      if AnyOccurs(command, DrawVerbs) && drawn.Some? then drawn.value else SpecialCase(command)
  {
    ActionScanRule(command, ActionTable);
    DrawVerbsOfTable(command);
  }

  /** With no shape word that has a drawing intent, only the special cases decide. */
  lemma {:induction false} NoShapeFallsThrough(command: string)
    requires forall i :: 0 <= i < |ShapeTable| ==> !BasicShapeAt(command, ShapeTable, i)
    ensures IdentifyCommandType(command) == SpecialCase(command)
  {
    DrawVerbRule(command);
    FirstDrawnShapeNone(command, ShapeTable);
  }

  /** "多段线" and "折线" both contain "线". */
  lemma {:induction false} PolylineWordHoldsLine(w: string)
    requires w == "多段线" || w == "折线"
    ensures ContainsAt(w, "线", |w| - 1)
  {
  }

  /** Where a polyline word of the table occurs, the earlier entry "线" (line) occurs too. */
  lemma {:induction false} LineBeforePolyline(command: string, i: nat)
    requires i < |ShapeTable| && DrawnType(ShapeTable[i].1) == Some(DrawPolyline)
    requires BasicShapeAt(command, ShapeTable, i)
    ensures 1 < i && BasicShapeAt(command, ShapeTable, 1)
  {
    var t := ShapeTable;
    DrawnTypeInverse(t[i].1);
    PolylineEntries(i);
    PolylineWordHoldsLine(t[i].0);
    ShadowedBy(command, t, i, 1, |t[i].0| - 1);
  }

  /** "线" (line) comes before both polyline words and occurs wherever they do. */
  lemma {:induction false} PolylineShadowed(command: string)
    ensures FirstDrawnShape(command, ShapeTable) != Some(DrawPolyline)
  {
    var t := ShapeTable;
    if FirstDrawnShape(command, t) == Some(DrawPolyline) {
      FirstDrawnShapeFound(command, t);
      var i :| && 0 <= i < |t| && BasicShapeAt(command, t, i)
        && FirstDrawnShape(command, t) == DrawnType(t[i].1)
        && forall j :: 0 <= j < i ==> !BasicShapeAt(command, t, j);
      LineBeforePolyline(command, i);
    }
  }

  /**
   * A drawing verb with "多段线" or "折线" (polyline) draws a line: "线" (line)
   * occurs inside both and comes first in the table.
   */
  lemma {:induction false} PolylineWordsDrawLines(command: string)
    requires AnyOccurs(command, DrawVerbs)
    requires Contains(command, "多段线") || Contains(command, "折线")
    ensures IdentifyCommandType(command) == DrawLine
  {
    var t := ShapeTable;
    var i := if Contains(command, "多段线") then 9 else 10;
    PolylineWordHoldsLine(t[i].0);
    ShadowedBy(command, t, i, 1, |t[i].0| - 1);
    if BasicShapeAt(command, t, 0) {
      FirstDrawnShapeAt(command, t, 0);
    } else {
      FirstDrawnShapeAt(command, t, 1);
    }
    DrawVerbRule(command);
  }

  /**
   * Intents the classifier never produces: the polyline intent (shadowed by
   * "线"), and the hatch and wall intents the dispatcher tests for.
   */
  lemma {:induction false} NeverReturned(command: string)
    ensures IdentifyCommandType(command) !in {DrawPolyline, DrawHatch, DrawWall}
  {
    DrawVerbRule(command);
    var drawn := FirstDrawnShape(command, ShapeTable);
    if AnyOccurs(command, DrawVerbs) && drawn.Some? {
      PolylineShadowed(command);
      FirstDrawnShapeFound(command, ShapeTable);
      var i :| 0 <= i < |ShapeTable| && drawn == DrawnType(ShapeTable[i].1);
      DrawnTypeInverse(ShapeTable[i].1);
    } else {
      SpecialCaseRange(command);
    }
  }

  /** "弧" and "圆弧" both contain "弧". */
  lemma {:induction false} ArcWordHoldsArc(w: string)
    requires w == "弧" || w == "圆弧"
    ensures Contains(w, "弧")
  {
    assert ContainsAt(w, "弧", |w| - 1);
  }

  /** A shape word for arcs that occurs brings "弧" with it, and sits after "圆". */
  lemma {:induction false} ArcWordOccurs(command: string, i: nat)
    requires i < |ShapeTable| && ShapeTable[i].1 == Arc && Contains(command, ShapeTable[i].0)
    ensures 2 < i && Contains(command, "弧")
  {
    ArcEntries(i);
    ArcWordHoldsArc(ShapeTable[i].0);
    ContainsTransitive(command, ShapeTable[i].0, "弧");
  }

  /** "圆" (circle), third in the table, has a drawing intent. */
  lemma {:induction false} CircleWordAbsent(command: string)
    requires !BasicShapeAt(command, ShapeTable, 2)
    ensures !Contains(command, "圆")
  {
    assert ShapeTable[2] == ("圆", Circle);
  }

  /** The arc intent needs "弧" and the absence of "圆" (circle), which comes first in the table. */
  lemma {:induction false} ArcNeedsNoCircle(command: string)
    requires IdentifyCommandType(command) == DrawArc
    ensures Contains(command, "弧") && !Contains(command, "圆")
  {
    var t := ShapeTable;
    assert FirstDrawnShape(command, t) == Some(DrawArc) by {
      DrawVerbRule(command);
    }
    FirstDrawnShapeFound(command, t);
    var i :| && 0 <= i < |t| && BasicShapeAt(command, t, i)
      && FirstDrawnShape(command, t) == DrawnType(t[i].1)
      && forall j :: 0 <= j < i ==> !BasicShapeAt(command, t, j);
    DrawnTypeInverse(t[i].1);
    ArcWordOccurs(command, i);
    CircleWordAbsent(command);
  }

  /** "直线" contains "线". */
  lemma {:induction false} StraightLineHoldsLine(w: string)
    requires w == "直线"
    ensures Contains(w, "线")
  {
    assert ContainsAt(w, "线", 1);
  }

  /**
   * A drawing verb with "圆弧" (arc) and no "线" draws a circle: "圆" (circle)
   * precedes "圆弧" in the shape table and occurs inside it.
   */
  lemma {:induction false} ArcWordIsCircle(command: string)
    requires AnyOccurs(command, DrawVerbs) && Contains(command, "圆弧") && !Contains(command, "线")
    ensures IdentifyCommandType(command) == DrawCircle
  {
    var t := ShapeTable;
    if Contains(command, t[0].0) {
      StraightLineHoldsLine(t[0].0);
      ContainsTransitive(command, t[0].0, "线");
    }
    assert ContainsAt(t[5].0, t[2].0, 0);
    ContainsTransitive(command, t[5].0, t[2].0);
    FirstDrawnShapeAt(command, t, 2);
    DrawVerbRule(command);
  }

  /** The words of "画圆弧". */
  lemma {:induction false} DrawArcWords(c: string)
    requires c == "画圆弧"
    ensures AnyOccurs(c, DrawVerbs) && Contains(c, "圆弧") && !Contains(c, "线")
  {
    assert ContainsAt(c, DrawVerbs[0], 0);
    assert ContainsAt(c, "圆弧", 1);
    assert c[0] == '画' && c[1] == '圆' && c[2] == '弧';
    forall i | 0 <= i < |c| ensures !ContainsAt(c, "线", i) {
      assert c[i] != "线"[0];
    }
  }

  /** "画圆弧" (draw an arc) classifies as drawing a circle. */
  lemma {:induction false} DrawArcIsCircle(c: string)
    requires c == "画圆弧"
    ensures IdentifyCommandType(c) == DrawCircle
  {
    DrawArcWords(c);
    ArcWordIsCircle(c);
  }

  // ---------------------------------------------------------------------------
  // The classifier as written

  /** Every call of the classifier as written raises AttributeError. */
  lemma {:induction false} AsWrittenAlwaysRaises(command: string)
    ensures IdentifyCommandTypeAsWritten(command) == Raised("AttributeError")
  {
    assert "domain_keywords"[0] == 'd';
  }
}
