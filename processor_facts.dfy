/**
 * What `parse_command` does for every command: it always returns a
 * descriptor, the kind of descriptor follows the command type, a polyline or
 * hatch descriptor never comes out, and the routes of "save" and
 * "create_layer" lead to the wall and save builders.
 */
module ProcessorFacts {
  import opened Wrappers
  import opened Geometry
  import opened Lexical
  import opened LexicalFacts
  import C = Classifier
  import CF = ClassifierFacts
  import opened Builders
  import opened BuilderFacts
  import opened Processor

  /**
   * The dispatch alone: every type but "draw_wall" returns, and the kind of
   * descriptor follows the type one to one.
   */
  lemma DispatchKinds(t: C.CommandType, c: string, config: Config)
    ensures Dispatch(t, c, config).Returned? <==> t != C.DrawWall
    ensures t != C.DrawWall ==>
            var d := Dispatch(t, c, config).value;
            && (d.DrawLine? <==> t == C.DrawLine)
            && (d.DrawCircle? <==> t == C.DrawCircle)
            && (d.DrawArc? <==> t == C.DrawArc)
            && (d.DrawRectangle? <==> t == C.DrawRectangle)
            && (d.DrawText? <==> t == C.DrawText)
            && (d.DrawPolyline? || d == Error(PolylineMessage) <==> t == C.DrawPolyline)
            && (d.DrawHatch? || d == Error(HatchMessage) <==> t == C.DrawHatch)
            && (d.DrawWall? || d == Error(WallMessage) <==> t == C.CommandType.Save)
            && (d.Save? <==> t == C.CommandType.CreateLayer)
            && (d.Unknown? <==> t == C.AddDimension || t == C.Unknown)
            && (d.Unknown? ==> d == Unknown(UnknownMessage, c))
  {
  }

  /** No command raises: the classifier never names the "draw_wall" branch, whose builder is missing. */
  lemma {:induction false} ParseCommandReturns(command: string, config: Config)
    ensures ParseCommand(command, config).Returned?
  {
    var c := Normalize(command);
    CF.NeverReturned(c);
    DispatchKinds(C.IdentifyCommandType(c), c, config);
  }

  /**
   * The descriptor's kind follows the command type, an unknown command is
   * echoed in its normal form, and neither a polyline nor a hatch (nor their
   * error descriptors) is ever produced.
   */
  lemma {:induction false} DescriptorKinds(command: string, config: Config)
    ensures ParseCommand(command, config).Returned?
    ensures var c := Normalize(command);
            var t := C.IdentifyCommandType(c);
            var d := ParseCommand(command, config).value;
            && (d.DrawWall? || d == Error(WallMessage) <==> t == C.CommandType.Save)
            && (d.Save? <==> t == C.CommandType.CreateLayer)
            && (d.Unknown? <==> t == C.AddDimension || t == C.Unknown)
            && (d.Unknown? ==> d == Unknown(UnknownMessage, c))
            && !d.DrawPolyline? && !d.DrawHatch?
            && d != Error(PolylineMessage) && d != Error(HatchMessage)
  {
    var c := Normalize(command);
    CF.NeverReturned(c);
    DispatchKinds(C.IdentifyCommandType(c), c, config);
  }

  /** `parse_command` normalises its input, so a normalised command parses the same. */
  lemma {:induction false} ParseNormalized(command: string, config: Config)
    ensures ParseCommand(Normalize(command), config) == ParseCommand(command, config)
  {
    NormalizeIdempotent(command);
  }

  /** As written, every command raises AttributeError in the classifier. */
  lemma {:induction false} ParseCommandAsWrittenRaises(command: string, config: Config)
    ensures ParseCommandAsWritten(command, config) == C.Raised("AttributeError")
  {
    CF.AsWrittenAlwaysRaises(Normalize(command));
  }

  /** A polyline request under a drawing verb is parsed as a line. */
  lemma {:induction false} PolylineCommandDrawsLine(command: string, config: Config)
    requires C.AnyOccurs(Normalize(command), C.DrawVerbs)
    requires Contains(Normalize(command), "多段线") || Contains(Normalize(command), "折线")
    ensures ParseCommand(command, config) == C.Returned(ParseDrawLine(Normalize(command)))
  {
    CF.PolylineWordsDrawLines(Normalize(command));
  }

  /**
   * A drawing verb with "圆弧" (arc) and without "线" (line) or any digit gives
   * the default circle, not an arc: "圆" (circle) inside the arc word is found first.
   */
  lemma {:induction false} ArcCommandDrawsDefaultCircle(command: string, config: Config)
    requires var c := Normalize(command);
             C.AnyOccurs(c, C.DrawVerbs) && Contains(c, "圆弧") && !Contains(c, "线") && DigitFree(c)
    ensures ParseCommand(command, config) == C.Returned(DrawCircle(Origin, 50.0))
  {
    var c := Normalize(command);
    CF.ArcWordIsCircle(c);
    DigitFreeCircleDefaults(c);
  }

  /**
   * A layer command without a drawn shape word reaches the save builder:
   * the quoted path when one is labelled, else the configured default file.
   */
  lemma {:induction false} LayerCommandSaves(command: string, config: Config)
    requires var c := Normalize(command);
             (!C.AnyOccurs(c, C.DrawVerbs) || C.FirstDrawnShape(c, C.ShapeTable).None?)
             && Contains(c, "图层") && C.AnyOccurs(c, C.LayerVerbs)
    ensures ParseCommand(command, config) ==
              C.Returned(ParseCreateLayer(Normalize(command), config.directory, config.defaultFilename))
    ensures (forall i :: 0 <= i < |PathLabels| ==> !Contains(Lower(Normalize(command)), PathLabels[i])) ==>
              ParseCommand(command, config) == C.Returned(Save(JoinPath(config.directory, config.defaultFilename)))
  {
    var c := Normalize(command);
    CF.DrawVerbRule(c);
    if forall i :: 0 <= i < |PathLabels| ==> !Contains(Lower(c), PathLabels[i]) {
      DefaultPath(c, config.directory, config.defaultFilename);
    }
  }

  /** A "保存" (save) command that is no drawing, layer or annotation command builds a wall. */
  lemma {:induction false} SaveCommandBuildsWall(command: string, config: Config)
    requires var c := Normalize(command);
             (!C.AnyOccurs(c, C.DrawVerbs) || C.FirstDrawnShape(c, C.ShapeTable).None?)
             && !(Contains(c, "图层") && C.AnyOccurs(c, C.LayerVerbs))
             && !Contains(c, "标注") && Contains(c, "保存")
    ensures ParseCommand(command, config) == C.Returned(ParseSave(Normalize(command)))
    ensures ParseCommand(command, config).value.DrawWall? || ParseCommand(command, config).value == Error(WallMessage)
  {
    CF.DrawVerbRule(Normalize(command));
  }
}
