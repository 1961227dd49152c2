/**
 * `NLPProcessor.parse_command` (src/nlp_processor.py): the command is
 * lower-cased and stripped, classified, and handed to the builder of its
 * intent.  The intents are routed as written: "save" goes to the wall
 * builder `_parse_save`, "create_layer" to the save builder
 * `_parse_create_layer`, and "draw_wall" to a method the class does not
 * define.
 */
module Processor {
  import opened Wrappers
  import opened Lexical
  import C = Classifier
  import opened Builders

  /** The `output` section of config.json, read by `_parse_create_layer`. */
  datatype Config = Config(directory: string, defaultFilename: string)

  /** The dispatch of `parse_command` on the command type. */
  function Dispatch(t: C.CommandType, command: string, config: Config): C.Outcome<Descriptor> {
    match t
    case DrawLine => C.Returned(ParseDrawLine(command))
    case DrawCircle => C.Returned(ParseDrawCircle(command))
    case DrawArc => C.Returned(ParseDrawArc(command))
    case DrawRectangle => C.Returned(ParseDrawRectangle(command))
    case DrawPolyline => C.Returned(ParseDrawPolyline(command))
    case DrawText => C.Returned(ParseDrawText(command))
    case DrawHatch => C.Returned(ParseDrawHatch(command))
    case Save => C.Returned(ParseSave(command))
    // `self._parse_draw_wall` is commented out
    case DrawWall => C.Raised("AttributeError")
    case CreateLayer => C.Returned(ParseCreateLayer(command, config.directory, config.defaultFilename))
    case _ => C.Returned(Unknown(UnknownMessage, command))
  }

  /** `parse_command`, with the classifier's unused domain table taken empty. */
  function ParseCommand(command: string, config: Config): C.Outcome<Descriptor> {
    var normalized := Normalize(command);
    Dispatch(C.IdentifyCommandType(normalized), normalized, config)
  }

  /** `parse_command` as written: the classifier raises before any dispatch. */
  function ParseCommandAsWritten(command: string, config: Config): C.Outcome<Descriptor> {
    var normalized := Normalize(command);
    var t := C.IdentifyCommandTypeAsWritten(normalized);
    if t.Raised? then C.Raised(t.exception) else Dispatch(t.value, normalized, config)
  }
}
