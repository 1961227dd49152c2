/**
 * The per-intent builders `_parse_*` of src/nlp_processor.py: each reads the
 * coordinates, numbers and labelled values of a command and returns a
 * descriptor, the dictionary whose `"type"` names what to draw.
 *
 * Patterns compiled with IGNORECASE match their lower-case labels in the
 * lower-cased command.  Lowering keeps every position, digit, sign, quote and
 * word character, so a number is read the same from either text, and quoted
 * text and words are captured from the command as it is given.
 */
module Builders {
  import opened Wrappers
  import opened Geometry
  import opened Lexical

  /** The descriptor dictionaries, one constructor per `"type"` value. */
  datatype Descriptor =
    | DrawLine(startPoint: Point, endPoint: Point, note: Option<string>)
    | DrawCircle(center: Point, radius: real)
    | DrawArc(center: Point, radius: real, startAngle: real, endAngle: real)
    | DrawRectangle(corner1: Point, corner2: Point)
    | DrawPolyline(points: seq<Point>, closed: bool)
    | DrawText(position: Point, text: string, height: real, rotation: real)
    | DrawHatch(points: seq<Point>, patternName: string, scale: real)
    | DrawWall(startPoint: Point, endPoint: Point, width: real)
    | Save(filePath: string)
    | Unknown(error: string, originalCommand: string)
    | Error(message: string)

  const LineNote := "使用默认坐标，因为命令中未提供足够的坐标信息"
  const PolylineMessage := "绘制多段线需要至少两个坐标点"
  const HatchMessage := "绘制填充需要至少3个点来定义边界"
  const WallMessage := "绘制墙体需要提供起点和终点坐标"
  const UnknownMessage := "无法识别的命令类型"
  const DefaultText := "示例文本"
  const DefaultPattern := "SOLID"

  const RadiusLabels: seq<string> := ["半径", "r", "radius"]
  const StartAngleLabels: seq<string> := ["起始角度", "start angle"]
  const EndAngleLabels: seq<string> := ["结束角度", "end angle"]
  const WidthLabels: seq<string> := ["宽度", "width"]
  const HeightLabels: seq<string> := ["高度", "height"]
  const RotationLabels: seq<string> := ["旋转", "角度", "rotation"]
  const PatternLabels: seq<string> := ["图案", "pattern"]
  const ScaleLabels: seq<string> := ["比例", "缩放", "scale"]
  const WallWidthLabels: seq<string> := ["宽度", "宽", "厚", "厚度"]
  const PathLabels: seq<string> := ["路径", "保存到", "path"]

  /** The first coordinate, or the origin when there is none. */
  function FirstOrOrigin(coordinates: seq<Point>): Point {
    if |coordinates| > 0 then coordinates[0] else Origin
  }

  /** A labelled, possibly negative number searched without regard to case, or `default`. */
  function CaselessNumber(command: string, labels: seq<string>, default: real): real {
    LabelledNumber(Lower(command), labels, true).GetOr(default)
  }

  // ---------------------------------------------------------------------------
  // Lines, circles, arcs, rectangles and polylines

  /** `_parse_draw_line`. */
  function ParseDrawLine(command: string): Descriptor {
    var cs := Coordinates(command);
    if |cs| >= 2 then DrawLine(cs[0], cs[1], None)
    else DrawLine(Origin, Point(100.0, 100.0, 0.0), Some(LineNote))
  }

  /** The radius of `_parse_draw_circle` and `_parse_draw_arc`: labelled, else the first number, else 50. */
  function Radius(command: string): real {
    var labelled := LabelledNumber(Lower(command), RadiusLabels, true);
    if labelled.Some? then labelled.value
    else
      var numbers := Numbers(command);
      if |numbers| > 0 then numbers[0] else 50.0
  }

  /** `_parse_draw_circle`. */
  function ParseDrawCircle(command: string): Descriptor {
    DrawCircle(FirstOrOrigin(Coordinates(command)), Radius(command))
  }

  /** `_parse_draw_arc`; its later checks for missing values never fire. */
  function ParseDrawArc(command: string): Descriptor {
    DrawArc(FirstOrOrigin(Coordinates(command)), Radius(command),
            CaselessNumber(command, StartAngleLabels, 0.0), CaselessNumber(command, EndAngleLabels, 90.0))
  }

  /** `_parse_draw_rectangle`. */
  function ParseDrawRectangle(command: string): Descriptor {
    var cs := Coordinates(command);
    if |cs| >= 2 then DrawRectangle(cs[0], cs[1])
    else
      var width := CaselessNumber(command, WidthLabels, 100.0);
      var height := CaselessNumber(command, HeightLabels, 100.0);
      if |cs| == 1 then DrawRectangle(cs[0], Point(cs[0].x + width, cs[0].y + height, cs[0].z))
      else DrawRectangle(Origin, Point(width, height, 0.0))
  }

  /** `_parse_draw_polyline`. */
  function ParseDrawPolyline(command: string): Descriptor {
    var cs := Coordinates(command);
    var closed := Contains(command, "闭合") || Contains(command, "封闭");
    if |cs| >= 2 then DrawPolyline(cs, closed) else Error(PolylineMessage)
  }

  // ---------------------------------------------------------------------------
  // Text

  /** The character class `[文本内容|text|内容]`: one character, not one of the words. */
  predicate IsTextCueChar(c: char) {
    c == '文' || c == '本' || c == '内' || c == '容' || c == '|' || c == 't' || c == 'e' || c == 'x'
  }

  /** `[文本内容|text|内容][：:]\s*["'](.*?)["']` at `p`: group 1. */
  function TextCueAt(s: string, p: nat): Option<string> {
    if p + 1 < |s| && IsTextCueChar(s[p]) && (s[p + 1] == '：' || s[p + 1] == ':') then
      QuotedAt(s, SkipSpaces(s, p + 2), false)
    else None
  }

  function TextCue(s: string): nat -> Option<string> {
    (p: nat) => TextCueAt(s, p)
  }

  /** The text of `_parse_draw_text`: after a cue, else the first quoted text, else the sample text. */
  function TextContent(command: string): string {
    var cued := Search(command, TextCue(command));
    if cued.Some? then cued.value
    else
      var quoted := FirstQuoted(command);
      if quoted.Some? then quoted.value else DefaultText
  }

  /** `_parse_draw_text`. */
  function ParseDrawText(command: string): Descriptor {
    DrawText(FirstOrOrigin(Coordinates(command)), TextContent(command),
             CaselessNumber(command, HeightLabels, 2.5), CaselessNumber(command, RotationLabels, 0.0))
  }

  // ---------------------------------------------------------------------------
  // Hatches

  /**
   * The two pattern-name patterns of `_parse_draw_hatch`, in the order they
   * are tried: a quoted name, which as written must be followed by an extra
   * `'`, then a run of word characters.
   */
  datatype NamePattern = QuotedName | WordName

  const NamePatterns: seq<NamePattern> := [QuotedName, WordName]

  /** `re.search(pattern, command, re.IGNORECASE)`: group 1. */
  function NameMatch(command: string, pattern: NamePattern): Option<string> {
    if pattern.QuotedName? then LabelledQuoted(command, PatternLabels, true)
    else LabelledWord(command, PatternLabels)
  }

  /** The first of `patterns` that matches. */
  function FirstNameMatch(command: string, patterns: seq<NamePattern>): Option<string> {
    if patterns == [] then None
    else
      var m := NameMatch(command, patterns[0]);
      if m.Some? then m else FirstNameMatch(command, patterns[1..])
  }

  /** The pattern name: the first match, upper-cased, else "SOLID". */
  function PatternName(command: string): string {
    var m := FirstNameMatch(command, NamePatterns);
    if m.Some? then Upper(m.value) else DefaultPattern
  }

  /** The loop of `_parse_draw_hatch` that tries the patterns in turn and stops at the first match. */
  method FindPatternName(command: string) returns (patternName: string)
    ensures patternName == PatternName(command)
  {
    patternName := DefaultPattern;
    var i := 0;
    while i < |NamePatterns|
      invariant 0 <= i <= |NamePatterns|
      invariant FirstNameMatch(command, NamePatterns) == FirstNameMatch(command, NamePatterns[i..])
      invariant patternName == DefaultPattern
    {
      var m := NameMatch(command, NamePatterns[i]);
      if m.Some? {
        patternName := Upper(m.value);
        break;
      }
      i := i + 1;
    }
  }

  /** The fill scale: an unsigned labelled number, else 1. */
  function HatchScale(command: string): real {
    LabelledNumber(Lower(command), ScaleLabels, false).GetOr(1.0)
  }

  /** `_parse_draw_hatch`. */
  function ParseDrawHatch(command: string): Descriptor {
    var cs := Coordinates(command);
    if |cs| >= 3 then DrawHatch(cs, PatternName(command), HatchScale(command)) else Error(HatchMessage)
  }

  // ---------------------------------------------------------------------------
  // Walls and saving

  /** The wall width: an unsigned labelled number, case kept, else 10. */
  function WallWidth(command: string): real {
    LabelledNumber(command, WallWidthLabels, false).GetOr(10.0)
  }

  /** `_parse_save`, which builds a wall. */
  function ParseSave(command: string): Descriptor {
    var cs := Coordinates(command);
    if |cs| >= 2 then DrawWall(cs[0], cs[1], WallWidth(command)) else Error(WallMessage)
  }

  /** `os.path.join(directory, filename)` on POSIX paths. */
  function JoinPath(directory: string, filename: string): string {
    if filename != [] && filename[0] == '/' then filename
    else if directory == [] || directory[|directory| - 1] == '/' then directory + filename
    else directory + "/" + filename
  }

  /** `_parse_create_layer`, which builds a save descriptor. */
  function ParseCreateLayer(command: string, directory: string, defaultFilename: string): Descriptor {
    var path := LabelledQuoted(command, PathLabels, false);
    Save(if path.Some? then path.value else JoinPath(directory, defaultFilename))
  }
}
