/**
 * The keyword classifier `_identify_command_type` (src/nlp_processor.py):
 * for every action word of the action table that occurs in the command, in
 * table order, and when that action is a drawing verb, the shape words of the
 * shape table are scanned in table order and the first one that has a drawing
 * intent decides.  When that finds nothing, fixed substring checks follow:
 * a layer with a creating verb, then an annotation, then saving.
 */
module Classifier {
  import opened Wrappers
  import opened Lexical

  /** The shape categories of the shape table. */
  datatype Shape =
    | Line | Circle | Arc | Rectangle | Square | Polyline | Text | Dimension
    | Wall | Door | Window | Stair | Column
    | Outlet | Switch | Light | DistributionBox
    | Shaft | Gear | Bearing | Flange

  /** The action categories of the action table. */
  datatype Action =
    | Draw | Modify | Move | Rotate | Scale | ScaleUp | ScaleDown | Erase | Save
    | Dimension | Hatch | CreateLayer | ChangeLayer

  /**
   * The command types `parse_command` tests for.  `DrawHatch` and `DrawWall`
   * have branches in the dispatcher, but no path of the classifier produces them.
   */
  datatype CommandType =
    | DrawLine | DrawCircle | DrawArc | DrawRectangle | DrawPolyline | DrawText
    | DrawHatch | DrawWall | Save | CreateLayer | AddDimension | Unknown

  /** `shape_keywords`, in definition order. */
  const ShapeTable: seq<(string, Shape)> := [
    ("直线", Line), ("线", Line),
    ("圆", Circle), ("圆形", Circle),
    ("弧", Arc), ("圆弧", Arc),
    ("矩形", Rectangle), ("方形", Rectangle), ("正方形", Square),
    ("多段线", Polyline), ("折线", Polyline),
    ("文本", Text), ("文字", Text),
    ("标注", Shape.Dimension), ("尺寸标注", Shape.Dimension),
    ("墙", Wall), ("墙体", Wall),
    ("门", Door), ("窗", Window),
    ("楼梯", Stair), ("柱子", Column),
    ("插座", Outlet),
    ("开关", Switch),
    ("灯", Light), ("灯具", Light),
    ("配电箱", DistributionBox),
    ("轴", Shaft),
    ("齿轮", Gear),
    ("轴承", Bearing),
    ("法兰", Flange)
  ]

  /** `action_keywords`, in definition order. */
  const ActionTable: seq<(string, Action)> := [
    ("画", Draw), ("绘制", Draw), ("创建", Draw), ("添加", Draw),
    ("修改", Modify), ("调整", Modify), ("改变", Modify),
    ("移动", Move), ("旋转", Rotate), ("缩放", Scale),
    ("放大", ScaleUp), ("缩小", ScaleDown),
    ("删除", Erase), ("擦除", Erase), ("移除", Erase),
    ("保存", Action.Save),
    ("标注", Action.Dimension),
    ("填充", Hatch),
    ("创建图层", Action.CreateLayer),
    ("切换图层", ChangeLayer)
  ]

  /** The words of the action table whose action is drawing. */
  const DrawVerbs: seq<string> := ["画", "绘制", "创建", "添加"]

  /** The verbs that, with "图层", make a layer command. */
  const LayerVerbs: seq<string> := ["创建", "新建", "添加"]

  /** The command type a shape gets under a drawing verb; `None` for the shapes the scan passes over. */
  function DrawnType(shape: Shape): Option<CommandType> {
    match shape
    case Line => Some(DrawLine)
    case Circle => Some(DrawCircle)
    case Arc => Some(DrawArc)
    case Rectangle => Some(DrawRectangle)
    case Square => Some(DrawRectangle)
    case Polyline => Some(DrawPolyline)
    case Text => Some(DrawText)
    case Dimension => Some(AddDimension)
    case _ => None
  }

  /** The inner loop: the first shape word of `shapes` that occurs and has a drawing type. */
  function FirstDrawnShape(command: string, shapes: seq<(string, Shape)>): Option<CommandType> {
    if shapes == [] then None
    else if Contains(command, shapes[0].0) && DrawnType(shapes[0].1).Some? then DrawnType(shapes[0].1)
    else FirstDrawnShape(command, shapes[1..])
  }

  /**
   * The outer loop over `actions`: an occurring drawing verb runs the inner
   * loop, which returns when it finds a shape; other actions do nothing.
   */
  function ActionScan(command: string, actions: seq<(string, Action)>): Option<CommandType> {
    if actions == [] then None
    else if Contains(command, actions[0].0) && actions[0].1 == Draw && FirstDrawnShape(command, ShapeTable).Some? then
      FirstDrawnShape(command, ShapeTable)
    else ActionScan(command, actions[1..])
  }

  /** Python's `any(w in command for w in words)`. */
  predicate AnyOccurs(command: string, words: seq<string>) {
    exists i :: 0 <= i < |words| && Contains(command, words[i])
  }

  /** The checks after the loops, in their order. */
  function SpecialCase(command: string): CommandType {
    if Contains(command, "图层") && AnyOccurs(command, LayerVerbs) then CommandType.CreateLayer
    else if Contains(command, "标注") then AddDimension
    else if Contains(command, "保存") then CommandType.Save
    else Unknown
  }

  /**
   * `_identify_command_type(command)`.  Its first loop, over the professional
   * domains, only records a domain that nothing reads; the table it reads is
   * taken empty here (see `IdentifyCommandTypeAsWritten`).
   */
  function IdentifyCommandType(command: string): CommandType {
    var drawn := ActionScan(command, ActionTable);
    if drawn.Some? then drawn.value else SpecialCase(command)
  }

  // ---------------------------------------------------------------------------
  // The classifier as written

  /** The outcome of a Python call: a value, or the exception it raises. */
  datatype Outcome<T> = Returned(value: T) | Raised(exception: string)

  /** The attributes `NLPProcessor.__init__` assigns; `domain_keywords` is commented out. */
  const ProcessorAttributes: set<string> := {"logger", "color_rgb_map", "shape_keywords", "action_keywords"}

  /**
   * The classifier as written: its first statement reads
   * `self.domain_keywords`, which raises AttributeError when the attribute
   * was never assigned.
   */
  function IdentifyCommandTypeAsWritten(command: string): Outcome<CommandType> {
    if "domain_keywords" in ProcessorAttributes then Returned(IdentifyCommandType(command))
    else Raised("AttributeError")
  }
}
