# CAD-MCP command interpreter and controller helpers, in Dafny

This project models the core of the CAD-MCP server: how it turns a natural-language drawing command into a drawing request, and the parts of its CAD controller that do not depend on the CAD application.

**`NLPProcessor` (src/nlp_processor.py):**

- The colour resolver `extract_color_from_command`.
- The normalisation and dispatch of `parse_command`.
- The keyword classifier `_identify_command_type`.
- The coordinate and number scanners `_extract_coordinates` and `_extract_numbers`.
- Every `_parse_*` builder. Each builder becomes a function from the command to a `Descriptor`, one constructor per `"type"` of the source's result dictionary.

**`CADController` (src/cad_controller.py):**

- `validate_lineweight` and its table `valid_lineweights`.
- The lifting of 2-D points to 3-D in `draw_line` and `draw_polyline`.
- The flattening of those points for `AddPolyline`, and the rule that sets `Closed`.
- The outline `draw_rectangle` builds.
- The three-point guard of `draw_hatch`.
- `is_running`.

The controller is a class. Its `app`, `doc` and `drawn` fields are updated by `Start` and by the drawing methods. `drawn` records what each call adds to model space.

Module layout:

| module | what it holds |
|---|---|
| `Wrappers` | the `Option` type |
| `Geometry` | points |
| `Lexical` | character classes and `lower().strip()`; one scanner per regular expression the interpreter uses (numbers, coordinates, labelled values, quoted text, words); a generic `re.search` |
| `Notation` | how integers and points are written; the reference the scanners are proved to read back |
| `Colors` | the colour table, Python's `int()`, and the colour resolver with its fallback pattern |
| `Classifier` | the keyword tables and `_identify_command_type` |
| `Builders` | the `_parse_*` builders |
| `Processor` | `parse_command` |
| `Cad` | the controller helpers and the `CadController` class |
| `*Facts` | the properties of each of the modules above |

Regular expressions follow Python's `re` semantics for each pattern used: the leftmost start, greedy and lazy quantifiers, and backtracking where it changes the outcome.

Character classes and conversions are modelled as follows; where they differ from Python, "## Left out" says so:

- `\d`, `int()` and `float()` accept only the ASCII digits.
- `\s` and `strip()` use the white space of `str.isspace`.
- `\w` is an ASCII letter or digit, `_`, or a CJK ideograph.
- `lower()` and `upper()` change only ASCII letters.
- Numbers read by `float()` are exact reals.

## Model

| member | source | states |
|---|---|---|
| Colors.ExtractColor | src/nlp_processor.py:117-147 | the colour index is always in 1..255 |
| ColorFacts.ExtractColorInteger | src/nlp_processor.py:122-127 | integer text in 1..255 resolves to that integer |
| ColorFacts.ExtractColorByName | src/nlp_processor.py:122-147 | text that is not an integer in 1..255 resolves to the first table name that occurs in its lowered form, else 7 |
| ColorFacts.ExtractColorNamed | src/nlp_processor.py:130-135 | non-integer text in which a table name occurs resolves by that name lookup |
| ColorFacts.FallbackNeverFires | src/nlp_processor.py:138-144 | when no table name occurs in the lowered text, no word found by the fallback pattern is a key, so the fallback never changes the result |
| ColorFacts.FirstColorNameNone | src/nlp_processor.py:133-135 | the name loop finds nothing exactly when no lower-cased name occurs |
| ColorFacts.FirstColorNameAt | src/nlp_processor.py:133-135 | the name loop returns the index of the first entry, in definition order, whose lower-cased name occurs |
| ColorFacts.FirstColorNameFound | src/nlp_processor.py:133-135 | a successful lookup comes from the first entry whose name occurs |
| ColorFacts.ParseIntNumeral | src/nlp_processor.py:123-124 | `int(str(n)) == n` for every integer |
| ColorFacts.ParseIntNegative | src/nlp_processor.py:123-124 | `int()` reads back a negative numeral |
| ColorFacts.UnsignedIntNumeral | src/nlp_processor.py:123-124 | `int()` reads back a decimal numeral |
| ColorFacts.ParseIntOfWord | src/nlp_processor.py:123-127 | text without digit, sign or surrounding space is not an integer |
| ColorFacts.ColorWordsOccur | src/nlp_processor.py:139-140 | every word `findall` returns with the fallback pattern occurs in the text |
| ColorFacts.KeyOccurs | src/nlp_processor.py:133-144 | a key occurring in lowered text is found by the name loop |
| ColorFacts.NoKnownWord | src/nlp_processor.py:141-144 | when the name loop finds nothing, no fallback word is a key |
| ColorFacts.MagentaNameIsRed | src/nlp_processor.py:30-35 | text containing "洋红色" (magenta, 6) that is not an integer in 1..255 resolves to 1, because "红色" (red) occurs inside it and comes first |
| ColorFacts.PaleGrayIsGray | src/nlp_processor.py:37-38 | "浅灰色" (light gray) resolves to 8 (gray), not to 9 |
| ColorFacts.GrayShadowsPaleGray | src/nlp_processor.py:37-38 | wherever "浅灰色" occurs, the earlier "灰色" occurs |
| ColorFacts.GrayShadowsLightGray | src/nlp_processor.py:52-53 | wherever "light gray" occurs, the earlier "gray" occurs |
| ColorFacts.NameNeverNine | src/nlp_processor.py:28-58 | no name lookup yields 9 |
| ColorFacts.NineOnlyFromInteger | src/nlp_processor.py:117-147 | index 9 comes only from the integer text for 9 |
| Colors.FirstColorName | src/nlp_processor.py:133-135 | a name found gives an index in 1..255 |
| Colors.LetterRunEnd | src/nlp_processor.py:139 | the greedy `[a-zA-Z一-龥]+` run ends inside the text and covers only letters of the class |
| Colors.LastSe | src/nlp_processor.py:139 | backtracking stops at a `色` within the run |
| Colors.ColorWordAt | src/nlp_processor.py:139 | a fallback match at `i` is non-empty and ends inside the text |
| LexicalFacts.NormalizeShape | src/nlp_processor.py:164 | `command.lower().strip()` has no ASCII capital and no white space at either end |
| LexicalFacts.NormalizedIff | src/nlp_processor.py:164 | a text is its own normal form exactly when it has no ASCII capital and no surrounding white space |
| LexicalFacts.NormalizeIdempotent | src/nlp_processor.py:164 | normalising twice equals normalising once |
| Lexical.Lower | src/nlp_processor.py:130 | `lower()` keeps the length and lowers each character in place |
| Lexical.Upper | src/nlp_processor.py:553 | `upper()` keeps the length and raises each character in place |
| Lexical.TrimStart | src/nlp_processor.py:164 | the result is a suffix of the text, preceded only by white space and not starting with it |
| Lexical.TrimEnd | src/nlp_processor.py:164 | the result is a prefix of the text, followed only by white space and not ending with it |
| Lexical.UnsignedAt | src/nlp_processor.py:302 | `\d+\.?\d*` matches at `i` exactly when a digit is there; the literal is non-negative and ends inside the text |
| Lexical.SignedAt | src/nlp_processor.py:302 | `-?\d+\.?\d*` matches at `i` exactly when a digit, or a `-` and a digit, are there |
| Lexical.CoordinateAt | src/nlp_processor.py:288-297 | a coordinate match is non-empty and ends inside the text |
| Lexical.ThirdComponent | src/nlp_processor.py:288 | the optional third group never moves backwards |
| Lexical.ExtractCoordinates | src/nlp_processor.py:285-298 | the loop over the matches returns exactly the coordinates of the whole scan |
| Lexical.ClosingQuoteFrom | src/nlp_processor.py:492 | the lazy `(.*?)` stops at a quote inside the text |
| LexicalFacts.SearchFinds | src/nlp_processor.py:335-345 | `re.search` returns the match at the leftmost position where the pattern matches |
| LexicalFacts.SearchFound | src/nlp_processor.py:335-345 | a successful search stopped at the leftmost matching position |
| LexicalFacts.SearchFails | src/nlp_processor.py:335-345 | a search fails exactly when the pattern fails at every position |
| LexicalFacts.LazyNumberReadsFirstDigit | src/nlp_processor.py:557 | `[^\d]*?` stops at the first digit and the greedy literal is read there |
| LexicalFacts.NumberAfterLabelIff | src/nlp_processor.py:557 | the label alternatives match at `p` exactly when some label starts there and a digit follows later |
| LexicalFacts.LabelledNumberFound | src/nlp_processor.py:557-561 | a labelled search succeeds exactly when some label is followed, anywhere later, by a digit |
| LexicalFacts.LabelledNumberValue | src/nlp_processor.py:557-561 | its value is read at the first digit after the leftmost such label |
| LexicalFacts.ContainsTransitive | src/nlp_processor.py:240-256 | an occurring word brings every word inside it |
| ScanFacts.NumbersReadsInts | src/nlp_processor.py:300-304 | `_extract_numbers` reads back every integer of a space-separated list, in order |
| ScanFacts.CoordinatesReadPoints | src/nlp_processor.py:285-298 | `_extract_coordinates` reads back every written `(x,y)` or `(x,y,z)` point, in order, with 0 for a missing `z` |
| ScanFacts.CoordinatesHaveNumbers | src/nlp_processor.py:285-304 | whenever a coordinate is found, `_extract_numbers` finds a number |
| ScanFacts.SignedReadsInt | src/nlp_processor.py:302 | a written integer not followed by a digit or `.` reads as itself |
| ScanFacts.UnsignedReadsNumeral | src/nlp_processor.py:302 | a decimal numeral reads as its value |
| ScanFacts.UnsignedReadsTenths | src/nlp_processor.py:302 | a numeral with one fractional digit (`12.5`) reads as the numeral plus that many tenths, and the match ends after the fractional digit |
| Notation.DecimalTextValue | src/nlp_processor.py:302-304 | reading the digits of a numeral gives back the number |
| ClassifierFacts.AsWrittenAlwaysRaises | src/nlp_processor.py:209-213 | the classifier as written raises AttributeError on every command |
| ClassifierFacts.DrawVerbRule | src/nlp_processor.py:219-283 | when a drawing verb occurs and some shape word with a drawing intent occurs, the first such word in table order decides, whatever the verb; otherwise the checks after the loops decide |
| ClassifierFacts.ActionScanRule | src/nlp_processor.py:219-256 | the outer loop runs the inner loop exactly when some drawing verb occurs |
| ClassifierFacts.DrawVerbsOfTable | src/nlp_processor.py:90-104 | the drawing verbs of the action table are exactly 画, 绘制, 创建 and 添加 |
| ClassifierFacts.FirstDrawnShapeNone | src/nlp_processor.py:240-256 | the inner loop finds nothing exactly when no shape word with a drawing intent occurs |
| ClassifierFacts.FirstDrawnShapeAt | src/nlp_processor.py:240-256 | the inner loop returns the intent of the first occurring shape word with a drawing intent |
| ClassifierFacts.FirstDrawnShapeFound | src/nlp_processor.py:240-256 | a result of the inner loop comes from that first word |
| ClassifierFacts.ShadowedBy | src/nlp_processor.py:240-256 | a word containing an earlier word with a drawing intent is shadowed by it |
| ClassifierFacts.NoShapeFallsThrough | src/nlp_processor.py:240-283 | with no shape word that has a drawing intent, only the checks after the loops decide |
| ClassifierFacts.SpecialCaseRange | src/nlp_processor.py:259-283 | the checks after the loops yield a layer, an annotation, saving or unknown |
| ClassifierFacts.DrawnTypeInverse | src/nlp_processor.py:242-256 | only arcs become the arc intent and only polylines the polyline intent; no shape becomes a hatch or a wall |
| ClassifierFacts.DrawEntries | src/nlp_processor.py:90-104 | only the first four actions draw |
| ClassifierFacts.PolylineEntries | src/nlp_processor.py:61-87 | only "多段线" and "折线" name polylines |
| ClassifierFacts.ArcEntries | src/nlp_processor.py:61-87 | only "弧" and "圆弧" name arcs |
| ClassifierFacts.LineBeforePolyline | src/nlp_processor.py:61-87 | where a polyline word occurs, the earlier "线" (line) occurs too |
| ClassifierFacts.PolylineShadowed | src/nlp_processor.py:240-256 | the inner loop never yields the polyline intent |
| ClassifierFacts.PolylineWordsDrawLines | src/nlp_processor.py:240-256 | a drawing verb with "多段线" or "折线" classifies as a line |
| ClassifierFacts.NeverReturned | src/nlp_processor.py:209-283 | the classifier never yields "draw_polyline", "draw_hatch" or "draw_wall" |
| ClassifierFacts.ArcWordOccurs | src/nlp_processor.py:61-87 | an occurring arc word brings "弧" and sits after "圆" in the table |
| ClassifierFacts.ArcNeedsNoCircle | src/nlp_processor.py:240-256 | the arc intent needs "弧" and the absence of "圆" |
| ClassifierFacts.ArcWordIsCircle | src/nlp_processor.py:240-256 | a drawing verb with "圆弧" (arc) and no "线" classifies as a circle |
| ClassifierFacts.DrawArcIsCircle | src/nlp_processor.py:240-256 | "画圆弧" (draw an arc) classifies as drawing a circle |
| ProcessorFacts.ParseCommandReturns | src/nlp_processor.py:159-207 | with the corrected classifier no command raises: the missing `_parse_draw_wall` branch is never reached |
| ProcessorFacts.DispatchKinds | src/nlp_processor.py:171-207 | the dispatch returns for every type but "draw_wall", and the kind of descriptor follows the type one to one; an unknown command is echoed |
| ProcessorFacts.DescriptorKinds | src/nlp_processor.py:159-207 | the kind of descriptor follows the command type, and neither a polyline nor a hatch descriptor, nor their errors, is ever produced |
| ProcessorFacts.ParseNormalized | src/nlp_processor.py:164 | a normalised command parses the same as the original |
| ProcessorFacts.ParseCommandAsWrittenRaises | src/nlp_processor.py:159-171 | as written, every command raises AttributeError in the classifier |
| ProcessorFacts.PolylineCommandDrawsLine | src/nlp_processor.py:171-180 | a polyline request under a drawing verb is parsed by the line builder |
| ProcessorFacts.ArcCommandDrawsDefaultCircle | src/nlp_processor.py:171-176 | a drawing verb with "圆弧", no "线" and no digit gives the default circle |
| ProcessorFacts.LayerCommandSaves | src/nlp_processor.py:197-198 | a layer command reaches the save builder, and without a path cue saves to the configured default file |
| ProcessorFacts.SaveCommandBuildsWall | src/nlp_processor.py:193-194 | a "保存" (save) command that is nothing earlier builds a wall or its error |
| BuilderFacts.LineReadsPoints | src/nlp_processor.py:306-326 | a line runs from the first written point to the second; with fewer it takes the default and its note |
| BuilderFacts.CircleReadsPoint | src/nlp_processor.py:328-359 | a circle centres on the first written point, and without a radius cue its radius is that point's `x` |
| BuilderFacts.ArcReadsPoint | src/nlp_processor.py:361-385 | an arc centres on the first written point, and without a radius cue its radius is that point's `x` |
| BuilderFacts.ArcReadsAngles | src/nlp_processor.py:387-400 | the start and end angles written after "起始角度" and "结束角度" are read back |
| BuilderFacts.LabelledReadsInt | src/nlp_processor.py:390-391 | a labelled search reads the integer written right after the leftmost label |
| BuilderFacts.RadiusFromCoordinates | src/nlp_processor.py:335-345 | with a coordinate and no radius cue, the radius is the first number, never the default |
| BuilderFacts.FirstNumberIsX | src/nlp_processor.py:300-304 | the first number of plain text followed by points is the first point's `x` |
| BuilderFacts.RectangleReadsPoints | src/nlp_processor.py:422-462 | a rectangle spans the first two points; from one point it extends by width and height at the same `z`; with none it starts at the origin |
| BuilderFacts.PolylineReadsPoints | src/nlp_processor.py:464-484 | a polyline keeps every written point, in order, and is an error exactly below two points |
| BuilderFacts.HatchReadsPoints | src/nlp_processor.py:538-578 | a hatch keeps every point, in order, with a non-negative scale, and is an error exactly below three points |
| BuilderFacts.WallReadsPoints | src/nlp_processor.py:696-723 | a wall runs between the first two points with a non-negative width, and is an error exactly below two points |
| BuilderFacts.DigitFreeCircleDefaults | src/nlp_processor.py:328-420 | without a digit the circle is at the origin with radius 50 and the arc spans 0 to 90 |
| BuilderFacts.DigitFreeShapeDefaults | src/nlp_processor.py:306-536 | without a digit line, rectangle and text take their defaults |
| BuilderFacts.DigitFreeErrors | src/nlp_processor.py:464-723 | without a digit the polyline, hatch and wall builders report their errors |
| BuilderFacts.DigitFreeNoLabelled | src/nlp_processor.py:557-561 | without a digit no labelled number is found |
| BuilderFacts.DigitFreeNoNumbers | src/nlp_processor.py:300-304 | without a digit `_extract_numbers` finds nothing |
| BuilderFacts.DigitFreeNoCoordinates | src/nlp_processor.py:285-298 | without a digit `_extract_coordinates` finds nothing |
| BuilderFacts.UnsignedLabelledNonNegative | src/nlp_processor.py:557-561 | an unsigned labelled number is never negative |
| BuilderFacts.HatchScaleNonNegative | src/nlp_processor.py:556-561 | the fill scale is never negative |
| BuilderFacts.WallWidthNonNegative | src/nlp_processor.py:700-705 | the wall width is never negative |
| BuilderFacts.ClosingQuoteReads | src/nlp_processor.py:492 | `(.*?)["']` stops at the first quote when no quote or newline precedes it |
| BuilderFacts.QuotedReads | src/nlp_processor.py:486-536 | a quoted text is read back |
| BuilderFacts.TextCueReads | src/nlp_processor.py:492-498 | the text cue is one character of its class and a colon, and reads back the quoted text |
| BuilderFacts.PathCueReads | src/nlp_processor.py:725-740 | a quoted path after "路径" is the file to save, exactly as written: the label is matched without regard to case, the path is captured from the command as given |
| BuilderFacts.DefaultPath | src/nlp_processor.py:733-735 | without a path cue the file is the configured directory joined with the default name |
| BuilderFacts.JoinPathParts | src/nlp_processor.py:735 | `os.path.join` ends with the file name and keeps the directory in front of a relative one |
| Builders.FindPatternName | src/nlp_processor.py:544-554 | the loop over the pattern-name patterns returns the first match upper-cased, else "SOLID" |
| Cad.ValidateLineweight | src/cad_controller.py:218-237 | no weight stays none, a listed weight is kept, any other becomes 0; the result is none or listed |
| CadFacts.ValidateIdempotent | src/cad_controller.py:218-237 | validating a validated weight changes nothing |
| Cad.Lift | src/cad_controller.py:246-250 | a pair is lifted to `z = 0`; a triple is kept |
| Cad.Lifted | src/cad_controller.py:379-384 | every point is lifted, in order |
| Cad.ProcessPoints | src/cad_controller.py:379-384 | the loop of `draw_polyline` builds exactly the lifted points |
| Cad.Flatten | src/cad_controller.py:387-388 | the flat array holds `x`, `y`, `z` of each point in turn |
| CadFacts.UnflattenFlatten | src/cad_controller.py:387-388 | the flat array determines the points |
| CadFacts.FlattenUnflatten | src/cad_controller.py:387-388 | every array of whole points is the flattening of its grouping |
| Cad.RectangleVertices | src/cad_controller.py:434-441 | the outline is (x1,y1), (x2,y1), (x2,y2), (x1,y2), (x1,y1), all at the first corner's height |
| CadFacts.RectangleEdgesAxisAligned | src/cad_controller.py:434-441 | every edge of the outline is axis-aligned |
| CadFacts.RectangleIgnoresSecondHeight | src/cad_controller.py:434-441 | the outline ignores the second corner's height |
| CadFacts.RectangleOutlineCloses | src/cad_controller.py:434-444 | the flattened outline has 15 coordinates and ends where it starts |
| Cad.AppendEntity | src/cad_controller.py:239-418 | adding a well-formed line or polyline keeps the drawing well formed |
| Cad.AppendHatch | src/cad_controller.py:518-531 | adding a hatch bound to a closed polyline already drawn keeps the drawing well formed |
| Cad.CadController.constructor | src/cad_controller.py:26-38 | a new controller has no application, no document and nothing drawn, and is not running |
| Cad.CadController.Start | src/cad_controller.py:40-170 | the handles are replaced by the application and document found; starting succeeds exactly when both are found and the document's name can be read, and then the controller is running; a document whose name cannot be read fails the start but leaves the controller running |
| Cad.CadController.DrawLine | src/cad_controller.py:239-283 | when running, one line is added between the lifted ends with the validated weight; otherwise nothing changes |
| Cad.CadController.DrawPolyline | src/cad_controller.py:372-418 | when running, one polyline of the lifted points is added, closed only when asked and with more than two points; otherwise nothing changes |
| Cad.CadController.DrawRectangle | src/cad_controller.py:420-450 | when running, a closed polyline through the outline is added |
| Cad.CadController.DrawHatch | src/cad_controller.py:494-555 | with fewer than three points or when not running nothing is drawn; otherwise a closed boundary and a hatch bound to it are added |

## Left out

- The CAD application, its COM objects, `win32com` and the document: `start_cad` takes the running or launched application and its document as parameters, and a drawing call records its entity in `drawn` instead of calling `AddLine`, `AddPolyline` or `AddHatch`.
- Layers, colours, `Update` calls and the error handlers around the COM calls in the drawing methods: they concern only the application.
- Logging, and the loading of config.json: `parse_command` takes the `output` section as a parameter.
- `process_command`: it only calls `parse_command` and logs.
- The commented-out parsers (erase, move, rotate, scale, wall, electrical symbols) and the commented-out domain branches: they are not part of the program.
- The drawing methods of the controller other than line, polyline, rectangle and hatch: they are outside this model.
- Floating point: numbers are exact reals, so the rounding of `float()` is not modelled.
- Unicode digits: `\d`, `int()` and `float()` recognise only the ASCII digits 0-9, so a command written with other decimal digits (full-width ones, say) reads no number where Python reads one.
- Unicode case mapping: `lower()` and `upper()` change only ASCII letters, and `\w` covers the CJK ideograph blocks rather than all Unicode letters.
- `os.path.join` is modelled for POSIX paths only.
- Line weights are `Option<int>`, so a weight of another Python type is not modelled.
- The domain loop of `_identify_command_type` only records a domain that nothing reads: the corrected classifier takes its table empty (see the finding).

## Findings

| source | as written | input that shows it | evidently intended | confidence | as-written member | corrected member |
|---|---|---|---|---|---|---|
| src/nlp_processor.py:213 | `_identify_command_type` first loops over `self.domain_keywords`, whose assignment at line 107 is commented out, so every call raises AttributeError and `parse_command` never returns | the command "画线" (or any other) | the domain loop skipped, or the table empty, so the keyword scan decides | not executed | ClassifierFacts.AsWrittenAlwaysRaises | ProcessorFacts.ParseCommandReturns |
