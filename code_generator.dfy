/**
 * The graph-to-source translator (src/utils/codeGenerator.ts). Both target
 * dialects run the same scan: bind every input node to a copy of the program
 * input, then make repeated passes over the node array, emitting each
 * non-input node once every source of its incoming edges has been emitted,
 * and finally write the source of the first edge into the first output node.
 *
 * The generated text is modelled as a sequence of statement records; the
 * Python and C++ templates differ only in spelling, so a program is the
 * statement sequence tagged with its dialect.
 */
module CodeGenerator {

  import opened Wrappers
  import opened JsValues
  import opened Graph

  datatype Dialect = Python | Cpp

  /** An operation with its parameters resolved as the templates print them. */
  datatype Op =
    | ThresholdOp(threshold: JsValue, maxValue: JsValue, thresholdType: JsValue, useOtsu: bool)
    | GaussianBlurOp(kernelSize: JsValue, sigmaX: JsValue, sigmaY: JsValue, borderType: JsValue)
    | ErodeOp(kernelShape: JsValue, kernelSize: JsValue, iterations: JsValue)
    | DilateOp(kernelShape: JsValue, kernelSize: JsValue, iterations: JsValue)
    | CannyOp(threshold1: JsValue, threshold2: JsValue, apertureSize: JsValue, l2gradient: bool)
    | GrayscaleOp
    | BlankOp(color: JsValue, isGrayscale: bool, height: JsValue, width: JsValue)
    | RectangleOp(x: JsValue, y: JsValue, farX: JsValue, farY: JsValue, color: JsValue,
                  thickness: JsValue, lineType: JsValue)
    | CircleOp(x: JsValue, y: JsValue, radius: JsValue, color: JsValue, thickness: JsValue,
               lineType: JsValue)
    | LineOp(x1: JsValue, y1: JsValue, x2: JsValue, y2: JsValue, color: JsValue,
             thickness: JsValue, lineType: JsValue)
    | MultiplyOp(opacity: JsValue)
    | ScreenOp(opacity: JsValue)
    | OverlayOp(opacity: JsValue)
    | BlendOp(ratio: JsValue)
    /** A node whose processType has no template: only its comment line is emitted. */
    | CommentOnly

  datatype Stmt =
    /** `results[id] = img.copy()` */
    | InputBind(id: string)
    /** The comment line and template for one node; `inputs` are the node ids
        whose results the template reads. */
    | Block(id: string, processType: JsValue, inputs: seq<string>, op: Op)
    /** `imwrite(output_path, results[source])` */
    | Write(source: string)

  /** Reading `nodeEdges[index].source` past the end of the incoming edges,
      or (C++ only) calling `.join` on a colour that is not an array: the
      generator throws a TypeError. */
  datatype GenError = MissingEdge(nodeId: string, index: nat) | ColorNotArray(nodeId: string)

  datatype Program = Program(dialect: Dialect, stmts: seq<Stmt>)

  function Color(r: real, g: real, b: real): JsValue {
    Arr([Num(r), Num(g), Num(b)])
  }

  /** `params.filled ? -1 : params.thickness || 2` */
  function Thickness(p: JsValue): JsValue {
    if Truthy(Get(p, "filled")) then Num(-1.0) else Or(Get(p, "thickness"), Num(2.0))
  }

  /** The per-operation templates' parameter expressions, each falling back
      to a fixed default through `||`. */
  function ResolveOp(processType: JsValue, p: JsValue): Op {
    if processType == Str("binary") then
      ThresholdOp(Or(Get(p, "threshold"), Num(128.0)), Or(Get(p, "maxValue"), Num(255.0)),
                  Or(Get(p, "method"), Str("THRESH_BINARY")), Truthy(Get(p, "useOtsu")))
    else if processType == Str("blur") then
      GaussianBlurOp(Or(Get(p, "kernelSize"), Num(5.0)), Or(Get(p, "sigmaX"), Num(0.0)),
                     Or(Get(p, "sigmaY"), Num(0.0)), Or(Get(p, "borderType"), Str("BORDER_DEFAULT")))
    else if processType == Str("erode") then
      ErodeOp(Or(Get(p, "kernelShape"), Str("MORPH_RECT")), Or(Get(p, "kernelSize"), Num(3.0)),
              Or(Get(p, "iterations"), Num(1.0)))
    else if processType == Str("dilate") then
      DilateOp(Or(Get(p, "kernelShape"), Str("MORPH_RECT")), Or(Get(p, "kernelSize"), Num(3.0)),
               Or(Get(p, "iterations"), Num(1.0)))
    else if processType == Str("edge") then
      CannyOp(Or(Get(p, "threshold1"), Num(100.0)), Or(Get(p, "threshold2"), Num(200.0)),
              Or(Get(p, "apertureSize"), Num(3.0)), Truthy(Get(p, "l2gradient")))
    else if processType == Str("grayscale") then
      GrayscaleOp
    else if processType == Str("blank") then
      BlankOp(Or(Get(p, "color"), Color(255.0, 255.0, 255.0)), Truthy(Get(p, "isGrayscale")),
              Or(Get(p, "height"), Num(512.0)), Or(Get(p, "width"), Num(512.0)))
    else if processType == Str("draw-rect") then
      var x := Or(Get(p, "x"), Num(0.0));
      var y := Or(Get(p, "y"), Num(0.0));
      RectangleOp(x, y, Plus(x, Or(Get(p, "width"), Num(100.0))), Plus(y, Or(Get(p, "height"), Num(100.0))),
                  Or(Get(p, "color"), Color(255.0, 0.0, 0.0)), Thickness(p),
                  Or(Get(p, "lineType"), Str("LINE_8")))
    else if processType == Str("draw-circle") then
      CircleOp(Or(Get(p, "x"), Num(50.0)), Or(Get(p, "y"), Num(50.0)), Or(Get(p, "radius"), Num(25.0)),
               Or(Get(p, "color"), Color(0.0, 255.0, 0.0)), Thickness(p),
               Or(Get(p, "lineType"), Str("LINE_8")))
    else if processType == Str("draw-line") then
      LineOp(Or(Get(p, "x1"), Num(0.0)), Or(Get(p, "y1"), Num(0.0)),
             Or(Get(p, "x2"), Num(100.0)), Or(Get(p, "y2"), Num(100.0)),
             Or(Get(p, "color"), Color(0.0, 0.0, 255.0)), Or(Get(p, "thickness"), Num(2.0)),
             Or(Get(p, "lineType"), Str("LINE_8")))
    else if processType == Str("multiply") then
      MultiplyOp(Or(Get(p, "opacity"), Num(1.0)))
    else if processType == Str("screen") then
      ScreenOp(Or(Get(p, "opacity"), Num(1.0)))
    else if processType == Str("overlay") then
      OverlayOp(Or(Get(p, "opacity"), Num(1.0)))
    else if processType == Str("blend") then
      BlendOp(Or(Get(p, "ratio"), Num(0.5)))
    else
      CommentOnly
  }

  /** How many entries of `nodeEdges` a template dereferences. */
  function InputsNeeded(processType: JsValue): nat {
    if processType in [Str("multiply"), Str("screen"), Str("overlay"), Str("blend")] then 2
    else if processType in [Str("binary"), Str("blur"), Str("erode"), Str("dilate"), Str("edge"),
                            Str("grayscale"), Str("draw-rect"), Str("draw-circle"), Str("draw-line")] then 1
    else 0
  }

  /** `nodeParams[node.id]?.[node.data?.processType] || {}` */
  function NodeParamsFor(nodeParams: map<string, JsValue>, n: Node): JsValue {
    Or(OptGet(Lookup(nodeParams, n.id), ToStr(n.data.processType)), EmptyObj())
  }

  /** `params.key || fallback`: the parameter when it is truthy, the
      template's fallback otherwise. */
  predicate FallsBack(v: JsValue, p: JsValue, key: string, fallback: JsValue) {
    (Truthy(Get(p, key)) ==> v == Get(p, key)) && (!Truthy(Get(p, key)) ==> v == fallback)
  }

  /** The processTypes with a template of their own. */
  const TemplateKinds: seq<JsValue> :=
    [Str("binary"), Str("blur"), Str("erode"), Str("dilate"), Str("edge"), Str("grayscale"), Str("blank"),
     Str("draw-rect"), Str("draw-circle"), Str("draw-line"), Str("multiply"), Str("screen"), Str("overlay"),
     Str("blend")]

  /** Any other processType gets only its comment line and reads no input. */
  lemma ResolveOpUnknown(processType: JsValue, p: JsValue)
    requires processType !in TemplateKinds
    ensures ResolveOp(processType, p) == CommentOnly
    ensures InputsNeeded(processType) == 0
  {
  }

  /** The threshold template reads one input; its parameters fall back to
      128, 255 and THRESH_BINARY, and Otsu's flag is the truthiness of
      `useOtsu`. */
  lemma ResolveOpThreshold(p: JsValue)
    ensures var o := ResolveOp(Str("binary"), p);
      && o.ThresholdOp? && InputsNeeded(Str("binary")) == 1
      && FallsBack(o.threshold, p, "threshold", Num(128.0)) && FallsBack(o.maxValue, p, "maxValue", Num(255.0))
      && FallsBack(o.thresholdType, p, "method", Str("THRESH_BINARY")) && (o.useOtsu <==> Truthy(Get(p, "useOtsu")))
  {
  }

  lemma ResolveOpBlur(p: JsValue)
    ensures var o := ResolveOp(Str("blur"), p);
      && o.GaussianBlurOp? && InputsNeeded(Str("blur")) == 1
      && FallsBack(o.kernelSize, p, "kernelSize", Num(5.0))
      && FallsBack(o.sigmaX, p, "sigmaX", Num(0.0)) && FallsBack(o.sigmaY, p, "sigmaY", Num(0.0))
      && FallsBack(o.borderType, p, "borderType", Str("BORDER_DEFAULT"))
  {
  }

  /** Erode and dilate share their parameters and fallbacks. */
  lemma ResolveOpMorph(p: JsValue)
    ensures ResolveOp(Str("erode"), p).ErodeOp? && ResolveOp(Str("dilate"), p).DilateOp?
    ensures InputsNeeded(Str("erode")) == 1 && InputsNeeded(Str("dilate")) == 1
    ensures var o := ResolveOp(Str("erode"), p);
      && FallsBack(o.kernelShape, p, "kernelShape", Str("MORPH_RECT"))
      && FallsBack(o.kernelSize, p, "kernelSize", Num(3.0)) && FallsBack(o.iterations, p, "iterations", Num(1.0))
    ensures var d := ResolveOp(Str("dilate"), p);
      d.kernelShape == ResolveOp(Str("erode"), p).kernelShape && d.kernelSize == ResolveOp(Str("erode"), p).kernelSize
      && d.iterations == ResolveOp(Str("erode"), p).iterations
  {
  }

  lemma ResolveOpCanny(p: JsValue)
    ensures var o := ResolveOp(Str("edge"), p);
      && o.CannyOp? && InputsNeeded(Str("edge")) == 1
      && FallsBack(o.threshold1, p, "threshold1", Num(100.0)) && FallsBack(o.threshold2, p, "threshold2", Num(200.0))
      && FallsBack(o.apertureSize, p, "apertureSize", Num(3.0)) && (o.l2gradient <==> Truthy(Get(p, "l2gradient")))
  {
  }

  /** Grayscale reads one input and has no parameters. */
  lemma ResolveOpGrayscale(p: JsValue)
    ensures ResolveOp(Str("grayscale"), p) == GrayscaleOp && InputsNeeded(Str("grayscale")) == 1
  {
  }

  /** The blank image reads no input. */
  lemma ResolveOpBlank(p: JsValue)
    ensures var o := ResolveOp(Str("blank"), p);
      && o.BlankOp? && InputsNeeded(Str("blank")) == 0
      && FallsBack(o.color, p, "color", Color(255.0, 255.0, 255.0)) && (o.isGrayscale <==> Truthy(Get(p, "isGrayscale")))
      && FallsBack(o.height, p, "height", Num(512.0)) && FallsBack(o.width, p, "width", Num(512.0))
  {
  }

  /** A filled shape is drawn with thickness -1; the far corner of a
      rectangle is its corner plus its size. */
  lemma ResolveOpRectangle(p: JsValue)
    ensures var o := ResolveOp(Str("draw-rect"), p);
      && o.RectangleOp? && InputsNeeded(Str("draw-rect")) == 1
      && FallsBack(o.x, p, "x", Num(0.0)) && FallsBack(o.y, p, "y", Num(0.0))
      && o.farX == Plus(o.x, Or(Get(p, "width"), Num(100.0))) && o.farY == Plus(o.y, Or(Get(p, "height"), Num(100.0)))
      && FallsBack(o.color, p, "color", Color(255.0, 0.0, 0.0)) && FallsBack(o.lineType, p, "lineType", Str("LINE_8"))
      && (Truthy(Get(p, "filled")) ==> o.thickness == Num(-1.0))
      && (!Truthy(Get(p, "filled")) ==> FallsBack(o.thickness, p, "thickness", Num(2.0)))
  {
  }

  lemma ResolveOpCircle(p: JsValue)
    ensures var o := ResolveOp(Str("draw-circle"), p);
      && o.CircleOp? && InputsNeeded(Str("draw-circle")) == 1
      && FallsBack(o.x, p, "x", Num(50.0)) && FallsBack(o.y, p, "y", Num(50.0))
      && FallsBack(o.radius, p, "radius", Num(25.0))
      && FallsBack(o.color, p, "color", Color(0.0, 255.0, 0.0)) && FallsBack(o.lineType, p, "lineType", Str("LINE_8"))
      && (Truthy(Get(p, "filled")) ==> o.thickness == Num(-1.0))
      && (!Truthy(Get(p, "filled")) ==> FallsBack(o.thickness, p, "thickness", Num(2.0)))
  {
  }

  /** A line has no `filled` parameter. */
  lemma ResolveOpLine(p: JsValue)
    ensures var o := ResolveOp(Str("draw-line"), p);
      && o.LineOp? && InputsNeeded(Str("draw-line")) == 1
      && FallsBack(o.x1, p, "x1", Num(0.0)) && FallsBack(o.y1, p, "y1", Num(0.0))
      && FallsBack(o.x2, p, "x2", Num(100.0)) && FallsBack(o.y2, p, "y2", Num(100.0))
      && FallsBack(o.color, p, "color", Color(0.0, 0.0, 255.0)) && FallsBack(o.thickness, p, "thickness", Num(2.0))
      && FallsBack(o.lineType, p, "lineType", Str("LINE_8"))
  {
  }

  /** The three blend modes read two inputs and fall back to opacity 1. */
  lemma ResolveOpModes(p: JsValue)
    ensures var m := ResolveOp(Str("multiply"), p);
      m.MultiplyOp? && FallsBack(m.opacity, p, "opacity", Num(1.0)) && InputsNeeded(Str("multiply")) == 2
    ensures var s := ResolveOp(Str("screen"), p);
      s.ScreenOp? && FallsBack(s.opacity, p, "opacity", Num(1.0)) && InputsNeeded(Str("screen")) == 2
    ensures var o := ResolveOp(Str("overlay"), p);
      o.OverlayOp? && FallsBack(o.opacity, p, "opacity", Num(1.0)) && InputsNeeded(Str("overlay")) == 2
  {
    ResolveOpMultiply(p);
    ResolveOpScreen(p);
    ResolveOpOverlay(p);
  }

  lemma ResolveOpMultiply(p: JsValue)
    ensures var m := ResolveOp(Str("multiply"), p);
      m.MultiplyOp? && FallsBack(m.opacity, p, "opacity", Num(1.0)) && InputsNeeded(Str("multiply")) == 2
  {
  }

  lemma ResolveOpScreen(p: JsValue)
    ensures var s := ResolveOp(Str("screen"), p);
      s.ScreenOp? && FallsBack(s.opacity, p, "opacity", Num(1.0)) && InputsNeeded(Str("screen")) == 2
  {
  }

  lemma ResolveOpOverlay(p: JsValue)
    ensures var o := ResolveOp(Str("overlay"), p);
      o.OverlayOp? && FallsBack(o.opacity, p, "opacity", Num(1.0)) && InputsNeeded(Str("overlay")) == 2
  {
  }

  /** The weighted blend reads two inputs and falls back to ratio 0.5. */
  lemma ResolveOpBlend(p: JsValue)
    ensures var b := ResolveOp(Str("blend"), p);
      b.BlendOp? && FallsBack(b.ratio, p, "ratio", Num(0.5)) && InputsNeeded(Str("blend")) == 2
  {
  }

  /** A node's parameters: the record the store holds for the node and its
      type when that is truthy (an object always is), `{}` otherwise. */
  lemma NodeParamsStored(nodeParams: map<string, JsValue>, n: Node)
    ensures var stored := OptGet(Lookup(nodeParams, n.id), ToStr(n.data.processType));
      && (Truthy(stored) ==> NodeParamsFor(nodeParams, n) == stored)
      && (!Truthy(stored) ==> NodeParamsFor(nodeParams, n) == EmptyObj())
    ensures n.id !in nodeParams ==> NodeParamsFor(nodeParams, n) == EmptyObj()
    ensures n.id in nodeParams && Get(nodeParams[n.id], ToStr(n.data.processType)).Obj? ==>
      NodeParamsFor(nodeParams, n) == Get(nodeParams[n.id], ToStr(n.data.processType))
  {
  }

  function Sources(es: seq<Edge>): (r: seq<string>)
    ensures |r| == |es| && forall k :: 0 <= k < |es| ==> r[k] == es[k].source
  {
    seq(|es|, k requires 0 <= k < |es| => es[k].source)
  }

  /** The block emitted for a ready node. Its inputs are the sources of the
      first one or two edges into the node, in edge-array order, whatever
      their targetHandle; too few edges is the TypeError of the template. */
  function ResolveStmt(n: Node, nodeEdges: seq<Edge>, nodeParams: map<string, JsValue>): (r: Result<Stmt, GenError>)
    ensures r.Failure? <==> |nodeEdges| < InputsNeeded(n.data.processType)
    ensures r.Failure? ==> r.error == MissingEdge(n.id, |nodeEdges|)
    ensures r.Success? ==>
      && r.value.Block? && r.value.id == n.id && r.value.processType == n.data.processType
      && |r.value.inputs| == InputsNeeded(n.data.processType)
      && (forall k :: 0 <= k < |r.value.inputs| ==> r.value.inputs[k] == nodeEdges[k].source)
      && r.value.op == ResolveOp(n.data.processType, NodeParamsFor(nodeParams, n))
  {
    var need := InputsNeeded(n.data.processType);
    if |nodeEdges| < need then Failure(MissingEdge(n.id, |nodeEdges|))
    else Success(Block(n.id, n.data.processType, Sources(nodeEdges[..need]),
                       ResolveOp(n.data.processType, NodeParamsFor(nodeParams, n))))
  }

  /** A one-input template reads the first edge into the node, in
      edge-array order. */
  lemma FirstInputIsFirstEdge(n: Node, edges: seq<Edge>, nodeParams: map<string, JsValue>, i: nat)
    requires InputsNeeded(n.data.processType) == 1
    requires i < |edges| && edges[i].target == n.id
    requires forall k :: 0 <= k < i ==> edges[k].target != n.id
    ensures var r := ResolveStmt(n, Incoming(edges, n.id), nodeParams);
      r.Success? && r.value.inputs == [edges[i].source]
  {
    IncomingNone(edges[..i], n.id);
    IncomingOrder(edges, n.id, i);
  }

  /** A two-input template reads img1 from the first edge into the node and
      img2 from the second, in edge-array order, whatever their handles. */
  lemma TwoInputsInEdgeOrder(n: Node, edges: seq<Edge>, nodeParams: map<string, JsValue>, i: nat, j: nat)
    requires InputsNeeded(n.data.processType) == 2
    requires i < j < |edges| && edges[i].target == n.id && edges[j].target == n.id
    requires forall k :: 0 <= k < j && k != i ==> edges[k].target != n.id
    ensures var r := ResolveStmt(n, Incoming(edges, n.id), nodeParams);
      r.Success? && r.value.inputs == [edges[i].source, edges[j].source]
  {
    IncomingFirstTwo(edges, n.id, i, j);
    TwoInputsAreFirstSources(n, Incoming(edges, n.id), nodeParams);
  }

  lemma TwoInputsAreFirstSources(n: Node, es: seq<Edge>, nodeParams: map<string, JsValue>)
    requires InputsNeeded(n.data.processType) == 2 && |es| >= 2
    ensures var r := ResolveStmt(n, es, nodeParams);
      r.Success? && r.value.inputs == [es[0].source, es[1].source]
  {
    var ins := ResolveStmt(n, es, nodeParams).value.inputs;
    assert |ins| == 2 && ins[0] == es[0].source && ins[1] == es[1].source;
  }

  /** The C++ blank and drawing templates print `(params.color || default).join(', ')`,
      which throws unless the resolved colour is an array; the Python
      templates print the colour with `JSON.stringify` and never throw. */
  predicate CppColorFault(op: Op) {
    (op.BlankOp? || op.RectangleOp? || op.CircleOp? || op.LineOp?) && !op.color.Arr?
  }

  /** The block one dialect's template emits for a ready node. In the C++
      drawing templates the edge access comes before the colour join, and the
      blank template reads no edge. */
  function EmitStmt(d: Dialect, n: Node, nodeEdges: seq<Edge>, nodeParams: map<string, JsValue>): (r: Result<Stmt, GenError>)
    ensures r.Success? <==>
      && |nodeEdges| >= InputsNeeded(n.data.processType)
      && !(d == Cpp && CppColorFault(ResolveOp(n.data.processType, NodeParamsFor(nodeParams, n))))
    ensures r.Success? ==> r == ResolveStmt(n, nodeEdges, nodeParams)
    ensures |nodeEdges| < InputsNeeded(n.data.processType) ==> r == Failure(MissingEdge(n.id, |nodeEdges|))
    ensures r.Failure? && |nodeEdges| >= InputsNeeded(n.data.processType) ==> r == Failure(ColorNotArray(n.id))
  {
    match ResolveStmt(n, nodeEdges, nodeParams)
    case Failure(e) => Failure(e)
    case Success(b) => if d == Cpp && CppColorFault(b.op) then Failure(ColorNotArray(n.id)) else Success(b)
  }

  // ---------------------------------------------------------------------
  // What the scan produces

  /** The input pass: one binding per input node, in node-array order. */
  function InputBinds(nodes: seq<Node>): (r: seq<Stmt>)
    ensures forall k :: 0 <= k < |r| ==> r[k].InputBind? && r[k].id in InputIds(nodes)
  {
    if nodes == [] then []
    else
      var last := nodes[|nodes| - 1];
      InputBinds(nodes[..|nodes| - 1]) + (if IsInput(last) then [InputBind(last.id)] else [])
  }

  function BlockIds(blocks: seq<Stmt>): set<string> {
    set k | 0 <= k < |blocks| && !blocks[k].Write? :: blocks[k].id
  }

  /** `nodeEdges.every(edge => processedNodes.has(edge.source))` */
  predicate AllSourcesIn(nodeEdges: seq<Edge>, done: set<string>) {
    forall e :: e in nodeEdges ==> e.source in done
  }

  /** The first output node of the node array. */
  function FirstOutput(nodes: seq<Node>): (r: Option<nat>)
    ensures r.Some? ==> r.value < |nodes| && IsOutput(nodes[r.value])
    ensures r.Some? ==> forall k :: 0 <= k < r.value ==> !IsOutput(nodes[k])
    ensures r.None? ==> forall k :: 0 <= k < |nodes| ==> !IsOutput(nodes[k])
  {
    if nodes == [] then None
    else if IsOutput(nodes[0]) then Some(0)
    else match FirstOutput(nodes[1..])
      case None => None
      case Some(k) => Some(k + 1)
  }

  /** The first edge targeting `id`. */
  function FirstEdgeInto(edges: seq<Edge>, id: string): (r: Option<nat>)
    ensures r.Some? ==> r.value < |edges| && edges[r.value].target == id
    ensures r.Some? ==> forall k :: 0 <= k < r.value ==> edges[k].target != id
    ensures r.None? ==> forall k :: 0 <= k < |edges| ==> edges[k].target != id
  {
    if edges == [] then None
    else if edges[0].target == id then Some(0)
    else match FirstEdgeInto(edges[1..], id)
      case None => None
      case Some(k) => Some(k + 1)
  }

  /** The closing write: present exactly when an output node exists and some
      edge targets the first one; it names that edge's source whether or not
      the source was emitted. */
  function WriteFor(nodes: seq<Node>, edges: seq<Edge>): (w: seq<Stmt>)
    ensures |w| <= 1
    ensures |w| == 1 <==>
      exists i, j :: 0 <= i < |nodes| && 0 <= j < |edges| && IsOutput(nodes[i])
                     && (forall k :: 0 <= k < i ==> !IsOutput(nodes[k])) && edges[j].target == nodes[i].id
    ensures |w| == 1 ==>
      (exists i, j :: && 0 <= i < |nodes| && 0 <= j < |edges| && IsOutput(nodes[i])
                      && (forall k :: 0 <= k < i ==> !IsOutput(nodes[k])) && edges[j].target == nodes[i].id
                      && (forall k :: 0 <= k < j ==> edges[k].target != nodes[i].id)
                      && w == [Write(edges[j].source)])
  {
    match FirstOutput(nodes)
    case None => []
    case Some(i) =>
      match FirstEdgeInto(edges, nodes[i].id)
      case None => []
      case Some(j) => [Write(edges[j].source)]
  }

  /** Block k is the resolved block of a non-input node, and every source of
      that node's incoming edges is bound before it (by an input binding or an
      earlier block). */
  ghost predicate BlockAt(nodes: seq<Node>, edges: seq<Edge>, nodeParams: map<string, JsValue>,
                          blocks: seq<Stmt>, k: nat)
    requires k < |blocks|
  {
    && blocks[k].Block?
    && blocks[k].id !in InputIds(nodes)
    && (exists j :: 0 <= j < |nodes| && !IsInput(nodes[j]) && nodes[j].id == blocks[k].id
                    && ResolveStmt(nodes[j], Incoming(edges, nodes[j].id), nodeParams) == Success(blocks[k]))
    && AllSourcesIn(Incoming(edges, blocks[k].id), InputIds(nodes) + BlockIds(blocks[..k]))
  }

  /** The node blocks are well-formed, topologically ordered, and no node id
      gets two blocks. */
  ghost predicate BlocksValid(nodes: seq<Node>, edges: seq<Edge>, nodeParams: map<string, JsValue>,
                              blocks: seq<Stmt>)
  {
    && (forall k :: 0 <= k < |blocks| ==> BlockAt(nodes, edges, nodeParams, blocks, k))
    && (forall k, l :: 0 <= k < l < |blocks| && blocks[k].Block? && blocks[l].Block? ==>
                       blocks[k].id != blocks[l].id)
  }

  /** A node the readiness loop passes over given the ids bound so far. */
  predicate Skipped(n: Node, edges: seq<Edge>, done: set<string>) {
    n.id in done || IsInput(n) || !AllSourcesIn(Incoming(edges, n.id), done)
  }

  /** No node is left that the loop could still emit. */
  predicate Closed(nodes: seq<Node>, edges: seq<Edge>, done: set<string>) {
    forall j :: 0 <= j < |nodes| ==> Skipped(nodes[j], edges, done)
  }

  /** The generated statements: the input bindings, then valid node blocks
      after which no further node is ready, then the optional write. */
  ghost predicate Emitted(nodes: seq<Node>, edges: seq<Edge>, nodeParams: map<string, JsValue>, s: seq<Stmt>)
  {
    var ib := InputBinds(nodes);
    var w := WriteFor(nodes, edges);
    && |ib| + |w| <= |s|
    && s[..|ib|] == ib
    && s[|s| - |w|..] == w
    && BlocksValid(nodes, edges, nodeParams, s[|ib|..|s| - |w|])
    && Closed(nodes, edges, InputIds(nodes) + BlockIds(s[|ib|..|s| - |w|]))
  }

  /** Generation threw at a node the scan reached: after a valid prefix of
      blocks the node is unbound and ready, and its template throws. */
  ghost predicate FailsAt(d: Dialect, nodes: seq<Node>, edges: seq<Edge>, nodeParams: map<string, JsValue>,
                          err: GenError)
  {
    exists blocks: seq<Stmt>, j: nat ::
      && BlocksValid(nodes, edges, nodeParams, blocks)
      && j < |nodes| && !IsInput(nodes[j])
      && nodes[j].id !in InputIds(nodes) + BlockIds(blocks)
      && AllSourcesIn(Incoming(edges, nodes[j].id), InputIds(nodes) + BlockIds(blocks))
      && EmitStmt(d, nodes[j], Incoming(edges, nodes[j].id), nodeParams) == Failure(err)
  }

  // ---------------------------------------------------------------------
  // The scan

  lemma BlockAtExtend(nodes: seq<Node>, edges: seq<Edge>, nodeParams: map<string, JsValue>,
                      blocks: seq<Stmt>, b: Stmt, k: nat)
    requires k < |blocks| && BlockAt(nodes, edges, nodeParams, blocks, k)
    ensures BlockAt(nodes, edges, nodeParams, blocks + [b], k)
  {
    assert (blocks + [b])[..k] == blocks[..k];
    assert (blocks + [b])[k] == blocks[k];
  }

  lemma BlockIdsExtend(blocks: seq<Stmt>, b: Stmt)
    requires b.Block?
    ensures BlockIds(blocks + [b]) == BlockIds(blocks) + {b.id}
  {
    var s := blocks + [b];
    forall x | x in BlockIds(s) ensures x in BlockIds(blocks) + {b.id} {
      var k :| 0 <= k < |s| && !s[k].Write? && s[k].id == x;
      if k < |blocks| {
        assert s[k] == blocks[k];
      }
    }
    forall x | x in BlockIds(blocks) ensures x in BlockIds(s) {
      var k :| 0 <= k < |blocks| && !blocks[k].Write? && blocks[k].id == x;
      assert s[k] == blocks[k];
    }
    assert s[|blocks|] == b;
  }

  lemma InputPassStep(nodes: seq<Node>, i: nat)
    requires i < |nodes|
    ensures InputBinds(nodes[..i + 1]) ==
            InputBinds(nodes[..i]) + (if IsInput(nodes[i]) then [InputBind(nodes[i].id)] else [])
    ensures InputIds(nodes[..i + 1]) ==
            InputIds(nodes[..i]) + (if IsInput(nodes[i]) then {nodes[i].id} else {})
  {
    var p := nodes[..i + 1];
    assert p[..|p| - 1] == nodes[..i];
    assert p[|p| - 1] == nodes[i];
    InputIdsStep(nodes, i);
  }

  lemma RemoveOneShrinks(ids: set<string>, done: set<string>, x: string)
    requires x in ids && x !in done
    ensures |ids - (done + {x})| < |ids - done|
  {
    assert ids - (done + {x}) == (ids - done) - {x};
  }

  /** Emitting the block of a ready, unprocessed, non-input node keeps the
      blocks valid and adds exactly that node's id. */
  lemma AppendBlock(nodes: seq<Node>, edges: seq<Edge>, nodeParams: map<string, JsValue>,
                    blocks: seq<Stmt>, j: nat)
    requires j < |nodes| && !IsInput(nodes[j])
    requires BlocksValid(nodes, edges, nodeParams, blocks)
    requires nodes[j].id !in InputIds(nodes) + BlockIds(blocks)
    requires AllSourcesIn(Incoming(edges, nodes[j].id), InputIds(nodes) + BlockIds(blocks))
    requires ResolveStmt(nodes[j], Incoming(edges, nodes[j].id), nodeParams).Success?
    ensures var b := ResolveStmt(nodes[j], Incoming(edges, nodes[j].id), nodeParams).value;
      && BlocksValid(nodes, edges, nodeParams, blocks + [b])
      && BlockIds(blocks + [b]) == BlockIds(blocks) + {nodes[j].id}
  {
    var b := ResolveStmt(nodes[j], Incoming(edges, nodes[j].id), nodeParams).value;
    var s := blocks + [b];
    assert s[..|blocks|] == blocks;
    assert BlockAt(nodes, edges, nodeParams, s, |blocks|);
    forall k | 0 <= k < |blocks|
      ensures BlockAt(nodes, edges, nodeParams, s, k)
    {
      BlockAtExtend(nodes, edges, nodeParams, blocks, b, k);
    }
    forall k, l | 0 <= k < l < |s| && s[k].Block? && s[l].Block?
      ensures s[k].id != s[l].id
    {
      if l == |blocks| {
        assert s[k] == blocks[k];
        assert blocks[k].id in BlockIds(blocks);
      }
    }
    BlockIdsExtend(blocks, b);
  }

  lemma FinishEmitted(nodes: seq<Node>, edges: seq<Edge>, nodeParams: map<string, JsValue>, blocks: seq<Stmt>)
    requires BlocksValid(nodes, edges, nodeParams, blocks)
    requires Closed(nodes, edges, InputIds(nodes) + BlockIds(blocks))
    ensures Emitted(nodes, edges, nodeParams, InputBinds(nodes) + blocks + WriteFor(nodes, edges))
  {
    var ib := InputBinds(nodes);
    var w := WriteFor(nodes, edges);
    var code := ib + blocks + w;
    assert code[..|ib|] == ib;
    assert code[|code| - |w|..] == w;
    assert code[|ib|..|code| - |w|] == blocks;
  }

  // ---------------------------------------------------------------------
  // The scan as functions of the graph

  /** A node's template: its block, or the throw, given its incoming edges. */
  type Emitter<T> = (Node, seq<Edge>) -> Result<T, GenError>

  /** A node's template in the generators: its statement block. */
  type Template = Emitter<Stmt>

  /** One dialect's templates over the editor's parameter records.
      A node's template result depends on the node, its incoming edges and
      its parameters, never on which ids the scan has bound, so the scan is
      a function of the template. */
  function Templates(d: Dialect, nodeParams: map<string, JsValue>): Template {
    (n: Node, nodeEdges: seq<Edge>) => EmitStmt(d, n, nodeEdges, nodeParams)
  }

  /** Prepends blocks to the result of a pass. */
  function PassPrefix<T>(pre: seq<T>, r: Result<(seq<T>, set<string>), GenError>)
    : Result<(seq<T>, set<string>), GenError>
  {
    match r
    case Failure(e) => Failure(e)
    case Success(p) => Success((pre + p.0, p.1))
  }

  /** One pass of the readiness loop from node i on, in node-array order: the
      blocks it emits and the ids bound after it, or the first throw. An id
      bound earlier in the pass makes later nodes of the same pass ready. */
  function PassFrom<T>(nodes: seq<Node>, edges: seq<Edge>, emit: Emitter<T>, i: nat,
                    done: set<string>): (r: Result<(seq<T>, set<string>), GenError>)
    requires i <= |nodes|
    ensures r.Success? ==> done <= r.value.1 <= done + NodeIds(nodes)
    ensures r.Success? ==> (r.value.0 == [] <==> r.value.1 == done)
    decreases |nodes| - i
  {
    if i == |nodes| then Success(([], done))
    else if Skipped(nodes[i], edges, done) then PassFrom(nodes, edges, emit, i + 1, done)
    else
      match emit(nodes[i], Incoming(edges, nodes[i].id))
      case Failure(e) => Failure(e)
      case Success(b) =>
        assert nodes[i].id in NodeIds(nodes);
        PassPrefix([b], PassFrom(nodes, edges, emit, i + 1, done + {nodes[i].id}))
  }

  lemma SupersetShrinks(ids: set<string>, done: set<string>, more: set<string>)
    requires done <= more <= ids && more != done
    ensures |ids - more| < |ids - done|
  {
    var x :| x in more && x !in done;
    RemoveOneShrinks(ids, done, x);
    var a, b := ids - more, ids - (done + {x});
    assert b == a + (b - a);
  }

  /** Prepends blocks to the result of the remaining passes. */
  function LoopPrefix<T>(pre: seq<T>, r: Result<seq<T>, GenError>): Result<seq<T>, GenError> {
    match r
    case Failure(e) => Failure(e)
    case Success(s) => Success(pre + s)
  }

  /** The readiness loop: passes repeat until one emits nothing. */
  function Passes<T>(nodes: seq<Node>, edges: seq<Edge>, emit: Emitter<T>, done: set<string>)
    : Result<seq<T>, GenError>
    requires done <= NodeIds(nodes)
    decreases |NodeIds(nodes) - done|
  {
    match PassFrom(nodes, edges, emit, 0, done)
    case Failure(e) => Failure(e)
    case Success(p) =>
      if p.0 == [] then Success([])
      else
        SupersetShrinks(NodeIds(nodes), done, p.1);
        LoopPrefix(p.0, Passes(nodes, edges, emit, p.1))
  }

  lemma InputIdsAreNodeIds(nodes: seq<Node>)
    ensures InputIds(nodes) <= NodeIds(nodes)
  {
  }

  /** What a generator produces: the input bindings, the blocks of every pass
      of the readiness loop, and the closing write; or the first throw. */
  function Generated(d: Dialect, nodes: seq<Node>, edges: seq<Edge>, nodeParams: map<string, JsValue>)
    : Result<seq<Stmt>, GenError>
  {
    InputIdsAreNodeIds(nodes);
    match Passes(nodes, edges, Templates(d, nodeParams), InputIds(nodes))
    case Failure(e) => Failure(e)
    case Success(blocks) => Success(InputBinds(nodes) + blocks + WriteFor(nodes, edges))
  }

  /** One unfolding of the readiness loop: a throwing pass ends it, an empty
      pass ends it with nothing more, any other pass is followed by the rest. */
  lemma PassesStep<T>(nodes: seq<Node>, edges: seq<Edge>, emit: Emitter<T>, done: set<string>)
    requires done <= NodeIds(nodes)
    ensures var r := PassFrom(nodes, edges, emit, 0, done);
      && (r.Failure? ==> Passes(nodes, edges, emit, done) == Failure(r.error))
      && (r.Success? && r.value.0 == [] ==> Passes(nodes, edges, emit, done) == Success([]))
      && (r.Success? && r.value.0 != [] ==>
            && r.value.1 <= NodeIds(nodes)
            && |NodeIds(nodes) - r.value.1| < |NodeIds(nodes) - done|
            && Passes(nodes, edges, emit, done) == LoopPrefix(r.value.0, Passes(nodes, edges, emit, r.value.1)))
  {
    var r := PassFrom(nodes, edges, emit, 0, done);
    if r.Success? && r.value.0 != [] {
      SupersetShrinks(NodeIds(nodes), done, r.value.1);
    }
  }

  // ---------------------------------------------------------------------
  // What the scan's result satisfies

  /** Nodes i and later are all passed over. */
  predicate SkippedFrom(nodes: seq<Node>, edges: seq<Edge>, done: set<string>, i: nat) {
    forall j :: i <= j < |nodes| ==> Skipped(nodes[j], edges, done)
  }

  /** A pass result after valid blocks: it extends them validly (and, when it
      emits nothing, found every node from i on skipped), or it throws at a
      node the scan reached. */
  ghost predicate PassResultValid(d: Dialect, nodes: seq<Node>, edges: seq<Edge>, nodeParams: map<string, JsValue>,
                                  i: nat, blocks: seq<Stmt>, r: Result<(seq<Stmt>, set<string>), GenError>)
  {
    && (r.Success? ==>
          && BlocksValid(nodes, edges, nodeParams, blocks + r.value.0)
          && r.value.1 == InputIds(nodes) + BlockIds(blocks + r.value.0)
          && (r.value.0 == [] ==> SkippedFrom(nodes, edges, InputIds(nodes) + BlockIds(blocks), i)))
    && (r.Failure? ==> FailsAt(d, nodes, edges, nodeParams, r.error))
  }

  lemma FailsAtWitness(d: Dialect, nodes: seq<Node>, edges: seq<Edge>, nodeParams: map<string, JsValue>,
                       blocks: seq<Stmt>, j: nat, err: GenError)
    requires BlocksValid(nodes, edges, nodeParams, blocks)
    requires j < |nodes| && !IsInput(nodes[j])
    requires nodes[j].id !in InputIds(nodes) + BlockIds(blocks)
    requires AllSourcesIn(Incoming(edges, nodes[j].id), InputIds(nodes) + BlockIds(blocks))
    requires EmitStmt(d, nodes[j], Incoming(edges, nodes[j].id), nodeParams) == Failure(err)
    ensures FailsAt(d, nodes, edges, nodeParams, err)
  {
  }

  /** A pass started after valid blocks extends them validly, or throws at a
      node it reached. */
  lemma {:induction false} PassFromValid(d: Dialect, nodes: seq<Node>, edges: seq<Edge>,
                                         nodeParams: map<string, JsValue>, emit: Template,
                                         i: nat, blocks: seq<Stmt>)
    requires i <= |nodes| && emit == Templates(d, nodeParams)
    requires BlocksValid(nodes, edges, nodeParams, blocks)
    ensures PassResultValid(d, nodes, edges, nodeParams, i, blocks,
                            PassFrom(nodes, edges, emit, i, InputIds(nodes) + BlockIds(blocks)))
    decreases |nodes| - i, 1
  {
    var done := InputIds(nodes) + BlockIds(blocks);
    if i == |nodes| {
      assert blocks + [] == blocks;
    } else if Skipped(nodes[i], edges, done) {
      PassFromValid(d, nodes, edges, nodeParams, emit, i + 1, blocks);
    } else {
      EmitValid(d, nodes, edges, nodeParams, emit, i, blocks);
    }
  }

  /** The step of PassFromValid at a node that is not skipped. */
  lemma {:induction false} EmitValid(d: Dialect, nodes: seq<Node>, edges: seq<Edge>,
                                     nodeParams: map<string, JsValue>, emit: Template,
                                     i: nat, blocks: seq<Stmt>)
    requires i < |nodes| && emit == Templates(d, nodeParams)
    requires BlocksValid(nodes, edges, nodeParams, blocks)
    requires !Skipped(nodes[i], edges, InputIds(nodes) + BlockIds(blocks))
    ensures PassResultValid(d, nodes, edges, nodeParams, i, blocks,
                            PassFrom(nodes, edges, emit, i, InputIds(nodes) + BlockIds(blocks)))
    decreases |nodes| - i, 0
  {
    var done := InputIds(nodes) + BlockIds(blocks);
    var n := nodes[i];
    var stmt := EmitStmt(d, n, Incoming(edges, n.id), nodeParams);
    assert emit(n, Incoming(edges, n.id)) == stmt;
    if stmt.Failure? {
      FailsAtWitness(d, nodes, edges, nodeParams, blocks, i, stmt.error);
    } else {
      AppendBlock(nodes, edges, nodeParams, blocks, i);
      var next := blocks + [stmt.value];
      assert InputIds(nodes) + BlockIds(next) == done + {n.id};
      PassFromValid(d, nodes, edges, nodeParams, emit, i + 1, next);
      EmitAppend(d, nodes, edges, nodeParams, i, blocks, stmt.value,
                 PassFrom(nodes, edges, emit, i + 1, done + {n.id}));
    }
  }

  lemma EmitAppend(d: Dialect, nodes: seq<Node>, edges: seq<Edge>, nodeParams: map<string, JsValue>,
                   i: nat, blocks: seq<Stmt>, b: Stmt, rest: Result<(seq<Stmt>, set<string>), GenError>)
    requires i < |nodes|
    requires PassResultValid(d, nodes, edges, nodeParams, i + 1, blocks + [b], rest)
    ensures PassResultValid(d, nodes, edges, nodeParams, i, blocks, PassPrefix([b], rest))
  {
    if rest.Success? {
      assert blocks + ([b] + rest.value.0) == (blocks + [b]) + rest.value.0;
    }
  }

  /** The result of the remaining passes after valid blocks: valid blocks that
      leave no node ready, or a throw at a node the scan reached. */
  ghost predicate LoopResultValid(d: Dialect, nodes: seq<Node>, edges: seq<Edge>, nodeParams: map<string, JsValue>,
                                  blocks: seq<Stmt>, r: Result<seq<Stmt>, GenError>)
  {
    && (r.Success? ==>
          && BlocksValid(nodes, edges, nodeParams, blocks + r.value)
          && Closed(nodes, edges, InputIds(nodes) + BlockIds(blocks + r.value)))
    && (r.Failure? ==> FailsAt(d, nodes, edges, nodeParams, r.error))
  }

  lemma LoopResultAppend(d: Dialect, nodes: seq<Node>, edges: seq<Edge>, nodeParams: map<string, JsValue>,
                         blocks: seq<Stmt>, pre: seq<Stmt>, r: Result<seq<Stmt>, GenError>)
    requires LoopResultValid(d, nodes, edges, nodeParams, blocks + pre, r)
    ensures LoopResultValid(d, nodes, edges, nodeParams, blocks, LoopPrefix(pre, r))
  {
    if r.Success? {
      assert blocks + (pre + r.value) == (blocks + pre) + r.value;
    }
  }

  /** The passes after valid blocks end with valid blocks that leave no node
      ready, or throw at a node they reached. */
  lemma {:induction false} PassesValid(d: Dialect, nodes: seq<Node>, edges: seq<Edge>,
                                       nodeParams: map<string, JsValue>, emit: Template,
                                       blocks: seq<Stmt>)
    requires emit == Templates(d, nodeParams)
    requires BlocksValid(nodes, edges, nodeParams, blocks)
    requires InputIds(nodes) + BlockIds(blocks) <= NodeIds(nodes)
    ensures LoopResultValid(d, nodes, edges, nodeParams, blocks,
                            Passes(nodes, edges, emit, InputIds(nodes) + BlockIds(blocks)))
    decreases |NodeIds(nodes) - (InputIds(nodes) + BlockIds(blocks))|
  {
    var done := InputIds(nodes) + BlockIds(blocks);
    PassFromValid(d, nodes, edges, nodeParams, emit, 0, blocks);
    PassesStep(nodes, edges, emit, done);
    var r := PassFrom(nodes, edges, emit, 0, done);
    if r.Success? {
      var p := r.value;
      if p.0 == [] {
        assert blocks + [] == blocks;
        assert SkippedFrom(nodes, edges, done, 0);
      } else {
        PassesValid(d, nodes, edges, nodeParams, emit, blocks + p.0);
        LoopResultAppend(d, nodes, edges, nodeParams, blocks, p.0, Passes(nodes, edges, emit, p.1));
      }
    }
  }

  /** A generated program binds the inputs, emits valid blocks until no node
      is ready and then writes; a throw happens at a node the scan reached,
      unbound and with every source bound. */
  lemma GeneratedValid(d: Dialect, nodes: seq<Node>, edges: seq<Edge>, nodeParams: map<string, JsValue>)
    ensures var r := Generated(d, nodes, edges, nodeParams);
      && (r.Success? ==> Emitted(nodes, edges, nodeParams, r.value))
      && (r.Failure? ==> FailsAt(d, nodes, edges, nodeParams, r.error))
  {
    InputIdsAreNodeIds(nodes);
    var emit := Templates(d, nodeParams);
    var none: seq<Stmt> := [];
    assert BlockIds(none) == {};
    assert InputIds(nodes) + BlockIds(none) == InputIds(nodes);
    PassesValid(d, nodes, edges, nodeParams, emit, none);
    var r := Passes(nodes, edges, emit, InputIds(nodes));
    assert LoopResultValid(d, nodes, edges, nodeParams, none, r);
    if r.Success? {
      assert none + r.value == r.value;
      FinishEmitted(nodes, edges, nodeParams, r.value);
    }
  }

  // ---------------------------------------------------------------------
  // The scan

  lemma PassPrefixNil<T>(r: Result<(seq<T>, set<string>), GenError>)
    ensures PassPrefix([], r) == r
  {
    if r.Success? {
      assert [] + r.value.0 == r.value.0;
    }
  }

  lemma PassPrefixTwice<T>(a: seq<T>, b: seq<T>, r: Result<(seq<T>, set<string>), GenError>)
    ensures PassPrefix(a, PassPrefix(b, r)) == PassPrefix(a + b, r)
  {
    if r.Success? {
      assert a + (b + r.value.0) == (a + b) + r.value.0;
    }
  }

  lemma LoopPrefixTwice<T>(a: seq<T>, b: seq<T>, r: Result<seq<T>, GenError>)
    ensures LoopPrefix(a, LoopPrefix(b, r)) == LoopPrefix(a + b, r)
  {
    if r.Success? {
      assert a + (b + r.value) == (a + b) + r.value;
    }
  }

  /** The loop body for one node: emit its block if it is a ready,
      unprocessed, non-input node. */
  method Visit<T>(nodes: seq<Node>, edges: seq<Edge>, emit: Emitter<T>, i: nat, code0: seq<T>,
               processed0: set<string>)
    returns (err: Option<GenError>, code: seq<T>, processed: set<string>, emitted: bool,
             ghost added: seq<T>)
    requires i < |nodes|
    ensures err.Some? ==> PassFrom(nodes, edges, emit, i, processed0) == Failure(err.value)
    ensures err.None? ==>
      && code == code0 + added
      && PassFrom(nodes, edges, emit, i, processed0) == PassPrefix(added, PassFrom(nodes, edges, emit, i + 1, processed))
      && (emitted <==> added != [])
  {
    code, processed, emitted, added, err := code0, processed0, false, [], None;
    var node := nodes[i];
    if !(node.id in processed || IsInput(node)) {
      var nodeEdges := Incoming(edges, node.id);
      if AllSourcesIn(nodeEdges, processed) {
        emitted := true;
        var stmt := emit(node, nodeEdges);
        if stmt.Failure? {
          return Some(stmt.error), code, processed, emitted, added;
        }
        code := code + [stmt.value];
        added := [stmt.value];
        processed := processed + {node.id};
        return;
      }
    }
    PassPrefixNil(PassFrom(nodes, edges, emit, i + 1, processed));
  }

  /** One pass of the readiness loop over the node array. */
  method Pass<T>(nodes: seq<Node>, edges: seq<Edge>, emit: Emitter<T>, code0: seq<T>, processed0: set<string>)
    returns (err: Option<GenError>, code: seq<T>, processed: set<string>, remaining: bool,
             ghost added: seq<T>)
    ensures err.Some? ==> PassFrom(nodes, edges, emit, 0, processed0) == Failure(err.value)
    ensures err.None? ==>
      && code == code0 + added
      && PassFrom(nodes, edges, emit, 0, processed0) == Success((added, processed))
      && (remaining <==> added != [])
  {
    code, processed, remaining, added := code0, processed0, false, [];
    PassPrefixNil(PassFrom(nodes, edges, emit, 0, processed0));
    for i := 0 to |nodes|
      invariant code == code0 + added
      invariant PassFrom(nodes, edges, emit, 0, processed0) == PassPrefix(added, PassFrom(nodes, edges, emit, i, processed))
      invariant remaining <==> added != []
    {
      var emitted;
      ghost var step;
      err, code, processed, emitted, step := Visit(nodes, edges, emit, i, code, processed);
      if err.Some? {
        return;
      }
      PassPrefixTwice(added, step, PassFrom(nodes, edges, emit, i + 1, processed));
      AppendAssoc(code0, added, step);
      added := added + step;
      remaining := remaining || emitted;
    }
    assert added + [] == added;
    err := None;
  }

  /** The input pass: bind every input node, in node-array order. */
  method BindInputs(nodes: seq<Node>) returns (code: seq<Stmt>, processed: set<string>)
    ensures code == InputBinds(nodes) && processed == InputIds(nodes)
  {
    code, processed := [], {};
    for i := 0 to |nodes|
      invariant code == InputBinds(nodes[..i])
      invariant processed == InputIds(nodes[..i])
    {
      InputPassStep(nodes, i);
      if IsInput(nodes[i]) {
        code := code + [InputBind(nodes[i].id)];
        processed := processed + {nodes[i].id};
      }
    }
    assert nodes[..|nodes|] == nodes;
  }

  /** The readiness loop's state after some passes: the bound ids are node
      ids, and the blocks emitted so far prefix the whole loop's result, which
      they are once the last pass emitted nothing. */
  ghost predicate LoopState<T>(nodes: seq<Node>, edges: seq<Edge>, emit: Emitter<T>, all: Result<seq<T>, GenError>,
                            blocks: seq<T>, processed: set<string>, remaining: bool)
  {
    && processed <= NodeIds(nodes)
    && (remaining ==> all == LoopPrefix(blocks, Passes(nodes, edges, emit, processed)))
    && (!remaining ==> all == Success(blocks))
  }

  lemma LoopThrows<T>(nodes: seq<Node>, edges: seq<Edge>, emit: Emitter<T>,
                   all: Result<seq<T>, GenError>, blocks: seq<T>, before: set<string>, e: GenError)
    requires LoopState(nodes, edges, emit, all, blocks, before, true)
    requires PassFrom(nodes, edges, emit, 0, before) == Failure(e)
    ensures all == Failure(e)
  {
    PassesStep(nodes, edges, emit, before);
  }

  lemma LoopStep<T>(nodes: seq<Node>, edges: seq<Edge>, emit: Emitter<T>,
                 all: Result<seq<T>, GenError>, blocks: seq<T>, before: set<string>,
                 added: seq<T>, after: set<string>)
    requires LoopState(nodes, edges, emit, all, blocks, before, true)
    requires PassFrom(nodes, edges, emit, 0, before) == Success((added, after))
    ensures LoopState(nodes, edges, emit, all, blocks + added, after, added != [])
    ensures added != [] ==> |NodeIds(nodes) - after| < |NodeIds(nodes) - before|
  {
    PassesStep(nodes, edges, emit, before);
    if added != [] {
      LoopPrefixTwice(blocks, added, Passes(nodes, edges, emit, after));
    } else {
      assert blocks + [] == blocks;
    }
  }

  lemma LoopStart<T>(nodes: seq<Node>, edges: seq<Edge>, emit: Emitter<T>, processed: set<string>)
    requires processed <= NodeIds(nodes)
    ensures LoopState(nodes, edges, emit, Passes(nodes, edges, emit, processed), [], processed, true)
  {
    var all := Passes(nodes, edges, emit, processed);
    if all.Success? {
      assert [] + all.value == all.value;
    }
  }

  /** One round of the readiness loop: a pass, then the new loop state. */
  method Round<T>(nodes: seq<Node>, edges: seq<Edge>, emit: Emitter<T>, ghost all: Result<seq<T>, GenError>,
                  ghost base: seq<T>, code0: seq<T>, ghost blocks0: seq<T>, processed0: set<string>)
    returns (err: Option<GenError>, code: seq<T>, processed: set<string>, remaining: bool, ghost blocks: seq<T>)
    requires LoopState(nodes, edges, emit, all, blocks0, processed0, true)
    requires code0 == base + blocks0
    ensures err.Some? ==> all == Failure(err.value)
    ensures err.None? ==> && LoopState(nodes, edges, emit, all, blocks, processed, remaining)
                          && code == base + blocks
                          && (remaining ==> |NodeIds(nodes) - processed| < |NodeIds(nodes) - processed0|)
                          && (!remaining ==> processed == processed0)
  {
    ghost var added;
    err, code, processed, remaining, added := Pass(nodes, edges, emit, code0, processed0);
    blocks := blocks0 + added;
    if err.Some? {
      LoopThrows(nodes, edges, emit, all, blocks0, processed0, err.value);
      return;
    }
    LoopStep(nodes, edges, emit, all, blocks0, processed0, added, processed);
    AppendAssoc(base, blocks0, added);
  }

  lemma AppendAssoc<T>(a: seq<T>, b: seq<T>, c: seq<T>)
    ensures a + b + c == a + (b + c)
  {
  }

  /** The readiness loop: passes over the node array while the last one
      emitted a block. */
  method ReadinessLoop<T>(nodes: seq<Node>, edges: seq<Edge>, emit: Emitter<T>, code0: seq<T>,
                          processed0: set<string>)
    returns (err: Option<GenError>, code: seq<T>, ghost blocks: seq<T>)
    requires processed0 <= NodeIds(nodes)
    ensures err.Some? ==> Passes(nodes, edges, emit, processed0) == Failure(err.value)
    ensures err.None? ==> Passes(nodes, edges, emit, processed0) == Success(blocks) && code == code0 + blocks
  {
    ghost var all := Passes(nodes, edges, emit, processed0);
    err, code, blocks := None, code0, [];
    var processed, remaining := processed0, true;
    LoopStart(nodes, edges, emit, processed0);
    while remaining
      invariant err.None? && code == code0 + blocks
      invariant LoopState(nodes, edges, emit, all, blocks, processed, remaining)
      decreases (if remaining then 1 else 0) + |NodeIds(nodes) - processed|
    {
      var next;
      err, next, processed, remaining, blocks := Round(nodes, edges, emit, all, code0, code, blocks, processed);
      if err.Some? {
        return;
      }
      code := next;
    }
  }

  /** The shared body of both generators: input pass, readiness loop, write. */
  method Scan(d: Dialect, nodes: seq<Node>, edges: seq<Edge>, nodeParams: map<string, JsValue>)
    returns (r: Result<seq<Stmt>, GenError>)
    ensures r == Generated(d, nodes, edges, nodeParams)
  {
    var code, processed := BindInputs(nodes);
    InputIdsAreNodeIds(nodes);
    var err;
    ghost var blocks;
    err, code, blocks := ReadinessLoop(nodes, edges, Templates(d, nodeParams), code, processed);
    if err.Some? {
      return Failure(err.value);
    }
    return Success(code + WriteFor(nodes, edges));
  }

  /** `generatePythonCode` */
  method GeneratePythonCode(nodes: seq<Node>, edges: seq<Edge>, nodeParams: map<string, JsValue>)
    returns (r: Result<Program, GenError>)
    ensures r.Success? <==> Generated(Python, nodes, edges, nodeParams).Success?
    ensures r.Success? ==> r.value == Program(Python, Generated(Python, nodes, edges, nodeParams).value)
    ensures r.Failure? ==> r.error == Generated(Python, nodes, edges, nodeParams).error
    ensures r.Success? ==> Emitted(nodes, edges, nodeParams, r.value.stmts)
    ensures r.Failure? ==> FailsAt(Python, nodes, edges, nodeParams, r.error)
  {
    var s := Scan(Python, nodes, edges, nodeParams);
    GeneratedValid(Python, nodes, edges, nodeParams);
    if s.Failure? {
      return Failure(s.error);
    }
    return Success(Program(Python, s.value));
  }

  /** `generateCppCode` */
  method GenerateCppCode(nodes: seq<Node>, edges: seq<Edge>, nodeParams: map<string, JsValue>)
    returns (r: Result<Program, GenError>)
    ensures r.Success? <==> Generated(Cpp, nodes, edges, nodeParams).Success?
    ensures r.Success? ==> r.value == Program(Cpp, Generated(Cpp, nodes, edges, nodeParams).value)
    ensures r.Failure? ==> r.error == Generated(Cpp, nodes, edges, nodeParams).error
    ensures r.Success? ==> Emitted(nodes, edges, nodeParams, r.value.stmts)
    ensures r.Failure? ==> FailsAt(Cpp, nodes, edges, nodeParams, r.error)
  {
    var s := Scan(Cpp, nodes, edges, nodeParams);
    GeneratedValid(Cpp, nodes, edges, nodeParams);
    if s.Failure? {
      return Failure(s.error);
    }
    return Success(Program(Cpp, s.value));
  }

  /** `generateCode`: Python for "python", C++ for any other language. */
  method GenerateCode(language: string, nodes: seq<Node>, edges: seq<Edge>, nodeParams: map<string, JsValue>)
    returns (r: Result<Program, GenError>)
    ensures var d := if language == "python" then Python else Cpp;
      && (r.Success? <==> Generated(d, nodes, edges, nodeParams).Success?)
      && (r.Success? ==> r.value == Program(d, Generated(d, nodes, edges, nodeParams).value))
      && (r.Failure? ==> r.error == Generated(d, nodes, edges, nodeParams).error)
      && (r.Success? ==> Emitted(nodes, edges, nodeParams, r.value.stmts))
      && (r.Failure? ==> FailsAt(d, nodes, edges, nodeParams, r.error))
  {
    if language == "python" {
      r := GeneratePythonCode(nodes, edges, nodeParams);
    } else {
      r := GenerateCppCode(nodes, edges, nodeParams);
    }
  }

  // ---------------------------------------------------------------------
  // The two dialects

  /** No block of a statement sequence trips the C++ colour join. */
  predicate NoColorFault(s: seq<Stmt>) {
    forall k :: 0 <= k < |s| ==> !(s[k].Block? && CppColorFault(s[k].op))
  }

  lemma NoColorFaultAppend(a: seq<Stmt>, b: seq<Stmt>)
    ensures NoColorFault(a + b) <==> NoColorFault(a) && NoColorFault(b)
  {
    var s := a + b;
    if NoColorFault(a) && NoColorFault(b) {
      forall k | 0 <= k < |s| ensures !(s[k].Block? && CppColorFault(s[k].op)) {
        if k < |a| {
          assert s[k] == a[k];
        } else {
          assert s[k] == b[k - |a|];
        }
      }
    }
    if NoColorFault(s) {
      forall k | 0 <= k < |a| ensures !(a[k].Block? && CppColorFault(a[k].op)) {
        assert s[k] == a[k];
      }
      forall k | 0 <= k < |b| ensures !(b[k].Block? && CppColorFault(b[k].op)) {
        assert s[k + |a|] == b[k];
      }
    }
  }

  /** A C++ template result against the Python one for the same node: where
      C++ emits, Python emits the same block and it has no colour fault; where
      Python emits a block without colour fault, C++ emits it too. */
  predicate CppRefines(p: Result<Stmt, GenError>, c: Result<Stmt, GenError>) {
    && (c.Success? ==> p == c && !(c.value.Block? && CppColorFault(c.value.op)))
    && (p.Success? && !(p.value.Block? && CppColorFault(p.value.op)) ==> c == p)
  }

  /** Every node's C++ template result refines its Python one. */
  lemma TemplatesRefine(n: Node, nodeEdges: seq<Edge>, nodeParams: map<string, JsValue>)
    ensures CppRefines(Templates(Python, nodeParams)(n, nodeEdges), Templates(Cpp, nodeParams)(n, nodeEdges))
  {
    var p := EmitStmt(Python, n, nodeEdges, nodeParams);
    var c := EmitStmt(Cpp, n, nodeEdges, nodeParams);
  }

  predicate RefinesAll(nodes: seq<Node>, edges: seq<Edge>, ePy: Template, eCpp: Template) {
    forall k :: 0 <= k < |nodes| ==>
      CppRefines(ePy(nodes[k], Incoming(edges, nodes[k].id)), eCpp(nodes[k], Incoming(edges, nodes[k].id)))
  }

  lemma {:induction false} PassFromDialects(nodes: seq<Node>, edges: seq<Edge>, ePy: Template, eCpp: Template,
                                            i: nat, done: set<string>)
    requires i <= |nodes| && RefinesAll(nodes, edges, ePy, eCpp)
    ensures var c := PassFrom(nodes, edges, eCpp, i, done);
      c.Success? ==> PassFrom(nodes, edges, ePy, i, done) == c && NoColorFault(c.value.0)
    ensures var p := PassFrom(nodes, edges, ePy, i, done);
      p.Success? && NoColorFault(p.value.0) ==> PassFrom(nodes, edges, eCpp, i, done) == p
    decreases |nodes| - i
  {
    if i < |nodes| && !Skipped(nodes[i], edges, done) {
      var next := done + {nodes[i].id};
      var es := Incoming(edges, nodes[i].id);
      PassFromDialects(nodes, edges, ePy, eCpp, i + 1, next);
      assert CppRefines(ePy(nodes[i], es), eCpp(nodes[i], es));
      match ePy(nodes[i], es)
      case Failure(_) =>
      case Success(b) =>
        var p := PassFrom(nodes, edges, ePy, i + 1, next);
        if p.Success? {
          NoColorFaultAppend([b], p.value.0);
          assert [b][0] == b;
          if NoColorFault([b] + p.value.0) {
            assert eCpp(nodes[i], es) == ePy(nodes[i], es);
          }
        }
    } else if i < |nodes| {
      PassFromDialects(nodes, edges, ePy, eCpp, i + 1, done);
    }
  }

  lemma {:induction false} PassesDialects(nodes: seq<Node>, edges: seq<Edge>, ePy: Template, eCpp: Template,
                                          done: set<string>)
    requires RefinesAll(nodes, edges, ePy, eCpp) && done <= NodeIds(nodes)
    ensures var c := Passes(nodes, edges, eCpp, done);
      c.Success? ==> Passes(nodes, edges, ePy, done) == c && NoColorFault(c.value)
    ensures var p := Passes(nodes, edges, ePy, done);
      p.Success? && NoColorFault(p.value) ==> Passes(nodes, edges, eCpp, done) == p
    decreases |NodeIds(nodes) - done|
  {
    PassFromDialects(nodes, edges, ePy, eCpp, 0, done);
    PassesStep(nodes, edges, ePy, done);
    PassesStep(nodes, edges, eCpp, done);
    var r := PassFrom(nodes, edges, ePy, 0, done);
    if r.Success? && r.value.0 != [] {
      var p := r.value;
      PassesDialects(nodes, edges, ePy, eCpp, p.1);
      var rest := Passes(nodes, edges, ePy, p.1);
      if rest.Success? {
        NoColorFaultAppend(p.0, rest.value);
      }
    }
  }

  /** Both generators emit the same statements: the C++ one succeeds exactly
      when the Python one does and no emitted block has a colour that is not
      an array, and then the statements are equal. */
  lemma DialectsAgree(nodes: seq<Node>, edges: seq<Edge>, nodeParams: map<string, JsValue>)
    ensures var c := Generated(Cpp, nodes, edges, nodeParams);
      var p := Generated(Python, nodes, edges, nodeParams);
      && (c.Success? <==> p.Success? && NoColorFault(p.value))
      && (c.Success? ==> c == p)
  {
    InputIdsAreNodeIds(nodes);
    var ePy, eCpp := Templates(Python, nodeParams), Templates(Cpp, nodeParams);
    forall k | 0 <= k < |nodes|
      ensures CppRefines(ePy(nodes[k], Incoming(edges, nodes[k].id)), eCpp(nodes[k], Incoming(edges, nodes[k].id)))
    {
      TemplatesRefine(nodes[k], Incoming(edges, nodes[k].id), nodeParams);
    }
    PassesDialects(nodes, edges, ePy, eCpp, InputIds(nodes));
    var ib, w := InputBinds(nodes), WriteFor(nodes, edges);
    assert NoColorFault(ib);
    assert NoColorFault(w);
    var r := Passes(nodes, edges, ePy, InputIds(nodes));
    if r.Success? {
      NoColorFaultAppend(ib, r.value);
      NoColorFaultAppend(ib + r.value, w);
    }
  }

  // ---------------------------------------------------------------------
  // Properties of generated programs

  /** The node blocks of a generated statement sequence. */
  function EmittedBlocks(nodes: seq<Node>, edges: seq<Edge>, s: seq<Stmt>): seq<Stmt>
    requires |InputBinds(nodes)| + |WriteFor(nodes, edges)| <= |s|
  {
    s[|InputBinds(nodes)|..|s| - |WriteFor(nodes, edges)|]
  }

  predicate UniqueIds(nodes: seq<Node>) {
    forall a, b :: 0 <= a < b < |nodes| ==> nodes[a].id != nodes[b].id
  }

  lemma BlockIdsAppend(a: seq<Stmt>, b: seq<Stmt>)
    ensures BlockIds(a + b) == BlockIds(a) + BlockIds(b)
  {
    var s := a + b;
    forall x | x in BlockIds(s) ensures x in BlockIds(a) + BlockIds(b) {
      var k :| 0 <= k < |s| && !s[k].Write? && s[k].id == x;
      if k < |a| {
        assert s[k] == a[k];
      } else {
        assert s[k] == b[k - |a|];
      }
    }
    forall x | x in BlockIds(a) ensures x in BlockIds(s) {
      var k :| 0 <= k < |a| && !a[k].Write? && a[k].id == x;
      assert s[k] == a[k];
    }
    forall x | x in BlockIds(b) ensures x in BlockIds(s) {
      var k :| 0 <= k < |b| && !b[k].Write? && b[k].id == x;
      assert s[k + |a|] == b[k];
    }
  }

  /** The input pass binds exactly the ids of the input nodes. */
  lemma {:induction false} InputBindsCoverInputs(nodes: seq<Node>)
    ensures BlockIds(InputBinds(nodes)) == InputIds(nodes)
    decreases |nodes|
  {
    if nodes != [] {
      var n := |nodes| - 1;
      assert nodes[..n + 1] == nodes;
      InputPassStep(nodes, n);
      InputBindsCoverInputs(nodes[..n]);
      var tail := if IsInput(nodes[n]) then [InputBind(nodes[n].id)] else [];
      BlockIdsAppend(InputBinds(nodes[..n]), tail);
      if IsInput(nodes[n]) {
        assert tail[0].id == nodes[n].id;
        assert BlockIds(tail) == {nodes[n].id};
      } else {
        assert BlockIds(tail) == {};
      }
    }
  }

  predicate OnCycle(id: string, cycle: seq<Edge>) {
    exists i :: 0 <= i < |cycle| && cycle[i].target == id
  }

  /** A closed chain of edges: each edge's target is the next edge's source. */
  predicate IsCycle(edges: seq<Edge>, cycle: seq<Edge>) {
    && |cycle| > 0
    && (forall i :: 0 <= i < |cycle| ==> cycle[i] in edges)
    && (forall i :: 0 <= i < |cycle| ==> cycle[i].target == cycle[Next(i, |cycle|)].source)
  }

  /** The position after i on a cycle of length n. */
  function Next(i: nat, n: nat): nat {
    if i + 1 >= n then 0 else i + 1
  }

  lemma BlockIdsPrefix(blocks: seq<Stmt>, k: nat)
    requires k <= |blocks|
    ensures BlockIds(blocks[..k]) <= BlockIds(blocks)
  {
    assert blocks[..k] + blocks[k..] == blocks;
    BlockIdsAppend(blocks[..k], blocks[k..]);
  }

  /** A node whose edges all come from bound ids, none of them on the cycle,
      is not on the cycle. */
  lemma CycleStep(edges: seq<Edge>, inputs: set<string>, before: seq<Stmt>, cycle: seq<Edge>, id: string)
    requires AllSourcesIn(Incoming(edges, id), inputs + BlockIds(before))
    requires IsCycle(edges, cycle)
    requires forall i :: 0 <= i < |cycle| ==> cycle[i].target !in inputs
    requires forall k :: 0 <= k < |before| ==> before[k].Block? && !OnCycle(before[k].id, cycle)
    ensures !OnCycle(id, cycle)
  {
    forall i | 0 <= i < |cycle| ensures cycle[i].target != id {
      var prev := if i == 0 then |cycle| - 1 else i - 1;
      assert Next(prev, |cycle|) == i;
      var src := cycle[i].source;
      assert src == cycle[prev].target;
      assert src !in BlockIds(before);
      assert cycle[i] !in Incoming(edges, id);
    }
  }

  /** Every source of a valid block's node is bound before that block. */
  lemma BlockSourcesBound(nodes: seq<Node>, edges: seq<Edge>, nodeParams: map<string, JsValue>,
                          blocks: seq<Stmt>, k: nat)
    requires k < |blocks| && BlocksValid(nodes, edges, nodeParams, blocks)
    ensures blocks[k].Block?
    ensures AllSourcesIn(Incoming(edges, blocks[k].id), InputIds(nodes) + BlockIds(blocks[..k]))
  {
    assert BlockAt(nodes, edges, nodeParams, blocks, k);
  }

  lemma {:induction false} NoCycleBlockBefore(nodes: seq<Node>, edges: seq<Edge>, nodeParams: map<string, JsValue>,
                                              blocks: seq<Stmt>, cycle: seq<Edge>, n: nat)
    requires n <= |blocks| && BlocksValid(nodes, edges, nodeParams, blocks)
    requires IsCycle(edges, cycle)
    requires forall i :: 0 <= i < |cycle| ==> cycle[i].target !in InputIds(nodes)
    ensures forall k :: 0 <= k < n ==> blocks[k].Block? && !OnCycle(blocks[k].id, cycle)
    decreases n
  {
    if n > 0 {
      var k := n - 1;
      NoCycleBlockBefore(nodes, edges, nodeParams, blocks, cycle, k);
      BlockSourcesBound(nodes, edges, nodeParams, blocks, k);
      var before := blocks[..k];
      assert forall k2 :: 0 <= k2 < |before| ==> before[k2] == blocks[k2];
      CycleStep(edges, InputIds(nodes), before, cycle, blocks[k].id);
    }
  }

  /** Nodes on a cycle of edges through non-input nodes are never emitted:
      each waits for the one before it. */
  lemma CycleNeverEmitted(nodes: seq<Node>, edges: seq<Edge>, nodeParams: map<string, JsValue>,
                          s: seq<Stmt>, cycle: seq<Edge>)
    requires Emitted(nodes, edges, nodeParams, s)
    requires IsCycle(edges, cycle)
    requires forall i :: 0 <= i < |cycle| ==> cycle[i].target !in InputIds(nodes)
    ensures forall i :: 0 <= i < |cycle| ==> cycle[i].target !in BlockIds(EmittedBlocks(nodes, edges, s))
  {
    var blocks := EmittedBlocks(nodes, edges, s);
    NoCycleBlockBefore(nodes, edges, nodeParams, blocks, cycle, |blocks|);
    forall i, k | 0 <= i < |cycle| && 0 <= k < |blocks| ensures blocks[k].id != cycle[i].target {
      assert !OnCycle(blocks[k].id, cycle);
    }
  }

  /** An edge whose source is never bound keeps its target from being
      emitted (the "dead branch" behaviour). */
  lemma UnboundSourceBlocksTarget(nodes: seq<Node>, edges: seq<Edge>, nodeParams: map<string, JsValue>,
                                  s: seq<Stmt>, e: Edge)
    requires Emitted(nodes, edges, nodeParams, s)
    requires e in edges
    requires e.source !in InputIds(nodes) + BlockIds(EmittedBlocks(nodes, edges, s))
    ensures e.target !in BlockIds(EmittedBlocks(nodes, edges, s))
  {
    var blocks := EmittedBlocks(nodes, edges, s);
    forall k | 0 <= k < |blocks| ensures blocks[k].Block? && blocks[k].id != e.target {
      assert BlockAt(nodes, edges, nodeParams, blocks, k);
      BlockIdsPrefix(blocks, k);
      assert e !in Incoming(edges, blocks[k].id);
    }
  }

  /** Completeness: a non-input node all of whose edges come from bound nodes
      is emitted. */
  lemma ReadyNodeEmitted(nodes: seq<Node>, edges: seq<Edge>, nodeParams: map<string, JsValue>,
                         s: seq<Stmt>, j: nat)
    requires Emitted(nodes, edges, nodeParams, s)
    requires j < |nodes| && !IsInput(nodes[j]) && nodes[j].id !in InputIds(nodes)
    requires AllSourcesIn(Incoming(edges, nodes[j].id), InputIds(nodes) + BlockIds(EmittedBlocks(nodes, edges, s)))
    ensures nodes[j].id in BlockIds(EmittedBlocks(nodes, edges, s))
  {
    assert Skipped(nodes[j], edges, InputIds(nodes) + BlockIds(EmittedBlocks(nodes, edges, s)));
  }

  /** With distinct node ids, a node that has a block resolved successfully. */
  lemma EmittedNodeResolved(nodes: seq<Node>, edges: seq<Edge>, nodeParams: map<string, JsValue>,
                            blocks: seq<Stmt>, j: nat)
    requires UniqueIds(nodes) && BlocksValid(nodes, edges, nodeParams, blocks)
    requires j < |nodes| && nodes[j].id in BlockIds(blocks)
    ensures ResolveStmt(nodes[j], Incoming(edges, nodes[j].id), nodeParams).Success?
  {
    var k :| 0 <= k < |blocks| && !blocks[k].Write? && blocks[k].id == nodes[j].id;
    assert BlockAt(nodes, edges, nodeParams, blocks, k);
    var j2 :| 0 <= j2 < |nodes| && !IsInput(nodes[j2]) && nodes[j2].id == blocks[k].id
              && ResolveStmt(nodes[j2], Incoming(edges, nodes[j2].id), nodeParams) == Success(blocks[k]);
  }

  /** A two-input node that is ready but has a single incoming edge is not
      skipped: no statement sequence is a valid output, so generation throws. */
  lemma HalfConnectedBlendThrows(nodes: seq<Node>, edges: seq<Edge>, nodeParams: map<string, JsValue>, j: nat)
    requires UniqueIds(nodes) && j < |nodes| && !IsInput(nodes[j])
    requires InputsNeeded(nodes[j].data.processType) == 2
    requires |Incoming(edges, nodes[j].id)| == 1
    requires AllSourcesIn(Incoming(edges, nodes[j].id), InputIds(nodes))
    ensures forall s :: !Emitted(nodes, edges, nodeParams, s)
  {
    forall s ensures !Emitted(nodes, edges, nodeParams, s) {
      if Emitted(nodes, edges, nodeParams, s) {
        var blocks := EmittedBlocks(nodes, edges, s);
        assert nodes[j].id !in InputIds(nodes) by {
          forall a | 0 <= a < |nodes| && IsInput(nodes[a]) ensures nodes[a].id != nodes[j].id {
            if a < j {
              assert nodes[a].id != nodes[j].id;
            } else {
              assert nodes[j].id != nodes[a].id;
            }
          }
        }
        ReadyNodeEmitted(nodes, edges, nodeParams, s, j);
        EmittedNodeResolved(nodes, edges, nodeParams, blocks, j);
        assert false;
      }
    }
  }
}
