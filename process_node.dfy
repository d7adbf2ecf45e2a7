/**
 * The live-evaluation node (src/components/nodes/ProcessNode.tsx). When a
 * node first appears without parameters it stores the default record for
 * its operation; whenever its primary input changes it computes a result,
 * by calling the image server or locally, and stores the result (or an
 * error entry) under its own id.
 *
 * The server is a function from request to outcome; the debounce timer is
 * not modelled, so an evaluation reads the store when it runs.
 */
module ProcessNode {

  import opened Wrappers
  import opened JsValues
  import opened Graph
  import opened ImageStore
  import opened ImageProcessing
  import CodeGenerator

  /** `['multiply', 'screen', 'overlay', 'blend'].includes(data.processType)` */
  predicate IsBlendNode(processType: JsValue) {
    processType in [Str("multiply"), Str("screen"), Str("overlay"), Str("blend")]
  }

  /** Blend nodes are exactly the operations the generator reads two inputs for. */
  lemma BlendNodesTakeTwoInputs(processType: JsValue)
    ensures IsBlendNode(processType) <==> CodeGenerator.InputsNeeded(processType) == 2
  {
  }

  function Color(r: real, g: real, b: real): JsValue {
    Arr([Num(r), Num(g), Num(b)])
  }

  const NoParams: JsValue := Obj(map[])

  /** The default-parameter table, indexed by `data.processType`; undefined
      for an operation it does not list. */
  function DefaultParams(processType: JsValue): JsValue {
    DefaultRecord(ToStr(processType))
  }

  /** The table's entry for the string form of a processType. */
  function DefaultRecord(key: string): JsValue {
    if key == "binary" then
      Obj(map["threshold" := Num(128.0), "maxValue" := Num(255.0), "method" := Str("THRESH_BINARY"),
              "useOtsu" := Bool(false)])
    else if key == "blur" then
      Obj(map["kernelSize" := Num(5.0), "sigmaX" := Num(0.0), "sigmaY" := Num(0.0),
              "borderType" := Str("BORDER_DEFAULT")])
    else if key == "erode" || key == "dilate" then
      Obj(map["kernelSize" := Num(3.0), "iterations" := Num(1.0), "kernelShape" := Str("MORPH_RECT"),
              "anchor" := Obj(map["x" := Num(-1.0), "y" := Num(-1.0)])])
    else if key == "edge" then
      Obj(map["threshold1" := Num(100.0), "threshold2" := Num(200.0), "apertureSize" := Num(3.0),
              "l2gradient" := Bool(false)])
    else if key == "grayscale" || key == "print" then
      NoParams
    else if key == "blank" then
      Obj(map["width" := Num(512.0), "height" := Num(512.0), "color" := Color(255.0, 255.0, 255.0),
              "isGrayscale" := Bool(false)])
    else if key == "mask" || key == "invert-mask" then
      Obj(map["threshold" := Num(128.0), "maxValue" := Num(255.0), "method" := Str("THRESH_BINARY"),
              "blendAlpha" := Num(0.5)])
    else if key == "draw-rect" then
      Obj(map["x" := Num(0.0), "y" := Num(0.0), "width" := Num(100.0), "height" := Num(100.0),
              "color" := Color(255.0, 0.0, 0.0), "thickness" := Num(2.0), "lineType" := Str("LINE_8"),
              "filled" := Bool(false)])
    else if key == "draw-circle" then
      Obj(map["x" := Num(50.0), "y" := Num(50.0), "radius" := Num(25.0),
              "color" := Color(0.0, 255.0, 0.0), "thickness" := Num(2.0), "lineType" := Str("LINE_8"),
              "filled" := Bool(false)])
    else if key == "draw-line" then
      Obj(map["x1" := Num(0.0), "y1" := Num(0.0), "x2" := Num(100.0), "y2" := Num(100.0),
              "color" := Color(0.0, 0.0, 255.0), "thickness" := Num(2.0), "lineType" := Str("LINE_8")])
    else if key == "multiply" || key == "screen" || key == "overlay" then
      Obj(map["opacity" := Num(1.0)])
    else if key == "blend" then
      Obj(map["ratio" := Num(0.5)])
    else if key == "contour" then
      Obj(map["mode" := Str("RETR_EXTERNAL"), "contourMethod" := Str("CHAIN_APPROX_SIMPLE"),
              "minArea" := Num(100.0), "maxArea" := Num(10000.0)])
    else
      Undefined
  }

  /** The operations the table lists. */
  const DefaultedKinds: set<string> :=
    {"binary", "blur", "erode", "dilate", "edge", "grayscale", "print", "blank", "mask", "invert-mask",
     "draw-rect", "draw-circle", "draw-line", "multiply", "screen", "overlay", "blend", "contour"}

  /** The table has a record for exactly the listed operations, and no
      default in it is undefined, so every default survives serialisation;
      grayscale and print have the empty record. */
  lemma DefaultParamsTable(processType: JsValue)
    ensures DefaultParams(processType) == Undefined <==> ToStr(processType) !in DefaultedKinds
    ensures ToStr(processType) in DefaultedKinds ==>
      && DefaultParams(processType).Obj?
      && forall k :: k in DefaultParams(processType).props ==> DefaultParams(processType).props[k] != Undefined
    ensures ToStr(processType) in {"grayscale", "print"} ==> DefaultParams(processType) == NoParams
  {
    var key := ToStr(processType);
    if key in FilterKinds {
      FilterDefaultsDefined(key);
    } else if key in MaskKinds {
      MaskDefaultsDefined(key);
    } else if key in DefaultedKinds {
      DrawDefaultsDefined(key);
    } else {
      DefaultsUnlisted(key);
    }
  }

  const FilterKinds: set<string> := {"binary", "blur", "erode", "dilate", "edge", "grayscale", "print", "blank", "mask"}

  lemma FilterDefaultsDefined(key: string)
    requires key in FilterKinds
    ensures DefaultRecord(key).Obj?
    ensures forall k :: k in DefaultRecord(key).props ==> DefaultRecord(key).props[k] != Undefined
    ensures key == "grayscale" || key == "print" ==> DefaultRecord(key) == NoParams
  {
  }

  const MaskKinds: set<string> := {"invert-mask", "draw-rect", "draw-circle", "draw-line"}

  lemma MaskDefaultsDefined(key: string)
    requires key in MaskKinds
    ensures DefaultRecord(key).Obj?
    ensures forall k :: k in DefaultRecord(key).props ==> DefaultRecord(key).props[k] != Undefined
  {
  }

  lemma DrawDefaultsDefined(key: string)
    requires key in DefaultedKinds - FilterKinds - MaskKinds
    ensures DefaultRecord(key).Obj?
    ensures forall k :: k in DefaultRecord(key).props ==> DefaultRecord(key).props[k] != Undefined
  {
  }

  lemma DefaultsUnlisted(key: string)
    requires key !in DefaultedKinds
    ensures DefaultRecord(key) == Undefined
  {
  }

  /** Generating code for `op` from its default record gives the same
      parameters as generating it from no record. */
  predicate Agrees(op: string) {
    CodeGenerator.ResolveOp(Str(op), DefaultParams(Str(op))) == CodeGenerator.ResolveOp(Str(op), NoParams)
  }

  lemma DefaultsMatchThreshold()
    ensures Agrees("binary")
  {
  }

  lemma DefaultsMatchBlur()
    ensures Agrees("blur")
  {
  }

  lemma DefaultsMatchErode()
    ensures Agrees("erode")
  {
  }

  lemma DefaultsMatchDilate()
    ensures Agrees("dilate")
  {
  }

  lemma DefaultsMatchCanny()
    ensures Agrees("edge")
  {
  }

  lemma DefaultsMatchGrayscale()
    ensures Agrees("grayscale")
  {
  }

  lemma DefaultsMatchBlank()
    ensures Agrees("blank")
  {
  }

  /** The rectangle the generator draws when nothing overrides its defaults. */
  const DefaultRectangle: CodeGenerator.Op :=
    CodeGenerator.RectangleOp(Num(0.0), Num(0.0), Num(100.0), Num(100.0),
                              Color(255.0, 0.0, 0.0), Num(2.0), Str("LINE_8"))

  lemma RectangleFromRecord()
    ensures CodeGenerator.ResolveOp(Str("draw-rect"), DefaultParams(Str("draw-rect"))) == DefaultRectangle
  {
    var d := DefaultParams(Str("draw-rect"));
    assert Get(d, "x") == Num(0.0) && Get(d, "width") == Num(100.0);
    assert Get(d, "y") == Num(0.0) && Get(d, "height") == Num(100.0);
  }

  lemma RectangleFromNothing()
    ensures CodeGenerator.ResolveOp(Str("draw-rect"), NoParams) == DefaultRectangle
  {
    assert Plus(Num(0.0), Num(100.0)) == Num(100.0);
  }

  lemma DefaultsMatchRectangle()
    ensures Agrees("draw-rect")
  {
    RectangleFromRecord();
    RectangleFromNothing();
  }

  lemma DefaultsMatchCircle()
    ensures Agrees("draw-circle")
  {
  }

  lemma DefaultsMatchLine()
    ensures Agrees("draw-line")
  {
  }

  lemma DefaultsMatchMultiply()
    ensures Agrees("multiply")
  {
  }

  lemma DefaultsMatchScreen()
    ensures Agrees("screen")
  {
  }

  lemma DefaultsMatchOverlay()
    ensures Agrees("overlay")
  {
  }

  lemma DefaultsMatchBlend()
    ensures Agrees("blend")
  {
  }

  /** The table agrees with the generator's fallbacks for every shared
      operation: generating from a node's default record gives the same
      parameters as generating from no record. */
  lemma DefaultsMatchGenerator()
    ensures Agrees("binary")
    ensures Agrees("blur")
    ensures Agrees("erode")
    ensures Agrees("dilate")
    ensures Agrees("edge")
    ensures Agrees("grayscale")
    ensures Agrees("blank")
    ensures Agrees("draw-rect")
    ensures Agrees("draw-circle")
    ensures Agrees("draw-line")
    ensures Agrees("multiply")
    ensures Agrees("screen")
    ensures Agrees("overlay")
    ensures Agrees("blend")
  {
    DefaultsMatchThreshold();
    DefaultsMatchBlur();
    DefaultsMatchErode();
    DefaultsMatchDilate();
    DefaultsMatchCanny();
    DefaultsMatchGrayscale();
    DefaultsMatchBlank();
    DefaultsMatchRectangle();
    DefaultsMatchCircle();
    DefaultsMatchLine();
    DefaultsMatchMultiply();
    DefaultsMatchScreen();
    DefaultsMatchOverlay();
    DefaultsMatchBlend();
  }

  /** The init effect: when the node has no parameter record it stores
      `{ [processType]: defaults }`, provided the table has an entry. */
  method InitParams(store: DataStore, data: NodeData)
    modifies store
    ensures Truthy(old(store.GetNodeParams(data.id))) || !Truthy(DefaultParams(data.processType)) ==>
              store.nodeParams == old(store.nodeParams)
    ensures !Truthy(old(store.GetNodeParams(data.id))) && Truthy(DefaultParams(data.processType)) ==>
              store.nodeParams ==
                old(store.nodeParams)[data.id := Obj(map[ToStr(data.processType) := DefaultParams(data.processType)])]
    ensures store.dataDict == old(store.dataDict) && store.edges == old(store.edges)
    ensures store.showNodesPreview == old(store.showNodesPreview)
  {
    var nodeParams := store.GetNodeParams(data.id);
    if !Truthy(nodeParams) {
      var defaultParams := DefaultParams(data.processType);
      if Truthy(defaultParams) {
        store.SetNodeParams(data.id, Obj(map[ToStr(data.processType) := defaultParams]));
      }
    }
  }

  /** After initialisation, the generator reads exactly the default record
      for the node. */
  lemma GeneratorReadsInitialisedDefaults(nodeParams: map<string, JsValue>, n: Node)
    requires Truthy(DefaultParams(n.data.processType))
    ensures CodeGenerator.NodeParamsFor(
              nodeParams[n.id := Obj(map[ToStr(n.data.processType) := DefaultParams(n.data.processType)])], n)
            == DefaultParams(n.data.processType)
  {
  }

  // ---------------------------------------------------------------------
  // Evaluation

  /** A thrown value: an Error with its message, or anything else. */
  datatype ErrorValue = JsError(message: string) | OtherThrow(value: JsValue)

  datatype Outcome = Done(value: JsValue) | Thrown(error: ErrorValue)

  /** What `imageData.startsWith` throws on a value that is not a string. */
  function StartsWithError(image: JsValue): string {
    if image == Undefined || image == Null then
      "Cannot read properties of " + ToStr(image) + " (reading 'startsWith')"
    else "imageData.startsWith is not a function"
  }

  /** The own properties a parameter value contributes to `{...params}`. */
  function ParamsMap(params: JsValue): (r: map<string, JsValue>)
    ensures params.Obj? ==> r == params.props
    ensures !params.Obj? ==> r == map[]
  {
    if params.Obj? then params.props else map[]
  }

  /** `await processImage(kind, image, params)`: the server's outcome and the
      request posted, or the TypeError thrown before any request. */
  function Call(kind: JsValue, image: JsValue, params: JsValue, server: Request -> Outcome): (r: (Outcome, seq<Request>))
    ensures image.Str? ==> r.1 == [RequestFor(kind, image.s, ParamsMap(params))] && r.0 == server(r.1[0])
    ensures !image.Str? ==> r == (Thrown(JsError(StartsWithError(image))), [])
  {
    if image.Str? then
      var req := RequestFor(kind, image.s, ParamsMap(params));
      (server(req), [req])
    else (Thrown(JsError(StartsWithError(image))), [])
  }

  /** `{ image: result }` for a successful call. */
  function AsImage(r: (Outcome, seq<Request>)): (Outcome, seq<Request>) {
    if r.0.Done? then (Done(Obj(map["image" := r.0.value])), r.1) else r
  }

  /** `Number(v) || fallback` */
  function NumberOr(v: JsValue, fallback: real): (r: JsValue)
    requires fallback != 0.0
    ensures Truthy(r) && (r.Num? || r.Infinity?)
    ensures Truthy(ToNumber(v)) ==> r == ToNumber(v)
    ensures !Truthy(ToNumber(v)) ==> r == Num(fallback)
  {
    Or(ToNumber(v), Num(fallback))
  }

  function BlankParams(p: JsValue): JsValue {
    Obj(map["width" := NumberOr(Get(p, "width"), 512.0),
            "height" := NumberOr(Get(p, "height"), 512.0),
            "color" := Or(Get(p, "color"), Color(255.0, 255.0, 255.0)),
            "isGrayscale" := Bool(Truthy(Get(p, "isGrayscale")))])
  }

  function ContourParams(p: JsValue): JsValue {
    Obj(map["mode" := Or(Get(p, "mode"), Str("RETR_EXTERNAL")),
            "contourMethod" := Or(Get(p, "contourMethod"), Str("CHAIN_APPROX_SIMPLE")),
            "minArea" := NumberOr(Get(p, "minArea"), 100.0),
            "maxArea" := NumberOr(Get(p, "maxArea"), 10000.0)])
  }

  /** The blank image's size is never 0 or NaN: either the given size as a
      number, or 512; its colour defaults to white. */
  lemma BlankParamsFallBack(p: JsValue)
    ensures var b := BlankParams(p);
      && Truthy(Get(b, "width")) && Truthy(Get(b, "height"))
      && (!Truthy(ToNumber(Get(p, "width"))) ==> Get(b, "width") == Num(512.0))
      && (!Truthy(ToNumber(Get(p, "height"))) ==> Get(b, "height") == Num(512.0))
      && (!Truthy(Get(p, "color")) ==> Get(b, "color") == Color(255.0, 255.0, 255.0))
      && Get(b, "isGrayscale").Bool?
  {
  }

  /** The contour record: mode and method fall back to RETR_EXTERNAL and
      CHAIN_APPROX_SIMPLE, and the area bounds are numbers that are never 0
      or NaN, 100 and 10000 when not given. */
  lemma ContourParamsFallBack(p: JsValue)
    ensures var c := ContourParams(p);
      && c.Obj? && c.props.Keys == {"mode", "contourMethod", "minArea", "maxArea"}
      && (Truthy(Get(p, "mode")) ==> Get(c, "mode") == Get(p, "mode"))
      && (!Truthy(Get(p, "mode")) ==> Get(c, "mode") == Str("RETR_EXTERNAL"))
      && (Truthy(Get(p, "contourMethod")) ==> Get(c, "contourMethod") == Get(p, "contourMethod"))
      && (!Truthy(Get(p, "contourMethod")) ==> Get(c, "contourMethod") == Str("CHAIN_APPROX_SIMPLE"))
      && Truthy(Get(c, "minArea")) && Truthy(Get(c, "maxArea"))
      && (Truthy(ToNumber(Get(p, "minArea"))) ==> Get(c, "minArea") == ToNumber(Get(p, "minArea")))
      && (!Truthy(ToNumber(Get(p, "minArea"))) ==> Get(c, "minArea") == Num(100.0))
      && (Truthy(ToNumber(Get(p, "maxArea"))) ==> Get(c, "maxArea") == ToNumber(Get(p, "maxArea")))
      && (!Truthy(ToNumber(Get(p, "maxArea"))) ==> Get(c, "maxArea") == Num(10000.0))
  {
  }

  /** `inputData.image || ''` */
  function InputImage(inputData: JsValue): JsValue {
    Or(Get(inputData, "image"), Str(""))
  }

  /** The input's image when it is truthy; otherwise the empty string, so a
      falsy image is always "". */
  lemma InputImageFallsBack(inputData: JsValue)
    ensures Truthy(Get(inputData, "image")) ==> InputImage(inputData) == Get(inputData, "image")
    ensures !Truthy(Get(inputData, "image")) ==> InputImage(inputData) == Str("")
    ensures !Truthy(InputImage(inputData)) ==> InputImage(inputData) == Str("")
    ensures !inputData.Obj? ==> InputImage(inputData) == Str("")
  {
  }

  /** The body of `processAndUpdateImage` once an input image is present:
      the value assigned to `outputImg` (or what was thrown) and the requests
      posted on the way. `parse` stands for `JSON.parse`. */
  function Evaluation(processType: JsValue, inputData: JsValue, processParams: JsValue,
                      server: Request -> Outcome, parse: string -> Result<JsValue, string>): (r: (Outcome, seq<Request>))
    ensures |r.1| <= 2
    // only the primary input's image is sent, first
    ensures |r.1| > 0 ==> InputImage(inputData).Str? && r.1[0].image == Prefixed(InputImage(inputData).s)
    ensures processType == Str("print") ==> r == (Done(inputData), [])
  {
    var image := InputImage(inputData);
    if processType == Str("grayscale") then
      AsImage(Call(Str("grayscale"), image, NoParams, server))
    else if processType == Str("blank") then
      AsImage(Call(Str("blank"), image, BlankParams(processParams), server))
    else if processType == Str("contour") then
      var (gray, sent) := Call(Str("grayscale"), image, NoParams, server);
      if gray.Thrown? then (gray, sent)
      else
        var (contour, sent2) := Call(Str("contour"), gray.value, ContourParams(processParams), server);
        if contour.Thrown? then (contour, sent + sent2)
        else match parse(ToStr(contour.value))
          case Failure(message) => (Thrown(JsError(message)), sent + sent2)
          case Success(v) => (Done(v), sent + sent2)
    else if processType == Str("print") then
      (Done(inputData), [])
    else
      AsImage(Call(processType, image, processParams, server))
  }

  /** The operations the node evaluates itself rather than handing them to
      the server as they are. */
  const LocalKinds: seq<JsValue> := [Str("grayscale"), Str("blank"), Str("contour"), Str("print")]

  /** Any other operation posts one request with the node's own parameters
      and, when the server answers, stores `{ image: result }`. */
  lemma ServerKindEvaluation(processType: JsValue, inputData: JsValue, processParams: JsValue,
                             server: Request -> Outcome, parse: string -> Result<JsValue, string>)
    requires processType !in LocalKinds && InputImage(inputData).Str?
    ensures var req := RequestFor(processType, InputImage(inputData).s, ParamsMap(processParams));
      var e := Evaluation(processType, inputData, processParams, server, parse);
      && e.1 == [req]
      && (server(req).Done? ==> Wrapped(StoredEntry(e.0)) == Obj(map["image" := server(req).value]))
      && (server(req).Thrown? ==> e.0 == server(req))
  {
  }

  /** Grayscale posts one request with no parameters and stores
      `{ image: result }`. */
  lemma GrayscaleEvaluation(inputData: JsValue, processParams: JsValue,
                            server: Request -> Outcome, parse: string -> Result<JsValue, string>)
    requires InputImage(inputData).Str?
    ensures var req := RequestFor(Str("grayscale"), InputImage(inputData).s, map[]);
      var e := Evaluation(Str("grayscale"), inputData, processParams, server, parse);
      && e.1 == [req]
      && (server(req).Done? ==> Wrapped(StoredEntry(e.0)) == Obj(map["image" := server(req).value]))
      && (server(req).Thrown? ==> e.0 == server(req))
  {
  }

  /** Blank posts one request with the normalised blank record and stores
      `{ image: result }`. */
  lemma BlankEvaluation(inputData: JsValue, processParams: JsValue,
                        server: Request -> Outcome, parse: string -> Result<JsValue, string>)
    requires InputImage(inputData).Str?
    ensures var req := RequestFor(Str("blank"), InputImage(inputData).s, BlankParams(processParams).props);
      var e := Evaluation(Str("blank"), inputData, processParams, server, parse);
      && e.1 == [req]
      && (server(req).Done? ==> Wrapped(StoredEntry(e.0)) == Obj(map["image" := server(req).value]))
      && (server(req).Thrown? ==> e.0 == server(req))
  {
  }

  /** Contour first posts the image for grayscale conversion, then posts the
      grey image with the normalised contour record, and yields the parsed
      second answer. A failed first call ends the evaluation. */
  lemma ContourEvaluation(inputData: JsValue, processParams: JsValue,
                          server: Request -> Outcome, parse: string -> Result<JsValue, string>)
    requires InputImage(inputData).Str?
    ensures var gray := RequestFor(Str("grayscale"), InputImage(inputData).s, map[]);
      var e := Evaluation(Str("contour"), inputData, processParams, server, parse);
      server(gray).Thrown? ==> e == (server(gray), [gray])
    ensures var gray := RequestFor(Str("grayscale"), InputImage(inputData).s, map[]);
      var e := Evaluation(Str("contour"), inputData, processParams, server, parse);
      server(gray).Done? && !server(gray).value.Str? ==>
        e == (Thrown(JsError(StartsWithError(server(gray).value))), [gray])
  {
    var gray := RequestFor(Str("grayscale"), InputImage(inputData).s, map[]);
    assert ParamsMap(NoParams) == map[];
    if server(gray).Done? && !server(gray).value.Str? {
      ContourSecondCallRefused(inputData, processParams, server, parse);
    }
  }

  lemma ContourSecondCallRefused(inputData: JsValue, processParams: JsValue,
                                 server: Request -> Outcome, parse: string -> Result<JsValue, string>)
    requires InputImage(inputData).Str?
    requires var gray := RequestFor(Str("grayscale"), InputImage(inputData).s, map[]);
      server(gray).Done? && !server(gray).value.Str?
    ensures var gray := RequestFor(Str("grayscale"), InputImage(inputData).s, map[]);
      Evaluation(Str("contour"), inputData, processParams, server, parse)
        == (Thrown(JsError(StartsWithError(server(gray).value))), [gray])
  {
    var gray := RequestFor(Str("grayscale"), InputImage(inputData).s, map[]);
    assert ParamsMap(NoParams) == map[];
    var c := Call(Str("contour"), server(gray).value, ContourParams(processParams), server);
    assert [gray] + c.1 == [gray];
  }

  lemma ContourEvaluationSecondCall(inputData: JsValue, processParams: JsValue,
                                    server: Request -> Outcome, parse: string -> Result<JsValue, string>)
    requires InputImage(inputData).Str?
    requires var gray := RequestFor(Str("grayscale"), InputImage(inputData).s, map[]);
      server(gray).Done? && server(gray).value.Str?
    ensures var gray := RequestFor(Str("grayscale"), InputImage(inputData).s, map[]);
      var contour := RequestFor(Str("contour"), server(gray).value.s, ContourParams(processParams).props);
      var e := Evaluation(Str("contour"), inputData, processParams, server, parse);
      && e.1 == [gray, contour]
      && (server(contour).Thrown? ==> e.0 == server(contour))
      && (server(contour).Done? && parse(ToStr(server(contour).value)).Success? ==>
            e.0 == Done(parse(ToStr(server(contour).value)).value))
      && (server(contour).Done? && parse(ToStr(server(contour).value)).Failure? ==>
            e.0 == Thrown(JsError(parse(ToStr(server(contour).value)).error)))
  {
  }

  /** What is stored for the node: the output, or `{ error: message }` with
      a fixed message for thrown values that are not Errors. */
  function StoredEntry(o: Outcome): (r: JsValue)
    ensures o.Thrown? && o.error.JsError? ==> r == Obj(map["error" := Str(o.error.message)])
    ensures o.Thrown? && o.error.OtherThrow? ==> r == Obj(map["error" := Str("处理失败")])
  {
    match o
    case Done(v) => v
    case Thrown(JsError(message)) => Obj(map["error" := Str(message)])
    case Thrown(OtherThrow(_)) => Obj(map["error" := Str("处理失败")])
  }

  /** `processImage` for one call. */
  method ProcessImage(kind: JsValue, image: JsValue, params: JsValue, server: Request -> Outcome)
    returns (o: Outcome, sent: seq<Request>)
    ensures (o, sent) == Call(kind, image, params, server)
  {
    if !image.Str? {
      return Thrown(JsError(StartsWithError(image))), [];
    }
    var req := ProcessImageRequest(kind, image.s, ParamsMap(params));
    return server(req), [req];
  }

  /** The evaluation effect: reads the primary input (ignoring the preview
      switch) and the node's parameters, computes the output and stores it. */
  method EvaluateNode(store: DataStore, data: NodeData, server: Request -> Outcome,
                      parse: string -> Result<JsValue, string>)
    returns (requests: seq<Request>)
    modifies store
    ensures var inputData := old(store.GetConnectedNodeSourceData(data.id, true));
      !Truthy(inputData) || !Truthy(InputImage(inputData)) ==>
        store.dataDict == old(store.dataDict) && requests == []
    ensures var inputData := old(store.GetConnectedNodeSourceData(data.id, true));
      var processParams := Or(OptGet(old(store.GetNodeParams(data.id)), ToStr(data.processType)), NoParams);
      var e := Evaluation(data.processType, inputData, processParams, server, parse);
      Truthy(inputData) && Truthy(InputImage(inputData)) ==>
        store.dataDict == old(store.dataDict)[data.id := Wrapped(StoredEntry(e.0))] && requests == e.1
    ensures store.edges == old(store.edges) && store.nodeParams == old(store.nodeParams)
    ensures store.showNodesPreview == old(store.showNodesPreview)
  {
    var inputData := store.GetConnectedNodeSourceData(data.id, true);
    if !Truthy(inputData) {
      return [];
    }
    var processParams := Or(OptGet(store.GetNodeParams(data.id), ToStr(data.processType)), NoParams);
    var outputImg: Outcome := Done(NoParams);
    var inputImageData := Or(Get(inputData, "image"), Str(""));
    if !Truthy(inputImageData) {
      return [];
    }
    if data.processType == Str("grayscale") {
      var grayResult;
      grayResult, requests := ProcessImage(Str("grayscale"), inputImageData, NoParams, server);
      outputImg := AsImage((grayResult, requests)).0;
    } else if data.processType == Str("blank") {
      var blankResult;
      blankResult, requests := ProcessImage(Str("blank"), inputImageData, BlankParams(processParams), server);
      outputImg := AsImage((blankResult, requests)).0;
    } else if data.processType == Str("contour") {
      var grayImage;
      grayImage, requests := ProcessImage(Str("grayscale"), inputImageData, NoParams, server);
      if grayImage.Thrown? {
        outputImg := grayImage;
      } else {
        var contourResult, sent2 := ProcessImage(Str("contour"), grayImage.value,
                                                 ContourParams(processParams), server);
        requests := requests + sent2;
        if contourResult.Thrown? {
          outputImg := contourResult;
        } else {
          var contourData := parse(ToStr(contourResult.value));
          outputImg := if contourData.Failure? then Thrown(JsError(contourData.error))
                       else Done(contourData.value);
        }
      }
    } else if data.processType == Str("print") {
      outputImg := Done(inputData);
      requests := [];
    } else {
      var result;
      result, requests := ProcessImage(data.processType, inputImageData, processParams, server);
      outputImg := AsImage((result, requests)).0;
    }
    store.SetData(data.id, StoredEntry(outputImg));
  }

  /** A print node stores its input data unchanged. */
  lemma PrintStoresInput(inputData: JsValue, processParams: JsValue, server: Request -> Outcome,
                         parse: string -> Result<JsValue, string>)
    requires Truthy(InputImage(inputData))
    ensures Wrapped(StoredEntry(Evaluation(Str("print"), inputData, processParams, server, parse).0)) == inputData
  {
    assert inputData.Obj?;
  }

  /** When every call with the node's input image throws the same error,
      so does the evaluation. */
  lemma EvaluationThrows(processType: JsValue, inputData: JsValue, processParams: JsValue,
                         server: Request -> Outcome, parse: string -> Result<JsValue, string>, thrown: Outcome)
    requires processType != Str("print") && thrown.Thrown?
    requires forall kind, params :: Call(kind, InputImage(inputData), params, server).0 == thrown
    ensures Evaluation(processType, inputData, processParams, server, parse).0 == thrown
  {
    var image := InputImage(inputData);
    if processType == Str("contour") {
      assert Call(Str("grayscale"), image, NoParams, server).0 == thrown;
    } else {
      assert AsImage(Call(processType, image, processParams, server)).0 == thrown;
    }
  }

  /** A failing call stores an error entry: for any operation the server
      rejects, the node's entry is `{ error: message }`. */
  lemma RejectionStoresError(processType: JsValue, inputData: JsValue, processParams: JsValue,
                             server: Request -> Outcome, parse: string -> Result<JsValue, string>, message: string)
    requires processType != Str("print") && InputImage(inputData).Str?
    requires forall req :: server(req) == Thrown(JsError(message))
    ensures Wrapped(StoredEntry(Evaluation(processType, inputData, processParams, server, parse).0))
            == Obj(map["error" := Str(message)])
  {
    var thrown := Thrown(JsError(message));
    forall kind, params ensures Call(kind, InputImage(inputData), params, server).0 == thrown {
    }
    EvaluationThrows(processType, inputData, processParams, server, parse, thrown);
  }
}
