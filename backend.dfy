/**
 * The image server's request handler (backend/main.py): base64 decoding of
 * the request image, per-type parameter resolution, and the mapping of
 * every failure to an HTTP error. The OpenCV calls, base64 codec and image
 * codecs are parameters; what is modelled is which values reach them and
 * which error each input produces.
 */
module Backend {

  import opened Wrappers
  import opened JsValues

  /** The values a request's params can hold once validated, plus the dict
      literal the handler itself uses as a default. */
  datatype PyValue =
    | PyNone
    | PyBool(b: bool)
    | PyInt(i: int)
    | PyFloat(f: real)
    | PyStr(s: string)
    | PyList(elems: seq<PyValue>)
    | PyDict(entries: map<string, PyValue>)

  /** The exceptions the handler can see. */
  datatype Raised =
    | ValueError(message: string)
    | TypeError(message: string)
    | KeyError(key: string)
    | HttpError(status: int, detail: string)

  function TypeName(v: PyValue): string {
    match v
    case PyNone => "NoneType"
    case PyBool(_) => "bool"
    case PyInt(_) => "int"
    case PyFloat(_) => "float"
    case PyStr(_) => "str"
    case PyList(_) => "list"
    case PyDict(_) => "dict"
  }

  /** `repr(s)` for a string without quotes or escapes in it. */
  function Repr(s: string): string {
    "'" + s + "'"
  }

  /** `str(e)`; an HTTPException prints as "status: detail". */
  function ExceptionText(e: Raised): string {
    match e
    case ValueError(m) => m
    case TypeError(m) => m
    case KeyError(k) => Repr(k)
    case HttpError(status, detail) => IntToDecimal(status) + ": " + detail
  }

  /** Python truthiness. */
  predicate PyTruthy(v: PyValue) {
    match v
    case PyNone => false
    case PyBool(b) => b
    case PyInt(i) => i != 0
    case PyFloat(f) => f != 0.0
    case PyStr(s) => s != ""
    case PyList(es) => es != []
    case PyDict(m) => m != map[]
  }

  /** `params.get(key, default)`: a present key wins, even when its value is None. */
  function DictGet(params: map<string, PyValue>, key: string, default: PyValue): PyValue {
    if key in params then params[key] else default
  }

  /** Truncation toward zero, as `int(x)` does for floats. */
  function Truncate(f: real): (i: int)
    ensures f >= 0.0 ==> i as real <= f < i as real + 1.0
    ensures f < 0.0 ==> i as real - 1.0 < f <= i as real
  {
    if f >= 0.0 then f.Floor else -((-f).Floor)
  }

  /** A base-ten integer literal with optional sign and surrounding blanks. */
  function ParseIntLiteral(s: string): Option<int> {
    var t := Trim(s);
    var body := if t != [] && (t[0] == '-' || t[0] == '+') then t[1..] else t;
    if body == [] || !AllDigits(body) then None
    else if t[0] == '-' then Some(-(DigitsValue(body) as int))
    else Some(DigitsValue(body) as int)
  }

  /** `int(v)` */
  function ToInt(v: PyValue): (r: Result<int, Raised>)
    ensures v.PyInt? ==> r == Success(v.i)
    ensures v.PyBool? ==> r == Success(if v.b then 1 else 0)
    ensures v.PyFloat? ==> r == Success(Truncate(v.f))
    ensures v.PyStr? ==> (r.Success? <==> ParseIntLiteral(v.s).Some?)
    ensures v.PyStr? && r.Success? ==> r.value == ParseIntLiteral(v.s).value
    ensures v.PyNone? || v.PyList? || v.PyDict? ==> r.Failure? && r.error.TypeError?
    ensures r.Failure? ==> (r.error.ValueError? && v.PyStr?) || r.error.TypeError?
    ensures r.Failure? && v.PyStr? ==> r.error.ValueError?
  {
    match v
    case PyBool(b) => Success(if b then 1 else 0)
    case PyInt(i) => Success(i)
    case PyFloat(f) => Success(Truncate(f))
    case PyStr(s) =>
      (match ParseIntLiteral(s)
       case Some(i) => Success(i)
       case None => Failure(ValueError("invalid literal for int() with base 10: " + Repr(s))))
    case _ =>
      Failure(TypeError("int() argument must be a string, a bytes-like object or a real number, not '"
                        + TypeName(v) + "'"))
  }

  /** A decimal literal with optional sign and surrounding blanks. */
  function ParseFloatLiteral(s: string): Option<real> {
    var t := Trim(s);
    var body := if t != [] && (t[0] == '-' || t[0] == '+') then t[1..] else t;
    match DecimalLiteralValue(body)
    case None => None
    case Some(r) => if t[0] == '-' then Some(-r) else Some(r)
  }

  /** `float(v)` */
  function ToFloat(v: PyValue): (r: Result<real, Raised>)
    ensures v.PyInt? ==> r == Success(v.i as real)
    ensures v.PyFloat? ==> r == Success(v.f)
    ensures v.PyBool? ==> r == Success(if v.b then 1.0 else 0.0)
    ensures v.PyStr? ==> (r.Success? <==> ParseFloatLiteral(v.s).Some?)
    ensures v.PyStr? && r.Success? ==> r.value == ParseFloatLiteral(v.s).value
    ensures v.PyNone? || v.PyList? || v.PyDict? ==> r.Failure? && r.error.TypeError?
    ensures r.Failure? ==> (r.error.ValueError? && v.PyStr?) || r.error.TypeError?
    ensures r.Failure? && v.PyStr? ==> r.error.ValueError?
  {
    match v
    case PyBool(b) => Success(if b then 1.0 else 0.0)
    case PyInt(i) => Success(i as real)
    case PyFloat(f) => Success(f)
    case PyStr(s) =>
      (match ParseFloatLiteral(s)
       case Some(f) => Success(f)
       case None => Failure(ValueError("could not convert string to float: " + Repr(s))))
    case _ =>
      Failure(TypeError("float() argument must be a string or a real number, not '" + TypeName(v) + "'"))
  }

  /** Whether a value can be a dict key: lists and dicts cannot. */
  predicate Hashable(v: PyValue) {
    !(v.PyList? || v.PyDict?)
  }

  /** The constant a name table gives a value: its entry for a listed name,
      the default for anything else. */
  function Named(table: map<string, int>, v: PyValue, default: int): int {
    if v.PyStr? && v.s in table then table[v.s] else default
  }

  /** `table.get(v, default)` for a table keyed by names; lists and dicts
      cannot be hashed. */
  function EnumLookup(table: map<string, int>, v: PyValue, default: int): (r: Result<int, Raised>)
    ensures r.Success? <==> Hashable(v)
    ensures r.Success? ==> r.value == Named(table, v, default)
    ensures r.Failure? ==> r.error.TypeError?
  {
    if v.PyList? || v.PyDict? then Failure(TypeError("unhashable type: '" + TypeName(v) + "'"))
    else if v.PyStr? && v.s in table then Success(table[v.s])
    else Success(default)
  }

  /** `v[key]` for a string key. */
  function Subscript(v: PyValue, key: string): (r: Result<PyValue, Raised>)
    ensures v.PyDict? && key in v.entries ==> r == Success(v.entries[key])
    ensures v.PyDict? && key !in v.entries ==> r == Failure(KeyError(key))
    ensures !v.PyDict? ==> r.Failure? && r.error.TypeError?
  {
    match v
    case PyDict(m) => if key in m then Success(m[key]) else Failure(KeyError(key))
    case PyStr(_) => Failure(TypeError("string indices must be integers, not 'str'"))
    case PyList(_) => Failure(TypeError("list indices must be integers or slices, not str"))
    case _ => Failure(TypeError("'" + TypeName(v) + "' object is not subscriptable"))
  }

  // ---------------------------------------------------------------------
  // OpenCV constants

  const THRESH_BINARY: int := 0
  const THRESH_BINARY_INV: int := 1
  const THRESH_TRUNC: int := 2
  const THRESH_TOZERO: int := 3
  const THRESH_TOZERO_INV: int := 4
  const THRESH_OTSU: int := 8
  const BORDER_CONSTANT: int := 0
  const BORDER_REPLICATE: int := 1
  const BORDER_DEFAULT: int := 4
  const MORPH_RECT: int := 0
  const MORPH_CROSS: int := 1
  const MORPH_ELLIPSE: int := 2
  const LINE_4: int := 4
  const LINE_8: int := 8
  const LINE_AA: int := 16

  const MethodMap: map<string, int> :=
    map["THRESH_BINARY" := THRESH_BINARY, "THRESH_BINARY_INV" := THRESH_BINARY_INV,
        "THRESH_TRUNC" := THRESH_TRUNC, "THRESH_TOZERO" := THRESH_TOZERO,
        "THRESH_TOZERO_INV" := THRESH_TOZERO_INV]
  const BorderMap: map<string, int> :=
    map["BORDER_DEFAULT" := BORDER_DEFAULT, "BORDER_CONSTANT" := BORDER_CONSTANT,
        "BORDER_REPLICATE" := BORDER_REPLICATE]
  const ShapeMap: map<string, int> :=
    map["MORPH_RECT" := MORPH_RECT, "MORPH_CROSS" := MORPH_CROSS, "MORPH_ELLIPSE" := MORPH_ELLIPSE]
  const LineMap: map<string, int> :=
    map["LINE_4" := LINE_4, "LINE_8" := LINE_8, "LINE_AA" := LINE_AA]

  // ---------------------------------------------------------------------
  // Parameter resolution

  /** The arguments an operation's OpenCV calls receive. */
  datatype OpConfig =
    | ThresholdCfg(threshold: int, maxValue: int, thresholdType: int)
    | BlurCfg(kernelSize: int, sigmaX: real, sigmaY: real, border: int)
    | MorphCfg(dilate: bool, kernelSize: int, iterations: int, shape: int, anchorX: PyValue, anchorY: PyValue)
    | CannyCfg(threshold1: int, threshold2: int, apertureSize: int, l2gradient: PyValue)
    | RectangleCfg(x: int, y: int, farX: int, farY: int, color: PyValue, thickness: int, lineType: int)
    | CircleCfg(x: int, y: int, radius: int, color: PyValue, thickness: int, lineType: int)
    | LineCfg(x1: int, y1: int, x2: int, y2: int, color: PyValue, thickness: int, lineType: int)

  function IntList(a: int, b: int, c: int): PyValue {
    PyList([PyInt(a), PyInt(b), PyInt(c)])
  }

  /** The threshold type: the named method (THRESH_BINARY when unknown) with
      the Otsu bit when `useOtsu` is truthy. */
  function WithOtsu(base: int, useOtsu: PyValue): (t: int)
    requires 0 <= base < THRESH_OTSU
    ensures PyTruthy(useOtsu) <==> t >= THRESH_OTSU
    ensures t % THRESH_OTSU == base
  {
    if PyTruthy(useOtsu) then base + THRESH_OTSU else base
  }

  /** The blur kernel adjustment: even sizes are bumped to the next odd one. */
  function OddKernel(k: int): (r: int)
    ensures r % 2 == 1
    ensures k % 2 == 1 ==> r == k
    ensures k % 2 == 0 ==> r == k + 1
  {
    if k % 2 == 0 then k + 1 else k
  }

  /** `-1 if filled else thickness` */
  function DrawThickness(filled: PyValue, thickness: int): (r: int)
    ensures PyTruthy(filled) ==> r == -1
    ensures !PyTruthy(filled) ==> r == thickness
  {
    if PyTruthy(filled) then -1 else thickness
  }

  const SupportedTypes: set<string> :=
    {"binary", "blur", "erode", "dilate", "edge", "draw-rect", "draw-circle", "draw-line"}

  /** The `binary` branch. */
  function ThresholdConfig(p: map<string, PyValue>): (r: Result<OpConfig, Raised>)
    ensures r.Success? ==> r.value.ThresholdCfg?
                           && (PyTruthy(DictGet(p, "useOtsu", PyBool(false))) <==> r.value.thresholdType >= THRESH_OTSU)
    ensures var threshold, maxValue := ToInt(DictGet(p, "threshold", PyInt(128))), ToInt(DictGet(p, "maxValue", PyInt(255)));
            var methodName, useOtsu := DictGet(p, "method", PyStr("THRESH_BINARY")), DictGet(p, "useOtsu", PyBool(false));
      && (r.Success? <==> threshold.Success? && maxValue.Success? && Hashable(methodName))
      && (r.Success? ==>
            r.value == ThresholdCfg(threshold.value, maxValue.value,
                                    Named(MethodMap, methodName, THRESH_BINARY) + (if PyTruthy(useOtsu) then THRESH_OTSU else 0)))
    ensures r.Failure? ==> !r.error.HttpError?
  {
    var threshold :- ToInt(DictGet(p, "threshold", PyInt(128)));
    var maxValue :- ToInt(DictGet(p, "maxValue", PyInt(255)));
    var methodName := DictGet(p, "method", PyStr("THRESH_BINARY"));
    var useOtsu := DictGet(p, "useOtsu", PyBool(false));
    var base :- EnumLookup(MethodMap, methodName, THRESH_BINARY);
    Success(ThresholdCfg(threshold, maxValue, WithOtsu(base, useOtsu)))
  }

  /** The `blur` branch. */
  function BlurConfig(p: map<string, PyValue>): (r: Result<OpConfig, Raised>)
    ensures r.Success? ==> r.value.BlurCfg? && r.value.kernelSize % 2 == 1
    ensures var kernelSize := ToInt(DictGet(p, "kernelSize", PyInt(5)));
            var sigmaX, sigmaY := ToFloat(DictGet(p, "sigmaX", PyInt(0))), ToFloat(DictGet(p, "sigmaY", PyInt(0)));
            var borderType := DictGet(p, "borderType", PyStr("BORDER_DEFAULT"));
      && (r.Success? <==> kernelSize.Success? && sigmaX.Success? && sigmaY.Success? && Hashable(borderType))
      && (r.Success? ==>
            r.value == BlurCfg(OddKernel(kernelSize.value), sigmaX.value, sigmaY.value,
                               Named(BorderMap, borderType, BORDER_DEFAULT)))
    ensures r.Failure? ==> !r.error.HttpError?
  {
    var kernelSize :- ToInt(DictGet(p, "kernelSize", PyInt(5)));
    var sigmaX :- ToFloat(DictGet(p, "sigmaX", PyInt(0)));
    var sigmaY :- ToFloat(DictGet(p, "sigmaY", PyInt(0)));
    var borderType := DictGet(p, "borderType", PyStr("BORDER_DEFAULT"));
    var border :- EnumLookup(BorderMap, borderType, BORDER_DEFAULT);
    Success(BlurCfg(OddKernel(kernelSize), sigmaX, sigmaY, border))
  }

  /** The `erode` and `dilate` branches: `anchor["x"]` and `anchor["y"]`
      are read after the kernel is built. */
  function MorphConfig(dilate: bool, p: map<string, PyValue>): (r: Result<OpConfig, Raised>)
    ensures r.Success? ==> r.value.MorphCfg? && r.value.dilate == dilate
    ensures var kernelSize, iterations := ToInt(DictGet(p, "kernelSize", PyInt(3))), ToInt(DictGet(p, "iterations", PyInt(1)));
            var kernelShape := DictGet(p, "kernelShape", PyStr("MORPH_RECT"));
            var anchor := DictGet(p, "anchor", PyDict(map["x" := PyInt(-1), "y" := PyInt(-1)]));
            var ax, ay := Subscript(anchor, "x"), Subscript(anchor, "y");
      && (r.Success? <==> kernelSize.Success? && iterations.Success? && Hashable(kernelShape)
                          && ax.Success? && ay.Success?)
      && (r.Success? ==>
            r.value == MorphCfg(dilate, kernelSize.value, iterations.value,
                                Named(ShapeMap, kernelShape, MORPH_RECT), ax.value, ay.value))
    ensures "anchor" in p && !p["anchor"].PyDict? ==> r.Failure?
    ensures r.Failure? ==> !r.error.HttpError?
  {
    var kernelSize :- ToInt(DictGet(p, "kernelSize", PyInt(3)));
    var iterations :- ToInt(DictGet(p, "iterations", PyInt(1)));
    var kernelShape := DictGet(p, "kernelShape", PyStr("MORPH_RECT"));
    var anchor := DictGet(p, "anchor", PyDict(map["x" := PyInt(-1), "y" := PyInt(-1)]));
    var shape :- EnumLookup(ShapeMap, kernelShape, MORPH_RECT);
    var ax :- Subscript(anchor, "x");
    var ay :- Subscript(anchor, "y");
    Success(MorphCfg(dilate, kernelSize, iterations, shape, ax, ay))
  }

  /** The `edge` branch. */
  function CannyConfig(p: map<string, PyValue>): (r: Result<OpConfig, Raised>)
    ensures r.Success? ==> r.value.CannyCfg? && r.value.l2gradient == DictGet(p, "l2gradient", PyBool(false))
    ensures var threshold1, threshold2 := ToInt(DictGet(p, "threshold1", PyInt(100))), ToInt(DictGet(p, "threshold2", PyInt(200)));
            var apertureSize := ToInt(DictGet(p, "apertureSize", PyInt(3)));
      && (r.Success? <==> threshold1.Success? && threshold2.Success? && apertureSize.Success?)
      && (r.Success? ==>
            r.value == CannyCfg(threshold1.value, threshold2.value, apertureSize.value,
                                DictGet(p, "l2gradient", PyBool(false))))
    ensures r.Failure? ==> !r.error.HttpError?
  {
    var threshold1 :- ToInt(DictGet(p, "threshold1", PyInt(100)));
    var threshold2 :- ToInt(DictGet(p, "threshold2", PyInt(200)));
    var apertureSize :- ToInt(DictGet(p, "apertureSize", PyInt(3)));
    var l2gradient := DictGet(p, "l2gradient", PyBool(false));
    Success(CannyCfg(threshold1, threshold2, apertureSize, l2gradient))
  }

  /** The `draw-rect` branch: the far corner is (x + width, y + height). */
  function RectangleConfig(p: map<string, PyValue>): (r: Result<OpConfig, Raised>)
    ensures var x, y := ToInt(DictGet(p, "x", PyInt(0))), ToInt(DictGet(p, "y", PyInt(0)));
            var width, height := ToInt(DictGet(p, "width", PyInt(100))), ToInt(DictGet(p, "height", PyInt(100)));
            var thickness := ToInt(DictGet(p, "thickness", PyInt(2)));
            var lineType := DictGet(p, "lineType", PyStr("LINE_8"));
      && (r.Success? <==> x.Success? && y.Success? && width.Success? && height.Success? && thickness.Success?
                          && Hashable(lineType))
      && (r.Success? ==>
            r.value == RectangleCfg(x.value, y.value, x.value + width.value, y.value + height.value,
                                    DictGet(p, "color", IntList(255, 0, 0)),
                                    DrawThickness(DictGet(p, "filled", PyBool(false)), thickness.value),
                                    Named(LineMap, lineType, LINE_8)))
    ensures r.Failure? ==> !r.error.HttpError?
  {
    var x :- ToInt(DictGet(p, "x", PyInt(0)));
    var y :- ToInt(DictGet(p, "y", PyInt(0)));
    var width :- ToInt(DictGet(p, "width", PyInt(100)));
    var height :- ToInt(DictGet(p, "height", PyInt(100)));
    var color := DictGet(p, "color", IntList(255, 0, 0));
    var thickness :- ToInt(DictGet(p, "thickness", PyInt(2)));
    var lineType := DictGet(p, "lineType", PyStr("LINE_8"));
    var filled := DictGet(p, "filled", PyBool(false));
    var line :- EnumLookup(LineMap, lineType, LINE_8);
    Success(RectangleCfg(x, y, x + width, y + height, color, DrawThickness(filled, thickness), line))
  }

  /** The `draw-circle` branch. */
  function CircleConfig(p: map<string, PyValue>): (r: Result<OpConfig, Raised>)
    ensures var x, y := ToInt(DictGet(p, "x", PyInt(50))), ToInt(DictGet(p, "y", PyInt(50)));
            var radius, thickness := ToInt(DictGet(p, "radius", PyInt(25))), ToInt(DictGet(p, "thickness", PyInt(2)));
            var lineType := DictGet(p, "lineType", PyStr("LINE_8"));
      && (r.Success? <==> x.Success? && y.Success? && radius.Success? && thickness.Success? && Hashable(lineType))
      && (r.Success? ==>
            r.value == CircleCfg(x.value, y.value, radius.value, DictGet(p, "color", IntList(0, 255, 0)),
                                 DrawThickness(DictGet(p, "filled", PyBool(false)), thickness.value),
                                 Named(LineMap, lineType, LINE_8)))
    ensures r.Failure? ==> !r.error.HttpError?
  {
    var x :- ToInt(DictGet(p, "x", PyInt(50)));
    var y :- ToInt(DictGet(p, "y", PyInt(50)));
    var radius :- ToInt(DictGet(p, "radius", PyInt(25)));
    var color := DictGet(p, "color", IntList(0, 255, 0));
    var thickness :- ToInt(DictGet(p, "thickness", PyInt(2)));
    var lineType := DictGet(p, "lineType", PyStr("LINE_8"));
    var filled := DictGet(p, "filled", PyBool(false));
    var line :- EnumLookup(LineMap, lineType, LINE_8);
    Success(CircleCfg(x, y, radius, color, DrawThickness(filled, thickness), line))
  }

  /** The `draw-line` branch; it has no `filled` parameter. */
  function LineConfig(p: map<string, PyValue>): (r: Result<OpConfig, Raised>)
    ensures var x1, y1 := ToInt(DictGet(p, "x1", PyInt(0))), ToInt(DictGet(p, "y1", PyInt(0)));
            var x2, y2 := ToInt(DictGet(p, "x2", PyInt(100))), ToInt(DictGet(p, "y2", PyInt(100)));
            var thickness := ToInt(DictGet(p, "thickness", PyInt(2)));
            var lineType := DictGet(p, "lineType", PyStr("LINE_8"));
      && (r.Success? <==> x1.Success? && y1.Success? && x2.Success? && y2.Success? && thickness.Success?
                          && Hashable(lineType))
      && (r.Success? ==>
            r.value == LineCfg(x1.value, y1.value, x2.value, y2.value, DictGet(p, "color", IntList(0, 0, 255)),
                               thickness.value, Named(LineMap, lineType, LINE_8)))
    ensures r.Failure? ==> !r.error.HttpError?
  {
    var x1 :- ToInt(DictGet(p, "x1", PyInt(0)));
    var y1 :- ToInt(DictGet(p, "y1", PyInt(0)));
    var x2 :- ToInt(DictGet(p, "x2", PyInt(100)));
    var y2 :- ToInt(DictGet(p, "y2", PyInt(100)));
    var color := DictGet(p, "color", IntList(0, 0, 255));
    var thickness :- ToInt(DictGet(p, "thickness", PyInt(2)));
    var lineType := DictGet(p, "lineType", PyStr("LINE_8"));
    var line :- EnumLookup(LineMap, lineType, LINE_8);
    Success(LineCfg(x1, y1, x2, y2, color, thickness, line))
  }

  /** The dispatch of `process_image` on the request type, up to the OpenCV
      calls: each parameter is read with its default and converted in
      source order, and the first conversion that raises ends the request. */
  function ResolveParams(kind: string, p: map<string, PyValue>): (r: Result<OpConfig, Raised>)
    ensures kind !in SupportedTypes <==> r == Failure(HttpError(400, "不支持的处理类型: " + kind))
    ensures kind == "binary" ==> r == ThresholdConfig(p)
    ensures kind == "blur" ==> r == BlurConfig(p)
    ensures kind == "erode" ==> r == MorphConfig(false, p)
    ensures kind == "dilate" ==> r == MorphConfig(true, p)
    ensures kind == "edge" ==> r == CannyConfig(p)
    ensures kind == "draw-rect" ==> r == RectangleConfig(p)
    ensures kind == "draw-circle" ==> r == CircleConfig(p)
    ensures kind == "draw-line" ==> r == LineConfig(p)
    ensures r.Failure? && kind in SupportedTypes ==> !r.error.HttpError?
  {
    if kind == "binary" then ThresholdConfig(p)
    else if kind == "blur" then BlurConfig(p)
    else if kind == "erode" then MorphConfig(false, p)
    else if kind == "dilate" then MorphConfig(true, p)
    else if kind == "edge" then CannyConfig(p)
    else if kind == "draw-rect" then RectangleConfig(p)
    else if kind == "draw-circle" then CircleConfig(p)
    else if kind == "draw-line" then LineConfig(p)
    else Failure(HttpError(400, "不支持的处理类型: " + kind))
  }

  // ---------------------------------------------------------------------
  // Image transport

  const PngDataUriPrefix: string := "data:image/png;base64,"

  /** `s.split(',')[1]` when s contains a comma, s otherwise: the text
      between the first comma and the next one (or the end). */
  function StripHeader(s: string): (r: string)
    ensures ',' !in s ==> r == s
    ensures ',' in s ==> ',' !in r
    ensures ',' in s ==> exists i :: 0 <= i < |s| && s[i] == ',' && ',' !in s[..i]
                                     && r <= s[i + 1..]
                                     && (r == s[i + 1..] || (|r| < |s[i + 1..]| && s[i + 1 + |r|] == ','))
  {
    match IndexOf(s, ',')
    case None => s
    case Some(i) =>
      var rest := s[i + 1..];
      match IndexOf(rest, ',')
      case None => rest
      case Some(j) => rest[..j]
  }

  /** `base64_to_cv2`: empty input is a 400 error; otherwise the header is
      stripped and the payload handed to the decoder, whose ValueError
      message also becomes a 400 error. */
  function Base64ToCv2<Img>(s: string, decode: string -> Result<Img, string>): (r: Result<Img, Raised>)
    ensures s == "" ==> r == Failure(HttpError(400, "图像数据为空"))
    ensures s != "" ==> (r.Success? <==> decode(StripHeader(s)).Success?)
    ensures s != "" && r.Success? ==> r.value == decode(StripHeader(s)).value
    ensures r.Failure? ==> r.error.HttpError? && r.error.status == 400
  {
    if s == "" then Failure(HttpError(400, "图像数据为空"))
    else match decode(StripHeader(s))
      case Success(img) => Success(img)
      case Failure(message) => Failure(HttpError(400, message))
  }

  /** `cv2_to_base64`: the encoder's base64 text behind the PNG data-URI
      prefix, or a 400 error with the encoder's message. */
  function Cv2ToBase64<Img>(img: Img, encode: Img -> Result<string, string>): (r: Result<string, Raised>)
    ensures r.Success? ==> StartsWith(r.value, PngDataUriPrefix)
    ensures r.Success? <==> encode(img).Success?
    ensures r.Success? ==> r.value == PngDataUriPrefix + encode(img).value
    ensures r.Failure? ==> r.error == HttpError(400, encode(img).error)
  {
    match encode(img)
    case Success(b64) =>
      assert (PngDataUriPrefix + b64)[..|PngDataUriPrefix|] == PngDataUriPrefix;
      Success(PngDataUriPrefix + b64)
    case Failure(message) => Failure(HttpError(400, message))
  }

  /** Stripping the header of an encoded result gives back the base64 text. */
  lemma StripRecoversPayload(payload: string)
    requires ',' !in payload
    ensures StripHeader(PngDataUriPrefix + payload) == payload
  {
    var s := PngDataUriPrefix + payload;
    assert s[21] == ',';
    assert ',' !in s[..21];
    assert s[22..] == payload;
  }

  // ---------------------------------------------------------------------
  // The handler

  datatype ImageRequest = ImageRequest(kind: string, image: string, params: map<string, PyValue>)

  datatype Response = Ok(result: string) | Error(status: int, detail: string)

  /** The outer `except` clauses: a ValueError is a 400 with its message;
      anything else, HTTPExceptions included, is a 500. */
  function Reply(e: Raised): (r: Response)
    ensures e.ValueError? ==> r == Error(400, e.message)
    ensures !e.ValueError? ==> r == Error(500, "图像处理失败: " + ExceptionText(e))
  {
    if e.ValueError? then Error(400, e.message) else Error(500, "图像处理失败: " + ExceptionText(e))
  }

  /** The body of the `try` in `process_image`. `operate` stands for the
      OpenCV calls of the chosen branch, failing with the text of a
      cv2.error. */
  function Handle<Img>(req: ImageRequest, decode: string -> Result<Img, string>,
                       operate: (OpConfig, Img) -> Result<Img, string>,
                       encode: Img -> Result<string, string>): (r: Result<string, Raised>)
    ensures req.kind == "" ==> r == Failure(HttpError(400, "未指定处理类型"))
    ensures req.kind != "" && req.image == "" ==> r == Failure(HttpError(400, "未提供图像数据"))
    ensures req.kind != "" && req.image != "" ==>
      var img := Base64ToCv2(req.image, decode);
      && (img.Failure? ==> r == Failure(img.error))
      && (img.Success? ==>
            var config := ResolveParams(req.kind, req.params);
            && (config.Failure? ==> r == Failure(config.error))
            && (config.Success? ==>
                  var out := operate(config.value, img.value);
                  && (out.Failure? ==> r == Failure(TypeError(out.error)))
                  && (out.Success? ==> r == Cv2ToBase64(out.value, encode))))
  {
    if req.kind == "" then Failure(HttpError(400, "未指定处理类型"))
    else if req.image == "" then Failure(HttpError(400, "未提供图像数据"))
    else
      var img :- Base64ToCv2(req.image, decode);
      var config :- ResolveParams(req.kind, req.params);
      var result :- match operate(config, img) {
        case Success(out) => Success(out)
        case Failure(message) => Failure(TypeError(message))
      };
      Cv2ToBase64(result, encode)
  }

  /** `process_image`: `{"result": ...}` or the HTTP error it raises. */
  function ProcessImage<Img>(req: ImageRequest, decode: string -> Result<Img, string>,
                             operate: (OpConfig, Img) -> Result<Img, string>,
                             encode: Img -> Result<string, string>): (r: Response)
    ensures r.Error? ==> r.status == 400 || r.status == 500
    ensures r.Ok? ==> StartsWith(r.result, PngDataUriPrefix)
    ensures r.Ok? <==>
      && req.kind != "" && req.image != ""
      && decode(StripHeader(req.image)).Success?
      && ResolveParams(req.kind, req.params).Success?
      && operate(ResolveParams(req.kind, req.params).value, decode(StripHeader(req.image)).value).Success?
      && encode(operate(ResolveParams(req.kind, req.params).value, decode(StripHeader(req.image)).value).value).Success?
    ensures r.Ok? ==>
      r.result == PngDataUriPrefix
                  + encode(operate(ResolveParams(req.kind, req.params).value, decode(StripHeader(req.image)).value).value).value
  {
    match Handle(req, decode, operate, encode)
    case Success(b64) => Ok(b64)
    case Failure(e) => Reply(e)
  }

  lemma Decimal400()
    ensures IntToDecimal(400) == "400"
  {
    assert NatToDecimal(400) == NatToDecimal(40) + [DigitChar(0)];
    assert NatToDecimal(40) == NatToDecimal(4) + [DigitChar(0)];
  }

  /** A request without a type or without an image is refused with an
      HTTPException(400) that the outer handler turns into a 500. */
  lemma MissingFieldsAre500<Img>(req: ImageRequest, decode: string -> Result<Img, string>,
                                 operate: (OpConfig, Img) -> Result<Img, string>,
                                 encode: Img -> Result<string, string>)
    ensures req.kind == "" ==>
      ProcessImage(req, decode, operate, encode) == Error(500, "图像处理失败: 400: 未指定处理类型")
    ensures req.kind != "" && req.image == "" ==>
      ProcessImage(req, decode, operate, encode) == Error(500, "图像处理失败: 400: 未提供图像数据")
  {
    if req.kind == "" {
      StageFailureText(req, decode, operate, encode, "未指定处理类型");
    } else if req.image == "" {
      StageFailureText(req, decode, operate, encode, "未提供图像数据");
    }
  }

  /** A request that names a type and an image fails as a 500 when the
      image does not decode, when the OpenCV calls fail, or when the result
      does not encode; the message is the codec's or OpenCV's. */
  lemma StageFailuresAre500<Img>(req: ImageRequest, decode: string -> Result<Img, string>,
                                 operate: (OpConfig, Img) -> Result<Img, string>,
                                 encode: Img -> Result<string, string>)
    requires req.kind != "" && req.image != ""
    ensures var img := decode(StripHeader(req.image));
      && (img.Failure? ==>
            ProcessImage(req, decode, operate, encode) == Error(500, "图像处理失败: 400: " + img.error))
      && (img.Success? && ResolveParams(req.kind, req.params).Success? ==>
            var out := operate(ResolveParams(req.kind, req.params).value, img.value);
            && (out.Failure? ==>
                  ProcessImage(req, decode, operate, encode) == Error(500, "图像处理失败: " + out.error))
            && (out.Success? && encode(out.value).Failure? ==>
                  ProcessImage(req, decode, operate, encode)
                  == Error(500, "图像处理失败: 400: " + encode(out.value).error)))
  {
    Decimal400();
    var img := decode(StripHeader(req.image));
    if img.Failure? {
      StageFailureText(req, decode, operate, encode, img.error);
    } else if ResolveParams(req.kind, req.params).Success? {
      var out := operate(ResolveParams(req.kind, req.params).value, img.value);
      if out.Success? && encode(out.value).Failure? {
        StageFailureText(req, decode, operate, encode, encode(out.value).error);
      }
    }
  }

  /** A 400 HTTPException raised inside the handler reaches the client as a
      500 whose detail embeds the status. */
  lemma StageFailureText<Img>(req: ImageRequest, decode: string -> Result<Img, string>,
                              operate: (OpConfig, Img) -> Result<Img, string>,
                              encode: Img -> Result<string, string>, message: string)
    requires Handle(req, decode, operate, encode) == Failure(HttpError(400, message))
    ensures ProcessImage(req, decode, operate, encode) == Error(500, "图像处理失败: 400: " + message)
  {
    Decimal400();
    assert ExceptionText(HttpError(400, message)) == "400: " + message;
  }

  /** A decodable image with a type the server does not implement is
      refused, again as a 500. */
  lemma UnsupportedTypeIs500<Img>(req: ImageRequest, decode: string -> Result<Img, string>,
                                  operate: (OpConfig, Img) -> Result<Img, string>,
                                  encode: Img -> Result<string, string>)
    requires req.kind != "" && req.image != "" && decode(StripHeader(req.image)).Success?
    requires req.kind !in SupportedTypes
    ensures ProcessImage(req, decode, operate, encode)
            == Error(500, "图像处理失败: 400: " + ("不支持的处理类型: " + req.kind))
  {
    UnsupportedTypeRaised(req, decode, operate, encode);
    StageFailureText(req, decode, operate, encode, "不支持的处理类型: " + req.kind);
  }

  lemma UnsupportedTypeRaised<Img>(req: ImageRequest, decode: string -> Result<Img, string>,
                                   operate: (OpConfig, Img) -> Result<Img, string>,
                                   encode: Img -> Result<string, string>)
    requires req.kind != "" && req.image != "" && decode(StripHeader(req.image)).Success?
    requires req.kind !in SupportedTypes
    ensures Handle(req, decode, operate, encode) == Failure(HttpError(400, "不支持的处理类型: " + req.kind))
  {
    assert Base64ToCv2(req.image, decode).Success?;
  }

  /** A 400 reaches the client only for a ValueError, which only `int(...)`
      and `float(...)` of a malformed string raise. */
  lemma BadRequestMeansValueError<Img>(req: ImageRequest, decode: string -> Result<Img, string>,
                                      operate: (OpConfig, Img) -> Result<Img, string>,
                                      encode: Img -> Result<string, string>)
    ensures ProcessImage(req, decode, operate, encode).Error? &&
            ProcessImage(req, decode, operate, encode).status == 400 <==>
      Handle(req, decode, operate, encode).Failure? && Handle(req, decode, operate, encode).error.ValueError?
  {
  }

  /** Absent parameters take the handler's defaults. */
  lemma AbsentParametersDefault()
    ensures ThresholdConfig(map[]) == Success(ThresholdCfg(128, 255, THRESH_BINARY))
    ensures BlurConfig(map[]) == Success(BlurCfg(5, 0.0, 0.0, BORDER_DEFAULT))
    ensures MorphConfig(false, map[]) == Success(MorphCfg(false, 3, 1, MORPH_RECT, PyInt(-1), PyInt(-1)))
    ensures CannyConfig(map[]) == Success(CannyCfg(100, 200, 3, PyBool(false)))
    ensures RectangleConfig(map[]) == Success(RectangleCfg(0, 0, 100, 100, IntList(255, 0, 0), 2, LINE_8))
    ensures CircleConfig(map[]) == Success(CircleCfg(50, 50, 25, IntList(0, 255, 0), 2, LINE_8))
    ensures LineConfig(map[]) == Success(LineCfg(0, 0, 100, 100, IntList(0, 0, 255), 2, LINE_8))
  {
  }
}
