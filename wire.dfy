/**
 * The exchange between the front end and the image server: the request
 * body `processImage` posts (src/utils/imageProcessing.ts) is serialised
 * with JSON.stringify, validated against the server's request model
 * (backend/main.py), handled, and the response turned back into a result
 * or a thrown Error by the client.
 */
module Wire {

  import opened Wrappers
  import opened JsValues
  import opened ImageProcessing
  import opened Backend
  import opened ProcessNode

  /** A JavaScript number as the server's validator reads it: integral
      numbers become ints, others floats; NaN and the infinities are
      serialised as null. */
  function NumberToPy(v: JsValue): (r: PyValue)
    requires v.Num? || v.NaN? || v.Infinity?
    ensures v.Num? && v.n == v.n.Floor as real ==> r == PyInt(v.n.Floor)
    ensures v.Num? && v.n != v.n.Floor as real ==> r == PyFloat(v.n)
    ensures !v.Num? ==> r == PyNone
  {
    if v.Num? then (if v.n == v.n.Floor as real then PyInt(v.n.Floor) else PyFloat(v.n))
    else PyNone
  }

  predicate IsIntegral(v: JsValue) {
    v.Num? && v.n == v.n.Floor as real
  }

  /** A scalar or integer-list parameter value; objects and any other
      arrays fail. */
  function ScalarParam(v: JsValue): (r: Option<PyValue>)
    ensures v.Obj? || v.Undefined? ==> r.None?
    ensures v.Str? ==> r == Some(PyStr(v.s))
    ensures v.Bool? ==> r == Some(PyBool(v.b))
    ensures v.Null? || v.NaN? || v.Infinity? ==> r == Some(PyNone)
    ensures v.Num? ==> r == Some(NumberToPy(v))
    ensures v.Arr? ==> (r.Some? <==> forall i :: 0 <= i < |v.elems| ==> IsIntegral(v.elems[i]))
    ensures v.Arr? && r.Some? ==>
      && r.value.PyList? && |r.value.elems| == |v.elems|
      && forall i :: 0 <= i < |v.elems| ==> r.value.elems[i] == PyInt(v.elems[i].n.Floor)
  {
    match v
    case Undefined => None
    case Null => Some(PyNone)
    case Bool(b) => Some(PyBool(b))
    case Num(_) => Some(NumberToPy(v))
    case NaN => Some(PyNone)
    case Infinity(_) => Some(PyNone)
    case Str(s) => Some(PyStr(s))
    case Arr(es) =>
      if forall i :: 0 <= i < |es| ==> IsIntegral(es[i])
      then Some(PyList(seq(|es|, i requires 0 <= i < |es| => PyInt(es[i].n.Floor))))
      else None
    case Obj(_) => None
  }

  /** `params: Dict[str, Union[int, float, str, List[int], bool, None]]`
      as written: a request is accepted only when every sent value is a
      scalar or an integer list. Keys whose value is undefined are not
      serialised. */
  function ParamsAsWritten(m: map<string, JsValue>): (r: Option<map<string, PyValue>>)
    ensures r.Some? <==> forall k :: k in m && m[k] != Undefined ==> ScalarParam(m[k]).Some?
    ensures r.Some? ==> r.value.Keys == Defined(m).Keys
  {
    if forall k :: k in m && m[k] != Undefined ==> ScalarParam(m[k]).Some?
    then Some(map k | k in m && m[k] != Undefined :: ScalarParam(m[k]).value)
    else None
  }

  /** A parameter value when records of scalars are also accepted. */
  function NestedParam(v: JsValue): (r: Option<PyValue>)
    ensures !v.Obj? ==> r == ScalarParam(v)
    ensures v.Obj? ==> (r.Some? <==> forall k :: k in v.props && v.props[k] != Undefined ==> ScalarParam(v.props[k]).Some?)
    ensures v.Obj? && r.Some? ==> r.value.PyDict?
                                  && forall k :: k in r.value.entries <==> k in v.props && v.props[k] != Undefined
    ensures v.Obj? && r.Some? ==>
      forall k :: k in r.value.entries ==> r.value.entries[k] == ScalarParam(v.props[k]).value
  {
    if v.Obj? then
      match ParamsAsWritten(v.props)
      case Some(m) => Some(PyDict(m))
      case None => None
    else ScalarParam(v)
  }

  /** The request model with the record parameters the front end sends
      (the erode and dilate anchor) admitted. */
  function Params(m: map<string, JsValue>): (r: Option<map<string, PyValue>>)
    ensures r.Some? <==> forall k :: k in m && m[k] != Undefined ==> NestedParam(m[k]).Some?
    ensures r.Some? ==> forall k :: k in r.value <==> k in m && m[k] != Undefined
    ensures r.Some? ==> forall k :: k in r.value ==> r.value[k] == NestedParam(m[k]).value
  {
    if forall k :: k in m && m[k] != Undefined ==> NestedParam(m[k]).Some?
    then Some(map k | k in m && m[k] != Undefined :: NestedParam(m[k]).value)
    else None
  }

  /** Every request the as-written model accepts is accepted unchanged by
      the corrected one. */
  lemma ParamsExtendsAsWritten(m: map<string, JsValue>)
    requires ParamsAsWritten(m).Some?
    ensures Params(m) == ParamsAsWritten(m)
  {
    forall k | k in m && m[k] != Undefined
      ensures NestedParam(m[k]) == ScalarParam(m[k])
    {
      assert !m[k].Obj?;
    }
    assert Params(m).Some?;
    assert Params(m).value == ParamsAsWritten(m).value;
  }

  /** The body as the server sees it: `type` and `image` must be strings. */
  function Validate(req: Request, accept: map<string, JsValue> -> Option<map<string, PyValue>>): (r: Option<ImageRequest>)
    ensures r.Some? <==> req.kind.Str? && accept(req.params).Some?
    ensures r.Some? ==> r.value.kind == req.kind.s && r.value.image == req.image
                        && r.value.params == accept(req.params).value
  {
    if req.kind.Str? && accept(req.params).Some?
    then Some(ImageRequest(req.kind.s, req.image, accept(req.params).value))
    else None
  }

  /** The client's reading of a response: `data.result`, or an Error with
      the response's `detail` (or `服务器错误: status` if that is empty). */
  function ClientOutcome(resp: Response): (o: Outcome)
    ensures resp.Ok? <==> o.Done?
    ensures resp.Ok? ==> o.value == Str(resp.result)
    ensures resp.Error? && resp.detail != "" ==> o == Thrown(JsError(resp.detail))
    ensures resp.Error? && resp.detail == "" ==> o == Thrown(JsError("服务器错误: " + IntToDecimal(resp.status)))
  {
    match resp
    case Ok(result) => Done(Str(result))
    case Error(status, detail) =>
      Thrown(JsError(if detail != "" then detail else "服务器错误: " + IntToDecimal(status)))
  }

  /** One round trip to the server. A body that fails validation gets a 422
      whose detail is a list, so the client throws an Error with the text
      `rejected` stands for. */
  function Exchange<Img>(accept: map<string, JsValue> -> Option<map<string, PyValue>>, rejected: string,
                         decode: string -> Result<Img, string>,
                         operate: (OpConfig, Img) -> Result<Img, string>,
                         encode: Img -> Result<string, string>): (r: Request -> Outcome)
    ensures forall req :: Validate(req, accept).None? ==> r(req) == Thrown(JsError(rejected))
    ensures forall req :: Validate(req, accept).Some? ==>
      r(req) == ClientOutcome(Backend.ProcessImage(Validate(req, accept).value, decode, operate, encode))
  {
    (req: Request) =>
      match Validate(req, accept)
      case None => Thrown(JsError(rejected))
      case Some(r) => ClientOutcome(Backend.ProcessImage(r, decode, operate, encode))
  }

  /** The server as written. */
  function ServerAsWritten<Img>(rejected: string, decode: string -> Result<Img, string>,
                                operate: (OpConfig, Img) -> Result<Img, string>,
                                encode: Img -> Result<string, string>): Request -> Outcome
  {
    Exchange(ParamsAsWritten, rejected, decode, operate, encode)
  }

  /** The server with the corrected request model. */
  function Server<Img>(rejected: string, decode: string -> Result<Img, string>,
                       operate: (OpConfig, Img) -> Result<Img, string>,
                       encode: Img -> Result<string, string>): Request -> Outcome
  {
    Exchange(Params, rejected, decode, operate, encode)
  }

  // ---------------------------------------------------------------------
  // The image travels intact

  /** The server strips exactly the header the client adds. */
  lemma ServerSeesClientPayload(imageData: string)
    requires ',' !in imageData && !StartsWith(imageData, "data:")
    ensures StripHeader(Prefixed(imageData)) == imageData
  {
    assert Prefixed(imageData) == PngDataUriPrefix + imageData;
    StripRecoversPayload(imageData);
  }

  /** A result the server returns is already a data URI, so sending it on to
      the next node does not prefix it again, and the server strips it back to
      the encoder's text. */
  lemma ResultsChainUnchanged(b64: string)
    requires ',' !in b64
    ensures Prefixed(PngDataUriPrefix + b64) == PngDataUriPrefix + b64
    ensures StripHeader(Prefixed(PngDataUriPrefix + b64)) == b64
  {
    assert (PngDataUriPrefix + b64)[..5] == "data:";
    StripRecoversPayload(b64);
  }

  // ---------------------------------------------------------------------
  // The erode and dilate defaults

  const AnchorRecord: map<string, JsValue> := map["x" := Num(-1.0), "y" := Num(-1.0)]

  const MorphDefaults: map<string, JsValue> :=
    map["kernelSize" := Num(3.0), "iterations" := Num(1.0), "kernelShape" := Str("MORPH_RECT"),
        "anchor" := Obj(AnchorRecord)]

  /** An erode or dilate node's initial record. */
  lemma MorphDefaultsInitial(kind: string)
    requires kind == "erode" || kind == "dilate"
    ensures ParamsMap(DefaultParams(Str(kind))) == MorphDefaults
  {
    assert ToStr(Str(kind)) == kind;
  }

  /** The initial record is sent as it is. */
  lemma MorphDefaultsSent()
    ensures SentParams(MorphDefaults) == MorphDefaults
  {
    SentParamsUnchanged(MorphDefaults);
  }

  /** As written, the server's request model refuses the anchor record, so
      an erode or dilate node with its initial parameters never reaches the
      handler: every call throws. */
  lemma MorphDefaultsRefusedAsWritten<Img>(kind: string, imageData: string, rejected: string,
                                           decode: string -> Result<Img, string>,
                                           operate: (OpConfig, Img) -> Result<Img, string>,
                                           encode: Img -> Result<string, string>)
    requires kind == "erode" || kind == "dilate"
    ensures Call(Str(kind), Str(imageData), DefaultParams(Str(kind)),
                 ServerAsWritten(rejected, decode, operate, encode)).0 == Thrown(JsError(rejected))
  {
    MorphDefaultsInitial(kind);
    MorphDefaultsSent();
    var req := RequestFor(Str(kind), imageData, MorphDefaults);
    assert req.params == MorphDefaults;
    AnchorRefusedAsWritten();
    RefusedBodyThrows(ParamsAsWritten, rejected, decode, operate, encode, req);
  }

  lemma AnchorRefusedAsWritten()
    ensures ParamsAsWritten(MorphDefaults).None?
  {
    assert ScalarParam(MorphDefaults["anchor"]).None?;
  }

  /** A body the request model refuses never reaches the handler. */
  lemma RefusedBodyThrows<Img>(accept: map<string, JsValue> -> Option<map<string, PyValue>>, rejected: string,
                               decode: string -> Result<Img, string>,
                               operate: (OpConfig, Img) -> Result<Img, string>,
                               encode: Img -> Result<string, string>, req: Request)
    requires accept(req.params).None?
    ensures Exchange(accept, rejected, decode, operate, encode)(req) == Thrown(JsError(rejected))
  {
  }

  const AnchorDefault: PyValue := PyDict(map["x" := PyInt(-1), "y" := PyInt(-1)])

  const ValidatedMorphDefaults: map<string, PyValue> :=
    map["kernelSize" := PyInt(3), "iterations" := PyInt(1), "kernelShape" := PyStr("MORPH_RECT"),
        "anchor" := AnchorDefault]

  lemma AnchorValidated()
    ensures NestedParam(Obj(AnchorRecord)) == Some(AnchorDefault)
  {
    assert NumberToPy(Num(-1.0)) == PyInt(-1) by { assert (-1.0).Floor == -1; }
    ScalarsPointwise(AnchorRecord, map["x" := PyInt(-1), "y" := PyInt(-1)]);
  }

  /** The as-written model validates entry by entry. */
  lemma ScalarsPointwise(m: map<string, JsValue>, v: map<string, PyValue>)
    requires m.Keys == v.Keys
    requires forall k :: k in m ==> m[k] != Undefined && ScalarParam(m[k]) == Some(v[k])
    ensures ParamsAsWritten(m) == Some(v)
  {
    assert ParamsAsWritten(m).Some?;
    var p := ParamsAsWritten(m).value;
    assert p.Keys == v.Keys;
    assert forall k :: k in p ==> p[k] == v[k];
    assert p == v;
  }

  /** Params validates entry by entry. */
  lemma ParamsPointwise(m: map<string, JsValue>, v: map<string, PyValue>)
    requires m.Keys == v.Keys
    requires forall k :: k in m ==> m[k] != Undefined && NestedParam(m[k]) == Some(v[k])
    ensures Params(m) == Some(v)
  {
    assert Params(m).Some?;
    var p := Params(m).value;
    assert p.Keys == v.Keys;
    assert forall k :: k in p ==> p[k] == v[k];
    assert p == v;
  }

  lemma MorphDefaultsValidated()
    ensures Params(MorphDefaults) == Some(ValidatedMorphDefaults)
  {
    AnchorValidated();
    assert NestedParam(Num(3.0)) == Some(PyInt(3)) by { assert (3.0).Floor == 3; }
    assert NestedParam(Num(1.0)) == Some(PyInt(1)) by { assert (1.0).Floor == 1; }
    assert NestedParam(Str("MORPH_RECT")) == Some(PyStr("MORPH_RECT"));
    forall k | k in MorphDefaults
      ensures MorphDefaults[k] != Undefined && NestedParam(MorphDefaults[k]) == Some(ValidatedMorphDefaults[k])
    {
      if k == "anchor" {
        assert MorphDefaults[k] == Obj(AnchorRecord);
      }
    }
    ParamsPointwise(MorphDefaults, ValidatedMorphDefaults);
  }

  lemma MorphDefaultsConfigured(dilate: bool)
    ensures MorphConfig(dilate, ValidatedMorphDefaults)
            == Success(MorphCfg(dilate, 3, 1, MORPH_RECT, PyInt(-1), PyInt(-1)))
  {
  }

  /** With the corrected request model the same request is resolved with
      the kernel the node shows and the anchor (-1, -1). */
  lemma MorphDefaultsResolved(kind: string, imageData: string)
    requires kind == "erode" || kind == "dilate"
    ensures var req := Validate(RequestFor(Str(kind), imageData, ParamsMap(DefaultParams(Str(kind)))), Params);
      && req.Some?
      && ResolveParams(kind, req.value.params)
         == Success(MorphCfg(kind == "dilate", 3, 1, MORPH_RECT, PyInt(-1), PyInt(-1)))
  {
    MorphDefaultsInitial(kind);
    MorphRequestValidated(kind, imageData);
    MorphDefaultsDispatched(kind);
  }

  /** The request an erode or dilate node sends passes the corrected model. */
  lemma MorphRequestValidated(kind: string, imageData: string)
    ensures Validate(RequestFor(Str(kind), imageData, MorphDefaults), Params)
            == Some(ImageRequest(kind, Prefixed(imageData), ValidatedMorphDefaults))
  {
    MorphDefaultsSent();
    MorphDefaultsValidated();
    SentRequestValidated(kind, imageData, MorphDefaults);
  }

  lemma MorphDefaultsDispatched(kind: string)
    requires kind == "erode" || kind == "dilate"
    ensures ResolveParams(kind, ValidatedMorphDefaults)
            == Success(MorphCfg(kind == "dilate", 3, 1, MORPH_RECT, PyInt(-1), PyInt(-1)))
  {
    MorphDefaultsConfigured(kind == "dilate");
    if kind == "erode" {
      assert ResolveParams(kind, ValidatedMorphDefaults) == MorphConfig(false, ValidatedMorphDefaults);
    } else {
      assert ResolveParams(kind, ValidatedMorphDefaults) == MorphConfig(true, ValidatedMorphDefaults);
    }
  }

  // ---------------------------------------------------------------------
  // Operations only the front end knows

  /** Kinds a node posts that the server has no branch for. */
  const FrontEndOnly: set<string> :=
    {"grayscale", "blank", "contour", "mask", "invert-mask", "multiply", "screen", "overlay", "blend"}

  lemma FrontEndOnlyUnsupported(kind: string)
    requires kind in FrontEndOnly
    ensures kind !in SupportedTypes
  {
  }

  /** Posting a front-end-only kind with a decodable image throws the
      server's "unsupported type" message, wrapped as a 500. */
  lemma FrontEndOnlyKindsThrow<Img>(kind: string, imageData: string, params: map<string, JsValue>,
                                    rejected: string,
                                    decode: string -> Result<Img, string>,
                                    operate: (OpConfig, Img) -> Result<Img, string>,
                                    encode: Img -> Result<string, string>)
    requires kind in FrontEndOnly
    requires Params(SentParams(params)).Some?
    requires decode(StripHeader(Prefixed(imageData))).Success?
    ensures Server(rejected, decode, operate, encode)(RequestFor(Str(kind), imageData, params))
            == Thrown(JsError("图像处理失败: 400: " + ("不支持的处理类型: " + kind)))
  {
    var req := RequestFor(Str(kind), imageData, params);
    var r := ImageRequest(kind, Prefixed(imageData), Params(SentParams(params)).value);
    var detail := "图像处理失败: 400: " + ("不支持的处理类型: " + kind);
    SentRequestValidated(kind, imageData, params);
    assert |r.image| >= 5;
    FrontEndOnlyUnsupported(kind);
    UnsupportedTypeIs500(r, decode, operate, encode);
    ErrorReplyThrown(rejected, decode, operate, encode, req, r, detail);
  }

  /** A validated request the handler answers with an error throws the
      error's detail. */
  lemma ErrorReplyThrown<Img>(rejected: string, decode: string -> Result<Img, string>,
                              operate: (OpConfig, Img) -> Result<Img, string>,
                              encode: Img -> Result<string, string>,
                              req: Request, r: ImageRequest, detail: string)
    requires Validate(req, Params) == Some(r) && detail != ""
    requires Backend.ProcessImage(r, decode, operate, encode) == Error(500, detail)
    ensures Server(rejected, decode, operate, encode)(req) == Thrown(JsError(detail))
  {
    AcceptedBodyHandled(Params, rejected, decode, operate, encode, req);
    ServerErrorThrown(500, detail);
  }

  /** An error response with a detail throws that detail. */
  lemma ServerErrorThrown(status: int, detail: string)
    requires detail != ""
    ensures ClientOutcome(Error(status, detail)) == Thrown(JsError(detail))
  {
  }

  /** What the server reads from a request the corrected model accepts. */
  lemma SentRequestValidated(kind: string, imageData: string, params: map<string, JsValue>)
    requires Params(SentParams(params)).Some?
    ensures Validate(RequestFor(Str(kind), imageData, params), Params)
            == Some(ImageRequest(kind, Prefixed(imageData), Params(SentParams(params)).value))
  {
  }

  /** A body the request model accepts is answered by the handler. */
  lemma AcceptedBodyHandled<Img>(accept: map<string, JsValue> -> Option<map<string, PyValue>>, rejected: string,
                                 decode: string -> Result<Img, string>,
                                 operate: (OpConfig, Img) -> Result<Img, string>,
                                 encode: Img -> Result<string, string>, req: Request)
    requires Validate(req, accept).Some?
    ensures Exchange(accept, rejected, decode, operate, encode)(req)
            == ClientOutcome(Backend.ProcessImage(Validate(req, accept).value, decode, operate, encode))
  {
  }
}
