/**
 * Request preparation in the front end's image-processing client
 * (src/utils/imageProcessing.ts): the image is turned into a data URI and
 * the parameters are normalised before they are posted to the server. The
 * HTTP exchange itself is not modelled.
 */
module ImageProcessing {

  import opened JsValues

  const DataUriPrefix: string := "data:image/png;base64,"

  /** `imageData.startsWith('data:') ? imageData : 'data:image/png;base64,' + imageData` */
  function Prefixed(imageData: string): (r: string)
    ensures StartsWith(r, "data:")
    ensures StartsWith(imageData, "data:") ==> r == imageData
    ensures !StartsWith(imageData, "data:") ==> r == DataUriPrefix + imageData
  {
    if StartsWith(imageData, "data:") then imageData
    else
      assert (DataUriPrefix + imageData)[..5] == "data:";
      DataUriPrefix + imageData
  }

  /** Prefixing twice is prefixing once. */
  lemma PrefixedIdempotent(imageData: string)
    ensures Prefixed(Prefixed(imageData)) == Prefixed(imageData)
  {
  }

  /** The parameters the client coerces with `Number(...)`. */
  const NumericKeys: set<string> :=
    {"threshold", "kernelSize", "iterations", "threshold1", "threshold2",
     "x", "y", "width", "height", "radius", "x1", "y1", "x2", "y2"}

  /** The `send_params` object literal: the caller's parameters with every
      numeric key replaced by `Number(v)` when v is truthy and by undefined
      otherwise (including when it was absent). */
  function Spread(params: map<string, JsValue>): (m: map<string, JsValue>)
    ensures m.Keys == params.Keys + NumericKeys
  {
    map k | k in params.Keys + NumericKeys ::
      if k in NumericKeys then
        (if Truthy(Lookup(params, k)) then ToNumber(Lookup(params, k)) else Undefined)
      else params[k]
  }

  /** The parameters that are sent. */
  ghost predicate SentParamsSpec(params: map<string, JsValue>, sent: map<string, JsValue>) {
    // no key is sent with the value undefined
    && (forall k :: k in sent ==> sent[k] != Undefined)
    // a numeric key is sent exactly when it was truthy, as Number(v)
    && (forall k :: k in NumericKeys ==>
          (k in sent <==> k in params && Truthy(params[k])) &&
          (k in sent ==> sent[k] == ToNumber(params[k])))
    // any other key is sent unchanged exactly when its value is not undefined
    && (forall k :: k !in NumericKeys ==>
          (k in sent <==> k in params && params[k] != Undefined) &&
          (k in sent ==> sent[k] == params[k]))
  }

  /** The `for ... in` loop that deletes every key whose value is undefined. */
  method DropUndefined(m: map<string, JsValue>) returns (r: map<string, JsValue>)
    ensures r == Defined(m)
  {
    r := m;
    var keys := m.Keys;
    while keys != {}
      invariant keys <= m.Keys
      invariant forall k :: k in r <==> k in m && (k in keys || m[k] != Undefined)
      invariant forall k :: k in r ==> r[k] == m[k]
      decreases |keys|
    {
      var k :| k in keys;
      if r[k] == Undefined {
        r := r - {k};
      }
      keys := keys - {k};
    }
    assert r.Keys == Defined(m).Keys;
  }

  /** The entries of m whose value is not undefined. */
  function Defined(m: map<string, JsValue>): map<string, JsValue> {
    map k | k in m && m[k] != Undefined :: m[k]
  }

  /** What the loop leaves of the spread object. */
  function SentParams(params: map<string, JsValue>): map<string, JsValue> {
    Defined(Spread(params))
  }

  /** The sent parameters meet their description. */
  lemma SentParamsMeetSpec(params: map<string, JsValue>)
    ensures SentParamsSpec(params, SentParams(params))
  {
    var spread := Spread(params);
    assert SentParams(params) == Defined(spread);
    forall k | k in NumericKeys
      ensures (k in SentParams(params) <==> k in params && Truthy(params[k]))
    {
      assert k in spread;
      if Truthy(Lookup(params, k)) {
        assert ToNumber(Lookup(params, k)) != Undefined;
      }
    }
  }

  /** Parameters whose numeric entries are already non-zero numbers, and
      which hold no undefined value, are sent unchanged. */
  lemma SentParamsUnchanged(params: map<string, JsValue>)
    requires forall k :: k in params ==> params[k] != Undefined
    requires forall k :: k in params && k in NumericKeys ==> params[k].Num? && params[k].n != 0.0
    ensures SentParams(params) == params
  {
    var sent := SentParams(params);
    SentParamsMeetSpec(params);
    forall k | k in NumericKeys
      ensures k in sent <==> k in params
    {
    }
    assert sent.Keys == params.Keys;
  }

  /** A request body: `{ type, image, params }`. */
  datatype Request = Request(kind: JsValue, image: string, params: map<string, JsValue>)

  function RequestFor(kind: JsValue, imageData: string, params: map<string, JsValue>): Request {
    Request(kind, Prefixed(imageData), SentParams(params))
  }

  /** The posted body carries the type unchanged, the image as a data URI
      (a data URI already is one), and exactly the parameters that are sent. */
  lemma RequestForSpec(kind: JsValue, imageData: string, params: map<string, JsValue>)
    ensures var r := RequestFor(kind, imageData, params);
      && r.kind == kind
      && StartsWith(r.image, "data:")
      && (StartsWith(imageData, "data:") ==> r.image == imageData)
      && SentParamsSpec(params, r.params)
  {
    SentParamsMeetSpec(params);
  }

  /** `processImage(type, imageData, params)` up to the request it posts. */
  method ProcessImageRequest(kind: JsValue, imageData: string, params: map<string, JsValue>)
    returns (req: Request)
    ensures req == RequestFor(kind, imageData, params)
    ensures req.kind == kind && req.image == Prefixed(imageData)
    ensures SentParamsSpec(params, req.params)
  {
    var base64Image := Prefixed(imageData);
    var sendParams := DropUndefined(Spread(params));
    req := Request(kind, base64Image, sendParams);
    SentParamsMeetSpec(params);
  }
}
