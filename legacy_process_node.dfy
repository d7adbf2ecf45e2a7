/**
 * The older processing node (src/components/ProcessNode.tsx). A run is
 * guarded by an in-flight flag and by a memo of the image and parameters
 * of the last successful run; the node's image is set through a store API
 * (`setImage`) that src/store/imageStore.ts does not provide, so the model
 * keeps the last value the node passed to it.
 *
 * The asynchronous call is split in two steps: `BeginRun` (the checks and
 * setting the flag) and `CompleteRun` (recording the outcome and clearing
 * the flag), so that a second request arriving in between is modelled.
 */
module LegacyProcessNode {

  import opened Wrappers
  import opened JsValues
  import opened Graph
  import opened ProcessNode

  /** `JSON.stringify(a) === JSON.stringify(b)`, taken as structural equality. */
  predicate SameJson(a: JsValue, b: JsValue) {
    a == b
  }

  class LegacyNode {

    const id: string
    const nodeType: JsValue
    /** `processingRef.current` */
    var processing: bool
    /** `lastProcessedImageRef.current` */
    var lastImage: JsValue
    /** `lastProcessedParamsRef.current` */
    var lastParams: JsValue
    /** The last value passed to `setImage(id, ...)`, if any. */
    var image: Option<JsValue>
    /** The input image and parameters the run in flight started with. */
    var runImage: JsValue
    var runParams: JsValue

    constructor (id: string, nodeType: JsValue)
      ensures this.id == id && this.nodeType == nodeType
      ensures !processing && lastImage == Undefined && lastParams == Undefined && image == None
      ensures runImage == Undefined && runParams == Undefined
    {
      this.id := id;
      this.nodeType := nodeType;
      processing := false;
      lastImage := Undefined;
      lastParams := Undefined;
      image := None;
      runImage := Undefined;
      runParams := Undefined;
    }

    /** `nodeParams?.[data.type]` */
    function CurrentParams(nodeParams: JsValue): JsValue {
      OptGet(nodeParams, ToStr(nodeType))
    }

    /** Would a run with these inputs repeat the last successful one? */
    predicate Memoised(inputImage: JsValue, currentParams: JsValue)
      reads this
    {
      inputImage == lastImage && SameJson(currentParams, lastParams)
    }

    /** The start of `processAndUpdateImage`: nothing happens while a run is
        in flight, without an input image, or when image and parameters equal
        those of the last successful run; otherwise the flag is set. */
    method BeginRun(inputImage: JsValue, nodeParams: JsValue) returns (started: bool)
      modifies this
      ensures started <==> !old(processing) && Truthy(inputImage)
                           && !old(Memoised(inputImage, CurrentParams(nodeParams)))
      ensures started ==> processing && runImage == inputImage && runParams == CurrentParams(nodeParams)
      ensures !started ==> processing == old(processing) && runImage == old(runImage) && runParams == old(runParams)
      ensures lastImage == old(lastImage) && lastParams == old(lastParams) && image == old(image)
    {
      if processing {
        return false;
      }
      var currentParams := CurrentParams(nodeParams);
      if !Truthy(inputImage) || Memoised(inputImage, currentParams) {
        return false;
      }
      processing := true;
      runImage, runParams := inputImage, currentParams;
      return true;
    }

    /** The end of a started run: on success the memo records the image and
        parameters the run started with, and the result is shown; on failure
        the image becomes ''. The flag is cleared either way. */
    method CompleteRun(outcome: Outcome)
      requires processing
      modifies this
      ensures !processing && runImage == old(runImage) && runParams == old(runParams)
      ensures outcome.Done? ==>
                lastImage == runImage && lastParams == runParams && image == Some(outcome.value)
      ensures outcome.Thrown? ==>
                lastImage == old(lastImage) && lastParams == old(lastParams) && image == Some(Str(""))
    {
      match outcome {
        case Done(processedImage) =>
          lastImage := runImage;
          lastParams := runParams;
          image := Some(processedImage);
        case Thrown(_) =>
          image := Some(Str(""));
      }
      processing := false;
    }

    /** The edge effect: without an incoming edge the image is cleared and no
        run is scheduled; otherwise a run is scheduled. */
    method OnEdges(edges: seq<Edge>) returns (scheduled: bool)
      modifies this
      ensures scheduled <==> exists e :: e in edges && e.target == id
      ensures !scheduled ==> image == Some(Str(""))
      ensures scheduled ==> image == old(image)
      ensures processing == old(processing) && lastImage == old(lastImage) && lastParams == old(lastParams)
      ensures runImage == old(runImage) && runParams == old(runParams)
    {
      scheduled := HasInput(edges, id);
      if !scheduled {
        image := Some(Str(""));
      }
    }
  }

  /** `edges.some(edge => edge.target === id)` */
  function HasInput(edges: seq<Edge>, id: string): (r: bool)
    ensures r <==> exists e :: e in edges && e.target == id
  {
    if edges == [] then false
    else edges[0].target == id || HasInput(edges[1..], id)
  }

  /** A request arriving while a run is in flight is ignored. */
  method OverlappingRunIgnored(n: LegacyNode, inputImage: JsValue, nodeParams: JsValue)
    returns (first: bool, second: bool)
    modifies n
    ensures first ==> !second
  {
    first := n.BeginRun(inputImage, nodeParams);
    second := n.BeginRun(inputImage, nodeParams);
  }

  /** After a successful run, the same image and parameters do not start
      another run; after a failed one they do. */
  method RerunAfterOutcome(n: LegacyNode, inputImage: JsValue, nodeParams: JsValue, outcome: Outcome)
    returns (rerun: bool)
    requires !n.processing && Truthy(inputImage)
    requires !n.Memoised(inputImage, n.CurrentParams(nodeParams))
    modifies n
    ensures outcome.Done? <==> !rerun
  {
    var started := n.BeginRun(inputImage, nodeParams);
    n.CompleteRun(outcome);
    rerun := n.BeginRun(inputImage, nodeParams);
  }
}
