/**
 * The front end's shared data store (src/store/imageStore.ts): per-node
 * results, the current edge list, the preview switch and per-node parameter
 * records. Each setter replaces one field of the store and leaves the
 * others as they were.
 */
module ImageStore {

  import opened Wrappers
  import opened JsValues
  import opened Graph

  /** What `setData` stores: a bare string becomes `{ image: data }`, any
      other value is stored as given. */
  function Wrapped(data: JsValue): (r: JsValue)
    ensures data.Str? ==> r.Obj? && r.props == map["image" := data]
    ensures !data.Str? ==> r == data
  {
    if data.Str? then Obj(map["image" := data]) else data
  }

  /** Does edge e feed the given input (primary or secondary) of node `target`? */
  predicate Feeds(e: Edge, target: string, secondary: bool) {
    e.target == target && (e.targetHandle == Str("secondary")) == secondary
  }

  /** `edges.find(...)`: the first edge feeding the given input of `target`. */
  function FindEdge(edges: seq<Edge>, target: string, secondary: bool): (r: Option<nat>)
    ensures r.Some? ==> r.value < |edges| && Feeds(edges[r.value], target, secondary)
    ensures r.Some? ==> forall k :: 0 <= k < r.value ==> !Feeds(edges[k], target, secondary)
    ensures r.None? ==> forall k :: 0 <= k < |edges| ==> !Feeds(edges[k], target, secondary)
  {
    if edges == [] then None
    else if Feeds(edges[0], target, secondary) then Some(0)
    else match FindEdge(edges[1..], target, secondary)
      case None => None
      case Some(k) => Some(k + 1)
  }

  /** The primary and the secondary lookups never pick the same edge, and
      every edge into a node is a candidate for exactly one of them. */
  lemma {:induction false} HandlesPartitionEdges(edges: seq<Edge>, target: string)
    ensures FindEdge(edges, target, false).Some? && FindEdge(edges, target, true).Some? ==>
              FindEdge(edges, target, false).value != FindEdge(edges, target, true).value
    ensures forall k :: 0 <= k < |edges| && edges[k].target == target ==>
              Feeds(edges[k], target, false) != Feeds(edges[k], target, true)
    ensures (FindEdge(edges, target, false).None? && FindEdge(edges, target, true).None?) <==>
              forall k :: 0 <= k < |edges| ==> edges[k].target != target
  {
    var p := FindEdge(edges, target, false);
    var q := FindEdge(edges, target, true);
    if p.None? && q.None? {
      forall k | 0 <= k < |edges| ensures edges[k].target != target {
        assert !Feeds(edges[k], target, false) && !Feeds(edges[k], target, true);
      }
    }
  }

  class DataStore {

    var dataDict: map<string, JsValue>
    var edges: seq<Edge>
    var showNodesPreview: bool
    var nodeParams: map<string, JsValue>

    /** The store's initial state: no results, no edges, previews shown. */
    constructor ()
      ensures dataDict == map[] && edges == [] && showNodesPreview && nodeParams == map[]
    {
      dataDict := map[];
      edges := [];
      showNodesPreview := true;
      nodeParams := map[];
    }

    /** `setData(nodeId, data)` */
    method SetData(nodeId: string, data: JsValue)
      modifies this
      ensures dataDict == old(dataDict)[nodeId := Wrapped(data)]
      ensures edges == old(edges) && showNodesPreview == old(showNodesPreview) && nodeParams == old(nodeParams)
      ensures GetData(nodeId, true) == Wrapped(data)
      ensures forall k :: k != nodeId ==> GetData(k, true) == old(GetData(k, true))
    {
      dataDict := dataDict[nodeId := Wrapped(data)];
    }

    /** `getData(nodeId, ignorePreviewSetting)`: undefined while previews are
        hidden, unless the caller ignores the switch. */
    function GetData(nodeId: string, ignorePreviewSetting: bool): (r: JsValue)
      reads this
      ensures !ignorePreviewSetting && !showNodesPreview ==> r == Undefined
      ensures ignorePreviewSetting || showNodesPreview ==>
                r == (if nodeId in dataDict then dataDict[nodeId] else Undefined)
    {
      if ignorePreviewSetting || showNodesPreview then Lookup(dataDict, nodeId) else Undefined
    }

    /** `setEdges(edges)` */
    method SetEdges(newEdges: seq<Edge>)
      modifies this
      ensures edges == newEdges
      ensures dataDict == old(dataDict) && showNodesPreview == old(showNodesPreview) && nodeParams == old(nodeParams)
    {
      edges := newEdges;
    }

    /** The result stored for the source of the first edge feeding the given
        input of `nodeId`, or undefined. */
    function ConnectedData(nodeId: string, secondary: bool, ignorePreviewSetting: bool): (r: JsValue)
      reads this
      ensures !ignorePreviewSetting && !showNodesPreview ==> r == Undefined
      ensures (forall k :: 0 <= k < |edges| ==> !Feeds(edges[k], nodeId, secondary)) ==> r == Undefined
      ensures r != Undefined ==>
        exists k :: 0 <= k < |edges| && Feeds(edges[k], nodeId, secondary)
                    && (forall k2 :: 0 <= k2 < k ==> !Feeds(edges[k2], nodeId, secondary))
                    && edges[k].source in dataDict && r == dataDict[edges[k].source]
      ensures ignorePreviewSetting || showNodesPreview ==>
        forall k :: 0 <= k < |edges| && Feeds(edges[k], nodeId, secondary)
                    && (forall k2 :: 0 <= k2 < k ==> !Feeds(edges[k2], nodeId, secondary))
                    ==> r == Lookup(dataDict, edges[k].source)
    {
      if !ignorePreviewSetting && !showNodesPreview then Undefined
      else match FindEdge(edges, nodeId, secondary)
        case None => Undefined
        case Some(k) => Lookup(dataDict, edges[k].source)
    }

    /** `getConnectedNodeSourceData`: follows the first edge into the node
        whose targetHandle is not 'secondary'. */
    function GetConnectedNodeSourceData(nodeId: string, ignorePreviewSetting: bool): (r: JsValue)
      reads this
      ensures r == ConnectedData(nodeId, false, ignorePreviewSetting)
      ensures ignorePreviewSetting || showNodesPreview ==>
        forall k :: 0 <= k < |edges| && Feeds(edges[k], nodeId, false)
                    && (forall k2 :: 0 <= k2 < k ==> !Feeds(edges[k2], nodeId, false))
                    ==> r == Lookup(dataDict, edges[k].source)
    {
      ConnectedData(nodeId, false, ignorePreviewSetting)
    }

    /** `getConnectedNodeSecondaryData`: follows the first edge into the node
        whose targetHandle is 'secondary'. */
    function GetConnectedNodeSecondaryData(nodeId: string, ignorePreviewSetting: bool): (r: JsValue)
      reads this
      ensures r == ConnectedData(nodeId, true, ignorePreviewSetting)
      ensures ignorePreviewSetting || showNodesPreview ==>
        forall k :: 0 <= k < |edges| && Feeds(edges[k], nodeId, true)
                    && (forall k2 :: 0 <= k2 < k ==> !Feeds(edges[k2], nodeId, true))
                    ==> r == Lookup(dataDict, edges[k].source)
    {
      ConnectedData(nodeId, true, ignorePreviewSetting)
    }

    /** `toggleNodesPreview()` */
    method ToggleNodesPreview()
      modifies this
      ensures showNodesPreview == !old(showNodesPreview)
      ensures dataDict == old(dataDict) && edges == old(edges) && nodeParams == old(nodeParams)
    {
      showNodesPreview := !showNodesPreview;
    }

    /** `setNodeParams(nodeId, params)` */
    method SetNodeParams(nodeId: string, params: JsValue)
      modifies this
      ensures nodeParams == old(nodeParams)[nodeId := params]
      ensures dataDict == old(dataDict) && edges == old(edges) && showNodesPreview == old(showNodesPreview)
      ensures GetNodeParams(nodeId) == params
      ensures forall k :: k != nodeId ==> GetNodeParams(k) == old(GetNodeParams(k))
    {
      nodeParams := nodeParams[nodeId := params];
    }

    /** `getNodeParams(nodeId)` */
    function GetNodeParams(nodeId: string): (r: JsValue)
      reads this
      ensures nodeId in nodeParams ==> r == nodeParams[nodeId]
      ensures nodeId !in nodeParams ==> r == Undefined
    {
      Lookup(nodeParams, nodeId)
    }
  }

  /** Toggling the preview switch twice restores the store. */
  method ToggleTwice(store: DataStore)
    modifies store
    ensures store.showNodesPreview == old(store.showNodesPreview)
    ensures store.dataDict == old(store.dataDict) && store.edges == old(store.edges)
    ensures store.nodeParams == old(store.nodeParams)
  {
    store.ToggleNodesPreview();
    store.ToggleNodesPreview();
  }
}
