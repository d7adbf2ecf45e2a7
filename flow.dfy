/**
 * The flow editor's node bookkeeping (src/components/Flow.tsx): the
 * module-level id counter, node creation on drop and on programmatic add,
 * and loading a flow file. The file loads through store setters
 * (`setStoreEdges`, `setImage`, `setNodeParams`) of a store hook that
 * src/store/imageStore.ts does not export; the model keeps what is passed
 * to them. Node positions and the UI notices are left out, except for the
 * load notice, which is returned.
 */
module Flow {

  import opened Wrappers
  import opened JsValues
  import opened Graph
  import opened FlowUtils

  /** Every id parses to an integer below `bound`. */
  predicate IdsBelow(nodes: seq<Node>, bound: real) {
    forall i :: 0 <= i < |nodes| ==> ParseInt(nodes[i].id).Num? && ParseInt(nodes[i].id).n < bound
  }

  predicate DistinctIds(nodes: seq<Node>) {
    forall i, j :: 0 <= i < j < |nodes| ==> nodes[i].id != nodes[j].id
  }

  /** Every id parses to a number. */
  predicate NumericIds(nodes: seq<Node>) {
    forall i :: 0 <= i < |nodes| ==> ParseInt(nodes[i].id).Num?
  }

  predicate IntegralCounter(counter: JsValue) {
    counter.Num? && counter.n == counter.n.Floor as real
  }

  /** `parseInt(node.id)` for every node. */
  function ParsedIds(nodes: seq<Node>): (r: seq<JsValue>)
    ensures |r| == |nodes|
    ensures forall i :: 0 <= i < |r| ==> r[i] == ParseInt(nodes[i].id)
  {
    seq(|nodes|, i requires 0 <= i < |nodes| => ParseInt(nodes[i].id))
  }

  /** `Math.max(...xs)` over parseInt results: -Infinity for no argument,
      NaN if any argument is NaN, the largest argument otherwise. */
  function MathMax(xs: seq<JsValue>): (r: JsValue)
    requires forall i :: 0 <= i < |xs| ==> xs[i].Num? || xs[i].NaN?
    ensures xs == [] ==> r == Infinity(true)
    ensures (exists i :: 0 <= i < |xs| && xs[i].NaN?) ==> r == NaN
    ensures xs != [] && (forall i :: 0 <= i < |xs| ==> xs[i].Num?) ==>
              && r.Num?
              && (forall i :: 0 <= i < |xs| ==> xs[i].n <= r.n)
              && (exists i :: 0 <= i < |xs| && xs[i].n == r.n)
  {
    if xs == [] then Infinity(true)
    else
      var rest := MathMax(xs[1..]);
      assert forall i :: 1 <= i < |xs| ==> xs[i] == xs[1..][i - 1];
      if xs[0].NaN? || rest.NaN? then NaN
      else if rest.Infinity? then xs[0]
      else if xs[0].n >= rest.n then xs[0]
      else rest
  }

  /** The counter after loading these nodes: `Math.max(...ids) + 1`. */
  function CounterAfterLoad(nodes: seq<Node>): (r: JsValue)
    ensures nodes == [] ==> r == Infinity(true)
    ensures (exists i :: 0 <= i < |nodes| && ParseInt(nodes[i].id).NaN?) ==> r == NaN
  {
    var m := MathMax(ParsedIds(nodes));
    if m.Num? then Num(m.n + 1.0) else m
  }

  /** After a load of numeric ids, the counter is an integer above each of
      them. */
  lemma CounterExceedsLoadedIds(nodes: seq<Node>)
    requires nodes != []
    requires NumericIds(nodes)
    ensures IntegralCounter(CounterAfterLoad(nodes))
    ensures IdsBelow(nodes, CounterAfterLoad(nodes).n)
  {
    var xs := ParsedIds(nodes);
    assert forall i :: 0 <= i < |xs| ==> xs[i].Num?;
    var m := MathMax(xs);
    var k :| 0 <= k < |xs| && xs[k].n == m.n;
    assert xs[k] == ParseInt(nodes[k].id);
    assert m.n == m.n.Floor as real;
    var c := Num(m.n + 1.0);
    assert CounterAfterLoad(nodes) == c;
    assert (m.n + 1.0).Floor == m.n.Floor + 1;
    forall i | 0 <= i < |nodes| ensures ParseInt(nodes[i].id).Num? && ParseInt(nodes[i].id).n < c.n {
      assert xs[i] == ParseInt(nodes[i].id);
    }
  }

  /** Distinct integer counter values print as distinct ids. */
  lemma CounterIdsDistinct(a: int, b: int)
    requires a != b
    ensures ToStr(Num(a as real)) != ToStr(Num(b as real))
  {
    ParseIntOfInteger(a);
    ParseIntOfInteger(b);
  }

  /** The id of a created node parses back to the counter that produced it. */
  lemma CounterIdParses(counter: JsValue)
    requires IntegralCounter(counter)
    ensures ParseInt(ToStr(counter)) == counter
  {
    ParseIntOfInteger(counter.n.Floor);
    assert counter == Num(counter.n.Floor as real);
  }

  /** A loaded document: the node and edge lists and the two records the
      load restores. */
  datatype LoadedFlow = LoadedFlow(nodes: seq<Node>, edges: seq<Edge>, images: JsValue, nodeParams: JsValue)

  /** A document written by `saveFlow`, read back: its results are under
      `data_dict`, so `images` is absent. */
  function Reloaded(doc: FlowData): LoadedFlow {
    LoadedFlow(doc.nodes, doc.edges, Undefined, Obj(doc.nodeParams))
  }

  /** `Object.entries(v)` as a record; undefined and null throw. */
  function Entries(v: JsValue): (r: Result<map<string, JsValue>, string>)
    ensures r.Failure? <==> v == Undefined || v == Null
    ensures v.Obj? ==> r == Success(v.props)
  {
    if v == Undefined || v == Null then Failure("Cannot convert undefined or null to object")
    else if v.Obj? then Success(v.props)
    else Success(map[])
  }

  const LoadedNotice: string := "加载成功"
  const LoadFailedPrefix: string := "加载失败: "

  class Editor {

    /** The module-level `id`. */
    var counter: JsValue
    var nodes: seq<Node>
    var edges: seq<Edge>
    /** What was last passed to `setStoreEdges`. */
    var storeEdges: seq<Edge>
    /** The records built by `setImage` and `setNodeParams` calls. */
    var restoredImages: map<string, JsValue>
    var restoredParams: map<string, JsValue>

    /** Fresh ids do not collide: the counter is an integer above every
        node's parsed id, and ids are distinct. */
    predicate Valid()
      reads this`counter, this`nodes
    {
      IntegralCounter(counter) && IdsBelow(nodes, counter.n) && DistinctIds(nodes)
    }

    constructor ()
      ensures counter == Num(1.0) && nodes == [] && edges == [] && storeEdges == []
      ensures restoredImages == map[] && restoredParams == map[]
      ensures Valid()
    {
      counter := Num(1.0);
      nodes := [];
      edges := [];
      storeEdges := [];
      restoredImages := map[];
      restoredParams := map[];
    }

    /** `getId()`: the counter as a string, then the counter plus one. */
    method GetId() returns (newId: string)
      modifies this
      ensures newId == ToStr(old(counter)) && counter == Plus(old(counter), Num(1.0))
      ensures IntegralCounter(old(counter)) ==>
                IntegralCounter(counter) && counter.n == old(counter).n + 1.0 && ParseInt(newId) == old(counter)
      ensures nodes == old(nodes) && edges == old(edges) && storeEdges == old(storeEdges)
      ensures restoredImages == old(restoredImages) && restoredParams == old(restoredParams)
    {
      newId := ToStr(counter);
      if IntegralCounter(counter) {
        CounterIdParses(counter);
        assert (counter.n + 1.0).Floor == counter.n.Floor + 1;
      }
      counter := Plus(counter, Num(1.0));
    }

    /** Takes an id and appends a node built around it (`setNodes(nds =>
        nds.concat(newNode))`); a fresh id keeps the editor valid. */
    method AddNode(node: Node)
      requires node.id == ToStr(counter)
      modifies this
      ensures nodes == old(nodes) + [node]
      ensures counter == Plus(old(counter), Num(1.0))
      ensures edges == old(edges) && storeEdges == old(storeEdges)
      ensures restoredImages == old(restoredImages) && restoredParams == old(restoredParams)
      ensures old(Valid()) ==> Valid()
    {
      var valid := Valid();
      var newId := GetId();
      if valid {
        CounterIdParses(old(counter));
        forall i | 0 <= i < |nodes|
          ensures nodes[i].id != node.id
        {
          assert ParseInt(nodes[i].id).n < old(counter).n;
        }
      }
      nodes := nodes + [node];
    }

    /** `onDrop`: with a ready instance and dragged data, parse the data and
        append one node whose id, data id and kind come from it. A parse
        error throws before any id is taken; a `null` payload takes an id
        and then throws when its `type` is read, so no node is added. */
    method OnDrop(instanceReady: bool, nodeData: string, parse: string -> Result<JsValue, string>)
      returns (thrown: bool)
      modifies this
      ensures var appended := instanceReady && nodeData != "" && parse(nodeData).Success?
                              && parse(nodeData).value != Null;
        thrown <==> instanceReady && nodeData != "" && !appended
      ensures !(instanceReady && nodeData != "" && parse(nodeData).Success?) ==>
                nodes == old(nodes) && counter == old(counter)
      ensures instanceReady && nodeData != "" && parse(nodeData) == Success(Null) ==>
                nodes == old(nodes) && counter == Plus(old(counter), Num(1.0))
      ensures instanceReady && nodeData != "" && parse(nodeData).Success? && parse(nodeData).value != Null ==>
                var node := parse(nodeData).value;
                var nodeId := ToStr(old(counter));
                && counter == Plus(old(counter), Num(1.0))
                && nodes == old(nodes) + [Node(nodeId, Get(node, "type"),
                                              NodeData(nodeId, Get(node, "label"), Get(node, "type"), Get(node, "type")))]
      ensures old(Valid()) ==> Valid()
      ensures edges == old(edges) && storeEdges == old(storeEdges)
      ensures restoredImages == old(restoredImages) && restoredParams == old(restoredParams)
    {
      if !instanceReady || nodeData == "" {
        return false;
      }
      match parse(nodeData) {
        case Failure(_) =>
          return true;
        case Success(node) =>
          if node == Null {
            var valid := Valid();
            var unusedId := GetId();
            if valid {
              forall i | 0 <= i < |nodes|
                ensures ParseInt(nodes[i].id).n < counter.n
              {
                assert ParseInt(nodes[i].id).n < old(counter).n;
              }
            }
            return true;
          }
          var nodeId := ToStr(counter);
          var newNode := Node(nodeId, Get(node, "type"),
                              NodeData(nodeId, Get(node, "label"), Get(node, "type"), Get(node, "type")));
          AddNode(newNode);
          return false;
      }
    }

    /** `onNodeAdd(type, position, data)`: append one node of that type,
        labelled `data?.label || type`; the data record carries no
        `processType`. */
    method OnNodeAdd(kind: string, data: JsValue)
      modifies this
      ensures var nodeId := ToStr(old(counter));
        && counter == Plus(old(counter), Num(1.0))
        && nodes == old(nodes) + [Node(nodeId, Str(kind),
                                       NodeData(nodeId, Or(OptGet(data, "label"), Str(kind)), Undefined,
                                                OptGet(data, "type")))]
      ensures old(Valid()) ==> Valid()
      ensures edges == old(edges) && storeEdges == old(storeEdges)
      ensures restoredImages == old(restoredImages) && restoredParams == old(restoredParams)
    {
      var nodeId := ToStr(counter);
      var newNode := Node(nodeId, Str(kind),
                          NodeData(nodeId, Or(OptGet(data, "label"), Str(kind)), Undefined, OptGet(data, "type")));
      AddNode(newNode);
    }

    /** The first steps of `onLoad`: reset the counter to `Math.max(...ids) + 1`
        and install the loaded nodes and edges. */
    method InstallGraph(doc: LoadedFlow)
      modifies this`counter, this`nodes, this`edges, this`storeEdges
      ensures counter == CounterAfterLoad(doc.nodes)
      ensures nodes == doc.nodes && edges == doc.edges && storeEdges == doc.edges
      ensures doc.nodes != [] && DistinctIds(doc.nodes) && NumericIds(doc.nodes) ==> Valid()
    {
      counter := CounterAfterLoad(doc.nodes);
      nodes := doc.nodes;
      edges := doc.edges;
      storeEdges := doc.edges;
      if doc.nodes != [] && DistinctIds(doc.nodes) && NumericIds(doc.nodes) {
        CounterExceedsLoadedIds(doc.nodes);
      }
    }

    /** The remaining steps of `onLoad`: `Object.entries` of the images, then
        of the parameter records; the first one that throws ends the load. */
    method RestoreRecords(doc: LoadedFlow) returns (notice: string)
      modifies this`restoredImages, this`restoredParams
      ensures Entries(doc.images).Failure? ==>
                && notice == LoadFailedPrefix + Entries(doc.images).error
                && restoredImages == old(restoredImages) && restoredParams == old(restoredParams)
      ensures Entries(doc.images).Success? ==>
                restoredImages == old(restoredImages) + Entries(doc.images).value
      ensures Entries(doc.images).Success? && Entries(doc.nodeParams).Failure? ==>
                && notice == LoadFailedPrefix + Entries(doc.nodeParams).error
                && restoredParams == old(restoredParams)
      ensures Entries(doc.images).Success? && Entries(doc.nodeParams).Success? ==>
                && notice == LoadedNotice
                && restoredParams == old(restoredParams) + Entries(doc.nodeParams).value
    {
      match Entries(doc.images) {
        case Failure(message) =>
          return LoadFailedPrefix + message;
        case Success(images) =>
          restoredImages := restoredImages + images;
      }
      match Entries(doc.nodeParams) {
        case Failure(message) =>
          return LoadFailedPrefix + message;
        case Success(params) =>
          restoredParams := restoredParams + params;
      }
      return LoadedNotice;
    }

    /** `onLoad(file)` once `loadFlow` has settled: reset the counter,
        replace nodes and edges, then restore images and parameters; the
        first exception ends the load with a failure notice, keeping what
        was already done. */
    method OnLoad(loaded: Result<LoadedFlow, string>) returns (notice: string)
      modifies this
      ensures loaded.Failure? ==>
                && notice == LoadFailedPrefix + loaded.error
                && counter == old(counter) && nodes == old(nodes) && edges == old(edges)
                && storeEdges == old(storeEdges)
                && restoredImages == old(restoredImages) && restoredParams == old(restoredParams)
      ensures loaded.Success? ==>
                var doc := loaded.value;
                && counter == CounterAfterLoad(doc.nodes)
                && nodes == doc.nodes && edges == doc.edges && storeEdges == doc.edges
                && (Entries(doc.images).Failure? ==>
                      && notice == LoadFailedPrefix + Entries(doc.images).error
                      && restoredImages == old(restoredImages) && restoredParams == old(restoredParams))
                && (Entries(doc.images).Success? ==>
                      restoredImages == old(restoredImages) + Entries(doc.images).value)
                && (Entries(doc.images).Success? && Entries(doc.nodeParams).Failure? ==>
                      notice == LoadFailedPrefix + Entries(doc.nodeParams).error
                      && restoredParams == old(restoredParams))
                && (Entries(doc.images).Success? && Entries(doc.nodeParams).Success? ==>
                      notice == LoadedNotice
                      && restoredParams == old(restoredParams) + Entries(doc.nodeParams).value)
      ensures (loaded.Success? && loaded.value.nodes != [] && DistinctIds(loaded.value.nodes)
               && NumericIds(loaded.value.nodes)) ==> Valid()
    {
      if loaded.Failure? {
        return LoadFailedPrefix + loaded.error;
      }
      InstallGraph(loaded.value);
      notice := RestoreRecords(loaded.value);
    }
  }

  /** Two successive ids from an integer counter differ and increase. */
  method SuccessiveIdsIncrease(ed: Editor) returns (first: string, second: string)
    requires IntegralCounter(ed.counter)
    modifies ed
    ensures first != second
    ensures ParseInt(first).Num? && ParseInt(second).Num? && ParseInt(first).n < ParseInt(second).n
  {
    first := ed.GetId();
    second := ed.GetId();
  }

  /** A document written by `saveFlow` fails to load: `images` is absent,
      so nodes, edges and the counter are replaced but no image and no
      parameter record is restored. */
  method ReloadSavedFlow(ed: Editor, doc: FlowData) returns (notice: string)
    modifies ed
    ensures notice == LoadFailedPrefix + "Cannot convert undefined or null to object"
    ensures ed.nodes == doc.nodes && ed.edges == doc.edges
    ensures ed.restoredImages == old(ed.restoredImages) && ed.restoredParams == old(ed.restoredParams)
  {
    notice := ed.OnLoad(Success(Reloaded(doc)));
  }

  /** After loading a flow with no nodes, every new id is "-Infinity". */
  method IdsAfterEmptyLoad(ed: Editor, edges: seq<Edge>, images: JsValue, nodeParams: JsValue)
    returns (first: string, second: string)
    modifies ed
    ensures first == second == "-Infinity"
  {
    var _ := ed.OnLoad(Success(LoadedFlow([], edges, images, nodeParams)));
    first := ed.GetId();
    second := ed.GetId();
  }
}
