/**
 * Saving and loading a flow document (src/utils/flowUtils.ts). Saving
 * builds a document from the editor's nodes and edges and a snapshot of the
 * data store, keeping all, some or none of the stored results; serialising
 * and downloading it are not modelled. Loading is "read the file, parse it,
 * or fail with a fixed message".
 */
module FlowUtils {

  import opened Wrappers
  import opened JsValues
  import opened Graph
  import opened ImageStore

  datatype FlowData = FlowData(nodes: seq<Node>, edges: seq<Edge>,
                               dataDict: map<string, JsValue>, nodeParams: map<string, JsValue>)

  /** The entries `'input-only'` keeps: input node ids with a truthy stored entry. */
  function InputOnlyEntries(nodes: seq<Node>, dataDict: map<string, JsValue>): (m: map<string, JsValue>)
    ensures forall k :: k in m <==> k in InputIds(nodes) && k in dataDict && Truthy(dataDict[k])
    ensures forall k :: k in m ==> m[k] == dataDict[k]
  {
    map k | k in InputIds(nodes) && k in dataDict && Truthy(dataDict[k]) :: dataDict[k]
  }

  /** The saved results are a sub-map of the store's. */
  predicate SubMap(small: map<string, JsValue>, big: map<string, JsValue>) {
    forall k :: k in small ==> k in big && small[k] == big[k]
  }

  /** `saveFlow(nodes, edges, saveOption)` up to the JSON text. */
  method SaveFlow(nodes: seq<Node>, edges: seq<Edge>, saveOption: string, store: DataStore)
    returns (doc: FlowData)
    ensures doc.nodes == nodes && doc.edges == edges && doc.nodeParams == store.nodeParams
    ensures saveOption == "all" ==> doc.dataDict == store.dataDict
    ensures saveOption == "input-only" ==> doc.dataDict == InputOnlyEntries(nodes, store.dataDict)
    ensures saveOption != "all" && saveOption != "input-only" ==> doc.dataDict == map[]
    ensures SubMap(doc.dataDict, store.dataDict)
  {
    doc := FlowData(nodes, edges, map[], store.nodeParams);
    if saveOption == "all" {
      doc := doc.(dataDict := store.dataDict);
    } else if saveOption == "input-only" {
      for i := 0 to |nodes|
        invariant doc.nodes == nodes && doc.edges == edges && doc.nodeParams == store.nodeParams
        invariant doc.dataDict == InputOnlyEntries(nodes[..i], store.dataDict)
      {
        InputIdsStep(nodes, i);
        var node := nodes[i];
        if IsInput(node) {
          var data := Lookup(store.dataDict, node.id);
          if Truthy(data) {
            doc := doc.(dataDict := doc.dataDict[node.id := data]);
          }
        }
      }
      assert nodes[..|nodes|] == nodes;
    }
  }

  /** Reading the chosen file: either its text or a reader error. */
  datatype FileRead = ReadOk(text: string) | ReadFailed

  const ReadErrorMessage: string := "读取文件失败"
  const InvalidFileMessage: string := "无效的流程图文件"

  /** `loadFlow(file)`: the parsed document, or a rejection with the reader
      error or the invalid-file error. `parse` stands for `JSON.parse`, None
      meaning that it threw. */
  function LoadFlow(read: FileRead, parse: string -> Option<JsValue>): (r: Result<JsValue, string>)
    ensures r.Success? <==> read.ReadOk? && parse(read.text).Some?
    ensures r.Success? ==> r.value == parse(read.text).value
    ensures read.ReadFailed? ==> r == Failure(ReadErrorMessage)
    ensures read.ReadOk? && parse(read.text).None? ==> r == Failure(InvalidFileMessage)
  {
    match read
    case ReadFailed => Failure(ReadErrorMessage)
    case ReadOk(text) =>
      match parse(text)
      case None => Failure(InvalidFileMessage)
      case Some(v) => Success(v)
  }
}
