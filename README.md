# opencv-helper, modelled in Dafny

opencv-helper is a node-based image-processing editor. The user places
input, process and output nodes on a canvas and wires them with edges.
Each process node evaluates live: it reads its primary input's result from
a shared data store, calls a Python image server (or handles the step
locally), and stores its own result. The same graph can be turned into a
stand-alone Python or C++ OpenCV program, and saved to or loaded from a
JSON flow file.

This project models the core of that system:

- `JsValues`: the JavaScript value semantics the front end relies on.
  These are truthiness, `||`, property access and `?.`, `String(v)`,
  `Number(v)`, `+` and `parseInt`.
- `Graph`: nodes, edges, incoming edges, input ids.
- `ImageStore`: the Zustand data store as a class whose methods update its
  fields.
- `CodeGenerator`: the code generator. Its input pass and readiness loop
  are imperative methods, and the output write is the function `WriteFor`
  that the generator's body calls. They are proved equal to `Generated`,
  a function that builds the passes in node-array order from each dialect's
  node templates. `Generated` is in turn proved to meet `Emitted`, a
  declarative description of the generated statement sequence, and the two
  dialects are proved to emit the same statements.
- `FlowUtils`: saving and loading a flow document.
- `ImageProcessing`: request preparation in the image-processing client.
- `ProcessNode`: the live-evaluation node. It covers its default-parameter
  table, its initialisation and its evaluation effect.
- `LegacyProcessNode`: the older processing node, with its in-flight flag
  and memo.
- `Flow`: the editor's id counter, node creation and flow loading.
- `Backend`: the image server's handler. It covers base64 decoding,
  per-type parameter resolution and the mapping of failures to HTTP
  errors.
- `Wire`: JSON serialisation and request validation between client and
  server, with end-to-end properties.

Generated programs are modelled as statement lists, not as text:

- an input binding per input node;
- a block per emitted node, carrying its id, its operation, its resolved
  parameters and the sources it reads;
- an optional write of the output.

The template text around each statement is not modelled. The OpenCV calls,
the base64 and image codecs, `JSON.parse` and the HTTP exchange are
function parameters.

## Model

| member | source | states |
|---|---|---|
| CodeGenerator.ResolveStmt | src/utils/codeGenerator.ts:43-195 | A node's block fails exactly when it has fewer incoming edges than its operation reads (`nodeEdges[1]` of a blend with one edge throws). The error names the node and its edge count. Otherwise the block keeps the node's id and type, reads the first N edges' sources in order, and carries the resolved operation. |
| CodeGenerator.ResolveOpUnknown | src/utils/codeGenerator.ts:50-192 | A processType without a `case` gets only its comment line, and its template reads no input. |
| CodeGenerator.ResolveOpThreshold | src/utils/codeGenerator.ts:53-61 | The threshold template reads one input. Threshold, maxValue and method are the parameter when truthy and otherwise 128, 255 and THRESH_BINARY; the Otsu flag is the truthiness of `useOtsu`. |
| CodeGenerator.ResolveOpBlur | src/utils/codeGenerator.ts:63-71 | The blur template reads one input; kernel size, sigmas and border fall back to 5, 0, 0 and BORDER_DEFAULT. |
| CodeGenerator.ResolveOpMorph | src/utils/codeGenerator.ts:73-95 | Erode and dilate each read one input and resolve the same shape, size and iterations, falling back to MORPH_RECT, 3 and 1. |
| CodeGenerator.ResolveOpCanny | src/utils/codeGenerator.ts:97-106 | The Canny template reads one input; thresholds and aperture fall back to 100, 200 and 3, and `L2gradient` is the truthiness of `l2gradient`. |
| CodeGenerator.ResolveOpGrayscale | src/utils/codeGenerator.ts:108-110 | Grayscale reads one input and has no parameters. |
| CodeGenerator.ResolveOpBlank | src/utils/codeGenerator.ts:112-118 | The blank template reads no input; colour, height and width fall back to white, 512 and 512, and the grayscale flag is the truthiness of `isGrayscale`. |
| CodeGenerator.ResolveOpRectangle | src/utils/codeGenerator.ts:120-130 | The rectangle reads one input. Its corner falls back to (0, 0) and its far corner is the corner plus the size (default 100 by 100). Colour and line type fall back to red and LINE_8. A truthy `filled` gives thickness -1, otherwise the thickness falls back to 2. |
| CodeGenerator.ResolveOpCircle | src/utils/codeGenerator.ts:132-142 | The circle reads one input; centre, radius, colour and line type fall back to (50, 50), 25, green and LINE_8, and the thickness is -1 when filled, else the parameter or 2. |
| CodeGenerator.ResolveOpLine | src/utils/codeGenerator.ts:144-154 | The line reads one input; end points, colour, thickness and line type fall back to (0, 0), (100, 100), blue, 2 and LINE_8. It has no fill. |
| CodeGenerator.ResolveOpModes | src/utils/codeGenerator.ts:156-181 | Multiply, screen and overlay each read two inputs, with opacity falling back to 1. |
| CodeGenerator.ResolveOpBlend | src/utils/codeGenerator.ts:183-191 | The weighted blend reads two inputs, with ratio falling back to 0.5. |
| CodeGenerator.NodeParamsStored | src/utils/codeGenerator.ts:48 | A node's parameters are the store's record for its id and type when that is truthy (a record always is), and `{}` otherwise, in particular when the id has no record. |
| CodeGenerator.InputBinds | src/utils/codeGenerator.ts:26-33 | Every statement of the input pass binds the id of an input node. |
| Graph.Incoming | src/utils/codeGenerator.ts:43 | The incoming edges are exactly the edges whose target is the node, and no more than all edges. |
| Graph.IncomingAppend | src/utils/codeGenerator.ts:43 | Filtering the edges of two concatenated lists gives the two filtered lists concatenated, so the filter keeps edge-array order and repeats. |
| Graph.IncomingOrder | src/utils/codeGenerator.ts:43 | An edge into the node sits in the filtered list at the position counted by the edges into the node before it. |
| Graph.IncomingFirstTwo | src/utils/codeGenerator.ts:43 | The first two incoming edges are the edges into the node with the least and next-least index. |
| CodeGenerator.FirstInputIsFirstEdge | src/utils/codeGenerator.ts:43-154 | A one-input template reads the source of the first edge into the node, in edge-array order. |
| CodeGenerator.TwoInputsInEdgeOrder | src/utils/codeGenerator.ts:156-189 | A two-input template reads img1 from the first edge into the node and img2 from the second, in edge-array order, whatever their handles. |
| CodeGenerator.FirstOutput | src/utils/codeGenerator.ts:200 | The first node of type output, if any. |
| CodeGenerator.FirstEdgeInto | src/utils/codeGenerator.ts:202 | The first edge into a node, if any. |
| CodeGenerator.WriteFor | src/utils/codeGenerator.ts:199-207 | At most one write. There is a write exactly when the first output node has an incoming edge, and it reads that edge's source. |
| CodeGenerator.EmitStmt | src/utils/codeGenerator.ts:330-375 | A node's block in one dialect. It succeeds exactly when the node has enough incoming edges and, in C++, the colour of a blank, rectangle, circle or line node resolves to an array; it is then the `ResolveStmt` block. Too few edges gives `MissingEdge`; otherwise the C++ failure is `ColorNotArray`, the throw of `.join` on a colour that is not an array. |
| CodeGenerator.PassFrom | src/utils/codeGenerator.ts:38-196 | One `nodes.forEach` pass from node i, in array order: the bound ids only grow, stay within the node ids, and grow exactly when the pass emits a block. |
| CodeGenerator.Visit | src/utils/codeGenerator.ts:39-47 | One node of a pass computes exactly what `PassFrom` prescribes at node i: the same throw, or the same blocks appended to the code, with `remainingNodes` set exactly when a block is emitted. |
| CodeGenerator.Pass | src/utils/codeGenerator.ts:38-196 | The `forEach` loop computes exactly `PassFrom` from node 0: its throw, or the blocks appended to the code and the ids left bound; `remainingNodes` is set exactly when a block was emitted. |
| CodeGenerator.Round | src/utils/codeGenerator.ts:37-197 | One iteration of `while (remainingNodes)`: the blocks so far stay a prefix of the loop's result, a throw is the loop's throw, and another pass follows only after strictly more ids are bound. |
| CodeGenerator.ReadinessLoop | src/utils/codeGenerator.ts:36-197 | The while loop computes exactly `Passes` (passes repeat until one emits nothing): the appended blocks are its result, or its first throw. |
| CodeGenerator.BindInputs | src/utils/codeGenerator.ts:24-33 | The input pass appends one binding per input node, in array order, and marks exactly the input ids processed. |
| CodeGenerator.Scan | src/utils/codeGenerator.ts:24-207 | Returns exactly `Generated`: the input bindings, the blocks of every readiness pass in array order, then the output write; or the first throw. |
| CodeGenerator.GeneratePythonCode | src/utils/codeGenerator.ts:11-217 | The Python program of `Generated`'s statements, or its error. The program meets `Emitted` and the error meets `FailsAt`. |
| CodeGenerator.GenerateCppCode | src/utils/codeGenerator.ts:219-457 | The same for C++. Here `FailsAt` also covers the `ColorNotArray` throw. |
| CodeGenerator.GenerateCode | src/utils/codeGenerator.ts:459-465 | Python exactly for the language "python", C++ otherwise, with the same guarantees. |
| CodeGenerator.PassFromValid | src/utils/codeGenerator.ts:38-196 | A pass after valid blocks appends valid blocks, and the bound ids become the input ids plus the block ids. A pass that emits nothing found every later node skipped. A throw happens at a node the pass reached (`FailsAt`). |
| CodeGenerator.PassesValid | src/utils/codeGenerator.ts:36-197 | The remaining passes end with valid blocks after which no unprocessed node is ready (`Closed`), or with a throw at a node they reached. |
| CodeGenerator.GeneratedValid | src/utils/codeGenerator.ts:11-217 | A generated program meets `Emitted`: inputs bound, each block's node ready and unprocessed when emitted, no ready node left, then the write. A throw meets `FailsAt`: it happens at an unbound non-input node whose sources are all bound after a valid prefix of blocks. |
| CodeGenerator.TemplatesRefine | src/utils/codeGenerator.ts:330-375 | For any node, the C++ template emits exactly when the Python one emits a block without a colour fault, and then the same block. |
| CodeGenerator.DialectsAgree | src/utils/codeGenerator.ts:219-457 | The C++ generator succeeds exactly when the Python one does and no emitted block has a non-array colour; then both emit the same statements. |
| CodeGenerator.InputBindsCoverInputs | src/utils/codeGenerator.ts:26-33 | The input pass binds exactly the input nodes' ids. |
| CodeGenerator.BlockIdsAppend | src/utils/codeGenerator.ts:32 | The ids bound by two concatenated statement lists are the union of their ids. |
| CodeGenerator.CycleNeverEmitted | src/utils/codeGenerator.ts:36-46 | No node on a cycle of edges through non-input nodes is ever emitted. |
| CodeGenerator.UnboundSourceBlocksTarget | src/utils/codeGenerator.ts:43-46 | An edge whose source is never bound keeps its target from being emitted. |
| CodeGenerator.ReadyNodeEmitted | src/utils/codeGenerator.ts:36-47 | Completeness: a non-input node whose incoming edges all come from bound nodes is emitted. |
| CodeGenerator.EmittedNodeResolved | src/utils/codeGenerator.ts:46-52 | With distinct ids, an emitted node's block resolved successfully. |
| CodeGenerator.HalfConnectedBlendThrows | src/utils/codeGenerator.ts:156-158 | Take a ready two-input node with a single incoming edge. No statement sequence can be emitted for that graph, so generation throws. |
| ImageStore.FindEdge | src/store/imageStore.ts:96 | The first edge into the node on the primary handle (or the secondary handle), or none when no edge feeds it. |
| ImageStore.HandlesPartitionEdges | src/store/imageStore.ts:96-106 | An edge into a node feeds exactly one of its two handles. The node has no source exactly when it has no incoming edge. |
| ImageStore.Wrapped | src/store/imageStore.ts:64-79 | A string is stored as `{image: data}`; any other value is stored as it is. |
| ImageStore.DataStore.constructor | src/store/imageStore.ts:58-62 | Starts empty, with preview on. |
| ImageStore.DataStore.SetData | src/store/imageStore.ts:64-80 | Afterwards `GetData(id)` is the wrapped value, and every other id's entry is unchanged. |
| ImageStore.DataStore.GetData | src/store/imageStore.ts:82-85 | Undefined when preview is off and not ignored, the entry otherwise. |
| ImageStore.DataStore.SetEdges | src/store/imageStore.ts:87-89 | Replaces the edges only. |
| ImageStore.DataStore.ConnectedData | src/store/imageStore.ts:91-109 | Undefined when preview is off (and not ignored), or when no edge feeds the handle. Otherwise it is the stored result of the first feeding edge's source, undefined when none is stored. |
| ImageStore.DataStore.GetConnectedNodeSourceData | src/store/imageStore.ts:91-99 | `ConnectedData` on the primary handle: with preview on or ignored, the stored result of the first edge's source whose handle is not 'secondary'. |
| ImageStore.DataStore.GetConnectedNodeSecondaryData | src/store/imageStore.ts:101-109 | `ConnectedData` on the secondary handle: with preview on or ignored, the stored result of the first 'secondary' edge's source. |
| ImageStore.DataStore.ToggleNodesPreview | src/store/imageStore.ts:111-115 | Flips preview only. |
| ImageStore.ToggleTwice | src/store/imageStore.ts:111-115 | Toggling twice restores the whole store. |
| ImageStore.DataStore.SetNodeParams | src/store/imageStore.ts:117-124 | Afterwards `GetNodeParams(id)` is the record, and every other id's record is unchanged. |
| ImageStore.DataStore.GetNodeParams | src/store/imageStore.ts:126-128 | The record, or undefined. |
| FlowUtils.InputOnlyEntries | src/utils/flowUtils.ts:25-34 | Holds exactly the input nodes' ids that have a truthy stored entry, with those entries. |
| FlowUtils.SaveFlow | src/utils/flowUtils.ts:13-35 | Keeps the nodes, edges and parameter records. Under "all" it keeps every result; under "input-only" it keeps the truthy results of input nodes; under any other option it keeps none. The saved results are always a sub-map of the store's. |
| FlowUtils.LoadFlow | src/utils/flowUtils.ts:49-62 | Succeeds exactly when the file was read and parsed, and yields the parsed value. A failed read gives "读取文件失败"; a parse error gives "无效的流程图文件". |
| ImageProcessing.Prefixed | src/utils/imageProcessing.ts:79 | The result always starts with "data:". A data URI is kept; anything else gets the PNG base64 prefix. |
| ImageProcessing.Spread | src/utils/imageProcessing.ts:81-98 | The spread object has the caller's keys plus the fourteen numeric keys. |
| ImageProcessing.DropUndefined | src/utils/imageProcessing.ts:100-104 | The loop removes exactly the undefined entries. |
| ImageProcessing.SentParamsMeetSpec | src/utils/imageProcessing.ts:81-104 | No undefined value is sent. A numeric key is sent exactly when it was truthy, as `Number(v)`. Any other key is sent unchanged exactly when it is not undefined. |
| ImageProcessing.SentParamsUnchanged | src/utils/imageProcessing.ts:81-104 | Parameters without undefined values, whose numeric keys already hold non-zero numbers, are sent unchanged. |
| ImageProcessing.ProcessImageRequest | src/utils/imageProcessing.ts:73-111 | The posted body is `{type, image: Prefixed(imageData), params}` with params meeting the sent-parameters description. |
| ImageProcessing.RequestForSpec | src/utils/imageProcessing.ts:107-111 | The request body keeps the type, carries the image as a data URI (a data URI is kept as it is) and sends exactly the parameters the sent-parameters description allows. |
| ProcessNode.BlendNodesTakeTwoInputs | src/components/nodes/ProcessNode.tsx:30 | The blend-node test holds exactly for the operations the generator reads two inputs for. |
| ProcessNode.DefaultsMatchGenerator | src/components/nodes/ProcessNode.tsx:35-136 | For each of the 14 operations both sides know, the generator resolves the same parameters from the node's default record as from no record. |
| ProcessNode.DefaultParamsTable | src/components/nodes/ProcessNode.tsx:35-136 | The table has a record for exactly the eighteen listed operations and undefined for any other type. No default in a record is undefined, so every default is sent. Grayscale and print have the empty record. |
| ProcessNode.ParamsMap | src/utils/imageProcessing.ts:82 | `{...params}` of a record copies its own properties; any other value contributes none. |
| ProcessNode.InputImageFallsBack | src/components/nodes/ProcessNode.tsx:153 | The input image is `inputData.image` when truthy and otherwise "", so a falsy input image is always "". |
| ProcessNode.ContourParamsFallBack | src/components/nodes/ProcessNode.tsx:181-186 | The contour record has exactly mode, method and the two area bounds. Mode and method fall back to RETR_EXTERNAL and CHAIN_APPROX_SIMPLE. The bounds are `Number()` of the parameters when truthy, else 100 and 10000, so never 0 or NaN. |
| ProcessNode.InitParams | src/components/nodes/ProcessNode.tsx:33-142 | Takes a node with no parameter record whose type has a table entry. It gains `{[type]: defaults}`; nothing else changes. |
| ProcessNode.GeneratorReadsInitialisedDefaults | src/components/nodes/ProcessNode.tsx:138-139 | After initialisation the generator reads exactly the default record. |
| ProcessNode.Call | src/utils/imageProcessing.ts:73-79 | A string image posts one request and returns the server's outcome. Any other image throws the `startsWith` TypeError before posting. |
| ProcessNode.NumberOr | src/components/nodes/ProcessNode.tsx:167-185 | `Number(v) \|\| fallback` is always a truthy number: the converted value when truthy, else the fallback. |
| ProcessNode.BlankParamsFallBack | src/components/nodes/ProcessNode.tsx:166-171 | A blank image's width and height are never 0 or NaN, and default to 512; its colour defaults to white. |
| ProcessNode.Evaluation | src/components/nodes/ProcessNode.tsx:150-203 | At most two requests are posted, and the first sends the prefixed primary image. A print node yields its input without posting. |
| ProcessNode.ServerKindEvaluation | src/components/nodes/ProcessNode.tsx:199-203 | Any operation other than grayscale, blank, contour and print posts exactly one request, with the node's own parameters. A server answer is stored as `{image: result}`, and a thrown call ends the evaluation with that throw. |
| ProcessNode.GrayscaleEvaluation | src/components/nodes/ProcessNode.tsx:160-163 | Grayscale posts exactly one request, with no parameters, and stores `{image: result}`; a thrown call is passed on. |
| ProcessNode.BlankEvaluation | src/components/nodes/ProcessNode.tsx:165-175 | Blank posts exactly one request, with the normalised blank record, and stores `{image: result}`; a thrown call is passed on. |
| ProcessNode.ContourEvaluation | src/components/nodes/ProcessNode.tsx:177-181 | Contour first posts the image for grayscale. A thrown first call ends the evaluation with one request; a non-string answer throws the `startsWith` TypeError before a second request. |
| ProcessNode.ContourEvaluationSecondCall | src/components/nodes/ProcessNode.tsx:177-192 | When the grayscale answer is a string, contour posts it second, with the normalised contour record. The evaluation yields `JSON.parse` of the second answer, or throws the parse error or the second call's throw. |
| ProcessNode.StoredEntry | src/components/nodes/ProcessNode.tsx:206-209 | A thrown Error is stored as `{error: message}`; any other thrown value as `{error: "处理失败"}`. |
| ProcessNode.ProcessImage | src/utils/imageProcessing.ts:73-111 | The call's outcome and the requests posted, as `Call` describes them. |
| ProcessNode.EvaluateNode | src/components/nodes/ProcessNode.tsx:144-211 | Without input data or an input image nothing is stored. Otherwise the node's entry becomes the evaluation's result or error entry, and no other entry or field changes. |
| ProcessNode.PrintStoresInput | src/components/nodes/ProcessNode.tsx:194-197 | A print node stores its input. |
| ProcessNode.RejectionStoresError | src/components/nodes/ProcessNode.tsx:207-209 | A server rejection stores `{error: message}`. |
| LegacyProcessNode.LegacyNode.constructor | src/components/ProcessNode.tsx:13-15 | Not processing, with an empty memo. |
| LegacyProcessNode.LegacyNode.BeginRun | src/components/ProcessNode.tsx:17-37 | A run starts exactly when none is in flight, the input image is truthy, and image and parameters differ from the last successful run. A started run keeps the image and parameters it started with. |
| LegacyProcessNode.LegacyNode.CompleteRun | src/components/ProcessNode.tsx:38-51 | Success records the image and parameters the run started with as the memo and shows the result; failure shows ''. The flag is cleared either way. |
| LegacyProcessNode.LegacyNode.OnEdges | src/components/ProcessNode.tsx:54-59 | A run is scheduled exactly when some edge enters the node; otherwise the image is cleared. |
| LegacyProcessNode.HasInput | src/components/ProcessNode.tsx:55 | True exactly when some edge targets the node. |
| LegacyProcessNode.OverlappingRunIgnored | src/components/ProcessNode.tsx:19-21 | A second request while one is in flight does not start. |
| LegacyProcessNode.RerunAfterOutcome | src/components/ProcessNode.tsx:27-51 | After a success the same inputs do not rerun; after a failure they do. |
| Flow.MathMax | src/components/Flow.tsx:212 | `Math.max` of the parsed ids: -Infinity for none, NaN if any is NaN, otherwise the largest one. |
| Flow.CounterAfterLoad | src/components/Flow.tsx:212 | -Infinity after loading no nodes; NaN when some id does not parse. |
| Flow.CounterExceedsLoadedIds | src/components/Flow.tsx:212 | After loading a non-empty list of numeric ids, the counter is an integer above every one of them. |
| Flow.CounterIdsDistinct | src/components/Flow.tsx:51-56 | Distinct integer counter values give distinct ids. |
| Flow.CounterIdParses | src/components/Flow.tsx:51-56 | `parseInt` of an id recovers the counter that produced it. |
| Flow.Entries | src/components/Flow.tsx:220-225 | `Object.entries` throws exactly on undefined and null. |
| Flow.Editor.constructor | src/components/Flow.tsx:51 | The counter starts at 1, with no nodes. |
| Flow.Editor.GetId | src/components/Flow.tsx:52-56 | Returns the counter as a string, then adds one. For an integer counter the id parses back to it. |
| Flow.Editor.AddNode | src/components/Flow.tsx:158-171 | Appends exactly one node and takes one id. When the id is fresh, ids stay distinct and below the counter. |
| Flow.Editor.OnDrop | src/components/Flow.tsx:143-174 | With an instance and parseable, non-null data, appends one node whose id and data id are the new id and whose kind, label and type come from the data. Existing nodes are unchanged. A `null` payload takes an id and then throws, adding no node. Otherwise nothing changes. |
| Flow.Editor.OnNodeAdd | src/components/Flow.tsx:176-191 | Appends one node whose id and data id are the new id, labelled `data?.label \|\| type`, with no processType. |
| Flow.Editor.InstallGraph | src/components/Flow.tsx:211-217 | The counter becomes max+1 of the loaded ids, and nodes and edges are replaced. With non-empty, distinct, numeric ids the editor's id invariant holds afterwards. |
| Flow.Editor.RestoreRecords | src/components/Flow.tsx:220-230 | Images are merged in, then parameter records. The first `Object.entries` that throws ends the step, with "加载失败: " and its message, and nothing later is restored. |
| Flow.Editor.OnLoad | src/components/Flow.tsx:207-231 | Resets the counter to max+1, replaces nodes and edges, then restores images and parameters. A missing record ends the load with "加载失败: " and its message, keeping what was already done. |
| Flow.SuccessiveIdsIncrease | src/components/Flow.tsx:51-56 | Two successive ids differ and parse to increasing numbers. |
| Flow.ReloadSavedFlow | src/components/Flow.tsx:220 | A saved document fails to load, because it has no `images`. Nodes and edges are replaced; no image or parameter record is restored. |
| Flow.IdsAfterEmptyLoad | src/components/Flow.tsx:212 | After loading a flow with no nodes, every new id is "-Infinity". |
| Backend.ToInt | backend/main.py:121-122 | `int(v)`: ints unchanged, booleans 1 or 0, floats truncated toward zero. A string converts exactly when it is an integer literal, to its value, and otherwise raises ValueError. None, lists and dicts raise TypeError; only malformed strings raise ValueError. |
| Backend.ToFloat | backend/main.py:143-144 | `float(v)`: ints and floats unchanged, booleans 1.0 or 0.0. A string converts exactly when it is a decimal literal, to its value, and otherwise raises ValueError. None, lists and dicts raise TypeError. |
| Backend.Truncate | backend/main.py:121 | `int` of a float truncates toward zero. |
| Backend.EnumLookup | backend/main.py:127-134 | Succeeds exactly for hashable values (not lists or dicts, which raise TypeError). A known name gives its constant, any other value the default (`Named`). |
| Backend.Subscript | backend/main.py:176 | `anchor["x"]`: a dict's entry, KeyError for a missing key, TypeError for a non-dict. |
| Backend.WithOtsu | backend/main.py:134-136 | The threshold type carries the Otsu bit exactly when `useOtsu` is truthy, and keeps the named method below it. |
| Backend.OddKernel | backend/main.py:155-156 | The blur kernel is always odd: odd sizes are kept and even ones increased by one. |
| Backend.DrawThickness | backend/main.py:226 | A truthy `filled` gives thickness -1; otherwise the given thickness. |
| Backend.ThresholdConfig | backend/main.py:119-139 | Succeeds exactly when threshold and maxValue convert with `int()` and the method is hashable. The config is then (`int(threshold)`, `int(maxValue)`, the named method or THRESH_BINARY, plus THRESH_OTSU exactly when `useOtsu` is truthy), with defaults 128, 255, "THRESH_BINARY" and False. No HTTP error is raised. |
| Backend.BlurConfig | backend/main.py:141-158 | Succeeds exactly when kernelSize converts with `int()`, both sigmas with `float()` and the border type is hashable. The config is then the kernel made odd, the two sigmas and the named border (BORDER_DEFAULT when unknown), with defaults 5, 0, 0 and "BORDER_DEFAULT". |
| Backend.MorphConfig | backend/main.py:160-194 | Erode and dilate succeed exactly when kernelSize and iterations convert with `int()`, the shape is hashable and `anchor["x"]`, `anchor["y"]` exist. The config is then size, iterations, the named shape (MORPH_RECT when unknown) and the two anchor entries, with defaults 3, 1, "MORPH_RECT" and {x: -1, y: -1}. A supplied anchor that is not a record makes the request fail. |
| Backend.CannyConfig | backend/main.py:196-204 | Succeeds exactly when both thresholds and the aperture convert with `int()`. The config is then those three values (defaults 100, 200, 3) and `l2gradient` passed through (default False). |
| Backend.RectangleConfig | backend/main.py:206-226 | Succeeds exactly when x, y, width, height and thickness convert with `int()` and the line type is hashable. The rectangle then spans (x, y) to (x + width, y + height), has the given colour (default red), thickness -1 when `filled` is truthy and the thickness otherwise (default 2), and the named line type (LINE_8 when unknown). |
| Backend.CircleConfig | backend/main.py:228-247 | Succeeds exactly when x, y, radius and thickness convert with `int()` and the line type is hashable. The circle then has centre (x, y) and radius (defaults 50, 50, 25), the given colour (default green), thickness -1 when filled and the thickness otherwise (default 2), and the named line type (LINE_8 when unknown). |
| Backend.LineConfig | backend/main.py:249-268 | Succeeds exactly when x1, y1, x2, y2 and thickness convert with `int()` and the line type is hashable. The line then runs from (x1, y1) to (x2, y2) (defaults 0, 0, 100, 100) with the given colour (default blue), thickness (default 2) and the named line type (LINE_8 when unknown); there is no fill. |
| Backend.ResolveParams | backend/main.py:118-271 | Each supported type is resolved by its own branch (erode and dilate by the morphology branch, differing only in the operation). The only HTTP error is for an unsupported type, and every unsupported type raises it. |
| Backend.AbsentParametersDefault | backend/main.py:119-268 | With no parameters each operation takes its defaults: threshold 128/255 binary, kernel 5 blur, kernel 3 with one iteration and anchor (-1, -1), Canny 100/200/3, and the three drawing defaults. |
| Backend.StripHeader | backend/main.py:40-41 | Without a comma the text is kept. With one, the result is the text between the first comma and the next comma, or the end. |
| Backend.Base64ToCv2 | backend/main.py:32-67 | Empty input gives 400 "图像数据为空". Otherwise it succeeds exactly when the stripped payload decodes; a decoder error is a 400. |
| Backend.Cv2ToBase64 | backend/main.py:69-96 | Succeeds exactly when the encoder does. The result is then the encoder's text behind "data:image/png;base64,"; an encoder failure is a 400 with the encoder's message. |
| Backend.StripRecoversPayload | backend/main.py:40-41 | Stripping the header written at backend/main.py:89 from an encoded result gives back the comma-free payload. |
| Backend.Reply | backend/main.py:283-288 | A ValueError is a 400 with its message; anything else is a 500 "图像处理失败: " with the exception text. |
| Backend.ProcessImage | backend/main.py:98-288 | The status is 400 or 500. The reply is a success exactly when type and image are given, the stripped image decodes, the parameters resolve, the OpenCV calls succeed and the result encodes; the result is then the PNG data URI of the encoded output. |
| Backend.Handle | backend/main.py:101-271 | A missing type, then a missing image, raises its 400 HTTPException. Otherwise a decoding failure, a parameter failure or an OpenCV failure (as a non-ValueError) ends the request with that exception, and an encoded result is returned as it is. |
| Backend.StageFailuresAre500 | backend/main.py:113-288 | With type and image given: an image that does not decode is a 500 "图像处理失败: 400: " with the decoder's message; a failed OpenCV call is a 500 with its message; a result that does not encode is a 500 "图像处理失败: 400: " with the encoder's message. |
| Backend.MissingFieldsAre500 | backend/main.py:105-108 | A missing type or image surfaces as a 500 wrapping the 400. |
| Backend.UnsupportedTypeIs500 | backend/main.py:270-271 | An unsupported type with a decodable image is a 500 wrapping "400: 不支持的处理类型: …". |
| Backend.BadRequestMeansValueError | backend/main.py:283-285 | The client sees a 400 exactly when a ValueError escaped. |
| Wire.NumberToPy | src/utils/imageProcessing.ts:121 | An integral JavaScript number is read as an int, any other finite number as a float of the same value; NaN and the infinities are sent as null. |
| Wire.ScalarParam | backend/main.py:30 | As-written value validation: records and undefined fail; null, NaN and the infinities are None; numbers are read by `NumberToPy`; strings and booleans pass through. An array passes exactly when every element is an integral number, as the list of those ints. |
| Wire.ParamsAsWritten | backend/main.py:30 | As written, params are accepted exactly when every sent value is a scalar or an integer list. |
| Wire.NestedParam | backend/main.py:30 | Corrected value validation: a non-record is validated as a scalar. A record is accepted exactly when each defined entry is a scalar, as a dict with the same defined keys whose entries are those scalars as validated. |
| Wire.Params | backend/main.py:30 | Corrected validation accepts exactly the records whose values all validate, entry by entry. |
| Wire.ParamsExtendsAsWritten | backend/main.py:30 | The corrected validation accepts everything the as-written one does, unchanged. |
| Wire.ClientOutcome | src/utils/imageProcessing.ts:124-136 | An ok response yields `result`. An error throws its `detail` when that is non-empty, and otherwise "服务器错误: " followed by the status. |
| Wire.Validate | backend/main.py:27-30 | A body is accepted exactly when its type is a string and its params pass the request model; the type, image and accepted params are handed on unchanged. |
| Wire.Exchange | src/utils/imageProcessing.ts:113-136 | A body the request model rejects makes the client throw its error for the 422 reply (the `rejected` message). An accepted body yields what the client reads from the handler's reply to the validated request. |
| Wire.ServerSeesClientPayload | src/utils/imageProcessing.ts:79 | Take a comma-free image without a data-URI header. The server (backend/main.py:40-41) strips exactly the prefix the client adds. |
| Wire.ResultsChainUnchanged | src/utils/imageProcessing.ts:79 | A server result forwarded to the next node is not re-prefixed, and strips back to the encoder's text. |
| Wire.MorphDefaultsRefusedAsWritten | backend/main.py:30 | As written, an erode or dilate node with its initial parameters (src/components/nodes/ProcessNode.tsx:48-59) always throws: the anchor record fails validation. |
| Wire.MorphDefaultsResolved | backend/main.py:160-194 | With corrected validation the same request resolves to kernel 3, one iteration, MORPH_RECT and anchor (-1, -1). |
| Wire.FrontEndOnlyKindsThrow | backend/main.py:270-271 | Grayscale, blank, contour, mask and the blend kinds, which src/components/nodes/ProcessNode.tsx:159-200 posts, sent with a decodable image, throw "图像处理失败: 400: 不支持的处理类型: <kind>". |

## Findings

| source | as written | input that shows it | evidently intended | confidence | as-written member | corrected member |
|---|---|---|---|---|---|---|
| backend/main.py:30 | `params` values are restricted to `int`, `float`, `str`, `List[int]`, `bool` and `None`, but the erode/dilate default record (src/components/nodes/ProcessNode.tsx:48-59) holds `anchor: {x: -1, y: -1}` | an erode node with its initial parameters and any image | the server accepts the record and reads `anchor["x"]`, `anchor["y"]` (backend/main.py:164, 176) | not executed; follows from the request model's declared value types | Wire.MorphDefaultsRefusedAsWritten | Wire.MorphDefaultsResolved |

## Left out

- The template text of generated programs. The model keeps the statement
  structure and resolved parameters, not the Python or C++ strings.
- Generated-code string formatting of numbers with exponents, and
  `Number`/`parseInt` of hexadecimal or exponent strings.
  `NumberToString` is exact for integers and short fractions.
- `JSON.stringify` equality in the legacy node is taken as structural
  equality. Key order is not modelled.
- JavaScript objects are maps. Prototype properties and property order are
  not modelled.
- `JSON.parse`, `FileReader`, `fetch`, the debounce timer, the download
  link and React rendering are parameters or are not modelled.
- OpenCV calls, base64 and PNG codecs: the model uses parameter functions
  for them. A `cv2.error` is treated as a non-ValueError exception.
- Python's `repr` in error messages is modelled as the text between single
  quotes. Escapes and the choice of quote are not modelled.
- Python's `int()` and `float()` accept underscores, "inf", "nan" and
  exponents. The model accepts plain decimal literals only.
- 32-bit limits on OpenCV arguments are not modelled (Python ints are
  unbounded here).
- Backend.ProcessImage: the `result is None` check (backend/main.py:273-274)
  is not modelled. Every branch assigns a result or raises.
- Backend.ExceptionText: an HTTPException's text is taken as
  "status: detail".
- Backend.MorphConfig: the anchor is read after the kernel is built, so a
  `cv2.error` from a bad kernel would come first. The OpenCV calls are
  abstract in the model, which does not capture this order.
- Wire.ScalarParam: request validation follows the declared union in
  smart mode, which tries the exact JSON types first: 2.5 stays a float and
  true stays a bool. Left-to-right union validation, which would coerce
  them to int, is not modelled. Lax
  string-to-int coercion inside lists, and the exact text of a 422 detail,
  are not modelled; the client's message for a 422 is a parameter.
- Wire.ClientOutcome: a `response.json()` failure on an error response is
  not modelled.
- JavaScript numbers are exact reals in the model; IEEE double rounding is
  not modelled. Past 2^53 the source's `+ 1` can round back to the same
  integer, so the id counter stops advancing. The rows below promise fresh
  ids for all integers, which holds only below 2^53.
- Flow.IntegralCounter: covers every integer; for the source's doubles only
  integers up to 2^53 behave as the model's counter does.
- Flow.Editor.GetId: `counter.n == old(counter).n + 1` holds in the source
  only while the counter is below 2^53; at 2^53 `id += 1` has no effect.
- Flow.Editor.AddNode: keeps ids fresh only below 2^53 in the source.
- Flow.Editor.InstallGraph: with a loaded id of 2^53, `Math.max(...) + 1`
  rounds back to 2^53 in the source, so the next id duplicates it; the
  model's counter is 2^53 + 1 and `Valid()` holds.
- Flow.CounterExceedsLoadedIds: holds in the source only for ids below 2^53.
- Flow.SuccessiveIdsIncrease: two successive ids are equal in the source
  once the counter reaches 2^53.
- Flow.Entries: `Object.entries` of strings and arrays gives no entries in
  the model. JavaScript would give index entries.
- ProcessNode.ParamsMap: `{...params}` of a string or an array spreads its
  index keys in JavaScript; the model gives no keys for them.
- The store hook `useImageStore` (with `setImage`, `setStoreEdges` and
  `getConnectedImage`), used by src/components/ProcessNode.tsx and by
  src/components/Flow.tsx, is not exported by src/store/imageStore.ts. The
  model records the values passed to these calls instead.
- Flow.Editor.OnDrop: node positions and `screenToFlowPosition` are not
  modelled. A thrown parse error is reported as `thrown` and changes
  nothing.
- Flow.Editor.OnLoad: the loaded document is typed, with `nodes` and `edges`
  as sequences. A parsed file without `nodes`, or whose `nodes` is not an
  array, throws at `flowData.nodes.map` (src/components/Flow.tsx:212) before
  any state changes; the model cannot represent such a document.
- The save dialog (`showSaveModal`, `handleSave`) and UI notices other than
  the load result.

## Notes on the code

- A ready two-input (blend) node with one incoming edge is not skipped by
  the code generator. Its `nodeEdges[1].source` throws, so generation as a
  whole fails (CodeGenerator.HalfConnectedBlendThrows). The model follows
  the code.
- `saveFlow` writes the stored results under `data_dict`, while `onLoad`
  reads `images`. A saved flow therefore fails to load after its nodes and
  edges are installed, and its parameter records are never restored
  (Flow.ReloadSavedFlow).
- Loading a flow with no nodes sets the counter to -Infinity. A node id that
  does not parse sets it to NaN. Every id created afterwards is then the
  same string (Flow.IdsAfterEmptyLoad).
- The C++ templates of blank, rectangle, circle and line nodes call
  `.join` on the resolved colour. A colour parameter that is set but is not
  an array (a string, say) throws there, so C++ generation fails where
  Python generation succeeds (CodeGenerator.DialectsAgree). The model
  follows the code.
- Nodes created by `onNodeAdd` carry no `processType`, which the evaluation
  node and the code generator dispatch on.
- The front end posts grayscale, blank, contour, mask and blend operations
  to a server that has no branch for them (Wire.FrontEndOnlyKindsThrow).
