/**
 * The values shared by the scripting core: pins and their kinds, node-type
 * declarations, the authored graph, node-local data, the per-thread cursor
 * of a run state, and the behaviours of node types, which the model treats
 * as oracles.
 */
module ScriptTypes {

  datatype Option<+T> = None | Some(value: T)

  /** Durations; the engine uses a float, only subtraction and `> 0` matter here. */
  type Time = real

  /** An entity reference carried by a Target pin. */
  type EntityId = int

  /** The element an editor or a description can point at: one of four pin kinds, or the node itself. */
  datatype ElementType = Undefined | Node | FlowPin | ReadDataPin | WriteDataPin | TargetPin

  datatype PinDirection = Input | Output

  /** One slot of a node type's pin configuration. */
  datatype PinType = PinType(kind: ElementType, direction: PinDirection)

  datatype ExecutionState = Executing | Done | Terminate

  datatype Classification = FlowControl | Variable | Action | Unknown

  /** A configuration field surfaced to authoring: id, value-type tag, accepted literal values. */
  datatype SettingType = SettingType(name: string, valueType: string, values: seq<string>)

  /** Which node-local data record a node type carries (`ScriptNodeTypeBase<T>`; `void` is NoData). */
  datatype DataKind = NoData | WaitData

  /** Node-local data, owned by the thread currently on the node. */
  datatype StateData = ScriptWaitData(timeLeft: Time)

  /** Which of the hooks of `ScriptNodeTypeBase` a node type overrides. */
  datatype Hooks = Hooks(update: bool, getData: bool, initData: bool)

  /** A node type as the registry stores it: the constant answers of its overrides. */
  datatype NodeType = NodeType(
    id: string,
    name: string,
    icon: string,
    classification: Classification,
    pins: seq<PinType>,
    settings: seq<SettingType>,
    data: DataKind,
    hooks: Hooks,
    canAdd: bool)

  /** The parts of a node type declared in files outside the model: pin layout, setting schema, `canAdd`. */
  datatype Declared = Declared(pins: seq<PinType>, settings: seq<SettingType>, canAdd: bool)

  /** A value read from a data pin or a setting; `Empty` is the empty `ConfigNode`. */
  datatype ConfigValue = Empty | Bool(b: bool) | Int(i: int) | Float(r: real) | Str(s: string)

  /** A pin of a node instance: its connection, if any, and the entity a Target pin names. */
  datatype Pin = Pin(dstNode: Option<nat>, dstPin: nat, entity: EntityId)

  /**
   * A node of an authored graph. `outputs` is what the node reports as its live
   * flow destinations, in declared pin order.
   */
  datatype GraphNode = GraphNode(typeId: string, settings: map<string, string>, pins: seq<Pin>, outputs: seq<nat>)

  datatype Graph = Graph(nodes: seq<GraphNode>, startNode: nat, hash: int)

  /** Every node id the graph mentions names one of its nodes. */
  ghost predicate ValidGraph(g: Graph)
  {
    g.startNode < |g.nodes| &&
    (forall n, k :: 0 <= n < |g.nodes| && 0 <= k < |g.nodes[n].outputs| ==> g.nodes[n].outputs[k] < |g.nodes|) &&
    (forall n, k :: 0 <= n < |g.nodes| && 0 <= k < |g.nodes[n].pins| && g.nodes[n].pins[k].dstNode.Some? ==>
      g.nodes[n].pins[k].dstNode.value < |g.nodes|)
  }

  /** What a node's update reports: time consumed, the new state, and its node-local data afterwards. */
  datatype NodeResult = NodeResult(consumed: Time, state: ExecutionState, data: Option<StateData>)

  /**
   * The behaviours of node types, whose bodies are outside the model:
   * `update` (with the data it may change in place), `initData`, and `getData`.
   */
  datatype Oracles = Oracles(
    update: (NodeType, Time, GraphNode, Option<StateData>) -> NodeResult,
    initData: (NodeType, GraphNode, StateData) -> StateData,
    getData: (NodeType, GraphNode, nat) -> ConfigValue)

  /** One flow cursor: current node (None once ended), remaining budget, whether the node was entered, its data. */
  datatype Thread = Thread(curNode: Option<nat>, timeSlice: Time, nodeStarted: bool, data: Option<StateData>)

  /** A thread freshly positioned on a node, not yet entered and without data. */
  function NewThread(node: nat): (t: Thread)
  {
    Thread(Some(node), 0.0, false, None)
  }

  /** Decimal text of a natural number. */
  function NatToString(n: nat): (s: string)
    decreases n
  {
    if n < 10 then [Digit(n)] else NatToString(n / 10) + [Digit(n % 10)]
  }

  function Digit(d: nat): char
    requires d < 10
  {
    "0123456789"[d]
  }

  lemma {:induction false} NatToStringShape(n: nat)
    ensures 1 <= |NatToString(n)|
    ensures (|NatToString(n)| == 1) == (n < 10)
    ensures NatToString(n)[|NatToString(n)| - 1] == Digit(n % 10)
  {
    if n >= 10 {
      NatToStringShape(n / 10);
    }
  }

  /** Different numbers print differently, so numbered labels never collide. */
  lemma {:induction false} NatToStringInjective(n: nat, m: nat)
    requires NatToString(n) == NatToString(m)
    ensures n == m
    decreases n
  {
    NatToStringShape(n);
    NatToStringShape(m);
    if n >= 10 {
      assert m >= 10;
      var sn, sm := NatToString(n), NatToString(m);
      assert sn[..|sn| - 1] == NatToString(n / 10);
      assert sm[..|sm| - 1] == NatToString(m / 10);
      NatToStringInjective(n / 10, m / 10);
      assert Digit(n % 10) == Digit(m % 10);
    } else {
      assert m < 10;
      assert Digit(n) == Digit(m);
    }
  }
}
