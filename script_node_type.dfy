/**
 * The node-type contract helpers shared by every node type (pin labels, pin
 * lookup, output resolution, data-pin pull, descriptions) and the registry
 * that maps a type id to its node type.
 */
module ScriptNodeType {
  import opened ScriptTypes
  import opened ScriptWait
  import opened ScriptVariables
  import opened ScriptPlayAnimation

  // ---------------------------------------------------------------------
  // Pin descriptions

  function KindName(kind: ElementType): string
  {
    match kind
    case FlowPin => "Flow"
    case ReadDataPin => "Read Data"
    case WriteDataPin => "Write Data"
    case TargetPin => "Target"
    case _ => "?"
  }

  function DirectionName(direction: PinDirection): string
  {
    match direction
    case Input => " Input"
    case Output => " Output"
  }

  /** How many slots of `config` equal `p`. */
  function CountOf(config: seq<PinType>, p: PinType): (n: nat)
    ensures n <= |config|
  {
    if config == [] then 0
    else CountOf(config[..|config| - 1], p) + (if config[|config| - 1] == p then 1 else 0)
  }

  /** The occurrence index of slot `idx`: how many earlier slots equal `p` (0 past the end). */
  function OccurrenceIndex(config: seq<PinType>, p: PinType, idx: nat): nat
  {
    if idx < |config| then CountOf(config[..idx], p) else 0
  }

  /**
   * The label of pin `idx` queried as `p`: kind and direction, then " k" with
   * its occurrence index when more than one slot of the configuration equals `p`.
   */
  function PinLabel(config: seq<PinType>, p: PinType, idx: nat): string
  {
    KindName(p.kind) + DirectionName(p.direction) +
    (if CountOf(config, p) > 1 then " " + NatToString(OccurrenceIndex(config, p, idx)) else "")
  }

  lemma CountStep(config: seq<PinType>, p: PinType, k: nat)
    requires k < |config|
    ensures CountOf(config[..k + 1], p) == CountOf(config[..k], p) + (if config[k] == p then 1 else 0)
  {
    assert config[..k + 1][..k] == config[..k];
  }

  /** Counting over a longer prefix never counts fewer, and strictly more when it passes a match. */
  lemma {:induction false} CountMonotone(config: seq<PinType>, p: PinType, i: nat, j: nat)
    requires i <= j <= |config|
    ensures CountOf(config[..i], p) <= CountOf(config[..j], p)
    ensures i < j && config[i] == p ==> CountOf(config[..i], p) < CountOf(config[..j], p)
    decreases j - i
  {
    if i < j {
      CountMonotone(config, p, i, j - 1);
      CountStep(config, p, j - 1);
    }
  }

  /** Two slots of the same kind and direction never get the same label. */
  lemma LabelsOfEqualSlotsDiffer(config: seq<PinType>, i: nat, j: nat)
    requires i < j < |config| && config[i] == config[j]
    ensures PinLabel(config, config[i], i) != PinLabel(config, config[j], j)
  {
    var p := config[i];
    CountMonotone(config, p, i, j);
    CountMonotone(config, p, j, |config|);
    assert config[..|config|] == config;
    assert CountOf(config, p) > 1;
    var prefix := KindName(p.kind) + DirectionName(p.direction) + " ";
    var a, b := NatToString(CountOf(config[..i], p)), NatToString(CountOf(config[..j], p));
    assert PinLabel(config, p, i) == prefix + a;
    assert PinLabel(config, p, j) == prefix + b;
    if prefix + a == prefix + b {
      assert a == (prefix + a)[|prefix|..];
      assert b == (prefix + b)[|prefix|..];
      NatToStringInjective(CountOf(config[..i], p), CountOf(config[..j], p));
      assert false;
    }
  }

  /** A slot with no other slot of its kind and direction is labelled without a number. */
  lemma LoneSlotUnnumbered(config: seq<PinType>, p: PinType, idx: nat)
    requires CountOf(config, p) <= 1
    ensures PinLabel(config, p, idx) == KindName(p.kind) + DirectionName(p.direction)
  {
  }

  /** Three read-data outputs are numbered 0, 1, 2; a lone write-data output is not numbered. */
  lemma ThreeReadOneWriteLabels()
    ensures var c := [PinType(ReadDataPin, Output), PinType(ReadDataPin, Output),
                      PinType(ReadDataPin, Output), PinType(WriteDataPin, Output)];
      PinLabel(c, c[0], 0) == "Read Data Output 0" &&
      PinLabel(c, c[1], 1) == "Read Data Output 1" &&
      PinLabel(c, c[2], 2) == "Read Data Output 2" &&
      PinLabel(c, c[3], 3) == "Write Data Output"
  {
    var c := [PinType(ReadDataPin, Output), PinType(ReadDataPin, Output),
              PinType(ReadDataPin, Output), PinType(WriteDataPin, Output)];
    var r, w := PinType(ReadDataPin, Output), PinType(WriteDataPin, Output);
    assert c[..0] == [];
    CountStep(c, r, 0);
    CountStep(c, r, 1);
    CountStep(c, r, 2);
    CountStep(c, r, 3);
    CountStep(c, w, 0);
    CountStep(c, w, 1);
    CountStep(c, w, 2);
    CountStep(c, w, 3);
    assert c[..4] == c;
    assert CountOf(c, r) == 3;
    assert CountOf(c, w) == 1;
  }

  /**
   * `getPinDescription`: one pass over the configuration counts the slots
   * equal to the queried pin type (`typeTotal`) and records the count reached
   * at `elementIdx` (`typeIdx`); the label is then appended piece by piece.
   */
  method GetPinDescription(config: seq<PinType>, elementType: PinType, elementIdx: nat) returns (text: string)
    requires elementIdx < 256
    ensures text == PinLabel(config, elementType, elementIdx)
  {
    var typeIdx := 0;
    var typeTotal := 0;
    var i := 0;
    while i < |config|
      invariant 0 <= i <= |config|
      invariant typeTotal == CountOf(config[..i], elementType)
      invariant typeIdx == if elementIdx < i then CountOf(config[..elementIdx], elementType) else 0
    {
      CountStep(config, elementType, i);
      if i == elementIdx {
        typeIdx := typeTotal;
      }
      if config[i] == elementType {
        typeTotal := typeTotal + 1;
      }
      i := i + 1;
    }
    assert config[..|config|] == config;
    text := KindName(elementType.kind);
    text := text + DirectionName(elementType.direction);
    if typeTotal > 1 {
      text := text + " " + NatToString(typeIdx);
    }
  }

  // ---------------------------------------------------------------------
  // Pin lookup and output resolution

  /** `getPin`: the configured slot, or an undefined input past the end. */
  function GetPin(t: NodeType, n: nat): (p: PinType)
    ensures n < |t.pins| ==> p == t.pins[n]
    ensures n >= |t.pins| ==> p == PinType(Undefined, Input)
    ensures p.kind == Undefined ==> n >= |t.pins| || t.pins[n].kind == Undefined
  {
    if n < |t.pins| then t.pins[n] else PinType(Undefined, Input)
  }

  predicate IsFlowOutput(p: PinType)
  {
    p.kind == FlowPin && p.direction == Output
  }

  /** Bit `ordinal` of the mask; ordinals past 31 (undefined shifts in the engine) are inactive. */
  predicate OutputActive(mask: bv32, ordinal: nat)
  {
    ordinal < 32 && mask & (1 as bv32 << ordinal) != 0
  }

  /**
   * The destinations `getOutputNodes` collects from slot `i` on, when the
   * flow-output ordinal there is `ordinal`: every flow-output slot advances
   * the ordinal, and contributes its destination when its bit is set and it
   * is connected.
   */
  function ActiveOutputs(config: seq<PinType>, pins: seq<Pin>, mask: bv32, i: nat, ordinal: nat): seq<nat>
    requires |config| <= |pins|
    decreases |config| - i
  {
    if i >= |config| then []
    else if IsFlowOutput(config[i]) then
      (if OutputActive(mask, ordinal) && pins[i].dstNode.Some? then [pins[i].dstNode.value] else []) +
      ActiveOutputs(config, pins, mask, i + 1, ordinal + 1)
    else ActiveOutputs(config, pins, mask, i + 1, ordinal)
  }

  /** Every connected flow output from slot `i` on, in slot order. */
  function ConnectedOutputs(config: seq<PinType>, pins: seq<Pin>, i: nat): seq<nat>
    requires |config| <= |pins|
    decreases |config| - i
  {
    if i >= |config| then []
    else if IsFlowOutput(config[i]) && pins[i].dstNode.Some? then
      [pins[i].dstNode.value] + ConnectedOutputs(config, pins, i + 1)
    else ConnectedOutputs(config, pins, i + 1)
  }

  /** The number of flow-output slots from slot `i` on. */
  function FlowOutputCount(config: seq<PinType>, i: nat): nat
    decreases |config| - i
  {
    if i >= |config| then 0
    else (if IsFlowOutput(config[i]) then 1 else 0) + FlowOutputCount(config, i + 1)
  }

  /** With every bit set and at most 32 flow outputs, all connected flow outputs are collected. */
  lemma {:induction false} FullMaskCollectsAllConnected(config: seq<PinType>, pins: seq<Pin>, i: nat, ordinal: nat)
    requires |config| <= |pins|
    requires ordinal + FlowOutputCount(config, i) <= 32
    ensures ActiveOutputs(config, pins, 0xFFFF_FFFF, i, ordinal) == ConnectedOutputs(config, pins, i)
    decreases |config| - i
  {
    if i < |config| {
      if IsFlowOutput(config[i]) {
        assert ordinal < 32;
        assert OutputActive(0xFFFF_FFFF, ordinal);
        FullMaskCollectsAllConnected(config, pins, i + 1, ordinal + 1);
      } else {
        FullMaskCollectsAllConnected(config, pins, i + 1, ordinal);
      }
    }
  }

  /** With no bit set, nothing is collected. */
  lemma {:induction false} EmptyMaskCollectsNothing(config: seq<PinType>, pins: seq<Pin>, i: nat, ordinal: nat)
    requires |config| <= |pins|
    ensures ActiveOutputs(config, pins, 0, i, ordinal) == []
    decreases |config| - i
  {
    if i < |config| {
      assert !OutputActive(0, ordinal);
      if IsFlowOutput(config[i]) {
        EmptyMaskCollectsNothing(config, pins, i + 1, ordinal + 1);
      } else {
        EmptyMaskCollectsNothing(config, pins, i + 1, ordinal);
      }
    }
  }

  /**
   * `getOutputNodes`: the four result slots hold, in slot order, the
   * destinations of the active connected flow outputs; the rest are empty.
   * The engine writes the slots without a bound check, so at most four may hit.
   */
  method GetOutputNodes(config: seq<PinType>, node: GraphNode, mask: bv32) returns (result: seq<Option<nat>>)
    requires |config| <= |node.pins|
    requires |ActiveOutputs(config, node.pins, mask, 0, 0)| <= 4
    ensures var hits := ActiveOutputs(config, node.pins, mask, 0, 0);
      |result| == 4 &&
      forall k :: 0 <= k < 4 ==> result[k] == if k < |hits| then Some(hits[k]) else None
  {
    ghost var hits := ActiveOutputs(config, node.pins, mask, 0, 0);
    var slots := new Option<nat>[4](_ => None);
    var curOutputPin := 0;
    var nOutputsFound := 0;
    ghost var found: seq<nat> := [];
    var i := 0;
    while i < |config|
      invariant 0 <= i <= |config|
      invariant nOutputsFound == |found|
      invariant found + ActiveOutputs(config, node.pins, mask, i, curOutputPin) == hits
      invariant forall k :: 0 <= k < 4 ==> slots[k] == if k < |found| then Some(found[k]) else None
    {
      if IsFlowOutput(config[i]) {
        if OutputActive(mask, curOutputPin) {
          var output := node.pins[i];
          if output.dstNode.Some? {
            assert found + [output.dstNode.value] + ActiveOutputs(config, node.pins, mask, i + 1, curOutputPin + 1) == hits;
            slots[nOutputsFound] := output.dstNode;
            nOutputsFound := nOutputsFound + 1;
            found := found + [output.dstNode.value];
          }
        }
        curOutputPin := curOutputPin + 1;
      }
      i := i + 1;
    }
    result := slots[..];
  }

  // ---------------------------------------------------------------------
  // Data pull and connected names

  /**
   * `readDataPin`: an out-of-range or unconnected pin reads as the empty
   * value; otherwise the destination node's type answers for the destination pin.
   */
  function ReadDataPinValue(types: seq<NodeType>, oracles: Oracles, g: Graph, node: GraphNode, pinN: nat): (v: ConfigValue)
    requires pinN < |node.pins| && node.pins[pinN].dstNode.Some? ==>
      node.pins[pinN].dstNode.value < |g.nodes| &&
      TryGetNodeType(types, g.nodes[node.pins[pinN].dstNode.value].typeId).Some?
    ensures pinN >= |node.pins| ==> v == Empty
    ensures pinN < |node.pins| && node.pins[pinN].dstNode.None? ==> v == Empty
    ensures pinN < |node.pins| && node.pins[pinN].dstNode.Some? ==>
      var dst := g.nodes[node.pins[pinN].dstNode.value];
      v == oracles.getData(TryGetNodeType(types, dst.typeId).value, dst, node.pins[pinN].dstPin)
  {
    if pinN >= |node.pins| then Empty
    else
      var pin := node.pins[pinN];
      if pin.dstNode.None? then Empty
      else
        var dst := g.nodes[pin.dstNode.value];
        oracles.getData(TryGetNodeType(types, dst.typeId).value, dst, pin.dstPin)
  }

  /** `getConnectedNodeName`: "<empty>" for an unconnected pin, else the name of the destination's type. */
  function ConnectedNodeName(types: seq<NodeType>, g: Graph, node: GraphNode, pinN: nat): (name: string)
    requires pinN < |node.pins|
    requires node.pins[pinN].dstNode.Some? ==>
      node.pins[pinN].dstNode.value < |g.nodes| &&
      TryGetNodeType(types, g.nodes[node.pins[pinN].dstNode.value].typeId).Some?
    ensures node.pins[pinN].dstNode.None? ==> name == "<empty>"
    ensures node.pins[pinN].dstNode.Some? ==>
      exists t :: t in types && t.id == g.nodes[node.pins[pinN].dstNode.value].typeId && name == t.name
  {
    var pin := node.pins[pinN];
    if pin.dstNode.None? then "<empty>"
    else TryGetNodeType(types, g.nodes[pin.dstNode.value].typeId).value.name
  }

  /** An unconnected pin reads as empty and is named "<empty>". */
  lemma UnconnectedPinIsEmpty(types: seq<NodeType>, oracles: Oracles, g: Graph, node: GraphNode, pinN: nat)
    requires pinN < |node.pins| && node.pins[pinN].dstNode.None?
    ensures ReadDataPinValue(types, oracles, g, node, pinN) == Empty
    ensures ConnectedNodeName(types, g, node, pinN) == "<empty>"
  {
  }

  /**
   * `getDescription`: pin elements are described by their pin label, the
   * node element by the type's node description, anything else by "?".
   */
  method GetDescription(t: NodeType, nodeDescription: string, elementType: PinType, elementIdx: nat)
    returns (text: string)
    requires elementIdx < 256
    ensures elementType.kind in {FlowPin, ReadDataPin, WriteDataPin, TargetPin} ==>
      text == PinLabel(t.pins, elementType, elementIdx)
    ensures elementType.kind == Node ==> text == nodeDescription
    ensures elementType.kind == Undefined ==> text == "?"
  {
    match elementType.kind
    case ReadDataPin => text := GetPinDescription(t.pins, elementType, elementIdx);
    case WriteDataPin => text := GetPinDescription(t.pins, elementType, elementIdx);
    case FlowPin => text := GetPinDescription(t.pins, elementType, elementIdx);
    case TargetPin => text := GetPinDescription(t.pins, elementType, elementIdx);
    case Node => text := nodeDescription;
    case Undefined => text := "?";
  }

  /** `makeData`: a default-constructed record for a node type with node-local data, none for `void`. */
  function MakeData(t: NodeType): (d: Option<StateData>)
    ensures d.None? <==> t.data == NoData
    ensures t.data == WaitData ==> d == Some(ScriptWaitData(0.0))
  {
    match t.data
    case NoData => None
    case WaitData => Some(NewWaitData())
  }

  // ---------------------------------------------------------------------
  // String order of the registry's keys

  /** Lexicographic order on strings, the order in which the registry keeps its ids. */
  predicate Less(a: string, b: string)
    decreases |a|
  {
    |b| > 0 && (|a| == 0 || a[0] < b[0] || (a[0] == b[0] && Less(a[1..], b[1..])))
  }

  lemma {:induction false} LessIrreflexive(a: string)
    ensures !Less(a, a)
    decreases |a|
  {
    if |a| > 0 {
      LessIrreflexive(a[1..]);
    }
  }

  lemma {:induction false} LessTotal(a: string, b: string)
    ensures a == b || Less(a, b) || Less(b, a)
    decreases |a|
  {
    if |a| > 0 && |b| > 0 && a[0] == b[0] {
      LessTotal(a[1..], b[1..]);
      if a[1..] == b[1..] {
        assert a == [a[0]] + a[1..] && b == [b[0]] + b[1..];
      }
    }
  }

  lemma {:induction false} LessTransitive(a: string, b: string, c: string)
    requires Less(a, b) && Less(b, c)
    ensures Less(a, c)
    decreases |a|
  {
    if |a| > 0 && a[0] == b[0] && b[0] == c[0] {
      LessTransitive(a[1..], b[1..], c[1..]);
    }
  }

  ghost predicate SortedById(types: seq<NodeType>)
  {
    forall i, j :: 0 <= i < j < |types| ==> Less(types[i].id, types[j].id)
  }

  // ---------------------------------------------------------------------
  // The registry

  /** `tryGetNodeType`: the entry stored under `id`, or nothing when no entry has that id. */
  function TryGetNodeType(types: seq<NodeType>, id: string): (r: Option<NodeType>)
    ensures r.Some? ==> r.value in types && r.value.id == id
    ensures r.None? <==> forall k :: 0 <= k < |types| ==> types[k].id != id
  {
    if types == [] then None
    else if types[0].id == id then Some(types[0])
    else TryGetNodeType(types[1..], id)
  }

  lemma {:induction false} TryGetConcat(a: seq<NodeType>, b: seq<NodeType>, id: string)
    ensures TryGetNodeType(a + b, id) ==
      if TryGetNodeType(a, id).Some? then TryGetNodeType(a, id) else TryGetNodeType(b, id)
  {
    if a != [] {
      assert (a + b)[0] == a[0];
      assert (a + b)[1..] == a[1..] + b;
      TryGetConcat(a[1..], b, id);
    } else {
      assert a + b == b;
    }
  }

  /** The entries listed for `includeNonAddable`, in key order. */
  function Listed(types: seq<NodeType>, includeNonAddable: bool): (r: seq<NodeType>)
    ensures |r| <= |types|
  {
    if types == [] then []
    else
      var last := types[|types| - 1];
      Listed(types[..|types| - 1], includeNonAddable) + (if last.canAdd || includeNonAddable then [last] else [])
  }

  /** Exactly the entries that are addable, or all of them when non-addable ones are included, are listed, in key order. */
  lemma {:induction false} ListedExactly(types: seq<NodeType>, includeNonAddable: bool)
    requires SortedById(types)
    ensures forall t :: t in Listed(types, includeNonAddable) <==> t in types && (t.canAdd || includeNonAddable)
    ensures SortedById(Listed(types, includeNonAddable))
  {
    if types != [] {
      var init, last := types[..|types| - 1], types[|types| - 1];
      assert types == init + [last];
      assert SortedById(init);
      ListedExactly(init, includeNonAddable);
      var l := Listed(init, includeNonAddable);
      forall k | 0 <= k < |l|
        ensures Less(l[k].id, last.id)
      {
        assert l[k] in init;
        var m :| 0 <= m < |init| && init[m] == l[k];
        assert types[m] == l[k];
      }
    }
  }

  /** The ids and names of one entry list. */
  function Ids(types: seq<NodeType>): (r: seq<string>)
    ensures |r| == |types| && forall k :: 0 <= k < |types| ==> r[k] == types[k].id
  {
    seq(|types|, k requires 0 <= k < |types| => types[k].id)
  }

  function Names(types: seq<NodeType>): (r: seq<string>)
    ensures |r| == |types| && forall k :: 0 <= k < |types| ==> r[k] == types[k].name
  {
    seq(|types|, k requires 0 <= k < |types| => types[k].name)
  }

  /**
   * The entry the last registration of `id` in `registered` leaves, or
   * `before` when `registered` never registers that id.
   */
  function AfterRegistering(registered: seq<NodeType>, id: string, before: Option<NodeType>): Option<NodeType>
  {
    if registered == [] then before
    else AfterRegistering(registered[1..], id, if registered[0].id == id then Some(registered[0]) else before)
  }

  /** A registration sequence that never registers `id` leaves the earlier entry in place. */
  lemma {:induction false} UnregisteredKeeps(registered: seq<NodeType>, id: string, before: Option<NodeType>)
    requires forall j :: 0 <= j < |registered| ==> registered[j].id != id
    ensures AfterRegistering(registered, id, before) == before
    decreases |registered|
  {
    if registered != [] {
      UnregisteredKeeps(registered[1..], id, before);
    }
  }

  /** The last registration of an id is the one that stays. */
  lemma {:induction false} LastRegistrationWins(registered: seq<NodeType>, k: nat, before: Option<NodeType>)
    requires k < |registered|
    requires forall j :: k < j < |registered| ==> registered[j].id != registered[k].id
    ensures AfterRegistering(registered, registered[k].id, before) == Some(registered[k])
    decreases k
  {
    var id := registered[k].id;
    if k == 0 {
      UnregisteredKeeps(registered[1..], id, Some(registered[0]));
    } else {
      LastRegistrationWins(registered[1..], k - 1, if registered[0].id == id then Some(registered[0]) else before);
    }
  }

  /** An id is found after the registrations exactly when it was found before or one of them registers it. */
  lemma {:induction false} RegisteredExactly(registered: seq<NodeType>, id: string, before: Option<NodeType>)
    ensures AfterRegistering(registered, id, before).Some? <==> before.Some? || id in Ids(registered)
    decreases |registered|
  {
    if registered != [] {
      var next := if registered[0].id == id then Some(registered[0]) else before;
      RegisteredExactly(registered[1..], id, next);
      assert Ids(registered) == [registered[0].id] + Ids(registered[1..]);
    }
  }

  /**
   * The built-in node types. Wait, play-animation and the four variable
   * types are modelled here; the other fourteen are declared in files that
   * are not part of this model and arrive as node types.
   */
  datatype Catalog = Catalog(
    start: NodeType, restart: NodeType, stop: NodeType,
    wait: Declared, waitFor: NodeType, playAnimation: Header,
    branch: NodeType, fork: NodeType, mergeAny: NodeType, mergeAll: NodeType,
    logicAnd: NodeType, logicOr: NodeType, logicXor: NodeType, logicNot: NodeType,
    playMusic: NodeType, stopMusic: NodeType,
    variable: Declared, literal: Declared, comparison: Declared, setVariable: Declared)

  /** The built-ins in the engine's registration order. */
  function BasicTypes(c: Catalog): (r: seq<NodeType>)
    ensures |r| == 20
    ensures r[3] == WaitType(c.wait) && r[5] == PlayAnimationType(c.playAnimation)
    ensures r[16..] == [VariableType(c.variable), LiteralType(c.literal),
                        ComparisonType(c.comparison), SetVariableType(c.setVariable)]
  {
    [c.start, c.restart, c.stop, WaitType(c.wait), c.waitFor, PlayAnimationType(c.playAnimation),
     c.branch, c.fork, c.mergeAny, c.mergeAll, c.logicAnd, c.logicOr, c.logicXor, c.logicNot,
     c.playMusic, c.stopMusic,
     VariableType(c.variable), LiteralType(c.literal), ComparisonType(c.comparison), SetVariableType(c.setVariable)]
  }

  /**
   * After registering the built-ins into an empty registry: the four
   * variable types, registered last, are found under their ids; "wait" finds
   * the wait type unless a type registered after it takes that id; and an
   * id is found exactly when one of the twenty built-ins has it.
   */
  lemma BasicRegistration(c: Catalog, id: string)
    ensures var r := AfterRegistering(BasicTypes(c), id, None);
      (id == "variable" ==> r == Some(VariableType(c.variable))) &&
      (id == "literal" ==> r == Some(LiteralType(c.literal))) &&
      (id == "comparison" ==> r == Some(ComparisonType(c.comparison))) &&
      (id == "setVariable" ==> r == Some(SetVariableType(c.setVariable))) &&
      (id == "wait" && (forall k :: 4 <= k < 16 ==> BasicTypes(c)[k].id != "wait") ==> r == Some(WaitType(c.wait))) &&
      (r.Some? <==> id in Ids(BasicTypes(c)))
  {
    var b := BasicTypes(c);
    RegisteredExactly(b, id, None);
    if id == "variable" {
      LastRegistrationWins(b, 16, None);
    } else if id == "literal" {
      LastRegistrationWins(b, 17, None);
    } else if id == "comparison" {
      LastRegistrationWins(b, 18, None);
    } else if id == "setVariable" {
      LastRegistrationWins(b, 19, None);
    } else if id == "wait" && (forall k :: 4 <= k < 16 ==> b[k].id != "wait") {
      assert forall k :: 16 <= k < 20 ==> b[k] == b[16..][k - 16];
      LastRegistrationWins(b, 3, None);
    }
  }

  /** Putting `t` between the entries sorting before it and those sorting after it keeps the order. */
  lemma InsertKeepsSorted(es: seq<NodeType>, p: nat, q: nat, t: NodeType)
    requires SortedById(es) && p <= q <= |es| && q <= p + 1
    requires forall k :: 0 <= k < p ==> Less(es[k].id, t.id)
    requires forall k :: q <= k < |es| ==> Less(t.id, es[k].id)
    ensures SortedById(es[..p] + [t] + es[q..])
  {
    var r := es[..p] + [t] + es[q..];
    forall i, j | 0 <= i < j < |r|
      ensures Less(r[i].id, r[j].id)
    {
      if i < p && j > p {
        LessTransitive(r[i].id, t.id, r[j].id);
      } else if i > p {
        assert r[i] == es[i - p - 1 + q] && r[j] == es[j - p - 1 + q];
      }
    }
  }

  /** After the insertion, `t` is found under its id and every other id finds what it found before. */
  lemma InsertLookup(es: seq<NodeType>, p: nat, q: nat, t: NodeType, id: string)
    requires p <= q <= |es| && q <= p + 1
    requires q == p + 1 ==> es[p].id == t.id
    requires forall k :: 0 <= k < p ==> es[k].id != t.id
    ensures TryGetNodeType(es[..p] + [t] + es[q..], id) == (if id == t.id then Some(t) else TryGetNodeType(es, id))
  {
    var before, rest := es[..p], [t] + es[q..];
    assert es[..p] + [t] + es[q..] == before + rest;
    TryGetConcat(before, rest, id);
    assert rest[0] == t && rest[1..] == es[q..];
    if id != t.id {
      TryGetConcat(before, es[p..], id);
      assert before + es[p..] == es;
      if q == p + 1 {
        assert es[p..][0] == es[p] && es[p..][1..] == es[q..];
      }
    }
  }

  /**
   * `ScriptNodeTypeCollection`: node types keyed by id. The engine keeps a
   * sorted map; here the entries are a sequence sorted by id.
   */
  class ScriptNodeTypeCollection {
    var entries: seq<NodeType>

    ghost predicate Valid()
      reads this
    {
      SortedById(entries)
    }

    /** The collection starts with the built-in node types registered. */
    constructor(c: Catalog)
      ensures Valid()
      ensures forall id :: TryGetNodeType(entries, id) == AfterRegistering(BasicTypes(c), id, None)
    {
      entries := [];
      new;
      AddBasicScriptNodes(c);
    }

    /** `addScriptNode`: stores `t` under its id, replacing any entry with that id. */
    method AddScriptNode(t: NodeType)
      requires Valid()
      modifies this
      ensures Valid()
      ensures forall id :: TryGetNodeType(entries, id) == (if id == t.id then Some(t) else old(TryGetNodeType(entries, id)))
    {
      var p := 0;
      while p < |entries| && Less(entries[p].id, t.id)
        invariant 0 <= p <= |entries|
        invariant forall k :: 0 <= k < p ==> Less(entries[k].id, t.id)
      {
        p := p + 1;
      }
      var es := entries;
      var q := if p < |es| && es[p].id == t.id then p + 1 else p;
      // every entry from q on sorts after t
      forall k | q <= k < |es|
        ensures Less(t.id, es[k].id)
      {
        LessTotal(es[p].id, t.id);
        if k > p && es[p].id != t.id {
          LessTransitive(t.id, es[p].id, es[k].id);
        }
      }
      entries := es[..p] + [t] + es[q..];
      InsertKeepsSorted(es, p, q, t);
      forall k | 0 <= k < p
        ensures es[k].id != t.id
      {
        LessIrreflexive(t.id);
      }
      forall id
        ensures TryGetNodeType(entries, id) == (if id == t.id then Some(t) else TryGetNodeType(es, id))
      {
        InsertLookup(es, p, q, t, id);
      }
    }

    /** `addBasicScriptNodes`: registers the modelled built-ins in the engine's order. */
    method AddBasicScriptNodes(c: Catalog)
      requires Valid()
      modifies this
      ensures Valid()
      ensures forall id ::
        TryGetNodeType(entries, id) == AfterRegistering(BasicTypes(c), id, old(TryGetNodeType(entries, id)))
    {
      var basic := BasicTypes(c);
      var k := 0;
      while k < |basic|
        invariant 0 <= k <= |basic|
        invariant Valid()
        invariant forall id ::
          AfterRegistering(basic[k..], id, TryGetNodeType(entries, id)) == AfterRegistering(basic, id, old(TryGetNodeType(entries, id)))
      {
        AddScriptNode(basic[k]);
        assert basic[k..][1..] == basic[k + 1..];
        k := k + 1;
      }
    }

    /** `getTypes`: the ids of the listed entries, in key order. */
    method GetTypes(includeNonAddable: bool) returns (result: seq<string>)
      ensures result == Ids(Listed(entries, includeNonAddable))
    {
      result := [];
      var k := 0;
      while k < |entries|
        invariant 0 <= k <= |entries|
        invariant result == Ids(Listed(entries[..k], includeNonAddable))
      {
        assert entries[..k + 1][..k] == entries[..k];
        if entries[k].canAdd || includeNonAddable {
          result := result + [entries[k].id];
        }
        k := k + 1;
      }
      assert entries[..|entries|] == entries;
    }

    /** `getNames`: the names of the listed entries, walking the same entries as `GetTypes`. */
    method GetNames(includeNonAddable: bool) returns (result: seq<string>)
      ensures result == Names(Listed(entries, includeNonAddable))
    {
      result := [];
      var k := 0;
      while k < |entries|
        invariant 0 <= k <= |entries|
        invariant result == Names(Listed(entries[..k], includeNonAddable))
      {
        assert entries[..k + 1][..k] == entries[..k];
        if entries[k].canAdd || includeNonAddable {
          result := result + [entries[k].name];
        }
        k := k + 1;
      }
      assert entries[..|entries|] == entries;
    }
  }

  /**
   * `getTypes` and `getNames` agree: equal length, the k-th name belongs to
   * the entry stored under the k-th id, and the ids are listed in strictly
   * increasing order, so each at most once.
   */
  lemma TypesAndNamesCorrespond(types: seq<NodeType>, includeNonAddable: bool)
    requires SortedById(types)
    ensures var ids, names := Ids(Listed(types, includeNonAddable)), Names(Listed(types, includeNonAddable));
      |ids| == |names| &&
      (forall k :: 0 <= k < |ids| ==>
        TryGetNodeType(types, ids[k]).Some? && TryGetNodeType(types, ids[k]).value.name == names[k]) &&
      (forall i, j :: 0 <= i < j < |ids| ==> Less(ids[i], ids[j]))
  {
    var l := Listed(types, includeNonAddable);
    ListedExactly(types, includeNonAddable);
    forall k | 0 <= k < |l|
      ensures TryGetNodeType(types, l[k].id) == Some(l[k])
    {
      assert l[k] in types;
      var m :| 0 <= m < |types| && types[m] == l[k];
      SortedLookup(types, m);
    }
  }

  /** In a registry sorted by id, every entry is what a lookup of its own id finds. */
  lemma {:induction false} SortedLookup(types: seq<NodeType>, m: nat)
    requires SortedById(types) && m < |types|
    ensures TryGetNodeType(types, types[m].id) == Some(types[m])
  {
    if m > 0 {
      LessIrreflexive(types[m].id);
      assert Less(types[0].id, types[m].id);
      assert SortedById(types[1..]);
      SortedLookup(types[1..], m - 1);
    }
  }
}
