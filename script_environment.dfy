/**
 * The scheduler: one call of `ScriptEnvironment.Update` advances a run state
 * by one tick against a graph. The tick is first given as a function
 * (`Tick`, built from `Step`, `RunThread` and `RunFrom`), whose properties
 * are proved as lemmas; the method is then proved to compute it.
 *
 * The engine's loop has no bound: a cycle of nodes that consume no time
 * never ends. The model counts node updates against `maxSteps` and stops
 * updating nodes once the count is spent.
 */
module ScriptEnvironment {
  import opened ScriptTypes
  import opened ScriptNodeType

  /** Every thread that has a node points into the graph. */
  ghost predicate ThreadsIn(g: Graph, ts: seq<Thread>)
  {
    forall k :: 0 <= k < |ts| && ts[k].curNode.Some? ==> ts[k].curNode.value < |g.nodes|
  }

  /** The value of a run state: whether it started, the graph hash it started with, its threads. */
  datatype RunState = RunState(started: bool, graphHash: int, threads: seq<Thread>)

  /** A run state that will not restart against `g` must have its threads in `g`. */
  ghost predicate Resumable(s: RunState, g: Graph)
  {
    s.started && s.graphHash == g.hash ==> ThreadsIn(g, s.threads)
  }

  predicate NeedsRestart(s: RunState, g: Graph)
  {
    !s.started || s.graphHash != g.hash
  }

  /** The restart check: a fresh state with one thread at the start node exactly when needed. */
  function Restart(s: RunState, g: Graph): (r: RunState)
    ensures r.started && r.graphHash == g.hash
    ensures NeedsRestart(s, g) ==> r.threads == [NewThread(g.startNode)]
    ensures !NeedsRestart(s, g) ==> r == s
  {
    if NeedsRestart(s, g) then RunState(true, g.hash, [NewThread(g.startNode)]) else s
  }

  /** `makeNodeData`: none for an unknown type; otherwise the type's new data, initialised only when there is some. */
  function MakeNodeData(types: seq<NodeType>, oracles: Oracles, node: GraphNode): (d: Option<StateData>)
    ensures TryGetNodeType(types, node.typeId).None? ==> d == None
    ensures TryGetNodeType(types, node.typeId).Some? ==>
      var t := TryGetNodeType(types, node.typeId).value;
      d == if t.data == NoData then None else Some(oracles.initData(t, node, MakeData(t).value))
  {
    match TryGetNodeType(types, node.typeId)
    case None => None
    case Some(t) =>
      var result := MakeData(t);
      if result.Some? then Some(oracles.initData(t, node, result.value)) else None
  }

  /** `updateNode`: an unknown type is done at once without consuming time; a known one runs its update. */
  function UpdateNode(types: seq<NodeType>, oracles: Oracles, time: Time, node: GraphNode, data: Option<StateData>)
    : (r: NodeResult)
    ensures TryGetNodeType(types, node.typeId).None? ==> r == NodeResult(0.0, Done, data)
    ensures TryGetNodeType(types, node.typeId).Some? ==>
      r == oracles.update(TryGetNodeType(types, node.typeId).value, time, node, data)
  {
    match TryGetNodeType(types, node.typeId)
    case None => NodeResult(0.0, Done, data)
    case Some(t) => oracles.update(t, time, node, data)
  }

  /** Every thread of `ts` with the budget of the tick. */
  function WithBudget(ts: seq<Thread>, time: Time): (r: seq<Thread>)
    ensures |r| == |ts|
    ensures forall k :: 0 <= k < |ts| ==> r[k].timeSlice == time && r[k] == ts[k].(timeSlice := time)
  {
    seq(|ts|, k requires 0 <= k < |ts| => ts[k].(timeSlice := time))
  }

  /** New threads, one per destination in order, each with `budget`. */
  function Forks(dsts: seq<nat>, budget: Time): seq<Thread>
  {
    seq(|dsts|, j requires 0 <= j < |dsts| => Thread(Some(dsts[j]), budget, false, None))
  }

  predicate Runnable(t: Thread)
  {
    t.timeSlice > 0.0 && t.curNode.Some?
  }

  datatype StepResult = Terminated | Continue(thread: Thread, forks: seq<Thread>)

  /**
   * One pass of the inner loop for thread `t`: enter the node if needed,
   * update it with the nominal `time`, charge the consumed time, and act on
   * the state it reports.
   */
  function Step(types: seq<NodeType>, oracles: Oracles, time: Time, g: Graph, t: Thread): (r: StepResult)
    requires ValidGraph(g) && t.curNode.Some? && t.curNode.value < |g.nodes|
    ensures r.Continue? ==> ThreadsIn(g, [r.thread] + r.forks)
  {
    var node := g.nodes[t.curNode.value];
    var data := if t.nodeStarted then t.data else MakeNodeData(types, oracles, node);
    var res := UpdateNode(types, oracles, time, node, data);
    var timeLeft := t.timeSlice - res.consumed;
    match res.state
    case Terminate => Terminated
    case Executing => Continue(Thread(t.curNode, timeLeft, true, res.data), [])
    case Done =>
      if |node.outputs| == 0 then Continue(Thread(None, timeLeft, false, None), [])
      else Continue(Thread(Some(node.outputs[0]), timeLeft, false, None), Forks(node.outputs[1..], timeLeft))
  }

  /**
   * Thread `i` keeps stepping while it has budget, a node and step count left.
   * Returns the threads and the step count left; an empty list means a node
   * terminated the script.
   */
  function RunThread(types: seq<NodeType>, oracles: Oracles, time: Time, g: Graph, ts: seq<Thread>, i: nat, fuel: nat)
    : (r: (seq<Thread>, nat))
    requires ValidGraph(g) && ThreadsIn(g, ts) && i < |ts|
    ensures r.1 <= fuel
    ensures r.1 == fuel ==> r.0 == ts
    ensures ThreadsIn(g, r.0)
    ensures r.0 == [] || (|ts| <= |r.0| && forall k :: 0 <= k < |ts| && k != i ==> r.0[k] == ts[k])
    ensures r.0 != [] && r.1 > 0 ==> !Runnable(r.0[i])
    decreases fuel
  {
    if fuel == 0 || !Runnable(ts[i]) then (ts, fuel)
    else
      match Step(types, oracles, time, g, ts[i])
      case Terminated => ([], fuel - 1)
      case Continue(t, forks) => RunThread(types, oracles, time, g, ts[i := t] + forks, i, fuel - 1)
  }

  /** The outer loop from thread `i` on; the bound is the current length, so forked threads are run too. */
  function RunFrom(types: seq<NodeType>, oracles: Oracles, time: Time, g: Graph, ts: seq<Thread>, i: nat, fuel: nat)
    : (r: (seq<Thread>, nat))
    requires ValidGraph(g) && ThreadsIn(g, ts)
    ensures r.1 <= fuel
    ensures ThreadsIn(g, r.0)
    ensures r.0 == [] || (|ts| <= |r.0| && forall k :: 0 <= k < i && k < |ts| ==> r.0[k] == ts[k])
    decreases fuel, |ts| - i
  {
    if i >= |ts| then (ts, fuel)
    else
      var after := RunThread(types, oracles, time, g, ts, i, fuel);
      RunFrom(types, oracles, time, g, after.0, i + 1, after.1)
  }

  /** The threads that still have a node, in their order. */
  function Live(ts: seq<Thread>): (r: seq<Thread>)
    ensures |r| <= |ts|
    ensures forall k :: 0 <= k < |r| ==> r[k].curNode.Some?
    ensures forall t :: t in r <==> t in ts && t.curNode.Some?
  {
    if ts == [] then []
    else Live(ts[..|ts| - 1]) + (if ts[|ts| - 1].curNode.Some? then [ts[|ts| - 1]] else [])
  }

  datatype TickOutcome = TickOutcome(state: RunState, stepsLeft: nat)

  /** One tick: restart check, early return without threads, budgets, the thread loop, the purge. */
  function Tick(types: seq<NodeType>, oracles: Oracles, time: Time, g: Graph, s: RunState, maxSteps: nat)
    : (r: TickOutcome)
    requires ValidGraph(g) && Resumable(s, g)
    ensures r.state.started && r.state.graphHash == g.hash
    ensures r.stepsLeft <= maxSteps
    ensures forall k :: 0 <= k < |r.state.threads| ==> r.state.threads[k].curNode.Some?
  {
    var s1 := Restart(s, g);
    if s1.threads == [] then TickOutcome(s1, maxSteps)
    else
      var run := RunFrom(types, oracles, time, g, WithBudget(s1.threads, time), 0, maxSteps);
      TickOutcome(s1.(threads := Live(run.0)), run.1)
  }

  // ---------------------------------------------------------------------
  // Properties of the tick

  /**
   * What one step does, by the state the node reports: Terminate stops;
   * Executing stays on the node with its data; Done releases the data and
   * moves to the first output (or ends), forking one thread per further
   * output, in order, each with the budget left at that moment.
   */
  lemma StepOutcomes(types: seq<NodeType>, oracles: Oracles, time: Time, g: Graph, t: Thread)
    requires ValidGraph(g) && t.curNode.Some? && t.curNode.value < |g.nodes|
    ensures var node := g.nodes[t.curNode.value];
      var res := UpdateNode(types, oracles, time, node, if t.nodeStarted then t.data else MakeNodeData(types, oracles, node));
      var left := t.timeSlice - res.consumed;
      var r := Step(types, oracles, time, g, t);
      (r.Terminated? <==> res.state == Terminate) &&
      (res.state == Executing ==>
        r == Continue(t.(timeSlice := left, nodeStarted := true, data := res.data), [])) &&
      (res.state == Done ==>
        r.Continue? && r.thread.timeSlice == left && !r.thread.nodeStarted && r.thread.data == None &&
        (node.outputs == [] ==> r.thread.curNode == None && r.forks == []) &&
        (node.outputs != [] ==>
          r.thread.curNode == Some(node.outputs[0]) && |r.forks| == |node.outputs| - 1 &&
          forall j :: 0 <= j < |r.forks| ==> r.forks[j] == Thread(Some(node.outputs[j + 1]), left, false, None)))
  {
  }

  /** A node whose type is not registered is left at once, without consuming budget and without data. */
  lemma UnknownTypeIsDoneAtOnce(types: seq<NodeType>, oracles: Oracles, time: Time, g: Graph, t: Thread)
    requires ValidGraph(g) && t.curNode.Some? && t.curNode.value < |g.nodes|
    requires TryGetNodeType(types, g.nodes[t.curNode.value].typeId).None?
    ensures var r := Step(types, oracles, time, g, t);
      r.Continue? && r.thread.timeSlice == t.timeSlice && r.thread.data == None && !r.thread.nodeStarted
  {
  }

  /** A Terminate clears every thread, including those before and after the terminating one. */
  lemma TerminateClearsAll(types: seq<NodeType>, oracles: Oracles, time: Time, g: Graph, ts: seq<Thread>, i: nat, fuel: nat)
    requires ValidGraph(g) && ThreadsIn(g, ts) && i < |ts|
    requires fuel > 0 && Runnable(ts[i])
    requires Step(types, oracles, time, g, ts[i]).Terminated?
    ensures RunThread(types, oracles, time, g, ts, i, fuel).0 == []
    ensures RunFrom(types, oracles, time, g, ts, i, fuel).0 == []
  {
  }

  /** Threads that are not runnable are passed over without a step. */
  lemma {:induction false} IdleThreadsSkipped(types: seq<NodeType>, oracles: Oracles, time: Time, g: Graph,
                                              ts: seq<Thread>, i: nat, fuel: nat)
    requires ValidGraph(g) && ThreadsIn(g, ts)
    requires forall k :: i <= k < |ts| ==> !Runnable(ts[k])
    ensures RunFrom(types, oracles, time, g, ts, i, fuel) == (ts, fuel)
    decreases |ts| - i
  {
    if i < |ts| {
      IdleThreadsSkipped(types, oracles, time, g, ts, i + 1, fuel);
    }
  }

  /**
   * When the step count is not used up, the loop leaves no runnable thread:
   * every thread has spent its budget or has ended.
   */
  lemma {:induction false} RunFromLeavesNoRunnable(types: seq<NodeType>, oracles: Oracles, time: Time, g: Graph,
                                                   ts: seq<Thread>, i: nat, fuel: nat)
    requires ValidGraph(g) && ThreadsIn(g, ts)
    requires forall k :: 0 <= k < i && k < |ts| ==> !Runnable(ts[k])
    ensures var r := RunFrom(types, oracles, time, g, ts, i, fuel);
      r.1 > 0 ==> forall k :: 0 <= k < |r.0| ==> !Runnable(r.0[k])
    decreases fuel, |ts| - i
  {
    if i < |ts| {
      var after := RunThread(types, oracles, time, g, ts, i, fuel);
      if after.0 != [] {
        if after.1 > 0 {
          assert forall k :: 0 <= k < i + 1 && k < |after.0| ==> !Runnable(after.0[k]);
          RunFromLeavesNoRunnable(types, oracles, time, g, after.0, i + 1, after.1);
        }
      } else {
        IdleThreadsSkipped(types, oracles, time, g, after.0, i + 1, after.1);
      }
    }
  }

  /** The purge keeps the order: filtering a concatenation concatenates the filtered parts. */
  lemma {:induction false} LiveConcat(a: seq<Thread>, b: seq<Thread>)
    ensures Live(a + b) == Live(a) + Live(b)
    decreases |b|
  {
    if b == [] {
      assert a + b == a;
    } else {
      var b' := b[..|b| - 1];
      assert (a + b)[..|a + b| - 1] == a + b';
      LiveConcat(a, b');
    }
  }

  /**
   * A state that already ran this graph and has no threads left (after a
   * Terminate, or after every thread ended) stays as it is: no restart.
   */
  lemma TickInertWhenEmpty(types: seq<NodeType>, oracles: Oracles, time: Time, g: Graph, s: RunState, maxSteps: nat)
    requires ValidGraph(g)
    requires s.started && s.graphHash == g.hash && s.threads == []
    ensures Tick(types, oracles, time, g, s, maxSteps) == TickOutcome(s, maxSteps)
  {
  }

  /** A state that must restart forgets its threads: the tick is the same as from a fresh state. */
  lemma TickRestartDiscardsThreads(types: seq<NodeType>, oracles: Oracles, time: Time, g: Graph,
                                   s: RunState, maxSteps: nat)
    requires ValidGraph(g) && NeedsRestart(s, g)
    ensures Tick(types, oracles, time, g, s, maxSteps) ==
            Tick(types, oracles, time, g, RunState(false, 0, []), maxSteps)
  {
  }

  /**
   * After a tick that did not use up the step count, every remaining thread
   * has spent its whole budget.
   */
  lemma TickSpendsBudgets(types: seq<NodeType>, oracles: Oracles, time: Time, g: Graph, s: RunState, maxSteps: nat)
    requires ValidGraph(g) && Resumable(s, g)
    ensures var r := Tick(types, oracles, time, g, s, maxSteps);
      r.stepsLeft > 0 ==> forall k :: 0 <= k < |r.state.threads| ==> r.state.threads[k].timeSlice <= 0.0
  {
    var s1 := Restart(s, g);
    if s1.threads != [] {
      var run := RunFrom(types, oracles, time, g, WithBudget(s1.threads, time), 0, maxSteps);
      RunFromLeavesNoRunnable(types, oracles, time, g, WithBudget(s1.threads, time), 0, maxSteps);
      var r := Tick(types, oracles, time, g, s, maxSteps);
      forall k | 0 <= k < |r.state.threads|
        ensures r.stepsLeft > 0 ==> r.state.threads[k].timeSlice <= 0.0
      {
        assert r.state.threads[k] in run.0;
      }
    }
  }

  /** A tick without positive time updates no node: threads keep their place and only lose ended ones. */
  lemma TickWithoutTime(types: seq<NodeType>, oracles: Oracles, time: Time, g: Graph, s: RunState, maxSteps: nat)
    requires ValidGraph(g) && Resumable(s, g) && time <= 0.0
    ensures var r := Tick(types, oracles, time, g, s, maxSteps);
      r.stepsLeft == maxSteps && r.state.threads == Live(WithBudget(Restart(s, g).threads, time))
  {
    var ts := WithBudget(Restart(s, g).threads, time);
    IdleThreadsSkipped(types, oracles, time, g, ts, 0, maxSteps);
  }

  /** A start node without flow outputs that finishes ends the script within the first tick of positive time. */
  lemma LoneStartNodeEndsInOneTick(types: seq<NodeType>, oracles: Oracles, time: Time, g: Graph,
                                   s: RunState, maxSteps: nat)
    requires ValidGraph(g) && NeedsRestart(s, g)
    requires time > 0.0 && maxSteps > 0
    requires g.nodes[g.startNode].outputs == []
    requires UpdateNode(types, oracles, time, g.nodes[g.startNode],
                        MakeNodeData(types, oracles, g.nodes[g.startNode])).state == Done
    ensures Tick(types, oracles, time, g, s, maxSteps).state.threads == []
  {
    var ts := WithBudget([NewThread(g.startNode)], time);
    assert Runnable(ts[0]);
    var step := Step(types, oracles, time, g, ts[0]);
    assert step.Continue? && step.thread.curNode == None && step.forks == [];
    var ts' := ts[0 := step.thread] + step.forks;
    assert ts' == [step.thread];
    assert !Runnable(ts'[0]);
    assert RunThread(types, oracles, time, g, ts', 0, maxSteps - 1) == (ts', maxSteps - 1);
    assert RunThread(types, oracles, time, g, ts, 0, maxSteps) == (ts', maxSteps - 1);
    assert RunFrom(types, oracles, time, g, ts', 1, maxSteps - 1) == (ts', maxSteps - 1);
    assert RunFrom(types, oracles, time, g, ts, 0, maxSteps) == (ts', maxSteps - 1);
    assert Live(ts') == [];
  }

  // ---------------------------------------------------------------------
  // The run state and the scheduler

  /** `ScriptState`: the per-instance run state the scheduler updates in place. */
  class ScriptState {
    var started: bool
    var graphHash: int
    var threads: seq<Thread>

    constructor()
      ensures !started && graphHash == 0 && threads == []
    {
      started, graphHash, threads := false, 0, [];
    }

    function View(): RunState
      reads this
    {
      RunState(started, graphHash, threads)
    }

    /** Clears the threads, places one at the start node, and records the graph hash. */
    method Start(startNode: nat, hash: int)
      modifies this
      ensures started && graphHash == hash && threads == [NewThread(startNode)]
    {
      started := true;
      graphHash := hash;
      threads := [NewThread(startNode)];
    }
  }

  /** `ScriptEnvironment`: the registry and the node behaviours the scheduler consults. */
  class ScriptEnvironment {
    const nodeTypes: ScriptNodeTypeCollection
    const oracles: Oracles

    constructor(nodeTypes: ScriptNodeTypeCollection, oracles: Oracles)
      ensures this.nodeTypes == nodeTypes && this.oracles == oracles
    {
      this.nodeTypes := nodeTypes;
      this.oracles := oracles;
    }

    /**
     * `update`: advances `state` by one tick of `time` against `graph`, and
     * returns how many of the `maxSteps` node updates were left unused.
     */
    method Update(time: Time, graph: Graph, state: ScriptState, maxSteps: nat) returns (stepsLeft: nat)
      requires ValidGraph(graph) && Resumable(state.View(), graph)
      modifies state
      ensures TickOutcome(state.View(), stepsLeft) ==
              Tick(nodeTypes.entries, oracles, time, graph, old(state.View()), maxSteps)
      ensures forall k :: 0 <= k < |state.threads| ==> state.threads[k].curNode.Some?
    {
      if !state.started || state.graphHash != graph.hash {
        state.Start(graph.startNode, graph.hash);
      }
      assert state.View() == Restart(old(state.View()), graph);
      if state.threads == [] {
        stepsLeft := maxSteps;
        return;
      }

      var threads := AllotTime(state.threads, time);
      ghost var final := RunFrom(nodeTypes.entries, oracles, time, graph, threads, 0, maxSteps);
      assert Tick(nodeTypes.entries, oracles, time, graph, old(state.View()), maxSteps) ==
             TickOutcome(state.View().(threads := Live(final.0)), final.1);
      ghost var entered := state.View();
      var fuel := maxSteps;
      var i := 0;
      while i < |threads|
        invariant ThreadsIn(graph, threads)
        invariant RunFrom(nodeTypes.entries, oracles, time, graph, threads, i, fuel) == final
        invariant state.View() == entered
        decreases fuel, |threads| - i
      {
        threads, fuel := RunOneThread(time, graph, threads, i, fuel);
        i := i + 1;
      }

      state.threads := Purge(threads);
      stepsLeft := fuel;
    }

    /** The inner loop for thread `i`: it keeps updating its node while it has budget and a node. */
    method RunOneThread(time: Time, graph: Graph, threads: seq<Thread>, i: nat, fuel: nat)
      returns (threads': seq<Thread>, fuel': nat)
      requires ValidGraph(graph) && ThreadsIn(graph, threads) && i < |threads|
      ensures (threads', fuel') == RunThread(nodeTypes.entries, oracles, time, graph, threads, i, fuel)
    {
      var types := nodeTypes.entries;
      ghost var after := RunThread(types, oracles, time, graph, threads, i, fuel);
      threads', fuel' := threads, fuel;
      while fuel' > 0 && threads'[i].timeSlice > 0.0 && threads'[i].curNode.Some?
        invariant i < |threads'|
        invariant ThreadsIn(graph, threads')
        invariant RunThread(types, oracles, time, graph, threads', i, fuel') == after
        decreases fuel'
      {
        ghost var step := Step(types, oracles, time, graph, threads'[i]);
        var thread := threads'[i];
        var node := graph.nodes[thread.curNode.value];
        if !thread.nodeStarted {
          thread := thread.(nodeStarted := true, data := MakeNodeData(types, oracles, node));
        }
        var res := UpdateNode(types, oracles, time, node, thread.data);
        var timeLeft := thread.timeSlice - res.consumed;
        fuel' := fuel' - 1;
        if res.state == Terminate {
          // the node stops the whole script: no thread survives
          assert step.Terminated?;
          threads' := [];
          return;
        } else if res.state == Done {
          // leave the node: follow the first output, fork for the rest
          var outputs := node.outputs;
          if |outputs| == 0 {
            assert step == Continue(Thread(None, timeLeft, false, None), []);
            threads' := threads'[i := Thread(None, timeLeft, false, None)];
            assert threads' == threads'[..] + [];
          } else {
            assert step == Continue(Thread(Some(outputs[0]), timeLeft, false, None), Forks(outputs[1..], timeLeft));
            threads' := threads'[i := Thread(Some(outputs[0]), timeLeft, false, None)];
            threads' := AppendForks(threads', outputs, timeLeft);
          }
        } else {
          assert step == Continue(Thread(thread.curNode, timeLeft, true, res.data), []);
          threads' := threads'[i := Thread(thread.curNode, timeLeft, true, res.data)];
          assert threads' == threads'[..] + [];
        }
      }
    }
  }

  /** Every thread gets the tick's budget. */
  method AllotTime(threads: seq<Thread>, time: Time) returns (r: seq<Thread>)
    ensures r == WithBudget(threads, time)
  {
    r := threads;
    var k := 0;
    while k < |r|
      invariant 0 <= k <= |r| == |threads|
      invariant forall j :: 0 <= j < k ==> r[j] == threads[j].(timeSlice := time)
      invariant forall j :: k <= j < |r| ==> r[j] == threads[j]
    {
      r := r[k := r[k].(timeSlice := time)];
      k := k + 1;
    }
  }

  /** One new thread per output after the first, appended in order, each with the budget left. */
  method AppendForks(threads: seq<Thread>, outputs: seq<nat>, timeLeft: Time) returns (r: seq<Thread>)
    requires |outputs| > 0
    ensures r == threads + Forks(outputs[1..], timeLeft)
  {
    r := threads;
    var j := 1;
    while j < |outputs|
      invariant 1 <= j <= |outputs|
      invariant r == threads + Forks(outputs[1..j], timeLeft)
    {
      assert Forks(outputs[1..j + 1], timeLeft) ==
             Forks(outputs[1..j], timeLeft) + [Thread(Some(outputs[j]), timeLeft, false, None)];
      r := r + [NewThread(outputs[j]).(timeSlice := timeLeft)];
      j := j + 1;
    }
  }

  /** Removes the threads that have no node left, keeping the order of the rest. */
  method Purge(threads: seq<Thread>) returns (kept: seq<Thread>)
    ensures kept == Live(threads)
  {
    kept := [];
    var m := 0;
    while m < |threads|
      invariant 0 <= m <= |threads|
      invariant kept == Live(threads[..m])
    {
      assert threads[..m + 1][..m] == threads[..m];
      if threads[m].curNode.Some? {
        kept := kept + [threads[m]];
      }
      m := m + 1;
    }
    assert threads[..|threads|] == threads;
  }
}
