# Halley node-graph scripting core, modelled in Dafny

This project models the interpreter core of the Halley engine's visual
scripting runtime:

- **The per-tick scheduler** `ScriptEnvironment::update` does the following:
  - It restarts a run state when the graph's hash changes.
  - It gives every thread the tick's time budget.
  - It walks each thread through nodes while the thread has budget and a node. Each node reports `Executing`, `Done` or `Terminate`.
  - On `Done`, it forks one thread per extra flow output. Forked threads run in the same tick.
  - On `Terminate`, it clears all threads.
  - At the end of the tick, it purges the threads that ended.
- **The node-type contract helpers** are:
  - pin labels (`getPinDescription`)
  - bounded pin lookup (`getPin`)
  - mask-driven output resolution (`getOutputNodes`)
  - the one-step data-pin pull (`readDataPin`)
  - connected-node names
  - the description dispatch
- **The node-type registry** `ScriptNodeTypeCollection` maps a type id to a node type. It also does the filtered listing of ids and names and the registration of the built-ins.
- **The concrete declarations** are:
  - play-animation: its pins, settings, update and description text
  - wait and its `ScriptWaitData` record
  - the variable, literal, comparison and set-variable node types

Layout:

| file | module | contents |
|---|---|---|
| `script_types.dfy` | `ScriptTypes` | pins, node types, graphs, threads, node results, the behaviour oracles, decimal printing |
| `script_wait.dfy` | `ScriptWait` | the wait node type and its data record |
| `script_variables.dfy` | `ScriptVariables` | the four variable node types |
| `script_play_animation.dfy` | `ScriptPlayAnimation` | the play-animation node type, its update and description |
| `script_node_type.dfy` | `ScriptNodeType` | the contract helpers and the registry class |
| `script_environment.dfy` | `ScriptEnvironment` | the scheduler: the tick as a function, the run-state class, and the `Update` method proved to compute the tick |

How the model is organised:

- **Node behaviour.** The bodies of node behaviours are not part of the model: `update`, `initData` and `getData`.
  - They are total functions in an `Oracles` value.
  - `update` also returns the node-local data after the call, because the engine changes that data through a pointer.
- **The scheduler** is specified twice:
  - by the functions `Step`, `RunThread`, `RunFrom` and `Tick`, whose properties are lemmas;
  - by the class method `ScriptEnvironment.Update`, whose postcondition says that it computes `Tick`.
- **The registry** keeps its entries as a sequence sorted by id under lexicographic order, the order in which an ordered map keyed by id is walked.

A start node without flow outputs does not end in a tick of duration 0, because a thread runs only while its budget is strictly positive (script_environment.cpp:37):

- `TickWithoutTime` proves that a tick of non-positive duration runs no node.
- `LoneStartNodeEndsInOneTick` proves that such a start node ends within the first tick of positive duration.

## Model


| member | source | states |
|---|---|---|
| ScriptTypes.NatToStringShape | src/engine/entity/src/scripting/script_node_type.cpp:82 | the decimal text of a number is non-empty, has one character exactly for numbers below 10, and ends in the last digit |
| ScriptTypes.NatToStringInjective | src/engine/entity/src/scripting/script_node_type.cpp:82 | different occurrence indices print as different text |
| ScriptWait.NewWaitData | src/engine/entity/src/scripting/nodes/script_wait.h:5-10 | a new wait record has `timeLeft` 0 |
| ScriptWait.WaitType | src/engine/entity/src/scripting/nodes/script_wait.h:12-22 | wait has id "wait", name "Wait for Time", its icon, FlowControl classification, carries a `ScriptWaitData` record, overrides update and initData but not getData |
| ScriptVariables.DefaultSettingTypes | src/engine/entity/src/scripting/script_node_type.cpp:13-16 | a node type that does not override `getSettingTypes` has no settings |
| ScriptVariables.VariableType | src/engine/entity/src/scripting/nodes/script_variables.h:5-16 | id "variable", name "Variable", its icon; a `Variable`-classified pull node with no data that answers getData and has no update |
| ScriptVariables.LiteralType | src/engine/entity/src/scripting/nodes/script_variables.h:18-29 | id "literal", name "Literal", its icon; a pull node like Variable |
| ScriptVariables.ComparisonType | src/engine/entity/src/scripting/nodes/script_variables.h:31-42 | id "comparison", name "Comparison", its icon; a pull node like Variable |
| ScriptVariables.SetVariableType | src/engine/entity/src/scripting/nodes/script_variables.h:44-54 | id "setVariable", name "Set Variable", its icon; an `Action` node with no data that has an update and no getData, and the empty default setting schema |
| ScriptVariables.VariableIdsDistinct | src/engine/entity/src/scripting/nodes/script_variables.h:7-46 | the four ids are pairwise distinct |
| ScriptPlayAnimation.PlayAnimationType | src/engine/entity/src/scripting/nodes/script_play_animation.cpp:12-23 | pins are exactly [Flow Input, Flow Output, Target Output], slot 2 is the Target Output, settings are the single "sequence" field of type "Halley::String" with values ["default"], no node data, update only |
| ScriptPlayAnimation.SettingAsString | src/engine/entity/src/scripting/nodes/script_play_animation.cpp:42 | a setting reads as its stored text, or as the fallback when absent |
| ScriptPlayAnimation.DoUpdate | src/engine/entity/src/scripting/nodes/script_play_animation.cpp:36-46 | always Done; when the entity on pin 2 exists and has a sprite-animation component, that component becomes the player's `setSequence` applied to it and the "sequence" setting ("" when unset), and no other entity changes; otherwise the world is unchanged |
| ScriptPlayAnimation.GetNodeDescription | src/engine/entity/src/scripting/nodes/script_play_animation.cpp:25-34 | the text is `Play sequence "<seq>" on entity "<target>".`, with "default" for an unset sequence |
| ScriptNodeType.CountOf | src/engine/entity/src/scripting/script_node_type.cpp:67-76 | the number of configuration slots equal to a pin type is at most the configuration's length |
| ScriptNodeType.CountStep | src/engine/entity/src/scripting/script_node_type.cpp:69-76 | one more slot adds one to the count exactly when it matches |
| ScriptNodeType.CountMonotone | src/engine/entity/src/scripting/script_node_type.cpp:67-76 | the count over a longer prefix is never smaller, and strictly larger past a matching slot |
| ScriptNodeType.LabelsOfEqualSlotsDiffer | src/engine/entity/src/scripting/script_node_type.cpp:38-85 | two slots with the same kind and direction never get the same label |
| ScriptNodeType.LoneSlotUnnumbered | src/engine/entity/src/scripting/script_node_type.cpp:78-83 | when at most one slot equals the queried pin type, the label is kind and direction with no number |
| ScriptNodeType.ThreeReadOneWriteLabels | src/engine/entity/src/scripting/script_node_type.cpp:38-85 | three read-data outputs are labelled "Read Data Output 0/1/2" and a lone write-data output "Write Data Output" |
| ScriptNodeType.GetPinDescription | src/engine/entity/src/scripting/script_node_type.cpp:38-85 | the counting loop yields the kind name, " Input"/" Output", and " k" with k the number of equal slots before `elementIdx` exactly when more than one slot equals the queried pin type |
| ScriptNodeType.GetPin | src/engine/entity/src/scripting/script_node_type.cpp:87-94 | slot `n` when in range, else an undefined input |
| ScriptNodeType.FullMaskCollectsAllConnected | src/engine/entity/src/scripting/script_node_type.cpp:123-147 | with every mask bit set (and at most 32 flow outputs) every connected flow output is collected, in pin order |
| ScriptNodeType.EmptyMaskCollectsNothing | src/engine/entity/src/scripting/script_node_type.cpp:123-147 | with no mask bit set nothing is collected |
| ScriptNodeType.GetOutputNodes | src/engine/entity/src/scripting/script_node_type.cpp:123-147 | the four slots hold, in pin order, the destinations of connected flow outputs whose flow-output ordinal bit is set (the ordinal advancing on every flow output), the rest empty; at most four such hits |
| ScriptNodeType.ReadDataPinValue | src/engine/entity/src/scripting/script_node_type.cpp:96-111 | empty for an out-of-range or unconnected pin, else the destination type's getData at the destination pin |
| ScriptNodeType.ConnectedNodeName | src/engine/entity/src/scripting/script_node_type.cpp:113-121 | "<empty>" for an unconnected pin, else the name of a registered type with the destination's type id |
| ScriptNodeType.UnconnectedPinIsEmpty | src/engine/entity/src/scripting/script_node_type.cpp:96-121 | an unconnected pin reads as empty and is named "<empty>" |
| ScriptNodeType.GetDescription | src/engine/entity/src/scripting/script_node_type.cpp:18-31 | pin elements get their pin label, the node element the node description, anything else "?" |
| ScriptNodeType.MakeData | src/engine/entity/src/scripting/script_environment.cpp:103 | a record exactly for types with node data; for wait, a record with `timeLeft` 0 |
| ScriptNodeType.LessIrreflexive | src/engine/entity/src/scripting/script_node_type.cpp:157 | no id sorts before itself |
| ScriptNodeType.LessTotal | src/engine/entity/src/scripting/script_node_type.cpp:157 | of two different ids one sorts first |
| ScriptNodeType.LessTransitive | src/engine/entity/src/scripting/script_node_type.cpp:157 | the id order is transitive |
| ScriptNodeType.TryGetNodeType | src/engine/entity/src/scripting/script_node_type.cpp:160-167 | a found type is stored with that id; nothing is found exactly when no entry has the id |
| ScriptNodeType.TryGetConcat | src/engine/entity/src/scripting/script_node_type.cpp:160-167 | a lookup in two runs of entries finds the first run's entry if it has one |
| ScriptNodeType.ListedExactly | src/engine/entity/src/scripting/script_node_type.cpp:169-191 | the listed entries are exactly those with `canAdd` or all when non-addable are included, in id order |
| ScriptNodeType.Ids | src/engine/entity/src/scripting/script_node_type.cpp:175 | position k holds the k-th entry's id |
| ScriptNodeType.Names | src/engine/entity/src/scripting/script_node_type.cpp:187 | position k holds the k-th entry's name |
| ScriptNodeType.UnregisteredKeeps | src/engine/entity/src/scripting/script_node_type.cpp:154-158 | registrations that never use an id leave what that id found before |
| ScriptNodeType.LastRegistrationWins | src/engine/entity/src/scripting/script_node_type.cpp:154-158 | after a run of registrations an id finds the last type registered under it |
| ScriptNodeType.RegisteredExactly | src/engine/entity/src/scripting/script_node_type.cpp:154-158 | after a run of registrations an id is found exactly when it was found before or one of them has that id |
| ScriptNodeType.BasicTypes | src/engine/entity/src/scripting/script_node_type.cpp:193-215 | the twenty built-ins in registration order: wait fourth, play-animation sixth, the four variable types last |
| ScriptNodeType.BasicRegistration | src/engine/entity/src/scripting/script_node_type.cpp:193-215 | after registering the built-ins each variable type is found under its id, "wait" finds the wait type unless a type registered after it has that id, and an id is found exactly when one of the twenty built-ins has it |
| ScriptNodeType.InsertKeepsSorted | src/engine/entity/src/scripting/script_node_type.cpp:154-158 | inserting between the smaller and larger ids keeps the entries sorted |
| ScriptNodeType.InsertLookup | src/engine/entity/src/scripting/script_node_type.cpp:154-158 | after the insertion the new type is found under its id and every other lookup is unchanged |
| ScriptNodeType.ScriptNodeTypeCollection.constructor | src/engine/entity/src/scripting/script_node_type.cpp:149-152 | a new collection holds what registering the twenty built-ins into an empty map leaves, sorted by id |
| ScriptNodeType.ScriptNodeTypeCollection.AddScriptNode | src/engine/entity/src/scripting/script_node_type.cpp:154-158 | stores the type under its id, replacing an entry with that id, every other lookup unchanged, entries stay sorted |
| ScriptNodeType.ScriptNodeTypeCollection.AddBasicScriptNodes | src/engine/entity/src/scripting/script_node_type.cpp:193-215 | every lookup gives what registering the twenty built-ins in order leaves |
| ScriptNodeType.ScriptNodeTypeCollection.GetTypes | src/engine/entity/src/scripting/script_node_type.cpp:169-179 | the ids of the listed entries, in id order |
| ScriptNodeType.ScriptNodeTypeCollection.GetNames | src/engine/entity/src/scripting/script_node_type.cpp:181-191 | the names of the listed entries, in id order |
| ScriptNodeType.TypesAndNamesCorrespond | src/engine/entity/src/scripting/script_node_type.cpp:169-191 | the two lists have equal length, the k-th name belongs to the type stored under the k-th id, and ids are strictly increasing |
| ScriptNodeType.SortedLookup | src/engine/entity/src/scripting/script_node_type.cpp:160-167 | in a sorted registry a lookup of an entry's id finds that entry |
| ScriptEnvironment.Restart | src/engine/entity/src/scripting/script_environment.cpp:20-22 | the state restarts with one thread at the start node exactly when it has not started or its hash differs; otherwise it is unchanged |
| ScriptEnvironment.MakeNodeData | src/engine/entity/src/scripting/script_environment.cpp:95-108 | none for an unknown type; for a known type, initData applied to its new data only when it has data |
| ScriptEnvironment.UpdateNode | src/engine/entity/src/scripting/script_environment.cpp:85-93 | an unknown type is Done with 0 consumed and data untouched; a known type's update otherwise |
| ScriptEnvironment.WithBudget | src/engine/entity/src/scripting/script_environment.cpp:29-31 | every thread's budget becomes the tick's time, nothing else changes |
| ScriptEnvironment.Step | src/engine/entity/src/scripting/script_environment.cpp:34-73 | the threads a step leaves point into the graph |
| ScriptEnvironment.RunThread | src/engine/entity/src/scripting/script_environment.cpp:37-73 | a thread's inner loop changes only its own slot and appends, or clears everything; it stops only when the thread is not runnable or the steps are spent |
| ScriptEnvironment.RunFrom | src/engine/entity/src/scripting/script_environment.cpp:33-74 | the outer loop keeps threads in the graph, keeps the earlier slots, and uses no more steps than given |
| ScriptEnvironment.Live | src/engine/entity/src/scripting/script_environment.cpp:77 | exactly the threads with a node survive the purge |
| ScriptEnvironment.Tick | src/engine/entity/src/scripting/script_environment.cpp:18-78 | after a tick the state is started with the graph's hash and no thread lacks a node |
| ScriptEnvironment.StepOutcomes | src/engine/entity/src/scripting/script_environment.cpp:37-73 | Terminate stops; Executing stays on the node with its data and the budget less the consumed time; Done releases the data and moves to outputs[0] (or ends), forking one thread per further output in order, each with the remaining budget |
| ScriptEnvironment.UnknownTypeIsDoneAtOnce | src/engine/entity/src/scripting/script_environment.cpp:85-93 | a node of an unknown type is left at once, without consuming budget or keeping data |
| ScriptEnvironment.TerminateClearsAll | src/engine/entity/src/scripting/script_environment.cpp:49-52 | a Terminate empties the whole thread list and no further thread runs that tick |
| ScriptEnvironment.IdleThreadsSkipped | src/engine/entity/src/scripting/script_environment.cpp:37 | threads without budget or node are passed over without a step |
| ScriptEnvironment.RunFromLeavesNoRunnable | src/engine/entity/src/scripting/script_environment.cpp:33-74 | unless the steps ran out, no thread is left with budget and a node, forked ones included |
| ScriptEnvironment.LiveConcat | src/engine/entity/src/scripting/script_environment.cpp:77 | the purge keeps the surviving threads' relative order |
| ScriptEnvironment.TickInertWhenEmpty | src/engine/entity/src/scripting/script_environment.cpp:20-28 | a started state of the same graph with no threads is left as it is, so a terminated script stays inert |
| ScriptEnvironment.TickRestartDiscardsThreads | src/engine/entity/src/scripting/script_environment.cpp:20-22 | when a restart is due the earlier threads and data have no effect on the tick |
| ScriptEnvironment.TickSpendsBudgets | src/engine/entity/src/scripting/script_environment.cpp:29-74 | unless the steps ran out, every thread left after the tick has spent its budget |
| ScriptEnvironment.TickWithoutTime | src/engine/entity/src/scripting/script_environment.cpp:29-37 | a tick of non-positive time updates no node |
| ScriptEnvironment.LoneStartNodeEndsInOneTick | src/engine/entity/src/scripting/script_environment.cpp:18-78 | a start node without outputs that finishes leaves no thread after the first tick of positive time |
| ScriptEnvironment.ScriptState.constructor | src/engine/entity/src/scripting/script_environment.cpp:20 | a new run state has not started, so the first update starts it |
| ScriptEnvironment.ScriptState.Start | src/engine/entity/src/scripting/script_environment.cpp:21 | the state is started, records the hash, and holds one fresh thread at the start node |
| ScriptEnvironment.ScriptEnvironment.constructor | src/engine/entity/src/scripting/script_environment.cpp:10-16 | keeps the registry and node behaviours it is given |
| ScriptEnvironment.ScriptEnvironment.Update | src/engine/entity/src/scripting/script_environment.cpp:18-78 | the new run state and the steps left are exactly those of `Tick` from the old state |
| ScriptEnvironment.ScriptEnvironment.RunOneThread | src/engine/entity/src/scripting/script_environment.cpp:34-73 | the inner while loop over one thread computes `RunThread` |
| ScriptEnvironment.AllotTime | src/engine/entity/src/scripting/script_environment.cpp:29-31 | the budget loop computes `WithBudget` |
| ScriptEnvironment.AppendForks | src/engine/entity/src/scripting/script_environment.cpp:64-70 | appends one thread per output after the first, in order, at that output with the remaining budget |
| ScriptEnvironment.Purge | src/engine/entity/src/scripting/script_environment.cpp:77 | the erase/remove_if computes `Live` |

## Left out

- The 14 other built-in node types are declared in files that are not part of this model: start, restart, stop, wait-for, branch, fork, the two merges, the four logic gates, play-music and stop-music. They are registered in their places, but as node types given whole (fields of `Catalog`), so their ids, pins and behaviours are not modelled.
- The registry is an ordered map keyed by id; its declaration is in script_node_type.h, which is not part of this model. The "in id order" of `ListedExactly`, `GetTypes`, `GetNames` and `TypesAndNamesCorrespond` rests on that container.
- ScriptNodeType.GetOutputNodes: requires the node to have at least as many pins as its type's configuration. It reads pins through `getPin`, whose behaviour out of range is defined in script_graph.cpp, which is not part of this model.
- ScriptNodeType.ConnectedNodeName: requires `pinN` to be one of the node's pins, for the same reason (`getPin` out of range is not modelled).
- ScriptPlayAnimation.DoUpdate: requires the node to have a pin 2, for the same reason (`getPin` out of range is not modelled).
- ScriptPlayAnimation.DoUpdate: the animation player's `setSequence` is a parameter, so what it does to the component is not modelled.
- The following are declared in files that are not part of this model:
  - the pin configurations and setting schemas of wait and the variable node types
  - every type's `canAdd`
  - play-animation's id, name, icon and classification
  
  These are parameters (`Declared`, `Header`).
- The bodies of node behaviours are oracles: the update of wait, set-variable and the other types, and `getData` of the pull nodes. `ScriptNodeTypeBase` dispatch is also not part of this model.
- `readDataPin` recursion: only one step is modelled. A chain of data pins recurses inside the `getData` oracle, which has no cycle guard in the engine.
- ScriptEnvironment.Update: it takes a `maxSteps` bound on node updates per tick and returns the steps left. The engine has no bound, and a cycle of nodes consuming no time never ends a tick. When `maxSteps` runs out, the model stops updating nodes for that tick.
- `script_state.cpp` and `script_graph.cpp` are not part of this model. `ScriptState.Start`'s effect is taken from its call site. A node's live flow destinations (`getOutputs`) are a field of the graph node.
- ScriptNodeType.GetOutputNodes: the engine's `1 << curOutputPin` is undefined for ordinals of 32 or more. The model treats those outputs as inactive.
- ScriptNodeType.GetOutputNodes: it requires at most four hits, because the engine writes past the array otherwise.
- ScriptNodeType.GetPinDescription and ScriptNodeType.GetDescription: they require `elementIdx < 256`, which is the range of the engine's `uint8_t` parameter.
- `Time` is a real number. Float rounding of budgets and of `timeLeft` is not modelled.
- Colours in descriptions (`ColourOverride`) are not modelled; only the text is.
- World and entity access is reduced to a map from entity ids to entities. The sprite player's other state is one opaque field.
- `Logger::logError` for unknown node types is not modelled. Nor is `getEntity`.
- ScriptPlayAnimation.DoUpdate: the result consumes 0 time. That reading of the one-argument `Result` constructor comes from a header that is not part of this model.
- Settings are modelled as text only, so `asString` is a map lookup with a fallback.
- `toConfigNode` serialisation of `ScriptWaitData` is not modelled.
- `graph.getNodes().at(...)` throws on a bad index; the model instead requires `ValidGraph` and `Resumable`. `readDataPin` and `getConnectedNodeName` require a connected destination to exist and to have a registered type.
- The scheduler works on a copy of the thread list and writes it back at the end of the tick. Within the tick, the engine's `thread` and `timeLeft` references can dangle after `emplace_back` reallocates the vector. The model indexes the sequence instead, which gives the behaviour the loop evidently intends.
- The editor gizmo (`scripting_gizmo.cpp`) is not part of this model.
