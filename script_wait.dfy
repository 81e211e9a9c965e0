/**
 * The wait node type and its node-local record. Its pin configuration,
 * settings and update are defined in script_wait.cpp, which is not part of
 * this model: they arrive as a `Declared` value and as the update oracle.
 */
module ScriptWait {
  import opened ScriptTypes

  /** A freshly made `ScriptWaitData`, before `doInitData` fills it from the node. */
  function NewWaitData(): (d: StateData)
    ensures d.ScriptWaitData? && d.timeLeft == 0.0
  {
    ScriptWaitData(0.0)
  }

  /**
   * The `wait` node type: a flow-control node that carries a `ScriptWaitData`
   * record, receives it in its update, and initialises it from the node.
   */
  function WaitType(decl: Declared): (t: NodeType)
    ensures t.id == "wait" && t.name == "Wait for Time" && t.icon == "script_icons/wait.png"
    ensures t.classification == FlowControl
    ensures t.data == WaitData
    ensures t.hooks == Hooks(update := true, getData := false, initData := true)
    ensures t.pins == decl.pins && t.settings == decl.settings && t.canAdd == decl.canAdd
  {
    NodeType("wait", "Wait for Time", "script_icons/wait.png", FlowControl,
             decl.pins, decl.settings, WaitData, Hooks(true, false, true), decl.canAdd)
  }
}
