/**
 * The variable node types. Variable, Literal and Comparison are pull nodes
 * that answer `getData`; SetVariable is a flow node that acts in `update`.
 * None carries node-local data. Their pin configurations and setting schemas
 * are defined in script_variables.cpp, which is not part of this model.
 */
module ScriptVariables {
  import opened ScriptTypes

  /** The setting schema a node type has when it does not override `getSettingTypes`. */
  function DefaultSettingTypes(): (settings: seq<SettingType>)
    ensures |settings| == 0
  {
    []
  }

  /** A pull node of the `Variable` classification, without node-local data. */
  ghost predicate IsDataNode(t: NodeType)
  {
    t.classification == Variable && t.data == NoData &&
    t.hooks == Hooks(update := false, getData := true, initData := false)
  }

  function VariableType(decl: Declared): (t: NodeType)
    ensures t.id == "variable" && t.name == "Variable" && t.icon == "script_icons/variable.png"
    ensures IsDataNode(t)
    ensures t.pins == decl.pins && t.settings == decl.settings && t.canAdd == decl.canAdd
  {
    NodeType("variable", "Variable", "script_icons/variable.png", Variable,
             decl.pins, decl.settings, NoData, Hooks(false, true, false), decl.canAdd)
  }

  function LiteralType(decl: Declared): (t: NodeType)
    ensures t.id == "literal" && t.name == "Literal" && t.icon == "script_icons/literal.png"
    ensures IsDataNode(t)
    ensures t.pins == decl.pins && t.settings == decl.settings && t.canAdd == decl.canAdd
  {
    NodeType("literal", "Literal", "script_icons/literal.png", Variable,
             decl.pins, decl.settings, NoData, Hooks(false, true, false), decl.canAdd)
  }

  function ComparisonType(decl: Declared): (t: NodeType)
    ensures t.id == "comparison" && t.name == "Comparison" && t.icon == "script_icons/comparison.png"
    ensures IsDataNode(t)
    ensures t.pins == decl.pins && t.settings == decl.settings && t.canAdd == decl.canAdd
  {
    NodeType("comparison", "Comparison", "script_icons/comparison.png", Variable,
             decl.pins, decl.settings, NoData, Hooks(false, true, false), decl.canAdd)
  }

  /** SetVariable does not override `getSettingTypes`, so `decl.settings` is ignored. */
  function SetVariableType(decl: Declared): (t: NodeType)
    ensures t.id == "setVariable" && t.name == "Set Variable" && t.icon == "script_icons/set_variable.png"
    ensures t.classification == Action && t.data == NoData
    ensures t.hooks == Hooks(update := true, getData := false, initData := false)
    ensures t.settings == []
    ensures t.pins == decl.pins && t.canAdd == decl.canAdd
  {
    NodeType("setVariable", "Set Variable", "script_icons/set_variable.png", Action,
             decl.pins, DefaultSettingTypes(), NoData, Hooks(true, false, false), decl.canAdd)
  }

  /** The four ids are pairwise distinct, so registering all four keeps all four. */
  lemma VariableIdsDistinct(a: Declared, b: Declared, c: Declared, d: Declared)
    ensures |{VariableType(a).id, LiteralType(b).id, ComparisonType(c).id, SetVariableType(d).id}| == 4
  {
  }
}
