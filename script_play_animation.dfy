/**
 * The play-animation node type: a flow node that sets the animation sequence
 * of the entity named by its Target pin and always finishes at once. Its id,
 * name, icon, classification and `canAdd` are declared in
 * script_play_animation.h, which is not part of this model, and arrive as a
 * `Header`.
 */
module ScriptPlayAnimation {
  import opened ScriptTypes

  datatype Header = Header(id: string, name: string, icon: string, classification: Classification, canAdd: bool)

  /** Flow in, flow out, and the Target output that names the entity. */
  const PlayAnimationPins: seq<PinType> :=
    [PinType(FlowPin, Input), PinType(FlowPin, Output), PinType(TargetPin, Output)]

  /** The index of the pin whose entity is animated. */
  const TargetPinIndex: nat := 2

  const PlayAnimationSettings: seq<SettingType> :=
    [SettingType("sequence", "Halley::String", ["default"])]

  function PlayAnimationType(h: Header): (t: NodeType)
    ensures t.pins == [PinType(FlowPin, Input), PinType(FlowPin, Output), PinType(TargetPin, Output)]
    ensures t.pins[TargetPinIndex] == PinType(TargetPin, Output)
    ensures t.settings == [SettingType("sequence", "Halley::String", ["default"])]
    ensures t.data == NoData && t.hooks == Hooks(update := true, getData := false, initData := false)
    ensures t.id == h.id && t.name == h.name && t.icon == h.icon
    ensures t.classification == h.classification && t.canAdd == h.canAdd
  {
    NodeType(h.id, h.name, h.icon, h.classification, PlayAnimationPins, PlayAnimationSettings,
             NoData, Hooks(true, false, false), h.canAdd)
  }

  /** `settings[key].asString(fallback)` for settings that hold text. */
  function SettingAsString(settings: map<string, string>, key: string, fallback: string): (s: string)
    ensures key in settings ==> s == settings[key]
    ensures key !in settings ==> s == fallback
  {
    if key in settings then settings[key] else fallback
  }

  /** The sprite-animation component; `other` stands for the player state besides the sequence. */
  datatype SpriteAnimation = SpriteAnimation(sequence: string, other: int)

  /**
   * The animation player's `setSequence`, whose body is not part of this
   * model: the component after the call, given the component and the sequence.
   */
  type SetSequence = (SpriteAnimation, string) -> SpriteAnimation

  datatype Entity = Entity(spriteAnimation: Option<SpriteAnimation>)

  /** The simulation world, as far as this node touches it: live entities by id. */
  class World {
    var entities: map<EntityId, Entity>

    constructor(entities: map<EntityId, Entity>)
      ensures this.entities == entities
    {
      this.entities := entities;
    }
  }

  /**
   * The update: when the target entity exists and has a sprite-animation
   * component, the player is told to play the "sequence" setting ("" when
   * absent) and no other entity changes; otherwise nothing changes. The
   * result is Done in every case.
   */
  method DoUpdate(world: World, setSequence: SetSequence, time: Time, node: GraphNode) returns (r: NodeResult)
    requires TargetPinIndex < |node.pins|
    modifies world
    ensures r.state == Done && r.consumed == 0.0 && r.data == None
    ensures var id := node.pins[TargetPinIndex].entity;
      if id in old(world.entities) && old(world.entities)[id].spriteAnimation.Some? then
        world.entities == old(world.entities)[id := Entity(Some(
          setSequence(old(world.entities)[id].spriteAnimation.value, SettingAsString(node.settings, "sequence", ""))))]
      else
        world.entities == old(world.entities)
  {
    var id := node.pins[TargetPinIndex].entity;
    if id in world.entities {
      var entity := world.entities[id];
      if entity.spriteAnimation.Some? {
        var player := entity.spriteAnimation.value;
        world.entities := world.entities[id := entity.(spriteAnimation := Some(setSequence(player, SettingAsString(node.settings, "sequence", ""))))];
      }
    }
    r := NodeResult(0.0, Done, None);
  }

  /**
   * The node description, built by successive appends: the sequence (or
   * "default" when unset) and the target's name, each quoted.
   */
  method GetNodeDescription(node: GraphNode, targetName: string) returns (text: string)
    ensures text == "Play sequence \"" + SettingAsString(node.settings, "sequence", "default")
                    + "\" on entity \"" + targetName + "\"."
    ensures "sequence" !in node.settings ==>
      text == "Play sequence \"default\" on entity \"" + targetName + "\"."
  {
    text := "Play sequence \"";
    text := text + SettingAsString(node.settings, "sequence", "default");
    text := text + "\" on entity \"";
    text := text + targetName;
    text := text + "\".";
  }
}
