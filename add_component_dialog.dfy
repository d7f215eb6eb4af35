/**
 * The entity-component editor's "add component" dialog: the type combo
 * box lists component types without their "EC_" prefix, the chosen type is
 * turned back into a full type name, and the OK button is disabled while
 * the typed name would duplicate a component already on a selected entity.
 *
 * The widgets are kept as their state: the combo box's items and current
 * text, the name line edit's text, the OK button's disabled flag and the
 * error label's text.
 */
module ComponentDialog {
  import opened Wrappers
  import opened QtText

  type EntityId = nat

  /** A component as GetComponent(typeName, name) finds it. */
  datatype ComponentKey = ComponentKey(typeName: string, name: string)

  datatype SceneEntity = SceneEntity(components: set<ComponentKey>)

  /** The main camera scene, with its entities by id. */
  datatype Scene = Scene(entities: map<EntityId, SceneEntity>)

  const Prefix: string := "EC_"

  const DuplicateNameError: string := "Cannot add components with duplicate names."

  /** The text a type gets in the combo box: the leading "EC_" removed, if there is one. */
  function DisplayName(componentType: string): (r: string)
    ensures Prefix <= componentType ==> Prefix + r == componentType
    ensures !(Prefix <= componentType) ==> r == componentType
  {
    if Prefix <= componentType then componentType[3..] else componentType
  }

  /** The display names of the types, in the same order. */
  function DisplayNames(componentTypes: seq<string>): (r: seq<string>)
    ensures |r| == |componentTypes|
    ensures forall i :: 0 <= i < |r| ==> r[i] == DisplayName(componentTypes[i])
  {
    seq(|componentTypes|, i requires 0 <= i < |componentTypes| => DisplayName(componentTypes[i]))
  }

  /** GetTypeName on the combo box text: "EC_" in front unless it is there already. */
  function TypeName(text: string): (r: string)
    ensures Prefix <= r
    ensures Prefix <= text <==> r == text
    ensures !(Prefix <= text) ==> r[3..] == text
  {
    if !(Prefix <= text) then Prefix + text else text
  }

  /** The result always carries the prefix, so asking again changes nothing. */
  lemma TypeNameIdempotent(text: string)
    ensures TypeName(TypeName(text)) == TypeName(text)
  {
  }

  /**
   * A type "EC_" + X, where X does not itself start with "EC_", comes back
   * unchanged from its display name; so does any type without the prefix,
   * once the prefix is added.
   */
  lemma TypeNameRecoversDisplayed(componentType: string)
    ensures Prefix <= componentType && !(Prefix <= componentType[3..]) ==>
              TypeName(DisplayName(componentType)) == componentType
    ensures !(Prefix <= componentType) ==> TypeName(DisplayName(componentType)) == Prefix + componentType
  {
  }

  /** A doubled prefix does not survive the round trip: "EC_EC_X" comes back as "EC_X". */
  lemma DoublePrefixIsNotRecovered(x: string)
    ensures TypeName(DisplayName(Prefix + Prefix + x)) == Prefix + x
  {
    assert (Prefix + Prefix + x)[3..] == Prefix + x;
  }

  /** Some selected entity that exists already has a component of that type and name. */
  predicate HasDuplicate(scene: Scene, ids: seq<EntityId>, typeName: string, name: string) {
    exists i :: 0 <= i < |ids| && ids[i] in scene.entities &&
                ComponentKey(typeName, name) in scene.entities[ids[i]].components
  }

  /** The search loop of CheckComponentName, which stops at the first duplicate. */
  method FindDuplicate(scene: Scene, ids: seq<EntityId>, typeName: string, name: string) returns (nameDuplicates: bool)
    ensures nameDuplicates <==> HasDuplicate(scene, ids, typeName, name)
  {
    nameDuplicates := false;
    var i := 0;
    while i < |ids|
      invariant 0 <= i <= |ids|
      invariant !nameDuplicates
      invariant forall j :: 0 <= j < i && ids[j] in scene.entities ==>
                  ComponentKey(typeName, name) !in scene.entities[ids[j]].components
    {
      if ids[i] !in scene.entities {
        i := i + 1;
        continue;
      }
      if ComponentKey(typeName, name) in scene.entities[ids[i]].components {
        nameDuplicates := true;
        break;
      }
      i := i + 1;
    }
  }

  class AddComponentDialog {
    /** The selected entities the component is for. */
    const entities: seq<EntityId>
    /** The items of the type combo box. */
    var typeItems: seq<string>
    /** The combo box's current index, -1 while it has no items. */
    var currentIndex: int
    /** The text of the name line edit. */
    var nameText: string
    var okDisabled: bool
    var errorText: string

    constructor (ids: seq<EntityId>)
      ensures entities == ids && typeItems == [] && currentIndex == -1 && nameText == ""
      ensures !okDisabled && errorText == ""
    {
      entities := ids;
      typeItems := [];
      currentIndex := -1;
      nameText := "";
      okDisabled := false;
      errorText := "";
    }

    /** The combo box's current text: the current item, or "" when there is none. */
    function CurrentText(): (r: string)
      reads this
      ensures 0 <= currentIndex < |typeItems| ==> r == typeItems[currentIndex]
      ensures !(0 <= currentIndex < |typeItems|) ==> r == ""
    {
      if 0 <= currentIndex < |typeItems| then typeItems[currentIndex] else ""
    }

    /** What CheckComponentName leaves in the OK button and the error label for this scene. */
    predicate CheckedAgainst(scene: Scene)
      reads this
    {
      (okDisabled <==> HasDuplicate(scene, entities, TypeName(CurrentText()), Trimmed(nameText))) &&
      errorText == if okDisabled then DuplicateNameError else ""
    }

    /**
     * Appends every type, in order, with "EC_" removed where it leads.
     * Adding the first item to the empty combo box makes it current, and
     * the currentIndexChanged signal runs CheckComponentName. That check
     * reads only the current text, which the later items leave as it is,
     * so it is made once the items are in.
     */
    method SetComponentList(componentTypes: seq<string>, scene: Option<Scene>)
      modifies this`typeItems, this`currentIndex, this`okDisabled, this`errorText
      ensures typeItems == old(typeItems) + DisplayNames(componentTypes)
      ensures old(typeItems) == [] && componentTypes != [] ==>
                currentIndex == 0 && CurrentText() == DisplayName(componentTypes[0])
      ensures old(typeItems) == [] && componentTypes != [] && scene.Some? ==> CheckedAgainst(scene.value)
      ensures !(old(typeItems) == [] && componentTypes != [] && scene.Some?) ==>
                okDisabled == old(okDisabled) && errorText == old(errorText)
      ensures !(old(typeItems) == [] && componentTypes != []) ==> currentIndex == old(currentIndex)
    {
      var wasEmpty := typeItems == [];
      var i := 0;
      while i < |componentTypes|
        invariant 0 <= i <= |componentTypes|
        invariant typeItems == old(typeItems) + DisplayNames(componentTypes[..i])
        modifies this`typeItems
      {
        var componentType := componentTypes[i];
        if Prefix <= componentType {
          typeItems := typeItems + [componentType[3..]];
        } else {
          typeItems := typeItems + [componentType];
        }
        assert componentTypes[..i + 1] == componentTypes[..i] + [componentType];
        i := i + 1;
      }
      assert componentTypes[..i] == componentTypes;
      if wasEmpty && typeItems != [] {
        currentIndex := 0;
        CheckComponentName(scene);
      }
    }

    /** The user picks item i; a change of index runs CheckComponentName through currentIndexChanged. */
    method SelectType(i: nat, scene: Option<Scene>)
      requires i < |typeItems|
      modifies this`currentIndex, this`okDisabled, this`errorText
      ensures currentIndex == i && CurrentText() == typeItems[i]
      ensures i != old(currentIndex) && scene.Some? ==> CheckedAgainst(scene.value)
      ensures !(i != old(currentIndex) && scene.Some?) ==> okDisabled == old(okDisabled) && errorText == old(errorText)
    {
      if i != currentIndex {
        currentIndex := i;
        CheckComponentName(scene);
      }
    }

    /** Sets the name line edit; a change of text runs CheckComponentName through textChanged. */
    method SetComponentName(name: string, scene: Option<Scene>)
      modifies this`nameText, this`okDisabled, this`errorText
      ensures nameText == name
      ensures name != old(nameText) && scene.Some? ==> CheckedAgainst(scene.value)
      ensures !(name != old(nameText) && scene.Some?) ==> okDisabled == old(okDisabled) && errorText == old(errorText)
    {
      if name != nameText {
        nameText := name;
        CheckComponentName(scene);
      }
    }

    function GetTypeName(): (r: string)
      reads this
      ensures Prefix <= r && TypeName(r) == r
      ensures Prefix <= CurrentText() ==> r == CurrentText()
      ensures !(Prefix <= CurrentText()) ==> r == Prefix + CurrentText()
    {
      TypeName(CurrentText())
    }

    /**
     * Without a scene nothing changes. Otherwise the OK button is disabled,
     * and the error shown, exactly when the prefixed type and the trimmed
     * name are already taken on a selected entity that exists.
     */
    method CheckComponentName(scene: Option<Scene>)
      modifies this`okDisabled, this`errorText
      ensures scene.None? ==> okDisabled == old(okDisabled) && errorText == old(errorText)
      ensures scene.Some? ==> CheckedAgainst(scene.value)
      ensures scene.Some? ==>
                (okDisabled <==> HasDuplicate(scene.value, entities, TypeName(CurrentText()), Trimmed(nameText)))
      ensures scene.Some? ==> errorText == if okDisabled then DuplicateNameError else ""
    {
      if scene.None? {
        return;
      }
      var nameDuplicates := FindDuplicate(scene.value, entities, TypeName(CurrentText()), Trimmed(nameText));
      okDisabled := nameDuplicates;
      errorText := if nameDuplicates then DuplicateNameError else "";
    }
  }
}
