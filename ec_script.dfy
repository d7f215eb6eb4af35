/**
 * The script component: it holds the script instance made from its
 * script asset and runs or unloads it on the entity actions RunScript and
 * UnloadScript. An action names the script it is meant for; an empty name
 * means every script component of the entity.
 *
 * What the instance is made to do, and what is logged, is kept as a
 * transcript of events.
 */
module ScriptComponent {
  import opened Wrappers

  /** The identity of a script instance object. */
  type InstanceId = nat

  datatype ScriptEvent =
    | InstanceUnloaded(instance: InstanceId)
    | InstanceDeleted(instance: InstanceId)
    | InstanceRun(instance: InstanceId)
    | ErrorLogged(message: string)
    /** The asset listener was told that the script asset reference changed. */
    | AssetRefChanged(ref: string)

  /** The attributes of the component. */
  datatype Attribute = ScriptRef | Type | RunOnLoad

  const NoInstanceToRun: string := "EC_Script::Run: No script instance set"
  const NoInstanceToUnload: string := "Cannot perform Unload(), no script instance set"

  /** The component's state: its script reference, the instance it holds, and the transcript. */
  datatype ScriptState = ScriptState(scriptRef: string, instance: Option<InstanceId>, events: seq<ScriptEvent>)

  /** Whether an action with this script name is meant for this component. */
  predicate MeantFor(name: string, scriptRef: string) {
    name == [] || name == scriptRef
  }

  /** SetScriptInstance: any held instance is unloaded, then deleted, then replaced. */
  function InstanceSet(s: ScriptState, instance: Option<InstanceId>): ScriptState {
    match s.instance
    case Some(previous) => s.(instance := instance, events := s.events + [InstanceUnloaded(previous), InstanceDeleted(previous)])
    case None => s.(instance := instance)
  }

  /** Run(name): ignored unless meant for us; with no instance an error, otherwise the instance runs. */
  function Ran(s: ScriptState, name: string): ScriptState {
    if !MeantFor(name, s.scriptRef) then s
    else match s.instance
      case None => s.(events := s.events + [ErrorLogged(NoInstanceToRun)])
      case Some(i) => s.(events := s.events + [InstanceRun(i)])
  }

  /** Unload(name): the same filter and the same guard as Run. */
  function Unloaded(s: ScriptState, name: string): ScriptState {
    if !MeantFor(name, s.scriptRef) then s
    else match s.instance
      case None => s.(events := s.events + [ErrorLogged(NoInstanceToUnload)])
      case Some(i) => s.(events := s.events + [InstanceUnloaded(i)])
  }

  /** HandleAttributeChanged: only a change of the script reference reaches the asset listener. */
  function AttributeChanged(s: ScriptState, attribute: Attribute): ScriptState {
    if attribute == ScriptRef then s.(events := s.events + [AssetRefChanged(s.scriptRef)]) else s
  }

  /**
   * A write of the "Script ref" attribute: the reference is replaced, and
   * OnAttributeChanged, connected to HandleAttributeChanged, passes the
   * new reference to the asset listener.
   */
  function RefSet(s: ScriptState, ref: string): ScriptState {
    AttributeChanged(s.(scriptRef := ref), ScriptRef)
  }

  /** How many times instance i was run, according to the transcript. */
  function RunCount(events: seq<ScriptEvent>, i: InstanceId): nat {
    if events == [] then 0
    else RunCount(events[..|events| - 1], i) + (if events[|events| - 1] == InstanceRun(i) then 1 else 0)
  }

  lemma {:induction false} RunCountAppend(a: seq<ScriptEvent>, b: seq<ScriptEvent>, i: InstanceId)
    decreases |b|
    ensures RunCount(a + b, i) == RunCount(a, i) + RunCount(b, i)
  {
    if b != [] {
      assert (a + b)[..|a + b| - 1] == a + b[..|b| - 1];
      assert (a + b)[|a + b| - 1] == b[|b| - 1];
      RunCountAppend(a, b[..|b| - 1], i);
    } else {
      assert a + b == a;
    }
  }

  /**
   * After SetScriptInstance the argument is held; an instance held before
   * has been unloaded and then deleted, and nothing was run.
   */
  lemma InstanceSetReplaces(s: ScriptState, instance: Option<InstanceId>)
    ensures InstanceSet(s, instance).instance == instance
    ensures InstanceSet(s, instance).scriptRef == s.scriptRef
    ensures s.instance.Some? ==>
              InstanceSet(s, instance).events == s.events + [InstanceUnloaded(s.instance.value), InstanceDeleted(s.instance.value)]
    ensures s.instance.None? ==> InstanceSet(s, instance).events == s.events
  {
  }

  /** An action meant for another script changes nothing. */
  lemma OtherNamesIgnored(s: ScriptState, name: string)
    requires name != [] && name != s.scriptRef
    ensures Ran(s, name) == s && Unloaded(s, name) == s
  {
  }

  /**
   * A Run meant for us runs the held instance exactly once and no other
   * instance at all; without an instance it logs an error and runs nothing.
   */
  lemma {:induction false} RunRunsHeldInstanceOnce(s: ScriptState, name: string, i: InstanceId)
    requires MeantFor(name, s.scriptRef)
    ensures RunCount(Ran(s, name).events, i) == RunCount(s.events, i) + (if s.instance == Some(i) then 1 else 0)
    ensures s.instance.None? ==> Ran(s, name).events == s.events + [ErrorLogged(NoInstanceToRun)]
  {
    var added := Ran(s, name).events[|s.events|..];
    assert Ran(s, name).events == s.events + added;
    RunCountAppend(s.events, added, i);
    assert RunCount(added, i) == RunCount([], i) + (if added[0] == InstanceRun(i) then 1 else 0);
  }

  /** Unload never runs anything, and with no instance it only logs an error. */
  lemma {:induction false} UnloadRunsNothing(s: ScriptState, name: string, i: InstanceId)
    ensures RunCount(Unloaded(s, name).events, i) == RunCount(s.events, i)
    ensures MeantFor(name, s.scriptRef) && s.instance.None? ==>
              Unloaded(s, name).events == s.events + [ErrorLogged(NoInstanceToUnload)]
  {
    if MeantFor(name, s.scriptRef) {
      var added := Unloaded(s, name).events[|s.events|..];
      assert Unloaded(s, name).events == s.events + added;
      RunCountAppend(s.events, added, i);
      assert RunCount(added, i) == RunCount([], i) + (if added[0] == InstanceRun(i) then 1 else 0);
    }
  }

  /**
   * After the reference is written, the listener has heard the new value
   * and the actions follow it: a name equal to the new reference, or
   * empty, is meant for the component, and any other name is not.
   */
  lemma RefSetRetargetsActions(s: ScriptState, ref: string, name: string)
    ensures RefSet(s, ref).scriptRef == ref && RefSet(s, ref).instance == s.instance
    ensures RefSet(s, ref).events == s.events + [AssetRefChanged(ref)]
    ensures MeantFor(name, RefSet(s, ref).scriptRef) <==> name == [] || name == ref
    ensures name != [] && name != ref ==>
              Ran(RefSet(s, ref), name) == RefSet(s, ref) && Unloaded(RefSet(s, ref), name) == RefSet(s, ref)
  {
  }

  /** Only the script reference is forwarded, and always with its current value. */
  lemma OnlyScriptRefForwarded(s: ScriptState, attribute: Attribute)
    ensures attribute != ScriptRef ==> AttributeChanged(s, attribute) == s
    ensures attribute == ScriptRef ==> AttributeChanged(s, attribute).events == s.events + [AssetRefChanged(s.scriptRef)]
  {
  }

  class EC_Script {
    /** The "Script ref" attribute's reference. */
    var scriptRef: string
    var scriptInstance: Option<InstanceId>
    var events: seq<ScriptEvent>

    ghost function State(): ScriptState
      reads this
    {
      ScriptState(scriptRef, scriptInstance, events)
    }

    /** The "Script ref" attribute starts empty and no instance is held. */
    constructor ()
      ensures State() == ScriptState("", None, [])
    {
      scriptRef := "";
      scriptInstance := None;
      events := [];
    }

    method SetScriptInstance(instance: Option<InstanceId>)
      modifies this`scriptInstance, this`events
      ensures State() == InstanceSet(old(State()), instance)
    {
      if scriptInstance.Some? {
        events := events + [InstanceUnloaded(scriptInstance.value)];
        events := events + [InstanceDeleted(scriptInstance.value)];
      }
      scriptInstance := instance;
    }

    method Run(name: string)
      modifies this`events
      ensures State() == Ran(old(State()), name)
    {
      if name != [] && name != scriptRef {
        return;
      }
      if scriptInstance.None? {
        events := events + [ErrorLogged(NoInstanceToRun)];
        return;
      }
      events := events + [InstanceRun(scriptInstance.value)];
    }

    method Unload(name: string)
      modifies this`events
      ensures State() == Unloaded(old(State()), name)
    {
      if name != [] && name != scriptRef {
        return;
      }
      if scriptInstance.None? {
        events := events + [ErrorLogged(NoInstanceToUnload)];
        return;
      }
      events := events + [InstanceUnloaded(scriptInstance.value)];
    }

    /** Writes the "Script ref" attribute, which signals OnAttributeChanged. */
    method SetScriptRef(ref: string)
      modifies this`scriptRef, this`events
      ensures State() == RefSet(old(State()), ref)
    {
      scriptRef := ref;
      HandleAttributeChanged(ScriptRef);
    }

    method HandleAttributeChanged(attribute: Attribute)
      modifies this`events
      ensures State() == AttributeChanged(old(State()), attribute)
    {
      if attribute == ScriptRef {
        events := events + [AssetRefChanged(scriptRef)];
      }
    }
  }
}
