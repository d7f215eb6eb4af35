/**
 * RexLogic's NetworkEventHandler: routes inbound OpenSim messages by id and
 * decodes ObjectUpdate, GenericMessage/RexPrimData, LogoutReply,
 * AgentMovementComplete, RegionHandshake, ObjectName and ObjectDescription
 * into changes of the scene and of the server connection.
 *
 * Each handler has a pure specification over the message's variables
 * (the functions below) and a method of NetworkEventHandler that reads
 * the same variables through the cursor and is proved to match it.
 */
module RexLogic {
  import opened Wrappers
  import opened NetMessage
  import opened PrimScene

  /** How a handler ended: it returned (with the "handled" flag), or a read failed and aborted it. */
  datatype Outcome = Returned(handled: bool) | Aborted(error: DecodeError)

  /** The server connection's identity, whether it is open, and the joined sim's name. */
  datatype ServerConnection = ServerConnection(agentId: UUID, sessionId: UUID, connected: bool, simName: seq<byte>)

  /** Which of EC_OpenSimPrim's property handlers a message is handed to. */
  datatype PropertyKind = ObjectNameMessage | ObjectDescriptionMessage

  /**
   * A message handed to EC_OpenSimPrim::HandleObjectName or
   * HandleObjectDescription of one entity; what those do with it is not
   * part of this model, so the hand-over is recorded.
   */
  datatype PrimHandOff = PrimHandOff(kind: PropertyKind, entity: EntityId, message: seq<NetVariable>)

  datatype HandlerState = HandlerState(world: World, uuids: IdMap, connection: ServerConnection, primHandOffs: seq<PrimHandOff>)

  datatype Handled = Handled(state: HandlerState, outcome: Outcome)

  /** The event category; the numeric value of EVENT_NETWORK_IN is not part of this model. */
  datatype EventId = EventNetworkIn | OtherEvent(id: nat)

  /** The inbound message ids the handler knows; every other id is OtherMessage. */
  datatype MessageId =
    | RexNetMsgAgentMovementComplete
    | RexNetMsgGenericMessage
    | RexNetMsgLogoutReply
    | RexNetMsgObjectDescription
    | RexNetMsgObjectName
    | RexNetMsgObjectUpdate
    | RexNetMsgRegionHandshake
    | OtherMessage(id: nat)

  const PCodePrim: byte := 0x09
  const PCodeAvatar: byte := 0x2f

  /** The length of the terse object data block that carries position and orientation. */
  const ObjectDataLength := 60

  function AsciiBytes(s: string): (b: seq<byte>)
    ensures |b| == |s|
  {
    seq(|s|, i requires 0 <= i < |s| => (s[i] as int) % 0x100)
  }

  const RexMediaUrlMethod := AsciiBytes("RexMediaUrl")
  const RexPrimDataMethod := AsciiBytes("RexPrimData")

  // ---------------------------------------------------------------------
  // ObjectUpdate

  datatype ObjectUpdateHeader = ObjectUpdateHeader(regionHandle: uint64, localId: uint32, fullId: UUID, pcode: byte)

  /** RegionHandle, (skip TimeDilation), LocalID, (skip State), FullID, (skip CRC), PCode. */
  function ObjectUpdateHeaderAt(vars: seq<NetVariable>): Result<Read<ObjectUpdateHeader>, DecodeError> {
    var handle :- U64At(vars, 0);
    var p1 :- SkipAt(vars, handle.next);
    var local :- U32At(vars, p1);
    var p2 :- SkipAt(vars, local.next);
    var full :- UUIDAt(vars, p2);
    var p3 :- SkipAt(vars, full.next);
    var pcode :- U8At(vars, p3);
    Ok(Read(ObjectUpdateHeader(handle.value, local.value, full.value, pcode.value), pcode.next))
  }

  /** One write the prim branch makes, in the order it makes them. */
  datatype PrimEffect =
    | SetMaterial(material: byte)
    | SetClickAction(clickAction: byte)
    | SetScale(scale: Vector3)
    | SetTransform(position: seq<byte>, orientation: seq<byte>)
    | ReportObjectDataLength(bytesRead: nat)
    | SetParentId(parentId: uint32)
    | SetUpdateFlags(updateFlags: uint32)
    | SetHoveringText(text: seq<byte>)
    | SetMediaUrl(url: seq<byte>)

  /** The writes made before the prim branch stopped, and the failed read that stopped it, if any. */
  datatype PrimDecode = PrimDecode(effects: seq<PrimEffect>, failure: Option<DecodeError>)

  function Then(e: PrimEffect, rest: PrimDecode): PrimDecode {
    PrimDecode([e] + rest.effects, rest.failure)
  }

  function Halt(e: DecodeError): PrimDecode {
    PrimDecode([], Some(e))
  }

  /** The 60-byte block sets position (offset 0) and orientation (offset 36); any other length is only reported. */
  function ObjectDataEffect(data: seq<byte>): (e: PrimEffect)
    ensures e.SetTransform? <==> |data| == ObjectDataLength
    ensures e.SetTransform? ==> e.position == data[0..12] && e.orientation == data[36..48]
    ensures e.ReportObjectDataLength? ==> e.bytesRead == |data|
  {
    if |data| == ObjectDataLength then SetTransform(data[0..12], data[36..48])
    else ReportObjectDataLength(|data|)
  }

  /** The prim variables the handler reads after PCode, in wire order. */
  datatype PrimField =
    | Material | ClickAction | Scale | ObjectData | ParentId | UpdateFlags | HoveringText | MediaUrl

  function FieldIndex(f: PrimField): nat {
    match f
    case Material => 0
    case ClickAction => 1
    case Scale => 2
    case ObjectData => 3
    case ParentId => 4
    case UpdateFlags => 5
    case HoveringText => 6
    case MediaUrl => 7
  }

  function NextField(f: PrimField): (g: PrimField)
    requires f != MediaUrl
    ensures FieldIndex(g) == FieldIndex(f) + 1
  {
    match f
    case Material => ClickAction
    case ClickAction => Scale
    case Scale => ObjectData
    case ObjectData => ParentId
    case ParentId => UpdateFlags
    case UpdateFlags => HoveringText
    case HoveringText => MediaUrl
  }

  /**
   * One field: the cursor moves past it and the field becomes one write.
   * HoveringText first skips the path variables up to "Text"; MediaUrl first
   * skips TextColor; both texts are read as C strings.
   */
  function FieldAt(vars: seq<NetVariable>, p: nat, f: PrimField): Result<Read<PrimEffect>, DecodeError> {
    match f
    case Material =>
      var r :- U8At(vars, p); Ok(Read(SetMaterial(r.value), r.next))
    case ClickAction =>
      var r :- U8At(vars, p); Ok(Read(SetClickAction(r.value), r.next))
    case Scale =>
      var r :- Vector3At(vars, p); Ok(Read(SetScale(r.value), r.next))
    case ObjectData =>
      var r :- BufferAt(vars, p); Ok(Read(ObjectDataEffect(r.value), r.next))
    case ParentId =>
      var r :- U32At(vars, p); Ok(Read(SetParentId(r.value), r.next))
    case UpdateFlags =>
      var r :- U32At(vars, p); Ok(Read(SetUpdateFlags(r.value), r.next))
    case HoveringText =>
      var q :- FindByName(vars, p, "Text");
      var r :- BufferAt(vars, q); Ok(Read(SetHoveringText(CString(r.value)), r.next))
    case MediaUrl =>
      var q :- SkipAt(vars, p);
      var r :- BufferAt(vars, q); Ok(Read(SetMediaUrl(CString(r.value)), r.next))
  }

  /** The prim branch from field f to MediaUrl: each field read in turn until one fails. */
  function DecodeFrom(vars: seq<NetVariable>, p: nat, f: PrimField): PrimDecode
    decreases 7 - FieldIndex(f)
  {
    match FieldAt(vars, p, f)
    case Err(e) => Halt(e)
    case Ok(r) =>
      if f == MediaUrl then PrimDecode([r.value], None)
      else Then(r.value, DecodeFrom(vars, r.next, NextField(f)))
  }

  function DecodePrimBody(vars: seq<NetVariable>, p: nat): PrimDecode {
    DecodeFrom(vars, p, Material)
  }

  /** One prim write applied to the entity with the given id; entities without the component are left alone. */
  function ApplyEffect(w: World, id: EntityId, e: PrimEffect): (r: World)
    ensures r.Keys == w.Keys
    ensures forall other :: other in w && other != id ==> r[other] == w[other]
    ensures id in w ==> r[id].viewable == w[id].viewable
    ensures id in w && !e.SetTransform? ==> r[id].placeable == w[id].placeable
    ensures Grows(w, r)
  {
    if id !in w then w
    else
      var ent := w[id];
      match e
      case SetTransform(pos, ori) =>
        if ent.placeable.Some? then w[id := ent.(placeable := Some(Placeable(pos, ori)))] else w
      case ReportObjectDataLength(_) => w
      case _ =>
        if ent.prim.None? then w
        else
          var p := ent.prim.value;
          var p' := match e
            case SetMaterial(m) => p.(material := m)
            case SetClickAction(c) => p.(clickAction := c)
            case SetScale(s) => p.(scale := s)
            case SetParentId(n) => p.(parentId := n)
            case SetUpdateFlags(f) => p.(updateFlags := f)
            case SetHoveringText(t) => p.(hoveringText := t)
            case SetMediaUrl(u) => p.(mediaUrl := u)
            case _ => p;
          w[id := ent.(prim := Some(p'))]
  }

  /** The writes applied in order. */
  function ApplyEffects(w: World, id: EntityId, es: seq<PrimEffect>): (r: World)
    decreases |es|
    ensures r.Keys == w.Keys
    ensures Grows(w, r)
  {
    if es == [] then w
    else ApplyEffect(ApplyEffects(w, id, es[..|es| - 1]), id, es[|es| - 1])
  }

  function OutcomeOf(failure: Option<DecodeError>): Outcome {
    match failure
    case Some(e) => Aborted(e)
    case None => Returned(false)
  }

  /**
   * HandleOSNE_ObjectUpdate: the header, then for a prim the find-or-create
   * (registering the UUID for a new entity) and the prim writes; for an
   * avatar only the find-or-create; nothing for any other code.
   */
  function ObjectUpdate(s: HandlerState, vars: seq<NetVariable>): Handled {
    match ObjectUpdateHeaderAt(vars)
    case Err(e) => Handled(s, Aborted(e))
    case Ok(h) =>
      var id := h.value.localId;
      if h.value.pcode == PCodePrim then
        var w1 := FindOrCreatePrim(s.world, id);
        var u1 := RegisterIfNew(s.uuids, s.world, id, h.value.fullId);
        var d := DecodePrimBody(vars, h.next);
        Handled(s.(world := ApplyEffects(w1, id, d.effects), uuids := u1), OutcomeOf(d.failure))
      else if h.value.pcode == PCodeAvatar then
        Handled(s.(world := FindOrCreateAvatar(s.world, id)), Returned(false))
      else
        Handled(s, Returned(false))
  }

  // ---------------------------------------------------------------------
  // GenericMessage and RexPrimData

  /** Where the run of buffer variables starting at p ends. */
  function BufferRunEnd(vars: seq<NetVariable>, p: nat): (q: nat)
    requires p <= |vars|
    decreases |vars| - p
    ensures p <= q <= |vars|
    ensures forall j :: p <= j < q ==> vars[j].value.Buffer?
    ensures q < |vars| ==> !vars[q].value.Buffer?
  {
    if p == |vars| || !vars[p].value.Buffer? then p else BufferRunEnd(vars, p + 1)
  }

  /** The contents of the buffer variables in [p, q), in order. */
  function BuffersBetween(vars: seq<NetVariable>, p: nat, q: nat): seq<seq<byte>>
    requires p <= q <= |vars|
    requires forall j :: p <= j < q ==> vars[j].value.Buffer?
    decreases q - p
  {
    if q == p then [] else BuffersBetween(vars, p, q - 1) + [vars[q - 1].value.bytes]
  }

  function Concat(bs: seq<seq<byte>>): seq<byte> {
    if bs == [] then [] else Concat(bs[..|bs| - 1]) + bs[|bs| - 1]
  }

  function TotalLength(bs: seq<seq<byte>>): nat {
    if bs == [] then 0 else TotalLength(bs[..|bs| - 1]) + |bs[|bs| - 1]|
  }

  lemma {:induction false} ConcatLength(bs: seq<seq<byte>>)
    ensures |Concat(bs)| == TotalLength(bs)
  {
    if bs != [] {
      ConcatLength(bs[..|bs| - 1]);
    }
  }

  /** Every variable from p to the end of the message as buffers, or the read that fails on the first that is not one. */
  function TrailingBuffers(vars: seq<NetVariable>, p: nat): (r: Result<seq<seq<byte>>, DecodeError>)
    requires p <= |vars|
  {
    var q := BufferRunEnd(vars, p);
    if q == |vars| then Ok(BuffersBetween(vars, p, q))
    else Err(WrongType(q, NetVarBuffer, TypeOf(vars[q].value)))
  }

  /** Both EC_OpenSimPrim and EC_Viewable receive the blob. */
  function DeliverPrimData(w: World, id: EntityId, blob: seq<byte>): (r: World)
    ensures r.Keys == w.Keys
    ensures Grows(w, r)
    ensures forall other :: other in w && other != id ==> r[other] == w[other]
    ensures id in w && IsPrimEntity(w[id]) ==>
      r[id].prim == Some(w[id].prim.value.(rexPrimData := blob)) &&
      r[id].viewable == Some(Viewable(blob)) &&
      r[id].placeable == w[id].placeable
  {
    if id in w && IsPrimEntity(w[id]) then
      var ent := w[id];
      w[id := ent.(prim := Some(ent.prim.value.(rexPrimData := blob)), viewable := Some(Viewable(blob)))]
    else w
  }

  /**
   * HandleRexGM_RexPrimData: the first "Parameter" names the prim by UUID
   * text; when the UUID resolves, every following buffer is concatenated and
   * handed to the prim's components.
   */
  function RexPrimData(s: HandlerState, vars: seq<NetVariable>, uuidFromString: seq<byte> -> UUID): Handled {
    match FindByName(vars, 0, "Parameter")
    case Err(e) => Handled(s, Aborted(e))
    case Ok(q) =>
      match StringAt(vars, q)
      case Err(e) => Handled(s, Aborted(e))
      case Ok(text) =>
        match LookupPrim(s.uuids, s.world, uuidFromString(text.value))
        case None => Handled(s, Returned(false))
        case Some(id) =>
          match TrailingBuffers(vars, text.next)
          case Err(e) => Handled(s, Aborted(e))
          case Ok(bufs) => Handled(s.(world := DeliverPrimData(s.world, id, Concat(bufs))), Returned(false))
  }

  /** AgentId, SessionId and TransactionId are skipped; the Method variable follows. */
  function GenericMethodAt(vars: seq<NetVariable>): Result<Read<seq<byte>>, DecodeError> {
    var p1 :- SkipAt(vars, 0);
    var p2 :- SkipAt(vars, p1);
    var p3 :- SkipAt(vars, p2);
    StringAt(vars, p3)
  }

  /** HandleOSNE_GenericMessage: RexMediaUrl is a stub, RexPrimData is decoded, anything else is not handled. */
  function GenericMessage(s: HandlerState, vars: seq<NetVariable>, uuidFromString: seq<byte> -> UUID): Handled {
    match GenericMethodAt(vars)
    case Err(e) => Handled(s, Aborted(e))
    case Ok(m) =>
      if m.value == RexMediaUrlMethod then Handled(s, Returned(false))
      else if m.value == RexPrimDataMethod then RexPrimData(s, vars, uuidFromString)
      else Handled(s, Returned(false))
  }

  // ---------------------------------------------------------------------
  // Session messages

  function SessionIdsAt(vars: seq<NetVariable>): Result<Read<(UUID, UUID)>, DecodeError> {
    var agent :- UUIDAt(vars, 0);
    var session :- UUIDAt(vars, agent.next);
    Ok(Read((agent.value, session.value), session.next))
  }

  predicate MatchesSession(c: ServerConnection, ids: (UUID, UUID)) {
    ids.0 == c.agentId && ids.1 == c.sessionId
  }

  /** HandleOSNE_LogoutReply: the connection is closed only for our own agent and session. */
  function LogoutReply(s: HandlerState, vars: seq<NetVariable>): Handled {
    match SessionIdsAt(vars)
    case Err(e) => Handled(s, Aborted(e))
    case Ok(ids) =>
      if MatchesSession(s.connection, ids.value) then
        Handled(s.(connection := s.connection.(connected := false)), Returned(false))
      else
        Handled(s, Returned(false))
  }

  /** Position, LookAt, RegionHandle and Timestamp, read and not yet used. */
  function MovementDataAt(vars: seq<NetVariable>, p: nat): Result<nat, DecodeError> {
    var position :- Vector3At(vars, p);
    var lookAt :- Vector3At(vars, position.next);
    var handle :- U64At(vars, lookAt.next);
    var timestamp :- U32At(vars, handle.next);
    Ok(timestamp.next)
  }

  /** HandleOSNE_AgentMovementComplete: reads the movement data only for our own agent and session; changes nothing. */
  function AgentMovementComplete(s: HandlerState, vars: seq<NetVariable>): Handled {
    match SessionIdsAt(vars)
    case Err(e) => Handled(s, Aborted(e))
    case Ok(ids) =>
      if MatchesSession(s.connection, ids.value) then
        match MovementDataAt(vars, ids.next)
        case Err(e) => Handled(s, Aborted(e))
        case Ok(_) => Handled(s, Returned(false))
      else
        Handled(s, Returned(false))
  }

  /** HandleOSNE_RegionHandshake: skips RegionFlags and SimAccess, stores SimName. */
  function RegionHandshake(s: HandlerState, vars: seq<NetVariable>): Handled {
    match SkipAt(vars, 0)
    case Err(e) => Handled(s, Aborted(e))
    case Ok(p1) =>
      match SkipAt(vars, p1)
      case Err(e) => Handled(s, Aborted(e))
      case Ok(p2) =>
        match StringAt(vars, p2)
        case Err(e) => Handled(s, Aborted(e))
        case Ok(name) => Handled(s.(connection := s.connection.(simName := name.value)), Returned(false))
  }

  /**
   * HandleOSNE_ObjectName and HandleOSNE_ObjectDescription: find or create
   * the prim named by the first LocalID, then hand the message to its
   * EC_OpenSimPrim.
   */
  function ObjectProperty(s: HandlerState, kind: PropertyKind, vars: seq<NetVariable>): Handled {
    match FindByName(vars, 0, "LocalID")
    case Err(e) => Handled(s, Aborted(e))
    case Ok(q) =>
      match U32At(vars, q)
      case Err(e) => Handled(s, Aborted(e))
      case Ok(id) =>
        Handled(s.(world := FindOrCreatePrim(s.world, id.value),
                   primHandOffs := s.primHandOffs + [PrimHandOff(kind, id.value, vars)]),
                Returned(false))
  }

  // ---------------------------------------------------------------------
  // Dispatch

  /** HandleOpenSimNetworkEvent: only inbound network events, and among them only the seven known ids, reach a handler. */
  function Dispatch(s: HandlerState, event: EventId, msgId: MessageId, vars: seq<NetVariable>,
                    uuidFromString: seq<byte> -> UUID): Handled
  {
    if !event.EventNetworkIn? then Handled(s, Returned(false))
    else
      match msgId
      case RexNetMsgAgentMovementComplete => AgentMovementComplete(s, vars)
      case RexNetMsgGenericMessage => GenericMessage(s, vars, uuidFromString)
      case RexNetMsgLogoutReply => LogoutReply(s, vars)
      case RexNetMsgObjectDescription => ObjectProperty(s, ObjectDescriptionMessage, vars)
      case RexNetMsgObjectName => ObjectProperty(s, ObjectNameMessage, vars)
      case RexNetMsgObjectUpdate => ObjectUpdate(s, vars)
      case RexNetMsgRegionHandshake => RegionHandshake(s, vars)
      case OtherMessage(_) => Handled(s, Returned(false))
  }

  // ---------------------------------------------------------------------
  // Properties of the handlers

  /** The field a prim write comes from. */
  function EffectField(e: PrimEffect): PrimField {
    match e
    case SetMaterial(_) => Material
    case SetClickAction(_) => ClickAction
    case SetScale(_) => Scale
    case SetTransform(_, _) => ObjectData
    case ReportObjectDataLength(_) => ObjectData
    case SetParentId(_) => ParentId
    case SetUpdateFlags(_) => UpdateFlags
    case SetHoveringText(_) => HoveringText
    case SetMediaUrl(_) => MediaUrl
  }

  /**
   * The writes follow the wire order, one per field from f on, and the
   * decoding stops early exactly when a read fails.
   */
  lemma {:induction false} DecodeFollowsWireOrder(vars: seq<NetVariable>, p: nat, f: PrimField)
    decreases 7 - FieldIndex(f)
    ensures var d := DecodeFrom(vars, p, f);
            |d.effects| <= 8 - FieldIndex(f) &&
            (d.failure.None? <==> |d.effects| == 8 - FieldIndex(f)) &&
            forall i :: 0 <= i < |d.effects| ==> FieldIndex(EffectField(d.effects[i])) == FieldIndex(f) + i
  {
    match FieldAt(vars, p, f)
    case Err(_) =>
    case Ok(r) =>
      assert EffectField(r.value) == f by {
        match f
        case ObjectData =>
        case _ =>
      }
      if f != MediaUrl {
        DecodeFollowsWireOrder(vars, r.next, NextField(f));
      }
  }

  /** A wrong-sized object data block stops nothing: ParentID and UpdateFlags are still read and written. */
  lemma ShortObjectDataStillReadsParent(vars: seq<NetVariable>, p: nat, data: seq<byte>, parent: uint32, flags: uint32)
    requires p < |vars| && vars[p].value == Buffer(data) && |data| != ObjectDataLength
    requires p + 1 < |vars| && vars[p + 1].value == U32(parent)
    requires p + 2 < |vars| && vars[p + 2].value == U32(flags)
    ensures var d := DecodeFrom(vars, p, ObjectData);
            |d.effects| >= 3 && d.effects[0] == ReportObjectDataLength(|data|) &&
            d.effects[1] == SetParentId(parent) && d.effects[2] == SetUpdateFlags(flags)
  {
  }

  /** Without a SetTransform write the placeable is left as it was. */
  lemma {:induction false} ApplyEffectsKeepsPlaceable(w: World, id: EntityId, es: seq<PrimEffect>)
    requires id in w
    requires forall i :: 0 <= i < |es| ==> !es[i].SetTransform?
    decreases |es|
    ensures ApplyEffects(w, id, es)[id].placeable == w[id].placeable
  {
    if es != [] {
      ApplyEffectsKeepsPlaceable(w, id, es[..|es| - 1]);
    }
  }

  /** A prim entity stays a prim entity under every write. */
  lemma {:induction false} ApplyEffectsKeepsPrim(w: World, id: EntityId, es: seq<PrimEffect>)
    requires id in w && IsPrimEntity(w[id])
    decreases |es|
    ensures IsPrimEntity(ApplyEffects(w, id, es)[id])
  {
    if es != [] {
      ApplyEffectsKeepsPrim(w, id, es[..|es| - 1]);
    }
  }

  /** After a prim ObjectUpdate the entity exists with all prim components, whatever was there before. */
  lemma ObjectUpdateLeavesPrimEntity(s: HandlerState, vars: seq<NetVariable>)
    requires ObjectUpdateHeaderAt(vars).Ok? && ObjectUpdateHeaderAt(vars).value.value.pcode == PCodePrim
    ensures var id := ObjectUpdateHeaderAt(vars).value.value.localId;
            var r := ObjectUpdate(s, vars).state.world;
            id in r && IsPrimEntity(r[id])
  {
    var h := ObjectUpdateHeaderAt(vars).value;
    var w1 := FindOrCreatePrim(s.world, h.value.localId);
    ApplyEffectsKeepsPrim(w1, h.value.localId, DecodePrimBody(vars, h.next).effects);
  }

  /** The header decodes exactly when the four read variables have the right types at 0, 2, 4 and 6. */
  lemma ObjectUpdateHeaderShape(vars: seq<NetVariable>)
    ensures ObjectUpdateHeaderAt(vars).Ok? <==>
            |vars| >= 7 && TypeOf(vars[0].value) == NetVarU64 && TypeOf(vars[2].value) == NetVarU32 &&
            TypeOf(vars[4].value) == NetVarUUID && TypeOf(vars[6].value) == NetVarU8
    ensures ObjectUpdateHeaderAt(vars).Ok? ==>
            ObjectUpdateHeaderAt(vars).value == Read(ObjectUpdateHeader(vars[0].value.d, vars[2].value.w, vars[4].value.id, vars[6].value.b), 7)
  {
  }

  /** Every handler keeps UUIDs_ pointing at existing prim entities. */
  lemma DispatchKeepsMapsToPrims(s: HandlerState, event: EventId, msgId: MessageId, vars: seq<NetVariable>,
                                 uuidFromString: seq<byte> -> UUID)
    requires MapsToPrims(s.uuids, s.world)
    ensures var r := Dispatch(s, event, msgId, vars, uuidFromString).state;
            MapsToPrims(r.uuids, r.world)
  {
    if event.EventNetworkIn? && msgId.RexNetMsgObjectUpdate? {
      match ObjectUpdateHeaderAt(vars)
      case Err(_) =>
      case Ok(h) =>
        var id := h.value.localId;
        if h.value.pcode == PCodePrim {
          var w1 := FindOrCreatePrim(s.world, id);
          CreateKeepsMapsToPrims(s.uuids, s.world, id, h.value.fullId);
          GrowsKeepsMapsToPrims(RegisterIfNew(s.uuids, s.world, id, h.value.fullId), w1,
                                ApplyEffects(w1, id, DecodePrimBody(vars, h.next).effects));
        } else if h.value.pcode == PCodeAvatar {
          GrowsKeepsMapsToPrims(s.uuids, s.world, FindOrCreateAvatar(s.world, id));
        }
    } else if event.EventNetworkIn? && (msgId.RexNetMsgObjectName? || msgId.RexNetMsgObjectDescription?) {
      match FindByName(vars, 0, "LocalID")
      case Err(_) =>
      case Ok(q) =>
        match U32At(vars, q)
        case Err(_) =>
        case Ok(id) => GrowsKeepsMapsToPrims(s.uuids, s.world, FindOrCreatePrim(s.world, id.value));
    }
  }

  /** No handler reports the event as handled, so it always propagates further. */
  lemma DispatchNeverHandles(s: HandlerState, event: EventId, msgId: MessageId, vars: seq<NetVariable>,
                             uuidFromString: seq<byte> -> UUID)
    ensures Dispatch(s, event, msgId, vars, uuidFromString).outcome != Returned(true)
  {
  }

  /** Events other than inbound network messages, and unknown message ids, change nothing. */
  lemma DispatchIgnoresUnknown(s: HandlerState, event: EventId, msgId: MessageId, vars: seq<NetVariable>,
                               uuidFromString: seq<byte> -> UUID)
    requires !event.EventNetworkIn? || msgId.OtherMessage?
    ensures Dispatch(s, event, msgId, vars, uuidFromString) == Handled(s, Returned(false))
  {
  }

  /** The blob handed to the prim is every trailing buffer back to back, as long as all of them together. */
  lemma {:induction false} RexPrimDataDeliversAllBuffers(s: HandlerState, vars: seq<NetVariable>,
                                                         uuidFromString: seq<byte> -> UUID, q: nat, text: Read<seq<byte>>)
    requires FindByName(vars, 0, "Parameter") == Ok(q) && StringAt(vars, q) == Ok(text)
    requires LookupPrim(s.uuids, s.world, uuidFromString(text.value)).Some?
    requires MapsToPrims(s.uuids, s.world)
    requires TrailingBuffers(vars, text.next).Ok?
    ensures var id := LookupPrim(s.uuids, s.world, uuidFromString(text.value)).value;
            var bufs := TrailingBuffers(vars, text.next).value;
            var r := RexPrimData(s, vars, uuidFromString).state.world;
            r[id].prim.value.rexPrimData == Concat(bufs) && r[id].viewable == Some(Viewable(Concat(bufs))) &&
            |r[id].prim.value.rexPrimData| == TotalLength(bufs)
  {
    ConcatLength(TrailingBuffers(vars, text.next).value);
  }

  /** A UUID that names no known entity leaves the scene as it was. */
  lemma RexPrimDataUnknownPrim(s: HandlerState, vars: seq<NetVariable>, uuidFromString: seq<byte> -> UUID)
    requires FindByName(vars, 0, "Parameter").Ok?
    requires StringAt(vars, FindByName(vars, 0, "Parameter").value).Ok?
    requires uuidFromString(StringAt(vars, FindByName(vars, 0, "Parameter").value).value.value) !in s.uuids
    ensures RexPrimData(s, vars, uuidFromString) == Handled(s, Returned(false))
  {
  }

  /**
   * ObjectName and ObjectDescription: when the LocalID reads, the entity is a
   * prim entity afterwards and exactly this message is handed to it, once;
   * when it does not, nothing changes.
   */
  lemma ObjectPropertyHandsMessageToPrim(s: HandlerState, kind: PropertyKind, vars: seq<NetVariable>)
    ensures FindByName(vars, 0, "LocalID").Err? ==>
              ObjectProperty(s, kind, vars) == Handled(s, Aborted(FindByName(vars, 0, "LocalID").error))
    ensures FindByName(vars, 0, "LocalID").Ok? && U32At(vars, FindByName(vars, 0, "LocalID").value).Err? ==>
              ObjectProperty(s, kind, vars) == Handled(s, Aborted(U32At(vars, FindByName(vars, 0, "LocalID").value).error))
    ensures FindByName(vars, 0, "LocalID").Ok? && U32At(vars, FindByName(vars, 0, "LocalID").value).Ok? ==>
              var id := U32At(vars, FindByName(vars, 0, "LocalID").value).value.value;
              var r := ObjectProperty(s, kind, vars);
              && r.outcome == Returned(false)
              && id in r.state.world && IsPrimEntity(r.state.world[id])
              && r.state.primHandOffs == s.primHandOffs + [PrimHandOff(kind, id, vars)]
              && r.state.uuids == s.uuids && r.state.connection == s.connection
  {
  }

  /** LogoutReply closes the connection exactly when both ids are ours and changes nothing else. */
  lemma LogoutReplyClosesOnlyOwnSession(s: HandlerState, vars: seq<NetVariable>)
    requires SessionIdsAt(vars).Ok?
    ensures var r := LogoutReply(s, vars).state;
            r.world == s.world && r.uuids == s.uuids &&
            r.connection == s.connection.(connected := r.connection.connected) &&
            (r.connection.connected == false <==> (MatchesSession(s.connection, SessionIdsAt(vars).value.value) || !s.connection.connected))
  {
  }

  /**
   * AgentMovementComplete never changes the handler state. The movement
   * fields are read only when both ids are ours; otherwise the message
   * is dropped whatever follows the ids.
   */
  lemma AgentMovementCompleteKeepsState(s: HandlerState, vars: seq<NetVariable>)
    ensures AgentMovementComplete(s, vars).state == s
    ensures SessionIdsAt(vars).Err? ==> AgentMovementComplete(s, vars).outcome == Aborted(SessionIdsAt(vars).error)
    ensures SessionIdsAt(vars).Ok? && !MatchesSession(s.connection, SessionIdsAt(vars).value.value) ==>
              AgentMovementComplete(s, vars) == Handled(s, Returned(false))
    ensures SessionIdsAt(vars).Ok? && MatchesSession(s.connection, SessionIdsAt(vars).value.value) ==>
              (AgentMovementComplete(s, vars).outcome == Returned(false) <==> MovementDataAt(vars, SessionIdsAt(vars).value.next).Ok?)
  {
  }

  /** Only the RexPrimData method acts; every other method name returns false and changes nothing. */
  lemma GenericMessageOnlyPrimDataActs(s: HandlerState, vars: seq<NetVariable>, uuidFromString: seq<byte> -> UUID)
    ensures GenericMethodAt(vars).Err? ==> GenericMessage(s, vars, uuidFromString) == Handled(s, Aborted(GenericMethodAt(vars).error))
    ensures GenericMethodAt(vars).Ok? && GenericMethodAt(vars).value.value != RexPrimDataMethod ==>
              GenericMessage(s, vars, uuidFromString) == Handled(s, Returned(false))
    ensures GenericMethodAt(vars).Ok? && GenericMethodAt(vars).value.value == RexPrimDataMethod ==>
              GenericMessage(s, vars, uuidFromString) == RexPrimData(s, vars, uuidFromString)
  {
    assert RexMediaUrlMethod[3] != RexPrimDataMethod[3];
  }

  /**
   * RegionHandshake changes only the connection's sim name, which becomes
   * the text in the third variable; a message too short for it changes nothing.
   */
  lemma RegionHandshakeStoresSimName(s: HandlerState, vars: seq<NetVariable>)
    ensures var r := RegionHandshake(s, vars).state;
            r.world == s.world && r.uuids == s.uuids && r.primHandOffs == s.primHandOffs &&
            r.connection == s.connection.(simName := r.connection.simName)
    ensures StringAt(vars, 2).Ok? ==>
              RegionHandshake(s, vars).outcome == Returned(false) &&
              RegionHandshake(s, vars).state.connection.simName == StringAt(vars, 2).value.value
    ensures StringAt(vars, 2).Err? ==> RegionHandshake(s, vars).state == s && RegionHandshake(s, vars).outcome.Aborted?
  {
  }

  // ---------------------------------------------------------------------
  // Helper lemmas for the handler methods

  lemma {:induction false} ApplyEffectsCons(w: World, id: EntityId, e: PrimEffect, es: seq<PrimEffect>)
    decreases |es|
    ensures ApplyEffects(w, id, [e] + es) == ApplyEffects(ApplyEffect(w, id, e), id, es)
  {
    if es == [] {
      assert ([e] + es)[..0] == [];
    } else {
      var init, last := es[..|es| - 1], es[|es| - 1];
      var all := [e] + es;
      assert all[..|all| - 1] == [e] + init && all[|all| - 1] == last;
      calc {
        ApplyEffects(w, id, all);
        ApplyEffect(ApplyEffects(w, id, [e] + init), id, last);
        { ApplyEffectsCons(w, id, e, init); }
        ApplyEffect(ApplyEffects(ApplyEffect(w, id, e), id, init), id, last);
        ApplyEffects(ApplyEffect(w, id, e), id, es);
      }
    }
  }

  lemma SnocBuffers(bs: seq<seq<byte>>, b: seq<byte>)
    ensures TotalLength(bs + [b]) == TotalLength(bs) + |b|
    ensures Concat(bs + [b]) == Concat(bs) + b
  {
    assert (bs + [b])[..|bs|] == bs;
  }

  /** A longer run of buffers is at least as long in bytes. */
  lemma {:induction false} TotalLengthMonotone(vars: seq<NetVariable>, p: nat, k: nat, q: nat)
    requires p <= k <= q <= |vars|
    requires forall j :: p <= j < q ==> vars[j].value.Buffer?
    ensures TotalLength(BuffersBetween(vars, p, k)) <= TotalLength(BuffersBetween(vars, p, q))
    decreases q - k
  {
    if k < q {
      TotalLengthMonotone(vars, p, k, q - 1);
      SnocBuffers(BuffersBetween(vars, p, q - 1), vars[q - 1].value.bytes);
    }
  }

  // ---------------------------------------------------------------------
  // The handler

  class NetworkEventHandler {
    /** The "World" scene. */
    var world: World
    /** UUIDs_: full id -> local id of every prim created from an ObjectUpdate. */
    var uuids: IdMap
    var connection: ServerConnection
    /** The messages handed to prim components' ObjectName and ObjectDescription handlers. */
    var primHandOffs: seq<PrimHandOff>
    /** RexUUID's constructor from text: the parsing is not part of this model. */
    const uuidFromString: seq<byte> -> UUID

    ghost function State(): HandlerState
      reads this
    {
      HandlerState(world, uuids, connection, primHandOffs)
    }

    ghost predicate Valid()
      reads this
    {
      MapsToPrims(uuids, world)
    }

    constructor (world: World, connection: ServerConnection, uuidFromString: seq<byte> -> UUID)
      ensures Valid()
      ensures this.world == world && uuids == map[] && this.connection == connection && primHandOffs == []
      ensures this.uuidFromString == uuidFromString
    {
      this.world := world;
      uuids := map[];
      this.connection := connection;
      primHandOffs := [];
      this.uuidFromString := uuidFromString;
    }

    /** GetOrCreatePrimEntity(entityid), with the missing prim components added. */
    method GetOrCreatePrimEntity(id: EntityId) returns (e: Entity)
      requires Valid()
      modifies this`world
      ensures Valid()
      ensures world == FindOrCreatePrim(old(world), id)
      ensures e == world[id] && IsPrimEntity(e)
    {
      GrowsKeepsMapsToPrims(uuids, world, FindOrCreatePrim(world, id));
      world := FindOrCreatePrim(world, id);
      e := world[id];
    }

    /** GetOrCreatePrimEntity(entityid, fullid): a newly created entity is also registered under its full id. */
    method GetOrCreatePrimEntityWithUUID(id: EntityId, fullId: UUID) returns (e: Entity)
      requires Valid()
      modifies this`world, this`uuids
      ensures Valid()
      ensures world == FindOrCreatePrim(old(world), id)
      ensures uuids == RegisterIfNew(old(uuids), old(world), id, fullId)
      ensures e == world[id] && IsPrimEntity(e)
    {
      CreateKeepsMapsToPrims(uuids, world, id, fullId);
      if id !in world {
        uuids := uuids[fullId := id];
      }
      world := FindOrCreatePrim(world, id);
      e := world[id];
    }

    method GetPrimEntity(u: UUID) returns (r: Option<EntityId>)
      requires Valid()
      ensures r == LookupPrim(uuids, world, u)
      ensures r.Some? ==> IsPrimEntity(world[r.value])
    {
      if u !in uuids {
        return None;
      }
      var id := uuids[u];
      r := if id in world then Some(id) else None;
    }

    method GetAvatarEntitySafe(id: EntityId) returns (e: Entity)
      requires Valid()
      modifies this`world
      ensures Valid()
      ensures world == FindOrCreateAvatar(old(world), id)
      ensures e == world[id]
    {
      if id !in world {
        world := world[id := NewAvatarEntity()];
      }
      e := world[id];
    }

    /** Reads field f at the cursor and writes it into the entity's components; a failed read writes nothing. */
    method ReadField(msg: NetInMessage, id: EntityId, f: PrimField) returns (failure: Option<DecodeError>)
      requires Valid()
      modifies this`world, msg
      ensures Valid()
      ensures var r := FieldAt(msg.variables, old(msg.position), f);
              (r.Ok? ==> failure == None && world == ApplyEffect(old(world), id, r.value.value) &&
                         msg.position == r.value.next) &&
              (r.Err? ==> failure == Some(r.error) && world == old(world))
    {
      var e: PrimEffect;
      match f {
        case Material =>
          var material := msg.ReadU8();
          if material.Err? { return Some(material.error); }
          e := SetMaterial(material.value);
        case ClickAction =>
          var clickAction := msg.ReadU8();
          if clickAction.Err? { return Some(clickAction.error); }
          e := SetClickAction(clickAction.value);
        case Scale =>
          var scale := msg.ReadVector3();
          if scale.Err? { return Some(scale.error); }
          e := SetScale(scale.value);
        case ObjectData =>
          var objectData := msg.ReadBuffer();
          if objectData.Err? { return Some(objectData.error); }
          var bytes := objectData.value;
          if |bytes| == ObjectDataLength {
            e := SetTransform(bytes[0..12], bytes[36..48]);
          } else {
            e := ReportObjectDataLength(|bytes|);  // logged as an error
          }
        case ParentId =>
          var parentId := msg.ReadU32();
          if parentId.Err? { return Some(parentId.error); }
          e := SetParentId(parentId.value);
        case UpdateFlags =>
          var updateFlags := msg.ReadU32();
          if updateFlags.Err? { return Some(updateFlags.error); }
          e := SetUpdateFlags(updateFlags.value);
        case HoveringText =>
          var found := msg.SkipToFirstVariableByName("Text");  // the path variables
          if found.Err? { return Some(found.error); }
          var text := msg.ReadBuffer();
          if text.Err? { return Some(text.error); }
          e := SetHoveringText(CString(text.value));
        case MediaUrl =>
          var skipped := msg.SkipToNextVariable();  // TextColor
          if skipped.Err? { return Some(skipped.error); }
          var url := msg.ReadBuffer();
          if url.Err? { return Some(url.error); }
          e := SetMediaUrl(CString(url.value));
      }
      GrowsKeepsMapsToPrims(uuids, world, ApplyEffect(world, id, e));
      world := ApplyEffect(world, id, e);
      failure := None;
    }

    /** The prim branch of HandleOSNE_ObjectUpdate from field f to MediaURL, read in wire order. */
    method ReadFieldsFrom(msg: NetInMessage, id: EntityId, f: PrimField) returns (o: Outcome)
      requires Valid()
      modifies this`world, msg
      decreases 7 - FieldIndex(f)
      ensures Valid()
      ensures var d := DecodeFrom(msg.variables, old(msg.position), f);
              world == ApplyEffects(old(world), id, d.effects) && o == OutcomeOf(d.failure)
    {
      ghost var w0 := world;
      var failure := ReadField(msg, id, f);
      if failure.Some? {
        return Aborted(failure.value);
      }
      ApplyEffectsCons(w0, id, FieldAt(msg.variables, old(msg.position), f).value.value, []);
      if f == MediaUrl {
        return Returned(false);
      }
      ghost var w1 := world;
      o := ReadFieldsFrom(msg, id, NextField(f));
      ApplyEffectsCons(w0, id, FieldAt(msg.variables, old(msg.position), f).value.value,
                       DecodeFrom(msg.variables, old(msg.position), f).effects[1..]);
    }

    /** RegionHandle, TimeDilation (skipped), LocalID, State (skipped), FullID, CRC (skipped), PCode. */
    static method ReadObjectUpdateHeader(msg: NetInMessage) returns (r: Result<ObjectUpdateHeader, DecodeError>)
      modifies msg
      ensures r == ValueOf(ObjectUpdateHeaderAt(msg.variables))
      ensures r.Ok? ==> msg.position == ObjectUpdateHeaderAt(msg.variables).value.next
    {
      msg.ResetReading();
      var regionHandle := msg.ReadU64();
      if regionHandle.Err? {
        return Err(regionHandle.error);
      }
      var skipped := msg.SkipToNextVariable();  // TimeDilation
      if skipped.Err? {
        return Err(skipped.error);
      }
      var localId := msg.ReadU32();
      if localId.Err? {
        return Err(localId.error);
      }
      skipped := msg.SkipToNextVariable();  // State
      if skipped.Err? {
        return Err(skipped.error);
      }
      var fullId := msg.ReadUUID();
      if fullId.Err? {
        return Err(fullId.error);
      }
      skipped := msg.SkipToNextVariable();  // CRC
      if skipped.Err? {
        return Err(skipped.error);
      }
      var pcode := msg.ReadU8();
      if pcode.Err? {
        return Err(pcode.error);
      }
      r := Ok(ObjectUpdateHeader(regionHandle.value, localId.value, fullId.value, pcode.value));
    }

    method HandleObjectUpdate(msg: NetInMessage) returns (o: Outcome)
      requires Valid()
      modifies this`world, this`uuids, msg
      ensures Valid()
      ensures Handled(State(), o) == ObjectUpdate(old(State()), msg.variables)
    {
      var header := ReadObjectUpdateHeader(msg);
      if header.Err? {
        return Aborted(header.error);
      }
      var id := header.value.localId;
      match header.value.pcode
      case 0x09 =>
        var _ := GetOrCreatePrimEntityWithUUID(id, header.value.fullId);
        o := ReadFieldsFrom(msg, id, Material);
      case 0x2f =>
        var _ := GetAvatarEntitySafe(id);
        o := Returned(false);
      case _ =>
        o := Returned(false);
    }

    /** Hands the assembled blob to EC_OpenSimPrim and EC_Viewable. */
    method DeliverRexPrimData(id: EntityId, blob: seq<byte>)
      requires Valid()
      modifies this`world
      ensures Valid()
      ensures world == DeliverPrimData(old(world), id, blob)
    {
      GrowsKeepsMapsToPrims(uuids, world, DeliverPrimData(world, id, blob));
      world := DeliverPrimData(world, id, blob);
    }

    /** The first pass of HandleRexGM_RexPrimData: the total size of the buffers from the cursor to the end. */
    static method SumBufferSizes(msg: NetInMessage) returns (r: Result<nat, DecodeError>)
      requires msg.position <= |msg.variables|
      modifies msg
      ensures var t := TrailingBuffers(msg.variables, old(msg.position));
              r == if t.Ok? then Ok(TotalLength(t.value)) else Err(t.error)
    {
      ghost var vars := msg.variables;
      ghost var start := msg.position;
      var fullDataSize: nat := 0;
      while msg.CheckNextVariableType() != NetVarNone
        invariant start <= msg.position <= BufferRunEnd(vars, start)
        invariant fullDataSize == TotalLength(BuffersBetween(vars, start, msg.position))
        decreases |vars| - msg.position
      {
        ghost var k := msg.position;
        var buffer := msg.ReadBuffer();
        if buffer.Err? {
          return Err(buffer.error);
        }
        SnocBuffers(BuffersBetween(vars, start, k), buffer.value);
        fullDataSize := fullDataSize + |buffer.value|;
      }
      r := Ok(fullDataSize);
    }

    /** One step of the second pass: the next buffer is copied in after the bytes already copied. */
    static method CopyNextBuffer(msg: NetInMessage, fullData: array<byte>, pos: nat, ghost start: nat) returns (pos': nat)
      requires start <= msg.position < |msg.variables|
      requires BufferRunEnd(msg.variables, start) == |msg.variables|
      requires fullData.Length == TotalLength(BuffersBetween(msg.variables, start, |msg.variables|))
      requires pos == TotalLength(BuffersBetween(msg.variables, start, msg.position))
      requires pos <= fullData.Length
      requires fullData[..pos] == Concat(BuffersBetween(msg.variables, start, msg.position))
      modifies msg, fullData
      ensures msg.position == old(msg.position) + 1
      ensures pos' == TotalLength(BuffersBetween(msg.variables, start, msg.position))
      ensures pos' <= fullData.Length
      ensures fullData[..pos'] == Concat(BuffersBetween(msg.variables, start, msg.position))
    {
      ghost var vars := msg.variables;
      ghost var before := BuffersBetween(vars, start, msg.position);
      var buffer := msg.ReadBuffer();
      var bytes := buffer.value;
      assert BuffersBetween(vars, start, msg.position) == before + [bytes];
      SnocBuffers(before, bytes);
      TotalLengthMonotone(vars, start, msg.position, |vars|);
      MemCopy(fullData, pos, bytes);
      assert fullData[..pos + |bytes|] == fullData[..pos] + fullData[pos..pos + |bytes|] == Concat(before) + bytes;
      pos' := pos + |bytes|;
    }

    /** The second pass: every buffer from the cursor to the end, copied one after another into a new array. */
    static method CopyBuffers(msg: NetInMessage, fullDataSize: nat) returns (fullData: array<byte>)
      requires msg.position <= |msg.variables|
      requires BufferRunEnd(msg.variables, msg.position) == |msg.variables|
      requires fullDataSize == TotalLength(BuffersBetween(msg.variables, msg.position, |msg.variables|))
      modifies msg
      ensures fresh(fullData)
      ensures fullData[..] == Concat(BuffersBetween(msg.variables, old(msg.position), |msg.variables|))
    {
      ghost var start := msg.position;
      fullData := new byte[fullDataSize];
      var pos: nat := 0;
      while msg.CheckNextVariableType() != NetVarNone
        invariant start <= msg.position <= |msg.variables|
        invariant pos == TotalLength(BuffersBetween(msg.variables, start, msg.position))
        invariant pos <= fullData.Length
        invariant fullData[..pos] == Concat(BuffersBetween(msg.variables, start, msg.position))
        modifies msg, fullData
        decreases |msg.variables| - msg.position
      {
        pos := CopyNextBuffer(msg, fullData, pos, start);
      }
      assert fullData[..] == fullData[..pos];
    }

    /** HandleRexGM_RexPrimData: one pass to size the blob, a second to copy the buffers into it. */
    method HandleRexPrimData(msg: NetInMessage) returns (o: Outcome)
      requires Valid()
      modifies this`world, msg
      ensures Valid()
      ensures Handled(State(), o) == RexPrimData(old(State()), msg.variables, uuidFromString)
    {
      msg.ResetReading();
      var found := msg.SkipToFirstVariableByName("Parameter");
      if found.Err? {
        return Aborted(found.error);
      }
      var primUuid := msg.ReadString();
      if primUuid.Err? {
        return Aborted(primUuid.error);
      }
      ghost var start := msg.position;
      var target := GetPrimEntity(uuidFromString(primUuid.value));
      if target.None? {
        return Returned(false);
      }
      var fullDataSize := SumBufferSizes(msg);
      if fullDataSize.Err? {
        return Aborted(fullDataSize.error);
      }
      msg.ResetReading();
      found := msg.SkipToFirstVariableByName("Parameter");
      found := msg.SkipToNextVariable();  // the prim UUID
      var fullData := CopyBuffers(msg, fullDataSize.value);
      DeliverRexPrimData(target.value, fullData[..]);
      o := Returned(false);
    }

    method HandleGenericMessage(msg: NetInMessage) returns (o: Outcome)
      requires Valid()
      modifies this`world, msg
      ensures Valid()
      ensures Handled(State(), o) == GenericMessage(old(State()), msg.variables, uuidFromString)
    {
      msg.ResetReading();
      var skipped := msg.SkipToNextVariable();  // AgentId
      if skipped.Err? {
        return Aborted(skipped.error);
      }
      skipped := msg.SkipToNextVariable();  // SessionId
      if skipped.Err? {
        return Aborted(skipped.error);
      }
      skipped := msg.SkipToNextVariable();  // TransactionId
      if skipped.Err? {
        return Aborted(skipped.error);
      }
      var methodName := msg.ReadString();
      if methodName.Err? {
        return Aborted(methodName.error);
      }
      if methodName.value == RexMediaUrlMethod {
        o := Returned(false);  // HandleRexGM_RexMediaUrl does nothing yet
      } else if methodName.value == RexPrimDataMethod {
        o := HandleRexPrimData(msg);
      } else {
        o := Returned(false);
      }
    }

    method HandleRegionHandshake(msg: NetInMessage) returns (o: Outcome)
      requires Valid()
      modifies this`connection, msg
      ensures Valid()
      ensures Handled(State(), o) == RegionHandshake(old(State()), msg.variables)
    {
      msg.ResetReading();
      var skipped := msg.SkipToNextVariable();  // RegionFlags
      if skipped.Err? {
        return Aborted(skipped.error);
      }
      skipped := msg.SkipToNextVariable();  // SimAccess
      if skipped.Err? {
        return Aborted(skipped.error);
      }
      var simName := msg.ReadString();
      if simName.Err? {
        return Aborted(simName.error);
      }
      connection := connection.(simName := simName.value);
      o := Returned(false);
    }

    method HandleLogoutReply(msg: NetInMessage) returns (o: Outcome)
      requires Valid()
      modifies this`connection, msg
      ensures Valid()
      ensures Handled(State(), o) == LogoutReply(old(State()), msg.variables)
    {
      msg.ResetReading();
      var agentId := msg.ReadUUID();
      if agentId.Err? {
        return Aborted(agentId.error);
      }
      var sessionId := msg.ReadUUID();
      if sessionId.Err? {
        return Aborted(sessionId.error);
      }
      if agentId.value == connection.agentId && sessionId.value == connection.sessionId {
        connection := connection.(connected := false);  // CloseServerConnection
      }
      o := Returned(false);
    }

    method HandleAgentMovementComplete(msg: NetInMessage) returns (o: Outcome)
      requires Valid()
      modifies msg
      ensures Handled(State(), o) == AgentMovementComplete(old(State()), msg.variables)
    {
      msg.ResetReading();
      var agentId := msg.ReadUUID();
      if agentId.Err? {
        return Aborted(agentId.error);
      }
      var sessionId := msg.ReadUUID();
      if sessionId.Err? {
        return Aborted(sessionId.error);
      }
      if agentId.value == connection.agentId && sessionId.value == connection.sessionId {
        var position := msg.ReadVector3();
        if position.Err? {
          return Aborted(position.error);
        }
        var lookAt := msg.ReadVector3();
        if lookAt.Err? {
          return Aborted(lookAt.error);
        }
        var regionHandle := msg.ReadU64();
        if regionHandle.Err? {
          return Aborted(regionHandle.error);
        }
        var timestamp := msg.ReadU32();
        if timestamp.Err? {
          return Aborted(timestamp.error);
        }
      }
      o := Returned(false);
    }

    /** HandleOSNE_ObjectName and HandleOSNE_ObjectDescription, which read the message the same way. */
    method HandleObjectProperties(msg: NetInMessage, kind: PropertyKind) returns (o: Outcome)
      requires Valid()
      modifies this`world, this`primHandOffs, msg
      ensures Valid()
      ensures Handled(State(), o) == ObjectProperty(old(State()), kind, msg.variables)
    {
      msg.ResetReading();
      var found := msg.SkipToFirstVariableByName("LocalID");
      if found.Err? {
        return Aborted(found.error);
      }
      var localId := msg.ReadU32();
      if localId.Err? {
        return Aborted(localId.error);
      }
      var _ := GetOrCreatePrimEntity(localId.value);
      primHandOffs := primHandOffs + [PrimHandOff(kind, localId.value, msg.variables)];
      o := Returned(false);
    }

    method HandleOpenSimNetworkEvent(event: EventId, msgId: MessageId, msg: NetInMessage) returns (o: Outcome)
      requires Valid()
      modifies this`world, this`uuids, this`connection, this`primHandOffs, msg
      ensures Valid()
      ensures Handled(State(), o) == Dispatch(old(State()), event, msgId, msg.variables, uuidFromString)
    {
      if !event.EventNetworkIn? {
        return Returned(false);
      }
      match msgId
      case RexNetMsgAgentMovementComplete => o := HandleAgentMovementComplete(msg);
      case RexNetMsgGenericMessage => o := HandleGenericMessage(msg);
      case RexNetMsgLogoutReply => o := HandleLogoutReply(msg);
      case RexNetMsgObjectDescription => o := HandleObjectProperties(msg, ObjectDescriptionMessage);
      case RexNetMsgObjectName => o := HandleObjectProperties(msg, ObjectNameMessage);
      case RexNetMsgObjectUpdate => o := HandleObjectUpdate(msg);
      case RexNetMsgRegionHandshake => o := HandleRegionHandshake(msg);
      case OtherMessage(_) => o := Returned(false);
    }
  }
}
