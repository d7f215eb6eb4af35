/**
 * The part of the "World" scene that the network handler touches: entities
 * keyed by local id, each with the optional components EC_OpenSimPrim,
 * EC_Viewable and EC_OgrePlaceable, and the find-or-create rules of
 * GetOrCreatePrimEntity and GetAvatarEntitySafe.
 */
module PrimScene {
  import opened Wrappers
  import opened NetMessage

  type EntityId = uint32

  /** The EC_OpenSimPrim fields the handler writes. */
  datatype Prim = Prim(
    material: byte,
    clickAction: byte,
    scale: Vector3,
    parentId: uint32,
    updateFlags: uint32,
    hoveringText: seq<byte>,
    mediaUrl: seq<byte>,
    rexPrimData: seq<byte>)

  /** EC_OgrePlaceable: position (three floats) and orientation (x, y, z of the quaternion), as wire bytes. */
  datatype Placeable = Placeable(position: seq<byte>, orientation: seq<byte>)

  /** EC_Viewable, reduced to the last RexPrimData blob handed to it. */
  datatype Viewable = Viewable(rexPrimData: seq<byte>)

  datatype Entity = Entity(prim: Option<Prim>, viewable: Option<Viewable>, placeable: Option<Placeable>)

  type World = map<EntityId, Entity>

  /** RexUUID -> local id, the handler's UUIDs_ map. */
  type IdMap = map<UUID, EntityId>

  function Zeros(n: nat): (s: seq<byte>)
    ensures |s| == n
  {
    seq(n, _ => 0)
  }

  const DefaultPrim := Prim(0, 0, Vector3(0, 0, 0), 0, 0, [], [], [])
  const DefaultPlaceable := Placeable(Zeros(12), Zeros(12))
  const DefaultViewable := Viewable([])

  /** An entity carrying every default prim component. */
  predicate IsPrimEntity(e: Entity) {
    e.prim.Some? && e.viewable.Some? && e.placeable.Some?
  }

  /** CreateNewPrimEntity: EC_OpenSimPrim, EC_Viewable and EC_OgrePlaceable with default values. */
  function NewPrimEntity(): (e: Entity)
    ensures IsPrimEntity(e)
  {
    Entity(Some(DefaultPrim), Some(DefaultViewable), Some(DefaultPlaceable))
  }

  /** CreateNewAvatarEntity: no default components yet. */
  function NewAvatarEntity(): (e: Entity)
    ensures e.prim.None? && e.viewable.None? && e.placeable.None?
  {
    Entity(None, None, None)
  }

  /** No entity disappears and no prim entity loses a component. */
  predicate Grows(w: World, w': World) {
    forall id :: id in w ==> id in w' && (IsPrimEntity(w[id]) ==> IsPrimEntity(w'[id]))
  }

  /** Every UUID in the map names an existing prim entity. */
  predicate MapsToPrims(uuids: IdMap, w: World) {
    forall u :: u in uuids ==> uuids[u] in w && IsPrimEntity(w[uuids[u]])
  }

  lemma GrowsKeepsMapsToPrims(uuids: IdMap, w: World, w': World)
    requires MapsToPrims(uuids, w) && Grows(w, w')
    ensures MapsToPrims(uuids, w')
  {
  }

  /**
   * Both GetOrCreatePrimEntity overloads as written: an existing entity is
   * returned as it is, whatever components it has.
   */
  function FindOrCreatePrimAsWritten(w: World, id: EntityId): (r: World)
    ensures id in r && r.Keys == w.Keys + {id}
    ensures id in w ==> r == w
    ensures id !in w ==> r[id] == NewPrimEntity()
  {
    if id in w then w else w[id := NewPrimEntity()]
  }

  /**
   * A prim update for a local id that an avatar update created first gets an
   * entity without EC_OpenSimPrim, which the handler then dereferences.
   */
  lemma AsWrittenReturnsEntityWithoutPrim()
    ensures var w := FindOrCreatePrimAsWritten(map[7 := NewAvatarEntity()], 7);
            7 in w && w[7].prim.None? && w[7].placeable.None?
  {
  }

  /** Adds the default prim components an entity is missing and keeps those it has. */
  function WithPrimComponents(e: Entity): (r: Entity)
    ensures IsPrimEntity(r)
    ensures e.prim.Some? ==> r.prim == e.prim
    ensures e.viewable.Some? ==> r.viewable == e.viewable
    ensures e.placeable.Some? ==> r.placeable == e.placeable
    ensures IsPrimEntity(e) ==> r == e
  {
    Entity(
      if e.prim.Some? then e.prim else Some(DefaultPrim),
      if e.viewable.Some? then e.viewable else Some(DefaultViewable),
      if e.placeable.Some? then e.placeable else Some(DefaultPlaceable))
  }

  /**
   * GetOrCreatePrimEntity as its contract promises: the entity with the
   * local id exists afterwards and carries the prim components; a new one is
   * created with defaults; no other entity changes.
   */
  function FindOrCreatePrim(w: World, id: EntityId): (r: World)
    ensures r.Keys == w.Keys + {id}
    ensures IsPrimEntity(r[id])
    ensures id !in w ==> r[id] == NewPrimEntity()
    ensures id in w ==> r[id] == WithPrimComponents(w[id])
    ensures id in w && IsPrimEntity(w[id]) ==> r == w
    ensures forall other :: other in w && other != id ==> r[other] == w[other]
    ensures Grows(w, r)
  {
    if id in w then w[id := WithPrimComponents(w[id])] else w[id := NewPrimEntity()]
  }

  /** UUIDs_[fullid] = entityid happens only on the creating path. */
  function RegisterIfNew(uuids: IdMap, w: World, id: EntityId, fullId: UUID): (r: IdMap)
    ensures id !in w ==> r == uuids[fullId := id]
    ensures id in w ==> r == uuids
  {
    if id in w then uuids else uuids[fullId := id]
  }

  /** GetAvatarEntitySafe: creates a component-less entity only when the id is free. */
  function FindOrCreateAvatar(w: World, id: EntityId): (r: World)
    ensures r.Keys == w.Keys + {id}
    ensures id in w ==> r == w
    ensures id !in w ==> r[id] == NewAvatarEntity()
    ensures Grows(w, r)
  {
    if id in w then w else w[id := NewAvatarEntity()]
  }

  /** GetPrimEntity: the entity the UUID was registered for, if the map knows it and the scene still has it. */
  function LookupPrim(uuids: IdMap, w: World, u: UUID): (r: Option<EntityId>)
    ensures r.Some? <==> u in uuids && uuids[u] in w
    ensures r.Some? ==> r.value == uuids[u]
  {
    if u in uuids && uuids[u] in w then Some(uuids[u]) else None
  }

  /** Find-or-create followed by registration keeps every mapped UUID on a prim entity. */
  lemma {:induction false} CreateKeepsMapsToPrims(uuids: IdMap, w: World, id: EntityId, fullId: UUID)
    requires MapsToPrims(uuids, w)
    ensures MapsToPrims(RegisterIfNew(uuids, w, id, fullId), FindOrCreatePrim(w, id))
  {
    var w' := FindOrCreatePrim(w, id);
    GrowsKeepsMapsToPrims(uuids, w, w');
  }

  /** A prim just created under a full id is found again by that id. */
  lemma {:induction false} LookupAfterCreate(uuids: IdMap, w: World, id: EntityId, fullId: UUID)
    requires id !in w
    ensures LookupPrim(RegisterIfNew(uuids, w, id, fullId), FindOrCreatePrim(w, id), fullId) == Some(id)
  {
  }
}
