/**
 * RexLogic's Primitive: the resource request tags it keeps per entity.
 * Each map is keyed by request tag, so a tag belongs to exactly one entity.
 * DiscardRequestTags forgets the tags of one entity in one of the maps.
 */
module RexPrimitive {
  import opened NetMessage
  import opened PrimScene

  /** Core::request_tag_t; its width is not part of this model. */
  type RequestTag = nat

  type RequestMap = map<RequestTag, EntityId>

  /** The map without the tags of entity e. */
  function WithoutEntity(m: RequestMap, e: EntityId): (r: RequestMap)
    ensures forall t :: t in r <==> t in m && m[t] != e
    ensures forall t :: t in r ==> r[t] == m[t]
  {
    map t | t in m && m[t] != e :: m[t]
  }

  /** After discarding, no tag of e is left and every other entity keeps exactly its tags. */
  lemma DiscardRemovesExactlyThatEntity(m: RequestMap, e: EntityId)
    ensures e !in WithoutEntity(m, e).Values
    ensures forall t :: t in m && m[t] != e ==> t in WithoutEntity(m, e) && WithoutEntity(m, e)[t] == m[t]
    ensures |WithoutEntity(m, e)| <= |m|
  {
    assert WithoutEntity(m, e).Keys <= m.Keys;
    SubsetCardinality(WithoutEntity(m, e).Keys, m.Keys);
  }

  lemma SubsetCardinality<T>(a: set<T>, b: set<T>)
    requires a <= b
    ensures |a| <= |b|
  {
    assert b == a + (b - a);
  }

  /** Discarding twice is discarding once, and the order of two discards does not matter. */
  lemma DiscardIdempotentAndCommutes(m: RequestMap, e: EntityId, f: EntityId)
    ensures WithoutEntity(WithoutEntity(m, e), e) == WithoutEntity(m, e)
    ensures WithoutEntity(WithoutEntity(m, e), f) == WithoutEntity(WithoutEntity(m, f), e)
  {
  }

  /** Walks the tags of the map and erases those that name e. */
  method DiscardFrom(m: RequestMap, e: EntityId) returns (r: RequestMap)
    ensures r == WithoutEntity(m, e)
  {
    r := m;
    var pending := m.Keys;
    while pending != {}
      invariant pending <= m.Keys
      invariant forall t :: t in r <==> t in m && (t in pending || m[t] != e)
      invariant forall t :: t in r ==> r[t] == m[t]
      decreases |pending|
    {
      var t :| t in pending;
      if m[t] == e {
        r := r - {t};
      }
      pending := pending - {t};
    }
    assert r.Keys == WithoutEntity(m, e).Keys;
  }

  /** Which of the two request maps an operation works on. */
  datatype RequestKind = MeshRequests | MeshTextureRequests

  class Primitive {
    /** mesh_request_tags_ */
    var meshRequestTags: RequestMap
    /** mesh_texture_request_tags_ */
    var meshTextureRequestTags: RequestMap

    constructor ()
      ensures meshRequestTags == map[] && meshTextureRequestTags == map[]
    {
      meshRequestTags := map[];
      meshTextureRequestTags := map[];
    }

    /** DiscardRequestTags(entity, map): only the chosen map changes, and in it only the entity's tags go. */
    method DiscardRequestTags(e: EntityId, kind: RequestKind)
      modifies this
      ensures kind == MeshRequests ==>
                meshRequestTags == WithoutEntity(old(meshRequestTags), e) &&
                meshTextureRequestTags == old(meshTextureRequestTags)
      ensures kind == MeshTextureRequests ==>
                meshTextureRequestTags == WithoutEntity(old(meshTextureRequestTags), e) &&
                meshRequestTags == old(meshRequestTags)
    {
      match kind
      case MeshRequests =>
        meshRequestTags := DiscardFrom(meshRequestTags, e);
      case MeshTextureRequests =>
        meshTextureRequestTags := DiscardFrom(meshTextureRequestTags, e);
    }
  }
}
