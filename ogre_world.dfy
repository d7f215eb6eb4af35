/**
 * View tracking in the Ogre world: entities can ask to be told when they
 * enter or leave the active camera's view. Every frame the world compares
 * the camera's visible entity ids with those of the previous frame and
 * signals the tracked entities whose visibility changed.
 *
 * Tracked entries are weak references: an entity is identified by its
 * handle, and an entry has expired when its handle is no longer among the
 * live entities, which a frame update is given.
 */
module OgreView {
  import opened Wrappers

  type Handle = nat
  type EntityId = nat

  /** A weak reference to a tracked entity, with the id that entity has. */
  datatype EntityRef = EntityRef(handle: Handle, id: EntityId)

  /** EntityEnterView/EntityLeaveView, together with the entity's own EmitEnterView/EmitLeaveView. */
  datatype ViewEvent = EnterView(entity: EntityRef) | LeaveView(entity: EntityRef)

  const UintRange: int := 0x1_0000_0000

  /** A value stored into a 32-bit unsigned variable. */
  function Wrap32(x: int): (r: nat)
    ensures r < UintRange && (0 <= x < UintRange ==> r == x)
    ensures x == -1 ==> r == UintRange - 1
  {
    x % UintRange
  }

  /** No entity is tracked twice. */
  predicate DistinctHandles(tracked: seq<EntityRef>) {
    forall i, j :: 0 <= i < j < |tracked| ==> tracked[i].handle != tracked[j].handle
  }

  predicate Tracks(tracked: seq<EntityRef>, h: Handle) {
    exists i :: 0 <= i < |tracked| && tracked[i].handle == h
  }

  /** StartViewTracking: a null entity or one already tracked changes nothing; any other is appended. */
  function Started(tracked: seq<EntityRef>, entity: Option<EntityRef>): seq<EntityRef> {
    match entity
    case None => tracked
    case Some(e) => if Tracks(tracked, e.handle) then tracked else tracked + [e]
  }

  /** The first index tracking h. */
  function FirstTracking(tracked: seq<EntityRef>, h: Handle): (r: Option<nat>)
    ensures r.None? <==> !Tracks(tracked, h)
    ensures r.Some? ==> r.value < |tracked| && tracked[r.value].handle == h &&
                        forall j :: 0 <= j < r.value ==> tracked[j].handle != h
  {
    if tracked == [] then None
    else if tracked[0].handle == h then Some(0)
    else
      match FirstTracking(tracked[1..], h)
      case None =>
        assert forall i :: 1 <= i < |tracked| ==> tracked[i] == tracked[1..][i - 1];
        None
      case Some(i) => Some(i + 1)
  }

  /** StopViewTracking: the first entry of the entity is erased, if there is one. */
  function Stopped(tracked: seq<EntityRef>, entity: Option<EntityRef>): seq<EntityRef> {
    match entity
    case None => tracked
    case Some(e) =>
      match FirstTracking(tracked, e.handle)
      case None => tracked
      case Some(i) => tracked[..i] + tracked[i + 1..]
  }

  /** Starting keeps the list free of duplicates, and afterwards the entity is tracked. */
  lemma StartKeepsDistinct(tracked: seq<EntityRef>, entity: Option<EntityRef>)
    requires DistinctHandles(tracked)
    ensures DistinctHandles(Started(tracked, entity))
    ensures entity.Some? ==> Tracks(Started(tracked, entity), entity.value.handle)
    ensures Started(tracked, entity)[..|tracked|] == tracked
  {
    if entity.Some? && !Tracks(tracked, entity.value.handle) {
      var t := tracked + [entity.value];
      assert t[|tracked|].handle == entity.value.handle;
    }
  }

  /**
   * Stopping erases one entry, the first for the entity; on a duplicate-free
   * list the entity is then no longer tracked and every other entry keeps
   * its place in order.
   */
  lemma StopErasesOnlyFirst(tracked: seq<EntityRef>, e: EntityRef)
    requires DistinctHandles(tracked)
    ensures DistinctHandles(Stopped(tracked, Some(e)))
    ensures !Tracks(Stopped(tracked, Some(e)), e.handle)
    ensures Tracks(tracked, e.handle) ==> |Stopped(tracked, Some(e))| == |tracked| - 1
    ensures !Tracks(tracked, e.handle) ==> Stopped(tracked, Some(e)) == tracked
    ensures forall x :: x in tracked && x.handle != e.handle ==> x in Stopped(tracked, Some(e))
  {
    match FirstTracking(tracked, e.handle)
    case None =>
    case Some(i) =>
      var r := tracked[..i] + tracked[i + 1..];
      assert forall k :: 0 <= k < |r| ==> r[k] == tracked[if k < i then k else k + 1];
      forall x | x in tracked && x.handle != e.handle
        ensures x in r
      {
        var k :| 0 <= k < |tracked| && tracked[k] == x;
        if k < i {
          assert r[k] == x;
        } else {
          assert k != i;
          assert r[k - 1] == x;
        }
      }
  }

  /** Stopping an entity just started gives back the list it was started on. */
  lemma StartThenStopRestores(tracked: seq<EntityRef>, e: EntityRef)
    requires !Tracks(tracked, e.handle)
    ensures Stopped(Started(tracked, Some(e)), Some(e)) == tracked
  {
    var t := tracked + [e];
    assert t[|tracked|].handle == e.handle;
    assert forall j :: 0 <= j < |tracked| ==> t[j].handle != e.handle;
    assert FirstTracking(t, e.handle) == Some(|tracked|);
    assert t[..|tracked|] == tracked;
  }

  /** The entries that have not expired, in their order. */
  function Survivors(tracked: seq<EntityRef>, alive: set<Handle>): (r: seq<EntityRef>)
    ensures |r| <= |tracked|
    ensures forall x :: x in r <==> x in tracked && x.handle in alive
  {
    if tracked == [] then []
    else (if tracked[0].handle in alive then [tracked[0]] else []) + Survivors(tracked[1..], alive)
  }

  /** Erasing expired entries keeps the list free of duplicates. */
  lemma {:induction false} SurvivorsKeepDistinct(tracked: seq<EntityRef>, alive: set<Handle>)
    requires DistinctHandles(tracked)
    ensures DistinctHandles(Survivors(tracked, alive))
  {
    if tracked != [] {
      var rest := tracked[1..];
      assert DistinctHandles(rest) by {
        forall i, j | 0 <= i < j < |rest|
          ensures rest[i].handle != rest[j].handle
        {
          assert rest[i] == tracked[i + 1] && rest[j] == tracked[j + 1];
        }
      }
      SurvivorsKeepDistinct(rest, alive);
      var r := Survivors(rest, alive);
      forall x | x in r
        ensures x.handle != tracked[0].handle
      {
        var k :| 0 <= k < |rest| && rest[k] == x;
        assert tracked[k + 1] == x;
      }
    }
  }

  /** The signal one live entry gets for a change of its visibility, if it changed. */
  function EventFor(e: EntityRef, alive: set<Handle>, last: set<EntityId>, now: set<EntityId>): seq<ViewEvent> {
    if e.handle !in alive then []
    else if e.id !in last && e.id in now then [EnterView(e)]
    else if e.id in last && e.id !in now then [LeaveView(e)]
    else []
  }

  /** The signals of one frame: the entries are visited from the last to the first. */
  function ViewChanges(tracked: seq<EntityRef>, alive: set<Handle>, last: set<EntityId>, now: set<EntityId>): seq<ViewEvent> {
    if tracked == [] then []
    else ViewChanges(tracked[1..], alive, last, now) + EventFor(tracked[0], alive, last, now)
  }

  /**
   * Every signal is for a live tracked entity, an enter signal only for an
   * id that is visible now and was not before, and a leave signal only for an
   * id visible before and not now; so an unchanged membership signals nothing.
   */
  lemma {:induction false} ViewChangesSound(tracked: seq<EntityRef>, alive: set<Handle>, last: set<EntityId>, now: set<EntityId>)
    ensures forall ev :: ev in ViewChanges(tracked, alive, last, now) ==>
              ev.entity in tracked && ev.entity.handle in alive &&
              (ev.EnterView? ==> ev.entity.id in now && ev.entity.id !in last) &&
              (ev.LeaveView? ==> ev.entity.id in last && ev.entity.id !in now)
    ensures |ViewChanges(tracked, alive, last, now)| <= |tracked|
  {
    if tracked != [] {
      ViewChangesSound(tracked[1..], alive, last, now);
    }
  }

  /** Conversely, every live tracked entity whose visibility changed is signalled. */
  lemma {:induction false} ViewChangesComplete(tracked: seq<EntityRef>, alive: set<Handle>, last: set<EntityId>, now: set<EntityId>, e: EntityRef)
    requires e in tracked && e.handle in alive
    ensures e.id in now && e.id !in last ==> EnterView(e) in ViewChanges(tracked, alive, last, now)
    ensures e.id in last && e.id !in now ==> LeaveView(e) in ViewChanges(tracked, alive, last, now)
  {
    if tracked[0] != e {
      ViewChangesComplete(tracked[1..], alive, last, now, e);
    }
  }

  lemma SurvivorsStep(start: seq<EntityRef>, k: nat, alive: set<Handle>)
    requires 0 < k <= |start|
    ensures Survivors(start[k - 1..], alive) ==
              (if start[k - 1].handle in alive then [start[k - 1]] else []) + Survivors(start[k..], alive)
  {
    assert start[k - 1..][1..] == start[k..];
  }

  /** Visiting entry k - 1 of the original list keeps the shape the reverse loop relies on. */
  lemma PruneStep(start: seq<EntityRef>, k: nat, alive: set<Handle>, t: seq<EntityRef>, t': seq<EntityRef>)
    requires 0 < k <= |start|
    requires t == start[..k] + Survivors(start[k..], alive)
    requires t' == t[..k - 1] + (if t[k - 1].handle in alive then [t[k - 1]] else []) + t[k..]
    ensures t' == start[..k - 1] + Survivors(start[k - 1..], alive)
  {
    SurvivorsStep(start, k, alive);
    assert t[..k - 1] == start[..k - 1] && t[k - 1] == start[k - 1];
    assert t[k..] == Survivors(start[k..], alive);
  }

  lemma ViewChangesStep(start: seq<EntityRef>, k: nat, alive: set<Handle>, last: set<EntityId>, now: set<EntityId>)
    requires 0 < k <= |start|
    ensures ViewChanges(start[k - 1..], alive, last, now) ==
              ViewChanges(start[k..], alive, last, now) + EventFor(start[k - 1], alive, last, now)
  {
    assert start[k - 1..][1..] == start[k..];
  }

  class OgreWorld {
    /** visibilityTrackedEntities_ */
    var tracked: seq<EntityRef>
    /** lastVisibleEntities_ */
    var lastVisible: set<EntityId>
    /** visibleEntities_ */
    var visible: set<EntityId>
    /** The view signals emitted so far. */
    var events: seq<ViewEvent>

    constructor ()
      ensures tracked == [] && lastVisible == {} && visible == {} && events == []
    {
      tracked := [];
      lastVisible := {};
      visible := {};
      events := [];
    }

    method StartViewTracking(entity: Option<EntityRef>)
      modifies this`tracked
      ensures tracked == Started(old(tracked), entity)
    {
      if entity.None? {
        return;
      }
      var i := 0;
      while i < |tracked|
        invariant 0 <= i <= |tracked|
        invariant forall j :: 0 <= j < i ==> tracked[j].handle != entity.value.handle
      {
        if tracked[i].handle == entity.value.handle {
          return;
        }
        i := i + 1;
      }
      tracked := tracked + [entity.value];
    }

    method StopViewTracking(entity: Option<EntityRef>)
      modifies this`tracked
      ensures tracked == Stopped(old(tracked), entity)
    {
      if entity.None? {
        return;
      }
      var i := 0;
      while i < |tracked|
        invariant 0 <= i <= |tracked|
        invariant forall j :: 0 <= j < i ==> tracked[j].handle != entity.value.handle
      {
        if tracked[i].handle == entity.value.handle {
          assert FirstTracking(tracked, entity.value.handle) == Some(i);
          tracked := tracked[..i] + tracked[i + 1..];
          return;
        }
        i := i + 1;
      }
    }

    /**
     * One frame. With nothing tracked both sets are emptied and nothing is
     * signalled. Otherwise the previous visible set becomes the last one, the
     * camera's visible ids (none without a camera) the current one, expired
     * entries are erased and the others get their enter or leave signal.
     */
    method OnUpdated(cameraVisible: Option<set<EntityId>>, alive: set<Handle>)
      requires |tracked| < UintRange
      modifies this`tracked, this`lastVisible, this`visible, this`events
      ensures old(tracked) == [] ==>
                tracked == [] && lastVisible == {} && visible == {} && events == old(events)
      ensures old(tracked) != [] ==>
                && lastVisible == old(visible)
                && visible == (if cameraVisible.Some? then cameraVisible.value else {})
                && tracked == Survivors(old(tracked), alive)
                && events == old(events) + ViewChanges(old(tracked), alive, lastVisible, visible)
    {
      if tracked == [] {
        lastVisible := {};
        visible := {};
        return;
      }
      lastVisible := visible;
      if cameraVisible.Some? {
        visible := cameraVisible.value;
      } else {
        visible := {};
      }
      PruneAndSignal(alive);
    }

    /**
     * The reverse loop of OnUpdated. Index i is the source's 32-bit unsigned
     * loop variable: it counts down and stops when decrementing 0 wraps it
     * past the end of the list.
     */
    method PruneAndSignal(alive: set<Handle>)
      requires 0 < |tracked| < UintRange
      modifies this`tracked, this`events
      ensures tracked == Survivors(old(tracked), alive)
      ensures events == old(events) + ViewChanges(old(tracked), alive, lastVisible, visible)
    {
      ghost var start := tracked;
      ghost var k := |tracked|;
      var i := Wrap32(|tracked| - 1);
      assert start[k..] == [];
      while i < |tracked|
        invariant 0 <= k <= |start|
        invariant k > 0 ==> i == k - 1
        invariant k == 0 ==> i == UintRange - 1
        invariant tracked == start[..k] + Survivors(start[k..], alive)
        invariant events == old(events) + ViewChanges(start[k..], alive, lastVisible, visible)
        decreases k
      {
        assert k > 0 by {
          if k == 0 {
            assert |tracked| <= |start|;
          }
        }
        ghost var t := tracked;
        VisitEntry(i, alive);
        PruneStep(start, k, alive, t, tracked);
        ViewChangesStep(start, k, alive, lastVisible, visible);
        k := k - 1;
        i := Wrap32(i - 1);
      }
      assert start[0..] == start && start[..0] == [];
    }

    /** One visit of the reverse loop: an expired entry is erased, a live one signalled if its visibility changed. */
    method VisitEntry(i: nat, alive: set<Handle>)
      requires i < |tracked|
      modifies this`tracked, this`events
      ensures tracked == old(tracked)[..i] + (if old(tracked)[i].handle in alive then [old(tracked)[i]] else []) + old(tracked)[i + 1..]
      ensures events == old(events) + EventFor(old(tracked)[i], alive, lastVisible, visible)
    {
      if tracked[i].handle !in alive {
        tracked := tracked[..i] + tracked[i + 1..];
      } else {
        var e := tracked[i];
        var wasVisible := e.id in lastVisible;
        var isVisible := e.id in visible;
        if !wasVisible && isVisible {
          events := events + [EnterView(e)];
        } else if wasVisible && !isVisible {
          events := events + [LeaveView(e)];
        }
        assert tracked == tracked[..i] + [e] + tracked[i + 1..];
      }
    }
  }
}
