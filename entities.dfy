/**
 * Entities, their events, and the gravity system of src/entities.rs.
 *
 * An `Entity` owns an identity, a transform and an optional physics object.
 * Systems read entities and return `Event`s describing intended changes;
 * `Entity.ApplyEvent` is the only operation that changes an entity.
 */
module Entities {
  import opened Wrappers

  // ---------------------------------------------------------------------------
  // Values
  // ---------------------------------------------------------------------------

  /** A 3D vector. Components are exact reals; the source's f32 rounding is not modelled. */
  datatype Vec3 = Vec3(x: real, y: real, z: real)

  const Zero: Vec3 := Vec3(0.0, 0.0, 0.0)

  /** Component-wise vector addition. */
  function Add(a: Vec3, b: Vec3): Vec3
  {
    Vec3(a.x + b.x, a.y + b.y, a.z + b.z)
  }

  /** A 128-bit identity. */
  newtype Uuid = n: int | 0 <= n < 0x1_0000_0000_0000_0000_0000_0000_0000_0000

  datatype Transform = Transform(position: Vec3)

  datatype PhysicsObject = PhysicsObject(velocity: Vec3)

  datatype EventApplyError = NoPhysics

  /** A change addressed to a single entity. */
  datatype EntityEvent =
    | PositionChange(to: Vec3)
    | VelocityChange(to: Vec3)

  /** An event together with the identity of the entity it is addressed to. */
  datatype Event = Entity(target: Uuid, change: EntityEvent)

  /** The value of every field of an entity at one moment. */
  datatype EntityState = EntityState(id: Uuid, transform: Transform, physics: Option<PhysicsObject>)

  // ---------------------------------------------------------------------------
  // Applying an event to one entity
  // ---------------------------------------------------------------------------

  /**
   * What applying `event` to an entity in state `s` returns, and the state it
   * leaves behind. A position change always succeeds; a velocity change
   * succeeds exactly when the physics slot is filled, and otherwise fails
   * with `NoPhysics` before anything is written.
   */
  function Apply(s: EntityState, event: EntityEvent): (r: (Result<(), EventApplyError>, EntityState))
    ensures r.1.id == s.id
    ensures r.0.Ok? <==> event.PositionChange? || s.physics.Some?
    ensures r.0.Err? ==> r.0.error == NoPhysics && r.1 == s
    ensures event.PositionChange? ==>
              r.1.transform.position == event.to && r.1.physics == s.physics
    ensures event.VelocityChange? && s.physics.Some? ==>
              r.1.physics == Some(PhysicsObject(event.to)) && r.1.transform == s.transform
  {
    match event
    case PositionChange(to) =>
      (Ok(()), s.(transform := s.transform.(position := to)))
    case VelocityChange(to) =>
      match s.physics
      case None => (Err(NoPhysics), s)
      case Some(p) => (Ok(()), s.(physics := Some(p.(velocity := to))))
  }

  /** A later event of the same kind overwrites an earlier one. */
  lemma ApplyLastWriteWins(s: EntityState, first: EntityEvent, second: EntityEvent)
    requires first.PositionChange? == second.PositionChange?
    requires Apply(s, first).0.Ok?
    ensures Apply(Apply(s, first).1, second) == Apply(s, second)
  {
  }

  /** A position change and a velocity change touch different fields, so they commute. */
  lemma ApplyPositionVelocityCommute(s: EntityState, p: Vec3, v: Vec3)
    ensures Apply(Apply(s, PositionChange(p)).1, VelocityChange(v)).1
         == Apply(Apply(s, VelocityChange(v)).1, PositionChange(p)).1
  {
  }

  class Entity {
    var id: Uuid
    var transform: Transform
    var physics: Option<PhysicsObject>

    /** The current value of all fields. */
    ghost function State(): EntityState
      reads this
    {
      EntityState(id, transform, physics)
    }

    /**
     * A new entity at the origin with no physics. `id` stands for the fresh
     * random identity the source draws.
     */
    constructor (id: Uuid)
      ensures this.id == id
      ensures transform.position == Zero
      ensures physics == None
    {
      this.id := id;
      transform := Transform(Zero);
      physics := None;
    }

    /** Builder step: fills (or clears) the physics slot and hands the entity back. */
    method WithPhysics(physics: Option<PhysicsObject>) returns (r: Entity)
      modifies this
      ensures r == this
      ensures this.physics == physics
      ensures id == old(id) && transform == old(transform)
    {
      this.physics := physics;
      r := this;
    }

    /** Applies one event to this entity in place. */
    method ApplyEvent(event: EntityEvent) returns (res: Result<(), EventApplyError>)
      modifies this
      ensures (res, State()) == Apply(old(State()), event)
    {
      match event {
        case PositionChange(to) =>
          transform := transform.(position := to);
        case VelocityChange(to) =>
          if physics.None? {
            return Err(NoPhysics);
          }
          physics := Some(physics.value.(velocity := to));
      }
      res := Ok(());
    }
  }

  // ---------------------------------------------------------------------------
  // The gravity system
  // ---------------------------------------------------------------------------

  const GravityAcceleration: real := 9.81

  /** The velocity added by gravity over a time step `delta`. */
  function GravityOffset(delta: real): Vec3
  {
    Vec3(0.0, -GravityAcceleration * delta, 0.0)
  }

  /** The event gravity emits for the entity `id` whose physics object is `p`. */
  function GravityEvent(id: Uuid, p: PhysicsObject, delta: real): Event
  {
    Event.Entity(id, VelocityChange(Add(p.velocity, GravityOffset(delta))))
  }

  /** The number of entities whose physics slot is filled. */
  function PhysicsCount(entities: seq<Entity>): nat
    reads entities
  {
    if entities == [] then 0
    else (if entities[0].physics.Some? then 1 else 0) + PhysicsCount(entities[1..])
  }

  /** No two entities share an identity. */
  predicate UniqueIds(entities: seq<Entity>)
    reads entities
  {
    forall i, j :: 0 <= i < j < |entities| ==> entities[i].id != entities[j].id
  }

  /** The number of events addressed to `id`. */
  function Targeting(events: seq<Event>, id: Uuid): nat
  {
    if events == [] then 0
    else (if events[0].target == id then 1 else 0) + Targeting(events[1..], id)
  }

  /**
   * One velocity change per entity that has physics, in input order; entities
   * without physics are skipped. Being a function, it cannot write to the
   * entities it reads.
   */
  function GravitySystem(entities: seq<Entity>, delta: real): (r: seq<Event>)
    reads entities
    ensures |r| == PhysicsCount(entities)
    ensures forall k :: 0 <= k < |r| ==>
              exists i :: 0 <= i < |entities| && entities[i].physics.Some? &&
                          r[k] == GravityEvent(entities[i].id, entities[i].physics.value, delta)
  {
    if entities == [] then []
    else
      var tail := entities[1..];
      assert forall j :: 0 <= j < |tail| ==> tail[j] == entities[j + 1];
      var rest := GravitySystem(tail, delta);
      match entities[0].physics
      case None => rest
      case Some(p) => [GravityEvent(entities[0].id, p, delta)] + rest
  }

  /** Gravity over a concatenation is the concatenation of gravity over the parts. */
  lemma {:induction false} GravityConcat(a: seq<Entity>, b: seq<Entity>, delta: real)
    ensures GravitySystem(a + b, delta) == GravitySystem(a, delta) + GravitySystem(b, delta)
  {
    if a == [] {
      assert a + b == b;
    } else {
      assert (a + b)[1..] == a[1..] + b;
      GravityConcat(a[1..], b, delta);
    }
  }

  /** Every entity with physics receives its gravity event. */
  lemma {:induction false} GravityCovers(entities: seq<Entity>, delta: real, i: nat)
    requires i < |entities| && entities[i].physics.Some?
    ensures GravityEvent(entities[i].id, entities[i].physics.value, delta) in GravitySystem(entities, delta)
  {
    if i > 0 {
      GravityCovers(entities[1..], delta, i - 1);
    }
  }

  lemma {:induction false} TargetingNone(events: seq<Event>, id: Uuid)
    requires forall k :: 0 <= k < |events| ==> events[k].target != id
    ensures Targeting(events, id) == 0
  {
    if events != [] {
      TargetingNone(events[1..], id);
    }
  }

  /**
   * With distinct identities, each entity is addressed by exactly one gravity
   * event if it has physics and by none otherwise.
   */
  lemma {:induction false} GravityOneEventPerEntity(entities: seq<Entity>, delta: real, i: nat)
    requires UniqueIds(entities)
    requires i < |entities|
    ensures Targeting(GravitySystem(entities, delta), entities[i].id)
         == if entities[i].physics.Some? then 1 else 0
  {
    var id := entities[i].id;
    var rest := GravitySystem(entities[1..], delta);
    if i == 0 {
      TargetingNone(rest, id);
    } else {
      GravityOneEventPerEntity(entities[1..], delta, i - 1);
    }
    if entities[0].physics.Some? {
      var head := GravityEvent(entities[0].id, entities[0].physics.value, delta);
      assert ([head] + rest)[1..] == rest;
    }
  }

  /** Gravity's event, applied to the entity it came from, succeeds and adds the gravity offset. */
  lemma GravityEventApplies(s: EntityState, delta: real)
    requires s.physics.Some?
    ensures var v := s.physics.value.velocity;
            var r := Apply(s, GravityEvent(s.id, s.physics.value, delta).change);
            r.0 == Ok(()) &&
            r.1 == s.(physics := Some(PhysicsObject(Add(v, GravityOffset(delta))))) &&
            r.1.physics.value.velocity == Vec3(v.x, v.y - 9.81 * delta, v.z)
  {
  }

  /**
   * With distinct identities, every gravity event applied to the entity it
   * addresses succeeds: gravity never provokes `NoPhysics`.
   */
  lemma GravityEventsApply(entities: seq<Entity>, delta: real)
    requires UniqueIds(entities)
    ensures var r := GravitySystem(entities, delta);
            forall k, i :: 0 <= k < |r| && 0 <= i < |entities| && entities[i].id == r[k].target ==>
              Apply(entities[i].State(), r[k].change).0 == Ok(())
  {
  }
}
