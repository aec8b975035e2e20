# Entities, events and the gravity system

A model of `src/entities.rs`, the core of a small entity/event simulation
step. An entity has a 128-bit identity, a transform (a position) and an
optional physics object (a velocity). Systems read entities and return
events that describe intended changes; an event is applied to one entity at
a time by `apply_event`, which is the only operation that mutates an entity
after construction.

- `wrappers.dfy` — module `Wrappers`: Rust's `Option` and `Result`.
- `entities.dfy` — module `Entities`:
  - the value types (`Vec3`, `Uuid`, `Transform`, `PhysicsObject`,
    `EntityEvent`, `Event`, `EventApplyError`);
  - the class `Entity`, whose fields are the source struct's fields. Its
    constructor and its two mutating methods (`WithPhysics`, `ApplyEvent`)
    change the object in place;
  - `Apply`, the pure specification of `apply_event` on an `EntityState`
    snapshot. `Entity.ApplyEvent` is proved to return and leave behind
    exactly what `Apply` says;
  - `GravitySystem`, the filter-map over a sequence of entities that emits
    one velocity change per entity with physics. It is a function reading
    the entities, so it cannot write to them. Lemmas cover counting,
    addressing and coverage, splitting the input into chunks, and composition
    with `Apply`.

The source runs the gravity pipeline with rayon's `par_iter_mut`, and its
`collect` into a `Vec` keeps the input order. The model is the equivalent
sequential filter-map in input order. `GravityConcat` shows that running the
system on consecutive chunks and concatenating the results gives the same
events. That is what makes the parallel split sound. The wider design this file
belongs to also calls for a world store, batch application with an
`EntityNotFound` error, and a position-integration system. None of these
exists in `src/entities.rs`, so the model follows the code and leaves them out.

## Model

| member | source | states |
|---|---|---|
| `Entities.Apply` | src/entities.rs:49-58 | The result is `Ok` exactly when the event is a position change or the physics slot is filled. On `Err` the error is `NoPhysics` and the state is unchanged. A position change sets the position to `to` and keeps physics. A velocity change with physics sets the velocity to `to` and keeps the transform. The id never changes. |
| `Entities.Entity.ApplyEvent` | src/entities.rs:49-58 | The in-place method returns the result `Apply` gives and leaves the entity in the state `Apply` gives, so every property of `Apply` holds of the mutation. |
| `Entities.Entity.constructor` | src/entities.rs:35-43 | A new entity has the given identity, position zero and no physics. |
| `Entities.Entity.WithPhysics` | src/entities.rs:44-47 | The physics slot becomes exactly the argument. Id and transform are unchanged, and the same entity is handed back. |
| `Entities.ApplyLastWriteWins` | src/entities.rs:49-58 | Events overwrite: a successful event followed by another of the same kind has the effect of the second alone. |
| `Entities.ApplyPositionVelocityCommute` | src/entities.rs:49-58 | A position change and a velocity change write different fields, so applying them in either order gives the same state. |
| `Entities.GravitySystem` | src/entities.rs:97-116 | The number of events equals the number of input entities with physics. Every event is the velocity change `velocity + (0, -9.81*delta, 0)` addressed to the id of some input entity that has physics, built from that entity's own velocity. |
| `Entities.GravityConcat` | src/entities.rs:97-116 | Gravity over `a + b` is gravity over `a` followed by gravity over `b`, so chunked evaluation with an order-preserving gather gives the same events. |
| `Entities.GravityCovers` | src/entities.rs:100-113 | Every input entity with physics receives its gravity event. |
| `Entities.GravityOneEventPerEntity` | src/entities.rs:100-106 | With distinct identities, an entity with physics is addressed by exactly one event, and an entity without physics by none. |
| `Entities.GravityEventApplies` | src/entities.rs:107-113 | Applying gravity's event to the entity that produced it succeeds. Velocity becomes `velocity + offset`, which is `(x, y - 9.81*delta, z)`, and nothing else changes. |
| `Entities.GravityEventsApply` | src/entities.rs:97-116 | With distinct identities, applying any gravity event to the entity it addresses returns `Ok`, so gravity never provokes `NoPhysics`. |

## Left out

- `main` (src/entities.rs:9-17): a demo entry point with no checkable behaviour.
- Identity generation by `Uuid::new_v4` (src/entities.rs:37) is random. The constructor takes the identity as a parameter. Uniqueness of identities is not proved; the lemmas that need it take it as a precondition (`UniqueIds`).
- f32 arithmetic: vector components are exact reals, so the rounding of `velocity + vec3(0., -9.81 * delta, 0.)` (src/entities.rs:111) is not modelled.
- Rayon parallelism (src/entities.rs:99): the pipeline is modelled as a sequential filter-map in input order.
- The `HasID` trait (src/entities.rs:19-33) is a plain accessor; the model reads the `id` field directly.
- `Event::entity` (src/entities.rs:88-90) is the datatype constructor `Event.Entity` itself.
- The `Component` trait and `impl_downcast!` (src/entities.rs:67-69, 75, 81) wrap a downcasting library and carry no logic of their own.
- The `Default` derives and the `thiserror` display text (src/entities.rs:23, 61-65, 71, 77) are formatting and defaults only.
- The `&mut` borrow of the entity slice in `gravity_system` is not modelled; the model's function cannot write to the entities at all.
