/**
 * The physics adapter (`PhysicsService`): a registry of rigid bodies under
 * integer ids, handed out from a counter that only grows, plus the
 * distance-based ray test used for shooting. The rigid-body simulation itself
 * is the Jolt engine's; the model keeps what the adapter decides: which ids
 * exist, what was last written to each body, how many sub-steps a frame takes,
 * and which body a ray hits.
 */
module Physics {
  import opened Common
  import opened Keyed
  import opened Rays

  /** Collision shapes the adapter builds (boxes carry Jolt's 0.05 convex radius). */
  datatype Shape =
    | Box(halfExtents: Vec3)
    | Sphere(radius: real)
    | Capsule(halfHeight: real, radius: real)

  const BoxConvexRadius: real := 0.05

  /**
   * A registered body: its id, shape, static flag, the last position and
   * velocity written to it and the impulse handed to the engine since creation.
   */
  datatype Body = Body(id: nat, shape: Shape, isStatic: bool, position: Vec3, velocity: Vec3, impulse: Vec3)

  function BodyId(b: Body): nat { b.id }
  function BodyCentre(b: Body): Vec3 { b.position }

  /** The ray test's fixed hit radius around a body's centre. */
  const HitRadius: real := 1.5
  function BodyHitRadius(b: Body): real { HitRadius }

  /** What `raycast` reports: nothing, or the body, the point of the ray nearest it and the distance along the ray. */
  datatype RayHit = Miss | Hit(bodyId: nat, point: Vec3, distance: real)

  const DefaultMaxDistance: real := 1000.0

  /** Gravity the world is created with (metres per second squared, along y). */
  const Gravity: Vec3 := Vec3(0.0, -20.0, 0.0)

  /** A frame longer than 1/30 s is simulated in two sub-steps, any other in one. */
  function StepCount(dt: real): (n: nat)
    ensures n == 1 || n == 2
  {
    if dt > 1.0 / 30.0 then 2 else 1
  }

  /**
   * The sub-step never exceeds 1/30 s for frames up to 1/15 s, and never exceeds
   * 0.05 s for frames up to the game's 0.1 s clamp.
   */
  lemma SubStepBound(dt: real)
    requires 0.0 <= dt
    ensures dt <= 1.0 / 15.0 ==> dt / (StepCount(dt) as real) <= 1.0 / 30.0
    ensures dt <= 0.1 ==> dt / (StepCount(dt) as real) <= 0.05
    ensures dt / (StepCount(dt) as real) <= dt
  {
    if dt > 1.0 / 30.0 {
      assert dt / 2.0 == dt * 0.5;
    }
  }

  /** A write the adapter forwards to one body. */
  datatype Edit = SetPosition(p: Vec3) | SetVelocity(v: Vec3) | Push(j: Vec3)

  function Apply(b: Body, e: Edit): Body {
    match e
    case SetPosition(p) => b.(position := p)
    case SetVelocity(v) => b.(velocity := v)
    case Push(j) => b.(impulse := Add(b.impulse, j))
  }

  /** The body registry after forwarding `e` to `id`; an unknown id leaves it as it was. */
  function Edited(bodies: seq<Body>, id: nat, e: Edit): seq<Body> {
    match Find(bodies, BodyId, id)
    case None => bodies
    case Some(b) => Replace(bodies, BodyId, Apply(b, e))
  }

  /**
   * An edit reaches exactly the body it names: that body is `Apply`'d, every
   * other lookup is as before, the id set and the id order are kept.
   */
  lemma {:induction false} EditedLookup(bodies: seq<Body>, id: nat, e: Edit, other: nat)
    requires Increasing(bodies, BodyId)
    ensures Increasing(Edited(bodies, id, e), BodyId)
    ensures Keys(Edited(bodies, id, e), BodyId) == Keys(bodies, BodyId)
    ensures Find(Edited(bodies, id, e), BodyId, other) ==
      if other == id && Find(bodies, BodyId, id).Some? then Some(Apply(Find(bodies, BodyId, id).value, e))
      else Find(bodies, BodyId, other)
  {
    match Find(bodies, BodyId, id)
    case None =>
    case Some(b) =>
      FindAfterReplace(bodies, BodyId, Apply(b, e), other);
  }

  /** Removing the oldest body leaves the others, in order. */
  lemma {:induction false} WithoutFirst(bodies: seq<Body>)
    requires Increasing(bodies, BodyId) && bodies != []
    ensures Without(bodies, BodyId, bodies[0].id) == bodies[1..]
  {
    assert bodies[0].id !in Keys(bodies[1..], BodyId) by {
      forall x | x in bodies[1..] ensures x.id != bodies[0].id {
        var k :| 0 <= k < |bodies| - 1 && bodies[1..][k] == x;
        assert bodies[k + 1] == x;
      }
    }
    WithoutKeys(bodies[1..], BodyId, bodies[0].id);
  }

  /** Where the body under `id` stands, if it is registered. */
  function PositionOf(bodies: seq<Body>, id: nat): Option<Vec3> {
    match Find(bodies, BodyId, id)
    case None => None
    case Some(b) => Some(b.position)
  }

  function RayHitOn(b: Body, origin: Vec3, direction: Vec3): RayHit {
    Hit(b.id, FootPoint(b.position, origin, direction), Projection(b.position, origin, direction))
  }

  class PhysicsWorld {
    /** Whether the engine has been loaded (`initialize` has completed). */
    var initialized: bool
    /** The `bodies` map, in insertion order. */
    var bodies: seq<Body>
    var nextBodyId: nat

    ghost predicate Valid()
      reads this
    {
      Increasing(bodies, BodyId) && forall b :: b in bodies ==> b.id < nextBodyId
    }

    constructor ()
      ensures Valid() && !initialized && bodies == [] && nextBodyId == 0
    {
      initialized := false;
      bodies := [];
      nextBodyId := 0;
    }

    /** Loading the engine and creating the world with `Gravity`. */
    method Initialize()
      modifies this
      ensures initialized && bodies == old(bodies) && nextBodyId == old(nextBodyId)
    {
      initialized := true;
    }

    /** `update(dt)`: nothing before the engine is loaded, otherwise one engine step of `StepCount(dt)` sub-steps. */
    method Update(dt: real) returns (steps: nat)
      ensures !initialized ==> steps == 0
      ensures initialized ==> steps == StepCount(dt) && 1 <= steps <= 2
    {
      if !initialized {
        return 0;
      }
      steps := StepCount(dt);
    }

    /** `createBody`: registers a body under the next id, which is returned and never reused. */
    method CreateBody(shape: Shape, position: Vec3, isStatic: bool) returns (id: nat)
      requires initialized && Valid()
      modifies this
      ensures Valid() && initialized
      ensures id == old(nextBodyId) && nextBodyId == id + 1
      ensures bodies == old(bodies) + [Body(id, shape, isStatic, position, Zero, Zero)]
      ensures Keys(bodies, BodyId) == Keys(old(bodies), BodyId) + {id}
      ensures id !in Keys(old(bodies), BodyId)
    {
      id := nextBodyId;
      var b := Body(id, shape, isStatic, position, Zero, Zero);
      AppendFresh(bodies, BodyId, b);
      bodies := bodies + [b];
      nextBodyId := nextBodyId + 1;
    }

    method CreateBox(halfExtents: Vec3, position: Vec3, isStatic: bool) returns (id: nat)
      requires initialized && Valid()
      modifies this
      ensures Valid() && initialized
      ensures id == old(nextBodyId) && nextBodyId == id + 1
      ensures bodies == old(bodies) + [Body(id, Box(halfExtents), isStatic, position, Zero, Zero)]
    {
      id := CreateBody(Box(halfExtents), position, isStatic);
    }

    method CreateSphere(radius: real, position: Vec3, isStatic: bool) returns (id: nat)
      requires initialized && Valid()
      modifies this
      ensures Valid() && initialized
      ensures id == old(nextBodyId) && nextBodyId == id + 1
      ensures bodies == old(bodies) + [Body(id, Sphere(radius), isStatic, position, Zero, Zero)]
    {
      id := CreateBody(Sphere(radius), position, isStatic);
    }

    method CreateCapsule(halfHeight: real, radius: real, position: Vec3, isStatic: bool) returns (id: nat)
      requires initialized && Valid()
      modifies this
      ensures Valid() && initialized
      ensures id == old(nextBodyId) && nextBodyId == id + 1
      ensures bodies == old(bodies) + [Body(id, Capsule(halfHeight, radius), isStatic, position, Zero, Zero)]
    {
      id := CreateBody(Capsule(halfHeight, radius), position, isStatic);
    }

    /** `getBodyPosition`: null exactly for an id that is not registered. */
    function BodyPosition(id: nat): (r: Option<Vec3>)
      reads this
      requires Valid()
      ensures r.None? <==> id !in Keys(bodies, BodyId)
      ensures r.Some? ==> exists b :: b in bodies && b.id == id && b.position == r.value
    {
      PositionOf(bodies, id)
    }

    /** `getLinearVelocity`: null exactly for an id that is not registered. */
    function LinearVelocity(id: nat): (r: Option<Vec3>)
      reads this
      requires Valid()
      ensures r.None? <==> id !in Keys(bodies, BodyId)
      ensures r.Some? ==> exists b :: b in bodies && b.id == id && b.velocity == r.value
    {
      match Find(bodies, BodyId, id)
      case None => None
      case Some(b) => Some(b.velocity)
    }

    /** `setBodyPosition`, `setLinearVelocity`, `addImpulse`: forwarded to the body, ignored for an unknown id. */
    method EditBody(id: nat, e: Edit)
      requires Valid()
      modifies this
      ensures Valid()
      ensures bodies == Edited(old(bodies), id, e)
      ensures initialized == old(initialized) && nextBodyId == old(nextBodyId)
    {
      EditedLookup(bodies, id, e, id);
      bodies := Edited(bodies, id, e);
    }

    method SetBodyPosition(id: nat, position: Vec3)
      requires Valid()
      modifies this
      ensures Valid()
      ensures bodies == Edited(old(bodies), id, SetPosition(position))
      ensures initialized == old(initialized) && nextBodyId == old(nextBodyId)
    {
      EditBody(id, SetPosition(position));
    }

    method SetLinearVelocity(id: nat, velocity: Vec3)
      requires Valid()
      modifies this
      ensures Valid()
      ensures bodies == Edited(old(bodies), id, SetVelocity(velocity))
      ensures initialized == old(initialized) && nextBodyId == old(nextBodyId)
    {
      EditBody(id, SetVelocity(velocity));
    }

    method AddImpulse(id: nat, impulse: Vec3)
      requires Valid()
      modifies this
      ensures Valid()
      ensures bodies == Edited(old(bodies), id, Push(impulse))
      ensures initialized == old(initialized) && nextBodyId == old(nextBodyId)
    {
      EditBody(id, Push(impulse));
    }

    /**
     * `raycast`: before the engine is loaded nothing is hit; otherwise the hit is
     * the body `NearestAt` the ray (within 1.5 of it, in front of the origin and
     * nearer than `maxDistance`; the smallest projection wins, the earliest
     * registered body on ties), reported with its nearest ray point and distance,
     * and there is no hit exactly when no body qualifies.
     */
    method Raycast(origin: Vec3, direction: Vec3, maxDistance: real) returns (r: RayHit)
      requires Valid()
      ensures !initialized ==> r == Miss
      ensures initialized ==> (r.Miss? <==> NoneEligible(bodies, BodyCentre, BodyHitRadius, origin, direction, maxDistance))
      ensures r.Hit? ==> exists k :: NearestAt(bodies, k, BodyCentre, BodyHitRadius, origin, direction, maxDistance)
                                   && r == RayHitOn(bodies[k], origin, direction)
    {
      if !initialized {
        return Miss;
      }
      var closestHit: RayHit := Miss;
      ghost var k: int := -1;
      var i := 0;
      while i < |bodies|
        invariant 0 <= i <= |bodies|
        invariant closestHit.Miss? ==> NoneEligible(bodies[..i], BodyCentre, BodyHitRadius, origin, direction, maxDistance)
        invariant closestHit.Hit? ==> NearestAt(bodies[..i], k, BodyCentre, BodyHitRadius, origin, direction, maxDistance)
                                      && closestHit == RayHitOn(bodies[k], origin, direction)
      {
        var b := bodies[i];
        assert bodies[..i + 1] == bodies[..i] + [b];
        if closestHit.Miss? {
          NoneExtend(bodies[..i], b, BodyCentre, BodyHitRadius, origin, direction, maxDistance);
        } else {
          NearestExtend(bodies[..i], b, k, BodyCentre, BodyHitRadius, origin, direction, maxDistance);
        }
        if Eligible(b.position, HitRadius, origin, direction, maxDistance) {
          var dot := Projection(b.position, origin, direction);
          if closestHit.Miss? || dot < closestHit.distance {
            closestHit := Hit(b.id, FootPoint(b.position, origin, direction), dot);
            k := i;
          }
        }
        i := i + 1;
      }
      assert bodies[..i] == bodies;
      r := closestHit;
    }

    /** `removeBody`: drops the body under `id`; an unknown id is ignored. */
    method RemoveBody(id: nat)
      requires Valid()
      modifies this
      ensures Valid()
      ensures bodies == Without(old(bodies), BodyId, id)
      ensures Keys(bodies, BodyId) == Keys(old(bodies), BodyId) - {id}
      ensures initialized == old(initialized) && nextBodyId == old(nextBodyId)
    {
      WithoutIncreasing(bodies, BodyId, id);
      WithoutKeys(bodies, BodyId, id);
      bodies := Without(bodies, BodyId, id);
    }

    /** `destroy`: removes every body in turn; the id counter keeps counting. */
    method Destroy()
      requires Valid()
      modifies this
      ensures Valid()
      ensures bodies == [] && initialized == old(initialized) && nextBodyId == old(nextBodyId)
    {
      var ids := bodies;
      var i := 0;
      while i < |ids|
        invariant 0 <= i <= |ids|
        invariant Valid()
        invariant bodies == ids[i..]
        invariant initialized == old(initialized) && nextBodyId == old(nextBodyId)
      {
        WithoutFirst(bodies);
        RemoveBody(ids[i].id);
        i := i + 1;
      }
    }
  }
}
