/**
 * The proximity ray test shared by the physics adapter's `raycast` and the game's
 * hit-scan: a target is hit when its centre projects in front of the shooter,
 * closer than a maximum distance, and lies within a radius of the ray; among the
 * hits the one with the smallest projection wins, the earliest on ties.
 */
module Rays {
  import opened Common

  /** Distance along the ray to the point nearest `centre` (the direction is taken as unit length). */
  function Projection(centre: Vec3, origin: Vec3, direction: Vec3): real {
    Dot(Sub(centre, origin), direction)
  }

  /** The point of the ray nearest `centre`. */
  function FootPoint(centre: Vec3, origin: Vec3, direction: Vec3): Vec3 {
    Add(origin, Scale(direction, Projection(centre, origin, direction)))
  }

  /**
   * `0 < p < maxDistance` and `sqrt(d) < radius`, the latter written without the
   * square root: it holds exactly when `radius > 0 && d < radius * radius`.
   */
  predicate Eligible(centre: Vec3, radius: real, origin: Vec3, direction: Vec3, maxDistance: real) {
    var p := Projection(centre, origin, direction);
    0.0 < p < maxDistance && radius > 0.0 && DistSq(FootPoint(centre, origin, direction), centre) < radius * radius
  }

  /** The scan's test against the best projection so far, `closest`, is the eligibility test narrowed to nearer targets. */
  lemma EligibleWithin(centre: Vec3, radius: real, origin: Vec3, direction: Vec3, closest: real, maxDistance: real)
    requires closest <= maxDistance
    ensures Eligible(centre, radius, origin, direction, closest)
            <==> Eligible(centre, radius, origin, direction, maxDistance) && Projection(centre, origin, direction) < closest
  {
  }

  /**
   * `s[k]` is the target the scan must pick: eligible, with a projection no larger
   * than any other eligible target's, and strictly smaller than that of every
   * eligible target stored before it.
   */
  ghost predicate NearestAt<T>(s: seq<T>, k: int, centre: T -> Vec3, radius: T -> real,
                               origin: Vec3, direction: Vec3, maxDistance: real)
  {
    && 0 <= k < |s|
    && Eligible(centre(s[k]), radius(s[k]), origin, direction, maxDistance)
    && (forall j :: 0 <= j < |s| && Eligible(centre(s[j]), radius(s[j]), origin, direction, maxDistance) ==>
          Projection(centre(s[k]), origin, direction) <= Projection(centre(s[j]), origin, direction))
    && (forall j :: 0 <= j < k && Eligible(centre(s[j]), radius(s[j]), origin, direction, maxDistance) ==>
          Projection(centre(s[k]), origin, direction) < Projection(centre(s[j]), origin, direction))
  }

  ghost predicate NoneEligible<T>(s: seq<T>, centre: T -> Vec3, radius: T -> real,
                                  origin: Vec3, direction: Vec3, maxDistance: real)
  {
    forall j :: 0 <= j < |s| ==> !Eligible(centre(s[j]), radius(s[j]), origin, direction, maxDistance)
  }

  /** The selection is a function of the targets: at most one index satisfies `NearestAt`. */
  lemma NearestUnique<T>(s: seq<T>, k1: int, k2: int, centre: T -> Vec3, radius: T -> real,
                         origin: Vec3, direction: Vec3, maxDistance: real)
    requires NearestAt(s, k1, centre, radius, origin, direction, maxDistance)
    requires NearestAt(s, k2, centre, radius, origin, direction, maxDistance)
    ensures k1 == k2
  {
  }

  /** Scanning one more target: the selection so far stands unless the new target is eligible and strictly nearer. */
  lemma NearestExtend<T>(s: seq<T>, x: T, k: int, centre: T -> Vec3, radius: T -> real,
                         origin: Vec3, direction: Vec3, maxDistance: real)
    requires NearestAt(s, k, centre, radius, origin, direction, maxDistance)
    ensures !Eligible(centre(x), radius(x), origin, direction, maxDistance)
            || Projection(centre(s[k]), origin, direction) <= Projection(centre(x), origin, direction)
            ==> NearestAt(s + [x], k, centre, radius, origin, direction, maxDistance)
    ensures Eligible(centre(x), radius(x), origin, direction, maxDistance)
            && Projection(centre(x), origin, direction) < Projection(centre(s[k]), origin, direction)
            ==> NearestAt(s + [x], |s|, centre, radius, origin, direction, maxDistance)
  {
    var t := s + [x];
    assert forall j :: 0 <= j < |s| ==> t[j] == s[j];
    assert t[|s|] == x;
  }

  /** Scanning one more target when none so far was eligible. */
  lemma NoneExtend<T>(s: seq<T>, x: T, centre: T -> Vec3, radius: T -> real,
                      origin: Vec3, direction: Vec3, maxDistance: real)
    requires NoneEligible(s, centre, radius, origin, direction, maxDistance)
    ensures !Eligible(centre(x), radius(x), origin, direction, maxDistance)
            ==> NoneEligible(s + [x], centre, radius, origin, direction, maxDistance)
    ensures Eligible(centre(x), radius(x), origin, direction, maxDistance)
            ==> NearestAt(s + [x], |s|, centre, radius, origin, direction, maxDistance)
  {
    var t := s + [x];
    assert forall j :: 0 <= j < |s| ==> t[j] == s[j];
    assert t[|s|] == x;
  }

  /** Some target is nearest as soon as one is eligible. */
  lemma {:induction false} NearestExists<T>(s: seq<T>, centre: T -> Vec3, radius: T -> real,
                                           origin: Vec3, direction: Vec3, maxDistance: real)
    ensures NoneEligible(s, centre, radius, origin, direction, maxDistance)
            || exists k :: NearestAt(s, k, centre, radius, origin, direction, maxDistance)
    decreases |s|
  {
    if s != [] {
      var init, last := s[..|s| - 1], s[|s| - 1];
      assert s == init + [last];
      NearestExists(init, centre, radius, origin, direction, maxDistance);
      if NoneEligible(init, centre, radius, origin, direction, maxDistance) {
        NoneExtend(init, last, centre, radius, origin, direction, maxDistance);
      } else {
        var k :| NearestAt(init, k, centre, radius, origin, direction, maxDistance);
        NearestExtend(init, last, k, centre, radius, origin, direction, maxDistance);
      }
    }
  }

  /** The index the scan picks, as a function of the targets: `None` exactly when none is eligible. */
  ghost function Nearest<T>(s: seq<T>, centre: T -> Vec3, radius: T -> real,
                            origin: Vec3, direction: Vec3, maxDistance: real): (k: Option<int>)
    ensures k.None? <==> NoneEligible(s, centre, radius, origin, direction, maxDistance)
    ensures k.Some? ==> NearestAt(s, k.value, centre, radius, origin, direction, maxDistance)
  {
    if NoneEligible(s, centre, radius, origin, direction, maxDistance) then None
    else
      NearestExists(s, centre, radius, origin, direction, maxDistance);
      var k :| NearestAt(s, k, centre, radius, origin, direction, maxDistance);
      Some(k)
  }

  /** Any index meeting `NearestAt` is the one `Nearest` names. */
  lemma NearestIs<T>(s: seq<T>, k: int, centre: T -> Vec3, radius: T -> real,
                     origin: Vec3, direction: Vec3, maxDistance: real)
    requires NearestAt(s, k, centre, radius, origin, direction, maxDistance)
    ensures Nearest(s, centre, radius, origin, direction, maxDistance) == Some(k)
  {
    var n := Nearest(s, centre, radius, origin, direction, maxDistance);
    NearestUnique(s, k, n.value, centre, radius, origin, direction, maxDistance);
  }
}
