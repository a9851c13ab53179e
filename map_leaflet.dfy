/**
 * The tracking map's marker logic: parsing the coordinate props, the
 * ease-out animation between two fixes, and the effect that, on each new fix
 * or status, decides whether the ship moves, comes to a stop or stays
 * stopped, and extends the trail of waypoints drawn behind it.
 */
module MapLeaflet {

  import opened Wrappers
  import opened JsValues
  import opened Interpolation

  /** `safeParseFloat`: `parseFloat`, with NaN turned into `null` (`None`). */
  function SafeParseFloat(v: Value): (r: Option<real>)
    ensures v.Num? ==> r == Some(v.n)
    ensures v.Str? ==> r == JsText.ParseFloatString(v.s)
    ensures v.Arr? && PropertyKey(v).Some? ==> r == JsText.ParseFloatString(PropertyKey(v).value)
    ensures !v.Num? && !v.Str? && !v.Arr? ==> r == None
  {
    ParseFloat(v)
  }

  /** `easeOut`: quadratic deceleration. */
  function EaseOut(t: real): real {
    1.0 - (1.0 - t) * (1.0 - t)
  }

  lemma EaseOutEndpoints()
    ensures EaseOut(0.0) == 0.0 && EaseOut(1.0) == 1.0
  {
  }

  lemma EaseOutBounded(t: real)
    requires 0.0 <= t <= 1.0
    ensures 0.0 <= EaseOut(t) <= 1.0
  {
    ScaleBetween(1.0 - t, 1.0 - t);
  }

  lemma EaseOutMonotone(s: real, t: real)
    requires 0.0 <= s <= t <= 1.0
    ensures EaseOut(s) <= EaseOut(t)
  {
    var a := 1.0 - t;
    var b := 1.0 - s;
    SignOfProduct(b - a, b + a);
    assert b * b - a * a == (b - a) * (b + a);
  }

  /** The eased curve is never behind the straight one on [0, 1]. */
  lemma EaseOutAhead(t: real)
    requires 0.0 <= t <= 1.0
    ensures EaseOut(t) >= t
  {
    SignOfProduct(t, 1.0 - t);
    assert EaseOut(t) - t == t * (1.0 - t);
  }

  datatype Point = Point(lat: real, lng: real)

  /** One animation frame: the linear time fraction, and where the marker is drawn. */
  datatype Frame = Frame(raw: real, at: Point, another: bool)

  /** The frame drawn `elapsed` ms into an animation of `duration` ms. */
  function AnimationFrame(from: Point, to: Point, elapsed: real, duration: real): (f: Frame)
    requires duration > 0.0
    ensures f.raw <= 1.0
    ensures elapsed >= duration ==> f.raw == 1.0
    ensures f.another <==> f.raw < 1.0
    ensures f.at == Point(Lerp(from.lat, to.lat, EaseOut(f.raw)), Lerp(from.lng, to.lng, EaseOut(f.raw)))
  {
    var share := elapsed / duration;
    var raw := if share < 1.0 then share else 1.0;
    assert elapsed >= duration ==> share >= 1.0 by {
      if elapsed >= duration { DivAtLeastOne(elapsed, duration); }
    }
    var p := EaseOut(raw);
    Frame(raw, Point(Lerp(from.lat, to.lat, p), Lerp(from.lng, to.lng, p)), raw < 1.0)
  }

  /** Once the duration has passed the marker sits exactly on the target and
      no further frame is requested. */
  lemma AnimationEndsOnTarget(from: Point, to: Point, elapsed: real, duration: real)
    requires duration > 0.0 && elapsed >= duration
    ensures AnimationFrame(from, to, elapsed, duration).at == to
    ensures !AnimationFrame(from, to, elapsed, duration).another
  {
    LerpEndpoints(from.lat, to.lat);
    LerpEndpoints(from.lng, to.lng);
  }

  /** At any time between start and end the marker is inside the box spanned
      by the two fixes. */
  lemma AnimationStaysBetween(from: Point, to: Point, elapsed: real, duration: real)
    requires duration > 0.0 && elapsed >= 0.0
    ensures var at := AnimationFrame(from, to, elapsed, duration).at;
      && (from.lat <= to.lat ==> from.lat <= at.lat <= to.lat)
      && (to.lat <= from.lat ==> to.lat <= at.lat <= from.lat)
      && (from.lng <= to.lng ==> from.lng <= at.lng <= to.lng)
      && (to.lng <= from.lng ==> to.lng <= at.lng <= from.lng)
  {
    var f := AnimationFrame(from, to, elapsed, duration);
    assert f.raw >= 0.0 by {
      if elapsed / duration < 1.0 {
        SignOfProduct(elapsed / duration, duration);
        assert elapsed / duration * duration == elapsed;
      }
    }
    EaseOutBounded(f.raw);
    LerpBetween(from.lat, to.lat, EaseOut(f.raw));
    LerpBetween(from.lng, to.lng, EaseOut(f.raw));
  }

  // ------------------------------------------------------------ the trail

  const Epsilon: real := 0.000001

  function Abs(x: real): real {
    if x < 0.0 then -x else x
  }

  /** Whether `p` differs from the last waypoint by more than 1e-6 on an axis
      (always, when there is none). */
  predicate FarFromLast(trail: seq<Point>, p: Point) {
    trail == [] || Abs(trail[|trail| - 1].lat - p.lat) > Epsilon || Abs(trail[|trail| - 1].lng - p.lng) > Epsilon
  }

  /** The trail after offering it the fix `p` in the moving and stopped branches. */
  function Offer(trail: seq<Point>, p: Point): (r: seq<Point>)
    ensures r == trail || r == trail + [p]
    ensures r == trail + [p] <==> FarFromLast(trail, p)
    ensures |r| >= 1 && !FarFromLast(r, p)
  {
    if FarFromLast(trail, p) then trail + [p] else trail
  }

  /** Offering the same fix again adds nothing. */
  lemma OfferIdempotent(trail: seq<Point>, p: Point)
    ensures Offer(Offer(trail, p), p) == Offer(trail, p)
  {
  }

  /** Successive offers never put two points within 1e-6 of each other next
      to each other. */
  predicate Spread(trail: seq<Point>) {
    forall i :: 0 < i < |trail| ==> FarFromLast(trail[..i], trail[i])
  }

  lemma OfferKeepsSpread(trail: seq<Point>, p: Point)
    requires Spread(trail)
    ensures Spread(Offer(trail, p))
  {
    var r := Offer(trail, p);
    forall i | 0 < i < |r| ensures FarFromLast(r[..i], r[i]) {
      if i < |trail| {
        assert r[..i] == trail[..i];
      } else {
        assert r[..i] == trail;
      }
    }
  }

  /** A point of a polyline, whose coordinates may be null (the origin's). */
  datatype LatLng = LatLng(lat: Option<real>, lng: Option<real>)

  function AsLatLng(p: Point): LatLng {
    LatLng(Some(p.lat), Some(p.lng))
  }

  /** The drawn route: the origin, then every waypoint in order. */
  function RouteOf(origin: LatLng, trail: seq<Point>): (r: seq<LatLng>)
    ensures |r| == |trail| + 1 && r[0] == origin
    ensures forall i :: 0 <= i < |trail| ==> r[i + 1] == AsLatLng(trail[i])
  {
    [origin] + seq(|trail|, i requires 0 <= i < |trail| => AsLatLng(trail[i]))
  }

  /** The route while the marker is animated: the waypoints, then the moving point. */
  function AnimatedRoute(origin: LatLng, trail: seq<Point>, at: Point): (r: seq<LatLng>)
    ensures r == RouteOf(origin, trail + [at])
  {
    var r := RouteOf(origin, trail) + [AsLatLng(at)];
    assert r == RouteOf(origin, trail + [at]);
    r
  }

  /** The red dashed remaining leg, from the fix to the destination. */
  datatype Leg = Leg(from: Point, to: Point)

  /** A marker animation the effect started: its target and length in ms. */
  datatype Animation = Animation(to: Point, duration: real)

  /** The freeze scheduled 1250 ms after coming to a stop, with the values it captured. */
  datatype Freeze = Freeze(at: Point, startLat: Option<real>, startLng: Option<real>,
                           destLat: Option<real>, destLng: Option<real>)

  class MarkerTrail {
    var trail: seq<Point>
    var prevStatus: Value
    var route: seq<LatLng>
    var dashed: Option<Leg>
    var animation: Option<Animation>
    var marker: Option<Point>
    /** The scheduled freezes, oldest first; each runs 1250 ms after it was scheduled. */
    var pendingFreezes: seq<Freeze>

    constructor (status: Value)
      ensures trail == [] && prevStatus == status && route == [] && dashed == None
      ensures animation == None && marker == None && pendingFreezes == []
    {
      trail := [];
      prevStatus := status;
      route := [];
      dashed := None;
      animation := None;
      marker := None;
      pendingFreezes := [];
    }

    /** The dashed leg when the destination is known (both coordinates truthy). */
    static function LegTo(at: Point, destLat: Option<real>, destLng: Option<real>): (r: Option<Leg>)
      ensures TruthyNum(destLat) && TruthyNum(destLng) ==> r == Some(Leg(at, Point(destLat.value, destLng.value)))
      ensures !(TruthyNum(destLat) && TruthyNum(destLng)) ==> r == None
    {
      if TruthyNum(destLat) && TruthyNum(destLng) then Some(Leg(at, Point(destLat.value, destLng.value))) else None
    }

    /** The marker-update effect for the parsed props. `ready` is whether the
        map and its marker exist. */
    method OnUpdate(ready: bool, status: Value, currentLat: Option<real>, currentLng: Option<real>,
                    startLat: Option<real>, startLng: Option<real>,
                    destLat: Option<real>, destLng: Option<real>)
      modifies this
      ensures !ready || currentLat.None? || currentLng.None? ==>
        && trail == old(trail) && prevStatus == old(prevStatus) && route == old(route) && dashed == old(dashed)
        && animation == old(animation) && marker == old(marker) && pendingFreezes == old(pendingFreezes)
      ensures ready && currentLat.Some? && currentLng.Some? ==>
        var to := Point(currentLat.value, currentLng.value);
        var moving := status == Str("In Transit");
        && prevStatus == status
        && (old(prevStatus) == Str("In Transit") && !moving ==>
              // just stopped: the fix is appended unconditionally, a short animation
              // runs, and the freeze is scheduled
              && trail == old(trail) + [to]
              && animation == Some(Animation(to, 1200.0))
              && pendingFreezes == old(pendingFreezes) + [Freeze(to, startLat, startLng, destLat, destLng)]
              && route == old(route) && dashed == old(dashed) && marker == old(marker))
        && (old(prevStatus) != Str("In Transit") && !moving ==>
              // stopped: no animation, the marker sits on the fix, the dashed leg shows
              && trail == Offer(old(trail), to)
              && animation == None && marker == Some(to)
              && route == RouteOf(LatLng(startLat, startLng), trail)
              && dashed == LegTo(to, destLat, destLng)
              && pendingFreezes == old(pendingFreezes))
        && (moving ==>
              // moving: the dashed leg goes, the marker animates to the fix
              && trail == Offer(old(trail), to)
              && animation == Some(Animation(to, 1800.0))
              && route == RouteOf(LatLng(startLat, startLng), trail)
              && dashed == None
              && marker == old(marker) && pendingFreezes == old(pendingFreezes))
    {
      if !ready || currentLat.None? || currentLng.None? {
        return;
      }
      var to := Point(currentLat.value, currentLng.value);
      var isMoving := status == Str("In Transit");
      var justStopped := prevStatus == Str("In Transit") && !isMoving;
      if justStopped {
        trail := trail + [to];
        animation := Some(Animation(to, 1200.0));
        pendingFreezes := pendingFreezes + [Freeze(to, startLat, startLng, destLat, destLng)];
      } else if !isMoving {
        animation := None;
        trail := Offer(trail, to);
        marker := Some(to);
        route := RouteOf(LatLng(startLat, startLng), trail);
        dashed := LegTo(to, destLat, destLng);
      } else {
        dashed := None;
        trail := Offer(trail, to);
        animation := Some(Animation(to, 1800.0));
        route := RouteOf(LatLng(startLat, startLng), trail);
      }
      prevStatus := status;
    }

    /** The oldest scheduled freeze runs: the animation stops, the marker is placed on
        the captured fix, the route is redrawn from the captured origin without
        the moving point and the dashed leg to the captured destination is shown. */
    method RunFreeze()
      requires pendingFreezes != []
      modifies this
      ensures var f := old(pendingFreezes)[0];
        && animation == None && marker == Some(f.at)
        && route == RouteOf(LatLng(f.startLat, f.startLng), trail)
        && dashed == LegTo(f.at, f.destLat, f.destLng)
        && pendingFreezes == old(pendingFreezes)[1..]
      ensures trail == old(trail) && prevStatus == old(prevStatus)
    {
      var f := pendingFreezes[0];
      animation := None;
      marker := Some(f.at);
      route := RouteOf(LatLng(f.startLat, f.startLng), trail);
      dashed := LegTo(f.at, f.destLat, f.destLng);
      pendingFreezes := pendingFreezes[1..];
    }
  }

  /** A waypoint trail only grows: every branch keeps the old points as a prefix. */
  lemma OfferExtends(trail: seq<Point>, p: Point)
    ensures trail <= Offer(trail, p)
  {
  }
}
