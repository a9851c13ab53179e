/**
 * `POST /api/shipments/simulate-movement`: one reconciliation step that moves
 * an in-transit shipment along the straight line from origin to destination
 * according to the time elapsed since it was created.
 */
module Simulation {

  import opened Wrappers
  import opened JsValues
  import opened Store
  import opened Interpolation

  const MsPerHour: real := 3600000.0
  const InTransit: string := "In Transit"
  const Delivered: string := "Delivered"

  /** `shipment.estimated_hours || 1`: a NULL or zero estimate counts as one hour. */
  function EstimatedHours(h: Option<real>): (r: real)
    ensures TruthyNum(h) ==> r == h.value
    ensures !TruthyNum(h) ==> r == 1.0
    ensures r != 0.0
  {
    if TruthyNum(h) then h.value else 1.0
  }

  /** `(now - createdAt) / (1000 * 60 * 60)`. */
  function ElapsedHours(createdAt: real, now: real): real {
    (now - createdAt) / MsPerHour
  }

  /** `Math.min(elapsedHours / estimatedHours, 1.0)`. */
  function Progress(createdAt: real, estimated: Option<real>, now: real): real {
    var p := ElapsedHours(createdAt, now) / EstimatedHours(estimated);
    if p < 1.0 then p else 1.0
  }

  /** The `updates` object written back to the row; `status` only when delivered. */
  datatype Update = Update(currentLat: real, currentLng: real, progress: real, updatedAt: real, status: Option<string>)

  /** The four answers of the route. */
  datatype Outcome =
    | NotFound
      // 200 with the stored status and progress echoed, nothing written
    | NotInTransit(status: Option<string>, progress: Option<real>)
      // 400, nothing written
    | MissingCoordinates
      // 200 `{success, ...}` after writing `update`
    | Moved(update: Update, positionLat: real, positionLng: real, estimatedHours: real,
            elapsedHours: real, reportedStatus: Option<string>)

  predicate HasCoordinates(r: Row) {
    TruthyNum(r.originLat) && TruthyNum(r.originLng) && TruthyNum(r.destLat) && TruthyNum(r.destLng)
  }

  /** The route's answer for the row found under the requested code. */
  function Simulate(found: Option<Row>, now: real): Outcome {
    if found.None? then NotFound
    else
      var r := found.value;
      if r.status != Some(InTransit) then NotInTransit(r.status, r.progress)
      else if !HasCoordinates(r) then MissingCoordinates
      else
        var p := Progress(r.createdAt, r.estimatedHours, now);
        var lat := Lerp(r.originLat.value, r.destLat.value, p);
        var lng := Lerp(r.originLng.value, r.destLng.value, p);
        var u :=
          if p >= 1.0 then Update(r.destLat.value, r.destLng.value, 1.0, now, Some(Delivered))
          else Update(lat, lng, p, now, None);
        Moved(u, lat, lng, EstimatedHours(r.estimatedHours), ElapsedHours(r.createdAt, now),
              if u.status.Some? then u.status else r.status)
  }

  /** The row after `.update(updates)`. */
  function Apply(r: Row, u: Update): (r': Row)
    ensures r'.currentLat == Some(u.currentLat) && r'.currentLng == Some(u.currentLng)
    ensures r'.progress == Some(u.progress) && r'.updatedAt == u.updatedAt
    ensures r'.status == if u.status.Some? then u.status else r.status
    ensures r'.(currentLat := r.currentLat, currentLng := r.currentLng, progress := r.progress,
                updatedAt := r.updatedAt, status := r.status) == r
  {
    var r1 := r.(currentLat := Some(u.currentLat), currentLng := Some(u.currentLng),
                 progress := Some(u.progress), updatedAt := u.updatedAt);
    if u.status.Some? then r1.(status := u.status) else r1
  }

  /** The route itself: look the code up as given (no upper-casing), build
      `updates`, overwrite it when the shipment has arrived, write it back. */
  method SimulateMovement(t: ShipmentTable, code: string, now: real) returns (o: Outcome)
    modifies t
    ensures o == Simulate(old(t.Find(code)), now)
    ensures o.Moved? ==> t.rows == old(t.rows)[code := Apply(old(t.rows)[code], o.update)]
    ensures !o.Moved? ==> t.rows == old(t.rows)
  {
    var found := t.Find(code);
    if found.None? {
      return NotFound;
    }
    var shipment := found.value;
    if shipment.status != Some(InTransit) {
      return NotInTransit(shipment.status, shipment.progress);
    }
    var elapsedHours := ElapsedHours(shipment.createdAt, now);
    var estimatedHours := EstimatedHours(shipment.estimatedHours);
    var newProgress := elapsedHours / estimatedHours;
    if newProgress >= 1.0 {
      newProgress := 1.0;
    }
    if !HasCoordinates(shipment) {
      return MissingCoordinates;
    }
    var newLat := Lerp(shipment.originLat.value, shipment.destLat.value, newProgress);
    var newLng := Lerp(shipment.originLng.value, shipment.destLng.value, newProgress);
    var updates := Update(newLat, newLng, newProgress, now, None);
    if newProgress >= 1.0 {
      updates := updates.(status := Some(Delivered));
      updates := updates.(currentLat := shipment.destLat.value, currentLng := shipment.destLng.value);
      updates := updates.(progress := 1.0);
    }
    t.rows := t.rows[code := Apply(shipment, updates)];
    var reported := if updates.status.Some? then updates.status else shipment.status;
    o := Moved(updates, newLat, newLng, estimatedHours, elapsedHours, reported);
  }

  // ------------------------------------------------------------ properties

  /** Progress never exceeds 1, and below 1 it is exactly elapsed / estimated. */
  lemma ProgressCapped(createdAt: real, estimated: Option<real>, now: real)
    ensures Progress(createdAt, estimated, now) <= 1.0
    ensures var q := ElapsedHours(createdAt, now) / EstimatedHours(estimated);
            Progress(createdAt, estimated, now) == if q < 1.0 then q else 1.0
  {
  }

  /** A missing or zero estimate simulates a one-hour trip. */
  lemma MissingEstimateIsOneHour(createdAt: real, now: real)
    ensures Progress(createdAt, None, now) == Progress(createdAt, Some(1.0), now)
    ensures Progress(createdAt, Some(0.0), now) == Progress(createdAt, Some(1.0), now)
  {
  }

  /** At creation time the progress is 0; once the estimate has elapsed it is 1. */
  lemma ProgressEndpoints(createdAt: real, hours: real, now: real)
    requires hours > 0.0
    ensures Progress(createdAt, Some(hours), createdAt) == 0.0
    ensures now >= createdAt + hours * MsPerHour ==> Progress(createdAt, Some(hours), now) == 1.0
  {
    if now >= createdAt + hours * MsPerHour {
      var e := ElapsedHours(createdAt, now);
      assert e >= hours;
      DivAtLeastOne(e, hours);
    }
  }

  /** Progress is not floored at 0: a clock before `createdAt` yields a negative value. */
  lemma ProgressNotFloored(createdAt: real)
    ensures Progress(createdAt, Some(1.0), createdAt - MsPerHour) == -1.0
  {
  }

  /** For a positive estimate, progress never decreases as time goes on. */
  lemma ProgressMonotone(createdAt: real, hours: real, now1: real, now2: real)
    requires hours > 0.0 && now1 <= now2
    ensures Progress(createdAt, Some(hours), now1) <= Progress(createdAt, Some(hours), now2)
  {
    DivMonotone(now1 - createdAt, now2 - createdAt, MsPerHour);
    DivMonotone(ElapsedHours(createdAt, now1), ElapsedHours(createdAt, now2), hours);
  }

  /** A shipment that is not exactly 'In Transit' is echoed back and not written. */
  lemma NotInTransitEchoes(r: Row, now: real)
    ensures Simulate(Some(r), now).NotInTransit? <==> r.status != Some(InTransit)
    ensures r.status != Some(InTransit) ==> Simulate(Some(r), now) == NotInTransit(r.status, r.progress)
  {
  }

  /** An in-transit shipment with a NULL or zero origin/destination coordinate is refused. */
  lemma MissingCoordinatesRefused(r: Row, now: real)
    ensures Simulate(Some(r), now) == MissingCoordinates <==>
            r.status == Some(InTransit) && !HasCoordinates(r)
  {
  }

  /** On arrival the update marks the shipment delivered, at exactly progress 1
      and exactly the destination. */
  lemma ArrivalSnapsToDestination(r: Row, now: real)
    requires Simulate(Some(r), now).Moved?
    requires Progress(r.createdAt, r.estimatedHours, now) >= 1.0
    ensures var o := Simulate(Some(r), now);
            && o.update.status == Some(Delivered) && o.update.progress == 1.0
            && o.update.currentLat == r.destLat.value && o.update.currentLng == r.destLng.value
            && o.reportedStatus == Some(Delivered)
            && o.positionLat == r.destLat.value && o.positionLng == r.destLng.value
  {
  }

  /** Before arrival no status is written and the stored 'In Transit' is
      reported; every successful step stamps `updated_at` with the clock. */
  lemma EnRouteKeepsStatus(r: Row, now: real)
    requires Simulate(Some(r), now).Moved?
    ensures Simulate(Some(r), now).update.updatedAt == now
    ensures var p := Progress(r.createdAt, r.estimatedHours, now);
            p < 1.0 ==> var o := Simulate(Some(r), now);
              && o.update.status == None && o.reportedStatus == Some(InTransit)
              && o.update.progress == p
              && o.update.currentLat == Lerp(r.originLat.value, r.destLat.value, p)
              && o.update.currentLng == Lerp(r.originLng.value, r.destLng.value, p)
  {
  }

  /** Re-running the step at the same instant on the written row changes
      nothing further: en route it writes the same update again, and once
      delivered the shipment is no longer in transit. */
  lemma StepIdempotent(r: Row, now: real)
    requires Simulate(Some(r), now).Moved?
    ensures var u := Simulate(Some(r), now).update;
            var r' := Apply(r, u);
            && (u.status.None? ==> Simulate(Some(r'), now).update == u
                                   && Apply(r', u) == r')
            && (u.status.Some? ==> Simulate(Some(r'), now) == NotInTransit(Some(Delivered), Some(1.0)))
  {
  }

  /** Ten hours planned from (10, 10) to (20, 20): after five hours the shipment
      is halfway and still in transit; after eleven it is delivered at the destination. */
  lemma ScenarioHalfwayAndArrived(r: Row)
    requires r.status == Some(InTransit) && r.estimatedHours == Some(10.0)
    requires r.originLat == Some(10.0) && r.originLng == Some(10.0)
    requires r.destLat == Some(20.0) && r.destLng == Some(20.0)
    ensures Simulate(Some(r), r.createdAt + 5.0 * MsPerHour)
            == Moved(Update(15.0, 15.0, 0.5, r.createdAt + 5.0 * MsPerHour, None), 15.0, 15.0, 10.0, 5.0, Some(InTransit))
    ensures Simulate(Some(r), r.createdAt + 11.0 * MsPerHour).update
            == Update(20.0, 20.0, 1.0, r.createdAt + 11.0 * MsPerHour, Some(Delivered))
  {
    assert ElapsedHours(r.createdAt, r.createdAt + 5.0 * MsPerHour) == 5.0;
    assert ElapsedHours(r.createdAt, r.createdAt + 11.0 * MsPerHour) == 11.0;
  }
}
