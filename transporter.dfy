/** The transporter dashboard (src/pages/Transporter.tsx): the shipment
    counts per status, the product of a shipment and the progress estimate
    of a shipment. */
module Transporter {
  import opened Wrappers
  import opened Types
  import opened Seqs
  import Directory

  /** `transitEvents.filter(e => e.status === s).length`. */
  function LegCount(ts: seq<TransitEvent>, s: TransitStatus): nat
  {
    Count(ts, (e: TransitEvent) => e.status == s)
  }

  /** The overview card: scheduled, in-transit and delivered shipments. */
  datatype ShipmentCounts = ShipmentCounts(scheduled: nat, inTransit: nat, delivered: nat)

  function Counts(ts: seq<TransitEvent>): (c: ShipmentCounts)
    ensures c.scheduled + c.inTransit + c.delivered == |ts|
    ensures c.scheduled == LegCount(ts, Scheduled) && c.inTransit == LegCount(ts, Moving) &&
            c.delivered == LegCount(ts, Delivered)
  {
    CountsSum(ts);
    ShipmentCounts(LegCount(ts, Scheduled), LegCount(ts, Moving), LegCount(ts, Delivered))
  }

  /** Every leg has exactly one of the three statuses. */
  lemma {:induction false} CountsSum(ts: seq<TransitEvent>)
    ensures LegCount(ts, Scheduled) + LegCount(ts, Moving) + LegCount(ts, Delivered) == |ts|
  {
    if ts != [] {
      CountsSum(ts[1..]);
    }
  }

  /** With the seed data: no scheduled leg, one in transit, three delivered. */
  lemma SeedCounts()
    ensures Counts(Directory.MockTransitEvents) == ShipmentCounts(0, 1, 3)
  {
  }

  /** `getProductForTransit`: the first seeded product with that id. */
  function ProductForTransit(productId: string): (r: Option<Product>)
    ensures r.None? <==> forall i :: 0 <= i < |Directory.MockProducts| ==> Directory.MockProducts[i].id != productId
    ensures r.Some? ==>
      exists i :: 0 <= i < |Directory.MockProducts| && Directory.MockProducts[i] == r.value &&
        r.value.id == productId && forall k :: 0 <= k < i ==> Directory.MockProducts[k].id != productId
  {
    Directory.FindProductFirst(Directory.Mock, productId);
    Directory.FindProduct(Directory.Mock, productId)
  }

  /** `Math.floor(x / y)` for integers, `y != 0`, on the mathematical
      quotient (Dafny's `/` is Euclidean, which is the floor only for a
      positive divisor). */
  function FloorDiv(x: int, y: int): int
    requires y != 0
  {
    if y > 0 then x / y else (-x) / (-y)
  }

  /** `Math.min(Math.max(p, 0), 99)`. */
  function Clamp(p: int): int
  {
    if p < 0 then 0 else if p > 99 then 99 else p
  }

  /** `calculateProgress` at the current time `now`: 100 once delivered, 0
      while scheduled; in transit, the floored percentage of the planned
      duration that has elapsed, clamped to 0..99. A zero planned duration
      divides by zero: it gives 99 after pickup, 0 before it, and NaN (None)
      at the pickup instant itself. */
  function Progress(e: TransitEvent, now: Time): (r: Option<int>)
    ensures e.status == Delivered ==> r == Some(100)
    ensures e.status == Scheduled ==> r == Some(0)
    ensures r.None? <==> e.status == Moving && e.estimatedDeliveryTime == e.pickupTime && now == e.pickupTime
    ensures e.status == Moving && r.Some? ==> 0 <= r.value <= 99
  {
    match e.status
    case Delivered => Some(100)
    case Scheduled => Some(0)
    case Moving =>
      var total := e.estimatedDeliveryTime - e.pickupTime;
      var elapsed := now - e.pickupTime;
      if total != 0 then Some(Clamp(FloorDiv(elapsed * 100, total)))
      else if elapsed > 0 then Some(99)
      else if elapsed < 0 then Some(0)
      else None
  }

  /** Euclidean division by a positive divisor is monotone. */
  lemma DivMonotone(x: int, y: int, d: int)
    requires d > 0 && x <= y
    ensures x / d <= y / d
  {
    var qx, qy := x / d, y / d;
    if qx > qy {
      MulMonotone(qy + 1, qx, d);
    }
  }

  lemma MulMonotone(a: int, b: int, d: int)
    requires a <= b && d > 0
    ensures a * d <= b * d
  {
  }

  /** Proof step: the in-transit branch unfolded for a positive planned
      duration. */
  lemma UnfoldInTransit(e: TransitEvent, now: Time)
    requires e.status == Moving && e.pickupTime < e.estimatedDeliveryTime
    ensures Progress(e, now) ==
      Some(Clamp(((now - e.pickupTime) * 100) / (e.estimatedDeliveryTime - e.pickupTime)))
  {
  }

  /** Between pickup and the estimated delivery the estimate is the floored
      percentage of the planned duration elapsed: the largest `r` with
      `r * total <= elapsed * 100`. */
  lemma ProgressIsFloor(e: TransitEvent, now: Time)
    requires e.status == Moving && e.pickupTime <= now < e.estimatedDeliveryTime
    ensures var r, t := Progress(e, now).value, e.estimatedDeliveryTime - e.pickupTime;
      r * t <= (now - e.pickupTime) * 100 < (r + 1) * t
  {
    var t, x := e.estimatedDeliveryTime - e.pickupTime, (now - e.pickupTime) * 100;
    var q := x / t;
    UnfoldInTransit(e, now);
    assert x == q * t + x % t && 0 <= x % t < t;
    DivMonotone(0, x, t);
    if q > 99 {
      MulMonotone(100, q, t);
      MulMonotone(now - e.pickupTime, t, 100);
      assert false;
    }
    assert Progress(e, now).value == q;
  }

  /** For a leg in transit with a positive planned duration: before pickup
      the estimate is 0, at or after the estimated delivery it is 99. */
  lemma ProgressEnds(e: TransitEvent, now: Time)
    requires e.status == Moving && e.pickupTime < e.estimatedDeliveryTime
    ensures now <= e.pickupTime ==> Progress(e, now) == Some(0)
    ensures now >= e.estimatedDeliveryTime ==> Progress(e, now) == Some(99)
  {
    var total := e.estimatedDeliveryTime - e.pickupTime;
    var scaled := (now - e.pickupTime) * 100;
    UnfoldInTransit(e, now);
    if now <= e.pickupTime {
      DivMonotone(scaled, 0, total);
    }
    if now >= e.estimatedDeliveryTime {
      MulMonotone(total, now - e.pickupTime, 100);
      DivMonotone(100 * total, scaled, total);
    }
  }

  /** For a leg in transit with a positive planned duration the estimate
      never decreases as time passes. */
  lemma ProgressMonotone(e: TransitEvent, now: Time, later: Time)
    requires e.status == Moving && e.pickupTime < e.estimatedDeliveryTime && now <= later
    ensures Progress(e, now).value <= Progress(e, later).value
  {
    var total := e.estimatedDeliveryTime - e.pickupTime;
    UnfoldInTransit(e, now);
    UnfoldInTransit(e, later);
    MulMonotone(now - e.pickupTime, later - e.pickupTime, 100);
    DivMonotone((now - e.pickupTime) * 100, (later - e.pickupTime) * 100, total);
  }

  /** When the estimated delivery lies before the pickup, the estimate falls
      as time passes: 100 ms before pickup it is 99, at pickup it is 0. */
  lemma ProgressFallsForInvertedLeg(e: TransitEvent)
    requires e.status == Moving && e.estimatedDeliveryTime == e.pickupTime - 100
    ensures Progress(e, e.pickupTime - 100) == Some(99)
    ensures Progress(e, e.pickupTime) == Some(0)
  {
  }
}
