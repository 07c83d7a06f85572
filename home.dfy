/** The dashboard (src/pages/Home.tsx): the status tally of the seeded
    products, the five most recent transit and storage activities, and the
    dashboard link of each role. */
module Home {
  import opened Wrappers
  import opened Types
  import opened Seqs
  import opened StableSort
  import opened Tally
  import Directory

  /** `productStatus`. */
  datatype StatusTally = StatusTally(atFarm: nat, inTransit: nat, inWarehouse: nat, atRetailer: nat, sold: nat)

  /** The five counts; every product is counted under exactly one of them. */
  function ProductStatusTally(ps: seq<Product>): (t: StatusTally)
    ensures t.atFarm + t.inTransit + t.inWarehouse + t.atRetailer + t.sold == |ps|
    ensures t.atFarm == StatusCount(ps, AtFarm) && t.inTransit == StatusCount(ps, InTransit) &&
            t.inWarehouse == StatusCount(ps, InWarehouse) && t.atRetailer == StatusCount(ps, AtRetailer) &&
            t.sold == StatusCount(ps, Sold)
  {
    StatusCountsSum(ps);
    StatusTally(StatusCount(ps, AtFarm), StatusCount(ps, InTransit), StatusCount(ps, InWarehouse),
      StatusCount(ps, AtRetailer), StatusCount(ps, Sold))
  }

  /** The activity's `type`. */
  datatype ActivityKind = TransitActivity | StorageActivity

  /** A `recentActivity` row (the icon is presentation and is left out). */
  datatype Activity = Activity(id: string, kind: ActivityKind, title: string, time: Time)

  /** The time a transit leg is listed under: its actual delivery time once
      delivered, its pickup time otherwise. */
  function TransitTime(e: TransitEvent): Time
    requires WellFormedTransit(e)
  {
    if e.status == Delivered then e.actualDeliveryTime.value else e.pickupTime
  }

  function FromTransit(e: TransitEvent): Activity
    requires WellFormedTransit(e)
  {
    Activity(e.id, TransitActivity,
      "Product " + e.productId + (if e.status == Delivered then " delivered to " else " in transit to ") +
      e.deliveryLocation,
      TransitTime(e))
  }

  function FromStorage(e: StorageEvent): Activity
  {
    Activity(e.id, StorageActivity, "Product " + e.productId + " received at " + e.warehouseName, e.receivedTime)
  }

  predicate AllWellFormed(ts: seq<TransitEvent>)
  {
    forall i :: 0 <= i < |ts| ==> WellFormedTransit(ts[i])
  }

  /** The transit activities followed by the storage activities. */
  function Candidates(ts: seq<TransitEvent>, ss: seq<StorageEvent>): (c: seq<Activity>)
    requires AllWellFormed(ts)
    ensures |c| == |ts| + |ss|
    ensures forall i :: 0 <= i < |ts| ==> c[i] == FromTransit(ts[i])
    ensures forall i :: 0 <= i < |ss| ==> c[|ts| + i] == FromStorage(ss[i])
  {
    seq(|ts|, i requires 0 <= i < |ts| => FromTransit(ts[i])) +
    seq(|ss|, i requires 0 <= i < |ss| => FromStorage(ss[i]))
  }

  /** The descending comparator `b.time - a.time` is the ascending one on
      the negated time. */
  function NewestFirst(a: Activity): int
  {
    -a.time
  }

  /** The candidates, stably sorted newest first. */
  function ByRecency(ts: seq<TransitEvent>, ss: seq<StorageEvent>): seq<Activity>
    requires AllWellFormed(ts)
  {
    SortBy(Candidates(ts, ss), NewestFirst)
  }

  /** `recentActivity`: the first five of the sorted candidates. */
  function RecentActivity(ts: seq<TransitEvent>, ss: seq<StorageEvent>): seq<Activity>
    requires AllWellFormed(ts)
  {
    Take(ByRecency(ts, ss), 5)
  }

  /** Every row is made from a transit leg (with the delivered / pickup time
      rule) or from a storage event (with its received time), and there are
      as many rows as candidates, up to five. */
  lemma RecentActivityRows(ts: seq<TransitEvent>, ss: seq<StorageEvent>)
    requires AllWellFormed(ts)
    ensures var r := RecentActivity(ts, ss);
      |r| == (if |ts| + |ss| < 5 then |ts| + |ss| else 5) &&
      forall a :: a in r ==>
        (exists e :: e in ts && WellFormedTransit(e) && a == FromTransit(e) && a.kind == TransitActivity &&
           a.time == (if e.status == Delivered then e.actualDeliveryTime.value else e.pickupTime)) ||
        (exists e :: e in ss && a == FromStorage(e) && a.kind == StorageActivity && a.time == e.receivedTime)
  {
    var c := Candidates(ts, ss);
    SortByPermutation(c, NewestFirst);
    var r := RecentActivity(ts, ss);
    forall a | a in r
      ensures (exists e :: e in ts && WellFormedTransit(e) && a == FromTransit(e) && a.kind == TransitActivity &&
                 a.time == (if e.status == Delivered then e.actualDeliveryTime.value else e.pickupTime)) ||
              (exists e :: e in ss && a == FromStorage(e) && a.kind == StorageActivity && a.time == e.receivedTime)
    {
      var k :| 0 <= k < |r| && r[k] == a;
      assert a in multiset(ByRecency(ts, ss));
      var i :| 0 <= i < |c| && c[i] == a;
      if i < |ts| {
        assert ts[i] in ts && a == FromTransit(ts[i]);
      } else {
        assert ss[i - |ts|] in ss && a == FromStorage(ss[i - |ts|]);
      }
    }
  }

  /** The rows are newest first. */
  lemma RecentActivityNewestFirst(ts: seq<TransitEvent>, ss: seq<StorageEvent>)
    requires AllWellFormed(ts)
    ensures var r := RecentActivity(ts, ss);
      forall i, j :: 0 <= i < j < |r| ==> r[i].time >= r[j].time
  {
    SortBySorted(Candidates(ts, ss), NewestFirst);
  }

  /** Every candidate that did not make the list is no newer than the last
      row shown. */
  lemma RecentActivityDropped(ts: seq<TransitEvent>, ss: seq<StorageEvent>)
    requires AllWellFormed(ts)
    ensures var r := RecentActivity(ts, ss);
      forall a: Activity :: a in multiset(Candidates(ts, ss)) - multiset(r) ==> r != [] && a.time <= r[|r| - 1].time
  {
    var c := Candidates(ts, ss);
    var s := ByRecency(ts, ss);
    SortByPermutation(c, NewestFirst);
    SortBySorted(c, NewestFirst);
    var r := RecentActivity(ts, ss);
    var rest := s[|r|..];
    assert s == r + rest;
    assert multiset(s) == multiset(r) + multiset(rest);
    forall a: Activity | a in multiset(c) - multiset(r) ensures r != [] && a.time <= r[|r| - 1].time {
      assert a in multiset(rest);
      var k :| 0 <= k < |rest| && rest[k] == a;
      assert s[|r| + k] == a;
      assert |r| == 5;
      assert NewestFirst(s[4]) <= NewestFirst(s[|r| + k]);
    }
  }

  /** Rows with the same time keep candidate order (transit legs before
      storage events, list order within each): the tied rows shown are the
      first tied candidates. */
  lemma RecentActivityStable(ts: seq<TransitEvent>, ss: seq<StorageEvent>, t: Time)
    requires AllWellFormed(ts)
    ensures TiesOf(RecentActivity(ts, ss), NewestFirst, -t) <= TiesOf(Candidates(ts, ss), NewestFirst, -t)
  {
    SortByStable(Candidates(ts, ss), NewestFirst, -t);
    TiesOfTake(ByRecency(ts, ss), NewestFirst, -t, 5);
  }

  /** Six candidates whose times are, newest first, a4 > a3 = b2 > a2 > a1 = b1
      (transit activities a1..a4 and storage activities b1, b2) come out as
      a4, a3, b2, a2, a1: each tie is broken by candidate order and b1 is
      dropped. The seed data has exactly this shape (SeedCandidates). */
  lemma SixCandidatesOrder(a1: Activity, a2: Activity, a3: Activity, a4: Activity, b1: Activity, b2: Activity)
    requires a4.time > a3.time == b2.time > a2.time > a1.time == b1.time
    ensures Take(SortBy([a1, a2, a3, a4, b1, b2], NewestFirst), 5) == [a4, a3, b2, a2, a1]
  {
    assert [a1, a2, a3, a4, b1, b2][1..] == [a2, a3, a4, b1, b2];
    assert [a2, a3, a4, b1, b2][1..] == [a3, a4, b1, b2];
    assert [a3, a4, b1, b2][1..] == [a4, b1, b2];
    assert [a4, b1, b2][1..] == [b1, b2];
    assert [b1, b2][1..] == [b2];
    assert SortBy([b2], NewestFirst) == [b2];
    assert SortBy([b1, b2], NewestFirst) == Insert(b1, [b2], NewestFirst) == [b2, b1];
    assert SortBy([a4, b1, b2], NewestFirst) == Insert(a4, [b2, b1], NewestFirst) == [a4, b2, b1];
    assert Insert(a3, [b2, b1], NewestFirst) == [a3, b2, b1];
    assert SortBy([a3, a4, b1, b2], NewestFirst) == Insert(a3, [a4, b2, b1], NewestFirst) == [a4, a3, b2, b1];
    assert Insert(a2, [b1], NewestFirst) == [a2, b1];
    assert Insert(a2, [b2, b1], NewestFirst) == [b2, a2, b1];
    assert Insert(a2, [a3, b2, b1], NewestFirst) == [a3, b2, a2, b1];
    assert SortBy([a2, a3, a4, b1, b2], NewestFirst) == Insert(a2, [a4, a3, b2, b1], NewestFirst) == [a4, a3, b2, a2, b1];
    assert Insert(a1, [b1], NewestFirst) == [a1, b1];
    assert Insert(a1, [a2, b1], NewestFirst) == [a2, a1, b1];
    assert Insert(a1, [b2, a2, b1], NewestFirst) == [b2, a2, a1, b1];
    assert Insert(a1, [a3, b2, a2, b1], NewestFirst) == [a3, b2, a2, a1, b1];
    assert SortBy([a1, a2, a3, a4, b1, b2], NewestFirst) == Insert(a1, [a4, a3, b2, a2, b1], NewestFirst) == [a4, a3, b2, a2, a1, b1];
  }

  /** The seed candidates are transit-001..004 then storage-001, storage-002,
      with the time pattern of SixCandidatesOrder, so the dashboard shows
      transit-004, transit-003, storage-002, transit-002, transit-001 and
      drops storage-001. */
  lemma SeedCandidates()
    ensures AllWellFormed(Directory.MockTransitEvents)
    ensures var c := Candidates(Directory.MockTransitEvents, Directory.MockStorageEvents);
      |c| == 6 &&
      c[0].id == "transit-001" && c[1].id == "transit-002" && c[2].id == "transit-003" &&
      c[3].id == "transit-004" && c[4].id == "storage-001" && c[5].id == "storage-002" &&
      c[3].time > c[2].time == c[5].time > c[1].time > c[0].time == c[4].time
  {
  }

  lemma SeedRecentActivity()
    ensures AllWellFormed(Directory.MockTransitEvents)
    ensures var r := RecentActivity(Directory.MockTransitEvents, Directory.MockStorageEvents);
      |r| == 5 && r[0].id == "transit-004" && r[1].id == "transit-003" && r[2].id == "storage-002" &&
      r[3].id == "transit-002" && r[4].id == "transit-001"
  {
    SeedCandidates();
    var c := Candidates(Directory.MockTransitEvents, Directory.MockStorageEvents);
    SixCandidatesOrder(c[0], c[1], c[2], c[3], c[4], c[5]);
    assert c == [c[0], c[1], c[2], c[3], c[4], c[5]];
  }

  /** With the seed products: one at the retailer, one in the warehouse,
      one in transit. */
  lemma SeedTally()
    ensures ProductStatusTally(Directory.MockProducts) == StatusTally(0, 1, 1, 1, 0)
  {
  }

  /** `getRolePath` of the dashboard: the three producer-side roles go to their
      own page (`'/' + role`), consumers to `/consumer`, and retailers, like
      any other role, to `/profile`. */
  function RolePath(r: Role): (path: string)
    ensures r in {Farmer, Transporter, Warehouse} ==> path == "/" + RoleName(r)
    ensures r == Consumer <==> path == "/consumer"
    ensures r in {Retailer, Admin} <==> path == "/profile"
  {
    match r
    case Farmer => "/farmer"
    case Transporter => "/transporter"
    case Warehouse => "/warehouse"
    case Retailer => "/profile"
    case Consumer => "/consumer"
    case _ => "/profile"
  }
}
