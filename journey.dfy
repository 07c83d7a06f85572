/** The journey timeline of one product (src/components/common/ProductJourney.tsx):
    every event is tagged with its kind and a sort timestamp, the three
    lists are concatenated and stably sorted ascending, and the result is
    framed by a harvest milestone and a current-status milestone. */
module Journey {
  import opened Wrappers
  import opened Types
  import opened Seqs
  import opened StableSort
  import Text
  import Directory

  /** The event an entry was made from, unchanged; the constructor is the
      entry's `type` tag ('transit' | 'storage' | 'retail'). */
  datatype EventBody =
    | TransitBody(transit: TransitEvent)
    | StorageBody(storage: StorageEvent)
    | RetailBody(retail: RetailEvent)

  /** An `allEvents` entry: the copied event, its tag and its `timestamp`. */
  datatype TimelineEvent = TimelineEvent(body: EventBody, timestamp: Time)

  /** A rendered timeline row. */
  datatype TimelineEntry =
    | Harvested(date: Time, origin: string)
    | Event(event: TimelineEvent)
    | CurrentStatus(status: ProductStatus, location: Option<string>)

  predicate WellFormedBody(b: EventBody)
  {
    b.TransitBody? ==> WellFormedTransit(b.transit)
  }

  predicate WellFormedJourney(j: ProductJourney)
  {
    forall e :: e in j.transitEvents ==> WellFormedTransit(e)
  }

  /** The per-kind sort key. */
  function SortKey(b: EventBody): Time
    requires WellFormedBody(b)
  {
    match b
    case TransitBody(t) => if t.status == Delivered then t.actualDeliveryTime.value else t.pickupTime
    case StorageBody(s) => s.receivedTime
    case RetailBody(r) => r.receivedTime
  }

  function Timestamp(e: TimelineEvent): Time
  {
    e.timestamp
  }

  /** The three event lists, each event wrapped with the tag of its list,
      in concatenation order. */
  function Bodies(j: ProductJourney): (r: seq<EventBody>)
    ensures |r| == |j.transitEvents| + |j.storageEvents| + |j.retailEvents|
  {
    seq(|j.transitEvents|, i requires 0 <= i < |j.transitEvents| => TransitBody(j.transitEvents[i])) +
    seq(|j.storageEvents|, i requires 0 <= i < |j.storageEvents| => StorageBody(j.storageEvents[i])) +
    seq(|j.retailEvents|, i requires 0 <= i < |j.retailEvents| => RetailBody(j.retailEvents[i]))
  }

  /** The tagged events before sorting. */
  function Tagged(j: ProductJourney): (r: seq<TimelineEvent>)
    requires WellFormedJourney(j)
    ensures |r| == |Bodies(j)|
    ensures forall i :: 0 <= i < |r| ==> r[i].body == Bodies(j)[i]
  {
    var b := Bodies(j);
    seq(|b|, i requires 0 <= i < |b| => TimelineEvent(b[i], SortKey(b[i])))
  }

  /** `allEvents`. */
  function AllEvents(j: ProductJourney): seq<TimelineEvent>
    requires WellFormedJourney(j)
  {
    SortBy(Tagged(j), Timestamp)
  }

  /** The rendered timeline: harvest milestone, the sorted events, then the
      current-status milestone. */
  function Timeline(j: ProductJourney): seq<TimelineEntry>
    requires WellFormedJourney(j)
  {
    var events := AllEvents(j);
    [Harvested(j.product.harvestDate, j.product.origin)] +
    seq(|events|, i requires 0 <= i < |events| => Event(events[i])) +
    [CurrentStatus(j.product.currentStatus, j.product.currentLocation)]
  }

  /** `allEvents` is a permutation of the tagged concatenation, one entry per
      event of the journey. */
  lemma AllEventsPermutation(j: ProductJourney)
    requires WellFormedJourney(j)
    ensures multiset(AllEvents(j)) == multiset(Tagged(j))
    ensures |AllEvents(j)| == |j.transitEvents| + |j.storageEvents| + |j.retailEvents|
  {
    SortByPermutation(Tagged(j), Timestamp);
  }

  /** Every entry of `allEvents` wraps an event of the journey, tagged with the
      list it came from and unchanged, and carries that event's sort key:
      the actual delivery time of a delivered transit leg, the pickup time of
      any other transit leg, the received time of a storage or retail event. */
  lemma AllEventsEntries(j: ProductJourney, e: TimelineEvent)
    requires WellFormedJourney(j)
    requires e in AllEvents(j)
    ensures e.body.TransitBody? ==>
              e.body.transit in j.transitEvents &&
              e.timestamp == (if e.body.transit.status == Delivered
                              then e.body.transit.actualDeliveryTime.value
                              else e.body.transit.pickupTime)
    ensures e.body.StorageBody? ==>
              e.body.storage in j.storageEvents && e.timestamp == e.body.storage.receivedTime
    ensures e.body.RetailBody? ==>
              e.body.retail in j.retailEvents && e.timestamp == e.body.retail.receivedTime
  {
    AllEventsPermutation(j);
    assert e in multiset(Tagged(j));
    var i :| 0 <= i < |Tagged(j)| && Tagged(j)[i] == e;
    var nt, ns := |j.transitEvents|, |j.storageEvents|;
    if i < nt {
      assert Bodies(j)[i] == TransitBody(j.transitEvents[i]);
    } else if i < nt + ns {
      assert Bodies(j)[i] == StorageBody(j.storageEvents[i - nt]);
    } else {
      assert Bodies(j)[i] == RetailBody(j.retailEvents[i - nt - ns]);
    }
  }

  /** `allEvents` is non-decreasing by timestamp. */
  lemma AllEventsSorted(j: ProductJourney)
    requires WellFormedJourney(j)
    ensures forall a, b :: 0 <= a < b < |AllEvents(j)| ==>
      AllEvents(j)[a].timestamp <= AllEvents(j)[b].timestamp
  {
    SortBySorted(Tagged(j), Timestamp);
  }

  /** Entries with equal timestamps keep concatenation order: transit before
      storage before retail, and list order within each kind. */
  lemma AllEventsStable(j: ProductJourney, k: Time)
    requires WellFormedJourney(j)
    ensures TiesOf(AllEvents(j), Timestamp, k) == TiesOf(Tagged(j), Timestamp, k)
  {
    SortByStable(Tagged(j), Timestamp, k);
  }

  /** The timeline is the harvest milestone, `allEvents` in order, then the
      current-status milestone; a journey without events has two rows. */
  lemma TimelineShape(j: ProductJourney)
    requires WellFormedJourney(j)
    ensures var t := Timeline(j);
      |t| == |AllEvents(j)| + 2 &&
      t[0] == Harvested(j.product.harvestDate, j.product.origin) &&
      (forall i :: 0 < i < |t| - 1 ==> t[i] == Event(AllEvents(j)[i - 1])) &&
      t[|t| - 1] == CurrentStatus(j.product.currentStatus, j.product.currentLocation)
  {
  }

  /** The entry heading. */
  function Heading(e: TimelineEvent): string
  {
    match e.body
    case TransitBody(t) =>
      if t.status == Delivered then "Delivered to " + t.deliveryLocation
      else "Picked up from " + t.pickupLocation
    case StorageBody(s) => "Stored at " + s.warehouseName
    case RetailBody(r) => "Received at " + r.retailerName
  }

  /** The four heading forms are told apart by their leading phrase, and the
      phrase is followed by the location or name of the event. */
  lemma HeadingForms(e: TimelineEvent)
    ensures Text.StartsWith(Heading(e), "Delivered to ") <==> e.body.TransitBody? && e.body.transit.status == Delivered
    ensures Text.StartsWith(Heading(e), "Picked up from ") <==> e.body.TransitBody? && e.body.transit.status != Delivered
    ensures Text.StartsWith(Heading(e), "Stored at ") <==> e.body.StorageBody?
    ensures Text.StartsWith(Heading(e), "Received at ") <==> e.body.RetailBody?
  {
    var h := Heading(e);
    var phrases := ["Delivered to ", "Picked up from ", "Stored at ", "Received at "];
    var rest := match e.body
      case TransitBody(t) => if t.status == Delivered then t.deliveryLocation else t.pickupLocation
      case StorageBody(s) => s.warehouseName
      case RetailBody(r) => r.retailerName;
    var k := match e.body
      case TransitBody(t) => if t.status == Delivered then 0 else 1
      case StorageBody(_) => 2
      case RetailBody(_) => 3;
    assert h == phrases[k] + rest;
    forall q | 0 <= q < 4
      ensures Text.StartsWith(h, phrases[q]) <==> q == k
    {
      assert (phrases[k] + rest)[..|phrases[k]|] == phrases[k];
      assert h[0] == phrases[k][0];
      assert q != k ==> phrases[q][0] != phrases[k][0];
    }
    assert phrases[0] == "Delivered to " && phrases[1] == "Picked up from ";
    assert phrases[2] == "Stored at " && phrases[3] == "Received at ";
    assert k == 0 <==> e.body.TransitBody? && e.body.transit.status == Delivered;
    assert k == 1 <==> e.body.TransitBody? && e.body.transit.status != Delivered;
    assert k == 2 <==> e.body.StorageBody?;
  }

  /** The status badge label (the same chain is used by the farmer
      dashboard's product cards). */
  function StatusBadge(s: ProductStatus): string
  {
    if s == AtFarm then "At Farm"
    else if s == InTransit then "In Transit"
    else if s == InWarehouse then "In Warehouse"
    else if s == AtRetailer then "At Retailer"
    else "Sold"
  }

  /** The five statuses get five distinct labels; only `sold` reaches the
      "Sold" fallback. */
  lemma StatusBadgeDistinct(s: ProductStatus, t: ProductStatus)
    ensures StatusBadge(s) == StatusBadge(t) <==> s == t
    ensures StatusBadge(s) == "Sold" <==> s == Sold
  {
  }

  datatype StatusIcon = LeafIcon | TruckIcon | WarehouseIcon | StoreIcon

  /** The current-status icon: Leaf, Truck, Warehouse, and Store for the rest. */
  function CurrentStatusIcon(s: ProductStatus): StatusIcon
  {
    if s == AtFarm then LeafIcon
    else if s == InTransit then TruckIcon
    else if s == InWarehouse then WarehouseIcon
    else StoreIcon
  }

  function Ids(es: seq<TimelineEvent>): seq<string>
  {
    if es == [] then []
    else [match es[0].body
          case TransitBody(t) => t.id
          case StorageBody(s) => s.id
          case RetailBody(r) => r.id] + Ids(es[1..])
  }

  /** Four entries whose timestamps tie in two pairs, the first with the
      third and the second with the fourth (first pair earlier), sort as
      first, third, second, fourth: each tie keeps input order. */
  lemma TwoTiedPairsOrder(a: TimelineEvent, b: TimelineEvent, c: TimelineEvent, d: TimelineEvent)
    requires a.timestamp == c.timestamp < b.timestamp == d.timestamp
    ensures SortBy([a, b, c, d], Timestamp) == [a, c, b, d]
  {
    assert [a, b, c, d][1..] == [b, c, d] && [b, c, d][1..] == [c, d] && [c, d][1..] == [d];
    assert SortBy([d], Timestamp) == [d];
    assert SortBy([c, d], Timestamp) == Insert(c, [d], Timestamp) == [c, d];
    assert Insert(b, [d], Timestamp) == [b, d];
    assert SortBy([b, c, d], Timestamp) == Insert(b, [c, d], Timestamp) == [c, b, d];
    assert SortBy([a, b, c, d], Timestamp) == Insert(a, [c, b, d], Timestamp) == [a, c, b, d];
  }

  /** With the seed data, prod-001 orders as transit-001, storage-001,
      transit-002, retail-001: transit-001 and storage-001 share
      2023-09-16T14:15Z and transit-002 and retail-001 share
      2023-09-20T10:45Z, and both ties are broken by concatenation order.
      Its timeline has six rows. */
  lemma Prod001Timeline()
    ensures Directory.GetProductJourney(Directory.Mock, "prod-001").Some?
    ensures var j := Directory.GetProductJourney(Directory.Mock, "prod-001").value;
      WellFormedJourney(j) && |AllEvents(j)| == 4 &&
      Ids(AllEvents(j)) == ["transit-001", "storage-001", "transit-002", "retail-001"] &&
      AllEvents(j)[0].timestamp == AllEvents(j)[1].timestamp &&
      AllEvents(j)[2].timestamp == AllEvents(j)[3].timestamp &&
      |Timeline(j)| == 6
  {
    Directory.Prod001Journey();
    var j := Directory.GetProductJourney(Directory.Mock, "prod-001").value;
    assert WellFormedJourney(j);
    var t := Tagged(j);
    assert |t| == 4;
    assert t[0].body == TransitBody(j.transitEvents[0]) && t[1].body == TransitBody(j.transitEvents[1]);
    assert t[2].body == StorageBody(j.storageEvents[0]) && t[3].body == RetailBody(j.retailEvents[0]);
    TwoTiedPairsOrder(t[0], t[1], t[2], t[3]);
    assert t == [t[0], t[1], t[2], t[3]];
    TimelineShape(j);
  }

  /** With the seed data, prod-003's single leg is still in transit, sorts
      by its pickup time, and the timeline has three rows. */
  lemma Prod003Timeline()
    ensures Directory.GetProductJourney(Directory.Mock, "prod-003").Some?
    ensures var j := Directory.GetProductJourney(Directory.Mock, "prod-003").value;
      WellFormedJourney(j) && |AllEvents(j)| == 1 &&
      Ids(AllEvents(j)) == ["transit-004"] &&
      AllEvents(j)[0].timestamp == j.transitEvents[0].pickupTime &&
      |Timeline(j)| == 3
  {
    Directory.Prod003Journey();
  }
}
