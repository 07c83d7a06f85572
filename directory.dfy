/** The entity directory: the seed collections and the queries over them
    (src/lib/constants.ts). The collections are immutable values, so no
    query can change them. */
module Directory {
  import opened Wrappers
  import opened Types
  import opened Seqs

  datatype Directory = Directory(
    users: seq<User>,
    products: seq<Product>,
    transitEvents: seq<TransitEvent>,
    storageEvents: seq<StorageEvent>,
    retailEvents: seq<RetailEvent>,
    feedback: seq<FeedbackEvent>)

  function SeedUser(id: string, name: string, role: Role, email: string, password: string): User
  {
    User(id, name, role, email, password, None, None, None)
  }

  const MockUsers: seq<User> := [
    SeedUser("farmer-1", "John Smith", Farmer, "john.smith@example.com", "farmer1234"),
    SeedUser("transporter-1", "Sarah Logistics", Transporter, "sarah@quickdelivery.com", "transporter1234"),
    SeedUser("warehouse-1", "Michael Storage", Warehouse, "michael@freshstorage.com", "ware1234"),
    SeedUser("retailer-1", "Emma Markets", Retailer, "emma@freshmarkets.com", "ret1234"),
    SeedUser("consumer-1", "Lisa Consumer", Consumer, "lisa@example.com", "consumer1234")
  ]

  const MockProducts: seq<Product> := [
    Product("prod-001", "Organic Apples", "Fruit", Some("Honeycrisp"), "farmer-1", "John Smith",
      1694736000000, "Green Valley Farm, California", 500, "kg", Some("Premium"), true,
      Some("/placeholder.svg"), "prod-001-qr", AtRetailer, Some("Fresh Markets, San Francisco"), Some(2.99)),
    Product("prod-002", "Fresh Strawberries", "Fruit", Some("Sweet Ruby"), "farmer-1", "John Smith",
      1695168000000, "Green Valley Farm, California", 200, "kg", Some("Premium"), true,
      Some("/placeholder.svg"), "prod-002-qr", InWarehouse, Some("Fresh Storage Solutions, Oakland"), None),
    Product("prod-003", "Fresh Lettuce", "Vegetable", Some("Romaine"), "farmer-1", "John Smith",
      1695340800000, "Green Valley Farm, California", 300, "kg", Some("Standard"), true,
      Some("/placeholder.svg"), "prod-003-qr", InTransit, Some("In transit to Fresh Storage Solutions"), None)
  ]

  const MockTransitEvents: seq<TransitEvent> := [
    TransitEvent("transit-001", "prod-001", "transporter-1", "Sarah Logistics",
      "Green Valley Farm, California", 1694853000000,
      "Fresh Storage Solutions, Oakland", 1694874600000, Some(1694873700000), Delivered,
      Some(TransitConditions(Some(4.5), Some(75.0))), None),
    TransitEvent("transit-002", "prod-001", "transporter-1", "Sarah Logistics",
      "Fresh Storage Solutions, Oakland", 1695200400000,
      "Fresh Markets, San Francisco", 1695207600000, Some(1695206700000), Delivered,
      Some(TransitConditions(Some(4.2), Some(72.0))), None),
    TransitEvent("transit-003", "prod-002", "transporter-1", "Sarah Logistics",
      "Green Valley Farm, California", 1695283200000,
      "Fresh Storage Solutions, Oakland", 1695304800000, Some(1695306600000), Delivered,
      Some(TransitConditions(Some(4.0), Some(78.0))), None),
    TransitEvent("transit-004", "prod-003", "transporter-1", "Sarah Logistics",
      "Green Valley Farm, California", 1695454200000,
      "Fresh Storage Solutions, Oakland", 1695475800000, None, Moving,
      Some(TransitConditions(Some(4.1), Some(76.0))), None)
  ]

  const MockStorageEvents: seq<StorageEvent> := [
    StorageEvent("storage-001", "prod-001", "warehouse-1", "Fresh Storage Solutions",
      1694873700000, "Section A, Shelf 12", StorageConditions(3.8, 85.0),
      Some(QualityCheck(Passed, Some("Product in excellent condition"))), Some(1695200400000)),
    StorageEvent("storage-002", "prod-002", "warehouse-1", "Fresh Storage Solutions",
      1695306600000, "Section B, Shelf 5", StorageConditions(4.0, 82.0),
      Some(QualityCheck(Passed, Some("Product in good condition"))), None)
  ]

  const MockRetailEvents: seq<RetailEvent> := [
    RetailEvent("retail-001", "prod-001", "retailer-1", "Fresh Markets",
      1695206700000, "Fresh Markets, San Francisco", 2.99, None, None)
  ]

  const MockFeedback: seq<FeedbackEvent> := [
    FeedbackEvent("feedback-001", "prod-001", "consumer-1", "Lisa Consumer", Consumer, 5,
      "These apples are incredibly fresh and tasty!", 1695396600000)
  ]

  /** The seed directory every page reads. */
  const Mock: Directory := Directory(MockUsers, MockProducts, MockTransitEvents,
    MockStorageEvents, MockRetailEvents, MockFeedback)

  /** `MOCK_PRODUCTS.find(p => p.id === id)`. */
  function FindProduct(d: Directory, id: string): Option<Product>
  {
    Find(d.products, (p: Product) => p.id == id)
  }

  /** `getProductJourney`: the first product with that id, and each event
      collection filtered by `productId`; absent for an unknown id. */
  function GetProductJourney(d: Directory, id: string): Option<ProductJourney>
  {
    match FindProduct(d, id)
    case None => None
    case Some(p) => Some(ProductJourney(p,
      Filter(d.transitEvents, (e: TransitEvent) => e.productId == id),
      Filter(d.storageEvents, (e: StorageEvent) => e.productId == id),
      Filter(d.retailEvents, (e: RetailEvent) => e.productId == id)))
  }

  /** `FindProduct` is absent exactly when no product has the id, and
      otherwise is the first product that has it. */
  lemma {:induction false} FindProductFirst(d: Directory, id: string)
    ensures FindProduct(d, id).None? <==> forall i :: 0 <= i < |d.products| ==> d.products[i].id != id
    ensures FindProduct(d, id).Some? ==>
      exists i :: 0 <= i < |d.products| && d.products[i] == FindProduct(d, id).value &&
        d.products[i].id == id && forall k :: 0 <= k < i ==> d.products[k].id != id
  {
    FindFirst(d.products, (p: Product) => p.id == id);
  }

  /** The journey is absent exactly when no product has the id; otherwise its
      product is the first product with that id. */
  lemma JourneyProduct(d: Directory, id: string)
    ensures GetProductJourney(d, id).None? <==>
      forall i :: 0 <= i < |d.products| ==> d.products[i].id != id
    ensures GetProductJourney(d, id).Some? ==>
      exists i :: 0 <= i < |d.products| && d.products[i] == GetProductJourney(d, id).value.product &&
        d.products[i].id == id && forall k :: 0 <= k < i ==> d.products[k].id != id
  {
    FindProductFirst(d, id);
  }

  /** Each event sequence of a journey holds exactly the events of the
      directory with that product id, in directory order. */
  lemma JourneyEvents(d: Directory, id: string)
    requires GetProductJourney(d, id).Some?
    ensures var j := GetProductJourney(d, id).value;
      (forall e :: e in j.transitEvents <==> e in d.transitEvents && e.productId == id) &&
      (forall e :: e in j.storageEvents <==> e in d.storageEvents && e.productId == id) &&
      (forall e :: e in j.retailEvents <==> e in d.retailEvents && e.productId == id) &&
      IsSubsequence(j.transitEvents, d.transitEvents) &&
      IsSubsequence(j.storageEvents, d.storageEvents) &&
      IsSubsequence(j.retailEvents, d.retailEvents) &&
      (forall e :: multiset(j.transitEvents)[e] == if e.productId == id then multiset(d.transitEvents)[e] else 0) &&
      (forall e :: multiset(j.storageEvents)[e] == if e.productId == id then multiset(d.storageEvents)[e] else 0) &&
      (forall e :: multiset(j.retailEvents)[e] == if e.productId == id then multiset(d.retailEvents)[e] else 0)
  {
    var pt := (e: TransitEvent) => e.productId == id;
    var ps := (e: StorageEvent) => e.productId == id;
    var pr := (e: RetailEvent) => e.productId == id;
    forall e ensures e in Filter(d.transitEvents, pt) <==> e in d.transitEvents && e.productId == id {
      FilterMembership(d.transitEvents, pt, e);
    }
    forall e ensures e in Filter(d.storageEvents, ps) <==> e in d.storageEvents && e.productId == id {
      FilterMembership(d.storageEvents, ps, e);
    }
    forall e ensures e in Filter(d.retailEvents, pr) <==> e in d.retailEvents && e.productId == id {
      FilterMembership(d.retailEvents, pr, e);
    }
    FilterIsSubsequence(d.transitEvents, pt);
    FilterIsSubsequence(d.storageEvents, ps);
    FilterIsSubsequence(d.retailEvents, pr);
    forall e ensures multiset(Filter(d.transitEvents, pt))[e] == if e.productId == id then multiset(d.transitEvents)[e] else 0 {
      FilterMultiplicity(d.transitEvents, pt, e);
    }
    forall e ensures multiset(Filter(d.storageEvents, ps))[e] == if e.productId == id then multiset(d.storageEvents)[e] else 0 {
      FilterMultiplicity(d.storageEvents, ps, e);
    }
    forall e ensures multiset(Filter(d.retailEvents, pr))[e] == if e.productId == id then multiset(d.retailEvents)[e] else 0 {
      FilterMultiplicity(d.retailEvents, pr, e);
    }
  }

  /** `getCurrentUser`: the first seeded user, the farmer `farmer-1`. */
  function GetCurrentUser(): (u: User)
    ensures u == MockUsers[0] && u.id == "farmer-1" && u.role == Farmer
  {
    MockUsers[0]
  }

  /** `isUserRole`: whether the current user's role literal is `role`. */
  function IsUserRole(role: string): (b: bool)
    ensures b <==> ParseRole(role) == Some(GetCurrentUser().role)
    ensures b <==> role == "farmer"
  {
    RoleName(GetCurrentUser().role) == role
  }

  /** Product ids and user ids of the seed are pairwise distinct, so a
      lookup by id is unambiguous. */
  lemma SeedIdsDistinct()
    ensures forall i, j :: 0 <= i < j < |Mock.products| ==> Mock.products[i].id != Mock.products[j].id
    ensures forall i, j :: 0 <= i < j < |Mock.users| ==> Mock.users[i].id != Mock.users[j].id
  {
  }

  /** prod-001 has two delivered transit legs, one storage and one retail
      event; the storage event ties with the first leg's delivery and the
      retail event with the second's. */
  lemma Prod001Journey()
    ensures GetProductJourney(Mock, "prod-001").Some?
    ensures var j := GetProductJourney(Mock, "prod-001").value;
      j.product == MockProducts[0] &&
      j.transitEvents == [MockTransitEvents[0], MockTransitEvents[1]] &&
      j.storageEvents == [MockStorageEvents[0]] &&
      j.retailEvents == MockRetailEvents &&
      (forall e :: e in j.transitEvents ==> e.status == Delivered && e.actualDeliveryTime.Some?) &&
      j.transitEvents[0].actualDeliveryTime.value == j.storageEvents[0].receivedTime &&
      j.storageEvents[0].receivedTime < j.transitEvents[1].actualDeliveryTime.value &&
      j.transitEvents[1].actualDeliveryTime.value == j.retailEvents[0].receivedTime
  {
  }

  /** prod-003 has one transit leg, still in transit with no actual
      delivery time, and no other events. */
  lemma Prod003Journey()
    ensures GetProductJourney(Mock, "prod-003").Some?
    ensures var j := GetProductJourney(Mock, "prod-003").value;
      j.product == MockProducts[2] &&
      j.transitEvents == [MockTransitEvents[3]] &&
      j.transitEvents[0].status == Moving && j.transitEvents[0].actualDeliveryTime.None? &&
      j.storageEvents == [] && j.retailEvents == []
  {
  }
}
