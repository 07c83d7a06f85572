/** The warehouse dashboard (src/pages/Warehouse.tsx): the products held in
    the warehouse, the inventory card of one product, the warehouse user,
    and the colour bands of the storage conditions. */
module Warehouse {
  import opened Wrappers
  import opened Types
  import opened Seqs
  import opened Tally
  import Directory

  /** `warehouseProducts`: the seeded products whose status is in-warehouse. */
  function WarehouseProducts(ps: seq<Product>): (r: seq<Product>)
    ensures forall p :: p in r <==> p in ps && p.currentStatus == InWarehouse
    ensures forall p :: multiset(r)[p] == if p.currentStatus == InWarehouse then multiset(ps)[p] else 0
  {
    forall p ensures p in WithStatus(ps, InWarehouse) <==> p in ps && p.currentStatus == InWarehouse {
      FilterMembership(ps, (q: Product) => q.currentStatus == InWarehouse, p);
    }
    forall p ensures multiset(WithStatus(ps, InWarehouse))[p] ==
      if p.currentStatus == InWarehouse then multiset(ps)[p] else 0
    {
      FilterMultiplicity(ps, (q: Product) => q.currentStatus == InWarehouse, p);
    }
    WithStatus(ps, InWarehouse)
  }

  /** The selection keeps the products' order. */
  lemma WarehouseProductsOrder(ps: seq<Product>)
    ensures IsSubsequence(WarehouseProducts(ps), ps)
  {
    FilterIsSubsequence(ps, (q: Product) => q.currentStatus == InWarehouse);
  }

  /** With the seed data only prod-002 is in the warehouse. */
  lemma SeedWarehouseProducts()
    ensures WarehouseProducts(Directory.MockProducts) == [Directory.MockProducts[1]]
    ensures Directory.MockProducts[1].id == "prod-002"
  {
  }

  /** `warehouseInfo`: the first user whose role is warehouse. */
  function WarehouseInfo(users: seq<User>): (r: Option<User>)
    ensures r.None? <==> forall i :: 0 <= i < |users| ==> users[i].role != Warehouse
    ensures r.Some? ==>
      exists i :: 0 <= i < |users| && users[i] == r.value && r.value.role == Warehouse &&
        forall k :: 0 <= k < i ==> users[k].role != Warehouse
  {
    FindFirst(users, (u: User) => u.role == Warehouse);
    Find(users, (u: User) => u.role == Warehouse)
  }

  /** With the seed users that is warehouse-1. */
  lemma SeedWarehouseInfo()
    ensures WarehouseInfo(Directory.MockUsers) == Some(Directory.MockUsers[2])
    ensures Directory.MockUsers[2].id == "warehouse-1"
  {
  }

  /** The facts an `InventoryCard` shows beside the product's own fields:
      the variety (or 'Standard'), the received time of the product's first
      storage event (None renders as 'N/A'; the date formatting is left
      out) and that event's location (or 'Unassigned'). */
  datatype InventoryCard = InventoryCard(variety: string, received: Option<Time>, location: string)

  /** `x || fallback` on an optional string: the fallback replaces a missing
      or empty string. */
  function OrElse(s: Option<string>, fallback: string): (r: string)
    ensures r == fallback || (s.Some? && r == s.value && r != [])
    ensures s.Some? && s.value != [] ==> r == s.value
  {
    if s.Some? && s.value != [] then s.value else fallback
  }

  function FirstStorageEvent(storage: seq<StorageEvent>, productId: string): Option<StorageEvent>
  {
    Find(storage, (e: StorageEvent) => e.productId == productId)
  }

  function ShowInventoryCard(storage: seq<StorageEvent>, p: Product): (card: InventoryCard)
    ensures card.variety == (if p.variety.Some? && p.variety.value != [] then p.variety.value else "Standard")
    ensures card.received.None? <==> forall i :: 0 <= i < |storage| ==> storage[i].productId != p.id
    ensures card.received.None? ==> card.location == "Unassigned"
    ensures card.received.Some? ==>
      exists i :: 0 <= i < |storage| && storage[i].productId == p.id &&
        (forall k :: 0 <= k < i ==> storage[k].productId != p.id) &&
        card.received.value == storage[i].receivedTime &&
        card.location == (if storage[i].location == [] then "Unassigned" else storage[i].location)
  {
    FindFirst(storage, (e: StorageEvent) => e.productId == p.id);
    var info := FirstStorageEvent(storage, p.id);
    InventoryCard(OrElse(p.variety, "Standard"),
      if info.Some? then Some(info.value.receivedTime) else None,
      OrElse(if info.Some? then Some(info.value.location) else None, "Unassigned"))
  }

  /** A colour class of a condition reading. */
  datatype Band = Blue | Green | Red | Amber

  function BandClass(b: Band): string
  {
    match b
    case Blue => "text-blue-500"
    case Green => "text-green-500"
    case Red => "text-red-500"
    case Amber => "text-amber-500"
  }

  /** `getTemperatureClass`: below 2 °C blue, above 8 °C red, otherwise green. */
  function TemperatureBand(t: real): (b: Band)
    ensures b == Blue <==> t < 2.0
    ensures b == Red <==> t > 8.0
    ensures b == Green <==> 2.0 <= t <= 8.0
  {
    if t < 2.0 then Blue
    else if t > 8.0 then Red
    else Green
  }

  /** `getHumidityClass`: below 70 % amber, above 90 % blue, otherwise green. */
  function HumidityBand(h: real): (b: Band)
    ensures b == Amber <==> h < 70.0
    ensures b == Blue <==> h > 90.0
    ensures b == Green <==> 70.0 <= h <= 90.0
  {
    if h < 70.0 then Amber
    else if h > 90.0 then Blue
    else Green
  }

  /** Both seeded storage events are in the green band for temperature and
      for humidity. */
  lemma SeedConditionsGreen()
    ensures forall e :: e in Directory.MockStorageEvents ==>
      TemperatureBand(e.conditions.temperature) == Green && HumidityBand(e.conditions.humidity) == Green
  {
  }
}
