/** The farmer dashboard (src/pages/Farmer.tsx): the four overview counts,
    and the badge colour and icon of a product status. The badge label is
    Journey.StatusBadge. */
module Farmer {
  import opened Wrappers
  import opened Types
  import opened Tally

  /** The overview card: at farm, in transit, in warehouse, at retailer. Sold
      products have no line on the card. */
  datatype Overview = Overview(atFarm: nat, inTransit: nat, inWarehouse: nat, atRetailer: nat)

  function ShowOverview(ps: seq<Product>): (o: Overview)
    ensures o.atFarm == StatusCount(ps, AtFarm) && o.inTransit == StatusCount(ps, InTransit) &&
            o.inWarehouse == StatusCount(ps, InWarehouse) && o.atRetailer == StatusCount(ps, AtRetailer)
    ensures o.atFarm + o.inTransit + o.inWarehouse + o.atRetailer == |ps| - StatusCount(ps, Sold)
  {
    StatusCountsSum(ps);
    Overview(StatusCount(ps, AtFarm), StatusCount(ps, InTransit), StatusCount(ps, InWarehouse),
      StatusCount(ps, AtRetailer))
  }

  /** The four counts never exceed the number of products, and they account
      for all of them exactly when none is sold. */
  lemma OverviewCoversUnsold(ps: seq<Product>)
    ensures var o := ShowOverview(ps);
      o.atFarm + o.inTransit + o.inWarehouse + o.atRetailer <= |ps| &&
      (o.atFarm + o.inTransit + o.inWarehouse + o.atRetailer == |ps| <==>
         forall i :: 0 <= i < |ps| ==> ps[i].currentStatus != Sold)
  {
    StatusCountZero(ps, Sold);
  }

  const MutedClass := "bg-muted text-foreground"

  /** `getStatusColor` on a status string: one class per status, the muted
      class for any other string. */
  function StatusColor(status: string): (c: string)
    ensures ParseStatus(status).None? <==> c == MutedClass
  {
    match ParseStatus(status)
    case Some(AtFarm) => "bg-role-farmer text-white"
    case Some(InTransit) => "bg-role-transporter text-white"
    case Some(InWarehouse) => "bg-role-warehouse text-white"
    case Some(AtRetailer) => "bg-role-retailer text-white"
    case Some(Sold) => "bg-green-500 text-white"
    case None => MutedClass
  }

  /** The five statuses get five distinct colours. */
  lemma StatusColorDistinct(s: ProductStatus, t: ProductStatus)
    ensures StatusColor(StatusName(s)) == StatusColor(StatusName(t)) <==> s == t
  {
    StatusNameRoundTrip(s);
    StatusNameRoundTrip(t);
  }

  datatype Icon = Leaf | Clock | Check | Cross

  /** `getStatusIcon` on a status string. */
  function StatusIcon(status: string): (i: Icon)
    ensures i == Leaf <==> status == "at-farm"
    ensures i == Clock <==> status == "in-transit"
    ensures i == Check <==> status in {"in-warehouse", "at-retailer", "sold"}
    ensures i == Cross <==> ParseStatus(status).None?
  {
    match ParseStatus(status)
    case Some(AtFarm) => Leaf
    case Some(InTransit) => Clock
    case Some(InWarehouse) => Check
    case Some(AtRetailer) => Check
    case Some(Sold) => Check
    case None => Cross
  }
}
