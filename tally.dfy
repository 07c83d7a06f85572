/** Status tallies shared by the dashboards: `products.filter(p =>
    p.currentStatus === s).length` (src/pages/Home.tsx, src/pages/Farmer.tsx). */
module Tally {
  import opened Types
  import opened Seqs

  /** The products whose status is `s`, in order. */
  function WithStatus(ps: seq<Product>, s: ProductStatus): seq<Product>
  {
    Filter(ps, (p: Product) => p.currentStatus == s)
  }

  /** `products.filter(p => p.currentStatus === s).length`. */
  function StatusCount(ps: seq<Product>, s: ProductStatus): nat
  {
    |WithStatus(ps, s)|
  }

  /** A count is zero exactly when no product has that status, and a
      product of that status adds one to it. */
  lemma {:induction false} StatusCountZero(ps: seq<Product>, s: ProductStatus)
    ensures StatusCount(ps, s) == 0 <==> forall i :: 0 <= i < |ps| ==> ps[i].currentStatus != s
  {
    if ps != [] {
      StatusCountZero(ps[1..], s);
      assert forall i :: 0 < i < |ps| ==> ps[i] == ps[1..][i - 1];
      if forall i :: 0 <= i < |ps[1..]| ==> ps[1..][i].currentStatus != s {
        assert forall i :: 0 < i < |ps| ==> ps[i].currentStatus != s;
      }
    }
  }

  /** Every product has exactly one of the five statuses, so the five
      counts add up to the number of products. */
  lemma {:induction false} StatusCountsSum(ps: seq<Product>)
    ensures StatusCount(ps, AtFarm) + StatusCount(ps, InTransit) + StatusCount(ps, InWarehouse) +
            StatusCount(ps, AtRetailer) + StatusCount(ps, Sold) == |ps|
  {
    if ps != [] {
      StatusCountsSum(ps[1..]);
    }
  }
}
