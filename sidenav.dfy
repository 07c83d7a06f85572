/** The side navigation (src/components/layout/SideNav.tsx): the role the
    current path belongs to, the heading and the list of links shown for it,
    and which link is highlighted. */
module SideNav {
  import opened Types
  import opened Text

  /** `getActiveRole`: the first of `/farmer`, `/transporter`, `/warehouse`,
      `/consumer`-or-`/retailer` the path contains decides; a path with none
      of them is the consumer's. The consumer pages belong to the retailer
      role, and no path leads to the admin role. */
  function ActiveRole(path: string): (r: Role)
    ensures r != Admin
    ensures r == Farmer <==> Includes(path, "/farmer")
    ensures r == Transporter <==> !Includes(path, "/farmer") && Includes(path, "/transporter")
    ensures r == Warehouse <==>
      !Includes(path, "/farmer") && !Includes(path, "/transporter") && Includes(path, "/warehouse")
    ensures r == Retailer <==>
      !Includes(path, "/farmer") && !Includes(path, "/transporter") && !Includes(path, "/warehouse") &&
      (Includes(path, "/consumer") || Includes(path, "/retailer"))
    ensures r == Consumer <==>
      !Includes(path, "/farmer") && !Includes(path, "/transporter") && !Includes(path, "/warehouse") &&
      !Includes(path, "/consumer") && !Includes(path, "/retailer")
  {
    if Includes(path, "/farmer") then Farmer
    else if Includes(path, "/transporter") then Transporter
    else if Includes(path, "/warehouse") then Warehouse
    else if Includes(path, "/consumer") || Includes(path, "/retailer") then Retailer
    else Consumer
  }

  /** A link of the side navigation (the icon is left out). */
  datatype NavItem = NavItem(name: string, path: string)

  const FarmerItems: seq<NavItem> := [
    NavItem("My Produce", "/farmer"), NavItem("Add New Produce", "/farmer/add"),
    NavItem("Generate QR", "/farmer/qr"), NavItem("Track Shipments", "/farmer/track")]
  const TransporterItems: seq<NavItem> := [
    NavItem("Shipments", "/transporter"), NavItem("Scan QR Code", "/transporter/scan"),
    NavItem("Update Transit", "/transporter/update"), NavItem("Delivery Confirmation", "/transporter/confirm")]
  const WarehouseItems: seq<NavItem> := [
    NavItem("Inventory", "/warehouse"), NavItem("Scan QR Code", "/warehouse/scan"),
    NavItem("Storage Conditions", "/warehouse/conditions"), NavItem("Quality Updates", "/warehouse/quality")]
  const RetailerItems: seq<NavItem> := [
    NavItem("Products", "/consumer"), NavItem("Scan QR Code", "/consumer/scan"),
    NavItem("Verify Product", "/consumer/verify")]
  const AdminItems: seq<NavItem> := [
    NavItem("Users", "/admin/users"), NavItem("Settings", "/admin/settings")]

  /** The list rendered for a role: retailer and consumer share the retailer
      list and no branch renders the admin list. */
  function ItemsFor(r: Role): (items: seq<NavItem>)
    ensures r in {Retailer, Consumer} <==> items == RetailerItems
    ensures items != AdminItems
    ensures items == [] <==> r == Admin
  {
    match r
    case Farmer => FarmerItems
    case Transporter => TransporterItems
    case Warehouse => WarehouseItems
    case Retailer => RetailerItems
    case Consumer => RetailerItems
    case Admin => []
  }

  /** The links shown on a path: never empty and never the admin list; the
      retailer and consumer pages show the retailer list. */
  function ShownItems(path: string): (items: seq<NavItem>)
    ensures items != [] && items != AdminItems
    ensures ActiveRole(path) in {Retailer, Consumer} ==> items == RetailerItems
  {
    ItemsFor(ActiveRole(path))
  }

  /** A link is highlighted when the path is exactly its target. */
  predicate Highlighted(path: string, item: NavItem)
  {
    path == item.path
  }

  /** No two links of a list share a target. */
  predicate DistinctTargets(items: seq<NavItem>)
  {
    forall i, j :: 0 <= i < j < |items| ==> items[i].path != items[j].path
  }

  /** Within each list the targets even have distinct lengths. */
  lemma ListsHaveDistinctTargets(r: Role)
    ensures DistinctTargets(ItemsFor(r))
  {
    var items := ItemsFor(r);
    assert forall i, j :: 0 <= i < j < |items| ==> |items[i].path| != |items[j].path|;
  }

  /** So at most one shown link is highlighted. */
  lemma AtMostOneHighlighted(path: string)
    ensures forall i, j :: 0 <= i < j < |ShownItems(path)| ==>
      !(Highlighted(path, ShownItems(path)[i]) && Highlighted(path, ShownItems(path)[j]))
  {
    ListsHaveDistinctTargets(ActiveRole(path));
  }

  /** The heading of the navigation. */
  function Heading(r: Role): (h: string)
    ensures h == "Consumer View" <==> r !in {Farmer, Transporter, Warehouse, Retailer}
  {
    if r == Farmer then "Farmer Dashboard"
    else if r == Transporter then "Transporter Dashboard"
    else if r == Warehouse then "Warehouse Dashboard"
    else if r == Retailer then "Retailer Dashboard"
    else "Consumer View"
  }

  /** On any path the heading is "Consumer View" exactly when the active role
      is consumer. */
  lemma ConsumerViewHeading(path: string)
    ensures Heading(ActiveRole(path)) == "Consumer View" <==> ActiveRole(path) == Consumer
  {
  }
}
