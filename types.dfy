/** The records and string-literal unions of the data layer
    (src/lib/types.ts). Every ISO-8601 timestamp string is represented by
    the instant it denotes, in milliseconds since the Unix epoch (UTC), which
    is what the source compares after `new Date(...).getTime()`. */
module Types {
  import opened Wrappers

  /** Milliseconds since 1970-01-01T00:00:00Z. */
  type Time = int

  /** `UserRole`: exactly six values. */
  datatype Role = Farmer | Transporter | Warehouse | Retailer | Consumer | Admin

  /** The string literal of each role. */
  function RoleName(r: Role): string
  {
    match r
    case Farmer => "farmer"
    case Transporter => "transporter"
    case Warehouse => "warehouse"
    case Retailer => "retailer"
    case Consumer => "consumer"
    case Admin => "admin"
  }

  /** The role a string literal denotes, if any (what a `switch` on a
      role string distinguishes). */
  function ParseRole(s: string): (r: Option<Role>)
    ensures r.Some? ==> RoleName(r.value) == s
  {
    if s == "farmer" then Some(Farmer)
    else if s == "transporter" then Some(Transporter)
    else if s == "warehouse" then Some(Warehouse)
    else if s == "retailer" then Some(Retailer)
    else if s == "consumer" then Some(Consumer)
    else if s == "admin" then Some(Admin)
    else None
  }

  /** Every role's literal parses back to that role, so `RoleName` is
      injective and the six literals are distinct. */
  lemma RoleNameRoundTrip(r: Role)
    ensures ParseRole(RoleName(r)) == Some(r)
  {
  }

  /** `Product.currentStatus`: exactly five values. */
  datatype ProductStatus = AtFarm | InTransit | InWarehouse | AtRetailer | Sold

  function StatusName(s: ProductStatus): string
  {
    match s
    case AtFarm => "at-farm"
    case InTransit => "in-transit"
    case InWarehouse => "in-warehouse"
    case AtRetailer => "at-retailer"
    case Sold => "sold"
  }

  function ParseStatus(s: string): (r: Option<ProductStatus>)
    ensures r.Some? ==> StatusName(r.value) == s
  {
    if s == "at-farm" then Some(AtFarm)
    else if s == "in-transit" then Some(InTransit)
    else if s == "in-warehouse" then Some(InWarehouse)
    else if s == "at-retailer" then Some(AtRetailer)
    else if s == "sold" then Some(Sold)
    else None
  }

  lemma StatusNameRoundTrip(s: ProductStatus)
    ensures ParseStatus(StatusName(s)) == Some(s)
  {
  }

  /** `TransitEvent.status`: 'scheduled' | 'in-transit' | 'delivered'. */
  datatype TransitStatus = Scheduled | Moving | Delivered

  /** Transit `conditions`: the record and both of its fields are optional. */
  datatype TransitConditions = TransitConditions(temperature: Option<real>, humidity: Option<real>)

  /** Storage `conditions`: required, with both fields present. */
  datatype StorageConditions = StorageConditions(temperature: real, humidity: real)

  datatype QualityStatus = Passed | Failed

  datatype QualityCheck = QualityCheck(status: QualityStatus, notes: Option<string>)

  datatype User = User(
    id: string,
    name: string,
    role: Role,
    email: string,
    password: string,
    avatar: Option<string>,
    location: Option<string>,
    company: Option<string>)

  datatype Product = Product(
    id: string,
    name: string,
    productType: string,
    variety: Option<string>,
    farmerId: string,
    farmerName: string,
    harvestDate: Time,
    origin: string,
    quantity: int,
    unit: string,
    qualityGrade: Option<string>,
    organicCertified: bool,
    imageUrl: Option<string>,
    qrCode: string,
    currentStatus: ProductStatus,
    currentLocation: Option<string>,
    price: Option<real>)

  datatype TransitEvent = TransitEvent(
    id: string,
    productId: string,
    transporterId: string,
    transporterName: string,
    pickupLocation: string,
    pickupTime: Time,
    deliveryLocation: string,
    estimatedDeliveryTime: Time,
    actualDeliveryTime: Option<Time>,
    status: TransitStatus,
    conditions: Option<TransitConditions>,
    notes: Option<string>)

  datatype StorageEvent = StorageEvent(
    id: string,
    productId: string,
    warehouseId: string,
    warehouseName: string,
    receivedTime: Time,
    location: string,
    conditions: StorageConditions,
    qualityCheck: Option<QualityCheck>,
    exitTime: Option<Time>)

  datatype RetailEvent = RetailEvent(
    id: string,
    productId: string,
    retailerId: string,
    retailerName: string,
    receivedTime: Time,
    location: string,
    price: real,
    soldTime: Option<Time>,
    consumerId: Option<string>)

  /** A product together with its three event sequences. */
  datatype ProductJourney = ProductJourney(
    product: Product,
    transitEvents: seq<TransitEvent>,
    storageEvents: seq<StorageEvent>,
    retailEvents: seq<RetailEvent>)

  datatype FeedbackEvent = FeedbackEvent(
    id: string,
    productId: string,
    userId: string,
    userName: string,
    userRole: Role,
    rating: int,
    comment: string,
    timestamp: Time)

  /** A delivered transit event carries its actual delivery time; the
      timeline and activity sort keys are undefined otherwise. */
  predicate WellFormedTransit(e: TransitEvent)
  {
    e.status == Delivered ==> e.actualDeliveryTime.Some?
  }
}
