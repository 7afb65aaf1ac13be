/** The canonical data model every merchant is normalised into. Money amounts are
    whole cents, optional properties are `Option`s, and dates and ratings are kept
    as opaque values since nothing relates them. */
module Ucp {
  import opened Wrappers
  import Ids

  /** An amount of money in minor currency units. */
  type Cents = int

  /** A point in time, carried but never compared. */
  datatype Timestamp = Timestamp(millis: int)

  /** The seven states an order can be in; no other value is an order status. */
  datatype OrderStatus =
    | Pending
    | PaymentRequired
    | Paid
    | Processing
    | Shipped
    | Delivered
    | Cancelled

  /** Every order status, each once. */
  const AllStatuses: seq<OrderStatus> :=
    [Pending, PaymentRequired, Paid, Processing, Shipped, Delivered, Cancelled]

  /** The string literals of the status union type, the only strings a status may be. */
  const StatusLiterals: set<string> :=
    {"pending", "payment_required", "paid", "processing", "shipped", "delivered", "cancelled"}

  /** The string literal that stands for a status on the wire; it is one of the
      union's literals and reads back as that status. */
  function StatusName(s: OrderStatus): (w: string)
    ensures w in StatusLiterals
    ensures ParseStatus(w) == Some(s)
  {
    match s
    case Pending => "pending"
    case PaymentRequired => "payment_required"
    case Paid => "paid"
    case Processing => "processing"
    case Shipped => "shipped"
    case Delivered => "delivered"
    case Cancelled => "cancelled"
  }

  /** Reads a wire string as a status: exactly the seven literals are accepted. */
  function ParseStatus(w: string): (r: Option<OrderStatus>)
    ensures r.Some? <==> w in StatusLiterals
  {
    if w == "pending" then Some(Pending)
    else if w == "payment_required" then Some(PaymentRequired)
    else if w == "paid" then Some(Paid)
    else if w == "processing" then Some(Processing)
    else if w == "shipped" then Some(Shipped)
    else if w == "delivered" then Some(Delivered)
    else if w == "cancelled" then Some(Cancelled)
    else None
  }

  /** The status type is closed: it has exactly seven distinct values, and each has
      its own wire literal, which reads back as that status. */
  lemma StatusesExactlySeven(s: OrderStatus)
    ensures |AllStatuses| == 7
    ensures forall i, j :: 0 <= i < j < |AllStatuses| ==> AllStatuses[i] != AllStatuses[j]
    ensures s in AllStatuses
    ensures ParseStatus(StatusName(s)) == Some(s)
  {
    match s
    case Pending =>
    case PaymentRequired =>
    case Paid =>
    case Processing =>
    case Shipped =>
    case Delivered =>
    case Cancelled =>
  }

  /** A string is a status exactly when it is the wire literal of one. */
  lemma ParseStatusExact(w: string)
    ensures ParseStatus(w).Some? <==> exists s :: StatusName(s) == w
    ensures ParseStatus(w).Some? ==> StatusName(ParseStatus(w).value) == w
  {
    if s :| StatusName(s) == w {
      StatusesExactlySeven(s);
    }
    if ParseStatus(w).Some? {
      var t := ParseStatus(w).value;
      assert StatusName(t) == w;
    }
  }

  datatype UCPProduct = UCPProduct(
    id: string,
    name: string,
    description: Option<string>,
    price: Cents,
    currency: string,
    merchant: string,
    merchantProductId: string,
    imageUrl: Option<string>,
    productUrl: Option<string>,
    inStock: bool,
    rating: Option<real>,
    reviewCount: Option<int>)

  datatype SearchFilters = SearchFilters(
    maxPrice: Option<Cents>,
    minPrice: Option<Cents>,
    category: Option<string>,
    merchant: Option<string>)

  datatype UCPSearchQuery = UCPSearchQuery(
    query: string,
    filters: Option<SearchFilters>,
    limit: Option<int>)

  datatype UCPOrderItem = UCPOrderItem(
    productId: string,
    name: string,
    quantity: int,
    price: Cents)

  datatype Address = Address(
    name: string,
    line1: string,
    line2: Option<string>,
    city: string,
    state: string,
    zip: string,
    country: string,
    phone: Option<string>)

  datatype UCPOrder = UCPOrder(
    id: string,
    userId: Option<string>,
    products: seq<UCPOrderItem>,
    subtotal: Cents,
    shipping: Cents,
    tax: Cents,
    total: Cents,
    currency: string,
    status: OrderStatus,
    merchant: string,
    merchantOrderId: Option<string>,
    shippingAddress: Address,
    createdAt: Timestamp,
    updatedAt: Timestamp)

  datatype UCPOrderResponse = UCPOrderResponse(
    id: string,
    status: OrderStatus,
    checkoutUrl: Option<string>,
    total: Cents,
    currency: string)

  datatype SearchResponse = SearchResponse(
    success: bool,
    results: seq<UCPProduct>,
    count: int,
    timestamp: string)

  /** The literal type `false`. */
  type FalseFlag = b: bool | !b witness false

  datatype ErrorDetail = ErrorDetail(code: string, message: string, details: Option<string>)

  datatype ErrorResponse = ErrorResponse(success: FalseFlag, error: ErrorDetail)

  /** An error response never reports success. */
  lemma ErrorResponseNeverSucceeds(e: ErrorResponse)
    ensures !e.success
  {
  }

  /** A product's id is the one its merchant's adapter derives from the
      merchant-side product id: equivalently, stripping the merchant's product
      namespace from the id leaves exactly the merchant-side product id. */
  function ProductWellFormed(p: UCPProduct): (b: bool)
    ensures b <==> Ids.StripNamespace(Ids.ProductPrefix, p.merchant, p.id) == Some(p.merchantProductId)
  {
    p.id == Ids.ProductId(p.merchant, p.merchantProductId)
  }

  /** An order's id is an order id of its merchant, and when the merchant-side order
      id is recorded, it is the id derived from it: equivalently, the merchant's order
      namespace can be stripped from the id, leaving the recorded merchant-side id
      when there is one. */
  function OrderWellFormed(o: UCPOrder): (b: bool)
    ensures b <==>
              && Ids.StripNamespace(Ids.OrderPrefix, o.merchant, o.id).Some?
              && (o.merchantOrderId.Some? ==>
                    Ids.StripNamespace(Ids.OrderPrefix, o.merchant, o.id) == o.merchantOrderId)
  {
    && Ids.OrderPrefix + o.merchant + [Ids.Separator] <= o.id
    && (o.merchantOrderId.Some? ==> o.id == Ids.OrderId(o.merchant, o.merchantOrderId.value))
  }

  /** A well-formed product's id routes back to its merchant and merchant-side id. */
  lemma ProductIdRoutes(p: UCPProduct)
    requires ProductWellFormed(p) && Ids.NoSeparator(p.merchant)
    ensures Ids.ParseId(Ids.ProductPrefix, p.id) == Some(Ids.IdParts(p.merchant, p.merchantProductId))
  {
    Ids.ParseNamespaced(Ids.ProductPrefix, p.merchant, p.merchantProductId);
  }

  /** Two well-formed products with the same id come from the same merchant and
      carry the same merchant-side id. */
  lemma ProductIdDeterminesOrigin(p1: UCPProduct, p2: UCPProduct)
    requires ProductWellFormed(p1) && Ids.NoSeparator(p1.merchant)
    requires ProductWellFormed(p2) && Ids.NoSeparator(p2.merchant)
    ensures p1.id == p2.id <==>
              p1.merchant == p2.merchant && p1.merchantProductId == p2.merchantProductId
  {
    Ids.ProductIdInjective(p1.merchant, p1.merchantProductId, p2.merchant, p2.merchantProductId);
  }

  /** A well-formed order's id routes back to its merchant, and to its merchant-side
      id when that is recorded. */
  lemma OrderIdRoutes(o: UCPOrder)
    requires OrderWellFormed(o) && Ids.NoSeparator(o.merchant)
    ensures Ids.ParseId(Ids.OrderPrefix, o.id).Some?
    ensures Ids.ParseId(Ids.OrderPrefix, o.id).value.merchant == o.merchant
    ensures o.merchantOrderId.Some? ==>
              Ids.ParseId(Ids.OrderPrefix, o.id).value.local == o.merchantOrderId.value
  {
    var head := Ids.OrderPrefix + o.merchant + [Ids.Separator];
    var local := o.id[|head|..];
    assert o.id == Ids.Namespaced(Ids.OrderPrefix, o.merchant, local) by {
      assert o.id == head + local;
    }
    Ids.ParseNamespaced(Ids.OrderPrefix, o.merchant, local);
  }

  /** No well-formed product shares its id with a well-formed order. */
  lemma ProductAndOrderNeverShareId(p: UCPProduct, o: UCPOrder)
    requires ProductWellFormed(p) && OrderWellFormed(o)
    ensures p.id != o.id
  {
    assert p.id[4] == 'p';
    assert o.id[4] == 'o' by {
      assert Ids.OrderPrefix <= o.id;
    }
  }
}
