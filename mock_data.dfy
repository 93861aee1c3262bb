/**
 * The in-memory order store of lib/mock-data.ts: the Order and OrderItem
 * records, the eight seed orders, first-match lookup by id, and order
 * creation, which prepends a record whose id is "ORD-" followed by the
 * decimal form of a number drawn from [0, 10000).
 *
 * Money is in integer cents. The random draw and the two clock readings of
 * creation are parameters of CreateOrder.
 */
module MockData {
  import opened Wrappers
  import opened NumberFormat

  datatype OrderStatus = Pending | Processing | Completed | Failed

  /** One line of an order; price is the unit price in cents. */
  datatype OrderItem = OrderItem(productId: string, productName: string, quantity: int, price: int)

  datatype Order = Order(
    orderId: string,
    userId: string,
    customerName: string,
    customerEmail: string,
    items: seq<OrderItem>,
    totalAmount: int,
    status: OrderStatus,
    createdAt: string,
    updatedAt: string,
    processingTime: Option<int>)

  /** What a caller hands to creation: an Order without its id and timestamps. */
  datatype OrderData = OrderData(
    userId: string,
    customerName: string,
    customerEmail: string,
    items: seq<OrderItem>,
    totalAmount: int,
    status: OrderStatus,
    processingTime: Option<int>)

  function Subtotal(item: OrderItem): int {
    item.quantity * item.price
  }

  /** The sum of quantity x price over the items, first item first. */
  function ItemsTotal(items: seq<OrderItem>): int {
    if items == [] then 0 else Subtotal(items[0]) + ItemsTotal(items[1..])
  }

  /** The fields a caller supplied, read back from a complete order. */
  function DataOf(o: Order): OrderData {
    OrderData(o.userId, o.customerName, o.customerEmail, o.items, o.totalAmount, o.status, o.processingTime)
  }

  /** The spread `{ ...orderData, order_id, created_at, updated_at }`. */
  function Complete(data: OrderData, orderId: string, createdAt: string, updatedAt: string): (o: Order)
    ensures DataOf(o) == data
    ensures o.orderId == orderId && o.createdAt == createdAt && o.updatedAt == updatedAt
  {
    Order(orderId, data.userId, data.customerName, data.customerEmail, data.items,
          data.totalAmount, data.status, createdAt, updatedAt, data.processingTime)
  }

  /** The id template `ORD-${n}`. */
  function FormatOrderId(n: nat): string {
    "ORD-" + Decimal(n)
  }

  /** "ORD-" followed by one to four decimal digits. */
  predicate IsOrderIdPattern(s: string) {
    && 5 <= |s| <= 8
    && s[..4] == "ORD-"
    && AllDigits(s[4..])
  }

  /** The number an id of the pattern carries, or None for any other string. */
  function ParseOrderId(s: string): Option<nat> {
    if IsOrderIdPattern(s) then Some(ParseDecimal(s[4..])) else None
  }

  /**
   * Every id creation can produce has the pattern, carries n back, and is
   * not zero-padded (only n = 0 gives a leading zero, as "ORD-0").
   */
  lemma FormatOrderIdShape(n: nat)
    requires n < 10000
    ensures IsOrderIdPattern(FormatOrderId(n))
    ensures ParseOrderId(FormatOrderId(n)) == Some(n)
    ensures FormatOrderId(n)[4] == '0' <==> n == 0
  {
    var id := FormatOrderId(n);
    assert id[..4] == "ORD-";
    assert id[4..] == Decimal(n);
    DecimalLength(n, 4);
    assert Pow10(4) == 10000;
    ParseDecimalOfDecimal(n);
    DecimalNoLeadingZero(n);
  }

  /** Distinct draws give distinct ids, so the id determines the draw. */
  lemma FormatOrderIdInjective(m: nat, n: nat)
    requires m < 10000 && n < 10000
    requires FormatOrderId(m) == FormatOrderId(n)
    ensures m == n
  {
    FormatOrderIdShape(m);
    FormatOrderIdShape(n);
  }

  /** The index of the first order whose id is `id` (Array.prototype.find). */
  function FindFirst(orders: seq<Order>, id: string): (r: Option<nat>)
    ensures r.Some? ==> r.value < |orders| && orders[r.value].orderId == id
    ensures r.Some? ==> forall j :: 0 <= j < r.value ==> orders[j].orderId != id
    ensures r.None? <==> forall j :: 0 <= j < |orders| ==> orders[j].orderId != id
  {
    if orders == [] then None
    else if orders[0].orderId == id then Some(0)
    else match FindFirst(orders[1..], id)
      case None => None
      case Some(k) => Some(k + 1)
  }

  /** Looking up in a prepended collection sees the new head first, else the old answer. */
  lemma FindFirstAfterPrepend(o: Order, orders: seq<Order>, id: string)
    ensures FindFirst([o] + orders, id)
         == if o.orderId == id then Some(0)
            else match FindFirst(orders, id)
              case None => None
              case Some(k) => Some(k + 1)
  {
    assert ([o] + orders)[1..] == orders;
  }

  /**
   * No uniqueness check: when the new id equals an id already stored, the
   * older record becomes unreachable by lookup, because the new one is found first.
   */
  lemma CollidingIdShadowsOlder(o: Order, orders: seq<Order>, i: nat)
    requires i < |orders| && orders[i].orderId == o.orderId
    ensures FindFirst(orders, o.orderId).Some?
    ensures FindFirst([o] + orders, o.orderId) == Some(0)
  {
    FindFirstAfterPrepend(o, orders, o.orderId);
  }

  /** The eight orders the module starts with (prices in cents). */
  function SeedOrders(): seq<Order> {
    [ Order("ORD-2847", "USR-1001", "Sarah Johnson", "sarah.j@example.com",
            [OrderItem("PROD-001", "Wireless Headphones", 1, 12999),
             OrderItem("PROD-002", "USB-C Cable", 2, 1999)],
            16997, Completed, "2025-10-07T14:23:00Z", "2025-10-07T14:23:15Z", Some(142)),
      Order("ORD-2846", "USR-1002", "Michael Chen", "m.chen@example.com",
            [OrderItem("PROD-003", "Laptop Stand", 1, 4999)],
            4999, Completed, "2025-10-07T14:18:00Z", "2025-10-07T14:18:12Z", Some(128)),
      Order("ORD-2845", "USR-1003", "Emily Rodriguez", "emily.r@example.com",
            [OrderItem("PROD-004", "Mechanical Keyboard", 1, 15999)],
            15999, Failed, "2025-10-07T14:11:00Z", "2025-10-07T14:11:05Z", None),
      Order("ORD-2844", "USR-1004", "David Kim", "david.k@example.com",
            [OrderItem("PROD-005", "Monitor 27\"", 1, 29999),
             OrderItem("PROD-006", "HDMI Cable", 1, 1499)],
            31498, Completed, "2025-10-07T14:05:00Z", "2025-10-07T14:05:18Z", Some(156)),
      Order("ORD-2843", "USR-1005", "Jessica Taylor", "j.taylor@example.com",
            [OrderItem("PROD-007", "Wireless Mouse", 2, 3999)],
            7998, Completed, "2025-10-07T13:58:00Z", "2025-10-07T13:58:11Z", Some(135)),
      Order("ORD-2842", "USR-1006", "Robert Martinez", "r.martinez@example.com",
            [OrderItem("PROD-008", "Desk Lamp", 1, 3499)],
            3499, Processing, "2025-10-07T13:52:00Z", "2025-10-07T13:52:08Z", None),
      Order("ORD-2841", "USR-1007", "Amanda White", "a.white@example.com",
            [OrderItem("PROD-009", "Webcam HD", 1, 8999),
             OrderItem("PROD-010", "Microphone", 1, 6999)],
            15998, Pending, "2025-10-07T13:45:00Z", "2025-10-07T13:45:00Z", None),
      Order("ORD-2840", "USR-1008", "Christopher Lee", "c.lee@example.com",
            [OrderItem("PROD-011", "External SSD 1TB", 1, 11999)],
            11999, Completed, "2025-10-07T13:38:00Z", "2025-10-07T13:38:14Z", Some(145))
    ]
  }

  /** The seed has eight orders, no two with the same id, each "ORD-" followed by digits. */
  lemma SeedOrderIds()
    ensures |SeedOrders()| == 8
    ensures forall i, j :: 0 <= i < j < 8 ==> SeedOrders()[i].orderId != SeedOrders()[j].orderId
    ensures forall i :: 0 <= i < 8 ==> IsOrderIdPattern(SeedOrders()[i].orderId)
  {
  }

  /** Every seed order's total is the sum of its item subtotals. */
  lemma SeedTotalsMatchItems()
    ensures forall i :: 0 <= i < |SeedOrders()| ==> SeedOrders()[i].totalAmount == ItemsTotal(SeedOrders()[i].items)
  {
  }

  /** The module-level `mockOrders` array, owned by one store object. */
  class OrderStore {
    var orders: seq<Order>

    constructor ()
      ensures orders == SeedOrders()
    {
      orders := SeedOrders();
    }

    /** getOrders: the collection itself, in its current order. */
    function GetOrders(): (r: seq<Order>)
      reads this
      ensures r == orders
    {
      orders
    }

    /** getOrderById: the first record with that id, or None when there is none. */
    function GetOrderById(id: string): (r: Option<Order>)
      reads this
      ensures r.Some? ==> r.value.orderId == id && r.value in orders
      ensures r.Some? ==> exists k :: 0 <= k < |orders| && orders[k] == r.value
                                      && forall j :: 0 <= j < k ==> orders[j].orderId != id
      ensures r.None? <==> forall j :: 0 <= j < |orders| ==> orders[j].orderId != id
    {
      match FindFirst(orders, id)
      case None => None
      case Some(k) => Some(orders[k])
    }

    /**
     * createOrder: builds the record from `data`, the drawn number `n`
     * (the id is "ORD-" + n) and the two clock readings, puts it at the
     * front of the collection and returns it.
     */
    method CreateOrder(data: OrderData, n: nat, createdAt: string, updatedAt: string) returns (o: Order)
      requires n < 10000
      modifies this
      ensures o == Complete(data, FormatOrderId(n), createdAt, updatedAt)
      ensures orders == [o] + old(orders)
      ensures |orders| == |old(orders)| + 1
      ensures forall i :: 0 <= i < |old(orders)| ==> orders[i + 1] == old(orders)[i]
      ensures GetOrderById(o.orderId) == Some(o)
      ensures forall id :: id != o.orderId ==> GetOrderById(id) == old(GetOrderById(id))
    {
      o := Complete(data, FormatOrderId(n), createdAt, updatedAt);
      orders := [o] + orders;
      forall id | id != o.orderId
        ensures GetOrderById(id) == old(GetOrderById(id))
      {
        FindFirstAfterPrepend(o, old(orders), id);
      }
    }
  }

  /** The store starts with the seed, finds "ORD-2847" (Sarah Johnson) and does not find "NOPE". */
  method SeedLookups() returns (hit: Option<Order>, miss: Option<Order>, count: nat)
    ensures count == 8
    ensures hit.Some? && hit.value.customerName == "Sarah Johnson" && hit.value == SeedOrders()[0]
    ensures miss == None
  {
    var store := new OrderStore();
    count := |store.GetOrders()|;
    hit := store.GetOrderById("ORD-2847");
    miss := store.GetOrderById("NOPE");
  }

  /** One creation on the seed: nine orders, the new one first and found by its id. */
  method CreateOnSeed(data: OrderData, n: nat, createdAt: string, updatedAt: string)
    returns (o: Order, all: seq<Order>)
    requires n < 10000
    ensures |all| == 9 && all[0] == o && all[1..] == SeedOrders()
    ensures DataOf(o) == data && IsOrderIdPattern(o.orderId)
  {
    var store := new OrderStore();
    o := store.CreateOrder(data, n, createdAt, updatedAt);
    all := store.GetOrders();
    FormatOrderIdShape(n);
  }
}
