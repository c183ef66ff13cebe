/**
 * The order seed script (backend/generateOrders.js): 100 random orders,
 * each with one to three "digital" print items and one to two "offset"
 * print items stored in their own tables and linked to the order by its id.
 * Every `Math.random()` call is a draw passed in as a parameter.
 * backend/Models/Orders.js is not part of this model; the three tables are
 * assumed to receive rows whose order ids come from an auto-increment counter.
 */
module OrderSeed {
  import opened Draws
  import opened Decimals

  /** The customer first names the script draws from. */
  const FirstNames: seq<string> := [
    "احمد", "محمد", "علی", "امید", "حسین", "فرید", "رحیم", "حبیب",
    "ناصر", "سامی", "یاسین", "زبیر", "بلال", "سجاد", "مرتضی", "جاوید",
    "کریم", "مهدی", "رضا", "حسیب", "وحید", "عبدالله", "شفیق", "حمید",
    "بصیر", "فاضل", "سلیمان", "جواد", "احسان", "رفیع", "مسعود", "خالد"
  ]

  /** The customer last names the script draws from (one of them is listed twice). */
  const LastNames: seq<string> := [
    "احمدی", "علیزاده", "حسینی", "کریمی", "رحمانی", "سلطانی", "نوری", "عزیزی",
    "حسینی", "فاروقی", "خطیبی", "یوسفی", "قدیری", "صفدری", "سادات", "نظری",
    "احمدزای", "فهیمی", "رضایی", "حبیبی", "جعفری", "پپل", "سنگری", "موسوی",
    "کاظمی", "شیری", "زدران", "لطیفی", "امینی", "حقانی"
  ]

  /** The label of a digital item, before its number. */
  const DigitalLabel: string := "دیجیتال "

  /** The label of an offset item, before its number. */
  const OffsetLabel: string := "آفست "

  /** `generatePhone`: "07", one random digit, then a random seven-digit number. */
  function Phone(digitDraw: Unit, restDraw: Unit): (p: string)
    ensures |p| == 10
    ensures p[..2] == "07"
    ensures forall i :: 0 <= i < |p| ==> IsDigit(p[i])
    ensures DecimalValue(p[2..3]) == Random(0, 9, digitDraw)
    ensures DecimalValue(p[3..]) == Random(1000000, 9999999, restDraw)
  {
    var digit := Random(0, 9, digitDraw);
    var rest := Random(1000000, 9999999, restDraw);
    DecimalLength(digit, 0);
    DecimalLength(rest, 6);
    DecimalRoundTrip(digit);
    DecimalRoundTrip(rest);
    var p := "07" + Decimal(digit) + Decimal(rest);
    assert p[2..3] == Decimal(digit);
    assert p[3..] == Decimal(rest);
    p
  }

  /** The customer of an order. */
  datatype Customer = Customer(name: string, phoneNumber: string)

  /** The customer for the name and phone draws: `${first} ${last}` and a phone number. */
  function CustomerOf(firstDraw: Unit, lastDraw: Unit, digitDraw: Unit, restDraw: Unit): (c: Customer)
    ensures exists i, j :: 0 <= i < |FirstNames| && 0 <= j < |LastNames| && c.name == FirstNames[i] + " " + LastNames[j]
    ensures c.phoneNumber == Phone(digitDraw, restDraw)
  {
    var i := Random(0, |FirstNames| - 1, firstDraw);
    var j := Random(0, |LastNames| - 1, lastDraw);
    Customer(FirstNames[i] + " " + LastNames[j], Phone(digitDraw, restDraw))
  }

  /** A digital print item. */
  datatype DigitalItem = DigitalItem(name: string, quantity: int, pricePerUnit: int, money: int,
                                     height: int, area: int, weight: int)

  /** An offset print item. */
  datatype OffsetItem = OffsetItem(name: string, quantity: int, pricePerUnit: int, money: int)

  /** The draws of one digital item: price, quantity, height, area, weight. */
  datatype DigitalDraws = DigitalDraws(price: Unit, quantity: Unit, height: Unit, area: Unit, weight: Unit)

  /** The draws of one offset item: price, quantity. */
  datatype OffsetDraws = OffsetDraws(price: Unit, quantity: Unit)

  /** The digital item at index `i`. */
  function DigitalItemOf(i: nat, d: DigitalDraws): (item: DigitalItem)
    ensures item.name == DigitalLabel + Decimal(i + 1)
    ensures 100 <= item.pricePerUnit <= 500 && 1 <= item.quantity <= 5
    ensures item.money == Product(item.pricePerUnit, item.quantity)
    ensures 100 <= item.money <= 2500
    ensures 1 <= item.height <= 10 && 1 <= item.area <= 20 && 1 <= item.weight <= 5
  {
    var price := Random(100, 500, d.price);
    var quantity := Random(1, 5, d.quantity);
    ProductIsMultiplication(price, quantity);
    MulMonotone(price, 1, quantity);
    MulMonotone(quantity, price, 500);
    MulMonotone(500, quantity, 5);
    DigitalItem(DigitalLabel + Decimal(i + 1), quantity, price, Product(price, quantity),
                Random(1, 10, d.height), Random(1, 20, d.area), Random(1, 5, d.weight))
  }

  /** The offset item at index `i`. */
  function OffsetItemOf(i: nat, d: OffsetDraws): (item: OffsetItem)
    ensures item.name == OffsetLabel + Decimal(i + 1)
    ensures 200 <= item.pricePerUnit <= 600 && 1 <= item.quantity <= 3
    ensures item.money == Product(item.pricePerUnit, item.quantity)
    ensures 200 <= item.money <= 1800
  {
    var price := Random(200, 600, d.price);
    var quantity := Random(1, 3, d.quantity);
    ProductIsMultiplication(price, quantity);
    MulMonotone(price, 1, quantity);
    MulMonotone(quantity, price, 600);
    MulMonotone(600, quantity, 3);
    OffsetItem(OffsetLabel + Decimal(i + 1), quantity, price, Product(price, quantity))
  }

  /** The first `n` digital items. */
  function DigitalItems(n: nat, draws: nat -> DigitalDraws): (items: seq<DigitalItem>)
    ensures |items| == n
  {
    if n == 0 then [] else DigitalItems(n - 1, draws) + [DigitalItemOf(n - 1, draws(n - 1))]
  }

  /** The digital item at index `i` is built from the i-th draws and numbered `i + 1`. */
  lemma {:induction false} DigitalItemAt(n: nat, draws: nat -> DigitalDraws, i: nat)
    requires i < n
    ensures DigitalItems(n, draws)[i] == DigitalItemOf(i, draws(i))
  {
    if i < n - 1 {
      DigitalItemAt(n - 1, draws, i);
    }
  }

  /** The first `n` offset items. */
  function OffsetItems(n: nat, draws: nat -> OffsetDraws): (items: seq<OffsetItem>)
    ensures |items| == n
  {
    if n == 0 then [] else OffsetItems(n - 1, draws) + [OffsetItemOf(n - 1, draws(n - 1))]
  }

  /** The offset item at index `i` is built from the i-th draws and numbered `i + 1`. */
  lemma {:induction false} OffsetItemAt(n: nat, draws: nat -> OffsetDraws, i: nat)
    requires i < n
    ensures OffsetItems(n, draws)[i] == OffsetItemOf(i, draws(i))
  {
    if i < n - 1 {
      OffsetItemAt(n - 1, draws, i);
    }
  }

  /** `digital.reduce((sum, d) => sum + d.money, 0)`. */
  function DigitalMoney(items: seq<DigitalItem>): int {
    if items == [] then 0 else DigitalMoney(items[..|items| - 1]) + items[|items| - 1].money
  }

  /** `offset.reduce((sum, o) => sum + o.money, 0)`. */
  function OffsetMoney(items: seq<OffsetItem>): int {
    if items == [] then 0 else OffsetMoney(items[..|items| - 1]) + items[|items| - 1].money
  }

  /** The digital total of `n` items lies between 100 and 2500 per item. */
  lemma {:induction false} DigitalMoneyBounds(n: nat, draws: nat -> DigitalDraws)
    ensures 100 * n <= DigitalMoney(DigitalItems(n, draws)) <= 2500 * n
  {
    if n > 0 {
      DigitalMoneyBounds(n - 1, draws);
      var items := DigitalItems(n, draws);
      assert items[..n - 1] == DigitalItems(n - 1, draws);
    }
  }

  /** The offset total of `n` items lies between 200 and 1800 per item. */
  lemma {:induction false} OffsetMoneyBounds(n: nat, draws: nat -> OffsetDraws)
    ensures 200 * n <= OffsetMoney(OffsetItems(n, draws)) <= 1800 * n
  {
    if n > 0 {
      OffsetMoneyBounds(n - 1, draws);
      var items := OffsetItems(n, draws);
      assert items[..n - 1] == OffsetItems(n - 1, draws);
    }
  }

  /** All draws of one order, in the order the script makes them. */
  datatype OrderDraws = OrderDraws(
    first: Unit, last: Unit, phoneDigit: Unit, phoneRest: Unit,
    digitalCount: Unit, digital: nat -> DigitalDraws,
    offsetCount: Unit, offset: nat -> OffsetDraws,
    recip: Unit)

  /** The value `generateOrderData` returns. */
  datatype OrderData = OrderData(
    customer: Customer,
    digital: seq<DigitalItem>,
    offset: seq<OffsetItem>,
    totalMoneyDigital: int,
    totalMoneyOffset: int,
    total: int,
    digitalId: int,
    recip: int,
    remained: int)

  /**
   * `generateOrderData`: the customer, the items, their totals, and a
   * received amount between nothing and everything.
   */
  function OrderDataOf(d: OrderDraws): (o: OrderData)
    ensures 1 <= |o.digital| <= 3 && 1 <= |o.offset| <= 2
  {
    var customer := CustomerOf(d.first, d.last, d.phoneDigit, d.phoneRest);
    var digitalCount := Random(1, 3, d.digitalCount);
    var digital := DigitalItems(digitalCount, d.digital);
    var offsetCount := Random(1, 2, d.offsetCount);
    var offset := OffsetItems(offsetCount, d.offset);
    DigitalMoneyBounds(digitalCount, d.digital);
    OffsetMoneyBounds(offsetCount, d.offset);
    var totalMoneyDigital := DigitalMoney(digital);
    var totalMoneyOffset := OffsetMoney(offset);
    var total := totalMoneyDigital + totalMoneyOffset;
    var recip := Random(0, total, d.recip);
    OrderData(customer, digital, offset, totalMoneyDigital, totalMoneyOffset, total,
              totalMoneyDigital + totalMoneyOffset, recip, total - recip)
  }

  /**
   * What `generateOrderData` promises: the items are drawn as the counts say,
   * the totals add up, the digital id repeats the grand total, and the
   * received amount and the remainder both lie between nothing and the total.
   */
  lemma OrderDataFacts(d: OrderDraws)
    ensures var o := OrderDataOf(d);
      && o.digital == DigitalItems(Random(1, 3, d.digitalCount), d.digital)
      && o.offset == OffsetItems(Random(1, 2, d.offsetCount), d.offset)
      && o.totalMoneyDigital == DigitalMoney(o.digital)
      && o.totalMoneyOffset == OffsetMoney(o.offset)
      && o.total == o.totalMoneyDigital + o.totalMoneyOffset
      && o.digitalId == o.total
      && 300 <= o.total <= 11100
      && 0 <= o.recip <= o.total
      && o.remained == o.total - o.recip && 0 <= o.remained <= o.total
  {
    DigitalMoneyBounds(Random(1, 3, d.digitalCount), d.digital);
    OffsetMoneyBounds(Random(1, 2, d.offsetCount), d.offset);
  }

  /** A row of the orders table. */
  datatype OrderRow = OrderRow(id: int, data: OrderData, isDelivered: bool)

  /** A row of the digital items table: the item and the id of its order. */
  datatype DigitalRow = DigitalRow(orderId: int, item: DigitalItem)

  /** A row of the offset items table. */
  datatype OffsetRow = OffsetRow(orderId: int, item: OffsetItem)

  /** The digital rows created for order `orderId`: its items in order, each carrying the id. */
  function DigitalRows(orderId: int, items: seq<DigitalItem>): (rows: seq<DigitalRow>)
    ensures |rows| == |items|
    ensures forall k :: 0 <= k < |rows| ==> rows[k] == DigitalRow(orderId, items[k])
  {
    seq(|items|, k requires 0 <= k < |items| => DigitalRow(orderId, items[k]))
  }

  /** The offset rows created for order `orderId`. */
  function OffsetRows(orderId: int, items: seq<OffsetItem>): (rows: seq<OffsetRow>)
    ensures |rows| == |items|
    ensures forall k :: 0 <= k < |rows| ==> rows[k] == OffsetRow(orderId, items[k])
  {
    seq(|items|, k requires 0 <= k < |items| => OffsetRow(orderId, items[k]))
  }

  /** The order data the n-th iteration (from 1) generates. */
  function OrderAt(draws: nat -> OrderDraws, n: nat): OrderData {
    OrderDataOf(draws(n))
  }

  /** `Math.random() > 0.5`, the delivery flag of the n-th iteration. */
  function DeliveredAt(delivered: nat -> Unit, n: nat): bool {
    AboveHalf(delivered(n))
  }

  /** The order data of every iteration, as one function of the iteration number. */
  function Generated(draws: nat -> OrderDraws): nat -> OrderData {
    (n: nat) => OrderAt(draws, n)
  }

  /** The delivery flag of every iteration. */
  function Flags(delivered: nat -> Unit): nat -> bool {
    (n: nat) => DeliveredAt(delivered, n)
  }

  /** The orders seeded by the first `n` iterations: the i-th (from 1) gets id `firstId + i - 1`, the data `gen(i)` and the flag `flags(i)`. */
  function SeededOrders(firstId: int, n: nat, gen: nat -> OrderData, flags: nat -> bool): (rows: seq<OrderRow>)
    ensures |rows| == n
  {
    if n == 0 then []
    else SeededOrders(firstId, n - 1, gen, flags)
         + [OrderRow(firstId + n - 1, gen(n), flags(n))]
  }

  /** The k-th seeded order (from 0) gets id `firstId + k`, from the i-th draws with i = k + 1. */
  lemma {:induction false} SeededOrderAt(firstId: int, n: nat, gen: nat -> OrderData, flags: nat -> bool, k: nat)
    requires k < n
    ensures SeededOrders(firstId, n, gen, flags)[k]
            == OrderRow(firstId + k, gen(k + 1), flags(k + 1))
  {
    if k < n - 1 {
      SeededOrderAt(firstId, n - 1, gen, flags, k);
    }
  }

  /** The digital rows of a list of orders: each order's items in turn, each carrying the order's id. */
  function DigitalsOf(orders: seq<OrderRow>): seq<DigitalRow> {
    if orders == [] then []
    else
      var last := orders[|orders| - 1];
      DigitalsOf(orders[..|orders| - 1]) + DigitalRows(last.id, last.data.digital)
  }

  /** The offset rows of a list of orders. */
  function OffsetsOf(orders: seq<OrderRow>): seq<OffsetRow> {
    if orders == [] then []
    else
      var last := orders[|orders| - 1];
      OffsetsOf(orders[..|orders| - 1]) + OffsetRows(last.id, last.data.offset)
  }

  /** One more iteration appends one order. */
  lemma SeededOrdersStep(firstId: int, n: nat, gen: nat -> OrderData, flags: nat -> bool)
    ensures SeededOrders(firstId, n + 1, gen, flags)
            == SeededOrders(firstId, n, gen, flags) + [OrderRow(firstId + n, gen(n + 1), flags(n + 1))]
  {
  }

  lemma AppendAssociates<T>(a: seq<T>, b: seq<T>, c: seq<T>)
    ensures a + b + c == a + (b + c)
  {
  }

  /** Appending an order appends its digital rows. */
  lemma DigitalsOfAppend(orders: seq<OrderRow>, o: OrderRow)
    ensures DigitalsOf(orders + [o]) == DigitalsOf(orders) + DigitalRows(o.id, o.data.digital)
  {
    assert (orders + [o])[..|orders|] == orders;
  }

  /** Appending an order appends its offset rows. */
  lemma OffsetsOfAppend(orders: seq<OrderRow>, o: OrderRow)
    ensures OffsetsOf(orders + [o]) == OffsetsOf(orders) + OffsetRows(o.id, o.data.offset)
  {
    assert (orders + [o])[..|orders|] == orders;
  }

  /**
   * One iteration of the seeding loop, on the three tables as values: from
   * the first `i` iterations' rows plus the next order's rows to the first
   * `i + 1` iterations' rows.
   */
  lemma SeedStep(orders0: seq<OrderRow>, digitals0: seq<DigitalRow>, offsets0: seq<OffsetRow>,
                 firstId: int, i: nat, gen: nat -> OrderData, flags: nat -> bool,
                 orders: seq<OrderRow>, digitals: seq<DigitalRow>, offsets: seq<OffsetRow>)
    requires orders == orders0 + SeededOrders(firstId, i, gen, flags) + [OrderRow(firstId + i, gen(i + 1), flags(i + 1))]
    requires digitals == digitals0 + DigitalsOf(SeededOrders(firstId, i, gen, flags)) + DigitalRows(firstId + i, gen(i + 1).digital)
    requires offsets == offsets0 + OffsetsOf(SeededOrders(firstId, i, gen, flags)) + OffsetRows(firstId + i, gen(i + 1).offset)
    ensures orders == orders0 + SeededOrders(firstId, i + 1, gen, flags)
    ensures digitals == digitals0 + DigitalsOf(SeededOrders(firstId, i + 1, gen, flags))
    ensures offsets == offsets0 + OffsetsOf(SeededOrders(firstId, i + 1, gen, flags))
  {
    var before := SeededOrders(firstId, i, gen, flags);
    var row := OrderRow(firstId + i, gen(i + 1), flags(i + 1));
    SeededOrdersStep(firstId, i, gen, flags);
    DigitalsOfAppend(before, row);
    OffsetsOfAppend(before, row);
    AppendAssociates(orders0, before, [row]);
    AppendAssociates(digitals0, DigitalsOf(before), DigitalRows(row.id, row.data.digital));
    AppendAssociates(offsets0, OffsetsOf(before), OffsetRows(row.id, row.data.offset));
  }

  /** Every digital row of a list of orders points at one of those orders. */
  lemma {:induction false} DigitalsPointAtOrders(orders: seq<OrderRow>, r: DigitalRow)
    requires r in DigitalsOf(orders)
    ensures exists k :: 0 <= k < |orders| && orders[k].id == r.orderId
  {
    assert orders != [];
    var init := orders[..|orders| - 1];
    if r in DigitalsOf(init) {
      DigitalsPointAtOrders(init, r);
      var k :| 0 <= k < |init| && init[k].id == r.orderId;
      assert orders[k] == init[k];
    } else {
      assert r in DigitalRows(orders[|orders| - 1].id, orders[|orders| - 1].data.digital);
      assert orders[|orders| - 1].id == r.orderId;
    }
  }

  /** Every offset row of a list of orders points at one of those orders. */
  lemma {:induction false} OffsetsPointAtOrders(orders: seq<OrderRow>, r: OffsetRow)
    requires r in OffsetsOf(orders)
    ensures exists k :: 0 <= k < |orders| && orders[k].id == r.orderId
  {
    assert orders != [];
    var init := orders[..|orders| - 1];
    if r in OffsetsOf(init) {
      OffsetsPointAtOrders(init, r);
      var k :| 0 <= k < |init| && init[k].id == r.orderId;
      assert orders[k] == init[k];
    } else {
      assert r in OffsetRows(orders[|orders| - 1].id, orders[|orders| - 1].data.offset);
      assert orders[|orders| - 1].id == r.orderId;
    }
  }

  /** An item row of the seeded orders carries the id of one of the `n` orders seeded with it. */
  lemma SeededItemsPointAtSeededOrders(firstId: int, n: nat, gen: nat -> OrderData, flags: nat -> bool)
    ensures forall r :: r in DigitalsOf(SeededOrders(firstId, n, gen, flags)) ==> firstId <= r.orderId < firstId + n
    ensures forall r :: r in OffsetsOf(SeededOrders(firstId, n, gen, flags)) ==> firstId <= r.orderId < firstId + n
  {
    var orders := SeededOrders(firstId, n, gen, flags);
    forall r | r in DigitalsOf(orders) ensures firstId <= r.orderId < firstId + n {
      DigitalsPointAtOrders(orders, r);
      var k :| 0 <= k < |orders| && orders[k].id == r.orderId;
      SeededOrderAt(firstId, n, gen, flags, k);
    }
    forall r | r in OffsetsOf(orders) ensures firstId <= r.orderId < firstId + n {
      OffsetsPointAtOrders(orders, r);
      var k :| 0 <= k < |orders| && orders[k].id == r.orderId;
      SeededOrderAt(firstId, n, gen, flags, k);
    }
  }

  /**
   * The k-th order `seedOrders` writes (from 0) has id `firstId + k`, the
   * data `generateOrderData` makes from the (k + 1)-th draws, a grand total
   * between 300 and 11100 and a remainder between nothing and that total.
   */
  lemma SeededOrderFromDraws(firstId: int, n: nat, draws: nat -> OrderDraws, delivered: nat -> Unit, k: nat)
    requires k < n
    ensures var row := SeededOrders(firstId, n, Generated(draws), Flags(delivered))[k];
      && row.id == firstId + k
      && row.data == OrderDataOf(draws(k + 1))
      && row.isDelivered == AboveHalf(delivered(k + 1))
      && 300 <= row.data.total <= 11100
      && 0 <= row.data.remained <= row.data.total
  {
    SeededOrderAt(firstId, n, Generated(draws), Flags(delivered), k);
    OrderDataFacts(draws(k + 1));
  }

  /** The number of orders `seedOrders` creates. */
  const OrderCount: int := 100

  /** The orders, digital items and offset items tables. */
  class OrderTables {
    var orders: seq<OrderRow>
    var digitals: seq<DigitalRow>
    var offsets: seq<OffsetRow>
    var nextOrderId: int

    /** Ids are below the counter, and every item row points at an existing order. */
    ghost predicate Valid()
      reads this
    {
      && (forall k :: 0 <= k < |orders| ==> orders[k].id < nextOrderId)
      && (forall r :: r in digitals ==> exists k :: 0 <= k < |orders| && orders[k].id == r.orderId)
      && (forall r :: r in offsets ==> exists k :: 0 <= k < |orders| && orders[k].id == r.orderId)
    }

    /** Empty tables. */
    constructor ()
      ensures Valid()
      ensures orders == [] && digitals == [] && offsets == []
    {
      orders, digitals, offsets := [], [], [];
      nextOrderId := 1;
    }

    /** `Order.create(...)`: appends the order under the next id and returns that id. */
    method CreateOrder(data: OrderData, isDelivered: bool) returns (id: int)
      requires Valid()
      modifies this
      ensures Valid()
      ensures id == old(nextOrderId) && nextOrderId == id + 1
      ensures orders == old(orders) + [OrderRow(id, data, isDelivered)]
      ensures digitals == old(digitals) && offsets == old(offsets)
    {
      id := nextOrderId;
      orders := orders + [OrderRow(id, data, isDelivered)];
      nextOrderId := nextOrderId + 1;
      forall r | r in digitals ensures exists k :: 0 <= k < |orders| && orders[k].id == r.orderId {
        var k :| 0 <= k < |old(orders)| && old(orders)[k].id == r.orderId;
        assert orders[k] == old(orders)[k];
      }
      forall r | r in offsets ensures exists k :: 0 <= k < |orders| && orders[k].id == r.orderId {
        var k :| 0 <= k < |old(orders)| && old(orders)[k].id == r.orderId;
        assert orders[k] == old(orders)[k];
      }
    }

    /**
     * One iteration of `seedOrders`: creates the order, then each digital item
     * and each offset item with the new order's id.
     */
    method SeedOrder(data: OrderData, isDelivered: bool) returns (orderId: int)
      requires Valid()
      modifies this
      ensures Valid()
      ensures orderId == old(nextOrderId) && nextOrderId == orderId + 1
      ensures orders == old(orders) + [OrderRow(orderId, data, isDelivered)]
      ensures digitals == old(digitals) + DigitalRows(orderId, data.digital)
      ensures offsets == old(offsets) + OffsetRows(orderId, data.offset)
    {
      orderId := CreateOrder(data, isDelivered);
      assert orders[|orders| - 1].id == orderId;
      var j := 0;
      while j < |data.digital|
        invariant 0 <= j <= |data.digital|
        invariant Valid() && 0 < |orders| && orders[|orders| - 1].id == orderId
        invariant orders == old(orders) + [OrderRow(orderId, data, isDelivered)]
        invariant nextOrderId == orderId + 1 && offsets == old(offsets)
        invariant digitals == old(digitals) + DigitalRows(orderId, data.digital[..j])
      {
        digitals := digitals + [DigitalRow(orderId, data.digital[j])];
        assert data.digital[..j + 1] == data.digital[..j] + [data.digital[j]];
        j := j + 1;
      }
      assert data.digital[..j] == data.digital;
      j := 0;
      while j < |data.offset|
        invariant 0 <= j <= |data.offset|
        invariant Valid() && 0 < |orders| && orders[|orders| - 1].id == orderId
        invariant orders == old(orders) + [OrderRow(orderId, data, isDelivered)]
        invariant nextOrderId == orderId + 1
        invariant digitals == old(digitals) + DigitalRows(orderId, data.digital)
        invariant offsets == old(offsets) + OffsetRows(orderId, data.offset[..j])
      {
        offsets := offsets + [OffsetRow(orderId, data.offset[j])];
        assert data.offset[..j + 1] == data.offset[..j] + [data.offset[j]];
        j := j + 1;
      }
      assert data.offset[..j] == data.offset;
    }

    /**
     * The loop of `seedOrders`: 100 iterations, the i-th (from 1) seeding the
     * order data `gen(i)` with delivery flag `flags(i)`.
     */
    method SeedGenerated(gen: nat -> OrderData, flags: nat -> bool)
      requires Valid()
      modifies this
      ensures Valid()
      ensures nextOrderId == old(nextOrderId) + OrderCount
      ensures orders == old(orders) + SeededOrders(old(nextOrderId), OrderCount, gen, flags)
      ensures digitals == old(digitals) + DigitalsOf(SeededOrders(old(nextOrderId), OrderCount, gen, flags))
      ensures offsets == old(offsets) + OffsetsOf(SeededOrders(old(nextOrderId), OrderCount, gen, flags))
    {
      ghost var first, orders0, digitals0, offsets0 := nextOrderId, orders, digitals, offsets;
      var i := 0;
      while i < OrderCount
        invariant 0 <= i <= OrderCount
        invariant Valid()
        invariant nextOrderId == first + i
        invariant orders == orders0 + SeededOrders(first, i, gen, flags)
        invariant digitals == digitals0 + DigitalsOf(SeededOrders(first, i, gen, flags))
        invariant offsets == offsets0 + OffsetsOf(SeededOrders(first, i, gen, flags))
      {
        var orderId := SeedOrder(gen(i + 1), flags(i + 1));
        SeedStep(orders0, digitals0, offsets0, first, i, gen, flags, orders, digitals, offsets);
        i := i + 1;
      }
    }

    /**
     * `seedOrders`: each iteration generates its order data from its own
     * draws (`generateOrderData`) and a delivery flag (`Math.random() > 0.5`).
     * Every item row of the seeded orders points at one of them (see
     * `SeededItemsPointAtSeededOrders`).
     */
    method SeedOrders(draws: nat -> OrderDraws, delivered: nat -> Unit)
      requires Valid()
      modifies this
      ensures Valid()
      ensures nextOrderId == old(nextOrderId) + OrderCount
      ensures orders == old(orders) + SeededOrders(old(nextOrderId), OrderCount, Generated(draws), Flags(delivered))
      ensures digitals == old(digitals) + DigitalsOf(SeededOrders(old(nextOrderId), OrderCount, Generated(draws), Flags(delivered)))
      ensures offsets == old(offsets) + OffsetsOf(SeededOrders(old(nextOrderId), OrderCount, Generated(draws), Flags(delivered)))
    {
      SeedGenerated(Generated(draws), Flags(delivered));
    }
  }
}
