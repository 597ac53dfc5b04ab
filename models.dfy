/** The shop's persistent entities: products, the order status enumeration,
    orders with their line items, the order price computation, and the two
    order tables. Decimal amounts are integer cents. */
module Models {
  import opened Wrappers

  type Slug = string

  /** A catalog product; its price is in cents. */
  datatype Product = Product(name: string, slug: Slug, price: int, available: bool)

  /** Slugs are a unique column of the product table. */
  predicate UniqueSlugs(products: seq<Product>) {
    forall i, j :: 0 <= i < j < |products| ==> products[i].slug != products[j].slug
  }

  /** The product with the given slug, if the table holds one. */
  function FindProduct(products: seq<Product>, slug: Slug): (r: Option<Product>)
    ensures r.Some? ==> r.value in products && r.value.slug == slug
    ensures r.None? <==> forall p :: p in products ==> p.slug != slug
  {
    if products == [] then None
    else if products[0].slug == slug then Some(products[0])
    else FindProduct(products[1..], slug)
  }

  /** Because slugs are unique, a slug resolves to exactly the product that carries it. */
  lemma {:induction false} SlugResolvesToItsProduct(products: seq<Product>, p: Product)
    requires UniqueSlugs(products) && p in products
    ensures FindProduct(products, p.slug) == Some(p)
  {
    if products[0] != p {
      var k :| 0 <= k < |products| && products[k] == p;
      assert k > 0 && products[0].slug != products[k].slug;
      assert products[1..][k - 1] == p;
      assert UniqueSlugs(products[1..]) by {
        forall i, j | 0 <= i < j < |products[1..]|
          ensures products[1..][i].slug != products[1..][j].slug
        {
          assert products[1..][i] == products[i + 1] && products[1..][j] == products[j + 1];
        }
      }
      SlugResolvesToItsProduct(products[1..], p);
    }
  }

  /** The path an uploaded product image is stored under: it depends on the
      product's slug only, never on the uploaded file's name. */
  function ImageUploadPath(slug: Slug, filename: string): (path: string)
    ensures |path| == |slug| + 11
    ensures path[..7] == "images/" && path[|path| - 4..] == ".png"
    ensures path[7..|path| - 4] == slug
  {
    "images/" + slug + ".png"
  }

  /** Two uploads share a path exactly when their products share a slug. */
  lemma ImagePathIdentifiesSlug(slug1: Slug, name1: string, slug2: Slug, name2: string)
    ensures ImageUploadPath(slug1, name1) == ImageUploadPath(slug2, name2) <==> slug1 == slug2
  {
    if ImageUploadPath(slug1, name1) == ImageUploadPath(slug2, name2) {
      var path := ImageUploadPath(slug1, name1);
      assert slug1 == path[7..|path| - 4] == slug2;
    }
  }

  /** Order.Status, an integer choice field. */
  datatype Status = Waiting | Processing | Done | Canceled

  const DEFAULT_STATUS: Status := Waiting

  /** The integer the status column stores for a status. */
  function StatusValue(s: Status): (v: int)
    ensures 0 <= v <= 3
  {
    match s
    case Waiting => 0
    case Processing => 1
    case Done => 2
    case Canceled => 3
  }

  /** The status a stored integer denotes; only 0 to 3 are choices. */
  function StatusFromValue(v: int): (r: Option<Status>)
    ensures r.Some? <==> 0 <= v <= 3
    ensures r.Some? ==> StatusValue(r.value) == v
  {
    if v == 0 then Some(Waiting)
    else if v == 1 then Some(Processing)
    else if v == 2 then Some(Done)
    else if v == 3 then Some(Canceled)
    else None
  }

  lemma StatusRoundTrip(s: Status)
    ensures StatusFromValue(StatusValue(s)) == Some(s)
  {
  }

  /** The buyer's fields of an order, the only ones the order form fills in;
      a comment left blank is stored as the empty string. */
  datatype Contact = Contact(firstName: string, lastName: string, email: string,
                             phone: string, comment: string)

  /** An order row; price is None until checkout computes it. */
  datatype Order = Order(id: nat, contact: Contact, price: Option<int>, status: Status)

  /** The row an order form saves: model defaults for everything it does not supply. */
  function NewOrder(id: nat, contact: Contact): (o: Order)
    ensures o.id == id && o.contact == contact
    ensures o.status == Waiting && o.price == None
  {
    Order(id, contact, None, DEFAULT_STATUS)
  }

  /** An OrderItems row: one product of one order, with its quantity. */
  datatype OrderItem = OrderItem(item: Product, order: nat, quantity: nat)

  function LinePrice(row: OrderItem): int {
    row.item.price * row.quantity
  }

  /** The sum of price times quantity over the rows. */
  function SumLines(rows: seq<OrderItem>): (total: int)
    ensures rows == [] ==> total == 0
    ensures (forall k :: 0 <= k < |rows| ==> rows[k].item.price >= 0) ==> total >= 0
  {
    if rows == [] then 0
    else
      var last := rows[|rows| - 1];
      assert last.item.price >= 0 ==> LinePrice(last) >= 0 by {
        if last.item.price >= 0 { NonNegativeProduct(last.item.price, last.quantity); }
      }
      SumLines(rows[..|rows| - 1]) + LinePrice(last)
  }

  lemma NonNegativeProduct(a: int, b: nat)
    requires a >= 0
    ensures a * b >= 0
  {
  }

  lemma {:induction false} SumLinesAppend(a: seq<OrderItem>, b: seq<OrderItem>)
    ensures SumLines(a + b) == SumLines(a) + SumLines(b)
    decreases |b|
  {
    if b == [] {
      assert a + b == a;
    } else {
      var b' := b[..|b| - 1];
      assert (a + b)[..|a + b| - 1] == a + b';
      SumLinesAppend(a, b');
    }
  }

  /** The rows of the OrderItems table that belong to order id. */
  function RowsOf(table: seq<OrderItem>, id: nat): (rows: seq<OrderItem>)
    ensures forall row :: row in rows <==> row in table && row.order == id
    ensures |rows| <= |table|
  {
    if table == [] then []
    else RowsOf(table[..|table| - 1], id)
         + (if table[|table| - 1].order == id then [table[|table| - 1]] else [])
  }

  lemma {:induction false} RowsOfNone(table: seq<OrderItem>, id: nat)
    requires forall row :: row in table ==> row.order != id
    ensures RowsOf(table, id) == []
    decreases |table|
  {
    if table != [] {
      var init := table[..|table| - 1];
      assert table == init + [table[|table| - 1]];
      forall row | row in init ensures row.order != id {
        assert row in table;
      }
      RowsOfNone(init, id);
    }
  }

  lemma {:induction false} RowsOfAll(table: seq<OrderItem>, id: nat)
    requires forall row :: row in table ==> row.order == id
    ensures RowsOf(table, id) == table
    decreases |table|
  {
    if table != [] {
      var init := table[..|table| - 1];
      assert table == init + [table[|table| - 1]];
      forall row | row in init ensures row.order == id {
        assert row in table;
      }
      RowsOfAll(init, id);
    }
  }

  lemma {:induction false} RowsOfAppend(a: seq<OrderItem>, b: seq<OrderItem>, id: nat)
    ensures RowsOf(a + b, id) == RowsOf(a, id) + RowsOf(b, id)
    decreases |b|
  {
    if b == [] {
      assert a + b == a;
    } else {
      var b' := b[..|b| - 1];
      assert (a + b)[..|a + b| - 1] == a + b';
      RowsOfAppend(a, b', id);
    }
  }

  /** Order.calc_price as its author intended: the price of one order is the
      sum over that order's line items, and 0 when it has none. */
  function CalcPrice(table: seq<OrderItem>, id: nat): (price: int)
    ensures (forall row :: row in table ==> row.order != id) ==> price == 0
  {
    var rows := RowsOf(table, id);
    assert (forall row :: row in table ==> row.order != id) ==> rows == [] by {
      if forall row :: row in table ==> row.order != id { RowsOfNone(table, id); }
    }
    SumLines(rows)
  }

  /** Rows of other orders never change an order's price. */
  lemma {:induction false} CalcPriceIgnoresOtherOrders(table: seq<OrderItem>, others: seq<OrderItem>, id: nat)
    requires forall row :: row in others ==> row.order != id
    ensures CalcPrice(table + others, id) == CalcPrice(table, id)
    ensures CalcPrice(others + table, id) == CalcPrice(table, id)
  {
    RowsOfAppend(table, others, id);
    RowsOfAppend(others, table, id);
    RowsOfNone(others, id);
    assert RowsOf(table, id) + [] == RowsOf(table, id) == [] + RowsOf(table, id);
  }

  /** Once the rows of a new order are appended to a table that knew nothing
      of it, those rows are the order's rows and give its price. */
  lemma NewOrderRows(table: seq<OrderItem>, added: seq<OrderItem>, id: nat)
    requires forall row :: row in table ==> row.order != id
    requires forall row :: row in added ==> row.order == id
    ensures RowsOf(table + added, id) == added
    ensures CalcPrice(table + added, id) == SumLines(added)
  {
    RowsOfAppend(table, added, id);
    RowsOfNone(table, id);
    RowsOfAll(added, id);
    assert [] + added == added;
  }

  /** Order.calc_price as written: the sum over every row of the OrderItems
      table, whichever order the row belongs to. */
  function CalcPriceAsWritten(table: seq<OrderItem>): (price: int)
    ensures (forall k :: 0 <= k < |table| ==> table[k].item.price >= 0) ==> price >= 0
  {
    SumLines(table)
  }

  /** The written price equals the per-order price when every row of the
      table belongs to that one order. */
  lemma {:induction false} CalcPriceAsWrittenAgreesOnOneOrder(table: seq<OrderItem>, id: nat)
    requires forall row :: row in table ==> row.order == id
    ensures CalcPriceAsWritten(table) == CalcPrice(table, id)
  {
    RowsOfAll(table, id);
  }

  /** With a line of order 1 already in the table, the written price of
      order 2 (one line of 2 x 2.00) comes out as 8.50 instead of 4.00. */
  lemma CalcPriceAsWrittenCountsOtherOrders()
    ensures var a := Product("A", "a", 150, true);
            var b := Product("B", "b", 200, true);
            var table := [OrderItem(a, 1, 3), OrderItem(b, 2, 2)];
            CalcPriceAsWritten(table) == 850 && CalcPrice(table, 2) == 400
  {
    var a := Product("A", "a", 150, true);
    var b := Product("B", "b", 200, true);
    var table := [OrderItem(a, 1, 3), OrderItem(b, 2, 2)];
    assert table[..1] == [OrderItem(a, 1, 3)];
    assert table[..1][..0] == [];
    assert RowsOf(table[..1], 2) == [];
    assert RowsOf(table, 2) == [OrderItem(b, 2, 2)];
    assert [OrderItem(b, 2, 2)][..0] == [];
  }

  /** Which calc_price prices an order: the one as written, over the whole
      OrderItems table, or the intended one, over the order's own rows. */
  datatype Pricing = WholeTable | PerOrder

  function OrderPrice(pricing: Pricing, table: seq<OrderItem>, id: nat): int {
    match pricing
    case WholeTable => CalcPriceAsWritten(table)
    case PerOrder => CalcPrice(table, id)
  }

  /** The Order and OrderItems tables: order ids are 1, 2, ... in insertion
      order, and every line item refers to an existing order. */
  predicate TablesValid(orders: seq<Order>, orderItems: seq<OrderItem>) {
    && (forall k :: 0 <= k < |orders| ==> orders[k].id == k + 1)
    && (forall row :: row in orderItems ==> 1 <= row.order <= |orders|)
  }

  /** No row of valid tables belongs to the order that will be saved next. */
  lemma NoRowsForNextOrder(orders: seq<Order>, orderItems: seq<OrderItem>)
    requires TablesValid(orders, orderItems)
    ensures forall row :: row in orderItems ==> row.order != |orders| + 1
  {
  }

  /** The database tables that checkout writes, updated in place. */
  class Database {
    var orders: seq<Order>
    var orderItems: seq<OrderItem>

    ghost predicate Valid()
      reads this
    {
      TablesValid(orders, orderItems)
    }

    constructor ()
      ensures Valid() && orders == [] && orderItems == []
    {
      orders := [];
      orderItems := [];
    }

    /** Saves a new order with the form's fields and the model defaults. */
    method CreateOrder(contact: Contact) returns (id: nat)
      requires Valid()
      modifies this
      ensures Valid()
      ensures id == |old(orders)| + 1
      ensures orders == old(orders) + [NewOrder(id, contact)]
      ensures orderItems == old(orderItems)
    {
      id := |orders| + 1;
      orders := orders + [NewOrder(id, contact)];
    }

    /** Links a product to an existing order with a quantity. */
    method AddItem(id: nat, product: Product, quantity: nat)
      requires Valid() && 1 <= id <= |orders|
      modifies this
      ensures Valid()
      ensures orderItems == old(orderItems) + [OrderItem(product, id, quantity)]
      ensures orders == old(orders)
    {
      orderItems := orderItems + [OrderItem(product, id, quantity)];
    }

    /** Stores a computed price on an existing order. */
    method SetPrice(id: nat, price: int)
      requires Valid() && 1 <= id <= |orders|
      modifies this
      ensures Valid()
      ensures orders == old(orders)[id - 1 := old(orders)[id - 1].(price := Some(price))]
      ensures orderItems == old(orderItems)
    {
      orders := orders[id - 1 := orders[id - 1].(price := Some(price))];
    }
  }
}
