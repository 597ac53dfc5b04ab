/** The request handlers that change or show the cart and turn it into an
    order: the product page, the cart page and the checkout page. Checkout is
    specified by PlaceOrderSpec and OrderViewSpec, functions from the state
    before a request to the state and response after it. */
module Views {
  import opened Wrappers
  import opened Models
  import opened Forms
  import opened Cart

  // ---------------------------------------------------------------------
  // Product page

  datatype DetailRequest =
    | DetailGet(quantityParam: Option<RawInt>)
    | DetailPost(quantity: RawInt)
    | DetailOther

  /** The quantity form a product page shows. */
  datatype QuantityForm = NoForm | Unbound(initial: RawInt) | Rejected(error: QuantityError)

  datatype DetailResponse =
    | NotFound
    | RedirectToDetail(slug: Slug)
    | RenderDetail(product: Product, form: QuantityForm, cartItems: nat)

  /** The product page: an unknown slug is a 404; a posted quantity the form
      accepts sets the cart entry and redirects back; a rejected one leaves
      the cart alone and shows the form's error. */
  method ProductDetailView(session: Session, products: seq<Product>, slug: Slug,
                           request: DetailRequest) returns (response: DetailResponse)
    modifies session
    ensures FindProduct(products, slug).None? ==>
      response == NotFound && session.cart == old(session.cart) && session.messages == old(session.messages)
    ensures FindProduct(products, slug).Some? && request.DetailPost? && CleanQuantity(request.quantity).Ok? ==>
      && session.cart == Some(SetQuantity(old(session.cart), slug, CleanQuantity(request.quantity).value))
      && session.messages == old(session.messages) + [ADDED]
      && response == RedirectToDetail(slug)
    ensures FindProduct(products, slug).Some? && request.DetailPost? && CleanQuantity(request.quantity).Err? ==>
      && session.cart == old(session.cart)
      && session.messages == old(session.messages) + [SOMETHING_WRONG]
      && response == RenderDetail(FindProduct(products, slug).value,
                                  Rejected(CleanQuantity(request.quantity).error), |Entries(session.cart)|)
    ensures FindProduct(products, slug).Some? && request.DetailGet? ==>
      && session.cart == old(session.cart) && session.messages == old(session.messages)
      && response == RenderDetail(FindProduct(products, slug).value,
                                  Unbound(if request.quantityParam.Some? then request.quantityParam.value
                                          else Integer(INITIAL_QUANTITY)),
                                  |Entries(session.cart)|)
    ensures FindProduct(products, slug).Some? && request.DetailOther? ==>
      && session.cart == old(session.cart) && session.messages == old(session.messages)
      && response == RenderDetail(FindProduct(products, slug).value, NoForm, |Entries(session.cart)|)
    ensures QuantitiesInRange(Entries(old(session.cart))) ==> QuantitiesInRange(Entries(session.cart))
  {
    var found := FindProduct(products, slug);
    if found.None? {
      return NotFound;
    }
    var product := found.value;
    var form := NoForm;
    match request {
      case DetailGet(param) =>
        form := Unbound(if param.Some? then param.value else Integer(INITIAL_QUANTITY));
      case DetailPost(raw) =>
        var cleaned := CleanQuantity(raw);
        if cleaned.Ok? {
          session.AddToCart(slug, cleaned.value);
          return RedirectToDetail(slug);
        }
        form := Rejected(cleaned.error);
        session.AddMessage(SOMETHING_WRONG);
      case DetailOther =>
    }
    response := RenderDetail(product, form, session.CountCartItems());
  }

  // ---------------------------------------------------------------------
  // Cart page

  /** A product shown on the cart page with its quantity. */
  datatype CartLine = CartLine(product: Product, count: int)

  datatype CartPage = CartPage(lines: seq<CartLine>, totalPrice: int, cartItems: nat)

  function Lines(items: seq<Product>, cart: CartMap): (lines: seq<CartLine>)
    requires AllInCart(items, cart)
  {
    seq(|items|, k requires 0 <= k < |items| => CartLine(items[k], cart[items[k].slug]))
  }

  /** The sum of the line totals, accumulated over the products in order. */
  method TotalPrice(items: seq<Product>, cart: CartMap) returns (total: int)
    requires AllInCart(items, cart)
    ensures total == Total(items, cart)
  {
    total := 0;
    var i := 0;
    while i < |items|
      invariant 0 <= i <= |items|
      invariant total == Total(items[..i], cart)
    {
      assert items[..i + 1][..i] == items[..i];
      total := total + items[i].price * cart[items[i].slug];
      i := i + 1;
    }
    assert items[..|items|] == items;
  }

  /** The cart page as written: the loop assigns each line's total to the
      price instead of adding it, so the page shows only the last line. */
  method CartViewAsWritten(session: Session, products: seq<Product>) returns (page: CartPage)
    ensures var cart := Entries(session.cart);
            var items := ProductsInCart(products, cart);
            && page.lines == Lines(items, cart)
            && page.totalPrice == (if items == [] then 0 else LineTotal(items[|items| - 1], cart))
            && page.cartItems == |cart|
  {
    var cart := Entries(session.cart);
    var items := ProductsInCart(products, cart);
    assert AllInCart(items, cart);
    var lines := [];
    var price := 0;
    var i := 0;
    while i < |items|
      invariant 0 <= i <= |items|
      invariant |lines| == i
      invariant forall k :: 0 <= k < i ==> lines[k] == CartLine(items[k], cart[items[k].slug])
      invariant price == if i == 0 then 0 else LineTotal(items[i - 1], cart)
    {
      assert items[i] in items;
      var quantity := cart[items[i].slug];
      lines := lines + [CartLine(items[i], quantity)];
      price := items[i].price * quantity;
      i := i + 1;
    }
    assert lines == Lines(items, cart);
    page := CartPage(lines, price, session.CountCartItems());
  }

  /** With a product at 1.50 x 3 and one at 2.00 x 2, the written cart page
      shows 4.00 where the cart is worth 8.50. */
  lemma CartViewShowsLastLineOnly()
    ensures var a := Product("A", "a", 150, true);
            var b := Product("B", "b", 200, true);
            var cart := map["a" := 3, "b" := 2];
            var items := ProductsInCart([a, b], cart);
            && items == [a, b]
            && LineTotal(items[|items| - 1], cart) == 400
            && Total(items, cart) == 850
  {
    var a := Product("A", "a", 150, true);
    var b := Product("B", "b", 200, true);
    var cart := map["a" := 3, "b" := 2];
    assert [a, b][..1] == [a];
    assert [a][..0] == [];
    assert ProductsInCart([a], cart) == [a];
    assert ProductsInCart([a, b], cart) == [a, b];
    assert [a, b][..1] == [a];
  }

  /** The cart page with the total summed over every line, as the checkout
      page does; an absent cart shows no lines and a total of 0. */
  method CartView(session: Session, products: seq<Product>) returns (page: CartPage)
    ensures var cart := Entries(session.cart);
            var items := ProductsInCart(products, cart);
            && page.lines == Lines(items, cart)
            && page.totalPrice == Total(items, cart)
            && page.cartItems == |cart|
    ensures session.cart == None ==> page.lines == [] && page.totalPrice == 0 && page.cartItems == 0
  {
    var cart := if session.cart.Some? then session.cart.value else map[];
    var items := ProductsInCart(products, cart);
    var total := TotalPrice(items, cart);
    page := CartPage(Lines(items, cart), total, session.CountCartItems());
  }

  // ---------------------------------------------------------------------
  // Checkout

  /** What sending the new-order mail does: it is delivered, it raises the
      header error the view catches, or it raises any other error. */
  datatype MailOutcome = Delivered | BadHeader | SendFailed

  /** A database error injected at the insert of the k-th line item. */
  datatype DbFault = NoFault | FailAtItem(k: nat)

  datatype OrderRequest = OrderGet | OrderPost(data: OrderFormData)

  datatype OrderResponse =
    | RedirectToCart
    | RedirectOrderCreated
    | RenderOrderPage(errors: map<Field, set<FieldError>>, totalPrice: int, cartItems: nat)
    | ServerError

  const CART_PROBLEM: Message := Message(Error, "Problems with cart.")
  const MAIL_SENT: Message := Message(Success, "Message sent")
  const MAIL_NOT_SENT: Message := Message(Error, "Message not sent")

  /** Everything a checkout request reads or writes. */
  datatype ShopState = ShopState(orders: seq<Order>, orderItems: seq<OrderItem>,
                                 cart: Option<CartMap>, messages: seq<Message>)

  datatype Outcome = Outcome(state: ShopState, response: OrderResponse)

  function StateOf(db: Database, session: Session): ShopState
    reads db, session
  {
    ShopState(db.orders, db.orderItems, session.cart, session.messages)
  }

  /** Every product's quantity can be stored in the non-negative quantity column. */
  predicate Insertable(items: seq<Product>, cart: CartMap) {
    forall k :: 0 <= k < |items| ==> items[k].slug in cart && cart[items[k].slug] >= 0
  }

  /** The line items of order id for the products, in order, each with its cart quantity. */
  function LineItemsFor(id: nat, items: seq<Product>, cart: CartMap): (rows: seq<OrderItem>)
    requires Insertable(items, cart)
    ensures |rows| == |items|
    ensures forall row :: row in rows ==> row.order == id
  {
    if items == [] then []
    else
      var last := items[|items| - 1];
      LineItemsFor(id, items[..|items| - 1], cart) + [OrderItem(last, id, cart[last.slug])]
  }

  /** The k-th line item links the k-th product to the order with its cart quantity. */
  lemma {:induction false} LineItemAt(id: nat, items: seq<Product>, cart: CartMap, k: nat)
    requires Insertable(items, cart) && k < |items|
    ensures LineItemsFor(id, items, cart)[k] == OrderItem(items[k], id, cart[items[k].slug])
    decreases |items|
  {
    var init := items[..|items| - 1];
    if k < |init| {
      assert Insertable(init, cart) by {
        forall j | 0 <= j < |init| ensures init[j].slug in cart && cart[init[j].slug] >= 0 {
          assert init[j] == items[j];
        }
      }
      LineItemAt(id, init, cart, k);
    }
  }

  /** Inserting the k-th line item fails: the fault hits it, or its quantity
      breaks the non-negative constraint of the quantity column. */
  predicate InsertFails(p: Product, k: nat, cart: CartMap, fault: DbFault) {
    fault == FailAtItem(k) || (p.slug in cart && cart[p.slug] < 0)
  }

  /** The first line item, at or after from, whose insert fails. */
  function FirstFailureFrom(items: seq<Product>, cart: CartMap, fault: DbFault, from: nat): (r: Option<nat>)
    requires from <= |items|
    ensures r.Some? ==> from <= r.value < |items| && InsertFails(items[r.value], r.value, cart, fault)
    ensures r.Some? ==> forall j :: from <= j < r.value ==> !InsertFails(items[j], j, cart, fault)
    ensures r.None? ==> forall j :: from <= j < |items| ==> !InsertFails(items[j], j, cart, fault)
    decreases |items| - from
  {
    if from == |items| then None
    else if InsertFails(items[from], from, cart, fault) then Some(from)
    else FirstFailureFrom(items, cart, fault, from + 1)
  }

  /** The first line item whose insert fails, if any. */
  function FirstFailure(items: seq<Product>, cart: CartMap, fault: DbFault): (r: Option<nat>)
    ensures r.Some? ==> r.value < |items| && InsertFails(items[r.value], r.value, cart, fault)
    ensures forall j :: 0 <= j < |items| && (r.None? || j < r.value) ==> !InsertFails(items[j], j, cart, fault)
  {
    FirstFailureFrom(items, cart, fault, 0)
  }

  /** The first failing insert is the one at k when every insert before k
      succeeds and k fails or is past the end. */
  lemma FirstFailureAt(items: seq<Product>, cart: CartMap, fault: DbFault, k: nat)
    requires k <= |items|
    requires forall j :: 0 <= j < k ==> !InsertFails(items[j], j, cart, fault)
    requires k < |items| ==> InsertFails(items[k], k, cart, fault)
    ensures FirstFailure(items, cart, fault) == if k < |items| then Some(k) else None
  {
    var r := FirstFailure(items, cart, fault);
    if r.Some? {
      assert r.value == k;
    }
  }

  /** The products before the first failing insert can all be stored. */
  lemma InsertableBeforeFailure(items: seq<Product>, cart: CartMap, fault: DbFault, k: nat)
    requires AllInCart(items, cart) && k <= |items|
    requires forall j :: 0 <= j < k ==> !InsertFails(items[j], j, cart, fault)
    ensures Insertable(items[..k], cart)
  {
    forall j | 0 <= j < k ensures items[..k][j].slug in cart && cart[items[..k][j].slug] >= 0 {
      assert items[j] in items && !InsertFails(items[j], j, cart, fault);
    }
  }

  /** order_view after a valid order form: save the order, add its line items
      one by one, store its price (worked out as pricing says), delete the
      cart, then send the mail. Nothing is undone when an insert fails. */
  function PlaceOrderSpec(st: ShopState, items: seq<Product>, cart: CartMap, contact: Contact,
                          mail: MailOutcome, fault: DbFault, pricing: Pricing): (out: Outcome)
    requires AllInCart(items, cart)
  {
    var id := |st.orders| + 1;
    var created := st.orders + [NewOrder(id, contact)];
    match FirstFailure(items, cart, fault)
    case Some(k) =>
      InsertableBeforeFailure(items, cart, fault, k);
      Outcome(st.(orders := created, orderItems := st.orderItems + LineItemsFor(id, items[..k], cart)),
              ServerError)
    case None =>
      InsertableBeforeFailure(items, cart, fault, |items|);
      assert items[..|items|] == items;
      var rows := st.orderItems + LineItemsFor(id, items, cart);
      var priced := created[id - 1 := NewOrder(id, contact).(price := Some(OrderPrice(pricing, rows, id)))];
      var saved := st.(orders := priced, orderItems := rows, cart := None);
      match mail
      case Delivered => Outcome(saved.(messages := st.messages + [MAIL_SENT]), RedirectOrderCreated)
      case BadHeader => Outcome(saved.(messages := st.messages + [MAIL_NOT_SENT]), RedirectOrderCreated)
      case SendFailed => Outcome(saved, ServerError)
  }

  /** Summing the line items of an order gives the cart total of its products. */
  lemma {:induction false} LineItemsSumToTotal(id: nat, items: seq<Product>, cart: CartMap)
    requires Insertable(items, cart) && AllInCart(items, cart)
    ensures SumLines(LineItemsFor(id, items, cart)) == Total(items, cart)
    decreases |items|
  {
    if items != [] {
      var init := items[..|items| - 1];
      assert Insertable(init, cart) by {
        forall k | 0 <= k < |init| ensures init[k].slug in cart && cart[init[k].slug] >= 0 {
          assert init[k] == items[k];
        }
      }
      assert AllInCart(init, cart) by {
        forall p | p in init ensures p.slug in cart {
          assert p in items;
        }
      }
      LineItemsSumToTotal(id, init, cart);
      var rows := LineItemsFor(id, items, cart);
      assert rows[..|rows| - 1] == LineItemsFor(id, init, cart);
    }
  }

  /** The state a completed checkout leaves, before its price is worked out. */
  lemma CompletedCheckout(st: ShopState, items: seq<Product>, cart: CartMap,
                          contact: Contact, mail: MailOutcome, fault: DbFault, pricing: Pricing)
    requires AllInCart(items, cart) && FirstFailure(items, cart, fault) == None
    ensures Insertable(items, cart)
    ensures var out := PlaceOrderSpec(st, items, cart, contact, mail, fault, pricing);
            var id := |st.orders| + 1;
            var rows := st.orderItems + LineItemsFor(id, items, cart);
            && out.state.orders == st.orders + [NewOrder(id, contact).(price := Some(OrderPrice(pricing, rows, id)))]
            && out.state.orderItems == rows
            && out.state.cart == None
            && (mail != SendFailed <==> out.response == RedirectOrderCreated)
  {
    InsertableBeforeFailure(items, cart, fault, |items|);
    assert items[..|items|] == items;
    var id := |st.orders| + 1;
    var rows := st.orderItems + LineItemsFor(id, items, cart);
    var priced := NewOrder(id, contact).(price := Some(OrderPrice(pricing, rows, id)));
    assert (st.orders + [NewOrder(id, contact)])[id - 1 := priced] == st.orders + [priced];
  }

  /** A completed checkout adds one WAITING order, adds exactly its line
      items, and clears the cart; the buyer is sent to the success page unless
      sending the mail raised an error other than the header error. Priced per
      order, the order costs the cart total of its products; priced as
      written, it also costs every line item stored before it. */
  lemma PlacedOrderIsPricedAtCartTotal(st: ShopState, items: seq<Product>, cart: CartMap,
                                       contact: Contact, mail: MailOutcome, fault: DbFault,
                                       pricing: Pricing)
    requires TablesValid(st.orders, st.orderItems) && AllInCart(items, cart)
    requires FirstFailure(items, cart, fault) == None
    ensures Insertable(items, cart)
    ensures var out := PlaceOrderSpec(st, items, cart, contact, mail, fault, pricing);
            var id := |st.orders| + 1;
            var price := if pricing == PerOrder then Total(items, cart)
                         else CalcPriceAsWritten(st.orderItems) + Total(items, cart);
            && out.state.orders == st.orders + [Order(id, contact, Some(price), Waiting)]
            && out.state.orderItems == st.orderItems + LineItemsFor(id, items, cart)
            && RowsOf(out.state.orderItems, id) == LineItemsFor(id, items, cart)
            && out.state.cart == None
            && (mail != SendFailed <==> out.response == RedirectOrderCreated)
  {
    CompletedCheckout(st, items, cart, contact, mail, fault, pricing);
    var id := |st.orders| + 1;
    NoRowsForNextOrder(st.orders, st.orderItems);
    NewOrderRows(st.orderItems, LineItemsFor(id, items, cart), id);
    NewOrderPrice(st, items, cart, pricing);
  }

  /** The price a completed checkout sets, by either calc_price. */
  lemma NewOrderPrice(st: ShopState, items: seq<Product>, cart: CartMap, pricing: Pricing)
    requires TablesValid(st.orders, st.orderItems) && Insertable(items, cart)
    ensures var id := |st.orders| + 1;
            OrderPrice(pricing, st.orderItems + LineItemsFor(id, items, cart), id)
            == (if pricing == PerOrder then Total(items, cart)
                else CalcPriceAsWritten(st.orderItems) + Total(items, cart))
  {
    var id := |st.orders| + 1;
    var added := LineItemsFor(id, items, cart);
    LineItemsSumToTotal(id, items, cart);
    if pricing == WholeTable {
      SumLinesAppend(st.orderItems, added);
    } else {
      NoRowsForNextOrder(st.orders, st.orderItems);
      NewOrderRows(st.orderItems, added, id);
    }
  }

  /** A failed line-item insert leaves the new order in place with no price
      and only the line items inserted before it, keeps the cart, and ends in
      a server error: the checkout is not atomic. */
  lemma FailedInsertLeavesPartialOrder(st: ShopState, items: seq<Product>, cart: CartMap,
                                       contact: Contact, mail: MailOutcome, fault: DbFault,
                                       pricing: Pricing)
    requires TablesValid(st.orders, st.orderItems) && AllInCart(items, cart)
    requires FirstFailure(items, cart, fault).Some?
    ensures Insertable(items[..FirstFailure(items, cart, fault).value], cart)
    ensures var out := PlaceOrderSpec(st, items, cart, contact, mail, fault, pricing);
            var id := |st.orders| + 1;
            var k := FirstFailure(items, cart, fault).value;
            && k < |items|
            && out.response == ServerError
            && out.state.orders == st.orders + [NewOrder(id, contact)]
            && out.state.orderItems == st.orderItems + LineItemsFor(id, items[..k], cart)
            && RowsOf(out.state.orderItems, id) == LineItemsFor(id, items[..k], cart)
            && |RowsOf(out.state.orderItems, id)| == k
            && out.state.cart == st.cart && out.state.messages == st.messages
  {
    var id := |st.orders| + 1;
    var k := FirstFailure(items, cart, fault).value;
    InsertableBeforeFailure(items, cart, fault, k);
    var added := LineItemsFor(id, items[..k], cart);
    NoRowsForNextOrder(st.orders, st.orderItems);
    NewOrderRows(st.orderItems, added, id);
  }

  /** A cart whose quantities the quantity form accepted never makes an insert
      fail by itself: without an injected fault, checkout completes. */
  lemma FormCartsCompleteCheckout(items: seq<Product>, cart: CartMap)
    requires AllInCart(items, cart) && QuantitiesInRange(cart)
    ensures FirstFailure(items, cart, NoFault) == None
  {
  }

  /** order_view as written: an empty or absent cart only queues a message,
      because the redirect on that path is never returned, and the order is
      priced by calc_price as written. */
  function OrderViewSpec(st: ShopState, products: seq<Product>, request: OrderRequest,
                         isEmail: string -> bool, mail: MailOutcome, fault: DbFault): Outcome
  {
    var st1 := if st.cart.None? || st.cart.value == map[] then st.(messages := st.messages + [CART_PROBLEM])
               else st;
    if st.cart.None? then
      // filtering products on the slugs of a missing cart raises
      Outcome(st1, ServerError)
    else
      var cart := st.cart.value;
      OrderPageSpec(st1, ProductsInCart(products, cart), cart, request, isEmail, mail, fault, WholeTable)
  }

  /** The rest of order_view, once the cart's products are known. */
  function OrderPageSpec(st: ShopState, items: seq<Product>, cart: CartMap, request: OrderRequest,
                         isEmail: string -> bool, mail: MailOutcome, fault: DbFault,
                         pricing: Pricing): Outcome
    requires AllInCart(items, cart)
  {
    match request
    case OrderPost(data) =>
      (match ValidateOrderForm(data, isEmail)
       case Ok(contact) => PlaceOrderSpec(st, items, cart, contact, mail, fault, pricing)
       case Err(errors) => Outcome(st, RenderOrderPage(errors, Total(items, cart), |Entries(st.cart)|)))
    case OrderGet => Outcome(st, RenderOrderPage(map[], Total(items, cart), |Entries(st.cart)|))
  }

  /** An order form that does not validate creates no order and keeps the
      cart; the page shows the errors and the cart total. */
  lemma InvalidOrderFormKeepsCart(st: ShopState, products: seq<Product>, data: OrderFormData,
                                  isEmail: string -> bool, mail: MailOutcome, fault: DbFault)
    requires st.cart.Some? && st.cart.value != map[]
    requires ValidateOrderForm(data, isEmail).Err?
    ensures var out := OrderViewSpec(st, products, OrderPost(data), isEmail, mail, fault);
            var cart := st.cart.value;
            && out.state == st
            && out.response == RenderOrderPage(ValidateOrderForm(data, isEmail).error,
                                               Total(ProductsInCart(products, cart), cart), |cart|)
  {
  }

  /** With any cart, empty or not, an order form that does not validate
      saves no order and no line item and keeps the cart; on an empty cart the
      written view also queues the cart error and shows the errors with a
      total and a count of 0. */
  lemma InvalidOrderFormSavesNothing(st: ShopState, products: seq<Product>, data: OrderFormData,
                                     isEmail: string -> bool, mail: MailOutcome, fault: DbFault)
    requires st.cart.Some?
    requires ValidateOrderForm(data, isEmail).Err?
    ensures var out := OrderViewSpec(st, products, OrderPost(data), isEmail, mail, fault);
            && out.state.orders == st.orders
            && out.state.orderItems == st.orderItems
            && out.state.cart == st.cart
            && (st.cart.value == map[] ==>
                  && out.state.messages == st.messages + [CART_PROBLEM]
                  && out.response == RenderOrderPage(ValidateOrderForm(data, isEmail).error, 0, 0))
  {
    if st.cart.value == map[] {
      assert ProductsInCart(products, map[]) == [];
    }
  }

  /** The written view lets an empty cart through: a valid order form then
      saves an order with no line items, priced by calc_price as written at
      the sum over every line item already stored (0 when there is none). */
  lemma EmptyCartPlacesEmptyOrder(st: ShopState, products: seq<Product>, data: OrderFormData,
                                  isEmail: string -> bool)
    requires TablesValid(st.orders, st.orderItems) && st.cart == Some(map[])
    requires ValidateOrderForm(data, isEmail).Ok?
    ensures var out := OrderViewSpec(st, products, OrderPost(data), isEmail, Delivered, NoFault);
            var id := |st.orders| + 1;
            && out.response == RedirectOrderCreated
            && out.state.orders == st.orders + [Order(id, ValidateOrderForm(data, isEmail).value,
                                                      Some(CalcPriceAsWritten(st.orderItems)), Waiting)]
            && out.state.orderItems == st.orderItems
            && RowsOf(out.state.orderItems, id) == []
            && (st.orderItems == [] ==> out.state.orders[id - 1].price == Some(0))
  {
    var items := ProductsInCart(products, map[]);
    assert items == [];
    var contact := ValidateOrderForm(data, isEmail).value;
    var st1 := st.(messages := st.messages + [CART_PROBLEM]);
    PlacedOrderIsPricedAtCartTotal(st1, items, map[], contact, Delivered, NoFault, WholeTable);
    assert st.orderItems + [] == st.orderItems;
  }

  /** The written view raises on a session without a cart, whatever was posted. */
  lemma AbsentCartRaises(st: ShopState, products: seq<Product>, request: OrderRequest,
                         isEmail: string -> bool, mail: MailOutcome, fault: DbFault)
    requires st.cart == None
    ensures var out := OrderViewSpec(st, products, request, isEmail, mail, fault);
            out.response == ServerError && out.state.orders == st.orders
            && out.state.orderItems == st.orderItems
  {
  }

  /** With a non-empty cart, a valid order form goes on to checkout with the
      cart's products and the buyer's fields: priced as written by the
      written view, per order by the fixed one. */
  lemma ValidFormPlacesOrder(st: ShopState, products: seq<Product>, data: OrderFormData,
                             isEmail: string -> bool, mail: MailOutcome, fault: DbFault)
    requires st.cart.Some? && st.cart.value != map[]
    requires ValidateOrderForm(data, isEmail).Ok?
    ensures OrderViewSpec(st, products, OrderPost(data), isEmail, mail, fault)
            == PlaceOrderSpec(st, ProductsInCart(products, st.cart.value), st.cart.value,
                              ValidateOrderForm(data, isEmail).value, mail, fault, WholeTable)
    ensures OrderViewFixedSpec(st, products, OrderPost(data), isEmail, mail, fault)
            == PlaceOrderSpec(st, ProductsInCart(products, st.cart.value), st.cart.value,
                              ValidateOrderForm(data, isEmail).value, mail, fault, PerOrder)
  {
  }

  /** Checkout of a single product with quantity 3, priced per order. */
  lemma SingleLineCheckout(st: ShopState, a: Product, cart: CartMap, contact: Contact)
    requires TablesValid(st.orders, st.orderItems)
    requires a.slug in cart && cart[a.slug] == 3
    ensures var out := PlaceOrderSpec(st, [a], cart, contact, Delivered, NoFault, PerOrder);
            var id := |st.orders| + 1;
            && out.state.orders == st.orders + [Order(id, contact, Some(a.price * 3), Waiting)]
            && RowsOf(out.state.orderItems, id) == [OrderItem(a, id, 3)]
            && out.state.cart == None
            && out.response == RedirectOrderCreated
  {
    var id := |st.orders| + 1;
    FirstFailureAt([a], cart, NoFault, 1);
    PlacedOrderIsPricedAtCartTotal(st, [a], cart, contact, Delivered, NoFault, PerOrder);
    LineItemAt(id, [a], cart, 0);
  }

  /** A cart entry whose slug no product carries is dropped: with only A in
      the catalog and a cart of A x 3 and some other slug x 2, the view with
      the intended price saves one line item, A x 3, and prices the order at
      three times A's price. */
  lemma MissingProductIsDropped(st: ShopState, a: Product, missing: Slug, data: OrderFormData,
                                isEmail: string -> bool)
    requires TablesValid(st.orders, st.orderItems)
    requires missing != a.slug && st.cart == Some(map[a.slug := 3, missing := 2])
    requires ValidateOrderForm(data, isEmail).Ok?
    ensures var out := OrderViewFixedSpec(st, [a], OrderPost(data), isEmail, Delivered, NoFault);
            var id := |st.orders| + 1;
            && out.state.orders == st.orders + [Order(id, ValidateOrderForm(data, isEmail).value,
                                                      Some(a.price * 3), Waiting)]
            && RowsOf(out.state.orderItems, id) == [OrderItem(a, id, 3)]
            && out.state.cart == None
            && out.response == RedirectOrderCreated
  {
    var cart := st.cart.value;
    var contact := ValidateOrderForm(data, isEmail).value;
    assert ProductsInCart([a], cart) == [a] by {
      assert [a][..0] == [];
    }
    ValidFormPlacesOrder(st, [a], data, isEmail, Delivered, NoFault);
    SingleLineCheckout(st, a, cart, contact);
  }

  /** order_view with the redirect returned and the order priced over its
      own line items: an empty or absent cart goes back to the cart page; any
      other cart is handled as written otherwise. */
  function OrderViewFixedSpec(st: ShopState, products: seq<Product>, request: OrderRequest,
                              isEmail: string -> bool, mail: MailOutcome, fault: DbFault): Outcome
  {
    if st.cart.None? || st.cart.value == map[] then
      Outcome(st.(messages := st.messages + [CART_PROBLEM]), RedirectToCart)
    else
      var cart := st.cart.value;
      OrderPageSpec(st, ProductsInCart(products, cart), cart, request, isEmail, mail, fault, PerOrder)
  }

  /** With the redirect returned, no order is ever saved from an empty or
      absent cart, and a completed checkout always follows a cart with at
      least one entry. */
  lemma FixedViewNeedsACart(st: ShopState, products: seq<Product>, request: OrderRequest,
                            isEmail: string -> bool, mail: MailOutcome, fault: DbFault)
    ensures var out := OrderViewFixedSpec(st, products, request, isEmail, mail, fault);
            (st.cart.None? || st.cart.value == map[]) ==>
              out.response == RedirectToCart && out.state.orders == st.orders
              && out.state.orderItems == st.orderItems && out.state.cart == st.cart
  {
  }

  /** The cart is deleted only together with a saved, priced order. */
  lemma CartClearedOnlyWithPricedOrder(st: ShopState, products: seq<Product>, request: OrderRequest,
                                       isEmail: string -> bool, mail: MailOutcome, fault: DbFault)
    requires st.cart.Some?
    ensures var out := OrderViewSpec(st, products, request, isEmail, mail, fault);
            out.state.cart == None ==>
              |out.state.orders| == |st.orders| + 1 && out.state.orders[|st.orders|].price.Some?
  {
    var cart := st.cart.value;
    var items := ProductsInCart(products, cart);
    var st1 := if cart == map[] then st.(messages := st.messages + [CART_PROBLEM]) else st;
    if request.OrderPost? && ValidateOrderForm(request.data, isEmail).Ok? {
      var contact := ValidateOrderForm(request.data, isEmail).value;
      assert OrderViewSpec(st, products, request, isEmail, mail, fault)
             == PlaceOrderSpec(st1, items, cart, contact, mail, fault, WholeTable);
      if FirstFailure(items, cart, fault) == None {
        CompletedCheckout(st1, items, cart, contact, mail, fault, WholeTable);
      }
    }
  }

  /** The rest of order_view, over the session and the database. */
  method OrderPage(session: Session, db: Database, items: seq<Product>, cart: CartMap,
                   request: OrderRequest, isEmail: string -> bool, mail: MailOutcome, fault: DbFault,
                   pricing: Pricing)
    returns (response: OrderResponse)
    requires db.Valid() && AllInCart(items, cart)
    modifies session, db
    ensures db.Valid()
    ensures Outcome(StateOf(db, session), response)
            == OrderPageSpec(old(StateOf(db, session)), items, cart, request, isEmail, mail, fault, pricing)
  {
    var errors := map[];
    if request.OrderPost? {
      var form := ValidateOrderForm(request.data, isEmail);
      if form.Ok? {
        response := PlaceOrder(session, db, items, cart, form.value, mail, fault, pricing);
        return;
      }
      errors := form.error;
    }
    var total := TotalPrice(items, cart);
    response := RenderOrderPage(errors, total, session.CountCartItems());
  }

  /** One more storable product extends the line items by its own row. */
  lemma LineItemsStep(id: nat, items: seq<Product>, cart: CartMap, i: nat)
    requires i < |items| && Insertable(items[..i], cart)
    requires items[i].slug in cart && cart[items[i].slug] >= 0
    ensures Insertable(items[..i + 1], cart)
    ensures LineItemsFor(id, items[..i + 1], cart)
            == LineItemsFor(id, items[..i], cart) + [OrderItem(items[i], id, cart[items[i].slug])]
  {
    assert items[..i + 1][..i] == items[..i];
  }

  /** Adds the line items of order id one by one, each with its cart
      quantity, and stops at the first insert that fails. */
  method AddLineItems(db: Database, id: nat, items: seq<Product>, cart: CartMap, fault: DbFault)
    returns (failed: Option<nat>)
    requires db.Valid() && 1 <= id <= |db.orders| && AllInCart(items, cart)
    modifies db
    ensures db.Valid() && db.orders == old(db.orders)
    ensures failed == FirstFailure(items, cart, fault)
    ensures failed.Some? ==> (failed.value <= |items| && Insertable(items[..failed.value], cart)
                              && db.orderItems == old(db.orderItems) + LineItemsFor(id, items[..failed.value], cart))
    ensures failed.None? ==> (Insertable(items, cart)
                              && db.orderItems == old(db.orderItems) + LineItemsFor(id, items, cart))
  {
    var i := 0;
    while i < |items| && !InsertFails(items[i], i, cart, fault)
      invariant 0 <= i <= |items|
      invariant db.Valid() && db.orders == old(db.orders)
      invariant forall j :: 0 <= j < i ==> !InsertFails(items[j], j, cart, fault)
      invariant Insertable(items[..i], cart)
      invariant db.orderItems == old(db.orderItems) + LineItemsFor(id, items[..i], cart)
    {
      assert items[i] in items;
      LineItemsStep(id, items, cart, i);
      db.AddItem(id, items[i], cart[items[i].slug]);
      i := i + 1;
    }
    FirstFailureAt(items, cart, fault, i);
    if i < |items| {
      failed := Some(i);
    } else {
      assert items[..i] == items;
      failed := None;
    }
  }

  /** The checkout steps after a valid order form, over the session and the database. */
  method PlaceOrder(session: Session, db: Database, items: seq<Product>, cart: CartMap,
                    contact: Contact, mail: MailOutcome, fault: DbFault, pricing: Pricing)
    returns (response: OrderResponse)
    requires db.Valid() && AllInCart(items, cart)
    modifies session, db
    ensures db.Valid()
    ensures Outcome(StateOf(db, session), response)
            == PlaceOrderSpec(old(StateOf(db, session)), items, cart, contact, mail, fault, pricing)
  {
    var id := db.CreateOrder(contact);
    var failed := AddLineItems(db, id, items, cart, fault);
    if failed.Some? {
      return ServerError;
    }
    db.SetPrice(id, OrderPrice(pricing, db.orderItems, id));
    if session.cart.Some? {
      session.DeleteCart();
    }
    match mail {
      case Delivered =>
        session.AddMessage(MAIL_SENT);
        response := RedirectOrderCreated;
      case BadHeader =>
        session.AddMessage(MAIL_NOT_SENT);
        response := RedirectOrderCreated;
      case SendFailed =>
        response := ServerError;
    }
  }

  /** order_view as written, calc_price included. */
  method OrderView(session: Session, db: Database, products: seq<Product>, request: OrderRequest,
                   isEmail: string -> bool, mail: MailOutcome, fault: DbFault)
    returns (response: OrderResponse)
    requires db.Valid()
    modifies session, db
    ensures db.Valid()
    ensures Outcome(StateOf(db, session), response)
            == OrderViewSpec(old(StateOf(db, session)), products, request, isEmail, mail, fault)
  {
    var cart := session.cart;
    if cart.None? || cart.value == map[] {
      session.AddMessage(CART_PROBLEM);
    }
    if cart.None? {
      return ServerError;
    }
    var items := ProductsInCart(products, cart.value);
    response := OrderPage(session, db, items, cart.value, request, isEmail, mail, fault, WholeTable);
  }

  /** order_view with the redirect on an empty or absent cart returned and
      the order priced over its own line items. */
  method OrderViewFixed(session: Session, db: Database, products: seq<Product>, request: OrderRequest,
                        isEmail: string -> bool, mail: MailOutcome, fault: DbFault)
    returns (response: OrderResponse)
    requires db.Valid()
    modifies session, db
    ensures db.Valid()
    ensures Outcome(StateOf(db, session), response)
            == OrderViewFixedSpec(old(StateOf(db, session)), products, request, isEmail, mail, fault)
  {
    var cart := session.cart;
    if cart.None? || cart.value == map[] {
      session.AddMessage(CART_PROBLEM);
      return RedirectToCart;
    }
    var items := ProductsInCart(products, cart.value);
    response := OrderPage(session, db, items, cart.value, request, isEmail, mail, fault, PerOrder);
  }
}
