# shop_test: the session cart and checkout, in Dafny

This project models the part of the Django shop that keeps a cart in the web
session and turns it into an order:

- the cart helpers of `shop_app/views.py`: `add_to_cart`, `remove_from_cart`,
  `get_cart_items`, `count_cart_items`;
- `product_detail_view`, whose POST branch adds a product to the cart;
- `cart_view`, the page that lists the cart and its total;
- `order_view`, which validates the order form, saves the order and its line
  items, prices the order, deletes the cart and sends the notification mail;
- from `shop_app/models.py`: `Order.Status`, `Order.calc_price`, the
  `OrderItems` table, the product fields and `image_upload_path`;
- from `shop_app/forms.py`: `AddToCartForm` (an integer quantity from 1 to 999,
  initially 1) and the fields of `OrderForm`.

Layout:

- `wrappers.dfy`: `Option` and `Result`.
- `models.dfy` (module `Models`) holds the entities, which are datatypes:
  products, the order status, orders and line items. Decimal amounts are whole
  cents. It also holds the per-order price, `CalcPrice`, and the written one,
  `CalcPriceAsWritten`; `OrderPrice` picks one of the two (`Pricing`). The `Database` class holds the two order tables, which
  checkout updates in place.
- `forms.dfy` (module `Forms`): the two forms. Each form's cleaning is a
  function that returns the cleaned value or the errors.
- `cart.dfy` (module `Cart`):
  - the `Session` class, whose fields are the `cart` key and the queued flash
    messages. Its methods change them the way the view helpers do.
  - the functions on cart values that specify those methods.
  - the product query driven by the cart's slugs, and the cart total.
- `views.dfy` (module `Views`): the three views as methods over a `Session`
  and a `Database`.
  - `PlaceOrderSpec`, `OrderViewSpec` and `OrderViewFixedSpec` specify
    checkout. Each is a function from the state before a request to the state
    and response after it.
  - The lemmas about checkout are stated over those three functions.

The catalog is a sequence of products in query order. Slugs are unique in it
(`UniqueSlugs`). A lookup by slug is `FindProduct`. `Product.objects.filter(slug__in=cart)`
is `ProductsInCart`.

In several places the code does less than a shop checkout is usually expected
to do. The model follows the code in each of them:

- Checkout is not atomic. If inserting a line item fails, the new order stays
  with no price and with the line items inserted so far, and the cart is kept
  (`FailedInsertLeavesPartialOrder`).
- Only the mail library's header error is caught. Any other error while
  sending the mail ends in a server error. By then the order is already
  saved and priced.
- An empty cart is not rejected (the Findings table below).
- Products are not dropped because they are unavailable. The cart's products
  are filtered only on the slug. A slug that no product carries is skipped
  (`MissingProductIsDropped`).
- `get_cart_items` returns None for a session that has no cart key (none
  was created yet, or checkout deleted it), not an empty mapping. An emptied cart is still returned as an empty mapping.
- `cart_view` and `calc_price` do not compute the intended totals (the
  Findings table below). `OrderView`, the view as written, prices the order
  with `CalcPriceAsWritten`, the sum over the whole line-item table.
  `OrderViewFixed` returns the redirect and prices with `CalcPrice`, the sum
  over the order's own line items. The cart page is modelled both as written
  (`CartViewAsWritten`) and corrected (`CartView`). Each written definition is
  kept with the input that shows the difference.

## Model

| member | source | states |
|---|---|---|
| Models.FindProduct | shop_app/views.py:78 | The product found carries the requested slug and is in the catalog; no product is found exactly when no product carries the slug (the 404 case). |
| Models.SlugResolvesToItsProduct | shop_app/models.py:35 | Because slugs are unique, looking up a product's slug finds that product. |
| Models.ImageUploadPath | shop_app/models.py:24-28 | The image path is `images/`, then the product's slug, then `.png`; the uploaded file's name plays no part. |
| Models.ImagePathIdentifiesSlug | shop_app/models.py:24-28 | Two uploads get the same path if and only if their products have the same slug, whatever the file names. |
| Models.StatusValue | shop_app/models.py:62-66 | Every status is stored as one of the integers 0 to 3. |
| Models.StatusFromValue | shop_app/models.py:62-66 | A stored integer is a status choice exactly when it is 0 to 3, and then it is the integer of the status it decodes to. |
| Models.StatusRoundTrip | shop_app/models.py:62-66 | Decoding the integer stored for a status gives the status back. |
| Models.NewOrder | shop_app/models.py:73-74 | An order saved from the form has no price yet and the default status WAITING. |
| Models.SumLines | shop_app/models.py:80 | The sum of price times quantity over no rows is 0, and it is never negative when no price is. |
| Models.SumLinesAppend | shop_app/models.py:80 | Summing two tables of rows one after the other gives the sum of the two sums. |
| Models.RowsOf | shop_app/models.py:84-87 | A row is among an order's rows exactly when it is in the table and refers to that order. |
| Models.RowsOfAppend | shop_app/models.py:84-87 | The rows of an order in two tables appended are its rows in the first, then its rows in the second. |
| Models.CalcPrice | shop_app/models.py:77-80 | An order with no line item is priced at 0. |
| Models.CalcPriceIgnoresOtherOrders | shop_app/models.py:77-80 | Rows of other orders, before or after, never change an order's price. |
| Models.NewOrderRows | shop_app/models.py:77-80 | Once the rows of a new order are appended to a table that knew nothing of it, they are exactly that order's rows, and the order's price is their sum. |
| Models.CalcPriceAsWritten | shop_app/models.py:80 | The written price sums every row of the whole line-item table; it is not negative when no product price is. |
| Models.CalcPriceAsWrittenAgreesOnOneOrder | shop_app/models.py:80 | The written price equals the per-order price when every row of the table belongs to that order. |
| Models.CalcPriceAsWrittenCountsOtherOrders | shop_app/models.py:80 | With a line of order 1 already stored (A at 1.50 x 3), the written price of order 2 (B at 2.00 x 2) is 8.50 where the order is worth 4.00. |
| Models.NoRowsForNextOrder | shop_app/models.py:86 | In consistent tables, no line item refers to the order that will be saved next. |
| Models.Database.constructor | shop_app/models.py:57-87 | The order tables start empty and consistent. |
| Models.Database.CreateOrder | shop_app/views.py:135 | Saving the order form appends one order with the next id, the buyer's fields, no price and status WAITING; the line items are untouched. |
| Models.Database.AddItem | shop_app/views.py:137 | Linking a product to an existing order appends exactly one row with that quantity and keeps the tables consistent. |
| Models.Database.SetPrice | shop_app/views.py:138-139 | Storing a price changes that order's price only. |
| Forms.CleanQuantity | shop_app/forms.py:14 | A quantity is accepted if and only if it is an integer from 1 to 999, and is then kept as given; blank, too small and too large are reported as distinct errors. |
| Forms.InitialQuantityIsAccepted | shop_app/forms.py:14 | The initial quantity, 1, is one the form accepts. |
| Forms.FieldErrorsEmpty | shop_app/forms.py:7-11 | A field reports no error exactly when it is blank and optional, or filled in within its length, an address if it is the e-mail field, and free of null characters. |
| Forms.ValidateOrderForm | shop_app/forms.py:7-11 | The form is valid if and only if first name, last name, e-mail and phone are non-empty and within 254, 254, 254 and 12 characters, the e-mail is an address, and no field, the comment included, holds a null character; a valid form yields those fields and the comment as given, a blank comment staying the empty string; an invalid one names at least one field, names the comment exactly when it holds a null character (with that error alone), and reports every empty required field as required. |
| Forms.NullCharacterIsRejected | shop_app/forms.py:7-11 | A null character in any field, the optional comment included, makes the form invalid with a null-character error on that field. |
| Forms.EmptyCommentIsAccepted | shop_app/models.py:75 | The comment is optional: clearing it from a valid form leaves the form valid, with the same fields and the comment kept as the empty string. |
| Cart.SetQuantity | shop_app/views.py:39-40 | Setting a quantity makes the product a key with that quantity, starts from an empty cart when there was none, and keeps every other entry. |
| Cart.RemoveSlug | shop_app/views.py:50 | Removing a product drops its key and keeps every other entry with its quantity. |
| Cart.LastWriteWins | shop_app/views.py:33-40 | Adding a product twice keeps only the second quantity: the cart holds quantities, not running counts. |
| Cart.FirstAddCreatesCart | shop_app/views.py:39 | The first product added to a session makes the cart exactly that one entry. |
| Cart.RemoveUndoesAdd | shop_app/views.py:45-55 | Removing a product just added to a cart that did not hold it gives the earlier cart back. |
| Cart.CleanedQuantityKeepsRange | shop_app/views.py:83-85 | A quantity the form accepted keeps every quantity of the cart within 1 to 999. |
| Cart.ProductsInCart | shop_app/views.py:99 | The cart's products are exactly the catalog products whose slug is a key of the cart, no more than the catalog holds, and none for an empty cart. |
| Cart.ProductsInCartUnique | shop_app/views.py:130 | Over a catalog with unique slugs, no two of the cart's products share a slug. |
| Cart.ProductsInCartSlugs | shop_app/views.py:130 | A cart key has a product among the cart's products exactly when some catalog product carries it: keys without a product are skipped, not an error. |
| Cart.Total | shop_app/views.py:151-154 | The total of no products is 0 and of one product is its price times its quantity. |
| Cart.Session.constructor | shop_app/views.py:62 | A new session has no cart and no messages. |
| Cart.Session.AddToCart | shop_app/views.py:33-42 | The cart becomes the old cart with the product's quantity set (created if absent), and a success message is queued. |
| Cart.Session.RemoveFromCart | shop_app/views.py:45-55 | A product is removed exactly when a cart exists and holds it, with a success message; otherwise nothing changes but a warning is queued. |
| Cart.Session.AddMessage | shop_app/views.py:42 | Queuing a message appends it and leaves the cart alone. |
| Cart.Session.DeleteCart | shop_app/views.py:140-141 | Deleting the cart key leaves the session without a cart and keeps the messages. |
| Cart.Session.GetCartItems | shop_app/views.py:58-62 | The result is None exactly when the session has no cart key (never created, or deleted by checkout); otherwise it is the cart, an empty one included. |
| Cart.Session.CountCartItems | shop_app/views.py:65-70 | The count is the number of distinct products in the cart, and 0 exactly when the cart is absent or empty. |
| Views.ProductDetailView | shop_app/views.py:73-90 | An unknown slug is a 404 with no change. A posted quantity the form accepts sets that product's cart entry, queues the success message and redirects back. A rejected one leaves the cart alone, queues the warning and shows the form's error. A GET shows the form with the requested or initial quantity. Quantities in the cart stay within 1 to 999. |
| Views.TotalPrice | shop_app/views.py:151-154 | The accumulated price is the cart total: the sum of price times quantity over the cart's products. |
| Views.CartViewAsWritten | shop_app/views.py:93-105 | The written cart page lists every product with its quantity, but its total is only the last line's price times quantity (0 for an empty cart). |
| Views.CartViewShowsLastLineOnly | shop_app/views.py:100-103 | With A at 1.50 x 3 and B at 2.00 x 2 in the cart, the written page shows 4.00 where the cart is worth 8.50. |
| Views.CartView | shop_app/views.py:93-105 | The cart page with its total summed over every line, the same total the checkout page shows; an absent cart shows no lines and 0. |
| Views.LineItemsFor | shop_app/views.py:136-137 | One line item per product, in order, each belonging to the new order. |
| Views.LineItemAt | shop_app/views.py:137 | The k-th line item links the k-th product to the order with its cart quantity. |
| Views.LineItemsStep | shop_app/views.py:136-137 | Storing one more product extends the line items by exactly its own row. |
| Views.FirstFailureFrom | shop_app/views.py:136-137 | The first failing insert at or after a position: it fails, and every insert before it from that position succeeds; none fails when the result is None. |
| Views.FirstFailure | shop_app/views.py:136-137 | The first failing insert of the loop fails and every earlier one succeeds; with no result, every insert succeeds. |
| Views.FirstFailureAt | shop_app/views.py:136-137 | When every insert before k succeeds and the one at k fails (or k is past the end), the first failure is k (or none). |
| Views.InsertableBeforeFailure | shop_app/models.py:87 | Every product before the first failing insert has a quantity the non-negative quantity column accepts. |
| Views.LineItemsSumToTotal | shop_app/views.py:138 | Summing the new order's line items gives the cart total of its products. |
| Views.CompletedCheckout | shop_app/views.py:135-141 | A checkout whose inserts all succeed appends one order and prices it by the chosen calc_price (over the whole table as written, over the order's own rows when corrected), appends exactly its line items, deletes the cart, and redirects unless sending the mail raised an error other than the header error. |
| Views.PlacedOrderIsPricedAtCartTotal | shop_app/views.py:134-147 | A completed checkout appends one WAITING order, whose rows are exactly its line items, and clears the cart. Priced per order, the order costs the cart total; priced as written, it costs the sum of every line item stored before it plus the cart total. The buyer is redirected to the success page exactly when sending the mail did not raise an error other than the header error. |
| Views.NewOrderPrice | shop_app/models.py:77-80 | After a completed checkout, the per-order price of the new order is the cart total of its products, and the written price is the sum of every earlier line item plus that total. |
| Views.FailedInsertLeavesPartialOrder | shop_app/views.py:135-137 | A failed insert at position k leaves the new order unpriced, appends exactly the line items of the first k products (the order's only rows, every one insertable), keeps the cart and the messages, and ends in a server error. |
| Views.FormCartsCompleteCheckout | shop_app/models.py:87 | A cart whose quantities the quantity form accepted never makes an insert fail by itself. |
| Views.ValidFormPlacesOrder | shop_app/views.py:132-135 | With a non-empty cart, a valid order form goes on to checkout with the cart's products and the buyer's fields, priced over the whole table by the written view and per order by the corrected one. |
| Views.SingleLineCheckout | shop_app/views.py:136-147 | Checkout of one product with quantity 3, priced per order, saves one row with that quantity and prices the order at three times the product's price. |
| Views.MissingProductIsDropped | shop_app/views.py:130 | With only A in the catalog and a cart of A x 3 and a slug no product carries x 2, checkout in the corrected view saves the single line A x 3, prices the order at three times A's price, clears the cart and redirects. |
| Views.InvalidOrderFormKeepsCart | shop_app/views.py:132-157 | With a non-empty cart, an order form that does not validate changes nothing; the page shows the form's errors, the cart total and the cart's count. |
| Views.InvalidOrderFormSavesNothing | shop_app/views.py:126-157 | With any cart, an empty one included, an order form that does not validate saves no order and no line item and keeps the cart; on an empty cart the written view also queues the cart error message and shows the errors with a total and a count of 0. |
| Views.EmptyCartPlacesEmptyOrder | shop_app/views.py:126-130 | As written, an empty cart only queues the error message, and a valid order form then saves an order with no line items, priced by the written calc_price at the sum of every line item already stored (0 when there is none), adds no row and redirects. |
| Views.AbsentCartRaises | shop_app/views.py:126-130 | As written, a session without a cart ends in a server error, whatever was sent, with no order saved. |
| Views.FixedViewNeedsACart | shop_app/views.py:127-129 | With the redirect returned, an empty or absent cart redirects to the cart page and saves nothing. |
| Views.CartClearedOnlyWithPricedOrder | shop_app/views.py:138-141 | The cart is deleted only together with one newly saved order that has a price. |
| Views.OrderPage | shop_app/views.py:132-157 | After the cart check, the state and response are those `OrderPageSpec` gives for a GET or a POST. |
| Views.AddLineItems | shop_app/views.py:136-137 | The loop inserts the line items one by one and stops at the first failing insert; the order table is unchanged and the line items added are exactly those before the failure. |
| Views.PlaceOrder | shop_app/views.py:135-147 | The state and response after the checkout steps are those `PlaceOrderSpec` gives from the state before them. |
| Views.OrderView | shop_app/views.py:125-157 | order_view as written: the state and response are those `OrderViewSpec` gives, including the missing return and the price summed over the whole line-item table. |
| Views.OrderViewFixed | shop_app/views.py:125-157 | order_view with the redirect returned and the order priced over its own line items: the state and response are those `OrderViewFixedSpec` gives. |

## Left out

- I/O is left out: template rendering, HTTP request parsing, the mail transport and the database engine. Each view's response is a datatype. The mail outcome (`MailOutcome`) and a database error at the k-th line-item insert (`DbFault`) are parameters.
- Session persistence is left out. Django saves a modified session only when the response is not a server error. The model shows the session as the view left it, so it does not capture that the cart deletion, or a message queued before a 500, is not saved.
- The e-mail address check of `EmailField` belongs to the web framework. It is the `isEmail` parameter of `ValidateOrderForm`.
- The form library strips surrounding whitespace from text fields. The model treats values as already stripped.
- The form's conversion of a submitted string into an integer is left out. The raw value is given as `RawInt` (blank, not an integer, or an integer).
- The 12-digit bound of the decimal price column is not modelled. A price too large to store raises an error on save.
- `cart_view` starts its total from the float 0.0. The model uses whole cents throughout, so an empty cart's total is the integer 0.
- The line item stores a copy of the product. A price change in the catalog after checkout is not reflected in the model, as it would be through the foreign key.
- A database error other than the injected one and a negative quantity is left out, for example at the order insert or at the price update.
- `ProductListView`, `filters.py`, `delete_item_view`, the URL configuration and the admin (its status actions and previews) are not part of this model. They are listing, routing and admin plumbing around the core.
- `Product.image_preview`, `OrderItems.image_preview` and `Category` are left out. They only render or group products.
- Concurrent requests (a double submit of the order form) are left out. Each request runs alone.

## Findings

| source | as written | input that shows it | evidently intended | confidence | as-written member | corrected member |
|---|---|---|---|---|---|---|
| shop_app/views.py:127-129 | `redirect('shop:cart')` is called but not returned, so an empty or absent cart falls through: an absent cart makes the product filter raise, and an empty cart goes on to checkout | a session whose cart is `{}` and a valid order form: an order with no line items is saved, priced at the sum of every line item stored before (0 when the table is empty) | an empty or absent cart returns the redirect to the cart page and saves nothing | not executed | Views.EmptyCartPlacesEmptyOrder | Views.FixedViewNeedsACart |
| shop_app/models.py:80 | `calc_price` sums price times quantity over every row of the line-item table, whatever order it belongs to | an existing line of order 1 (1.50 x 3) and a new order 2 with one line of 2.00 x 2: order 2 is priced 8.50 instead of 4.00 | the sum over the order's own line items | not executed | Models.CalcPriceAsWrittenCountsOtherOrders | Models.CalcPriceIgnoresOtherOrders |
| shop_app/views.py:100-103 | the loop assigns each line's total to `price` instead of adding it, so the page shows only the last line | a cart of A at 1.50 x 3 and B at 2.00 x 2: the page shows 4.00 instead of 8.50 | the sum of the line totals, as the order page computes it | not executed | Views.CartViewShowsLastLineOnly | Views.CartView |
