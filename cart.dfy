/** The session-scoped shopping cart: a map from product slug to quantity,
    kept under the session's 'cart' key, which is absent until the first
    product is added. Also the product query a cart drives and its total. */
module Cart {
  import opened Wrappers
  import opened Models
  import opened Forms

  type CartMap = map<Slug, int>

  datatype Level = Success | Warning | Error

  /** A flash message queued for the next page. */
  datatype Message = Message(level: Level, text: string)

  const ADDED: Message := Message(Success, "Added to cart.")
  const REMOVED: Message := Message(Success, "Removed from cart.")
  const SOMETHING_WRONG: Message := Message(Warning, "Something go wrong.")

  /** The entries of a possibly absent cart. */
  function Entries(cart: Option<CartMap>): CartMap {
    if cart.Some? then cart.value else map[]
  }

  /** The cart after a product's quantity is set: the new quantity replaces
      any earlier one, an absent cart starts out empty, and every other entry
      is kept. */
  function SetQuantity(cart: Option<CartMap>, slug: Slug, quantity: int): (r: CartMap)
    ensures r.Keys == Entries(cart).Keys + {slug}
    ensures r[slug] == quantity
    ensures forall s :: s in Entries(cart) && s != slug ==> r[s] == Entries(cart)[s]
  {
    Entries(cart)[slug := quantity]
  }

  /** The cart after a product is taken out: that key goes, the rest stay. */
  function RemoveSlug(cart: CartMap, slug: Slug): (r: CartMap)
    ensures r.Keys == cart.Keys - {slug}
    ensures forall s :: s in r ==> r[s] == cart[s]
  {
    cart - {slug}
  }

  /** Setting a quantity twice keeps only the second (last write wins). */
  lemma LastWriteWins(cart: Option<CartMap>, slug: Slug, q1: int, q2: int)
    ensures SetQuantity(Some(SetQuantity(cart, slug, q1)), slug, q2) == SetQuantity(cart, slug, q2)
  {
  }

  /** The first product added to a session makes the cart exactly {slug: quantity}. */
  lemma FirstAddCreatesCart(slug: Slug, quantity: int)
    ensures SetQuantity(None, slug, quantity) == map[slug := quantity]
  {
  }

  /** Removing a product that was just added to a cart without it gives the cart back. */
  lemma RemoveUndoesAdd(cart: CartMap, slug: Slug, quantity: int)
    requires slug !in cart
    ensures RemoveSlug(SetQuantity(Some(cart), slug, quantity), slug) == cart
  {
  }

  /** Every quantity is one the quantity form accepts. */
  predicate QuantitiesInRange(cart: CartMap) {
    forall s :: s in cart ==> MIN_QUANTITY <= cart[s] <= MAX_QUANTITY
  }

  /** A quantity the form cleaned keeps a well-formed cart well-formed. */
  lemma CleanedQuantityKeepsRange(cart: Option<CartMap>, slug: Slug, raw: RawInt)
    requires QuantitiesInRange(Entries(cart)) && CleanQuantity(raw).Ok?
    ensures QuantitiesInRange(SetQuantity(cart, slug, CleanQuantity(raw).value))
  {
  }

  /** The products whose slug is a key of the cart, in the product table's
      order; a key without a product contributes nothing. */
  function ProductsInCart(products: seq<Product>, cart: CartMap): (items: seq<Product>)
    ensures forall p :: p in items ==> p in products && p.slug in cart
    ensures forall p :: p in products && p.slug in cart ==> p in items
    ensures |items| <= |products|
    ensures cart == map[] ==> items == []
  {
    if products == [] then []
    else
      var rest := ProductsInCart(products[..|products| - 1], cart);
      assert forall p :: p in products ==> p in products[..|products| - 1] || p == products[|products| - 1];
      var last := products[|products| - 1];
      if last.slug in cart then rest + [last] else rest
  }

  /** Over a table with unique slugs, the cart's products carry unique slugs too. */
  lemma {:induction false} ProductsInCartUnique(products: seq<Product>, cart: CartMap)
    requires UniqueSlugs(products)
    ensures UniqueSlugs(ProductsInCart(products, cart))
    decreases |products|
  {
    if products != [] {
      var init := products[..|products| - 1];
      var last := products[|products| - 1];
      assert UniqueSlugs(init) by {
        forall i, j | 0 <= i < j < |init| ensures init[i].slug != init[j].slug {
          assert init[i] == products[i] && init[j] == products[j];
        }
      }
      ProductsInCartUnique(init, cart);
      var rest := ProductsInCart(init, cart);
      if last.slug in cart {
        forall p | p in rest ensures p.slug != last.slug {
          var k :| 0 <= k < |init| && init[k] == p;
          assert products[k] == p;
        }
        var items := rest + [last];
        forall i, j | 0 <= i < j < |items| ensures items[i].slug != items[j].slug {
          if j == |rest| {
            assert items[i] in rest;
          } else {
            assert items[i] == rest[i] && items[j] == rest[j];
          }
        }
      }
    }
  }

  /** A key of the cart has a line among the cart's products exactly when some
      product carries it: keys without a product are dropped. */
  lemma ProductsInCartSlugs(products: seq<Product>, cart: CartMap, slug: Slug)
    ensures (exists p :: p in ProductsInCart(products, cart) && p.slug == slug)
            <==> slug in cart && FindProduct(products, slug).Some?
  {
    if slug in cart && FindProduct(products, slug).Some? {
      var p := FindProduct(products, slug).value;
      assert p in ProductsInCart(products, cart);
    }
  }

  /** One product's line total: its price times its quantity in the cart. */
  function LineTotal(p: Product, cart: CartMap): int
    requires p.slug in cart
  {
    p.price * cart[p.slug]
  }

  predicate AllInCart(items: seq<Product>, cart: CartMap) {
    forall p :: p in items ==> p.slug in cart
  }

  /** The cart's total: the sum of the line totals of the given products. */
  function Total(items: seq<Product>, cart: CartMap): (total: int)
    requires AllInCart(items, cart)
    ensures items == [] ==> total == 0
    ensures |items| == 1 ==> total == LineTotal(items[0], cart)
  {
    if items == [] then 0
    else
      assert items[|items| - 1] in items;
      Total(items[..|items| - 1], cart) + LineTotal(items[|items| - 1], cart)
  }

  /** The web session: the cart entry and the queued messages. */
  class Session {
    var cart: Option<CartMap>
    var messages: seq<Message>

    constructor ()
      ensures cart == None && messages == []
    {
      cart := None;
      messages := [];
    }

    /** Sets a product's quantity, creating the cart on first use. */
    method AddToCart(slug: Slug, quantity: int)
      modifies this
      ensures cart == Some(SetQuantity(old(cart), slug, quantity))
      ensures messages == old(messages) + [ADDED]
    {
      var entries := if cart.Some? then cart.value else map[];
      cart := Some(entries[slug := quantity]);
      messages := messages + [ADDED];
    }

    /** Takes a product out of the cart; a missing cart or a missing key is
        reported as a warning and changes nothing. */
    method RemoveFromCart(slug: Slug) returns (removed: bool)
      modifies this
      ensures removed <==> old(cart).Some? && slug in old(cart).value
      ensures removed ==> cart == Some(RemoveSlug(old(cart).value, slug))
                          && messages == old(messages) + [REMOVED]
      ensures !removed ==> cart == old(cart) && messages == old(messages) + [SOMETHING_WRONG]
    {
      if cart.Some? && slug in cart.value {
        cart := Some(cart.value - {slug});
        messages := messages + [REMOVED];
        removed := true;
      } else {
        messages := messages + [SOMETHING_WRONG];
        removed := false;
      }
    }

    /** Queues a flash message. */
    method AddMessage(m: Message)
      modifies this
      ensures messages == old(messages) + [m] && cart == old(cart)
    {
      messages := messages + [m];
    }

    /** Deletes the cart key of the session. */
    method DeleteCart()
      requires cart.Some?
      modifies this
      ensures cart == None && messages == old(messages)
    {
      cart := None;
    }

    /** The stored cart, or None when the session has no cart key (none was
        created yet, or checkout deleted it). An emptied cart is still
        returned as an empty map, not as None. */
    function GetCartItems(): (r: Option<CartMap>)
      reads this
      ensures r.None? <==> cart.None?
      ensures r.Some? ==> r.value == cart.value
    {
      cart
    }

    /** The number of distinct products in the cart; 0 when there is no cart. */
    function CountCartItems(): (n: nat)
      reads this
      ensures n == |Entries(cart)|
      ensures n == 0 <==> cart == None || cart == Some(map[])
    {
      var items := GetCartItems();
      if items.Some? && items.value != map[] then |items.value| else 0
    }
  }
}
