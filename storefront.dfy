/** The page session: the module-level state of app.js (current page, cart,
    product in focus, filtered product list, the thank-you redirect) held in
    one object, with a method per handler that changes it. Timers are
    explicit: `Tick` is the one-second redirect callback firing. */
module Storefront {
  import opened Options
  import opened Catalog
  import opened Cart
  import opened Orders

  /** The page ids app.js itself navigates to; `showPage` works only for ids
      whose section the document provides, and the document provides these. */
  const CorePages: set<string> := {"home", "products", "product", "cart", "checkout", "thankyou"}

  /** A toast: its text and whether it reports success or an error. */
  datatype NoticeKind = Success | Error
  datatype Notice = Notice(message: string, kind: NoticeKind)

  /** What a page's entry hook loads into it. */
  datatype PageView =
    | HomeView(featured: seq<Product>)
    | ListingView(products: seq<Product>)
    | CartPageView(cartView: CartView)
    | CheckoutView(summary: CheckoutSummary)
    | NoEntryHook

  class Storefront {
    /** The product list the page was loaded with. */
    const catalog: seq<Product>
    /** The ids of the page sections present in the document. */
    const pages: set<string>

    var currentPage: string
    var cart: seq<Line>
    var currentProduct: Option<Product>
    var filteredProducts: seq<Product>
    /** A redirect callback is scheduled (`redirectTimeout` holds a live timer). */
    var redirectPending: bool
    /** The `seconds` variable of the running countdown. */
    var seconds: int
    /** The number last written into the countdown element. */
    var countdownShown: Option<int>

    ghost predicate Valid()
      reads this
    {
      && CorePages <= pages
      && currentPage in pages
      && UniqueKeys(cart)
      && (currentProduct.Some? ==> currentProduct.value in catalog)
      && (forall i :: 0 <= i < |filteredProducts| ==> filteredProducts[i] in catalog)
      && (redirectPending ==> 0 <= seconds <= 4)
    }

    /** The catalog and cart part of the session. */
    function Shop(): (seq<Line>, Option<Product>, seq<Product>)
      reads this
    {
      (cart, currentProduct, filteredProducts)
    }

    /** The redirect part of the session. */
    function Countdown(): (bool, int, Option<int>)
      reads this
    {
      (redirectPending, seconds, countdownShown)
    }

    /** The state after `DOMContentLoaded`: home page, empty cart, the whole
        catalog listed, no redirect. */
    constructor (catalog: seq<Product>, pages: set<string>)
      requires CorePages <= pages
      ensures Valid() && this.catalog == catalog && this.pages == pages
      ensures currentPage == "home" && cart == [] && currentProduct == None
      ensures filteredProducts == catalog
      ensures !redirectPending && countdownShown == None
    {
      this.catalog := catalog;
      this.pages := pages;
      currentPage := "home";
      cart := [];
      currentProduct := None;
      filteredProducts := catalog;
      redirectPending := false;
      seconds := 0;
      countdownShown := None;
    }

    /** `showPage(pageId)`: an id without a section is ignored; otherwise it
        becomes the current page and its entry hook runs. Only the
        thank-you page's hook changes state: it starts the countdown. */
    method ShowPage(pageId: string)
      requires Valid()
      modifies this
      decreases if pageId == "thankyou" then 1 else 0, 3
      ensures Valid() && Shop() == old(Shop())
      ensures pageId !in pages ==> currentPage == old(currentPage) && Countdown() == old(Countdown())
      ensures pageId in pages ==> currentPage == pageId
      ensures pageId != "thankyou" ==> Countdown() == old(Countdown())
      ensures pageId == "thankyou" && pageId in pages ==>
                redirectPending && seconds == 4 && countdownShown == Some(5)
    {
      if pageId in pages {
        currentPage := pageId;
        InitializePage(pageId);
      }
    }

    /** The state-changing part of `initializePage`; what the other pages'
        hooks load is `CurrentView`. */
    method InitializePage(pageId: string)
      requires Valid() && currentPage == pageId
      modifies this
      decreases if pageId == "thankyou" then 1 else 0, 2
      ensures Valid() && Shop() == old(Shop()) && currentPage == pageId
      ensures pageId != "thankyou" ==> Countdown() == old(Countdown())
      ensures pageId == "thankyou" ==> redirectPending && seconds == 4 && countdownShown == Some(5)
    {
      if pageId == "thankyou" {
        StartRedirectCountdown();
      }
    }

    /** `startRedirectCountdown`: shows 5 at once and schedules the next
        tick. The model has one redirect slot, so a countdown still running
        is replaced. */
    method StartRedirectCountdown()
      requires Valid()
      modifies this
      decreases 1, 1
      ensures Valid() && Shop() == old(Shop()) && currentPage == old(currentPage)
      ensures redirectPending && seconds == 4 && countdownShown == Some(5)
    {
      seconds := 5;
      redirectPending := false;
      UpdateCountdown();
    }

    /** The `updateCountdown` closure: shows the remaining seconds; at 0 it
        goes home and schedules nothing, otherwise it counts down and
        schedules itself again. */
    method UpdateCountdown()
      requires Valid() && !redirectPending && 0 <= seconds <= 5
      modifies this
      decreases 1, 0
      ensures Valid() && Shop() == old(Shop())
      ensures countdownShown == Some(old(seconds))
      ensures old(seconds) > 0 ==>
                redirectPending && seconds == old(seconds) - 1 && currentPage == old(currentPage)
      ensures old(seconds) == 0 ==> !redirectPending && seconds == 0 && currentPage == "home"
    {
      countdownShown := Some(seconds);
      if seconds <= 0 {
        ShowPage("home");
        return;
      }
      seconds := seconds - 1;
      redirectPending := true;
    }

    /** One second passes: the scheduled redirect callback, if any, fires. */
    method Tick()
      requires Valid()
      modifies this
      ensures Valid() && Shop() == old(Shop())
      ensures !old(redirectPending) ==> unchanged(this)
      ensures old(redirectPending) ==> countdownShown == Some(old(seconds))
      ensures old(redirectPending) && old(seconds) > 0 ==>
                redirectPending && seconds == old(seconds) - 1 && currentPage == old(currentPage)
      ensures old(redirectPending) && old(seconds) == 0 ==> !redirectPending && currentPage == "home"
    {
      if redirectPending {
        redirectPending := false;
        UpdateCountdown();
      }
    }

    /** A click on an element with `data-page`: the pending redirect is
        cancelled, then the page is shown. */
    method FollowPageLink(pageId: string)
      requires Valid()
      modifies this
      ensures Valid() && Shop() == old(Shop())
      ensures pageId in pages ==> currentPage == pageId
      ensures pageId !in pages ==> currentPage == old(currentPage)
      ensures !(pageId == "thankyou" && pageId in pages) ==> !redirectPending
      ensures !(pageId == "thankyou" && pageId in pages) ==>
                seconds == old(seconds) && countdownShown == old(countdownShown)
      ensures pageId == "thankyou" && pageId in pages ==>
                redirectPending && seconds == 4 && countdownShown == Some(5)
    {
      redirectPending := false;
      ShowPage(pageId);
    }

    /** The Continue Shopping button: cancels the redirect and goes home. */
    method ContinueShopping()
      requires Valid()
      modifies this
      ensures Valid() && Shop() == old(Shop())
      ensures currentPage == "home" && !redirectPending
      ensures seconds == old(seconds) && countdownShown == old(countdownShown)
    {
      redirectPending := false;
      ShowPage("home");
    }

    /** A click on an element with `data-category`: the listing page, then
        `filterProducts` with that category and the current sort selection.
        The redirect is not cancelled on this path. */
    method FollowCategoryLink(category: string, sortValue: string)
      requires Valid()
      modifies this
      ensures Valid()
      ensures currentPage == "products" && Countdown() == old(Countdown())
      ensures cart == old(cart) && currentProduct == old(currentProduct)
      ensures filteredProducts == FilterAndSort(catalog, category, sortValue)
    {
      ShowPage("products");
      FilterProducts(category, sortValue);
    }

    /** `showProductDetail(productId)`: an unknown id does nothing; a known one
        becomes the product in focus and the product page is shown. */
    method ShowProductDetail(productId: int)
      requires Valid()
      modifies this
      ensures Valid()
      ensures FindById(catalog, productId).None? ==> unchanged(this)
      ensures FindById(catalog, productId).Some? ==>
                currentProduct == FindById(catalog, productId) && currentPage == "product" &&
                cart == old(cart) && filteredProducts == old(filteredProducts) &&
                Countdown() == old(Countdown())
    {
      var product := FindById(catalog, productId);
      if product.None? {
        return;
      }
      currentProduct := product;
      ShowPage("product");
    }

    /** `filterProducts`: starts again from the whole catalog, keeps the
        selected category (all of them for the empty value) and sorts. */
    method FilterProducts(categoryValue: string, sortValue: string)
      requires Valid()
      modifies this
      ensures Valid()
      ensures filteredProducts == FilterAndSort(catalog, categoryValue, sortValue)
      ensures cart == old(cart) && currentProduct == old(currentProduct)
      ensures currentPage == old(currentPage) && Countdown() == old(Countdown())
    {
      var kept := InCategory(catalog, categoryValue);
      var key := ParseSortKey(sortValue);
      var sorted := SortBy(key, kept);
      assert sorted == FilterAndSort(catalog, categoryValue, sortValue);
      filteredProducts := sorted;
    }

    /** `searchProducts(query)`: replaces the list with the search result
        over the whole catalog, whatever category or order was selected. */
    method SearchProducts(query: string)
      requires Valid()
      modifies this
      ensures Valid()
      ensures filteredProducts == Search(catalog, query)
      ensures cart == old(cart) && currentProduct == old(currentProduct)
      ensures currentPage == old(currentPage) && Countdown() == old(Countdown())
    {
      filteredProducts := Search(catalog, query);
    }

    /** `addToCart(productId, quantity, size)`. */
    method AddToCart(productId: int, quantity: int, size: int) returns (notice: Option<Notice>)
      requires Valid()
      modifies this
      ensures Valid()
      ensures cart == Add(old(cart), catalog, productId, quantity, size)
      ensures notice == match FindById(catalog, productId)
                        case None => None
                        case Some(p) => Some(Notice(p.name + " added to cart!", Success))
      ensures currentPage == old(currentPage) && currentProduct == old(currentProduct)
      ensures filteredProducts == old(filteredProducts) && Countdown() == old(Countdown())
    {
      var found := FindById(catalog, productId);
      if found.None? {
        return None;
      }
      var product := found.value;
      AddLineKeepsUniqueKeys(cart, product, quantity, size);
      var index := IndexOf(cart, productId, size);
      if index >= 0 {
        cart := cart[index := cart[index].(quantity := cart[index].quantity + quantity)];
      } else {
        cart := cart + [Snapshot(product, size, quantity)];
      }
      assert cart == AddLine(old(cart), product, quantity, size);
      notice := Some(Notice(product.name + " added to cart!", Success));
    }

    /** The product page's Buy Now button: the add, then the cart page. */
    method BuyNow(productId: int, quantity: int, size: int) returns (notice: Option<Notice>)
      requires Valid()
      modifies this
      ensures Valid()
      ensures cart == Add(old(cart), catalog, productId, quantity, size)
      ensures notice == match FindById(catalog, productId)
                        case None => None
                        case Some(p) => Some(Notice(p.name + " added to cart!", Success))
      ensures currentPage == "cart" && currentProduct == old(currentProduct)
      ensures filteredProducts == old(filteredProducts) && Countdown() == old(Countdown())
    {
      notice := AddToCart(productId, quantity, size);
      ShowPage("cart");
    }

    /** `removeFromCart(productId, size)`. */
    method RemoveFromCart(productId: int, size: int) returns (notice: Option<Notice>)
      requires Valid()
      modifies this
      ensures Valid()
      ensures cart == Remove(old(cart), productId, size)
      ensures !InCart(old(cart), productId, size) ==> notice == None
      ensures InCart(old(cart), productId, size) ==>
                notice == Some(Notice(old(cart)[IndexOf(old(cart), productId, size)].name + " removed from cart", Success))
      ensures currentPage == old(currentPage) && currentProduct == old(currentProduct)
      ensures filteredProducts == old(filteredProducts) && Countdown() == old(Countdown())
    {
      var index := IndexOf(cart, productId, size);
      if index == -1 {
        return None;
      }
      var item := cart[index];
      RemoveKeepsUniqueKeys(cart, productId, size);
      cart := cart[..index] + cart[index + 1..];
      notice := Some(Notice(item.name + " removed from cart", Success));
    }

    /** `updateCartItemQuantity(productId, size, newQuantity)`, used by the
        cart page's minus and plus buttons. */
    method UpdateCartItemQuantity(productId: int, size: int, newQuantity: int) returns (notice: Option<Notice>)
      requires Valid()
      modifies this
      ensures Valid()
      ensures cart == UpdateQuantity(old(cart), productId, size, newQuantity)
      ensures !(InCart(old(cart), productId, size) && newQuantity <= 0) ==> notice == None
      ensures InCart(old(cart), productId, size) && newQuantity <= 0 ==>
                notice == Some(Notice(old(cart)[IndexOf(old(cart), productId, size)].name + " removed from cart", Success))
      ensures currentPage == old(currentPage) && currentProduct == old(currentProduct)
      ensures filteredProducts == old(filteredProducts) && Countdown() == old(Countdown())
    {
      var index := IndexOf(cart, productId, size);
      if index < 0 {
        return None;
      }
      UpdateQuantityKeepsUniqueKeys(cart, productId, size, newQuantity);
      if newQuantity <= 0 {
        notice := RemoveFromCart(productId, size);
      } else {
        cart := cart[index := cart[index].(quantity := newQuantity)];
        notice := None;
      }
    }

    /** The Proceed to Checkout button: refused with an error toast while
        the cart is empty, otherwise the checkout page. */
    method ProceedToCheckout() returns (notice: Option<Notice>)
      requires Valid()
      modifies this
      ensures Valid()
      ensures old(cart) == [] ==> unchanged(this) && notice == Some(Notice("Your cart is empty", Error))
      ensures old(cart) != [] ==> currentPage == "checkout" && notice == None
      ensures Shop() == old(Shop()) && Countdown() == old(Countdown())
    {
      if |cart| == 0 {
        return Some(Notice("Your cart is empty", Error));
      }
      ShowPage("checkout");
      notice := None;
    }

    /** `processCheckout`, called when the payment form is submitted (the
        1.5 s processing delay is not modelled): the order summarises the
        cart, the cart is emptied and the thank-you page is shown. The cart
        is not checked: an empty cart gives an empty order. */
    method ProcessCheckout(now: nat) returns (order: Order)
      requires Valid()
      modifies this
      ensures Valid()
      ensures order.number == OrderNumber(now) && order.lines == old(cart)
      ensures |order.lineTotals| == |old(cart)|
      ensures forall i :: 0 <= i < |old(cart)| ==> order.lineTotals[i] == LineTotal(old(cart)[i])
      ensures order.total == Subtotal(old(cart))
      ensures cart == [] && currentPage == "thankyou"
      ensures redirectPending && seconds == 4 && countdownShown == Some(5)
      ensures currentProduct == old(currentProduct) && filteredProducts == old(filteredProducts)
    {
      var lineTotals, total := Tally(cart);
      order := Order(OrderNumber(now), cart, lineTotals, total);
      cart := [];
      ShowPage("thankyou");
    }

    /** What the entry hook of the current page loads: the featured products
        for home, the filtered list for the listing, the cart lines and
        totals for the cart page, the order summary for checkout. */
    method CurrentView() returns (view: PageView)
      requires Valid()
      ensures currentPage == "home" ==> view == HomeView(Featured(catalog))
      ensures currentPage == "products" ==> view == ListingView(filteredProducts)
      ensures currentPage == "cart" ==>
                view.CartPageView? && (view.cartView.empty <==> cart == []) &&
                view.cartView.subtotal == Subtotal(cart) && view.cartView.total == Subtotal(cart) &&
                |view.cartView.lineTotals| == |cart| &&
                (forall i :: 0 <= i < |cart| ==> view.cartView.lineTotals[i] == LineTotal(cart[i]))
      ensures currentPage == "checkout" ==>
                view.CheckoutView? && (view.summary.NoItems? <==> cart == []) &&
                (view.summary.Summary? ==>
                   view.summary.total == Subtotal(cart) && |view.summary.lineTotals| == |cart| &&
                   forall i :: 0 <= i < |cart| ==> view.summary.lineTotals[i] == LineTotal(cart[i]))
      ensures currentPage !in {"home", "products", "cart", "checkout"} ==> view == NoEntryHook
    {
      if currentPage == "home" {
        view := HomeView(Featured(catalog));
      } else if currentPage == "products" {
        view := ListingView(filteredProducts);
      } else if currentPage == "cart" {
        var cartView := LoadCartItems(cart);
        view := CartPageView(cartView);
      } else if currentPage == "checkout" {
        var summary := LoadCheckoutOrderSummary(cart);
        view := CheckoutView(summary);
      } else {
        view := NoEntryHook;
      }
    }
  }
}
