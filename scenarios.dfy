/** Concrete runs over the shipped catalog: the category filter and price
    sort, repeated adds of one line, and checkout followed by the thank-you
    countdown, with and without cancellation. */
module Scenarios {
  import opened Options
  import opened Catalog
  import opened Cart
  import opened Storefront

  /** The racing category holds only the Pulse Racer. */
  lemma RacingCategory()
    ensures FilterAndSort(Products, "racing", "price-low") == [Products[2]]
  {
    var kept := InCategory(Products, "racing");
    assert kept == [Products[2]];
  }

  /** Price ascending orders id 1 (149.99), id 3 (169.99), id 2 (189.99). */
  lemma PriceLowOrder()
    ensures FilterAndSort(Products, "", "price-low") == [Products[0], Products[2], Products[1]]
  {
    var p0, p1, p2 := Products[0], Products[1], Products[2];
    assert InCategory(Products, "") == Products;
    assert Products[1..][1..] == [p2];
    assert SortBy(PriceLow, [p2]) == [p2];
    assert Insert(PriceLow, p1, [p2]) == [p2, p1];
    assert SortBy(PriceLow, Products[1..]) == [p2, p1];
    assert Insert(PriceLow, p0, [p2, p1]) == [p0, p2, p1];
  }

  /** Two adds of product 1 in size 9 give one line of five pairs,
      749.95 in all. */
  lemma AddTwice()
    ensures Add(Add([], Products, 1, 2, 9), Products, 1, 3, 9) ==
            [Line(1, "AEROMERGE Drift Knit", 14999, "€", "👟", 9, 5)]
    ensures Subtotal(Add(Add([], Products, 1, 2, 9), Products, 1, 3, 9)) == 74995
  {
    assert FindById(Products, 1) == Some(Products[0]);
    var once := Add([], Products, 1, 2, 9);
    assert once == [Line(1, "AEROMERGE Drift Knit", 14999, "€", "👟", 9, 2)];
    assert IndexOf(once, 1, 9) == 0;
    var twice := Add(once, Products, 1, 3, 9);
    assert twice == [Line(1, "AEROMERGE Drift Knit", 14999, "€", "👟", 9, 5)];
    assert twice[..|twice| - 1] == [];
    assert Sum(twice, Amount) == Sum(twice[..|twice| - 1], Amount) + LineTotal(twice[|twice| - 1]);
  }

  /** Proceed to Checkout is refused while the cart is empty and goes to the
      checkout page once a pair has been added. */
  method CheckoutGuard() returns (refused: Option<Notice>, accepted: Option<Notice>, page: string)
    ensures refused == Some(Notice("Your cart is empty", Error))
    ensures accepted == None && page == "checkout"
  {
    var s := new Storefront(Products, CorePages);
    refused := s.ProceedToCheckout();
    var notice := s.AddToCart(1, 2, 9);
    accepted := s.ProceedToCheckout();
    page := s.currentPage;
  }

  /** After checkout the thank-you page shows 5 and every tick shows one
      less; the tick that shows 0 goes home, and nothing happens after that. */
  method CheckoutThenCountdown() returns (shown: seq<Option<int>>, visited: seq<string>)
    ensures shown == [Some(5), Some(4), Some(3), Some(2), Some(1), Some(0), Some(0)]
    ensures visited == ["thankyou", "thankyou", "thankyou", "thankyou", "thankyou", "home", "home"]
  {
    var s := new Storefront(Products, CorePages);
    var order := s.ProcessCheckout(0);
    shown, visited := [s.countdownShown], [s.currentPage];
    s.Tick();
    shown, visited := shown + [s.countdownShown], visited + [s.currentPage];
    s.Tick();
    shown, visited := shown + [s.countdownShown], visited + [s.currentPage];
    s.Tick();
    shown, visited := shown + [s.countdownShown], visited + [s.currentPage];
    s.Tick();
    shown, visited := shown + [s.countdownShown], visited + [s.currentPage];
    s.Tick();
    shown, visited := shown + [s.countdownShown], visited + [s.currentPage];
    s.Tick();
    shown, visited := shown + [s.countdownShown], visited + [s.currentPage];
  }

  /** A data-page link followed after the third tick stops the redirect:
      the session stays on the listing page. */
  method CancelledCountdown() returns (visited: seq<string>)
    ensures visited == ["thankyou", "thankyou", "thankyou", "thankyou", "products", "products", "products", "products"]
  {
    var s := new Storefront(Products, CorePages);
    var order := s.ProcessCheckout(0);
    visited := [s.currentPage];
    s.Tick();
    visited := visited + [s.currentPage];
    s.Tick();
    visited := visited + [s.currentPage];
    s.Tick();
    visited := visited + [s.currentPage];
    s.FollowPageLink("products");
    visited := visited + [s.currentPage];
    s.Tick();
    visited := visited + [s.currentPage];
    s.Tick();
    visited := visited + [s.currentPage];
    s.Tick();
    visited := visited + [s.currentPage];
  }

  /** The cart icon shows the cart page without cancelling: the running
      countdown still takes the session home. */
  method CartIconDuringCountdown() returns (visited: seq<string>)
    ensures visited == ["thankyou", "thankyou", "cart", "cart", "cart", "cart", "home"]
  {
    var s := new Storefront(Products, CorePages);
    var order := s.ProcessCheckout(0);
    visited := [s.currentPage];
    s.Tick();
    visited := visited + [s.currentPage];
    s.ShowPage("cart");
    visited := visited + [s.currentPage];
    s.Tick();
    visited := visited + [s.currentPage];
    s.Tick();
    visited := visited + [s.currentPage];
    s.Tick();
    visited := visited + [s.currentPage];
    s.Tick();
    visited := visited + [s.currentPage];
  }
}
