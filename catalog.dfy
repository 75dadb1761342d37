/** The immutable product list and the read-only queries over it:
    lookup by id, the featured filter, the category filter with its four
    sort orders, and the free-text search. */
module Catalog {
  import opened Options
  import opened Seqs
  import opened Text

  /** A product record. Prices are integer cents (149.99 is 14999). */
  datatype Product = Product(
    id: int,
    name: string,
    price: int,
    currency: string,
    category: string,
    colors: seq<string>,
    sizes: seq<int>,
    description: string,
    image: string,
    featured: bool,
    stock: nat)

  /** The catalog the page is loaded with. */
  const Products: seq<Product> := [
    Product(
      1, "AEROMERGE Drift Knit", 14999, "€", "lifestyle",
      ["Cream", "Orange", "Blue"], [7, 8, 9, 10, 11, 12],
      "Comfortable knitted casual shoe perfect for everyday wear with premium materials and superior comfort.",
      "👟", true, 50),
    Product(
      2, "AEROMERGE Velocity Knit", 18999, "€", "sneakers",
      ["Dark Grey", "Lime", "Blue"], [7, 8, 9, 10, 11, 12],
      "High-performance running shoe with advanced knit technology and superior energy return.",
      "🏃", true, 35),
    Product(
      3, "AEROMERGE Pulse Racer", 16999, "€", "racing",
      ["Coral", "Teal", "White"], [7, 8, 9, 10, 11, 12],
      "Sporty lifestyle shoe with visible air cushioning and dynamic color blocking.",
      "⚡", true, 42)
  ]

  predicate UniqueIds(ps: seq<Product>) {
    forall i, j :: 0 <= i < j < |ps| ==> ps[i].id != ps[j].id
  }

  /** The shipped catalog: ids 1 to 3, each featured, priced and in stock. */
  lemma ShippedCatalog()
    ensures |Products| == 3 && UniqueIds(Products)
    ensures forall i :: 0 <= i < |Products| ==>
              Products[i].id == i + 1 && Products[i].featured && Products[i].price > 0 && Products[i].stock > 0
  {
  }

  /** `products.find(p => p.id === id)`: the first product with that id, or
      nothing when no product has it. */
  function FindById(ps: seq<Product>, id: int): (r: Option<Product>)
    ensures r.None? <==> forall i :: 0 <= i < |ps| ==> ps[i].id != id
    ensures r.Some? ==> exists i :: 0 <= i < |ps| && ps[i] == r.value && ps[i].id == id &&
                                    forall j :: 0 <= j < i ==> ps[j].id != id
  {
    if ps == [] then None
    else if ps[0].id == id then Some(ps[0])
    else
      var r := FindById(ps[1..], id);
      assert r.Some? ==> exists i :: 0 <= i < |ps| - 1 && ps[1..][i] == r.value && ps[i + 1].id == id &&
                                     forall j :: 0 <= j < i ==> ps[1..][j].id != id;
      r
  }

  /** With unique ids the product found is the one at the index holding that id. */
  lemma FindByUniqueId(ps: seq<Product>, i: nat)
    requires UniqueIds(ps) && i < |ps|
    ensures FindById(ps, ps[i].id) == Some(ps[i])
  {
  }

  /** The home page's grid: `products.filter(p => p.featured)`. */
  function Featured(ps: seq<Product>): (r: seq<Product>)
    ensures IsSubseq(r, ps)
    ensures forall i :: 0 <= i < |r| ==> r[i] in ps && r[i].featured
    ensures forall i :: 0 <= i < |ps| && ps[i].featured ==> ps[i] in r
  {
    Filter(ps, (p: Product) => p.featured)
  }

  /** The category select: the empty value means all products. */
  function InCategory(ps: seq<Product>, category: string): (r: seq<Product>)
    ensures category == "" ==> r == ps
    ensures IsSubseq(r, ps)
    ensures forall i :: 0 <= i < |r| ==> r[i] in ps && (category == "" || r[i].category == category)
    ensures forall i :: 0 <= i < |ps| && (category == "" || ps[i].category == category) ==> ps[i] in r
  {
    if category != "" then Filter(ps, (p: Product) => p.category == category)
    else
      SubseqRefl(ps);
      ps
  }

  /** The orders of the sort select. Every value other than the first three
      sorts newest first, as the `default` branch of the switch does. */
  datatype SortKey = PriceLow | PriceHigh | Popularity | Newest

  function ParseSortKey(value: string): (k: SortKey)
    ensures k == PriceLow <==> value == "price-low"
    ensures k == PriceHigh <==> value == "price-high"
    ensures k == Popularity <==> value == "popularity"
    ensures value == "newest" ==> k == Newest
  {
    if value == "price-low" then PriceLow
    else if value == "price-high" then PriceHigh
    else if value == "popularity" then Popularity
    else Newest
  }

  /** Products are sorted so that `Rank` ascends: each comparator of the
      source, `(a, b) => f(a) - f(b)`, orders by `f` ascending. "Popularity"
      is the stock count, as in the source. */
  function Rank(key: SortKey, p: Product): int {
    match key
    case PriceLow => p.price
    case PriceHigh => -p.price
    case Popularity => -(p.stock as int)
    case Newest => -p.id
  }

  predicate SortedBy(key: SortKey, s: seq<Product>) {
    forall i, j :: 0 <= i < j < |s| ==> Rank(key, s[i]) <= Rank(key, s[j])
  }

  /** A lowest-ranked element in front of a sorted sequence keeps it sorted. */
  lemma SortedCons(key: SortKey, x: Product, t: seq<Product>)
    requires SortedBy(key, t)
    requires forall i :: 0 <= i < |t| ==> Rank(key, x) <= Rank(key, t[i])
    ensures SortedBy(key, [x] + t)
  {
    var r := [x] + t;
    forall i, j | 0 <= i < j < |r| ensures Rank(key, r[i]) <= Rank(key, r[j]) {
      assert r[j] == t[j - 1];
      if i > 0 {
        assert r[i] == t[i - 1];
      }
    }
  }

  /** Inserts `p` before the first element of higher rank. */
  function Insert(key: SortKey, p: Product, s: seq<Product>): (r: seq<Product>)
    requires SortedBy(key, s)
    ensures SortedBy(key, r)
    ensures multiset(r) == multiset(s) + multiset{p}
  {
    if s == [] then [p]
    else if Rank(key, p) <= Rank(key, s[0]) then
      SortedCons(key, p, s);
      [p] + s
    else
      var t := Insert(key, p, s[1..]);
      InsertPast(key, p, s, t);
      [s[0]] + t
  }

  /** The step of `Insert` that goes past the head `s[0]`: `t` is `p`
      inserted into the tail. */
  lemma InsertPast(key: SortKey, p: Product, s: seq<Product>, t: seq<Product>)
    requires SortedBy(key, s) && s != [] && Rank(key, s[0]) < Rank(key, p)
    requires SortedBy(key, t) && multiset(t) == multiset(s[1..]) + multiset{p}
    ensures SortedBy(key, [s[0]] + t)
    ensures multiset([s[0]] + t) == multiset(s) + multiset{p}
  {
    assert s == [s[0]] + s[1..];
    forall i | 0 <= i < |t| ensures Rank(key, s[0]) <= Rank(key, t[i]) {
      assert t[i] in multiset(t);
      if t[i] != p {
        assert t[i] in multiset(s[1..]);
        assert t[i] in s[1..];
        var k :| 0 <= k < |s| - 1 && s[1..][k] == t[i];
        assert s[k + 1] == t[i];
      }
    }
    SortedCons(key, s[0], t);
  }

  /** `Array.prototype.sort` with the comparator of `key`. */
  function SortBy(key: SortKey, s: seq<Product>): (r: seq<Product>)
    ensures SortedBy(key, r)
    ensures multiset(r) == multiset(s)
  {
    if s == [] then []
    else
      assert s == [s[0]] + s[1..];
      assert multiset(s) == multiset(s[1..]) + multiset{s[0]};
      Insert(key, s[0], SortBy(key, s[1..]))
  }

  /** What each sort order means for the products themselves. */
  lemma SortedByMeaning(key: SortKey, s: seq<Product>)
    requires SortedBy(key, s)
    ensures key == PriceLow ==> forall i, j :: 0 <= i < j < |s| ==> s[i].price <= s[j].price
    ensures key == PriceHigh ==> forall i, j :: 0 <= i < j < |s| ==> s[i].price >= s[j].price
    ensures key == Popularity ==> forall i, j :: 0 <= i < j < |s| ==> s[i].stock >= s[j].stock
    ensures key == Newest ==> forall i, j :: 0 <= i < j < |s| ==> s[i].id >= s[j].id
  {
    forall i, j | 0 <= i < j < |s| ensures Rank(key, s[i]) <= Rank(key, s[j]) {
    }
  }

  /** Two sequences with the same multiset hold the same elements. */
  lemma SameElements(a: seq<Product>, b: seq<Product>)
    requires multiset(a) == multiset(b)
    ensures forall i :: 0 <= i < |a| ==> a[i] in b
  {
    forall i | 0 <= i < |a| ensures a[i] in b {
      assert a[i] in multiset(a);
    }
  }

  /** `filterProducts`: the category filter applied to the whole catalog,
      then sorted by the chosen order. */
  function FilterAndSort(ps: seq<Product>, category: string, sortValue: string): (r: seq<Product>)
    ensures multiset(r) == multiset(InCategory(ps, category))
    ensures forall i :: 0 <= i < |r| ==> r[i] in ps && (category == "" || r[i].category == category)
    ensures forall i :: 0 <= i < |ps| && (category == "" || ps[i].category == category) ==> ps[i] in r
    ensures sortValue == "price-low" ==> forall i, j :: 0 <= i < j < |r| ==> r[i].price <= r[j].price
    ensures sortValue == "price-high" ==> forall i, j :: 0 <= i < j < |r| ==> r[i].price >= r[j].price
    ensures sortValue == "popularity" ==> forall i, j :: 0 <= i < j < |r| ==> r[i].stock >= r[j].stock
    ensures ParseSortKey(sortValue) == Newest ==> forall i, j :: 0 <= i < j < |r| ==> r[i].id >= r[j].id
  {
    var kept := InCategory(ps, category);
    var key := ParseSortKey(sortValue);
    var r := SortBy(key, kept);
    SameElements(r, kept);
    SameElements(kept, r);
    SortedByMeaning(key, r);
    r
  }

  /** The search predicate: the lower-cased query occurs in the lower-cased
      name, description or category. The empty query matches every product. */
  predicate Matches(p: Product, query: string): (m: bool)
    ensures query == [] ==> m
  {
    var q := ToLower(query);
    Contains(ToLower(p.name), q) || Contains(ToLower(p.description), q) || Contains(ToLower(p.category), q)
  }

  /** The search ignores the case of the query: only its lower-cased form
      is ever compared. */
  lemma MatchesIgnoresQueryCase(p: Product, query: string)
    ensures Matches(p, query) <==> Matches(p, ToLower(query))
  {
    ToLowerIdempotent(query);
  }

  /** `searchProducts`: a blank query gives the whole catalog; otherwise the
      matching products in catalog order. The query itself is matched
      untrimmed, as in the source. */
  function Search(ps: seq<Product>, query: string): (r: seq<Product>)
    ensures Trim(query) == [] ==> r == ps
    ensures IsSubseq(r, ps)
    ensures forall i :: 0 <= i < |r| ==> r[i] in ps
    ensures Trim(query) != [] ==> forall i :: 0 <= i < |r| ==> Matches(r[i], query)
    ensures Trim(query) != [] ==> forall i :: 0 <= i < |ps| && Matches(ps[i], query) ==> ps[i] in r
  {
    if Trim(query) == [] then
      SubseqRefl(ps);
      ps
    else
      Filter(ps, (p: Product) => Matches(p, query))
  }
}
