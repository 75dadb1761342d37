/** The cart engine: an ordered sequence of lines keyed by (product id, size),
    the three operations that change it, and the values derived from it
    (badge count, subtotal and total, dropdown preview, cart page and
    checkout summary). The functions here describe each operation on the
    sequence; `Storefront.Storefront` applies them to the session's cart. */
module Cart {
  import opened Options
  import opened Seqs
  import opened Catalog

  /** A cart line: the key (id, size), the quantity, and a snapshot of the
      product's name, price (cents), currency and image taken when the line
      was created. */
  datatype Line = Line(
    id: int,
    name: string,
    price: int,
    currency: string,
    image: string,
    size: int,
    quantity: int)

  predicate HasKey(l: Line, id: int, size: int) {
    l.id == id && l.size == size
  }

  predicate InCart(lines: seq<Line>, id: int, size: int) {
    exists i :: 0 <= i < |lines| && HasKey(lines[i], id, size)
  }

  /** At most one line per (id, size). */
  predicate UniqueKeys(lines: seq<Line>) {
    forall i, j :: 0 <= i < j < |lines| ==> !HasKey(lines[j], lines[i].id, lines[i].size)
  }

  /** Every line holds at least one item. */
  predicate Positive(lines: seq<Line>) {
    forall i :: 0 <= i < |lines| ==> lines[i].quantity >= 1
  }

  /** Every line costs at least one cent a pair, as the catalog's products do. */
  predicate PositivePrices(lines: seq<Line>) {
    forall i :: 0 <= i < |lines| ==> lines[i].price >= 1
  }

  /** `cart.findIndex(item => item.id === id && item.size === size)`:
      the first matching index, or -1. */
  function IndexOf(lines: seq<Line>, id: int, size: int): (i: int)
    ensures -1 <= i < |lines|
    ensures i == -1 <==> !InCart(lines, id, size)
    ensures i >= 0 ==> HasKey(lines[i], id, size) && forall j :: 0 <= j < i ==> !HasKey(lines[j], id, size)
  {
    if lines == [] then -1
    else if HasKey(lines[0], id, size) then 0
    else
      var k := IndexOf(lines[1..], id, size);
      assert InCart(lines, id, size) ==> InCart(lines[1..], id, size) by {
        if InCart(lines, id, size) {
          var j :| 0 <= j < |lines| && HasKey(lines[j], id, size);
          assert lines[1..][j - 1] == lines[j];
        }
      }
      if k == -1 then -1 else k + 1
  }

  /** Under unique keys the matching line is the only one with the key. */
  lemma IndexOfUnique(lines: seq<Line>, id: int, size: int, j: nat)
    requires UniqueKeys(lines) && j < |lines| && HasKey(lines[j], id, size)
    ensures IndexOf(lines, id, size) == j
  {
  }

  /** The quantity held for a key; 0 when the key has no line. */
  function QuantityOf(lines: seq<Line>, id: int, size: int): int {
    var i := IndexOf(lines, id, size);
    if i >= 0 then lines[i].quantity else 0
  }

  /** The line `addToCart` appends: the product's name, price, currency
      and image at the time of the call. */
  function Snapshot(p: Product, size: int, quantity: int): (l: Line)
    ensures HasKey(l, p.id, size) && l.quantity == quantity
    ensures l.name == p.name && l.price == p.price && l.currency == p.currency && l.image == p.image
  {
    Line(p.id, p.name, p.price, p.currency, p.image, size, quantity)
  }

  /** The cart change of `addToCart` once the product `p` is found: the
      line with the key takes `quantity` more items, or a snapshot line is
      appended. The source does not check `quantity`: its callers pass 1 or
      the value of the quantity input. */
  function AddLine(lines: seq<Line>, p: Product, quantity: int, size: int): (r: seq<Line>)
    ensures !InCart(lines, p.id, size) ==> r == lines + [Snapshot(p, size, quantity)]
    ensures var i := IndexOf(lines, p.id, size);
            i >= 0 ==>
              |r| == |lines| && r[i] == lines[i].(quantity := lines[i].quantity + quantity) &&
              forall j :: 0 <= j < |lines| && j != i ==> r[j] == lines[j]
  {
    var i := IndexOf(lines, p.id, size);
    if i >= 0 then lines[i := lines[i].(quantity := lines[i].quantity + quantity)]
    else lines + [Snapshot(p, size, quantity)]
  }

  /** Adding never creates a second line for a key. */
  lemma AddLineKeepsUniqueKeys(lines: seq<Line>, p: Product, quantity: int, size: int)
    ensures UniqueKeys(lines) ==> UniqueKeys(AddLine(lines, p, quantity, size))
  {
  }

  /** Adding at least one item keeps every line's quantity at least one. */
  lemma AddLineKeepsPositive(lines: seq<Line>, p: Product, quantity: int, size: int)
    requires quantity >= 1 && Positive(lines)
    ensures Positive(AddLine(lines, p, quantity, size))
  {
  }

  /** `addToCart(productId, quantity, size)` on the line sequence: an id the
      catalog does not have leaves the cart as it is. */
  function Add(lines: seq<Line>, catalog: seq<Product>, productId: int, quantity: int, size: int): (r: seq<Line>)
    ensures FindById(catalog, productId).None? ==> r == lines
    ensures FindById(catalog, productId).Some? ==> r == AddLine(lines, FindById(catalog, productId).value, quantity, size)
    ensures UniqueKeys(lines) ==> UniqueKeys(r)
  {
    match FindById(catalog, productId)
    case None => lines
    case Some(p) =>
      AddLineKeepsUniqueKeys(lines, p, quantity, size);
      AddLine(lines, p, quantity, size)
  }

  /** `removeFromCart(productId, size)`: splices out the first matching line. */
  function Remove(lines: seq<Line>, id: int, size: int): (r: seq<Line>)
    ensures !InCart(lines, id, size) ==> r == lines
    ensures var i := IndexOf(lines, id, size);
            i >= 0 ==>
              |r| == |lines| - 1 &&
              forall k :: 0 <= k < |r| ==> r[k] == if k < i then lines[k] else lines[k + 1]
  {
    var i := IndexOf(lines, id, size);
    if i < 0 then lines
    else
      var r := lines[..i] + lines[i + 1..];
      DropAt(lines, i);
      assert |r| == |lines| - 1 && forall k :: 0 <= k < |r| ==> r[k] == if k < i then lines[k] else lines[k + 1];
      r
  }

  /** The lines left by a removal keep their order. */
  lemma RemoveIsSubseq(lines: seq<Line>, id: int, size: int)
    ensures IsSubseq(Remove(lines, id, size), lines)
  {
    var i := IndexOf(lines, id, size);
    if i < 0 {
      SubseqRefl(lines);
    } else {
      assert Remove(lines, id, size) == lines[..i] + lines[i + 1..];
      DropAtIsSubseq(lines, i);
    }
  }

  /** With unique keys, removal leaves no line with the key and keeps the
      keys unique. */
  lemma RemoveKeepsUniqueKeys(lines: seq<Line>, id: int, size: int)
    requires UniqueKeys(lines)
    ensures UniqueKeys(Remove(lines, id, size)) && !InCart(Remove(lines, id, size), id, size)
  {
    var i := IndexOf(lines, id, size);
    if i >= 0 {
      var r := Remove(lines, id, size);
      forall a, b | 0 <= a < b < |r| ensures !HasKey(r[b], r[a].id, r[a].size) {
        var a' := if a < i then a else a + 1;
        var b' := if b < i then b else b + 1;
        assert r[a] == lines[a'] && r[b] == lines[b'] && a' < b';
      }
      forall k | 0 <= k < |r| ensures !HasKey(r[k], id, size) {
        var k' := if k < i then k else k + 1;
        assert r[k] == lines[k'] && k' != i;
        assert HasKey(lines[i], id, size);
      }
    }
  }

  /** Removal keeps every remaining quantity at least one. */
  lemma RemoveKeepsPositive(lines: seq<Line>, id: int, size: int)
    requires Positive(lines)
    ensures Positive(Remove(lines, id, size))
  {
  }

  /** The reference definition of removal: every line with the key dropped. */
  function Without(lines: seq<Line>, id: int, size: int): seq<Line> {
    if lines == [] then []
    else (if HasKey(lines[0], id, size) then [] else [lines[0]]) + Without(lines[1..], id, size)
  }

  lemma {:induction false} WithoutNoKey(lines: seq<Line>, id: int, size: int)
    requires !InCart(lines, id, size)
    ensures Without(lines, id, size) == lines
  {
    if lines != [] {
      WithoutNoKey(lines[1..], id, size);
    }
  }

  /** The tail of a cart with unique keys has unique keys. */
  lemma UniqueKeysTail(lines: seq<Line>)
    requires UniqueKeys(lines) && lines != []
    ensures UniqueKeys(lines[1..])
    ensures !InCart(lines[1..], lines[0].id, lines[0].size)
  {
    var t := lines[1..];
    forall i, j | 0 <= i < j < |t| ensures !HasKey(t[j], t[i].id, t[i].size) {
      assert t[i] == lines[i + 1] && t[j] == lines[j + 1];
    }
    forall j | 0 <= j < |t| ensures !HasKey(t[j], lines[0].id, lines[0].size) {
      assert t[j] == lines[j + 1];
    }
  }

  /** Removal from a cart whose head does not match keeps the head. */
  lemma RemovePastHead(lines: seq<Line>, id: int, size: int)
    requires lines != [] && !HasKey(lines[0], id, size)
    ensures Remove(lines, id, size) == [lines[0]] + Remove(lines[1..], id, size)
  {
    var k := IndexOf(lines[1..], id, size);
    if k >= 0 {
      assert IndexOf(lines, id, size) == k + 1;
      DropShifted(lines, k, Remove(lines, id, size), Remove(lines[1..], id, size));
    } else {
      assert IndexOf(lines, id, size) == -1;
      assert lines == [lines[0]] + lines[1..];
    }
  }

  /** Dropping index `k + 1` of a sequence is keeping its head and dropping
      index `k` of its tail. */
  lemma DropShifted(lines: seq<Line>, k: nat, r: seq<Line>, rt: seq<Line>)
    requires k + 1 < |lines|
    requires |r| == |lines| - 1 && forall j {:trigger r[j]} :: 0 <= j < |r| ==> r[j] == if j < k + 1 then lines[j] else lines[j + 1]
    requires |rt| == |lines| - 2 && forall j {:trigger rt[j]} :: 0 <= j < |rt| ==> rt[j] == if j < k then lines[1..][j] else lines[1..][j + 1]
    ensures r == [lines[0]] + rt
  {
    forall j | 0 <= j < |r| ensures r[j] == ([lines[0]] + rt)[j] {
      if j == 0 {
        assert r[0] == lines[0];
      } else if j < k + 1 {
        assert r[j] == lines[j] && rt[j - 1] == lines[1..][j - 1];
      } else {
        assert r[j] == lines[j + 1] && rt[j - 1] == lines[1..][j];
      }
    }
  }

  /** With unique keys, removing the first match removes every line with the key. */
  lemma {:induction false} RemoveIsWithout(lines: seq<Line>, id: int, size: int)
    requires UniqueKeys(lines)
    ensures Remove(lines, id, size) == Without(lines, id, size)
  {
    if lines != [] {
      UniqueKeysTail(lines);
      if HasKey(lines[0], id, size) {
        assert IndexOf(lines, id, size) == 0;
        WithoutNoKey(lines[1..], id, size);
      } else {
        RemoveIsWithout(lines[1..], id, size);
        RemovePastHead(lines, id, size);
      }
    }
  }

  /** `updateCartItemQuantity(productId, size, newQuantity)`: an absolute set,
      or a removal when the new quantity is not positive; nothing happens when
      no line matches. */
  function UpdateQuantity(lines: seq<Line>, id: int, size: int, newQuantity: int): (r: seq<Line>)
    ensures !InCart(lines, id, size) ==> r == lines
    ensures newQuantity <= 0 ==> r == Remove(lines, id, size)
    ensures var i := IndexOf(lines, id, size);
            newQuantity > 0 && i >= 0 ==>
              |r| == |lines| && r[i] == lines[i].(quantity := newQuantity) &&
              forall j :: 0 <= j < |lines| && j != i ==> r[j] == lines[j]
  {
    var i := IndexOf(lines, id, size);
    if i < 0 then lines
    else if newQuantity <= 0 then Remove(lines, id, size)
    else lines[i := lines[i].(quantity := newQuantity)]
  }

  /** Setting a quantity never creates a second line for a key. */
  lemma UpdateQuantityKeepsUniqueKeys(lines: seq<Line>, id: int, size: int, newQuantity: int)
    requires UniqueKeys(lines)
    ensures UniqueKeys(UpdateQuantity(lines, id, size, newQuantity))
  {
    if newQuantity <= 0 {
      RemoveKeepsUniqueKeys(lines, id, size);
    }
  }

  /** Whatever the new quantity, no line is left with fewer than one item:
      a non-positive quantity removes the line. */
  lemma UpdateQuantityKeepsPositive(lines: seq<Line>, id: int, size: int, newQuantity: int)
    requires Positive(lines)
    ensures Positive(UpdateQuantity(lines, id, size, newQuantity))
  {
    if newQuantity <= 0 {
      RemoveKeepsPositive(lines, id, size);
    }
  }

  // Sums over the lines, accumulated front to back as `reduce` and the
  // `forEach` loops of the source do.

  function Quantity(l: Line): int { l.quantity }

  function LineTotal(l: Line): int { l.price * l.quantity }

  /** What a sum adds up: the items of a line or its amount. */
  datatype Measure = Items | Amount

  function MeasureOf(m: Measure, l: Line): int {
    match m
    case Items => Quantity(l)
    case Amount => LineTotal(l)
  }

  function Sum(lines: seq<Line>, m: Measure): int {
    if lines == [] then 0 else Sum(lines[..|lines| - 1], m) + MeasureOf(m, lines[|lines| - 1])
  }

  lemma {:induction false} SumAppend(a: seq<Line>, b: seq<Line>, m: Measure)
    ensures Sum(a + b, m) == Sum(a, m) + Sum(b, m)
  {
    if b == [] {
      assert a + b == a;
    } else {
      assert (a + b)[..|a + b| - 1] == a + b[..|b| - 1];
      SumAppend(a, b[..|b| - 1], m);
    }
  }

  lemma SumSingle(l: Line, m: Measure)
    ensures Sum([l], m) == MeasureOf(m, l)
  {
    assert [l][..0] == [];
  }

  /** Replacing one line changes the sum by the difference of that line. */
  lemma SumUpdate(lines: seq<Line>, i: nat, l: Line, m: Measure)
    requires i < |lines|
    ensures Sum(lines[i := l], m) == Sum(lines, m) - MeasureOf(m, lines[i]) + MeasureOf(m, l)
  {
    var a, b := lines[..i], lines[i + 1..];
    assert lines == (a + [lines[i]]) + b;
    assert lines[i := l] == (a + [l]) + b;
    SumAppend(a + [lines[i]], b, m);
    SumAppend(a + [l], b, m);
    SumAppend(a, [lines[i]], m);
    SumAppend(a, [l], m);
    SumSingle(lines[i], m);
    SumSingle(l, m);
  }

  /** Removing one line takes that line out of the sum. */
  lemma SumRemoveAt(lines: seq<Line>, i: nat, m: Measure)
    requires i < |lines|
    ensures Sum(lines[..i] + lines[i + 1..], m) == Sum(lines, m) - MeasureOf(m, lines[i])
  {
    var a, b := lines[..i], lines[i + 1..];
    assert lines == (a + [lines[i]]) + b;
    SumAppend(a + [lines[i]], b, m);
    SumAppend(a, [lines[i]], m);
    SumAppend(a, b, m);
    SumSingle(lines[i], m);
  }

  /** A sum whose every line measures at least one is at least the
      number of lines. */
  lemma {:induction false} SumAtLeastLines(lines: seq<Line>, m: Measure)
    ensures (forall i :: 0 <= i < |lines| ==> MeasureOf(m, lines[i]) >= 1) ==> Sum(lines, m) >= |lines|
  {
    if lines != [] && forall i :: 0 <= i < |lines| ==> MeasureOf(m, lines[i]) >= 1 {
      var init := lines[..|lines| - 1];
      assert forall i :: 0 <= i < |init| ==> init[i] == lines[i];
      SumAtLeastLines(init, m);
    }
  }

  /** Positive prices and quantities give every line an amount of at least one cent. */
  lemma AmountsPositive(lines: seq<Line>)
    ensures Positive(lines) && PositivePrices(lines) ==> forall i :: 0 <= i < |lines| ==> MeasureOf(Amount, lines[i]) >= 1
  {
    if Positive(lines) && PositivePrices(lines) {
      forall i | 0 <= i < |lines| ensures MeasureOf(Amount, lines[i]) >= 1 {
        var l := lines[i];
        assert l.price * l.quantity >= l.quantity;
      }
    }
  }

  /** The cart badge: `cart.reduce((sum, item) => sum + item.quantity, 0)`.
      With positive quantities it counts at least one item per line, so it
      is shown (count > 0) exactly when the cart has lines. */
  function ItemCount(lines: seq<Line>): (n: int)
    ensures lines == [] ==> n == 0
    ensures Positive(lines) ==> n >= |lines|
    ensures Positive(lines) ==> (n > 0 <==> lines != [])
  {
    SumAtLeastLines(lines, Items);
    Sum(lines, Items)
  }

  /** Σ price × quantity; the total equals it because shipping is free. With
      positive prices and quantities every line adds at least a cent, so the
      subtotal is positive exactly when the cart has lines. */
  function Subtotal(lines: seq<Line>): (r: int)
    ensures lines == [] ==> r == 0
    ensures Positive(lines) && PositivePrices(lines) ==> r >= |lines|
    ensures Positive(lines) && PositivePrices(lines) ==> (r > 0 <==> lines != [])
  {
    AmountsPositive(lines);
    SumAtLeastLines(lines, Amount);
    Sum(lines, Amount)
  }

  /** Adding `quantity` raises the badge by `quantity`. */
  lemma AddItemCount(lines: seq<Line>, p: Product, quantity: int, size: int)
    ensures ItemCount(AddLine(lines, p, quantity, size)) == ItemCount(lines) + quantity
  {
    var i := IndexOf(lines, p.id, size);
    if i >= 0 {
      var l := lines[i].(quantity := lines[i].quantity + quantity);
      assert AddLine(lines, p, quantity, size) == lines[i := l];
      SumUpdate(lines, i, l, Items);
    } else {
      SumAppend(lines, [Snapshot(p, size, quantity)], Items);
    }
  }

  /** Adding to a line already in the cart raises the subtotal by
      `quantity` times that line's snapshot price. */
  lemma AddSubtotalExisting(lines: seq<Line>, p: Product, quantity: int, size: int)
    requires InCart(lines, p.id, size)
    ensures Subtotal(AddLine(lines, p, quantity, size)) ==
            Subtotal(lines) + lines[IndexOf(lines, p.id, size)].price * quantity
  {
    var i := IndexOf(lines, p.id, size);
    var u := AddLine(lines, p, quantity, size);
    AddLineExisting(lines, p, quantity, size, i);
    SubtotalMoreItems(lines, i, quantity, u);
  }

  lemma AddLineExisting(lines: seq<Line>, p: Product, quantity: int, size: int, i: nat)
    requires i == IndexOf(lines, p.id, size) && i < |lines|
    ensures AddLine(lines, p, quantity, size) == lines[i := lines[i].(quantity := lines[i].quantity + quantity)]
  {
  }

  /** Adding a new key raises the subtotal by `quantity` times the product's
      current price. */
  lemma AddSubtotalNew(lines: seq<Line>, p: Product, quantity: int, size: int)
    requires !InCart(lines, p.id, size)
    ensures Subtotal(AddLine(lines, p, quantity, size)) == Subtotal(lines) + p.price * quantity
  {
    SubtotalAppend(lines, Snapshot(p, size, quantity));
  }

  lemma SubtotalMoreItems(lines: seq<Line>, i: nat, k: int, u: seq<Line>)
    requires i < |lines| && u == lines[i := lines[i].(quantity := lines[i].quantity + k)]
    ensures Subtotal(u) == Subtotal(lines) + lines[i].price * k
  {
    var l := lines[i];
    SumUpdate(lines, i, l.(quantity := l.quantity + k), Amount);
    assert l.price * (l.quantity + k) == l.price * l.quantity + l.price * k;
  }

  lemma SubtotalAppend(lines: seq<Line>, n: Line)
    ensures Subtotal(lines + [n]) == Subtotal(lines) + LineTotal(n)
  {
    assert (lines + [n])[..|lines|] == lines;
  }

  /** Adding leaves the key in the cart holding the old quantity plus
      `quantity`. */
  lemma AddQuantityOf(lines: seq<Line>, p: Product, quantity: int, size: int)
    ensures InCart(AddLine(lines, p, quantity, size), p.id, size)
    ensures QuantityOf(AddLine(lines, p, quantity, size), p.id, size) == QuantityOf(lines, p.id, size) + quantity
  {
    var r := AddLine(lines, p, quantity, size);
    var i := IndexOf(lines, p.id, size);
    if i >= 0 {
      assert HasKey(r[i], p.id, size);
      assert IndexOf(r, p.id, size) == i;
    } else {
      assert HasKey(r[|lines|], p.id, size);
      assert IndexOf(r, p.id, size) == |lines|;
    }
  }

  /** Repeated adds of one product in one size, one quantity each. */
  ghost function AddAll(lines: seq<Line>, p: Product, quantities: seq<int>, size: int): seq<Line>
    decreases |quantities|
  {
    if quantities == [] then lines
    else AddAll(AddLine(lines, p, quantities[0], size), p, quantities[1..], size)
  }

  function SumOf(xs: seq<int>): int {
    if xs == [] then 0 else xs[0] + SumOf(xs[1..])
  }

  /** Any run of adds for one (id, size) ends with exactly one line for that
      key, holding the sum of the quantities added. */
  lemma {:induction false} AddAllQuantity(lines: seq<Line>, p: Product, quantities: seq<int>, size: int)
    requires UniqueKeys(lines) && quantities != []
    ensures UniqueKeys(AddAll(lines, p, quantities, size))
    ensures InCart(AddAll(lines, p, quantities, size), p.id, size)
    ensures QuantityOf(AddAll(lines, p, quantities, size), p.id, size) ==
            QuantityOf(lines, p.id, size) + SumOf(quantities)
    decreases |quantities|
  {
    var next := AddLine(lines, p, quantities[0], size);
    AddQuantityOf(lines, p, quantities[0], size);
    AddLineKeepsUniqueKeys(lines, p, quantities[0], size);
    assert AddAll(lines, p, quantities, size) == AddAll(next, p, quantities[1..], size);
    if quantities[1..] != [] {
      AddAllQuantity(next, p, quantities[1..], size);
    } else {
      assert AddAll(next, p, quantities[1..], size) == next;
    }
  }

  /** Removing a line takes its items out of the badge count and its
      amount out of the subtotal. */
  lemma RemoveTotals(lines: seq<Line>, id: int, size: int)
    requires InCart(lines, id, size)
    ensures ItemCount(Remove(lines, id, size)) == ItemCount(lines) - QuantityOf(lines, id, size)
    ensures Subtotal(Remove(lines, id, size)) ==
            Subtotal(lines) - LineTotal(lines[IndexOf(lines, id, size)])
  {
    var i := IndexOf(lines, id, size);
    SumRemoveAt(lines, i, Items);
    SumRemoveAt(lines, i, Amount);
  }

  /** Setting a positive quantity makes the key hold exactly that quantity
      and moves the badge count and the subtotal by the difference. */
  lemma UpdateQuantityTotals(lines: seq<Line>, id: int, size: int, newQuantity: int)
    requires InCart(lines, id, size) && newQuantity > 0
    ensures QuantityOf(UpdateQuantity(lines, id, size, newQuantity), id, size) == newQuantity
    ensures ItemCount(UpdateQuantity(lines, id, size, newQuantity)) ==
            ItemCount(lines) - QuantityOf(lines, id, size) + newQuantity
    ensures Subtotal(UpdateQuantity(lines, id, size, newQuantity)) ==
            Subtotal(lines) - LineTotal(lines[IndexOf(lines, id, size)]) +
            lines[IndexOf(lines, id, size)].price * newQuantity
  {
    var i := IndexOf(lines, id, size);
    var r := UpdateQuantity(lines, id, size, newQuantity);
    assert HasKey(r[i], id, size);
    assert IndexOf(r, id, size) == i;
    SumUpdate(lines, i, lines[i].(quantity := newQuantity), Items);
    SumUpdate(lines, i, lines[i].(quantity := newQuantity), Amount);
  }

  /** The header dropdown: a notice for an empty cart, otherwise the first
      three lines and, for a longer cart, how many more there are. */
  datatype Dropdown = EmptyNotice | Preview(shown: seq<Line>, more: Option<int>)

  function CartDropdown(lines: seq<Line>): (d: Dropdown)
    ensures d.EmptyNotice? <==> lines == []
    ensures d.Preview? ==> d.shown <= lines && |d.shown| == if |lines| < 3 then |lines| else 3
    ensures d.Preview? ==> (d.more.Some? <==> |lines| > 3)
    ensures d.Preview? ==> |d.shown| + (if d.more.Some? then d.more.value else 0) == |lines|
  {
    if lines == [] then EmptyNotice
    else if |lines| > 3 then Preview(lines[..3], Some(|lines| - 3))
    else Preview(lines, None)
  }

  /** The `forEach` accumulation shared by the cart page, the checkout
      summary and the order summary: each line's amount, and their sum. */
  method Tally(lines: seq<Line>) returns (lineTotals: seq<int>, sum: int)
    ensures |lineTotals| == |lines|
    ensures forall i :: 0 <= i < |lines| ==> lineTotals[i] == lines[i].price * lines[i].quantity
    ensures sum == Subtotal(lines)
  {
    lineTotals, sum := [], 0;
    var i := 0;
    while i < |lines|
      invariant 0 <= i <= |lines|
      invariant |lineTotals| == i
      invariant forall k :: 0 <= k < i ==> lineTotals[k] == lines[k].price * lines[k].quantity
      invariant sum == Subtotal(lines[..i])
    {
      var itemTotal := lines[i].price * lines[i].quantity;
      assert lines[..i + 1][..i] == lines[..i];
      sum := sum + itemTotal;
      lineTotals := lineTotals + [itemTotal];
      i := i + 1;
    }
    assert lines[..i] == lines;
  }

  /** What the cart page shows: the empty-state notice or one row per line,
      each line's amount, the subtotal, and the total. */
  datatype CartView = CartView(empty: bool, lineTotals: seq<int>, subtotal: int, total: int)

  /** `loadCartItems`. */
  method LoadCartItems(lines: seq<Line>) returns (view: CartView)
    ensures view.empty <==> lines == []
    ensures |view.lineTotals| == |lines|
    ensures forall i :: 0 <= i < |lines| ==> view.lineTotals[i] == LineTotal(lines[i])
    ensures view.subtotal == Subtotal(lines) && view.total == view.subtotal
  {
    if |lines| == 0 {
      return CartView(true, [], 0, 0);
    }
    var lineTotals, subtotal := Tally(lines);
    view := CartView(false, lineTotals, subtotal, subtotal);
  }

  /** The checkout page's order summary: "No items in cart", or the lines
      with their amounts and the total. */
  datatype CheckoutSummary = NoItems | Summary(lineTotals: seq<int>, total: int)

  /** `loadCheckoutOrderSummary`. */
  method LoadCheckoutOrderSummary(lines: seq<Line>) returns (summary: CheckoutSummary)
    ensures summary.NoItems? <==> lines == []
    ensures summary.Summary? ==> |summary.lineTotals| == |lines| && summary.total == Subtotal(lines)
    ensures summary.Summary? ==> forall i :: 0 <= i < |lines| ==> summary.lineTotals[i] == LineTotal(lines[i])
  {
    if |lines| == 0 {
      return NoItems;
    }
    var lineTotals, total := Tally(lines);
    summary := Summary(lineTotals, total);
  }
}
