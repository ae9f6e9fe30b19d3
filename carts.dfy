/**
 * A user's cart: an ordered sequence of lines, the three mutations the
 * storefront applies to it (add, update, remove), and its priced view.
 * Quantities are plain integers: an update stores whatever it is given.
 */
module Carts {
  import opened Wrappers
  import opened Sequences
  import opened Catalog

  /** One cart line: a product id, which need not resolve in the catalogue, and a quantity. */
  datatype Line = Line(productId: ProductId, quantity: int)

  type Cart = seq<Line>

  /** Some line of the cart is for product p. */
  predicate HasProduct(c: Cart, p: ProductId)
  {
    exists i :: 0 <= i < |c| && c[i].productId == p
  }

  /** At most one line per product id. */
  ghost predicate UniqueIds(c: Cart)
  {
    forall i, j :: 0 <= i < j < |c| ==> c[i].productId != c[j].productId
  }

  /** Position of the first line for p, or |c| when there is none. */
  function FirstIndex(c: Cart, p: ProductId): (i: nat)
    ensures i <= |c|
    ensures i < |c| <==> HasProduct(c, p)
    ensures i < |c| ==> c[i].productId == p
    ensures forall j :: 0 <= j < i ==> c[j].productId != p
  {
    if c == [] then 0
    else if c[0].productId == p then 0
    else
      var k := FirstIndex(c[1..], p);
      assert forall j :: 1 <= j < |c| ==> c[j] == c[1..][j - 1];
      1 + k
  }

  /** The first line for p is the one at i. */
  lemma FirstIndexAt(c: Cart, p: ProductId, i: nat)
    requires i < |c| && c[i].productId == p
    requires forall j :: 0 <= j < i ==> c[j].productId != p
    ensures FirstIndex(c, p) == i
  {
  }

  /** Total quantity held in the lines for product p. */
  function QuantityOf(c: Cart, p: ProductId): int
  {
    if c == [] then 0
    else (if c[0].productId == p then c[0].quantity else 0) + QuantityOf(c[1..], p)
  }

  // ---------------------------------------------------------------- add

  /**
   * The cart after adding q of product p: the first line for p has its
   * quantity raised by q, or, when there is no such line, Line(p, q) is
   * appended. Every other line is unchanged.
   */
  function Added(c: Cart, p: ProductId, q: int): (r: Cart)
    ensures HasProduct(r, p)
    ensures |r| == if HasProduct(c, p) then |c| else |c| + 1
    ensures forall j :: 0 <= j < |c| && j != FirstIndex(c, p) ==> r[j] == c[j]
    ensures HasProduct(c, p) ==> r[FirstIndex(c, p)] == Line(p, c[FirstIndex(c, p)].quantity + q)
    ensures !HasProduct(c, p) ==> r[|c|] == Line(p, q)
  {
    var i := FirstIndex(c, p);
    var r := if i < |c| then c[i := Line(p, c[i].quantity + q)] else c + [Line(p, q)];
    assert r[i].productId == p;
    r
  }

  /** The loop of the add-to-cart handler: bump the first matching line and stop, else append. */
  method AddLine(c: Cart, p: ProductId, q: int) returns (r: Cart)
    ensures r == Added(c, p, q)
  {
    var i := 0;
    while i < |c|
      invariant 0 <= i <= |c|
      invariant forall j :: 0 <= j < i ==> c[j].productId != p
    {
      if c[i].productId == p {
        FirstIndexAt(c, p, i);
        return c[i := Line(p, c[i].quantity + q)];
      }
      i := i + 1;
    }
    return c + [Line(p, q)];
  }

  // ---------------------------------------------------------------- update

  /**
   * The cart after setting product p's quantity to n: the first line for p
   * gets quantity n verbatim (no positivity check); without such a line the
   * cart is unchanged.
   */
  function Updated(c: Cart, p: ProductId, n: int): (r: Cart)
    ensures |r| == |c|
    ensures !HasProduct(c, p) ==> r == c
    ensures forall j :: 0 <= j < |c| && j != FirstIndex(c, p) ==> r[j] == c[j]
    ensures HasProduct(c, p) ==> r[FirstIndex(c, p)] == Line(p, n)
  {
    var i := FirstIndex(c, p);
    if i < |c| then c[i := Line(p, n)] else c
  }

  /** The loop of the update handler: overwrite the first matching line's quantity and stop. */
  method SetQuantity(c: Cart, p: ProductId, n: int) returns (r: Cart)
    ensures r == Updated(c, p, n)
  {
    r := c;
    var i := 0;
    while i < |c|
      invariant 0 <= i <= |c|
      invariant forall j :: 0 <= j < i ==> c[j].productId != p
    {
      if c[i].productId == p {
        FirstIndexAt(c, p, i);
        r := c[i := Line(p, n)];
        break;
      }
      i := i + 1;
    }
  }

  // ---------------------------------------------------------------- remove

  function OtherProduct(p: ProductId): Line -> bool
  {
    (l: Line) => l.productId != p
  }

  /** The cart with every line for p filtered out; the other lines keep their order. */
  function Removed(c: Cart, p: ProductId): (r: Cart)
    ensures !HasProduct(r, p)
    ensures forall l :: l in r <==> l in c && l.productId != p
  {
    var r := Filter(c, OtherProduct(p));
    assert forall i :: 0 <= i < |r| ==> r[i] in r;
    r
  }

  /** Removal keeps relative order: it distributes over concatenation. */
  lemma RemovedAppend(a: Cart, b: Cart, p: ProductId)
    ensures Removed(a + b, p) == Removed(a, p) + Removed(b, p)
  {
    FilterAppend(a, b, OtherProduct(p));
  }

  /** Removing twice is removing once. */
  lemma RemovedIdempotent(c: Cart, p: ProductId)
    ensures Removed(Removed(c, p), p) == Removed(c, p)
  {
    FilterIdempotent(c, OtherProduct(p));
  }

  /** A cart without lines for p is left as it is by removing p. */
  lemma RemovedAbsent(c: Cart, p: ProductId)
    requires !HasProduct(c, p)
    ensures Removed(c, p) == c
  {
    assert forall l :: l in c ==> OtherProduct(p)(l) by {
      forall l | l in c ensures OtherProduct(p)(l) {
        var i :| 0 <= i < |c| && c[i] == l;
      }
    }
    FilterKeepsAll(c, OtherProduct(p));
  }

  // ---------------------------------------------------------------- quantities

  lemma {:induction false} QuantityAppend(a: Cart, b: Cart, x: ProductId)
    ensures QuantityOf(a + b, x) == QuantityOf(a, x) + QuantityOf(b, x)
  {
    if a == [] {
      assert a + b == b;
    } else {
      assert (a + b)[0] == a[0];
      assert (a + b)[1..] == a[1..] + b;
      QuantityAppend(a[1..], b, x);
    }
  }

  lemma {:induction false} QuantityAbsent(c: Cart, x: ProductId)
    requires !HasProduct(c, x)
    ensures QuantityOf(c, x) == 0
  {
    if c != [] {
      assert !HasProduct(c[1..], x) by {
        forall i | 0 <= i < |c[1..]| ensures c[1..][i].productId != x {
          assert c[1..][i] == c[i + 1];
        }
      }
      QuantityAbsent(c[1..], x);
    }
  }

  /** Replacing line i by l changes the quantity held for x by what leaves and what enters. */
  lemma QuantityReplace(c: Cart, i: nat, l: Line, x: ProductId)
    requires i < |c|
    ensures QuantityOf(c[i := l], x)
         == QuantityOf(c, x)
          - (if c[i].productId == x then c[i].quantity else 0)
          + (if l.productId == x then l.quantity else 0)
  {
    var pre, post := c[..i], c[i + 1..];
    assert c == pre + [c[i]] + post;
    assert c[i := l] == pre + [l] + post;
    QuantityAppend(pre + [c[i]], post, x);
    QuantityAppend(pre, [c[i]], x);
    QuantityAppend(pre + [l], post, x);
    QuantityAppend(pre, [l], x);
  }

  /** In a cart with one line per product, a product's quantity is that of its line. */
  lemma UniqueQuantity(c: Cart, i: nat)
    requires UniqueIds(c) && i < |c|
    ensures QuantityOf(c, c[i].productId) == c[i].quantity
  {
    var x, pre, post := c[i].productId, c[..i], c[i + 1..];
    assert c == pre + [c[i]] + post;
    assert !HasProduct(pre, x) by {
      forall j | 0 <= j < |pre| ensures pre[j].productId != x {
        assert pre[j] == c[j];
      }
    }
    assert !HasProduct(post, x) by {
      forall j | 0 <= j < |post| ensures post[j].productId != x {
        assert post[j] == c[i + 1 + j];
      }
    }
    QuantityAbsent(pre, x);
    QuantityAbsent(post, x);
    QuantityAppend(pre + [c[i]], post, x);
    QuantityAppend(pre, [c[i]], x);
  }

  /** Adding q of p raises p's quantity by q and leaves every other product's quantity alone. */
  lemma AddedQuantity(c: Cart, p: ProductId, q: int, x: ProductId)
    ensures QuantityOf(Added(c, p, q), x) == QuantityOf(c, x) + (if x == p then q else 0)
  {
    var i := FirstIndex(c, p);
    if i < |c| {
      QuantityReplace(c, i, Line(p, c[i].quantity + q), x);
    } else {
      QuantityAppend(c, [Line(p, q)], x);
    }
  }

  /** Two adds of the same product merge into one: adding a then b is adding a + b. */
  lemma AddedMerges(c: Cart, p: ProductId, a: int, b: int)
    ensures Added(Added(c, p, a), p, b) == Added(c, p, a + b)
  {
    var i := FirstIndex(c, p);
    var once := Added(c, p, a);
    FirstIndexAt(once, p, i);
  }

  /** Adding keeps the cart at one line per product. */
  lemma AddedUnique(c: Cart, p: ProductId, q: int)
    requires UniqueIds(c)
    ensures UniqueIds(Added(c, p, q))
  {
    var i := FirstIndex(c, p);
    var r := Added(c, p, q);
    if i == |c| {
      forall j, k | 0 <= j < k < |r| ensures r[j].productId != r[k].productId {
        if k == |c| {
          assert r[j] == c[j];
        }
      }
    }
  }

  /** Setting p's quantity to n in a cart with one line per product makes p's quantity exactly n. */
  lemma UpdatedSetsQuantity(c: Cart, p: ProductId, n: int)
    requires UniqueIds(c) && HasProduct(c, p)
    ensures QuantityOf(Updated(c, p, n), p) == n
  {
    UpdatedUnique(c, p, n);
    UniqueQuantity(Updated(c, p, n), FirstIndex(c, p));
  }

  /** An update leaves the quantity of every other product alone. */
  lemma UpdatedOthers(c: Cart, p: ProductId, n: int, x: ProductId)
    requires x != p
    ensures QuantityOf(Updated(c, p, n), x) == QuantityOf(c, x)
  {
    var i := FirstIndex(c, p);
    if i < |c| {
      QuantityReplace(c, i, Line(p, n), x);
    }
  }

  /** Of two updates of the same product, the last one wins. */
  lemma UpdatedTwice(c: Cart, p: ProductId, n: int, m: int)
    ensures Updated(Updated(c, p, n), p, m) == Updated(c, p, m)
  {
    var i := FirstIndex(c, p);
    if i < |c| {
      FirstIndexAt(Updated(c, p, n), p, i);
    }
  }

  /** Updating keeps the cart at one line per product. */
  lemma UpdatedUnique(c: Cart, p: ProductId, n: int)
    requires UniqueIds(c)
    ensures UniqueIds(Updated(c, p, n))
  {
  }

  /** Removing p leaves no quantity of p and every other product's quantity alone. */
  lemma {:induction false} RemovedQuantity(c: Cart, p: ProductId, x: ProductId)
    ensures QuantityOf(Removed(c, p), x) == if x == p then 0 else QuantityOf(c, x)
  {
    if c != [] {
      RemovedCons(c, p);
      RemovedQuantity(c[1..], p, x);
      var head := if c[0].productId == p then [] else [c[0]];
      QuantityAppend(head, Removed(c[1..], p), x);
    }
  }

  /** Removal keeps the cart at one line per product. */
  lemma {:induction false} RemovedUnique(c: Cart, p: ProductId)
    requires UniqueIds(c)
    ensures UniqueIds(Removed(c, p))
  {
    if c != [] {
      RemovedCons(c, p);
      RemovedUnique(c[1..], p);
      var rest := Removed(c[1..], p);
      if c[0].productId != p {
        forall j | 0 <= j < |rest| ensures rest[j].productId != c[0].productId {
          assert rest[j] in c[1..];
          var k :| 0 <= k < |c[1..]| && c[1..][k] == rest[j];
          assert c[k + 1] == rest[j];
        }
        var r := [c[0]] + rest;
        forall j, k | 0 <= j < k < |r| ensures r[j].productId != r[k].productId {
          if j > 0 {
            assert r[j] == rest[j - 1] && r[k] == rest[k - 1];
          } else {
            assert r[k] == rest[k - 1];
          }
        }
      }
    }
  }

  /** Removal unfolded by one line. */
  lemma RemovedCons(c: Cart, p: ProductId)
    requires c != []
    ensures Removed(c, p) == (if c[0].productId == p then [] else [c[0]]) + Removed(c[1..], p)
  {
    assert OtherProduct(p)(c[0]) == (c[0].productId != p);
  }

  /** Lines for p can be swapped for other lines for p without changing what removing p leaves. */
  lemma RemovedReplace(c: Cart, i: nat, l: Line, p: ProductId)
    requires i < |c| && c[i].productId == p && l.productId == p
    ensures Removed(c[i := l], p) == Removed(c, p)
  {
    var pre, post := c[..i], c[i + 1..];
    assert c == pre + [c[i]] + post;
    assert c[i := l] == pre + [l] + post;
    RemovedAppend(pre + [c[i]], post, p);
    RemovedAppend(pre, [c[i]], p);
    RemovedAppend(pre + [l], post, p);
    RemovedAppend(pre, [l], p);
    RemovedCons([c[i]], p);
    RemovedCons([l], p);
  }

  /** Removing p after adding p is the same as removing p: no trace of the add survives. */
  lemma AddedThenRemoved(c: Cart, p: ProductId, q: int)
    ensures Removed(Added(c, p, q), p) == Removed(c, p)
  {
    var i := FirstIndex(c, p);
    if i < |c| {
      RemovedReplace(c, i, Line(p, c[i].quantity + q), p);
    } else {
      RemovedAppend(c, [Line(p, q)], p);
      RemovedCons([Line(p, q)], p);
    }
  }

  /** Removing p after updating p is the same as removing p. */
  lemma UpdatedThenRemoved(c: Cart, p: ProductId, n: int)
    ensures Removed(Updated(c, p, n), p) == Removed(c, p)
  {
    var i := FirstIndex(c, p);
    if i < |c| {
      RemovedReplace(c, i, Line(p, n), p);
    }
  }

  // ---------------------------------------------------------------- pricing

  /** What one line adds to the total: price times quantity, or 0 when the product does not resolve. */
  function LineTotal(l: Line, catalog: seq<Product>): int
  {
    UnitPrice(catalog, l.productId) * l.quantity
  }

  /** The cart total, priced against the catalogue as it is now. */
  function Total(c: Cart, catalog: seq<Product>): int
  {
    if c == [] then 0 else LineTotal(c[0], catalog) + Total(c[1..], catalog)
  }

  /** A resolved line as the cart page shows it. */
  datatype Item = Item(product: Product, quantity: int, subtotal: int)

  /** The priced cart: its resolved lines and the total. */
  datatype Summary = Summary(items: seq<Item>, total: int)

  /** The items of the cart page: one per line whose product resolves, in cart order. */
  function View(c: Cart, catalog: seq<Product>): (r: seq<Item>)
    ensures |r| <= |c|
    ensures forall it :: it in r ==> it.product in catalog && it.subtotal == it.product.price * it.quantity
  {
    if c == [] then []
    else
      match Lookup(catalog, c[0].productId)
      case Some(product) => [Item(product, c[0].quantity, product.price * c[0].quantity)] + View(c[1..], catalog)
      case None => View(c[1..], catalog)
  }

  function SumSubtotals(items: seq<Item>): int
  {
    if items == [] then 0 else items[0].subtotal + SumSubtotals(items[1..])
  }

  function Resolves(catalog: seq<Product>): Line -> bool
  {
    (l: Line) => Lookup(catalog, l.productId).Some?
  }

  lemma {:induction false} TotalAppend(a: Cart, b: Cart, catalog: seq<Product>)
    ensures Total(a + b, catalog) == Total(a, catalog) + Total(b, catalog)
  {
    if a == [] {
      assert a + b == b;
    } else {
      assert (a + b)[0] == a[0];
      assert (a + b)[1..] == a[1..] + b;
      TotalAppend(a[1..], b, catalog);
    }
  }

  lemma {:induction false} ViewAppend(a: Cart, b: Cart, catalog: seq<Product>)
    ensures View(a + b, catalog) == View(a, catalog) + View(b, catalog)
  {
    if a == [] {
      assert a + b == b;
    } else {
      assert (a + b)[0] == a[0];
      assert (a + b)[1..] == a[1..] + b;
      ViewAppend(a[1..], b, catalog);
    }
  }

  /** The total is the sum of the subtotals the cart page shows. */
  lemma {:induction false} TotalIsViewSum(c: Cart, catalog: seq<Product>)
    ensures Total(c, catalog) == SumSubtotals(View(c, catalog))
  {
    if c != [] {
      TotalIsViewSum(c[1..], catalog);
      match Lookup(catalog, c[0].productId)
      case Some(product) =>
        var head := Item(product, c[0].quantity, product.price * c[0].quantity);
        assert ([head] + View(c[1..], catalog))[1..] == View(c[1..], catalog);
      case None =>
    }
  }

  /** The cart-page item it shows line l: l's product resolves to it.product, with l's quantity. */
  ghost predicate Shows(catalog: seq<Product>, it: Item, l: Line)
  {
    Lookup(catalog, l.productId) == Some(it.product) && it.quantity == l.quantity
  }

  /**
   * The cart page shows exactly the lines whose product resolves, in order,
   * each with its product and quantity; the other lines are omitted.
   */
  lemma {:induction false} ViewIsResolvedLines(c: Cart, catalog: seq<Product>)
    ensures |View(c, catalog)| == |Filter(c, Resolves(catalog))|
    ensures forall k :: 0 <= k < |View(c, catalog)| ==>
      Shows(catalog, View(c, catalog)[k], Filter(c, Resolves(catalog))[k])
  {
    if c != [] {
      var rest, shown := Filter(c[1..], Resolves(catalog)), View(c[1..], catalog);
      ViewIsResolvedLines(c[1..], catalog);
      match Lookup(catalog, c[0].productId)
      case Some(product) =>
        var head := Item(product, c[0].quantity, product.price * c[0].quantity);
        assert Resolves(catalog)(c[0]);
        assert Filter(c, Resolves(catalog)) == [c[0]] + rest;
        assert View(c, catalog) == [head] + shown;
        forall k | 0 <= k < |shown| + 1
          ensures Shows(catalog, ([head] + shown)[k], ([c[0]] + rest)[k])
        {
          if k > 0 {
            assert ([head] + shown)[k] == shown[k - 1];
            assert ([c[0]] + rest)[k] == rest[k - 1];
          }
        }
      case None =>
        assert !Resolves(catalog)(c[0]);
        assert Filter(c, Resolves(catalog)) == rest;
        assert View(c, catalog) == shown;
    }
  }

  /** Lines whose product does not resolve add nothing to the total. */
  lemma {:induction false} TotalIgnoresUnresolved(c: Cart, catalog: seq<Product>)
    ensures Total(c, catalog) == Total(Filter(c, Resolves(catalog)), catalog)
  {
    if c != [] {
      TotalIgnoresUnresolved(c[1..], catalog);
      var rest := Filter(c[1..], Resolves(catalog));
      if Resolves(catalog)(c[0]) {
        assert ([c[0]] + rest)[1..] == rest;
      } else {
        assert Filter(c, Resolves(catalog)) == rest;
        assert UnitPrice(catalog, c[0].productId) == 0;
      }
    }
  }

  lemma TotalReplace(c: Cart, i: nat, l: Line, catalog: seq<Product>)
    requires i < |c|
    ensures Total(c[i := l], catalog) == Total(c, catalog) - LineTotal(c[i], catalog) + LineTotal(l, catalog)
  {
    var pre, post := c[..i], c[i + 1..];
    assert c == pre + [c[i]] + post;
    assert c[i := l] == pre + [l] + post;
    TotalAppend(pre + [c[i]], post, catalog);
    TotalAppend(pre, [c[i]], catalog);
    TotalAppend(pre + [l], post, catalog);
    TotalAppend(pre, [l], catalog);
  }

  /** Adding q of p raises the total by p's current price times q (by nothing when p does not resolve). */
  lemma AddedTotal(c: Cart, p: ProductId, q: int, catalog: seq<Product>)
    ensures Total(Added(c, p, q), catalog) == Total(c, catalog) + UnitPrice(catalog, p) * q
  {
    var i := FirstIndex(c, p);
    var price := UnitPrice(catalog, p);
    if i < |c| {
      TotalReplace(c, i, Line(p, c[i].quantity + q), catalog);
      Distribute(price, c[i].quantity, q);
    } else {
      TotalAppend(c, [Line(p, q)], catalog);
    }
  }

  lemma Distribute(a: int, b: int, c: int)
    ensures a * (b + c) == a * b + a * c
  {
  }

  /** Removing p lowers the total by p's price times the quantity the cart held of p. */
  lemma {:induction false} RemovedTotal(c: Cart, p: ProductId, catalog: seq<Product>)
    ensures Total(c, catalog) == Total(Removed(c, p), catalog) + UnitPrice(catalog, p) * QuantityOf(c, p)
  {
    if c != [] {
      var price, rest, held := UnitPrice(catalog, p), Removed(c[1..], p), QuantityOf(c[1..], p);
      RemovedCons(c, p);
      RemovedTotal(c[1..], p, catalog);
      assert Total(c, catalog) == LineTotal(c[0], catalog) + Total(c[1..], catalog);
      if c[0].productId == p {
        assert Removed(c, p) == rest;
        assert QuantityOf(c, p) == c[0].quantity + held;
        assert LineTotal(c[0], catalog) == price * c[0].quantity;
        Distribute(price, c[0].quantity, held);
      } else {
        assert Removed(c, p) == [c[0]] + rest;
        assert ([c[0]] + rest)[1..] == rest;
        assert QuantityOf(c, p) == held;
      }
    }
  }

  // ---------------------------------------------------------------- the pricing loops

  /** The loop of the cart and checkout pages: resolve each line, skip what does not resolve, accumulate. */
  method Summarize(c: Cart, catalog: seq<Product>) returns (s: Summary)
    ensures s.items == View(c, catalog)
    ensures s.total == Total(c, catalog)
  {
    var items: seq<Item> := [];
    var total := 0;
    var i := 0;
    while i < |c|
      invariant 0 <= i <= |c|
      invariant items == View(c[..i], catalog)
      invariant total == Total(c[..i], catalog)
    {
      assert c[..i + 1] == c[..i] + [c[i]];
      ViewAppend(c[..i], [c[i]], catalog);
      TotalAppend(c[..i], [c[i]], catalog);
      var found := Lookup(catalog, c[i].productId);
      if found.Some? {
        var subtotal := found.value.price * c[i].quantity;
        total := total + subtotal;
        items := items + [Item(found.value, c[i].quantity, subtotal)];
      }
      i := i + 1;
    }
    assert c[..i] == c;
    s := Summary(items, total);
  }

  /** The loop of order confirmation: the total alone, over the lines that resolve. */
  method OrderTotal(c: Cart, catalog: seq<Product>) returns (total: int)
    ensures total == Total(c, catalog)
  {
    total := 0;
    var i := 0;
    while i < |c|
      invariant 0 <= i <= |c|
      invariant total == Total(c[..i], catalog)
    {
      assert c[..i + 1] == c[..i] + [c[i]];
      TotalAppend(c[..i], [c[i]], catalog);
      var found := Lookup(catalog, c[i].productId);
      if found.Some? {
        total := total + found.value.price * c[i].quantity;
      }
      i := i + 1;
    }
    assert c[..i] == c;
  }
}
