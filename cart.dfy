/**
  The catalog page's cart as values: the lines kept per product id, the
  expressions the quantity callback uses to rebuild the cart (`find`, `map`,
  `filter`, append), the two `reduce` totals and the stock updates checkout
  sends.
 */
module Cart {
  import opened Js
  import opened Remote

  /** A row of the `stoq` table as the catalog reads it. */
  datatype Product = Product(id: int, name: string, price: int, qty: int)

  /**
    A cart line: a copy of the product as it was when the line was created,
    with the quantity chosen for it.
   */
  datatype CartLine = CartLine(item: Product, cartQty: int)

  /** The request checkout sends for one line: set the stock of the row with this id to `qty`. */
  datatype StockUpdate = StockUpdate(id: int, qty: int)

  predicate HasLine(cart: seq<CartLine>, id: int) {
    exists i :: 0 <= i < |cart| && cart[i].item.id == id
  }

  /** No two lines of the cart are for the same product. */
  predicate DistinctIds(cart: seq<CartLine>) {
    forall i, j :: 0 <= i < j < |cart| ==> cart[i].item.id != cart[j].item.id
  }

  /** Every line holds a positive quantity. */
  predicate AllPositive(cart: seq<CartLine>) {
    forall i :: 0 <= i < |cart| ==> cart[i].cartQty > 0
  }

  // ---------------------------------------------------------------------------
  // find, map and filter over the cart
  // ---------------------------------------------------------------------------

  /** A line for the product is either the first line or one of the rest. */
  lemma HasLineCons(cart: seq<CartLine>, id: int)
    requires cart != []
    ensures HasLine(cart, id) <==> cart[0].item.id == id || HasLine(cart[1..], id)
  {
    if HasLine(cart, id) && cart[0].item.id != id {
      var i :| 0 <= i < |cart| && cart[i].item.id == id;
      assert cart[1..][i - 1].item.id == id;
    }
    if HasLine(cart[1..], id) {
      var i :| 0 <= i < |cart[1..]| && cart[1..][i].item.id == id;
      assert cart[i + 1].item.id == id;
    }
  }

  lemma HasLineAppend(a: seq<CartLine>, b: seq<CartLine>, id: int)
    ensures HasLine(a + b, id) <==> HasLine(a, id) || HasLine(b, id)
  {
    if HasLine(a + b, id) {
      var i :| 0 <= i < |a + b| && (a + b)[i].item.id == id;
      if i >= |a| {
        assert b[i - |a|].item.id == id;
      }
    }
    if HasLine(a, id) {
      var i :| 0 <= i < |a| && a[i].item.id == id;
      assert (a + b)[i].item.id == id;
    }
    if HasLine(b, id) {
      var i :| 0 <= i < |b| && b[i].item.id == id;
      assert (a + b)[|a| + i].item.id == id;
    }
  }

  /** The first line for the product, if any. */
  function Find(cart: seq<CartLine>, id: int): (r: Option<CartLine>)
    ensures r.Some? <==> HasLine(cart, id)
    ensures r.Some? ==> r.value.item.id == id
    ensures r.Some? ==> exists k :: 0 <= k < |cart| && cart[k] == r.value
                                  && forall j :: 0 <= j < k ==> cart[j].item.id != id
  {
    if cart == [] then None
    else
      HasLineCons(cart, id);
      if cart[0].item.id == id then Some(cart[0])
      else
        var r := Find(cart[1..], id);
        if r.Some? then
          var k :| 0 <= k < |cart[1..]| && cart[1..][k] == r.value
                   && forall j :: 0 <= j < k ==> cart[1..][j].item.id != id;
          assert cart[k + 1] == r.value;
          assert forall j :: 0 <= j < k + 1 ==> cart[j].item.id != id by {
            forall j | 0 < j < k + 1 ensures cart[j].item.id != id {
              assert cart[j] == cart[1..][j - 1];
            }
          }
          r
        else r
  }

  /** The cart with the quantity of the product's lines replaced, every line kept in place. */
  function WithCartQty(cart: seq<CartLine>, id: int, cartQty: int): (r: seq<CartLine>)
    ensures |r| == |cart|
    ensures forall i :: 0 <= i < |cart| ==>
              r[i] == if cart[i].item.id == id then CartLine(cart[i].item, cartQty) else cart[i]
  {
    if cart == [] then []
    else
      [if cart[0].item.id == id then CartLine(cart[0].item, cartQty) else cart[0]]
      + WithCartQty(cart[1..], id, cartQty)
  }

  /** The cart without the product's lines, the others kept in order. */
  function RemoveId(cart: seq<CartLine>, id: int): (r: seq<CartLine>)
    ensures |r| <= |cart|
    ensures !HasLine(r, id)
  {
    if cart == [] then []
    else (if cart[0].item.id != id then [cart[0]] else []) + RemoveId(cart[1..], id)
  }

  lemma {:induction false} RemoveIdAppend(a: seq<CartLine>, b: seq<CartLine>, id: int)
    ensures RemoveId(a + b, id) == RemoveId(a, id) + RemoveId(b, id)
  {
    if a != [] {
      var head := if a[0].item.id != id then [a[0]] else [];
      assert (a + b)[0] == a[0] && (a + b)[1..] == a[1..] + b;
      assert RemoveId(a + b, id) == head + RemoveId(a[1..] + b, id);
      RemoveIdAppend(a[1..], b, id);
      assert RemoveId(a, id) == head + RemoveId(a[1..], id);
      assert head + (RemoveId(a[1..], id) + RemoveId(b, id))
          == (head + RemoveId(a[1..], id)) + RemoveId(b, id);
    } else {
      assert a + b == b;
    }
  }

  /** Filtering out a product the cart has no line for changes nothing. */
  lemma {:induction false} RemoveIdAbsent(cart: seq<CartLine>, id: int)
    requires !HasLine(cart, id)
    ensures RemoveId(cart, id) == cart
  {
    if cart != [] {
      HasLineCons(cart, id);
      RemoveIdAbsent(cart[1..], id);
      assert cart == [cart[0]] + cart[1..];
    }
  }

  /** The line at `k` is the only one for its product, so no line before or after it is. */
  lemma DistinctAround(cart: seq<CartLine>, k: nat)
    requires DistinctIds(cart) && k < |cart|
    ensures !HasLine(cart[..k], cart[k].item.id)
    ensures !HasLine(cart[k + 1..], cart[k].item.id)
  {
    var id := cart[k].item.id;
    var before, after := cart[..k], cart[k + 1..];
    forall i | 0 <= i < |before| ensures before[i].item.id != id {
      assert before[i] == cart[i];
    }
    forall i | 0 <= i < |after| ensures after[i].item.id != id {
      assert after[i] == cart[k + 1 + i];
    }
  }

  /** Filtering out the product of a line that no other line shares leaves the lines around it. */
  lemma RemoveIdMiddle(before: seq<CartLine>, x: CartLine, after: seq<CartLine>)
    requires !HasLine(before, x.item.id) && !HasLine(after, x.item.id)
    ensures RemoveId(before + [x] + after, x.item.id) == before + after
  {
    var id := x.item.id;
    assert RemoveId([x], id) == [] by {
      assert [x][1..] == [];
    }
    calc {
      RemoveId(before + [x] + after, id);
      { RemoveIdAppend(before + [x], after, id); }
      RemoveId(before + [x], id) + RemoveId(after, id);
      { RemoveIdAppend(before, [x], id); }
      RemoveId(before, id) + RemoveId([x], id) + RemoveId(after, id);
      { RemoveIdAbsent(before, id); RemoveIdAbsent(after, id); }
      before + [] + after;
      { assert before + [] == before; }
      before + after;
    }
  }

  /** In a cart with distinct ids, the filter removes exactly the product's line and keeps the order of the rest. */
  lemma RemoveIdAt(cart: seq<CartLine>, k: nat)
    requires DistinctIds(cart) && k < |cart|
    ensures RemoveId(cart, cart[k].item.id) == cart[..k] + cart[k + 1..]
  {
    DistinctAround(cart, k);
    RemoveIdMiddle(cart[..k], cart[k], cart[k + 1..]);
    assert cart == cart[..k] + [cart[k]] + cart[k + 1..];
  }

  lemma {:induction false} RemoveIdOfWithCartQty(cart: seq<CartLine>, id: int, cartQty: int)
    ensures RemoveId(WithCartQty(cart, id, cartQty), id) == RemoveId(cart, id)
  {
    if cart != [] {
      var w := WithCartQty(cart, id, cartQty);
      assert w[1..] == WithCartQty(cart[1..], id, cartQty);
      RemoveIdOfWithCartQty(cart[1..], id, cartQty);
    }
  }

  /** The filter adds no product the cart did not have. */
  lemma {:induction false} RemoveIdNoNewLines(cart: seq<CartLine>, id: int, other: int)
    requires !HasLine(cart, other)
    ensures !HasLine(RemoveId(cart, id), other)
  {
    if cart != [] {
      HasLineCons(cart, other);
      RemoveIdNoNewLines(cart[1..], id, other);
      HasLineAppend(if cart[0].item.id != id then [cart[0]] else [], RemoveId(cart[1..], id), other);
    }
  }

  lemma {:induction false} RemoveIdKeepsDistinct(cart: seq<CartLine>, id: int)
    requires DistinctIds(cart)
    ensures DistinctIds(RemoveId(cart, id))
  {
    if cart != [] {
      RemoveIdKeepsDistinct(cart[1..], id);
      var rest := RemoveId(cart[1..], id);
      if cart[0].item.id != id {
        DistinctAround(cart, 0);
        RemoveIdNoNewLines(cart[1..], id, cart[0].item.id);
        var r := [cart[0]] + rest;
        forall i, j | 0 <= i < j < |r| ensures r[i].item.id != r[j].item.id {
          assert r[j] == rest[j - 1];
          if i > 0 {
            assert r[i] == rest[i - 1];
          }
        }
      }
    }
  }

  lemma {:induction false} FindAppendNew(cart: seq<CartLine>, line: CartLine)
    requires !HasLine(cart, line.item.id)
    ensures Find(cart + [line], line.item.id) == Some(line)
    decreases |cart|
  {
    if cart != [] {
      HasLineCons(cart, line.item.id);
      assert (cart + [line])[0] == cart[0] && (cart + [line])[1..] == cart[1..] + [line];
      FindAppendNew(cart[1..], line);
    }
  }

  lemma {:induction false} FindWithCartQty(cart: seq<CartLine>, id: int, cartQty: int)
    requires HasLine(cart, id)
    ensures Find(WithCartQty(cart, id, cartQty), id) == Some(CartLine(Find(cart, id).value.item, cartQty))
  {
    HasLineCons(cart, id);
    var w := WithCartQty(cart, id, cartQty);
    if cart[0].item.id != id {
      assert w[1..] == WithCartQty(cart[1..], id, cartQty);
      FindWithCartQty(cart[1..], id, cartQty);
    }
  }

  // ---------------------------------------------------------------------------
  // The quantity callback
  // ---------------------------------------------------------------------------

  /**
    The item a line for `product` holds: the snapshot already in the cart if
    there is one, otherwise the product itself.
   */
  function LineItem(cart: seq<CartLine>, product: Product): Product {
    match Find(cart, product.id)
    case Some(l) => l.item
    case None => product
  }

  /** The map keeps every line's item and position: only quantities change. */
  lemma WithCartQtyKeepsItems(cart: seq<CartLine>, id: int, cartQty: int)
    ensures var r := WithCartQty(cart, id, cartQty);
      && (forall i :: 0 <= i < |r| ==> r[i].item == cart[i].item)
      && (DistinctIds(cart) ==> DistinctIds(r))
      && (forall i :: 0 <= i < |r| && r[i].item.id == id ==> r[i].cartQty == cartQty)
  {
  }

  /** What a positive quantity does to a cart that already has a line for the product. */
  lemma UpdateInPlace(cart: seq<CartLine>, product: Product, qty: int)
    requires HasLine(cart, product.id) && qty > 0
    ensures Find(WithCartQty(cart, product.id, qty), product.id) == Some(CartLine(LineItem(cart, product), qty))
    ensures RemoveId(WithCartQty(cart, product.id, qty), product.id) == RemoveId(cart, product.id)
  {
    RemoveIdOfWithCartQty(cart, product.id, qty);
    FindWithCartQty(cart, product.id, qty);
  }

  /** What a positive quantity does to a cart without a line for the product. */
  lemma AppendNew(cart: seq<CartLine>, product: Product, qty: int)
    requires !HasLine(cart, product.id) && qty > 0
    ensures var r := cart + [CartLine(product, qty)];
      && (DistinctIds(cart) ==> DistinctIds(r))
      && HasLine(r, product.id)
      && Find(r, product.id) == Some(CartLine(LineItem(cart, product), qty))
      && (forall i :: 0 <= i < |r| && r[i].item.id == product.id ==> r[i].cartQty == qty)
      && RemoveId(r, product.id) == RemoveId(cart, product.id)
  {
    var id := product.id;
    var line := CartLine(product, qty);
    var r := cart + [line];
    FindAppendNew(cart, line);
    RemoveIdAppend(cart, [line], id);
    RemoveIdAbsent(cart, id);
    assert RemoveId([line], id) == [] + RemoveId([], id);
    if DistinctIds(cart) {
      forall i, j | 0 <= i < j < |r| ensures r[i].item.id != r[j].item.id {
        assert r[i] == cart[i];
        if j < |cart| {
          assert r[j] == cart[j];
        }
      }
    }
  }

  /** What a quantity of 0 does: no line for the product is left. */
  lemma RemoveAll(cart: seq<CartLine>, product: Product)
    ensures var r := RemoveId(cart, product.id);
      && (DistinctIds(cart) ==> DistinctIds(r))
      && !HasLine(r, product.id)
      && RemoveId(r, product.id) == RemoveId(cart, product.id)
      && (!HasLine(cart, product.id) ==> r == cart)
  {
    var r := RemoveId(cart, product.id);
    RemoveIdAbsent(r, product.id);
    if !HasLine(cart, product.id) {
      RemoveIdAbsent(cart, product.id);
    }
    if DistinctIds(cart) {
      RemoveIdKeepsDistinct(cart, product.id);
    }
  }

  /**
    The cart the quantity callback of `product` builds: a positive quantity
    replaces the quantity of the product's line in place, or appends a new
    line when there is none; any other quantity filters the product out.
   */
  function ApplyQuantity(cart: seq<CartLine>, product: Product, qty: int): (r: seq<CartLine>)
    ensures DistinctIds(cart) ==> DistinctIds(r)
    ensures HasLine(r, product.id) <==> qty > 0
    ensures qty > 0 ==> Find(r, product.id) == Some(CartLine(LineItem(cart, product), qty))
    ensures forall i :: 0 <= i < |r| && r[i].item.id == product.id ==> r[i].cartQty == qty
    ensures RemoveId(r, product.id) == RemoveId(cart, product.id)
    ensures qty > 0 && HasLine(cart, product.id) ==>
              |r| == |cart| && forall i :: 0 <= i < |r| ==>
                r[i] == if cart[i].item.id == product.id then CartLine(cart[i].item, qty) else cart[i]
    ensures qty > 0 && !HasLine(cart, product.id) ==> r == cart + [CartLine(product, qty)]
    ensures qty <= 0 && !HasLine(cart, product.id) ==> r == cart
  {
    if qty > 0 then
      if Find(cart, product.id).Some? then
        UpdateInPlace(cart, product, qty);
        WithCartQtyKeepsItems(cart, product.id, qty);
        WithCartQty(cart, product.id, qty)
      else
        AppendNew(cart, product, qty);
        cart + [CartLine(product, qty)]
    else
      RemoveAll(cart, product);
      RemoveId(cart, product.id)
  }

  /** In a cart with distinct ids, a quantity of 0 takes out exactly the product's line and keeps the others in order. */
  lemma ZeroRemovesLine(cart: seq<CartLine>, product: Product, qty: int, k: nat)
    requires qty <= 0 && DistinctIds(cart) && k < |cart| && cart[k].item.id == product.id
    ensures ApplyQuantity(cart, product, qty) == cart[..k] + cart[k + 1..]
  {
    RemoveIdAt(cart, k);
  }

  lemma {:induction false} RemoveIdKeepsPositive(cart: seq<CartLine>, id: int)
    requires AllPositive(cart)
    ensures AllPositive(RemoveId(cart, id))
  {
    if cart != [] {
      RemoveIdKeepsPositive(cart[1..], id);
    }
  }

  /** The callback never leaves a line with a quantity of 0 or less in the cart. */
  lemma ApplyQuantityKeepsPositive(cart: seq<CartLine>, product: Product, qty: int)
    requires AllPositive(cart)
    ensures AllPositive(ApplyQuantity(cart, product, qty))
  {
    if qty <= 0 {
      RemoveIdKeepsPositive(cart, product.id);
    }
  }

  // ---------------------------------------------------------------------------
  // Totals
  // ---------------------------------------------------------------------------

  /** The number of items in the cart: the line quantities added up from the left, starting at 0. */
  function TotalItems(cart: seq<CartLine>): (n: int)
    ensures AllPositive(cart) ==> n >= |cart|
  {
    if cart == [] then 0 else TotalItems(cart[..|cart| - 1]) + cart[|cart| - 1].cartQty
  }

  /** The cart's price: each line's price times its quantity, added up from the left, starting at 0. */
  function TotalPrice(cart: seq<CartLine>): (n: int)
    ensures (forall i :: 0 <= i < |cart| ==> cart[i].item.price >= 0 && cart[i].cartQty >= 0) ==> n >= 0
  {
    if cart == [] then 0
    else TotalPrice(cart[..|cart| - 1]) + cart[|cart| - 1].item.price * cart[|cart| - 1].cartQty
  }

  /** The quantity of the product's line, 0 when there is none. */
  function LineQty(cart: seq<CartLine>, id: int): int {
    match Find(cart, id)
    case Some(l) => l.cartQty
    case None => 0
  }

  /** What the product's line adds to the total price, 0 when there is none. */
  function LinePrice(cart: seq<CartLine>, id: int): int {
    match Find(cart, id)
    case Some(l) => l.item.price * l.cartQty
    case None => 0
  }

  /** The left folds also peel off the first line. */
  lemma {:induction false} TotalsCons(x: CartLine, rest: seq<CartLine>)
    ensures TotalItems([x] + rest) == x.cartQty + TotalItems(rest)
    ensures TotalPrice([x] + rest) == x.item.price * x.cartQty + TotalPrice(rest)
    decreases |rest|
  {
    if rest != [] {
      var c := [x] + rest;
      assert c[..|c| - 1] == [x] + rest[..|rest| - 1];
      TotalsCons(x, rest[..|rest| - 1]);
    }
  }

  /** Both totals add up over a cart split in two: they are sums over the lines. */
  lemma {:induction false} TotalsAppend(a: seq<CartLine>, b: seq<CartLine>)
    ensures TotalItems(a + b) == TotalItems(a) + TotalItems(b)
    ensures TotalPrice(a + b) == TotalPrice(a) + TotalPrice(b)
    decreases |b|
  {
    if b == [] {
      assert a + b == a;
    } else {
      var c := a + b;
      var front := b[..|b| - 1];
      assert c[..|c| - 1] == a + front;
      assert c[|c| - 1] == b[|b| - 1];
      TotalsAppend(a, front);
    }
  }

  /** Each total is the total of the other lines plus the product's own line. */
  lemma {:induction false} TotalsSplit(cart: seq<CartLine>, id: int)
    requires DistinctIds(cart)
    ensures TotalItems(cart) == TotalItems(RemoveId(cart, id)) + LineQty(cart, id)
    ensures TotalPrice(cart) == TotalPrice(RemoveId(cart, id)) + LinePrice(cart, id)
  {
    if cart != [] {
      var x, rest := cart[0], cart[1..];
      assert cart == [x] + rest;
      TotalsCons(x, rest);
      if x.item.id == id {
        DistinctAround(cart, 0);
        RemoveIdAbsent(rest, id);
        assert RemoveId(cart, id) == rest;
        assert Find(cart, id) == Some(x);
      } else {
        assert DistinctIds(rest) by {
          forall i, j | 0 <= i < j < |rest| ensures rest[i].item.id != rest[j].item.id {
            assert rest[i] == cart[i + 1] && rest[j] == cart[j + 1];
          }
        }
        TotalsSplit(rest, id);
        assert RemoveId(cart, id) == [x] + RemoveId(rest, id);
        assert Find(cart, id) == Find(rest, id);
        TotalsCons(x, RemoveId(rest, id));
      }
    }
  }

  /**
    A quantity change moves the totals by exactly the change of the product's
    line: its old contribution leaves, the new one (none for a quantity of 0)
    comes in, priced at the line's snapshot.
   */
  lemma TotalsAfterChange(cart: seq<CartLine>, product: Product, qty: int)
    requires DistinctIds(cart)
    ensures TotalItems(ApplyQuantity(cart, product, qty))
         == TotalItems(cart) - LineQty(cart, product.id) + (if qty > 0 then qty else 0)
    ensures TotalPrice(ApplyQuantity(cart, product, qty))
         == TotalPrice(cart) - LinePrice(cart, product.id)
            + (if qty > 0 then LineItem(cart, product).price * qty else 0)
  {
    var r := ApplyQuantity(cart, product, qty);
    TotalsSplit(cart, product.id);
    TotalsSplit(r, product.id);
  }

  // ---------------------------------------------------------------------------
  // Checkout
  // ---------------------------------------------------------------------------

  /**
    The updates checkout sends, one per line in cart order: the stock captured
    in the line minus the quantity taken.
   */
  function Deductions(cart: seq<CartLine>): (r: seq<StockUpdate>)
    ensures |r| == |cart|
    ensures forall i :: 0 <= i < |cart| ==>
              r[i] == StockUpdate(cart[i].item.id, cart[i].item.qty - cart[i].cartQty)
  {
    if cart == [] then []
    else [StockUpdate(cart[0].item.id, cart[0].item.qty - cart[0].cartQty)] + Deductions(cart[1..])
  }

  /** The first `n` remote calls all succeeded. */
  predicate Succeeded(outcomes: seq<Outcome>, n: nat)
    requires n <= |outcomes|
  {
    forall j :: 0 <= j < n ==> outcomes[j].Ok?
  }

  /**
    How many of `n` sequential calls are issued when each waits for the one
    before and the first error stops the rest: all of them when every call
    succeeds, otherwise up to and including the first that fails.
   */
  function IssuedCount(outcomes: seq<Outcome>, n: nat): (k: nat)
    requires n <= |outcomes|
    ensures k <= n
    ensures Succeeded(outcomes, n) ==> k == n
    ensures !Succeeded(outcomes, n) ==> 0 < k && outcomes[k - 1].Err? && Succeeded(outcomes, k - 1)
  {
    if n == 0 then 0
    else if outcomes[0].Err? then 1
    else
      var k := 1 + IssuedCount(outcomes[1..], n - 1);
      assert Succeeded(outcomes, n) <==> Succeeded(outcomes[1..], n - 1) by {
        if Succeeded(outcomes[1..], n - 1) {
          forall j | 0 <= j < n ensures outcomes[j].Ok? {
            if j > 0 { assert outcomes[1..][j - 1] == outcomes[j]; }
          }
        }
      }
      k
  }

  /** The call that fails first after a run of successes is the last one issued. */
  lemma IssuedCountAt(outcomes: seq<Outcome>, n: nat, i: nat)
    requires i < n <= |outcomes|
    requires Succeeded(outcomes, i) && outcomes[i].Err?
    ensures !Succeeded(outcomes, n) && IssuedCount(outcomes, n) == i + 1
  {
    var k := IssuedCount(outcomes, n);
    assert !Succeeded(outcomes, n);
    // each of the two calls is the first failure, so neither comes before the other
    assert outcomes[k - 1].Err? && outcomes[i].Err?;
  }

  /**
    The checkout loop: one stock update per line, in cart order, each sent
    after the answer to the one before; the first error stops the rest.
    `outcomes[i]` is the answer to the i-th update.
   */
  method SendDeductions(lines: seq<CartLine>, outcomes: seq<Outcome>) returns (sent: seq<StockUpdate>, ok: bool)
    requires |lines| <= |outcomes|
    ensures sent == Deductions(lines)[..IssuedCount(outcomes, |lines|)]
    ensures ok <==> Succeeded(outcomes, |lines|)
  {
    sent := [];
    var i := 0;
    while i < |lines|
      invariant 0 <= i <= |lines|
      invariant sent == Deductions(lines)[..i]
      invariant Succeeded(outcomes, i)
    {
      var line := lines[i];
      sent := sent + [StockUpdate(line.item.id, line.item.qty - line.cartQty)];
      assert sent == Deductions(lines)[..i + 1] by {
        var d := Deductions(lines);
        assert d[..i + 1] == d[..i] + [d[i]];
      }
      if outcomes[i].Err? {
        IssuedCountAt(outcomes, |lines|, i);
        ok := false;
        return;
      }
      i := i + 1;
    }
    ok := true;
  }
}
