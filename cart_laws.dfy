/**
 Properties of the cart updaters and totals defined in module Shop.
 */
module CartLaws {
  import opened Shop

  // ---------------------------------------------------------------------------
  // Filter

  lemma {:induction false} FilterMembers(c: Cart, keep: CartItem -> bool, x: CartItem)
    ensures x in Filter(c, keep) <==> x in c && keep(x)
  {
    if c != [] {
      FilterMembers(c[1..], keep, x);
      assert c == [c[0]] + c[1..];
    }
  }

  lemma {:induction false} FilterConcat(a: Cart, b: Cart, keep: CartItem -> bool)
    ensures Filter(a + b, keep) == Filter(a, keep) + Filter(b, keep)
  {
    if a == [] {
      assert a + b == b;
    } else {
      var head: Cart := if keep(a[0]) then [a[0]] else [];
      assert (a + b)[0] == a[0];
      assert (a + b)[1..] == a[1..] + b;
      assert Filter(a + b, keep) == head + Filter(a[1..] + b, keep);
      FilterConcat(a[1..], b, keep);
      assert Filter(a, keep) == head + Filter(a[1..], keep);
      assert head + (Filter(a[1..], keep) + Filter(b, keep)) == (head + Filter(a[1..], keep)) + Filter(b, keep);
    }
  }

  lemma {:induction false} FilterKeepsAll(c: Cart, keep: CartItem -> bool)
    requires forall i :: 0 <= i < |c| ==> keep(c[i])
    ensures Filter(c, keep) == c
  {
    if c != [] {
      assert forall i :: 0 <= i < |c[1..]| ==> c[1..][i] == c[i + 1];
      FilterKeepsAll(c[1..], keep);
    }
  }

  /** Filtering out exactly one element leaves the elements before and after it. */
  lemma {:induction false} FilterDropsOne(c: Cart, keep: CartItem -> bool, k: int)
    requires 0 <= k < |c| && !keep(c[k])
    requires forall i :: 0 <= i < |c| && i != k ==> keep(c[i])
    ensures Filter(c, keep) == c[..k] + c[k + 1..]
  {
    var tail := c[1..];
    if k == 0 {
      assert forall i :: 0 <= i < |tail| ==> tail[i] == c[i + 1];
      FilterKeepsAll(tail, keep);
      assert Filter(c, keep) == [] + Filter(tail, keep);
    } else {
      assert forall i :: 0 <= i < |tail| ==> tail[i] == c[i + 1];
      FilterDropsOne(tail, keep, k - 1);
      assert Filter(c, keep) == [c[0]] + (tail[..k - 1] + tail[k..]);
      assert [c[0]] + tail[..k - 1] == c[..k];
      assert tail[k..] == c[k + 1..];
    }
  }

  lemma FilterIdempotent(c: Cart, keep: CartItem -> bool)
    ensures Filter(Filter(c, keep), keep) == Filter(c, keep)
  {
    var f := Filter(c, keep);
    forall i | 0 <= i < |f| ensures keep(f[i]) {
      FilterMembers(c, keep, f[i]);
    }
    FilterKeepsAll(f, keep);
  }

  lemma UniqueCons(x: CartItem, s: Cart)
    requires UniqueIds(s)
    requires forall j :: 0 <= j < |s| ==> s[j].id != x.id
    ensures UniqueIds([x] + s)
  {
    var t := [x] + s;
    forall i, j | 0 <= i < j < |t| ensures t[i].id != t[j].id {
      assert t[j] == s[j - 1];
      if i > 0 {
        assert t[i] == s[i - 1];
      }
    }
  }

  lemma {:induction false} FilterKeepsUnique(c: Cart, keep: CartItem -> bool)
    requires UniqueIds(c)
    ensures UniqueIds(Filter(c, keep))
  {
    if c != [] {
      var tail := c[1..];
      assert UniqueIds(tail) by {
        forall i, j | 0 <= i < j < |tail| ensures tail[i].id != tail[j].id {
          assert tail[i] == c[i + 1] && tail[j] == c[j + 1];
        }
      }
      FilterKeepsUnique(tail, keep);
      if keep(c[0]) {
        var s := Filter(tail, keep);
        forall j | 0 <= j < |s| ensures s[j].id != c[0].id {
          FilterMembers(tail, keep, s[j]);
          var m :| 0 <= m < |tail| && tail[m] == s[j];
          assert tail[m] == c[m + 1];
        }
        UniqueCons(c[0], s);
      } else {
        assert Filter(c, keep) == Filter(tail, keep);
      }
    }
  }

  lemma FilterKeepsPositive(c: Cart, keep: CartItem -> bool)
    requires AllPositive(c)
    ensures AllPositive(Filter(c, keep))
  {
    var f := Filter(c, keep);
    forall i | 0 <= i < |f| ensures f[i].quantity > 0 {
      FilterMembers(c, keep, f[i]);
    }
  }

  // ---------------------------------------------------------------------------
  // Sums

  /** A left fold with a starting sum is that sum plus the sum of the elements. */
  lemma {:induction false} ReduceIsSum(sum: int, c: Cart, f: CartItem -> int)
    ensures Reduce(sum, c, f) == sum + SumOf(c, f)
    decreases |c|
  {
    if c != [] {
      ReduceIsSum(sum + f(c[0]), c[1..], f);
    }
  }

  lemma {:induction false} SumConcat(a: Cart, b: Cart, f: CartItem -> int)
    ensures SumOf(a + b, f) == SumOf(a, f) + SumOf(b, f)
  {
    if a == [] {
      assert a + b == b;
    } else {
      assert (a + b)[0] == a[0];
      assert (a + b)[1..] == a[1..] + b;
      SumConcat(a[1..], b, f);
    }
  }

  lemma {:induction false} SumUpdate(c: Cart, k: int, x: CartItem, f: CartItem -> int)
    requires 0 <= k < |c|
    ensures SumOf(c[k := x], f) == SumOf(c, f) - f(c[k]) + f(x)
  {
    if k == 0 {
      assert c[k := x][1..] == c[1..];
    } else {
      assert c[k := x][1..] == c[1..][k - 1 := x];
      SumUpdate(c[1..], k - 1, x, f);
    }
  }

  // ---------------------------------------------------------------------------
  // Totals

  /** cartTotal is the sum of price times quantity over the lines; 0 for the empty cart. */
  lemma CartTotalIsSum(c: Cart)
    ensures CartTotal(c) == SumOf(c, Subtotal)
    ensures c == [] ==> CartTotal(c) == 0
  {
    ReduceIsSum(0, c, Subtotal);
  }

  /** cartItemsCount is the sum of the quantities over the lines; 0 for the empty cart. */
  lemma CartItemsCountIsSum(c: Cart)
    ensures CartItemsCount(c) == SumOf(c, Quantity)
    ensures c == [] ==> CartItemsCount(c) == 0
  {
    ReduceIsSum(0, c, Quantity);
  }

  lemma {:induction false} SumOfQuantitiesAtLeastLength(c: Cart)
    requires AllPositive(c)
    ensures SumOf(c, Quantity) >= |c|
  {
    if c != [] {
      assert c[0].quantity > 0;
      SumOfQuantitiesAtLeastLength(c[1..]);
    }
  }

  /** With positive quantities the badge count is at least the number of lines. */
  lemma CartItemsCountAtLeastLines(c: Cart)
    requires AllPositive(c)
    ensures CartItemsCount(c) >= |c|
  {
    CartItemsCountIsSum(c);
    SumOfQuantitiesAtLeastLength(c);
  }

  lemma {:induction false} SumOfSubtotalsNonNegative(c: Cart)
    requires AllPositive(c)
    requires forall i :: 0 <= i < |c| ==> c[i].price >= 0
    ensures SumOf(c, Subtotal) >= 0
  {
    if c != [] {
      assert c[0].price * c[0].quantity >= 0;
      SumOfSubtotalsNonNegative(c[1..]);
    }
  }

  /** With non-negative prices and positive quantities the total is never negative. */
  lemma CartTotalNonNegative(c: Cart)
    requires AllPositive(c)
    requires forall i :: 0 <= i < |c| ==> c[i].price >= 0
    ensures CartTotal(c) >= 0
  {
    CartTotalIsSum(c);
    SumOfSubtotalsNonNegative(c);
  }

  /** Changing a line's quantity by `delta` changes its subtotal by `delta` times its price. */
  lemma SubtotalShift(item: CartItem, delta: int)
    ensures Subtotal(item.(quantity := item.quantity + delta)) == Subtotal(item) + item.price * delta
  {
    assert item.price * (item.quantity + delta) == item.price * item.quantity + item.price * delta;
  }

  // ---------------------------------------------------------------------------
  // addToCart

  /**
   Adding a product already in the cart keeps the length and the id order,
   adds one to each line with that id, and changes nothing else.
   */
  lemma AddToCartExisting(c: Cart, p: Product)
    requires HasId(c, p.id)
    ensures var r := AddToCart(c, p);
      && |r| == |c| && Ids(r) == Ids(c)
      && forall i :: 0 <= i < |c| ==>
           && ProductOf(r[i]) == ProductOf(c[i])
           && r[i].quantity == (if c[i].id == p.id then c[i].quantity + 1 else c[i].quantity)
  {
  }

  /** In a cart with one line per product, adding a present product bumps exactly that line. */
  lemma AddToCartExistingLine(c: Cart, p: Product, k: int)
    requires UniqueIds(c) && 0 <= k < |c| && c[k].id == p.id
    ensures AddToCart(c, p) == c[k := c[k].(quantity := c[k].quantity + 1)]
  {
    assert HasId(c, p.id);
    var r := AddToCart(c, p);
    var e := c[k := c[k].(quantity := c[k].quantity + 1)];
    forall i | 0 <= i < |c| ensures r[i] == e[i] {
      if i != k {
        assert c[i].id != p.id by {
          if i < k { assert c[i].id != c[k].id; } else { assert c[k].id != c[i].id; }
        }
      }
    }
  }

  /** Adding a product not in the cart appends one line for it, with quantity 1. */
  lemma AddToCartNew(c: Cart, p: Product)
    requires !HasId(c, p.id)
    ensures var r := AddToCart(c, p);
      && r == c + [Item(p, 1)]
      && r[..|c|] == c
      && ProductOf(r[|c|]) == p && r[|c|].quantity == 1
      && Ids(r) == Ids(c) + [p.id]
  {
  }

  /** addToCart keeps one line per product and positive quantities, and the product is then in the cart. */
  lemma AddToCartKeepsValid(c: Cart, p: Product)
    requires Valid(c)
    ensures Valid(AddToCart(c, p)) && HasId(AddToCart(c, p), p.id)
  {
    var r := AddToCart(c, p);
    if HasId(c, p.id) {
      var k :| 0 <= k < |c| && c[k].id == p.id;
      AddToCartExistingLine(c, p, k);
      assert r[k].id == p.id;
    } else {
      assert r == c + [Item(p, 1)];
      assert r[|c|].id == p.id;
      forall i, j | 0 <= i < j < |r| ensures r[i].id != r[j].id {
        if j < |c| {
          assert r[i] == c[i] && r[j] == c[j];
        } else {
          assert r[i] == c[i];
        }
      }
    }
  }

  /** addToCart raises the item count by exactly one. */
  lemma AddToCartCount(c: Cart, p: Product)
    requires UniqueIds(c)
    ensures CartItemsCount(AddToCart(c, p)) == CartItemsCount(c) + 1
  {
    var r := AddToCart(c, p);
    CartItemsCountIsSum(c);
    CartItemsCountIsSum(r);
    if HasId(c, p.id) {
      var k :| 0 <= k < |c| && c[k].id == p.id;
      AddToCartExistingLine(c, p, k);
      SumUpdate(c, k, c[k].(quantity := c[k].quantity + 1), Quantity);
    } else {
      SumConcat(c, [Item(p, 1)], Quantity);
    }
  }

  /**
   addToCart raises the total by the price on the product's line when the
   product is already in the cart, and by the product's price otherwise.
   */
  lemma AddToCartTotal(c: Cart, p: Product)
    requires UniqueIds(c)
    ensures forall k :: 0 <= k < |c| && c[k].id == p.id ==>
              CartTotal(AddToCart(c, p)) == CartTotal(c) + c[k].price
    ensures !HasId(c, p.id) ==> CartTotal(AddToCart(c, p)) == CartTotal(c) + p.price
  {
    var r := AddToCart(c, p);
    CartTotalIsSum(c);
    CartTotalIsSum(r);
    if HasId(c, p.id) {
      forall k | 0 <= k < |c| && c[k].id == p.id ensures CartTotal(r) == CartTotal(c) + c[k].price {
        AddToCartExistingLine(c, p, k);
        SumUpdate(c, k, c[k].(quantity := c[k].quantity + 1), Subtotal);
        SubtotalShift(c[k], 1);
      }
    } else {
      SumConcat(c, [Item(p, 1)], Subtotal);
    }
  }

  // ---------------------------------------------------------------------------
  // removeFromCart

  /** The lines left are exactly the lines of another product. */
  lemma RemoveFromCartMembers(c: Cart, id: int, x: CartItem)
    ensures x in RemoveFromCart(c, id) <==> x in c && x.id != id
  {
    FilterMembers(c, NotId(id), x);
  }

  /** Removing works line by line: it distributes over joining two carts, so the lines kept stay in order. */
  lemma RemoveFromCartConcat(a: Cart, b: Cart, id: int)
    ensures RemoveFromCart(a + b, id) == RemoveFromCart(a, id) + RemoveFromCart(b, id)
  {
    FilterConcat(a, b, NotId(id));
  }

  /** In a cart with one line per product, removing a present id cuts out exactly its line. */
  lemma RemoveFromCartLine(c: Cart, id: int, k: int)
    requires UniqueIds(c) && 0 <= k < |c| && c[k].id == id
    ensures RemoveFromCart(c, id) == c[..k] + c[k + 1..]
  {
    forall i | 0 <= i < |c| && i != k ensures NotId(id)(c[i]) {
      if i < k { assert c[i].id != c[k].id; } else { assert c[k].id != c[i].id; }
    }
    FilterDropsOne(c, NotId(id), k);
  }

  /** Removing an id that is not in the cart changes nothing. */
  lemma RemoveFromCartAbsent(c: Cart, id: int)
    requires !HasId(c, id)
    ensures RemoveFromCart(c, id) == c
  {
    FilterKeepsAll(c, NotId(id));
  }

  lemma RemoveFromCartIdempotent(c: Cart, id: int)
    ensures RemoveFromCart(RemoveFromCart(c, id), id) == RemoveFromCart(c, id)
  {
    FilterIdempotent(c, NotId(id));
  }

  /** removeFromCart keeps the cart invariant and leaves no line for the id. */
  lemma RemoveFromCartKeepsValid(c: Cart, id: int)
    requires Valid(c)
    ensures Valid(RemoveFromCart(c, id)) && !HasId(RemoveFromCart(c, id), id)
  {
    var r := RemoveFromCart(c, id);
    FilterKeepsUnique(c, NotId(id));
    FilterKeepsPositive(c, NotId(id));
    forall i | 0 <= i < |r| ensures r[i].id != id {
      FilterMembers(c, NotId(id), r[i]);
    }
  }

  /** Removing a present line lowers the totals by exactly that line's share. */
  lemma RemoveFromCartTotals(c: Cart, id: int, k: int)
    requires UniqueIds(c) && 0 <= k < |c| && c[k].id == id
    ensures CartTotal(RemoveFromCart(c, id)) == CartTotal(c) - c[k].price * c[k].quantity
    ensures CartItemsCount(RemoveFromCart(c, id)) == CartItemsCount(c) - c[k].quantity
  {
    var r := RemoveFromCart(c, id);
    RemoveFromCartLine(c, id, k);
    assert c == c[..k] + ([c[k]] + c[k + 1..]);
    CartTotalIsSum(c);
    CartTotalIsSum(r);
    CartItemsCountIsSum(c);
    CartItemsCountIsSum(r);
    SumConcat(c[..k], [c[k]] + c[k + 1..], Subtotal);
    SumConcat([c[k]], c[k + 1..], Subtotal);
    SumConcat(c[..k], c[k + 1..], Subtotal);
    SumConcat(c[..k], [c[k]] + c[k + 1..], Quantity);
    SumConcat([c[k]], c[k + 1..], Quantity);
    SumConcat(c[..k], c[k + 1..], Quantity);
  }

  // ---------------------------------------------------------------------------
  // updateQuantity

  /** After updateQuantity every line has a positive quantity, whatever the cart was. */
  lemma UpdateQuantityAllPositive(c: Cart, id: int, delta: int)
    ensures AllPositive(UpdateQuantity(c, id, delta))
  {
    var r := UpdateQuantity(c, id, delta);
    forall i | 0 <= i < |r| ensures r[i].quantity > 0 {
      FilterMembers(AdjustAll(c, id, delta), IsPositive, r[i]);
    }
  }

  /**
   The filter only drops lines whose quantity was already not positive: a line
   with a positive quantity before the call is still in the cart after it.
   */
  lemma UpdateQuantityKeepsPositiveLines(c: Cart, id: int, delta: int)
    ensures forall i :: 0 <= i < |c| && c[i].quantity > 0 ==> c[i].id in Ids(UpdateQuantity(c, id, delta))
  {
    var m := AdjustAll(c, id, delta);
    var r := UpdateQuantity(c, id, delta);
    forall i | 0 <= i < |c| && c[i].quantity > 0 ensures c[i].id in Ids(r) {
      assert m[i] in m && IsPositive(m[i]);
      FilterMembers(m, IsPositive, m[i]);
      var j :| 0 <= j < |r| && r[j] == m[i];
      assert Ids(r)[j] == c[i].id;
    }
  }

  /**
   On a cart with positive quantities, updateQuantity keeps every line in
   place: a line with the id gets `quantity + delta` when that is positive and
   is left exactly as it was otherwise; other lines are untouched.
   */
  lemma UpdateQuantityLines(c: Cart, id: int, delta: int)
    requires AllPositive(c)
    ensures var r := UpdateQuantity(c, id, delta);
      && |r| == |c| && Ids(r) == Ids(c)
      && forall i :: 0 <= i < |c| ==>
           r[i] == (if c[i].id == id && c[i].quantity + delta > 0
                    then c[i].(quantity := c[i].quantity + delta)
                    else c[i])
  {
    var m := AdjustAll(c, id, delta);
    FilterKeepsAll(m, IsPositive);
  }

  /** A positive delta never removes a line and never lowers a quantity. */
  lemma UpdateQuantityIncrease(c: Cart, id: int, delta: int)
    requires AllPositive(c) && delta > 0
    ensures var r := UpdateQuantity(c, id, delta);
      && |r| == |c|
      && forall i :: 0 <= i < |c| ==>
           r[i].id == c[i].id && r[i].quantity >= c[i].quantity
           && (c[i].id == id ==> r[i].quantity == c[i].quantity + delta)
  {
    UpdateQuantityLines(c, id, delta);
    var r := UpdateQuantity(c, id, delta);
    forall i | 0 <= i < |c| ensures r[i].id == c[i].id {
      assert Ids(r)[i] == Ids(c)[i];
    }
  }

  /** In a valid cart, a delta that keeps the quantity positive sets exactly that line's quantity. */
  lemma UpdateQuantitySet(c: Cart, id: int, delta: int, k: int)
    requires Valid(c) && 0 <= k < |c| && c[k].id == id && c[k].quantity + delta > 0
    ensures UpdateQuantity(c, id, delta) == c[k := c[k].(quantity := c[k].quantity + delta)]
  {
    UpdateQuantityLines(c, id, delta);
    var r := UpdateQuantity(c, id, delta);
    var e := c[k := c[k].(quantity := c[k].quantity + delta)];
    forall i | 0 <= i < |c| ensures r[i] == e[i] {
      if i != k {
        if i < k { assert c[i].id != c[k].id; } else { assert c[k].id != c[i].id; }
      }
    }
  }

  /**
   A delta that would take a line's quantity to zero or below leaves the whole
   cart as it was: the line stays, with its old quantity.
   */
  lemma UpdateQuantityClamp(c: Cart, id: int, delta: int, k: int)
    requires Valid(c) && 0 <= k < |c| && c[k].id == id && c[k].quantity + delta <= 0
    ensures UpdateQuantity(c, id, delta) == c
  {
    UpdateQuantityLines(c, id, delta);
    var r := UpdateQuantity(c, id, delta);
    forall i | 0 <= i < |c| ensures r[i] == c[i] {
      if i != k {
        if i < k { assert c[i].id != c[k].id; } else { assert c[k].id != c[i].id; }
      }
    }
  }

  /** On a cart with positive quantities, an id not in the cart changes nothing. */
  lemma UpdateQuantityAbsent(c: Cart, id: int, delta: int)
    requires AllPositive(c) && !HasId(c, id)
    ensures UpdateQuantity(c, id, delta) == c
  {
    UpdateQuantityLines(c, id, delta);
  }

  lemma UpdateQuantityKeepsValid(c: Cart, id: int, delta: int)
    requires Valid(c)
    ensures Valid(UpdateQuantity(c, id, delta))
  {
    UpdateQuantityLines(c, id, delta);
    UpdateQuantityAllPositive(c, id, delta);
  }

  /** In a valid cart, "+" followed by "-" on a present line returns the starting cart. */
  lemma UpdateQuantityPlusMinus(c: Cart, id: int, k: int)
    requires Valid(c) && 0 <= k < |c| && c[k].id == id
    ensures UpdateQuantity(UpdateQuantity(c, id, 1), id, -1) == c
  {
    UpdateQuantitySet(c, id, 1, k);
    UpdateQuantityKeepsValid(c, id, 1);
    var d := UpdateQuantity(c, id, 1);
    UpdateQuantitySet(d, id, -1, k);
    assert d[k := d[k].(quantity := d[k].quantity - 1)] == c;
  }

  /** The totals move by `delta` lines of the product when the update applies, and not at all otherwise. */
  lemma UpdateQuantityTotals(c: Cart, id: int, delta: int, k: int)
    requires Valid(c) && 0 <= k < |c| && c[k].id == id
    ensures var r := UpdateQuantity(c, id, delta);
      && CartItemsCount(r) == CartItemsCount(c) + (if c[k].quantity + delta > 0 then delta else 0)
      && CartTotal(r) == CartTotal(c) + (if c[k].quantity + delta > 0 then c[k].price * delta else 0)
  {
    if c[k].quantity + delta > 0 {
      var r := UpdateQuantity(c, id, delta);
      var x := c[k].(quantity := c[k].quantity + delta);
      UpdateQuantitySet(c, id, delta, k);
      CartTotalIsSum(c);
      CartTotalIsSum(r);
      CartItemsCountIsSum(c);
      CartItemsCountIsSum(r);
      SumUpdate(c, k, x, Subtotal);
      SumUpdate(c, k, x, Quantity);
      SubtotalShift(c[k], delta);
    } else {
      UpdateQuantityClamp(c, id, delta, k);
    }
  }
}
