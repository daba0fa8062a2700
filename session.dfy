/**
 A shopping session: the page starts with an empty cart, and each click on
 "add to cart", "+", "-" or the bin replaces the cart with the updater's
 result. The cart invariant holds after any run of clicks, and the catalog
 keeps every line's copied fields in step with its product.
 */
module Session {
  import opened Shop
  import opened CartLaws

  /** A user intent forwarded by the page. */
  datatype Action = Add(product: Product) | Remove(id: int) | Change(id: int, delta: int)

  function Step(c: Cart, a: Action): Cart
  {
    match a
    case Add(p) => AddToCart(c, p)
    case Remove(id) => RemoveFromCart(c, id)
    case Change(id, delta) => UpdateQuantity(c, id, delta)
  }

  /** The cart after performing `acts` in order, starting from `c`. */
  function Run(c: Cart, acts: seq<Action>): Cart
  {
    if acts == [] then c else Step(Run(c, acts[..|acts| - 1]), acts[|acts| - 1])
  }

  /** Every line carries the fields of a catalog product. */
  predicate FromCatalog(c: Cart)
  {
    forall i :: 0 <= i < |c| ==> ProductOf(c[i]) in Products
  }

  /** Every product the actions add comes from the catalog. */
  predicate CatalogActions(acts: seq<Action>)
  {
    forall i :: 0 <= i < |acts| && acts[i].Add? ==> acts[i].product in Products
  }

  /** The catalog has one entry per id, all priced above zero. */
  lemma CatalogWellFormed()
    ensures forall i, j :: 0 <= i < j < |Products| ==> Products[i].id != Products[j].id
    ensures forall i :: 0 <= i < |Products| ==> Products[i].price > 0
    ensures |Products| == 6
  {
    assert forall i :: 0 <= i < |Products| ==> Products[i].id == i + 1 by {
      forall i | 0 <= i < |Products| ensures Products[i].id == i + 1 {
        if i == 0 {} else if i == 1 {} else if i == 2 {} else if i == 3 {} else if i == 4 {} else {}
      }
    }
  }

  /** Two catalog products with the same id are the same product. */
  lemma CatalogIdDetermines(p: Product, q: Product)
    requires p in Products && q in Products && p.id == q.id
    ensures p == q
  {
    CatalogWellFormed();
    var i :| 0 <= i < |Products| && Products[i] == p;
    var j :| 0 <= j < |Products| && Products[j] == q;
    assert i == j;
  }

  lemma AddToCartFromCatalog(c: Cart, p: Product)
    requires FromCatalog(c) && p in Products
    ensures FromCatalog(AddToCart(c, p))
  {
    var r := AddToCart(c, p);
    if HasId(c, p.id) {
      AddToCartExisting(c, p);
      forall i | 0 <= i < |r| ensures ProductOf(r[i]) in Products {
        assert ProductOf(r[i]) == ProductOf(c[i]);
      }
    } else {
      forall i | 0 <= i < |r| ensures ProductOf(r[i]) in Products {
        if i < |c| { assert r[i] == c[i]; }
      }
    }
  }

  lemma FilterFromCatalog(c: Cart, keep: CartItem -> bool)
    requires FromCatalog(c)
    ensures FromCatalog(Filter(c, keep))
  {
    var f := Filter(c, keep);
    forall i | 0 <= i < |f| ensures ProductOf(f[i]) in Products {
      FilterMembers(c, keep, f[i]);
    }
  }

  /** One click keeps the cart invariant and the lines' agreement with the catalog. */
  lemma StepKeepsInvariant(c: Cart, a: Action)
    requires Valid(c) && FromCatalog(c)
    requires a.Add? ==> a.product in Products
    ensures Valid(Step(c, a)) && FromCatalog(Step(c, a))
  {
    match a
    case Add(p) =>
      AddToCartKeepsValid(c, p);
      AddToCartFromCatalog(c, p);
    case Remove(id) =>
      RemoveFromCartKeepsValid(c, id);
      FilterFromCatalog(c, NotId(id));
    case Change(id, delta) =>
      UpdateQuantityKeepsValid(c, id, delta);
      var m := AdjustAll(c, id, delta);
      assert FromCatalog(m) by {
        forall i | 0 <= i < |m| ensures ProductOf(m[i]) in Products {
          assert ProductOf(m[i]) == ProductOf(c[i]);
        }
      }
      FilterFromCatalog(m, IsPositive);
  }

  lemma {:induction false} RunKeepsInvariant(c: Cart, acts: seq<Action>)
    requires Valid(c) && FromCatalog(c) && CatalogActions(acts)
    ensures Valid(Run(c, acts)) && FromCatalog(Run(c, acts))
  {
    if acts != [] {
      var init := acts[..|acts| - 1];
      assert CatalogActions(init) by {
        forall i | 0 <= i < |init| && init[i].Add? ensures init[i].product in Products {
          assert init[i] == acts[i];
        }
      }
      RunKeepsInvariant(c, init);
      StepKeepsInvariant(Run(c, init), acts[|acts| - 1]);
    }
  }

  /**
   Whatever a user clicks, starting from the empty cart, the cart has one line
   per product, every quantity is positive, and every line is a catalog product.
   */
  lemma SessionInvariant(acts: seq<Action>)
    requires CatalogActions(acts)
    ensures Valid(Run([], acts)) && FromCatalog(Run([], acts))
  {
    RunKeepsInvariant([], acts);
  }

  /** On a cart built from the catalog, adding a catalog product raises the total by its price and the count by one. */
  lemma AddFromCatalogTotals(c: Cart, p: Product)
    requires Valid(c) && FromCatalog(c) && p in Products
    ensures CartTotal(AddToCart(c, p)) == CartTotal(c) + p.price
    ensures CartItemsCount(AddToCart(c, p)) == CartItemsCount(c) + 1
  {
    AddToCartTotal(c, p);
    forall i | 0 <= i < |c| && c[i].id == p.id ensures c[i].price == p.price {
      CatalogIdDetermines(ProductOf(c[i]), p);
    }
    if HasId(c, p.id) {
      var k :| 0 <= k < |c| && c[k].id == p.id;
      assert c[k].price == p.price;
    }
    AddToCartCount(c, p);
  }

  /** Adding the same product n >= 1 times to an empty cart gives one line with quantity n. */
  lemma {:induction false} RepeatedAdd(p: Product, acts: seq<Action>)
    requires |acts| >= 1
    requires forall i :: 0 <= i < |acts| ==> acts[i] == Add(p)
    ensures Run([], acts) == [Item(p, |acts|)]
  {
    var init := acts[..|acts| - 1];
    if init == [] {
      assert Run([], acts) == AddToCart([], p);
      assert !HasId([], p.id);
    } else {
      RepeatedAdd(p, init);
      var prev := [Item(p, |init|)];
      assert Run([], acts) == AddToCart(prev, p);
      AddToCartExistingLine(prev, p, 0);
    }
  }
}
