/**
 Concrete click sequences on the catalog's first two bouquets
 ("Нежные розы" at 2500 and "Лавандовые тюльпаны" at 1800).
 */
module Scenarios {
  import opened Shop
  import opened CartLaws
  import opened Session

  lemma OneLineTotals(x: CartItem)
    ensures CartTotal([x]) == x.price * x.quantity && CartItemsCount([x]) == x.quantity
  {
    CartTotalIsSum([x]);
    CartItemsCountIsSum([x]);
    assert [x][1..] == [];
  }

  /** One click on "add to cart" for the roses: one line, total 2500, badge 1. */
  lemma AddRosesOnce()
    ensures var c := AddToCart([], Products[0]);
      && c == [Item(Products[0], 1)]
      && CartTotal(c) == 2500 && CartItemsCount(c) == 1
  {
    assert !HasId([], Products[0].id);
    OneLineTotals(Item(Products[0], 1));
  }

  /** A second click on the roses merges into the same line: quantity 2, total 5000. */
  lemma AddRosesTwice()
    ensures var c := AddToCart(AddToCart([], Products[0]), Products[0]);
      && c == [Item(Products[0], 2)]
      && CartTotal(c) == 5000 && CartItemsCount(c) == 2
  {
    AddRosesOnce();
    AddToCartExistingLine([Item(Products[0], 1)], Products[0], 0);
    assert [Item(Products[0], 1)][0 := Item(Products[0], 2)] == [Item(Products[0], 2)];
    OneLineTotals(Item(Products[0], 2));
  }

  /** "-" on the last rose leaves the line at quantity 1; only the bin removes it. */
  lemma MinusOnLastRoseKeepsLine()
    ensures var c := UpdateQuantity([Item(Products[0], 1)], 1, -1);
      && c == [Item(Products[0], 1)]
      && CartTotal(c) == 2500 && CartItemsCount(c) == 1
    ensures RemoveFromCart([Item(Products[0], 1)], 1) == []
  {
    UpdateQuantityClamp([Item(Products[0], 1)], 1, -1, 0);
    RemoveFromCartLine([Item(Products[0], 1)], 1, 0);
    OneLineTotals(Item(Products[0], 1));
  }

  /** Binning the tulips from [roses x2, tulips x1] leaves only the roses line. */
  lemma BinTulips()
    ensures var c := RemoveFromCart([Item(Products[0], 2), Item(Products[1], 1)], 2);
      && c == [Item(Products[0], 2)]
      && CartTotal(c) == 5000 && CartItemsCount(c) == 2
  {
    var c := [Item(Products[0], 2), Item(Products[1], 1)];
    RemoveFromCartLine(c, 2, 1);
    assert c[..1] + c[2..] == [Item(Products[0], 2)];
    OneLineTotals(Item(Products[0], 2));
  }

  /** "+" then "-" on the tulips returns to the starting cart. */
  lemma PlusThenMinus()
    ensures var c := [Item(Products[0], 2), Item(Products[1], 1)];
      && UpdateQuantity(c, 2, 1) == [Item(Products[0], 2), Item(Products[1], 2)]
      && UpdateQuantity(UpdateQuantity(c, 2, 1), 2, -1) == c
  {
    var c := [Item(Products[0], 2), Item(Products[1], 1)];
    UpdateQuantitySet(c, 2, 1, 1);
    var d := [Item(Products[0], 2), Item(Products[1], 2)];
    assert c[1 := c[1].(quantity := 2)] == d;
    UpdateQuantitySet(d, 2, -1, 1);
    assert d[1 := d[1].(quantity := 1)] == c;
  }
}
