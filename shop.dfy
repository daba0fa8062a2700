/**
 The shopping cart of the flower-shop storefront page: the product and cart
 line records, the hard-coded catalog, the three cart updaters (add, remove,
 change quantity) and the two totals shown in the cart sheet.

 Every updater is a pure function from the previous cart to the next one, as
 the page hands each of them to the state setter.
 */
module Shop {

  datatype Option<T> = None | Some(value: T)

  /** A catalog entry. Prices are whole roubles. */
  datatype Product = Product(id: int, name: string, price: int, image: string, description: string)

  /** A cart line: a copy of a product's fields plus how many of it are ordered. */
  datatype CartItem = CartItem(id: int, name: string, price: int, image: string, description: string, quantity: int)

  type Cart = seq<CartItem>

  /** The line `{ ...product, quantity }`. */
  function Item(p: Product, quantity: int): (r: CartItem)
    ensures ProductOf(r) == p && r.quantity == quantity
  {
    CartItem(p.id, p.name, p.price, p.image, p.description, quantity)
  }

  /** The product fields a cart line carries. */
  function ProductOf(item: CartItem): Product
  {
    Product(item.id, item.name, item.price, item.image, item.description)
  }

  const Products: seq<Product> := [
    Product(1, "Нежные розы", 2500,
      "https://cdn.poehali.dev/projects/8e84d444-d6e4-408e-903d-49e080c2da7b/files/4ec02fd5-4444-43d9-9af1-5bf18d59d972.jpg",
      "Элегантный букет из розовых и белых роз"),
    Product(2, "Лавандовые тюльпаны", 1800,
      "https://cdn.poehali.dev/projects/8e84d444-d6e4-408e-903d-49e080c2da7b/files/204b8870-683e-459c-a9ac-6f61ba6865f6.jpg",
      "Весенние тюльпаны в пастельных тонах"),
    Product(3, "Персиковые пионы", 3200,
      "https://cdn.poehali.dev/projects/8e84d444-d6e4-408e-903d-49e080c2da7b/files/a2cad9b0-6134-4c0b-b2d8-67d6703ee50c.jpg",
      "Роскошные пионы нежных оттенков"),
    Product(4, "Микс \"Воздушный\"", 2200,
      "https://cdn.poehali.dev/projects/8e84d444-d6e4-408e-903d-49e080c2da7b/files/4ec02fd5-4444-43d9-9af1-5bf18d59d972.jpg",
      "Изысканная композиция из разных цветов"),
    Product(5, "Романтика", 2800,
      "https://cdn.poehali.dev/projects/8e84d444-d6e4-408e-903d-49e080c2da7b/files/204b8870-683e-459c-a9ac-6f61ba6865f6.jpg",
      "Букет для особенных моментов"),
    Product(6, "Весеннее настроение", 1900,
      "https://cdn.poehali.dev/projects/8e84d444-d6e4-408e-903d-49e080c2da7b/files/a2cad9b0-6134-4c0b-b2d8-67d6703ee50c.jpg",
      "Нежный букет для поднятия настроения")
  ]

  // ---------------------------------------------------------------------------
  // Cart invariants and queries

  predicate HasId(c: Cart, id: int)
  {
    exists i :: 0 <= i < |c| && c[i].id == id
  }

  /** The product ids of the lines, in cart order. */
  function Ids(c: Cart): seq<int>
  {
    seq(|c|, i requires 0 <= i < |c| => c[i].id)
  }

  predicate UniqueIds(c: Cart)
  {
    forall i, j :: 0 <= i < j < |c| ==> c[i].id != c[j].id
  }

  predicate AllPositive(c: Cart)
  {
    forall i :: 0 <= i < |c| ==> c[i].quantity > 0
  }

  /** The invariant the cart is meant to keep: one line per product, each with a positive quantity. */
  predicate Valid(c: Cart)
  {
    UniqueIds(c) && AllPositive(c)
  }

  /** `Array.prototype.find`: the first line with the given id, if any. */
  function Find(c: Cart, id: int): (r: Option<CartItem>)
    ensures r.Some? <==> HasId(c, id)
    ensures r.Some? ==> r.value in c && r.value.id == id
  {
    if c == [] then None
    else if c[0].id == id then Some(c[0])
    else
      assert HasId(c, id) ==> HasId(c[1..], id) by {
        if HasId(c, id) {
          var i :| 0 <= i < |c| && c[i].id == id;
          assert c[1..][i - 1] == c[i];
        }
      }
      Find(c[1..], id)
  }

  /** `Array.prototype.filter`: the elements that satisfy `keep`, in their order. */
  function Filter(c: Cart, keep: CartItem -> bool): Cart
  {
    if c == [] then []
    else (if keep(c[0]) then [c[0]] else []) + Filter(c[1..], keep)
  }

  // ---------------------------------------------------------------------------
  // addToCart

  /** The mapping step of addToCart: one more of every line with id `id`. */
  function Bump(item: CartItem, id: int): CartItem
  {
    if item.id == id then item.(quantity := item.quantity + 1) else item
  }

  function AddToCart(c: Cart, p: Product): Cart
  {
    if Find(c, p.id).Some? then seq(|c|, i requires 0 <= i < |c| => Bump(c[i], p.id))
    else c + [Item(p, 1)]
  }

  // ---------------------------------------------------------------------------
  // removeFromCart

  function NotId(id: int): CartItem -> bool
  {
    (item: CartItem) => item.id != id
  }

  function RemoveFromCart(c: Cart, id: int): Cart
  {
    Filter(c, NotId(id))
  }

  // ---------------------------------------------------------------------------
  // updateQuantity

  /**
   The mapping step of updateQuantity. A line whose new quantity would not be
   positive is returned as it was, with its old quantity.
   */
  function Adjust(item: CartItem, id: int, delta: int): CartItem
  {
    if item.id == id then
      var newQuantity := item.quantity + delta;
      if newQuantity > 0 then item.(quantity := newQuantity) else item
    else item
  }

  function AdjustAll(c: Cart, id: int, delta: int): Cart
  {
    seq(|c|, i requires 0 <= i < |c| => Adjust(c[i], id, delta))
  }

  predicate IsPositive(item: CartItem)
  {
    item.quantity > 0
  }

  function UpdateQuantity(c: Cart, id: int, delta: int): Cart
  {
    Filter(AdjustAll(c, id, delta), IsPositive)
  }

  // ---------------------------------------------------------------------------
  // Totals

  function Subtotal(item: CartItem): int
  {
    item.price * item.quantity
  }

  function Quantity(item: CartItem): int
  {
    item.quantity
  }

  /** `c.reduce((sum, item) => sum + f(item), sum)`: a left fold. */
  function Reduce(sum: int, c: Cart, f: CartItem -> int): int
    decreases |c|
  {
    if c == [] then sum else Reduce(sum + f(c[0]), c[1..], f)
  }

  function CartTotal(c: Cart): int
  {
    Reduce(0, c, Subtotal)
  }

  function CartItemsCount(c: Cart): int
  {
    Reduce(0, c, Quantity)
  }

  /** The mathematical sum of `f` over the lines, the reference for both totals. */
  function SumOf(c: Cart, f: CartItem -> int): int
  {
    if c == [] then 0 else f(c[0]) + SumOf(c[1..], f)
  }
}
