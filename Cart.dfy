/**
 * The shopping cart (CartManager.swift): a list of lines, one per product,
 * each with a quantity. Adding a product that is already in the cart bumps its
 * quantity; the plus and minus buttons change one line by one, and a line whose
 * quantity drops to zero is removed.
 */
module CartManagement {
  import opened Wrappers
  import opened Products

  datatype CartItem = CartItem(id: Uuid, productID: string, name: string, price: string, quantity: int)

  /** `items.firstIndex(where: { $0.id == id })`. */
  function FindItem(items: seq<CartItem>, id: Uuid): (k: Option<nat>)
    ensures k.Some? ==> k.value < |items| && items[k.value].id == id
    ensures k.Some? ==> forall j :: 0 <= j < k.value ==> items[j].id != id
    ensures k.None? <==> !InCart(items, id)
  {
    if items == [] then None
    else if items[0].id == id then Some(0)
    else match FindItem(items[1..], id)
      case Some(k) => Some(k + 1)
      case None => None
  }

  predicate InCart(items: seq<CartItem>, id: Uuid) {
    exists i :: 0 <= i < |items| && items[i].id == id
  }

  predicate UniqueIds(items: seq<CartItem>) {
    forall i, j :: 0 <= i < j < |items| ==> items[i].id != items[j].id
  }

  /** The cart invariant: one line per product, and every line holds at least one. */
  predicate ValidCart(items: seq<CartItem>) {
    && UniqueIds(items)
    && forall i :: 0 <= i < |items| ==> items[i].quantity >= 1
  }

  /** The line `addProduct` creates for a product not yet in the cart. */
  function NewLine(product: Product): (line: CartItem)
    ensures line.id == product.id && line.productID == product.productID
    ensures line.name == product.name && line.price == product.price && line.quantity == 1
  {
    CartItem(product.id, product.productID, product.name, product.price, 1)
  }

  /** The cart after `cartListPlusOperation` on the line with this id: only a
   *  quantity changes, and nothing changes when no line has the id. */
  function Incremented(items: seq<CartItem>, id: Uuid): (r: seq<CartItem>)
    ensures |r| == |items|
    ensures forall j :: 0 <= j < |items| ==> r[j] == items[j].(quantity := r[j].quantity)
    ensures !InCart(items, id) ==> r == items
  {
    match FindItem(items, id)
    case None => items
    case Some(k) => items[k := items[k].(quantity := items[k].quantity + 1)]
  }

  /** The cart after `addProduct(product)`. */
  function AddedTo(items: seq<CartItem>, product: Product): (r: seq<CartItem>)
    ensures !InCart(items, product.id) ==> r == items + [NewLine(product)]
    ensures InCart(items, product.id) ==> r == Incremented(items, product.id)
  {
    if InCart(items, product.id) then Incremented(items, product.id) else items + [NewLine(product)]
  }

  /** The cart after `cartListMinusOperation` on the line with this id. */
  function Decremented(items: seq<CartItem>, id: Uuid): (r: seq<CartItem>)
    ensures !InCart(items, id) ==> r == items
    ensures |items| - 1 <= |r| <= |items|
  {
    match FindItem(items, id)
    case None => items
    case Some(k) =>
      var q := items[k].quantity - 1;
      if q == 0 then items[..k] + items[k + 1..] else items[k := items[k].(quantity := q)]
  }

  /** In a cart with one line per product, plus raises exactly the line with
   *  that id by one and leaves every other line as it was. */
  lemma IncrementedEffect(items: seq<CartItem>, id: Uuid)
    requires UniqueIds(items)
    ensures forall j :: 0 <= j < |items| ==>
      Incremented(items, id)[j] == if items[j].id == id then items[j].(quantity := items[j].quantity + 1) else items[j]
  {
  }

  /** Adding an existing product bumps only its line; the cart keeps its length. */
  lemma AddExistingEffect(items: seq<CartItem>, product: Product, k: nat)
    requires UniqueIds(items) && k < |items| && items[k].id == product.id
    ensures |AddedTo(items, product)| == |items|
    ensures AddedTo(items, product)[k].quantity == items[k].quantity + 1
    ensures forall j :: 0 <= j < |items| && j != k ==> AddedTo(items, product)[j] == items[j]
  {
    IncrementedEffect(items, product.id);
  }

  /** In a cart with one line per product, minus lowers the line with that id by
   *  one, in place, and removes it exactly when its quantity reaches zero; every
   *  other line is untouched. */
  lemma DecrementedEffect(items: seq<CartItem>, id: Uuid, k: nat)
    requires UniqueIds(items) && k < |items| && items[k].id == id
    ensures Decremented(items, id) ==
      if items[k].quantity == 1 then items[..k] + items[k + 1..]
      else items[k := items[k].(quantity := items[k].quantity - 1)]
  {
  }

  lemma AddPreservesValid(items: seq<CartItem>, product: Product)
    requires ValidCart(items)
    ensures ValidCart(AddedTo(items, product))
  {
    if InCart(items, product.id) {
      IncrementedEffect(items, product.id);
    }
  }

  lemma IncrementPreservesValid(items: seq<CartItem>, id: Uuid)
    requires ValidCart(items)
    ensures ValidCart(Incremented(items, id))
  {
    IncrementedEffect(items, id);
  }

  lemma DecrementPreservesValid(items: seq<CartItem>, id: Uuid)
    requires ValidCart(items)
    ensures ValidCart(Decremented(items, id))
  {
    match FindItem(items, id)
    case None =>
    case Some(k) =>
      var r := Decremented(items, id);
      if items[k].quantity == 1 {
        assert forall j :: 0 <= j < |r| ==> r[j] == items[if j < k then j else j + 1];
      }
  }

  // ----- Total -----------------------------------------------------------------

  /** What one line contributes: `Double(price) ?? 0` times the quantity. */
  function LineTotal(item: CartItem): real {
    Amount(PriceValue(item.price), item.quantity)
  }

  /** `Decimal(price) * Decimal(quantity)`. */
  function Amount(price: real, quantity: int): real {
    price * quantity as real
  }

  /** One more of a line adds one price. */
  lemma AmountStep(price: real, quantity: int)
    ensures Amount(price, quantity + 1) == Amount(price, quantity) + price
  {
  }

  lemma AmountOne(price: real)
    ensures Amount(price, 1) == price
  {
  }

  /** A running sum, from the first element to the last (`reduce(0) { $0 + f($1) }`). */
  function Sum<T>(s: seq<T>, f: T -> real): real {
    if s == [] then 0.0 else Sum(s[..|s| - 1], f) + f(s[|s| - 1])
  }

  /** `totalPrice`. */
  function Total(items: seq<CartItem>): real {
    Sum(items, LineTotal)
  }

  lemma {:induction false} SumAppend<T>(a: seq<T>, b: seq<T>, f: T -> real)
    ensures Sum(a + b, f) == Sum(a, f) + Sum(b, f)
  {
    if b != [] {
      assert (a + b)[..|a + b| - 1] == a + b[..|b| - 1];
      SumAppend(a, b[..|b| - 1], f);
    } else {
      assert a + b == a;
    }
  }

  lemma SumSingle<T>(x: T, f: T -> real)
    ensures Sum([x], f) == f(x)
  {
    assert [x][..0] == [];
  }

  /** Replacing one element changes the sum by the difference of the two. */
  lemma SumReplace<T>(s: seq<T>, k: nat, x: T, f: T -> real)
    requires k < |s|
    ensures Sum(s[k := x], f) == Sum(s, f) - f(s[k]) + f(x)
  {
    var a, y, b := s[..k], s[k], s[k + 1..];
    assert s == (a + [y]) + b;
    assert s[k := x] == (a + [x]) + b;
    SumAppend(a + [y], b, f);
    SumAppend(a, [y], f);
    SumAppend(a + [x], b, f);
    SumAppend(a, [x], f);
    SumSingle(y, f);
    SumSingle(x, f);
  }

  /** Removing one element takes it off the sum. */
  lemma SumRemove<T>(s: seq<T>, k: nat, f: T -> real)
    requires k < |s|
    ensures Sum(s[..k] + s[k + 1..], f) == Sum(s, f) - f(s[k])
  {
    var a, y, b := s[..k], s[k], s[k + 1..];
    assert s == (a + [y]) + b;
    SumAppend(a + [y], b, f);
    SumAppend(a, [y], f);
    SumAppend(a, b, f);
    SumSingle(y, f);
  }

  lemma LineTotalUp(x: CartItem)
    ensures LineTotal(x.(quantity := x.quantity + 1)) == LineTotal(x) + PriceValue(x.price)
  {
    AmountStep(PriceValue(x.price), x.quantity);
  }

  lemma LineTotalDown(x: CartItem)
    ensures LineTotal(x.(quantity := x.quantity - 1)) == LineTotal(x) - PriceValue(x.price)
  {
    AmountStep(PriceValue(x.price), x.quantity - 1);
  }

  /** An empty cart totals zero. */
  lemma TotalEmpty()
    ensures Total([]) == 0.0
  {
  }

  /** Adding a product raises the total by one price: that of its line when it is
   *  already in the cart, its own otherwise. */
  lemma TotalAfterAdd(items: seq<CartItem>, product: Product)
    ensures !InCart(items, product.id) ==>
      Total(AddedTo(items, product)) == Total(items) + PriceValue(product.price)
    ensures forall k :: 0 <= k < |items| && items[k].id == product.id && (forall j :: 0 <= j < k ==> items[j].id != product.id) ==>
      Total(AddedTo(items, product)) == Total(items) + PriceValue(items[k].price)
  {
    if InCart(items, product.id) {
      var k := FindItem(items, product.id).value;
      TotalAfterIncrement(items, k);
    } else {
      SumAppend(items, [NewLine(product)], LineTotal);
      SumSingle(NewLine(product), LineTotal);
    }
  }

  /** Plus on a line in the cart raises the total by that line's price. */
  lemma TotalAfterIncrement(items: seq<CartItem>, k: nat)
    requires k < |items|
    requires forall j :: 0 <= j < k ==> items[j].id != items[k].id
    ensures Total(Incremented(items, items[k].id)) == Total(items) + PriceValue(items[k].price)
  {
    var x := items[k];
    var y := x.(quantity := x.quantity + 1);
    assert FindItem(items, x.id) == Some(k);
    assert Incremented(items, x.id) == items[k := y];
    assert Total(items[k := y]) == Total(items) - LineTotal(x) + LineTotal(y) by {
      SumReplace(items, k, y, LineTotal);
    }
    LineTotalUp(x);
  }

  /** Minus on a line in the cart lowers the total by that line's price, whether
   *  the line stays or goes. */
  lemma TotalAfterDecrement(items: seq<CartItem>, k: nat)
    requires k < |items|
    requires forall j :: 0 <= j < k ==> items[j].id != items[k].id
    ensures Total(Decremented(items, items[k].id)) == Total(items) - PriceValue(items[k].price)
  {
    var x := items[k];
    assert FindItem(items, x.id) == Some(k);
    if x.quantity == 1 {
      assert Decremented(items, x.id) == items[..k] + items[k + 1..];
      assert Total(items[..k] + items[k + 1..]) == Total(items) - LineTotal(x) by {
        SumRemove(items, k, LineTotal);
      }
      var price := PriceValue(x.price);
      assert LineTotal(x) == Amount(price, 1);
      AmountOne(price);
    } else {
      var y := x.(quantity := x.quantity - 1);
      assert Decremented(items, x.id) == items[k := y];
      assert Total(items[k := y]) == Total(items) - LineTotal(x) + LineTotal(y) by {
        SumReplace(items, k, y, LineTotal);
      }
      LineTotalDown(x);
    }
  }

  /** `CartManager`: the cart shared by the ordering screens. */
  class CartManager {
    var items: seq<CartItem>

    constructor ()
      ensures items == [] && ValidCart(items)
    {
      items := [];
    }

    /** `addProduct`: bump the product's line, or append a new line of one. */
    method AddProduct(product: Product)
      modifies this
      ensures items == AddedTo(old(items), product)
      ensures ValidCart(old(items)) ==> ValidCart(items)
    {
      var index := FindItem(items, product.id);
      if index.Some? {
        var k := index.value;
        items := items[k := items[k].(quantity := items[k].quantity + 1)];
      } else {
        items := items + [CartItem(product.id, product.productID, product.name, product.price, 1)];
      }
      if ValidCart(old(items)) {
        AddPreservesValid(old(items), product);
      }
    }

    /** `cartListPlusOperation`: the line with this item's id gains one. */
    method CartListPlusOperation(cartItem: CartItem)
      modifies this
      ensures items == Incremented(old(items), cartItem.id)
      ensures ValidCart(old(items)) ==> ValidCart(items)
    {
      var index := FindItem(items, cartItem.id);
      if index.None? {
        return;
      }
      var k := index.value;
      items := items[k := items[k].(quantity := items[k].quantity + 1)];
      if ValidCart(old(items)) {
        IncrementPreservesValid(old(items), cartItem.id);
      }
    }

    /** `cartListMinusOperation`: the line with this item's id loses one and is
     *  removed when it reaches zero. */
    method CartListMinusOperation(cartItem: CartItem)
      modifies this
      ensures items == Decremented(old(items), cartItem.id)
      ensures ValidCart(old(items)) ==> ValidCart(items)
    {
      var index := FindItem(items, cartItem.id);
      if index.None? {
        return;
      }
      var k := index.value;
      items := items[k := items[k].(quantity := items[k].quantity - 1)];
      if items[k].quantity == 0 {
        items := items[..k] + items[k + 1..];
      }
      if ValidCart(old(items)) {
        DecrementPreservesValid(old(items), cartItem.id);
      }
    }

    /** `totalPrice`. */
    function TotalPrice(): real
      reads this
    {
      Total(items)
    }
  }
}
