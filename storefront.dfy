/** The demo shop's cart (neonmart/app/page.tsx and neonmart/app/lib/data.ts): adding a
    product either bumps the quantity of the cart line with the same product id or
    appends a new line; the subtotal and the item count are folds over the lines; the
    checkout link carries the subtotal and is disabled for an empty cart. */
module Storefront {
  import Text

  datatype Product = Product(id: string, name: string, price: nat, desc: string, image: string)

  datatype CartItem = CartItem(p: Product, qty: nat)

  /** The three products on sale. */
  const Catalogue: seq<Product> := [
    Product("hoodie", "Neon Hoodie", 89, "Heavyweight, reflective piping.", "/p1.png"),
    Product("sneakers", "Flux Sneakers", 129, "Glow sole, street-ready.", "/p2.png"),
    Product("backpack", "Arc Backpack", 74, "Waterproof + laptop sleeve.", "/p3.png")
  ]

  /** `items.reduce((sum, it) => sum + f(it), 0)`. */
  function Sum(items: seq<CartItem>, f: CartItem -> nat): nat {
    if |items| == 0 then 0 else Sum(items[..|items| - 1], f) + f(items[|items| - 1])
  }

  /** A fold of natural numbers is 0 exactly when every term is. */
  lemma {:induction false} SumZero(items: seq<CartItem>, f: CartItem -> nat)
    ensures Sum(items, f) == 0 <==> forall i :: 0 <= i < |items| ==> f(items[i]) == 0
  {
    if |items| > 0 {
      var init := items[..|items| - 1];
      SumZero(init, f);
      assert forall i :: 0 <= i < |init| ==> init[i] == items[i];
    }
  }

  function LineTotal(it: CartItem): nat { it.p.price * it.qty }
  function LineQty(it: CartItem): nat { it.qty }

  /** `subtotal`: the sum of price times quantity. It is 0 exactly when every line
      costs nothing. */
  function Subtotal(items: seq<CartItem>): (r: nat)
    ensures r == 0 <==> forall i :: 0 <= i < |items| ==> LineTotal(items[i]) == 0
  {
    SumZero(items, LineTotal);
    Sum(items, LineTotal)
  }

  /** The count on the cart button: the sum of the quantities. With at least one unit
      per line it is 0 exactly for the empty cart. */
  function Count(items: seq<CartItem>): (r: nat)
    ensures PositiveQuantities(items) ==> (r == 0 <==> |items| == 0)
  {
    SumZero(items, LineQty);
    Sum(items, LineQty)
  }

  /** `prev.findIndex(x => x.p.id === id)`: the first line with that id, or -1. */
  function FindIndex(items: seq<CartItem>, id: string): (r: int)
    ensures -1 <= r < |items|
    ensures r == -1 <==> forall i :: 0 <= i < |items| ==> items[i].p.id != id
    ensures r >= 0 ==> items[r].p.id == id && forall i :: 0 <= i < r ==> items[i].p.id != id
  {
    if |items| == 0 then -1
    else if items[0].p.id == id then 0
    else
      var k := FindIndex(items[1..], id);
      assert forall i :: 1 <= i < |items| ==> items[i] == items[1..][i - 1];
      if k == -1 then -1 else k + 1
  }

  /** The cart after `addToCart(p)`: one line longer exactly when no line had the
      product, and the product is in the cart afterwards. */
  function AddedTo(items: seq<CartItem>, p: Product): (r: seq<CartItem>)
    ensures |r| == |items| + (if FindIndex(items, p.id) >= 0 then 0 else 1)
    ensures exists i :: 0 <= i < |r| && r[i].p.id == p.id && r[i].qty >= 1
  {
    var idx := FindIndex(items, p.id);
    if idx >= 0 then
      var r := items[idx := items[idx].(qty := items[idx].qty + 1)];
      assert r[idx].p.id == p.id;
      r
    else
      var r := items + [CartItem(p, 1)];
      assert r[|items|].p.id == p.id;
      r
  }

  /** No two lines share a product id. */
  predicate UniqueIds(items: seq<CartItem>) {
    forall i, j :: 0 <= i < j < |items| ==> items[i].p.id != items[j].p.id
  }

  /** Every line holds at least one unit. */
  predicate PositiveQuantities(items: seq<CartItem>) {
    forall i :: 0 <= i < |items| ==> items[i].qty >= 1
  }

  lemma {:induction false} SumAppend(items: seq<CartItem>, it: CartItem, f: CartItem -> nat)
    ensures Sum(items + [it], f) == Sum(items, f) + f(it)
  {
    assert (items + [it])[..|items|] == items;
  }

  /** Replacing one line changes a fold by the difference of that line's terms. */
  lemma {:induction false} SumUpdate(items: seq<CartItem>, k: nat, it: CartItem, f: CartItem -> nat)
    requires k < |items|
    ensures Sum(items[k := it], f) + f(items[k]) == Sum(items, f) + f(it)
  {
    var n := |items|;
    var u := items[k := it];
    if k == n - 1 {
      assert u[..n - 1] == items[..n - 1];
    } else {
      SumUpdate(items[..n - 1], k, it, f);
      assert u[..n - 1] == items[..n - 1][k := it];
    }
  }

  /** Adding a product already in the cart bumps only that line's quantity, in place;
      adding a new one appends a single unit and keeps the other lines. */
  lemma AddKeepsOtherLines(items: seq<CartItem>, p: Product)
    ensures var idx := FindIndex(items, p.id); var r := AddedTo(items, p);
      && (idx >= 0 ==> |r| == |items| && r[idx] == CartItem(items[idx].p, items[idx].qty + 1)
                       && forall i :: 0 <= i < |items| && i != idx ==> r[i] == items[i])
      && (idx < 0 ==> r == items + [CartItem(p, 1)])
  {
  }

  /** Product ids stay unique, and quantities positive, across any add. */
  lemma AddKeepsIdsUnique(items: seq<CartItem>, p: Product)
    requires UniqueIds(items) && PositiveQuantities(items)
    ensures UniqueIds(AddedTo(items, p)) && PositiveQuantities(AddedTo(items, p))
  {
    var idx := FindIndex(items, p.id);
    var r := AddedTo(items, p);
    if idx >= 0 {
      assert forall i :: 0 <= i < |r| ==> r[i].p == items[i].p;
    } else {
      assert forall i :: 0 <= i < |items| ==> r[i] == items[i];
    }
  }

  /** Each add raises the count by exactly one. */
  lemma AddRaisesCount(items: seq<CartItem>, p: Product)
    ensures Count(AddedTo(items, p)) == Count(items) + 1
  {
    var idx := FindIndex(items, p.id);
    if idx >= 0 {
      var it := items[idx].(qty := items[idx].qty + 1);
      assert AddedTo(items, p) == items[idx := it];
      SumUpdate(items, idx, it, LineQty);
    } else {
      assert AddedTo(items, p) == items + [CartItem(p, 1)];
      SumAppend(items, CartItem(p, 1), LineQty);
    }
  }

  lemma MulSucc(a: nat, b: nat)
    ensures a * (b + 1) == a * b + a
  {
  }

  /** Each add raises the subtotal by the price of the product on the affected line:
      the one already in the cart, or the new one. */
  lemma AddRaisesSubtotal(items: seq<CartItem>, p: Product)
    ensures var idx := FindIndex(items, p.id);
      Subtotal(AddedTo(items, p)) == Subtotal(items) + (if idx >= 0 then items[idx].p.price else p.price)
  {
    AddRaisesLineTotals(items, p);
  }

  lemma AddRaisesLineTotals(items: seq<CartItem>, p: Product)
    ensures var idx := FindIndex(items, p.id);
      Sum(AddedTo(items, p), LineTotal) == Sum(items, LineTotal) + (if idx >= 0 then items[idx].p.price else p.price)
  {
    var idx := FindIndex(items, p.id);
    if idx >= 0 {
      var line := items[idx];
      var it := line.(qty := line.qty + 1);
      assert AddedTo(items, p) == items[idx := it];
      SumUpdate(items, idx, it, LineTotal);
      MulSucc(line.p.price, line.qty);
    } else {
      assert AddedTo(items, p) == items + [CartItem(p, 1)];
      SumAppend(items, CartItem(p, 1), LineTotal);
    }
  }

  /** With at least one unit per line the count is at least the number of lines, so a
      cart with lines never shows a count of 0. */
  lemma {:induction false} CountCoversLines(items: seq<CartItem>)
    requires PositiveQuantities(items)
    ensures Count(items) >= |items|
  {
    if |items| > 0 {
      CountCoversLines(items[..|items| - 1]);
    }
  }

  /** The "Go to checkout" link: its target and whether it can be followed. */
  datatype Link = Link(href: string, enabled: bool)

  const CheckoutPath: string := "/checkout?subtotal="

  /** `/checkout?subtotal=${subtotal}`, disabled (`pointer-events-none`) when the cart is empty. */
  function CheckoutLink(items: seq<CartItem>): (l: Link)
    ensures l.enabled <==> |items| > 0
    ensures Text.StartsWith(l.href, CheckoutPath)
    ensures Text.AllDigits(l.href[|CheckoutPath|..]) && Text.DigitsValue(l.href[|CheckoutPath|..]) == Subtotal(items)
  {
    var digits := Text.NatToString(Subtotal(items));
    Text.DigitsValueOfNatToString(Subtotal(items));
    assert (CheckoutPath + digits)[|CheckoutPath|..] == digits;
    Link(CheckoutPath + digits, |items| > 0)
  }

  class Shop {
    var items: seq<CartItem>
    var cartOpen: bool

    predicate Valid()
      reads this
    {
      UniqueIds(items) && PositiveQuantities(items)
    }

    constructor ()
      ensures Valid() && items == [] && !cartOpen
    {
      items := [];
      cartOpen := false;
    }

    /** `addToCart(p)`: copy the lines, bump the matching one or append, open the cart. */
    method AddToCart(p: Product)
      requires Valid()
      modifies this
      ensures Valid()
      ensures items == AddedTo(old(items), p) && cartOpen
      ensures Count(items) == Count(old(items)) + 1
    {
      AddKeepsIdsUnique(items, p);
      AddRaisesCount(items, p);
      var idx := FindIndex(items, p.id);
      if idx >= 0 {
        var copy := items;
        copy := copy[idx := copy[idx].(qty := copy[idx].qty + 1)];
        items := copy;
      } else {
        items := items + [CartItem(p, 1)];
      }
      cartOpen := true;
    }
  }

  /** Two hoodies and a pair of sneakers: count 3, subtotal 2 * 89 + 129 = 307. */
  method ExampleBasket() returns (s: Shop)
    ensures |s.items| == 2 && Count(s.items) == 3 && Subtotal(s.items) == 307
  {
    s := new Shop();
    s.AddToCart(Catalogue[0]);
    s.AddToCart(Catalogue[1]);
    s.AddToCart(Catalogue[0]);
    BasketItems();
    BasketSubtotal();
  }

  /** Adding the hoodie, the sneakers and the hoodie again to an empty cart. */
  lemma BasketItems()
    ensures AddedTo(AddedTo(AddedTo([], Catalogue[0]), Catalogue[1]), Catalogue[0])
      == [CartItem(Catalogue[0], 2), CartItem(Catalogue[1], 1)]
  {
    var hoodie, sneakers := Catalogue[0], Catalogue[1];
    assert hoodie.id == "hoodie" && sneakers.id == "sneakers";
    var one := AddedTo([], hoodie);
    assert one == [CartItem(hoodie, 1)];
    assert FindIndex(one, sneakers.id) == -1 by {
      assert one[0].p.id != sneakers.id;
    }
    var two := AddedTo(one, sneakers);
    assert two == [CartItem(hoodie, 1), CartItem(sneakers, 1)];
    assert FindIndex(two, hoodie.id) == 0;
  }

  /** Two hoodies and one pair of sneakers cost 2 * 89 + 129. */
  lemma BasketSubtotal()
    ensures Subtotal([CartItem(Catalogue[0], 2), CartItem(Catalogue[1], 1)]) == 307
  {
    var a, b := CartItem(Catalogue[0], 2), CartItem(Catalogue[1], 1);
    assert [a, b][..1] == [a] && [a][..0] == [];
    assert LineTotal(a) == 178 && LineTotal(b) == 129;
    assert Sum([a], LineTotal) == Sum([], LineTotal) + LineTotal(a);
    assert Sum([a, b], LineTotal) == Sum([a], LineTotal) + LineTotal(b);
  }
}
