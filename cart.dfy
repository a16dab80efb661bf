/**
 * The shopper's cart (src/context/CartContext.tsx): an ordered list of lines
 * keyed by (product id, selected size, selected color), an open/closed flag,
 * and the quantity total; plus the subtotal the cart drawer shows
 * (src/components/cart/CartDrawer.tsx).
 */
module Cart {
  import opened Types

  /** A line's key is the given (id, size, color). */
  predicate Matches(item: CartItem, id: string, size: Option<string>, color: Option<string>)
  {
    item.Key() == (id, size, color)
  }

  /** Some line carries the key (id, size, color). */
  predicate HasLine(items: seq<CartItem>, id: string, size: Option<string>, color: Option<string>)
  {
    exists i :: 0 <= i < |items| && Matches(items[i], id, size, color)
  }

  /** At most one line per key: the cart's identity invariant. */
  predicate UniqueKeys(items: seq<CartItem>)
  {
    forall i, j :: 0 <= i < j < |items| ==> items[i].Key() != items[j].Key()
  }

  /** The number of lines carrying the key. */
  function CountMatching(items: seq<CartItem>, id: string, size: Option<string>, color: Option<string>): nat
  {
    if items == [] then 0
    else (if Matches(items[0], id, size, color) then 1 else 0) + CountMatching(items[1..], id, size, color)
  }

  /** `prev.find(...)`: the first line carrying the key, if any. */
  function FindLine(items: seq<CartItem>, id: string, size: Option<string>, color: Option<string>): (r: Option<CartItem>)
    ensures r.None? <==> !HasLine(items, id, size, color)
    ensures r.Some? ==> exists i :: 0 <= i < |items| && items[i] == r.value && Matches(items[i], id, size, color)
                          && forall j :: 0 <= j < i ==> !Matches(items[j], id, size, color)
  {
    if items == [] then None
    else if Matches(items[0], id, size, color) then Some(items[0])
    else
      var r := FindLine(items[1..], id, size, color);
      assert forall j :: 1 <= j < |items| ==> items[j] == items[1..][j - 1];
      if r.Some? then
        var i :| 0 <= i < |items[1..]| && items[1..][i] == r.value && Matches(items[1..][i], id, size, color)
                  && forall j :: 0 <= j < i ==> !Matches(items[1..][j], id, size, color);
        assert items[i + 1] == r.value;
        r
      else r
  }

  /** `prev.map(...)`: every line carrying the key gets `q` more; the rest stay as they are. */
  function IncrementMatching(items: seq<CartItem>, id: string, size: Option<string>, color: Option<string>, q: int): (r: seq<CartItem>)
    ensures |r| == |items|
    ensures forall i :: 0 <= i < |items| ==>
              r[i] == if Matches(items[i], id, size, color) then items[i].(quantity := items[i].quantity + q) else items[i]
  {
    if items == [] then []
    else
      var head := if Matches(items[0], id, size, color) then items[0].(quantity := items[0].quantity + q) else items[0];
      [head] + IncrementMatching(items[1..], id, size, color, q)
  }

  /** The new value of `items` after `addToCart(product, quantity, size, color)`. */
  function AddLine(items: seq<CartItem>, product: Product, quantity: int, size: Option<string>, color: Option<string>): (r: seq<CartItem>)
    ensures HasLine(r, product.id, size, color)
    ensures |r| == if HasLine(items, product.id, size, color) then |items| else |items| + 1
  {
    if FindLine(items, product.id, size, color).Some? then
      var r := IncrementMatching(items, product.id, size, color, quantity);
      var i :| 0 <= i < |items| && Matches(items[i], product.id, size, color);
      assert Matches(r[i], product.id, size, color);
      r
    else
      var r := items + [CartItem(product, size, color, quantity)];
      assert Matches(r[|items|], product.id, size, color);
      r
  }

  /** The new value of `items` after `removeFromCart(id)`: `prev.filter(item => item.id !== id)`. */
  function RemoveLines(items: seq<CartItem>, id: string): (r: seq<CartItem>)
    ensures |r| <= |items|
    ensures forall l :: l in r ==> l in items && l.product.id != id
    ensures forall l :: l in items && l.product.id != id ==> l in r
  {
    if items == [] then []
    else (if items[0].product.id == id then [] else [items[0]]) + RemoveLines(items[1..], id)
  }

  /** `cartCount`: `items.reduce((sum, item) => sum + item.quantity, 0)`. */
  function TotalQuantity(items: seq<CartItem>): (r: int)
    ensures EveryLinePositive(items) ==> r >= |items|
  {
    if items == [] then 0 else TotalQuantity(items[..|items| - 1]) + items[|items| - 1].quantity
  }

  /** Every line holds at least one unit. */
  predicate EveryLinePositive(items: seq<CartItem>)
  {
    forall i :: 0 <= i < |items| ==> items[i].quantity >= 1
  }

  /** The drawer's subtotal: `items.reduce((sum, item) => sum + item.price * item.quantity, 0)`. */
  function Subtotal(items: seq<CartItem>): (r: Price)
    ensures r.Cents? ==> !AnyPriceNaN(items)
  {
    if items == [] then Cents(0)
    else Plus(Subtotal(items[..|items| - 1]), Times(items[|items| - 1].product.price, items[|items| - 1].quantity))
  }

  /** The initial `items`: the saved cart when there is one and it decodes, the empty cart otherwise. */
  function InitialItems(saved: Option<string>, decode: string -> Option<seq<CartItem>>): (r: seq<CartItem>)
    ensures saved.None? || saved.value == "" ==> r == []
    ensures saved.Some? && decode(saved.value).None? ==> r == []
    ensures saved.Some? && saved.value != "" && decode(saved.value).Some? ==> r == decode(saved.value).value
  {
    if saved.Some? && saved.value != "" then decode(saved.value).GetOr([]) else []
  }

  // ----- Lemmas: merge and append -----

  /** Adding a key the cart already holds keeps the length, bumps the matching lines by `quantity`
      and leaves every other field, and every other line, as it was. */
  lemma AddMerges(items: seq<CartItem>, product: Product, quantity: int, size: Option<string>, color: Option<string>)
    requires HasLine(items, product.id, size, color)
    ensures var r := AddLine(items, product, quantity, size, color);
      |r| == |items| &&
      forall i :: 0 <= i < |items| ==>
        r[i].product == items[i].product && r[i].Key() == items[i].Key() &&
        r[i].quantity == items[i].quantity + (if Matches(items[i], product.id, size, color) then quantity else 0)
  {
  }

  /** Adding a key the cart does not hold appends exactly one line at the end. */
  lemma AddAppends(items: seq<CartItem>, product: Product, quantity: int, size: Option<string>, color: Option<string>)
    requires !HasLine(items, product.id, size, color)
    ensures var r := AddLine(items, product, quantity, size, color);
      |r| == |items| + 1 && r[..|items|] == items &&
      r[|items|] == CartItem(product, size, color, quantity)
  {
    var r := AddLine(items, product, quantity, size, color);
    assert r == items + [CartItem(product, size, color, quantity)];
  }

  /** `addToCart` keeps at most one line per key. */
  lemma AddKeepsKeysUnique(items: seq<CartItem>, product: Product, quantity: int, size: Option<string>, color: Option<string>)
    requires UniqueKeys(items)
    ensures UniqueKeys(AddLine(items, product, quantity, size, color))
  {
    var r := AddLine(items, product, quantity, size, color);
    if !HasLine(items, product.id, size, color) {
      forall i, j | 0 <= i < j < |r| ensures r[i].Key() != r[j].Key() {
        if j == |items| {
          assert !Matches(items[i], product.id, size, color);
        }
      }
    }
  }

  /** Adding the same key twice to a cart without it leaves one line holding the summed quantity,
      with the first product snapshot's fields. */
  lemma AddTwice(items: seq<CartItem>, p1: Product, p2: Product, q1: int, q2: int, size: Option<string>, color: Option<string>)
    requires p1.id == p2.id
    requires !HasLine(items, p1.id, size, color)
    ensures AddLine(AddLine(items, p1, q1, size, color), p2, q2, size, color) == items + [CartItem(p1, size, color, q1 + q2)]
  {
    var once := items + [CartItem(p1, size, color, q1)];
    assert FindLine(items, p1.id, size, color).None?;
    assert AddLine(items, p1, q1, size, color) == once;
    assert Matches(once[|items|], p2.id, size, color);
    assert FindLine(once, p2.id, size, color).Some?;
    var twice := IncrementMatching(once, p2.id, size, color, q2);
    assert AddLine(once, p2, q2, size, color) == twice;
    var want := items + [CartItem(p1, size, color, q1 + q2)];
    forall i | 0 <= i < |want| ensures twice[i] == want[i] {
      if i < |items| {
        assert once[i] == items[i];
        assert !Matches(items[i], p2.id, size, color);
      }
    }
    assert |twice| == |want|;
  }

  // ----- Lemmas: removal -----

  /** Removal distributes over concatenation: it is a filter that keeps the order of the survivors. */
  lemma {:induction false} RemoveConcat(a: seq<CartItem>, b: seq<CartItem>, id: string)
    ensures RemoveLines(a + b, id) == RemoveLines(a, id) + RemoveLines(b, id)
    decreases |a|
  {
    if a == [] {
      assert a + b == b;
    } else {
      assert (a + b)[0] == a[0];
      assert (a + b)[1..] == a[1..] + b;
      RemoveConcat(a[1..], b, id);
      var kept := if a[0].product.id == id then [] else [a[0]];
      calc {
        RemoveLines(a + b, id);
        kept + RemoveLines(a[1..] + b, id);
        kept + (RemoveLines(a[1..], id) + RemoveLines(b, id));
        (kept + RemoveLines(a[1..], id)) + RemoveLines(b, id);
      }
    }
  }

  /** Removing an id removes every line with that id, whatever its size or color. */
  lemma RemoveAllVariants(items: seq<CartItem>, id: string, size: Option<string>, color: Option<string>)
    ensures !HasLine(RemoveLines(items, id), id, size, color)
  {
    var r := RemoveLines(items, id);
    forall i | 0 <= i < |r| ensures !Matches(r[i], id, size, color) {
      assert r[i] in r;
    }
  }

  /** Removing lines keeps at most one line per key. */
  lemma {:induction false} RemoveKeepsKeysUnique(items: seq<CartItem>, id: string)
    requires UniqueKeys(items)
    ensures UniqueKeys(RemoveLines(items, id))
    decreases |items|
  {
    if items != [] {
      var tail := items[1..];
      assert UniqueKeys(tail) by {
        forall i, j | 0 <= i < j < |tail| ensures tail[i].Key() != tail[j].Key() {
          assert tail[i] == items[i + 1] && tail[j] == items[j + 1];
        }
      }
      RemoveKeepsKeysUnique(tail, id);
      var rest := RemoveLines(tail, id);
      if items[0].product.id != id {
        var r := [items[0]] + rest;
        forall i, j | 0 <= i < j < |r| ensures r[i].Key() != r[j].Key() {
          if i == 0 {
            assert r[j] in rest;
            var k :| 0 <= k < |tail| && tail[k] == r[j];
            assert items[k + 1] == r[j];
          } else {
            assert r[i] == rest[i - 1] && r[j] == rest[j - 1];
          }
        }
      }
    }
  }

  /** Removal is idempotent. */
  lemma {:induction false} RemoveTwice(items: seq<CartItem>, id: string)
    ensures RemoveLines(RemoveLines(items, id), id) == RemoveLines(items, id)
    decreases |items|
  {
    if items != [] {
      RemoveTwice(items[1..], id);
      var rest := RemoveLines(items[1..], id);
      if items[0].product.id != id {
        assert RemoveLines(items, id) == [items[0]] + rest;
        assert ([items[0]] + rest)[0] == items[0];
        assert ([items[0]] + rest)[1..] == rest;
      } else {
        assert RemoveLines(items, id) == rest;
      }
    }
  }

  // ----- Lemmas: the aggregates -----

  /** The quantity total splits over concatenation. */
  lemma {:induction false} TotalQuantityConcat(a: seq<CartItem>, b: seq<CartItem>)
    ensures TotalQuantity(a + b) == TotalQuantity(a) + TotalQuantity(b)
    decreases |b|
  {
    if b == [] {
      assert a + b == a;
    } else {
      var b' := b[..|b| - 1];
      assert (a + b)[..|a + b| - 1] == a + b';
      assert (a + b)[|a + b| - 1] == b[|b| - 1];
      TotalQuantityConcat(a, b');
    }
  }

  /** The quantity total of one line. */
  lemma TotalQuantitySingle(l: CartItem)
    ensures TotalQuantity([l]) == l.quantity
  {
    assert [l][..0] == [];
  }

  /** `cartCount` after `addToCart`: `quantity` more for each merged line, or for the one appended line. */
  lemma {:induction false} AddLineCount(items: seq<CartItem>, product: Product, quantity: int, size: Option<string>, color: Option<string>)
    ensures TotalQuantity(AddLine(items, product, quantity, size, color)) ==
            TotalQuantity(items) + quantity * (if HasLine(items, product.id, size, color) then CountMatching(items, product.id, size, color) else 1)
  {
    if HasLine(items, product.id, size, color) {
      IncrementCount(items, product.id, size, color, quantity);
    } else {
      TotalQuantityConcat(items, [CartItem(product, size, color, quantity)]);
      TotalQuantitySingle(CartItem(product, size, color, quantity));
    }
  }

  /** The quantity total of a line in front of a cart. */
  lemma TotalQuantityCons(l: CartItem, rest: seq<CartItem>)
    ensures TotalQuantity([l] + rest) == l.quantity + TotalQuantity(rest)
  {
    TotalQuantityConcat([l], rest);
    TotalQuantitySingle(l);
  }

  lemma {:induction false} IncrementCount(items: seq<CartItem>, id: string, size: Option<string>, color: Option<string>, q: int)
    ensures TotalQuantity(IncrementMatching(items, id, size, color, q)) == TotalQuantity(items) + q * CountMatching(items, id, size, color)
    decreases |items|
  {
    if items != [] {
      var head, tail := items[0], items[1..];
      var rest := IncrementMatching(tail, id, size, color, q);
      IncrementCount(tail, id, size, color, q);
      var h := if Matches(head, id, size, color) then head.(quantity := head.quantity + q) else head;
      assert IncrementMatching(items, id, size, color, q) == [h] + rest;
      assert items == [head] + tail;
      TotalQuantityCons(h, rest);
      TotalQuantityCons(head, tail);
      var n := CountMatching(tail, id, size, color);
      if Matches(head, id, size, color) {
        Distribute(q, n);
      }
    }
  }

  /** `q * (1 + n) == q + q * n`. */
  lemma Distribute(q: int, n: int)
    ensures q * (1 + n) == q + q * n
  {
  }

  /** With at most one line per key, a merge adds exactly `quantity` to `cartCount`. */
  lemma {:induction false} UniqueCountsOne(items: seq<CartItem>, id: string, size: Option<string>, color: Option<string>)
    requires UniqueKeys(items)
    ensures CountMatching(items, id, size, color) <= 1
    ensures HasLine(items, id, size, color) ==> CountMatching(items, id, size, color) == 1
    decreases |items|
  {
    if items != [] {
      var tail := items[1..];
      assert UniqueKeys(tail) by {
        forall i, j | 0 <= i < j < |tail| ensures tail[i].Key() != tail[j].Key() {
          assert tail[i] == items[i + 1] && tail[j] == items[j + 1];
        }
      }
      UniqueCountsOne(tail, id, size, color);
      if Matches(items[0], id, size, color) {
        assert !HasLine(tail, id, size, color) by {
          forall k | 0 <= k < |tail| ensures !Matches(tail[k], id, size, color) {
            assert tail[k] == items[k + 1];
          }
        }
        NoLineNoCount(tail, id, size, color);
      } else if HasLine(items, id, size, color) {
        var k :| 0 <= k < |items| && Matches(items[k], id, size, color);
        assert Matches(tail[k - 1], id, size, color);
      }
    }
  }

  lemma {:induction false} NoLineNoCount(items: seq<CartItem>, id: string, size: Option<string>, color: Option<string>)
    requires !HasLine(items, id, size, color)
    ensures CountMatching(items, id, size, color) == 0
    decreases |items|
  {
    if items != [] {
      assert !Matches(items[0], id, size, color);
      assert !HasLine(items[1..], id, size, color) by {
        forall k | 0 <= k < |items[1..]| ensures !Matches(items[1..][k], id, size, color) {
          assert items[1..][k] == items[k + 1];
        }
      }
      NoLineNoCount(items[1..], id, size, color);
    }
  }

  /** The quantities of the lines removed with an id. */
  function RemovedQuantity(items: seq<CartItem>, id: string): int
  {
    if items == [] then 0
    else (if items[0].product.id == id then items[0].quantity else 0) + RemovedQuantity(items[1..], id)
  }

  /** `cartCount` after `removeFromCart(id)` drops by exactly the quantities of the removed lines. */
  lemma {:induction false} RemoveLinesCount(items: seq<CartItem>, id: string)
    ensures TotalQuantity(RemoveLines(items, id)) == TotalQuantity(items) - RemovedQuantity(items, id)
    decreases |items|
  {
    if items != [] {
      RemoveLinesCount(items[1..], id);
      var kept := if items[0].product.id == id then [] else [items[0]];
      TotalQuantityConcat(kept, RemoveLines(items[1..], id));
      assert items == [items[0]] + items[1..];
      TotalQuantityConcat([items[0]], items[1..]);
      TotalQuantitySingle(items[0]);
      if kept != [] { TotalQuantitySingle(items[0]); }
    }
  }

  /** Some line's price is NaN. */
  predicate AnyPriceNaN(items: seq<CartItem>)
  {
    exists i :: 0 <= i < |items| && items[i].product.price.NotANumber?
  }

  /** The amount of a price in cents, 0 for NaN. */
  function CentsOf(p: Price): int
  {
    if p.Cents? then p.cents else 0
  }

  /** The integer sum of price × quantity, in cents, ignoring NaN prices. */
  function CentsTotal(items: seq<CartItem>): int
  {
    if items == [] then 0 else CentsOf(items[0].product.price) * items[0].quantity + CentsTotal(items[1..])
  }

  /** The subtotal is NaN exactly when some line's price is NaN, and the sum of price × quantity otherwise,
      whichever order the lines are in. */
  lemma {:induction false} SubtotalSum(items: seq<CartItem>)
    ensures Subtotal(items).NotANumber? <==> AnyPriceNaN(items)
    ensures !AnyPriceNaN(items) ==> Subtotal(items) == Cents(CentsTotal(items))
    decreases |items|
  {
    if items != [] {
      var init := items[..|items| - 1];
      var last := items[|items| - 1];
      SubtotalSum(init);
      assert forall i :: 0 <= i < |init| ==> init[i] == items[i];
      assert AnyPriceNaN(items) <==> AnyPriceNaN(init) || last.product.price.NotANumber?;
      if !AnyPriceNaN(items) {
        CentsTotalSnoc(init, last);
        assert items == init + [last];
      }
    }
  }

  lemma {:induction false} CentsTotalSnoc(items: seq<CartItem>, last: CartItem)
    ensures CentsTotal(items + [last]) == CentsTotal(items) + CentsOf(last.product.price) * last.quantity
    decreases |items|
  {
    if items != [] {
      assert (items + [last])[1..] == items[1..] + [last];
      CentsTotalSnoc(items[1..], last);
    }
  }

  /** Adding product "1" at 10.00 twice, with 2 and then 3, gives one line of 5 and a subtotal of 50.00;
      removing "1" then empties the cart. */
  lemma MergeThenRemoveExample(p: Product)
    requires p.id == "1" && p.price == Cents(1000)
    ensures var cart := AddLine(AddLine([], p, 2, None, None), p, 3, None, None);
      cart == [CartItem(p, None, None, 5)] && TotalQuantity(cart) == 5 && Subtotal(cart) == Cents(5000) &&
      RemoveLines(cart, "1") == [] && TotalQuantity(RemoveLines(cart, "1")) == 0
  {
    var line := CartItem(p, None, None, 5);
    AddTwice([], p, p, 2, 3, None, None);
    assert [] + [line] == [line];
    TotalQuantitySingle(line);
    assert [line][..0] == [];
    assert Subtotal([line]) == Plus(Cents(0), Times(p.price, 5));
    assert RemoveLines([line], p.id) == [] + RemoveLines([], p.id) by {
      assert [line][1..] == [];
    }
  }

  /** The cart held by the provider. */
  class CartStore {
    var items: seq<CartItem>
    var isOpen: bool

    /** The saved cart when it decodes, otherwise empty; the drawer starts closed. */
    constructor (saved: Option<string>, decode: string -> Option<seq<CartItem>>)
      ensures items == InitialItems(saved, decode) && !isOpen
    {
      items := InitialItems(saved, decode);
      isOpen := false;
    }

    /** `addToCart`: merge into the line with the same key or append one; then open the drawer. */
    method AddToCart(product: Product, quantity: int := 1, size: Option<string> := None, color: Option<string> := None)
      modifies this
      ensures items == AddLine(old(items), product, quantity, size, color)
      ensures isOpen
      ensures UniqueKeys(old(items)) ==> UniqueKeys(items)
      ensures UniqueKeys(old(items)) ==> CartCount() == old(CartCount()) + quantity
    {
      if UniqueKeys(items) {
        AddKeepsKeysUnique(items, product, quantity, size, color);
        UniqueCountsOne(items, product.id, size, color);
      }
      AddLineCount(items, product, quantity, size, color);
      items := AddLine(items, product, quantity, size, color);
      isOpen := true;
    }

    /** `removeFromCart`: drop every line with the id; the drawer state is untouched. */
    method RemoveFromCart(id: string)
      modifies this
      ensures items == RemoveLines(old(items), id)
      ensures isOpen == old(isOpen)
      ensures UniqueKeys(old(items)) ==> UniqueKeys(items)
      ensures CartCount() == old(CartCount()) - RemovedQuantity(old(items), id)
    {
      if UniqueKeys(items) {
        RemoveKeepsKeysUnique(items, id);
      }
      RemoveLinesCount(items, id);
      items := RemoveLines(items, id);
    }

    /** `toggleCart`: flip the drawer, nothing else. */
    method ToggleCart()
      modifies this
      ensures isOpen == !old(isOpen)
      ensures items == old(items)
    {
      isOpen := !isOpen;
    }

    /** `cartCount`, recomputed from the current lines. */
    function CartCount(): int
      reads this
    {
      TotalQuantity(items)
    }
  }
}
