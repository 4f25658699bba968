/** The cart of the menu page: an ordered list of line items keyed by id,
    and the pure list transitions the page applies to it (`getItem`,
    `addItem`, `updateQty`, `updateItemNote`) together with the two
    totals it derives on every render. */
module Cart {
  import opened Wrappers

  /** One line of the cart (`CartItem`). An absent `note` is the empty
      string and an absent `isAddon` is false: the page reads `note` only
      for its truthiness (`if (item.note)`, `item.note || ""`) and never
      reads `isAddon`. */
  datatype CartItem = CartItem(
    id: string,
    name: string,
    description: string,
    price: int,
    qty: int,
    note: string,
    isVeg: bool,
    isAddon: bool)

  /** The argument of `addItem`: a cart line without its quantity. */
  datatype NewItem = NewItem(
    id: string,
    name: string,
    description: string,
    price: int,
    note: string,
    isVeg: bool,
    isAddon: bool)
  {
    /** `{ ...item, qty }` */
    function WithQty(qty: int): CartItem {
      CartItem(id, name, description, price, qty, note, isVeg, isAddon)
    }
  }

  predicate HasId(cart: seq<CartItem>, id: string) {
    exists i | 0 <= i < |cart| :: cart[i].id == id
  }

  /** At most one line per id. */
  ghost predicate UniqueIds(cart: seq<CartItem>) {
    forall i, j | 0 <= i < j < |cart| :: cart[i].id != cart[j].id
  }

  /** No line with a zero or negative quantity. */
  ghost predicate AllPositive(cart: seq<CartItem>) {
    forall i | 0 <= i < |cart| :: cart[i].qty > 0
  }

  /** The invariant every reachable cart keeps. */
  ghost predicate Valid(cart: seq<CartItem>) {
    UniqueIds(cart) && AllPositive(cart)
  }

  /** `getItem(id)`: `cart.find((c) => c.id === id)`, the first line with
      that id, or None when there is none (see FindFirst). */
  function Find(cart: seq<CartItem>, id: string): (r: Option<CartItem>)
    ensures r.Some? <==> HasId(cart, id)
    ensures r.Some? ==> r.value.id == id
  {
    if cart == [] then None
    else if cart[0].id == id then Some(cart[0])
    else
      var r := Find(cart[1..], id);
      assert HasId(cart[1..], id) ==> HasId(cart, id);
      assert HasId(cart, id) ==> HasId(cart[1..], id) by {
        if HasId(cart, id) {
          var k :| 0 <= k < |cart| && cart[k].id == id;
          assert cart[1..][k - 1] == cart[k];
        }
      }
      r
  }

  /** `getItem` returns the first line whose id matches. */
  lemma {:induction false} FindFirst(cart: seq<CartItem>, id: string, k: int)
    requires 0 <= k < |cart| && cart[k].id == id
    requires forall j | 0 <= j < k :: cart[j].id != id
    ensures Find(cart, id) == Some(cart[k])
  {
    if k > 0 {
      assert cart[1..][k - 1] == cart[k];
      FindFirst(cart[1..], id, k - 1);
    }
  }

  /** In a cart without duplicate ids, `getItem` finds the one line with
      that id. */
  lemma {:induction false} FindUnique(cart: seq<CartItem>, id: string, k: int)
    requires UniqueIds(cart)
    requires 0 <= k < |cart| && cart[k].id == id
    ensures Find(cart, id) == Some(cart[k])
  {
    FindFirst(cart, id, k);
  }

  /** The `map` step shared by `addItem` (with delta 1) and `updateQty`:
      every line with that id gets `qty + delta`, the others are kept. */
  function Bump(cart: seq<CartItem>, id: string, delta: int): (r: seq<CartItem>) {
    seq(|cart|, i requires 0 <= i < |cart| =>
      if cart[i].id == id then cart[i].(qty := cart[i].qty + delta) else cart[i])
  }

  /** The `filter((p) => p.qty > 0)` step of `updateQty`. */
  function KeepPositive(s: seq<CartItem>): (r: seq<CartItem>)
    ensures AllPositive(r)
    ensures |r| <= |s|
  {
    if s == [] then []
    else (if s[0].qty > 0 then [s[0]] else []) + KeepPositive(s[1..])
  }

  /** `addItem(item)`: increment the line with that id, or append a new
      line with quantity 1. */
  function AddItem(cart: seq<CartItem>, item: NewItem): seq<CartItem> {
    if Find(cart, item.id).Some? then Bump(cart, item.id, 1)
    else cart + [item.WithQty(1)]
  }

  /** `updateQty(id, delta)`: add delta to the line with that id, then
      drop every line whose quantity is no longer positive. */
  function UpdateQty(cart: seq<CartItem>, id: string, delta: int): (r: seq<CartItem>)
    ensures AllPositive(r)
  {
    KeepPositive(Bump(cart, id, delta))
  }

  /** `updateItemNote(id, note)`: replace the note of the line with that id. */
  function UpdateItemNote(cart: seq<CartItem>, id: string, note: string): seq<CartItem> {
    seq(|cart|, i requires 0 <= i < |cart| =>
      if cart[i].id == id then cart[i].(note := note) else cart[i])
  }

  /** `totalItems`: `cart.reduce((s, i) => s + i.qty, 0)`, a left fold. */
  function TotalItems(cart: seq<CartItem>): int {
    if cart == [] then 0 else TotalItems(cart[..|cart| - 1]) + cart[|cart| - 1].qty
  }

  /** `totalAmount`: `cart.reduce((s, i) => s + i.qty * i.price, 0)`. */
  function TotalAmount(cart: seq<CartItem>): int {
    if cart == [] then 0
    else TotalAmount(cart[..|cart| - 1]) + cart[|cart| - 1].qty * cart[|cart| - 1].price
  }

  /** Independent reference for the amount: the sum, front to back, of the
      subtotals `price * qty` that the order message prints per line. */
  function SubtotalSum(cart: seq<CartItem>): int {
    if cart == [] then 0 else cart[0].price * cart[0].qty + SubtotalSum(cart[1..])
  }

  /** Applying `addItem` n times with the same item. */
  function AddTimes(cart: seq<CartItem>, item: NewItem, n: nat): seq<CartItem> {
    if n == 0 then cart else AddItem(AddTimes(cart, item, n - 1), item)
  }

  // ---------------------------------------------------------------------
  // Lemmas about the filter

  lemma {:induction false} KeepPositiveAppend(a: seq<CartItem>, b: seq<CartItem>)
    ensures KeepPositive(a + b) == KeepPositive(a) + KeepPositive(b)
  {
    if a == [] {
      assert a + b == b;
    } else {
      assert (a + b)[1..] == a[1..] + b;
      KeepPositiveAppend(a[1..], b);
    }
  }

  lemma {:induction false} KeepPositiveSingle(x: CartItem)
    ensures KeepPositive([x]) == if x.qty > 0 then [x] else []
  {
    assert [x][1..] == [];
  }

  lemma {:induction false} KeepPositiveOfPositive(s: seq<CartItem>)
    requires AllPositive(s)
    ensures KeepPositive(s) == s
  {
    if s != [] {
      KeepPositiveOfPositive(s[1..]);
    }
  }

  // ---------------------------------------------------------------------
  // Lemmas about the totals

  lemma {:induction false} Distribute(a: int, b: int, c: int)
    ensures (a + b) * c == a * c + b * c
  {
  }

  lemma {:induction false} TotalsAppend(a: seq<CartItem>, b: seq<CartItem>)
    ensures TotalItems(a + b) == TotalItems(a) + TotalItems(b)
    ensures TotalAmount(a + b) == TotalAmount(a) + TotalAmount(b)
  {
    if b == [] {
      assert a + b == a;
    } else {
      var b' := b[..|b| - 1];
      assert (a + b)[..|a + b| - 1] == a + b';
      TotalsAppend(a, b');
    }
  }

  /** Replacing one line changes each total by the difference of that line. */
  lemma {:induction false} TotalsUpdateAt(cart: seq<CartItem>, k: int, x: CartItem)
    requires 0 <= k < |cart|
    ensures TotalItems(cart[k := x]) == TotalItems(cart) - cart[k].qty + x.qty
    ensures TotalAmount(cart[k := x]) == TotalAmount(cart) - cart[k].qty * cart[k].price + x.qty * x.price
  {
    var pre, post := cart[..k], cart[k + 1..];
    assert cart == pre + [cart[k]] + post;
    assert cart[k := x] == pre + [x] + post;
    TotalsAppend(pre + [cart[k]], post);
    TotalsAppend(pre, [cart[k]]);
    TotalsAppend(pre + [x], post);
    TotalsAppend(pre, [x]);
  }

  /** Removing one line lowers each total by that line's share. */
  lemma {:induction false} TotalsRemoveAt(cart: seq<CartItem>, k: int)
    requires 0 <= k < |cart|
    ensures TotalItems(cart[..k] + cart[k + 1..]) == TotalItems(cart) - cart[k].qty
    ensures TotalAmount(cart[..k] + cart[k + 1..]) == TotalAmount(cart) - cart[k].qty * cart[k].price
  {
    var pre, post := cart[..k], cart[k + 1..];
    assert cart == pre + [cart[k]] + post;
    TotalsAppend(pre + [cart[k]], post);
    TotalsAppend(pre, [cart[k]]);
    TotalsAppend(pre, post);
  }

  /** The amount the page shows equals the sum of the subtotals the order
      message prints, whatever the order of the reduction. */
  lemma {:induction false} TotalAmountIsSubtotalSum(cart: seq<CartItem>)
    ensures TotalAmount(cart) == SubtotalSum(cart)
  {
    if cart != [] {
      TotalAmountIsSubtotalSum(cart[1..]);
      assert cart == [cart[0]] + cart[1..];
      TotalsAppend([cart[0]], cart[1..]);
    }
  }

  /** For a cart of positive lines, the item count is at least the number
      of lines, so the floating cart bar (shown when `totalItems > 0`)
      appears exactly when the cart has a line. */
  lemma {:induction false} TotalItemsOfPositive(cart: seq<CartItem>)
    requires AllPositive(cart)
    ensures TotalItems(cart) >= |cart|
    ensures TotalItems(cart) > 0 <==> cart != []
  {
    if cart != [] {
      TotalItemsOfPositive(cart[..|cart| - 1]);
    }
  }

  // ---------------------------------------------------------------------
  // addItem

  /** An id already in the cart: only that line's quantity goes up by one;
      length, order and every other line are unchanged. */
  lemma {:induction false} AddItemExisting(cart: seq<CartItem>, item: NewItem, k: int)
    requires UniqueIds(cart)
    requires 0 <= k < |cart| && cart[k].id == item.id
    ensures AddItem(cart, item) == cart[k := cart[k].(qty := cart[k].qty + 1)]
  {
  }

  /** A new id: exactly one line with quantity 1 and the given fields is
      appended at the end. */
  lemma {:induction false} AddItemNew(cart: seq<CartItem>, item: NewItem)
    requires !HasId(cart, item.id)
    ensures AddItem(cart, item) == cart + [item.WithQty(1)]
    ensures AddItem(cart, item)[|cart|].qty == 1
  {
  }

  lemma {:induction false} AddItemValid(cart: seq<CartItem>, item: NewItem)
    requires Valid(cart)
    ensures Valid(AddItem(cart, item))
  {
    if Find(cart, item.id).Some? {
      var k :| 0 <= k < |cart| && cart[k].id == item.id;
      AddItemExisting(cart, item, k);
    }
  }

  /** `addItem` raises the item count by exactly one and the amount by the
      unit price of the line it touched (the new item's own price when the
      line is new). */
  lemma {:induction false} AddItemTotals(cart: seq<CartItem>, item: NewItem)
    requires UniqueIds(cart)
    ensures TotalItems(AddItem(cart, item)) == TotalItems(cart) + 1
    ensures TotalAmount(AddItem(cart, item))
         == TotalAmount(cart) + match Find(cart, item.id)
                                case Some(line) => line.price
                                case None => item.price
  {
    if HasId(cart, item.id) {
      var k :| 0 <= k < |cart| && cart[k].id == item.id;
      FindUnique(cart, item.id, k);
      AddItemExisting(cart, item, k);
      var line := cart[k];
      TotalsUpdateAt(cart, k, line.(qty := line.qty + 1));
      Distribute(line.qty, 1, line.price);
    } else {
      TotalsAppend(cart, [item.WithQty(1)]);
    }
  }

  /** `addItem` with one id leaves what `getItem` returns for any other id
      unchanged. */
  lemma {:induction false} AddItemKeepsOtherLines(cart: seq<CartItem>, item: NewItem, id: string)
    requires UniqueIds(cart)
    requires item.id != id
    ensures Find(AddItem(cart, item), id) == Find(cart, id)
  {
    var r := AddItem(cart, item);
    AddItemValidIds(cart, item);
    if HasId(cart, id) {
      var k :| 0 <= k < |cart| && cart[k].id == id;
      assert r[k] == cart[k];
      FindUnique(cart, id, k);
      FindUnique(r, id, k);
    } else {
      assert !HasId(r, id) by {
        forall i | 0 <= i < |r| ensures r[i].id != id {
          if i < |cart| { assert r[i].id == cart[i].id; }
        }
      }
    }
  }

  lemma {:induction false} AddItemValidIds(cart: seq<CartItem>, item: NewItem)
    requires UniqueIds(cart)
    ensures UniqueIds(AddItem(cart, item))
  {
    if HasId(cart, item.id) {
      var k :| 0 <= k < |cart| && cart[k].id == item.id;
      AddItemExisting(cart, item, k);
    }
  }

  /** Starting from an empty cart, n calls with one item give a single line
      with quantity n. */
  lemma {:induction false} AddTimesFromEmpty(item: NewItem, n: nat)
    requires n >= 1
    ensures AddTimes([], item, n) == [item.WithQty(n)]
  {
    if n > 1 {
      AddTimesFromEmpty(item, n - 1);
      AddItemExisting([item.WithQty(n - 1)], item, 0);
    }
  }

  // ---------------------------------------------------------------------
  // updateQty

  /** On a valid cart, `updateQty` on a present id changes that line alone:
      its quantity moves by delta, and the line is removed exactly when the
      new quantity is not positive. */
  lemma {:induction false} UpdateQtyPresent(cart: seq<CartItem>, id: string, delta: int, k: int)
    requires Valid(cart)
    requires 0 <= k < |cart| && cart[k].id == id
    ensures UpdateQty(cart, id, delta)
         == if cart[k].qty + delta > 0 then cart[k := cart[k].(qty := cart[k].qty + delta)]
            else cart[..k] + cart[k + 1..]
  {
    if cart[k].qty + delta > 0 {
      UpdateQtyKeepsLine(cart, id, delta, k);
    } else {
      UpdateQtyDropsLine(cart, id, delta, k);
    }
  }

  lemma {:induction false} UpdateQtyKeepsLine(cart: seq<CartItem>, id: string, delta: int, k: int)
    requires Valid(cart)
    requires 0 <= k < |cart| && cart[k].id == id
    requires cart[k].qty + delta > 0
    ensures UpdateQty(cart, id, delta) == cart[k := cart[k].(qty := cart[k].qty + delta)]
  {
    var x := cart[k].(qty := cart[k].qty + delta);
    BumpAt(cart, id, delta, k);
    KeepPositiveAround(cart[..k], x, cart[k + 1..]);
    assert x.qty > 0;
    assert cart[k := x] == cart[..k] + [x] + cart[k + 1..];
  }

  lemma {:induction false} UpdateQtyDropsLine(cart: seq<CartItem>, id: string, delta: int, k: int)
    requires Valid(cart)
    requires 0 <= k < |cart| && cart[k].id == id
    requires cart[k].qty + delta <= 0
    ensures UpdateQty(cart, id, delta) == cart[..k] + cart[k + 1..]
  {
    var x := cart[k].(qty := cart[k].qty + delta);
    BumpAt(cart, id, delta, k);
    KeepPositiveAround(cart[..k], x, cart[k + 1..]);
    assert !(x.qty > 0);
  }

  /** With unique ids, the `map` step of `updateQty` changes line k alone. */
  lemma {:induction false} BumpAt(cart: seq<CartItem>, id: string, delta: int, k: int)
    requires UniqueIds(cart)
    requires 0 <= k < |cart| && cart[k].id == id
    ensures Bump(cart, id, delta) == cart[..k] + [cart[k].(qty := cart[k].qty + delta)] + cart[k + 1..]
  {
  }

  /** The filter keeps positive lines around one line and keeps that line
      exactly when its quantity is positive. */
  lemma {:induction false} KeepPositiveAround(pre: seq<CartItem>, x: CartItem, post: seq<CartItem>)
    requires AllPositive(pre) && AllPositive(post)
    ensures KeepPositive(pre + [x] + post) == if x.qty > 0 then pre + [x] + post else pre + post
  {
    KeepPositiveAroundAny(pre, x, post);
    KeepPositiveSingle(x);
    if x.qty <= 0 {
      assert pre + [] + post == pre + post;
    }
  }

  lemma {:induction false} KeepPositiveAroundAny(pre: seq<CartItem>, x: CartItem, post: seq<CartItem>)
    requires AllPositive(pre) && AllPositive(post)
    ensures KeepPositive(pre + [x] + post) == pre + KeepPositive([x]) + post
  {
    KeepPositiveAppend(pre + [x], post);
    KeepPositiveAppend(pre, [x]);
    KeepPositiveOfPositive(pre);
    KeepPositiveOfPositive(post);
  }

  /** An absent id leaves a cart of positive lines unchanged. */
  lemma {:induction false} UpdateQtyAbsent(cart: seq<CartItem>, id: string, delta: int)
    requires AllPositive(cart) && !HasId(cart, id)
    ensures UpdateQty(cart, id, delta) == cart
  {
    assert Bump(cart, id, delta) == cart;
    KeepPositiveOfPositive(cart);
  }

  /** `updateQty(id, -qty)` removes the line: `getItem(id)` is then absent. */
  lemma {:induction false} UpdateQtyRemoves(cart: seq<CartItem>, id: string, k: int)
    requires Valid(cart)
    requires 0 <= k < |cart| && cart[k].id == id
    ensures Find(UpdateQty(cart, id, -cart[k].qty), id) == None
    ensures |UpdateQty(cart, id, -cart[k].qty)| == |cart| - 1
  {
    UpdateQtyDropsLine(cart, id, -cart[k].qty, k);
    RemoveAtDropsId(cart, k);
  }

  lemma {:induction false} RemoveAtDropsId(cart: seq<CartItem>, k: int)
    requires UniqueIds(cart)
    requires 0 <= k < |cart|
    ensures !HasId(cart[..k] + cart[k + 1..], cart[k].id)
    ensures UniqueIds(cart[..k] + cart[k + 1..])
  {
    var r := cart[..k] + cart[k + 1..];
    assert forall i | 0 <= i < |r| :: r[i] == cart[if i < k then i else i + 1];
  }

  lemma {:induction false} UpdateQtyValid(cart: seq<CartItem>, id: string, delta: int)
    requires Valid(cart)
    ensures Valid(UpdateQty(cart, id, delta))
  {
    if HasId(cart, id) {
      var k :| 0 <= k < |cart| && cart[k].id == id;
      UpdateQtyPresent(cart, id, delta, k);
      RemoveAtDropsId(cart, k);
    } else {
      UpdateQtyAbsent(cart, id, delta);
    }
  }

  /** The totals after `updateQty` on a present id whose line stays: they
      move by delta and by delta times the unit price. */
  lemma {:induction false} UpdateQtyTotalsKept(cart: seq<CartItem>, id: string, delta: int, k: int)
    requires Valid(cart)
    requires 0 <= k < |cart| && cart[k].id == id
    requires cart[k].qty + delta > 0
    ensures TotalItems(UpdateQty(cart, id, delta)) == TotalItems(cart) + delta
    ensures TotalAmount(UpdateQty(cart, id, delta)) == TotalAmount(cart) + delta * cart[k].price
  {
    UpdateQtyPresent(cart, id, delta, k);
    var line := cart[k];
    TotalsUpdateAt(cart, k, line.(qty := line.qty + delta));
    Distribute(line.qty, delta, line.price);
  }

  /** The totals after `updateQty` removes a line: they lose that line's
      quantity and subtotal. */
  lemma {:induction false} UpdateQtyTotalsRemoved(cart: seq<CartItem>, id: string, delta: int, k: int)
    requires Valid(cart)
    requires 0 <= k < |cart| && cart[k].id == id
    requires cart[k].qty + delta <= 0
    ensures TotalItems(UpdateQty(cart, id, delta)) == TotalItems(cart) - cart[k].qty
    ensures TotalAmount(UpdateQty(cart, id, delta)) == TotalAmount(cart) - cart[k].qty * cart[k].price
  {
    UpdateQtyPresent(cart, id, delta, k);
    TotalsRemoveAt(cart, k);
  }

  // ---------------------------------------------------------------------
  // updateItemNote

  /** A present id: only that line's note changes. */
  lemma {:induction false} UpdateItemNotePresent(cart: seq<CartItem>, id: string, note: string, k: int)
    requires UniqueIds(cart)
    requires 0 <= k < |cart| && cart[k].id == id
    ensures UpdateItemNote(cart, id, note) == cart[k := cart[k].(note := note)]
    ensures Find(UpdateItemNote(cart, id, note), id) == Some(cart[k].(note := note))
  {
    FindUnique(UpdateItemNote(cart, id, note), id, k);
  }

  /** An absent id is a no-op. */
  lemma {:induction false} UpdateItemNoteAbsent(cart: seq<CartItem>, id: string, note: string)
    requires !HasId(cart, id)
    ensures UpdateItemNote(cart, id, note) == cart
  {
  }

  /** A note never changes the invariant or the totals. */
  lemma {:induction false} UpdateItemNoteKeeps(cart: seq<CartItem>, id: string, note: string)
    requires Valid(cart)
    ensures Valid(UpdateItemNote(cart, id, note))
    ensures TotalItems(UpdateItemNote(cart, id, note)) == TotalItems(cart)
    ensures TotalAmount(UpdateItemNote(cart, id, note)) == TotalAmount(cart)
  {
    if HasId(cart, id) {
      var k :| 0 <= k < |cart| && cart[k].id == id;
      UpdateItemNotePresent(cart, id, note, k);
      TotalsUpdateAt(cart, k, cart[k].(note := note));
    } else {
      UpdateItemNoteAbsent(cart, id, note);
    }
  }
}
