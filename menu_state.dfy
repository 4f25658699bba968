/** The state the `Menu` component keeps between user actions: the cart,
    the order note, whether the cart modal is open, and the session marker
    of the review prompt. Each handler replaces one piece of state with the
    value a pure function computes from the old one. */
module MenuState {
  import Cart
  import ReviewGate

  class Menu {
    /** The table the page was opened for (a prop of the component). */
    const table: int
    var cart: seq<Cart.CartItem>
    var orderNote: string
    var showCart: bool
    /** Whether the session marker of the review prompt is present. */
    var reviewMarker: bool
    /** How many review prompts this session has scheduled. */
    ghost var promptsScheduled: nat

    /** The cart keeps one positive line per id, and at most one prompt is
        scheduled, only ever together with the marker. */
    ghost predicate Valid()
      reads this
    {
      && Cart.Valid(cart)
      && promptsScheduled <= 1
      && (promptsScheduled == 1 ==> reviewMarker)
    }

    /** The component mounts with an empty cart, an empty order note and
        the cart closed; the marker survives from earlier in the session. */
    constructor (table: int, reviewMarker: bool)
      ensures Valid()
      ensures this.table == table && this.reviewMarker == reviewMarker
      ensures cart == [] && orderNote == "" && !showCart && promptsScheduled == 0
    {
      this.table := table;
      cart := [];
      orderNote := "";
      showCart := false;
      this.reviewMarker := reviewMarker;
      promptsScheduled := 0;
    }

    method AddItem(item: Cart.NewItem)
      requires Valid()
      modifies this`cart
      ensures Valid()
      ensures cart == Cart.AddItem(old(cart), item)
      ensures Cart.TotalItems(cart) == Cart.TotalItems(old(cart)) + 1
    {
      Cart.AddItemValid(cart, item);
      Cart.AddItemTotals(cart, item);
      cart := Cart.AddItem(cart, item);
    }

    method UpdateQty(id: string, delta: int)
      requires Valid()
      modifies this`cart
      ensures Valid()
      ensures cart == Cart.UpdateQty(old(cart), id, delta)
      ensures !Cart.HasId(old(cart), id) ==> cart == old(cart)
    {
      Cart.UpdateQtyValid(cart, id, delta);
      if !Cart.HasId(cart, id) {
        Cart.UpdateQtyAbsent(cart, id, delta);
      }
      cart := Cart.UpdateQty(cart, id, delta);
    }

    method UpdateItemNote(id: string, note: string)
      requires Valid()
      modifies this`cart
      ensures Valid()
      ensures cart == Cart.UpdateItemNote(old(cart), id, note)
      ensures Cart.TotalAmount(cart) == Cart.TotalAmount(old(cart))
    {
      Cart.UpdateItemNoteKeeps(cart, id, note);
      cart := Cart.UpdateItemNote(cart, id, note);
    }

    /** The order-note textarea. */
    method SetOrderNote(note: string)
      requires Valid()
      modifies this`orderNote
      ensures Valid() && orderNote == note
    {
      orderNote := note;
    }

    /** The floating cart bar opens the modal; the close button shuts it. */
    method SetShowCart(show: bool)
      requires Valid()
      modifies this`showCart
      ensures Valid() && showCart == show
    {
      showCart := show;
    }

    /** "Show Order to Waiter": close the modal; if the marker is absent,
        set it and schedule the review prompt. */
    method ShowOrderToWaiter() returns (scheduled: bool)
      requires Valid()
      modifies this`showCart, this`reviewMarker, this`promptsScheduled
      ensures Valid()
      ensures !showCart && reviewMarker
      ensures scheduled <==> ReviewGate.CanShowReview(old(reviewMarker))
      ensures promptsScheduled == old(promptsScheduled) + (if scheduled then 1 else 0)
    {
      showCart := false;
      var press := ReviewGate.PressWaiterButton(reviewMarker);
      scheduled := press.scheduled;
      reviewMarker := press.markerSet;
      if scheduled {
        promptsScheduled := promptsScheduled + 1;
      }
    }
  }

  /** A session at one table: "cc" added twice is one line of quantity 2,
      decrementing it twice empties the cart, and a second press of the
      waiter button schedules no second prompt. */
  method SessionScenario(corn: Cart.NewItem) returns (first: bool, second: bool)
    requires corn.id == "cc"
    ensures first && !second
  {
    var menu := new Menu(4, false);
    menu.AddItem(corn);
    menu.AddItem(corn);
    assert menu.cart[..0] == [];
    Cart.AddTimesFromEmpty(corn, 2);
    assert menu.cart == [corn.WithQty(2)];
    menu.UpdateQty("cc", -1);
    Cart.UpdateQtyPresent([corn.WithQty(2)], "cc", -1, 0);
    assert menu.cart == [corn.WithQty(1)];
    menu.UpdateQty("cc", -1);
    Cart.UpdateQtyRemoves([corn.WithQty(1)], "cc", 0);
    assert Cart.Find(menu.cart, "cc").None?;
    first := menu.ShowOrderToWaiter();
    second := menu.ShowOrderToWaiter();
  }
}
