/** The dishes of the menu and how the `Dish` component turns a dish, or
    one of its add-ons, into the argument of `addItem`. */
module Catalog {
  import opened Cart

  /** `Addon`: an extra offered with one dish. */
  datatype Addon = Addon(id: string, name: string, price: int)

  /** The properties the page passes to one `Dish`. */
  datatype Dish = Dish(
    id: string,
    name: string,
    description: string,
    price: int,
    isVeg: bool,
    addons: seq<Addon>)

  /** The dishes the page lists, with the add-ons of Tandoori Chicken. */
  const Dishes: seq<Dish> := [
    Dish("cc", "Crispy Corn", "Golden fried corn tossed with mild spices.", 280, true, []),
    Dish("tc", "Tandoori Chicken", "Juicy chicken marinated overnight and grilled in a tandoor.",
         520, false, [Addon("mint", "Mint Dip", 30), Addon("spice", "Extra Spice Rub", 20)]),
    Dish("bpm", "Butter Paneer Masala", "Creamy tomato gravy with butter and spices.", 420, true, []),
    Dish("vm", "Virgin Mojito", "Refreshing mint and lime cooler.", 220, true, [])
  ]

  /** The Add button: `onAdd({ id, name, description, price, isVeg })`,
      without a note and not an add-on. */
  function DishItem(dish: Dish): NewItem {
    NewItem(dish.id, dish.name, dish.description, dish.price, "", dish.isVeg, false)
  }

  /** An add-on button: the line gets the id `parentId-addonId`, the
      description "Add-on for <dish>", the add-on's price, and is marked
      veg and add-on. */
  function AddonItem(dish: Dish, addon: Addon): NewItem {
    NewItem(dish.id + "-" + addon.id, addon.name, "Add-on for " + dish.name, addon.price,
            "", true, true)
  }

  /** The add-on section is shown once the dish has a line in the cart and
      the dish has add-ons (`cartItem && addons.length > 0`). */
  predicate AddonsOffered(cart: seq<CartItem>, dish: Dish) {
    HasId(cart, dish.id) && |dish.addons| > 0
  }

  /** The synthesized id never equals the dish's own id, and two different
      add-ons of one dish never share an id: an add-on gets a line of its
      own and never merges into the dish's line or another add-on's. */
  lemma {:induction false} AddonIdsDistinct(dish: Dish, a: Addon, b: Addon)
    ensures AddonItem(dish, a).id != dish.id
    ensures a.id != b.id ==> AddonItem(dish, a).id != AddonItem(dish, b).id
  {
    var pa, pb := AddonItem(dish, a).id, AddonItem(dish, b).id;
    var n := |dish.id| + 1;
    assert |pa| > |dish.id|;
    if pa == pb {
      assert pa[n..] == a.id;
      assert pb[n..] == b.id;
    }
  }

  /** Adding an add-on never changes the line of the dish it belongs to. */
  lemma {:induction false} AddonKeepsDishLine(cart: seq<CartItem>, dish: Dish, addon: Addon)
    requires UniqueIds(cart)
    ensures Find(AddItem(cart, AddonItem(dish, addon)), dish.id) == Find(cart, dish.id)
  {
    AddonIdsDistinct(dish, addon, addon);
    AddItemKeepsOtherLines(cart, AddonItem(dish, addon), dish.id);
  }

  /** Adding a dish that has add-ons makes its add-on section appear. */
  lemma {:induction false} AddingDishOffersAddons(cart: seq<CartItem>, dish: Dish)
    requires |dish.addons| > 0
    ensures AddonsOffered(AddItem(cart, DishItem(dish)), dish)
  {
    var r := AddItem(cart, DishItem(dish));
    if HasId(cart, dish.id) {
      var k :| 0 <= k < |cart| && cart[k].id == dish.id;
      assert r[k].id == dish.id;
    } else {
      assert r[|cart|].id == dish.id;
    }
  }

  /** Every line the menu can add: each dish, then each of its add-ons. */
  function MenuItems(dishes: seq<Dish>): seq<NewItem> {
    if dishes == [] then []
    else [DishItem(dishes[0])] + seq(|dishes[0].addons|, i requires 0 <= i < |dishes[0].addons| =>
                                       AddonItem(dishes[0], dishes[0].addons[i]))
         + MenuItems(dishes[1..])
  }

  /** On this menu, every line the page can add has an id of its own, and
      no price is negative. */
  lemma {:induction false} MenuIdsDistinct()
    ensures var items := MenuItems(Dishes);
            && |items| == 6
            && (forall i, j | 0 <= i < j < |items| :: items[i].id != items[j].id)
            && (forall i | 0 <= i < |items| :: items[i].price >= 0)
  {
    var items := MenuItems(Dishes);
    assert items == [
      NewItem("cc", "Crispy Corn", "Golden fried corn tossed with mild spices.", 280, "", true, false),
      NewItem("tc", "Tandoori Chicken", "Juicy chicken marinated overnight and grilled in a tandoor.",
              520, "", false, false),
      AddonItem(Dishes[1], Addon("mint", "Mint Dip", 30)),
      AddonItem(Dishes[1], Addon("spice", "Extra Spice Rub", 20)),
      NewItem("bpm", "Butter Paneer Masala", "Creamy tomato gravy with butter and spices.", 420, "", true, false),
      NewItem("vm", "Virgin Mojito", "Refreshing mint and lime cooler.", 220, "", true, false)
    ];
  }
}
