# Tatini QR menu: cart and order model

A Dafny model of the cart and ordering logic of the Tatini restaurant's
QR-code menu page (`app/menu/page.tsx`). A guest at a table adds dishes
and add-ons to a cart, changes quantities, attaches notes, and then either
shows the order to a waiter or sends it as a WhatsApp message. The model
covers:

- **Cart** (`cart.dfy`, module `Cart`). A cart is a sequence of
  `CartItem` lines keyed by id. It has the pure transitions `getItem`
  (`Find`), `addItem`, `updateQty` and `updateItemNote`, and the two
  reductions `totalItems` and `totalAmount`. The invariant `Valid` says
  that ids are unique and quantities positive; every transition keeps it.
- **Order message** (`order_text.dfy`, module `Order`). `OrderText` is the
  text that `generateOrderText` builds before percent-encoding. It has a
  header with the table, one block per cart line (a bullet, then a note
  sub-line when the line has a note), an optional order-note section and
  the estimated total. `BuildOrderText` is the loop of the source,
  appending to `text`, and is proved equal to `OrderText`. The readers
  `ReadTable` and `ReadTotal` recover the numbers from the text.
- **Number text** (`decimal.dfy`, module `Decimal`). This is how a whole
  number is written into a template string, together with readers that
  parse it back, and the round trips between the two.
- **Catalog** (`catalog.dfy`, module `Catalog`). These are the four dishes
  of the page and the lines their buttons add. An add-on line gets the id
  `dishId-addonId` and is marked veg and add-on.
- **Review gate** (`review_gate.dfy`, module `ReviewGate`). The "Show
  Order to Waiter" button schedules the Google-review prompt only while a
  session marker is absent, and sets the marker when it does.
- **Component state** (`menu_state.dfy`, module `MenuState`). The class
  `Menu` holds the state the component keeps: the cart, the order note,
  whether the cart modal is open, and the review marker. Its methods
  replace that state with the values the pure functions compute. A ghost
  counter of scheduled prompts shows that at most one prompt is
  scheduled per session.

`wrappers.dfy` holds the `Option` type.

## Model

| member | source | states |
|---|---|---|
| Cart.Find | app/menu/page.tsx:92-94 | `getItem` returns a line exactly when some line has the id, and that line carries the id |
| Cart.FindFirst | app/menu/page.tsx:92-94 | `getItem` returns the first line with the id |
| Cart.FindUnique | app/menu/page.tsx:92-94 | with unique ids, `getItem` returns the one line with that id |
| Cart.AddItemExisting | app/menu/page.tsx:110-115 | an id already present: the result is the cart with only that line's quantity raised by one (same length, same order, other lines equal) |
| Cart.AddItemNew | app/menu/page.tsx:116 | a new id: the result is the cart with one line appended at the end, carrying the given fields and quantity 1 |
| Cart.AddItemValidIds | app/menu/page.tsx:108-117 | `addItem` keeps ids distinct |
| Cart.AddItemValid | app/menu/page.tsx:108-117 | `addItem` keeps ids distinct and quantities positive |
| Cart.AddItemTotals | app/menu/page.tsx:108-117 | `addItem` raises `totalItems` by exactly 1 and `totalAmount` by the unit price of the line it touched |
| Cart.AddItemKeepsOtherLines | app/menu/page.tsx:112-114 | `addItem` does not change what `getItem` returns for any other id |
| Cart.AddTimesFromEmpty | app/menu/page.tsx:108-117 | from an empty cart, n calls with one item give the single line with quantity n |
| Cart.KeepPositive | app/menu/page.tsx:126 | the filter leaves only lines with positive quantity and never lengthens the cart |
| Cart.KeepPositiveAppend | app/menu/page.tsx:126 | the filter distributes over concatenation, so order is kept |
| Cart.KeepPositiveOfPositive | app/menu/page.tsx:126 | the filter leaves a cart of positive lines unchanged |
| Cart.KeepPositiveAround | app/menu/page.tsx:126 | between positive lines, the filter keeps one line exactly when its quantity is positive |
| Cart.BumpAt | app/menu/page.tsx:123-125 | with unique ids, the `map` step changes the matching line alone |
| Cart.UpdateQty | app/menu/page.tsx:120-128 | after `updateQty` every quantity is positive |
| Cart.UpdateQtyPresent | app/menu/page.tsx:120-128 | on a valid cart, a present id's line moves by delta and is removed exactly when the new quantity is not positive; all other lines and their order are untouched |
| Cart.UpdateQtyKeepsLine | app/menu/page.tsx:120-128 | a positive new quantity replaces that line in place |
| Cart.UpdateQtyDropsLine | app/menu/page.tsx:120-128 | a non-positive new quantity removes that line and keeps the rest in order |
| Cart.UpdateQtyAbsent | app/menu/page.tsx:120-128 | an absent id leaves a cart of positive lines unchanged |
| Cart.UpdateQtyRemoves | app/menu/page.tsx:120-128 | `updateQty(id, -qty)` removes the line: the cart is one shorter and `getItem(id)` is absent |
| Cart.RemoveAtDropsId | app/menu/page.tsx:126 | removing a line removes its id and keeps the other ids distinct |
| Cart.UpdateQtyValid | app/menu/page.tsx:120-128 | `updateQty` keeps ids distinct and quantities positive |
| Cart.UpdateQtyTotalsKept | app/menu/page.tsx:138-139 | when the line stays, `totalItems` moves by delta and `totalAmount` by delta times the unit price |
| Cart.UpdateQtyTotalsRemoved | app/menu/page.tsx:138-139 | when the line goes, both totals lose exactly that line's share |
| Cart.UpdateItemNotePresent | app/menu/page.tsx:130-136 | a present id: only that line's note changes, and `getItem` then returns the line with the new note |
| Cart.UpdateItemNoteAbsent | app/menu/page.tsx:130-136 | an absent id is a no-op |
| Cart.UpdateItemNoteKeeps | app/menu/page.tsx:130-136 | `updateItemNote` keeps the invariant and both totals |
| Cart.TotalsAppend | app/menu/page.tsx:138-139 | both totals of a concatenation are the sums of the parts' totals |
| Cart.TotalsUpdateAt | app/menu/page.tsx:138-139 | replacing one line changes each total by that line's difference |
| Cart.TotalsRemoveAt | app/menu/page.tsx:138-139 | removing one line lowers each total by that line's share |
| Cart.TotalAmountIsSubtotalSum | app/menu/page.tsx:139 | `totalAmount` equals the front-to-back sum of the subtotals `price * qty` the message prints |
| Cart.TotalItemsOfPositive | app/menu/page.tsx:274 | for positive lines, `totalItems` is at least the number of lines, so the cart bar shows exactly when the cart is non-empty |
| Order.Blocks | app/menu/page.tsx:144-147 | one block per cart line |
| Order.BuildOrderText | app/menu/page.tsx:141-153 | the loop that appends to `text` produces exactly `OrderText` |
| Order.AppendBlock | app/menu/page.tsx:144-147 | one loop step (bullet, then the note sub-line if there is a note) appends the block of that line |
| Order.PiecesMakeBlock | app/menu/page.tsx:145-146 | the bullet and the optional note sub-line together are the line's block |
| Order.AppendTail | app/menu/page.tsx:149-153 | the order-note section (if any) and the total line complete the message |
| Order.BlockAt | app/menu/page.tsx:144-147 | the item text is the blocks of the earlier lines, then line i's block, then the blocks of the later lines, in cart order |
| Order.BlockHasNoteLineIff | app/menu/page.tsx:146 | a note sub-line follows a bullet exactly when the line's note is non-empty |
| Order.NoteSectionIff | app/menu/page.tsx:149-151 | the order-note section appears exactly when the order note is non-empty, and then ends with that note and a newline |
| Order.OrderTextFrame | app/menu/page.tsx:141-153 | the message starts with the header and ends with the total line |
| Order.ReadTableOfOrderText | app/menu/page.tsx:142 | reading the number after the header label gives back the table |
| Order.ReadTotalOfOrderText | app/menu/page.tsx:153 | the number at the end of the message is `totalAmount` |
| Order.ReadSubtotalOfBullet | app/menu/page.tsx:145 | every bullet ends with the subtotal `price * qty` |
| Order.CrispyCornMessage | app/menu/page.tsx:141-153 | for table 4 and two Crispy Corn at 280, the message names table 4 and ends with the total 560 |
| Order.CrispyCornBullet | app/menu/page.tsx:141-153 | that message is exactly its header, the single bullet "Crispy Corn x2" with subtotal 560, and the total line 560: no note sub-line and no order-note section |
| Decimal.NatToString | app/menu/page.tsx:145 | a whole number is written as a non-empty run of digits with no leading zero |
| Decimal.NatToStringRoundTrip | app/menu/page.tsx:145 | parsing the written digits gives the number back |
| Decimal.LeadingDigitsIsLongest | app/menu/page.tsx:142 | the leading run of digits is a prefix, and the character after it is not a digit |
| Decimal.TrailingDigitsIsLongest | app/menu/page.tsx:153 | the trailing run of digits is a suffix, and the character before it is not a digit |
| Decimal.LeadingIntRoundTrip | app/menu/page.tsx:142 | a number written before a non-digit is read back exactly, sign included |
| Decimal.TrailingIntRoundTrip | app/menu/page.tsx:153 | a number written after a character that is neither a digit nor a minus sign is read back exactly, sign included |
| Catalog.AddonIdsDistinct | app/menu/page.tsx:500-508 | an add-on's id never equals its dish's id, and different add-ons of one dish get different ids |
| Catalog.AddonKeepsDishLine | app/menu/page.tsx:500-508 | adding an add-on never changes the line of its dish |
| Catalog.AddingDishOffersAddons | app/menu/page.tsx:491 | adding a dish that has add-ons makes its add-on section appear |
| Catalog.MenuIdsDistinct | app/menu/page.tsx:203-267 | the six lines this menu can add have distinct ids and non-negative prices |
| ReviewGate.PressWaiterButton | app/menu/page.tsx:330-336 | a press schedules the prompt exactly when `canShowReview` holds, and leaves the marker set |
| ReviewGate.NoneAfterMarker | app/menu/page.tsx:157-159 | once the marker is set, no press schedules the prompt |
| ReviewGate.AtMostOncePerSession | app/menu/page.tsx:330-336 | across any number of presses, the prompt is scheduled once if the session started without the marker and there was a press, and never otherwise |
| MenuState.Menu.constructor | app/menu/page.tsx:81-84 | the component starts with an empty cart, an empty order note and the cart closed |
| MenuState.Menu.AddItem | app/menu/page.tsx:108-118 | the cart becomes `addItem` of the old cart, the invariant holds, and the item count rises by one |
| MenuState.Menu.UpdateQty | app/menu/page.tsx:120-128 | the cart becomes `updateQty` of the old cart, the invariant holds, and an absent id changes nothing |
| MenuState.Menu.UpdateItemNote | app/menu/page.tsx:130-136 | the cart becomes `updateItemNote` of the old cart, with the same amount |
| MenuState.Menu.SetOrderNote | app/menu/page.tsx:320 | the order note is replaced, nothing else changes |
| MenuState.Menu.SetShowCart | app/menu/page.tsx:277 | the cart modal is opened or closed, nothing else changes |
| MenuState.Menu.ShowOrderToWaiter | app/menu/page.tsx:330-336 | closes the modal and sets the marker; schedules the prompt exactly when the marker was absent; at most one prompt per session |
| MenuState.SessionScenario | app/menu/page.tsx:108-128 | adding "cc" twice, decrementing it twice, then pressing the waiter button twice schedules the prompt on the first press only |

## Left out

- `encodeURIComponent` (app/menu/page.tsx:154) is a library call. The model states the text before encoding.
- The table lives in `localStorage` and the "Change" button reloads the page (app/menu/page.tsx:35-38, 60-63, 171-175). This is browser storage I/O. The table is a parameter of `Menu`. The picker offers tables 1 to 15 (app/menu/page.tsx:57), and a missing table shows the picker instead of the menu (app/menu/page.tsx:40).
- The session marker is a boolean field, not a `sessionStorage` entry.
- The 400 ms delay before the prompt appears (app/menu/page.tsx:334) is a timer. The model records only the decision to schedule the prompt. The prompt dialog itself (app/menu/page.tsx:356-377) is presentation.
- Category scrolling (`scrollTo`, app/menu/page.tsx:96-104) and all markup are presentation.
- The landing page's splash timer and theme, the layout's fonts and metadata, and the footer are presentation too.
- JavaScript numbers are doubles. Every price on the menu is a whole number, so prices, quantities and totals are unbounded integers. Rounding, `NaN` and the exponent form that `${n}` uses from 1e21 upwards are not modelled.
- The pictographs and currency signs of the message are opaque constants, written as the characters the template intends (chair, receipt, bullet, em dash, rupee, arrow, memo, money bag). Only the fact that none of them is a digit or a minus sign is used.
- An absent `note` is the empty string, and an absent `isAddon` is false. The page reads `note` only for its truthiness and shows an absent note as `""`. It sets `isAddon` but never reads it.
- UpdateQtyPresent: stated for carts with unique ids and positive quantities. These are the only carts the page can reach (Cart.AddItemValid, Cart.UpdateQtyValid). With duplicate ids, `updateQty` changes every matching line.
- AddItemExisting: stated for carts with unique ids, for the same reason.
- UpdateItemNotePresent: stated for carts with unique ids, for the same reason.
