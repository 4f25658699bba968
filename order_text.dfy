/** The WhatsApp order message (`generateOrderText`) before it is
    percent-encoded: a header naming the table, one bullet per cart line
    (with a note sub-line when the line has a note), an optional order-note
    section, and the estimated total. */
module Order {
  import opened Wrappers
  import opened Decimal
  import opened Cart

  // The pictographs and symbols of the message. They are opaque constants:
  // only the fact that none of them is a digit or a minus sign matters.
  const Chair: string := "\U{1FA91}"
  const Receipt: string := "\U{1F9FE}"
  const BulletMark: string := "•"
  const Dash: string := "—"
  const Rupee: string := "₹"
  const Arrow: string := "↳"
  const Memo: string := "\U{1F4DD}"
  const MoneyBag: string := "\U{1F4B0}"

  /** What precedes the table number on the first line. */
  const TableLabel: string := Chair + " Table "

  /** What precedes the total at the end of the message. */
  const TotalLabel: string := "\n" + MoneyBag + " Estimated Total: " + Rupee

  /** What follows the table number in the header. */
  const HeaderTail: string := "\n\n" + Receipt + " Order:\n"

  function Header(table: int): string {
    TableLabel + IntToString(table) + HeaderTail
  }

  /** The bullet of one line: name, `x<qty>` and the subtotal `price * qty`. */
  function Bullet(item: CartItem): string {
    BulletMark + " " + item.name + " x" + IntToString(item.qty) + " " + Dash + " "
      + Rupee + IntToString(item.price * item.qty) + "\n"
  }

  function NoteLine(note: string): string {
    "  " + Arrow + " Note: " + note + "\n"
  }

  /** What one cart line contributes: its bullet, then its note when the
      note is non-empty (`if (item.note)`). */
  function Block(item: CartItem): string {
    Bullet(item) + if item.note != "" then NoteLine(item.note) else ""
  }

  /** The blocks of the cart lines, one per line, in cart order. */
  function Blocks(cart: seq<CartItem>): (r: seq<string>)
    ensures |r| == |cart|
  {
    seq(|cart|, i requires 0 <= i < |cart| => Block(cart[i]))
  }

  /** The parts written one after the other. */
  function Join(parts: seq<string>): string {
    if parts == [] then "" else Join(parts[..|parts| - 1]) + parts[|parts| - 1]
  }

  /** The order-level note section, present only for a non-empty note. */
  function NoteSection(orderNote: string): string {
    if orderNote != "" then "\n" + Memo + " Order Note:\n" + orderNote + "\n" else ""
  }

  function Footer(total: int): string {
    TotalLabel + IntToString(total)
  }

  /** The whole message, before `encodeURIComponent`. */
  function OrderText(table: int, cart: seq<CartItem>, orderNote: string): string {
    Header(table) + Join(Blocks(cart)) + NoteSection(orderNote) + Footer(TotalAmount(cart))
  }

  /** `generateOrderText`: builds the message by appending to `text`. */
  method BuildOrderText(table: int, cart: seq<CartItem>, orderNote: string) returns (text: string)
    ensures text == OrderText(table, cart, orderNote)
  {
    text := Header(table);
    var i := 0;
    while i < |cart|
      invariant 0 <= i <= |cart|
      invariant text == Header(table) + Join(Blocks(cart[..i]))
    {
      ghost var done := text;
      var item := cart[i];
      text := text + Bullet(item);
      if item.note != "" {
        text := text + NoteLine(item.note);
      }
      AppendBlock(table, cart, i, done, text);
      i := i + 1;
    }
    ghost var body := text;
    if orderNote != "" {
      text := text + NoteSection(orderNote);
    }
    text := text + Footer(TotalAmount(cart));
    AppendTail(table, cart, orderNote, body, text);
  }

  /** One step of the loop: the bullet, then the note sub-line when there
      is a note, extend the text by the block of line i. */
  lemma {:induction false} AppendBlock(table: int, cart: seq<CartItem>, i: int, done: string, text: string)
    requires 0 <= i < |cart|
    requires done == Header(table) + Join(Blocks(cart[..i]))
    requires text == if cart[i].note != "" then done + Bullet(cart[i]) + NoteLine(cart[i].note)
                     else done + Bullet(cart[i])
    ensures text == Header(table) + Join(Blocks(cart[..i + 1]))
  {
    var item := cart[i];
    PiecesMakeBlock(done, item);
    BlocksSnoc(cart, i);
    Assoc(Header(table), Join(Blocks(cart[..i])), Block(item));
  }

  lemma {:induction false} PiecesMakeBlock(done: string, item: CartItem)
    ensures (if item.note != "" then done + Bullet(item) + NoteLine(item.note) else done + Bullet(item))
         == done + Block(item)
  {
    if item.note != "" {
      Assoc(done, Bullet(item), NoteLine(item.note));
    } else {
      assert Bullet(item) + "" == Bullet(item);
    }
  }

  /** After the loop: the order-note section when there is a note, then
      the total line. */
  lemma {:induction false} AppendTail(table: int, cart: seq<CartItem>, orderNote: string, body: string, text: string)
    requires body == Header(table) + Join(Blocks(cart[..|cart|]))
    requires text == (if orderNote != "" then body + NoteSection(orderNote) else body)
                     + Footer(TotalAmount(cart))
    ensures text == OrderText(table, cart, orderNote)
  {
    assert cart[..|cart|] == cart;
    if orderNote == "" {
      assert body + NoteSection(orderNote) == body;
    }
  }

  /** The table number as the first line of a message states it. */
  function ReadTable(text: string): Option<int> {
    if |TableLabel| <= |text| && text[..|TableLabel|] == TableLabel
    then ReadLeadingInt(text[|TableLabel|..])
    else None
  }

  /** The estimated total as the end of a message states it. */
  function ReadTotal(text: string): Option<int> {
    ReadTrailingInt(text)
  }

  lemma {:induction false} Assoc(a: string, b: string, c: string)
    ensures (a + b) + c == a + (b + c)
  {
  }

  lemma {:induction false} BlocksSnoc(cart: seq<CartItem>, i: int)
    requires 0 <= i < |cart|
    ensures Join(Blocks(cart[..i + 1])) == Join(Blocks(cart[..i])) + Block(cart[i])
  {
    assert Blocks(cart[..i + 1])[..i] == Blocks(cart[..i]);
  }

  // ---------------------------------------------------------------------
  // Structure of the message

  lemma {:induction false} JoinAppend(a: seq<string>, b: seq<string>)
    ensures Join(a + b) == Join(a) + Join(b)
  {
    if b == [] {
      assert a + b == a;
    } else {
      var b' := b[..|b| - 1];
      assert (a + b)[..|a + b| - 1] == a + b';
      JoinAppend(a, b');
      Assoc(Join(a), Join(b'), b[|b| - 1]);
    }
  }

  /** One block per cart line, in cart order: the text of the items is the
      blocks of the lines before line i, then the block of line i, then the
      blocks of the lines after it. */
  lemma {:induction false} BlockAt(cart: seq<CartItem>, i: int)
    requires 0 <= i < |cart|
    ensures Join(Blocks(cart))
         == Join(Blocks(cart[..i])) + Block(cart[i]) + Join(Blocks(cart[i + 1..]))
  {
    BlocksSplit(cart, i);
    JoinAround(Blocks(cart[..i]), Block(cart[i]), Blocks(cart[i + 1..]));
  }

  lemma {:induction false} BlocksSplit(cart: seq<CartItem>, i: int)
    requires 0 <= i < |cart|
    ensures Blocks(cart) == Blocks(cart[..i]) + [Block(cart[i])] + Blocks(cart[i + 1..])
  {
    var all := Blocks(cart);
    assert all[..i] == Blocks(cart[..i]);
    assert all[i + 1..] == Blocks(cart[i + 1..]);
    SplitAt(all, i);
  }

  lemma SplitAt<T>(s: seq<T>, i: int)
    requires 0 <= i < |s|
    ensures s == s[..i] + [s[i]] + s[i + 1..]
  {
  }

  lemma {:induction false} JoinAround(pre: seq<string>, b: string, post: seq<string>)
    ensures Join(pre + [b] + post) == Join(pre) + b + Join(post)
  {
    JoinAppend(pre + [b], post);
    JoinAppend(pre, [b]);
    assert Join([b]) == b by {
      assert [b][..0] == [];
    }
  }

  /** A note sub-line follows a bullet exactly when the line's note is
      non-empty. */
  lemma {:induction false} BlockHasNoteLineIff(item: CartItem)
    ensures Block(item) != Bullet(item) <==> item.note != ""
    ensures item.note != "" ==> Block(item) == Bullet(item) + NoteLine(item.note)
  {
  }

  /** The order-note section appears exactly when the order note is
      non-empty, and carries that note. */
  lemma {:induction false} NoteSectionIff(orderNote: string)
    ensures NoteSection(orderNote) != "" <==> orderNote != ""
    ensures orderNote != "" ==>
              var section := NoteSection(orderNote);
              |orderNote| + 1 <= |section|
              && section[|section| - |orderNote| - 1..] == orderNote + "\n"
  {
    if orderNote != "" {
      var section := NoteSection(orderNote);
      var head := "\n" + Memo + " Order Note:\n";
      assert section == head + (orderNote + "\n");
      assert section[|head|..] == orderNote + "\n";
    }
  }

  /** The message starts with its header and ends with the total line. */
  lemma {:induction false} OrderTextFrame(table: int, cart: seq<CartItem>, orderNote: string)
    ensures Header(table) <= OrderText(table, cart, orderNote)
    ensures var text := OrderText(table, cart, orderNote);
            var footer := Footer(TotalAmount(cart));
            |footer| <= |text| && text[|text| - |footer|..] == footer
  {
  }

  lemma {:induction false} ReadTableAfterLabel(n: int, rest: string)
    requires rest == [] || !IsDigit(rest[0])
    ensures ReadTable(TableLabel + (IntToString(n) + rest)) == Some(n)
  {
    var text := TableLabel + (IntToString(n) + rest);
    assert text[..|TableLabel|] == TableLabel;
    assert text[|TableLabel|..] == IntToString(n) + rest;
    LeadingIntRoundTrip(n, rest);
  }

  /** The header names the table: reading the number after the label gives
      the table back. */
  lemma {:induction false} ReadTableOfOrderText(table: int, cart: seq<CartItem>, orderNote: string)
    ensures ReadTable(OrderText(table, cart, orderNote)) == Some(table)
  {
    var body := Join(Blocks(cart)) + (NoteSection(orderNote) + Footer(TotalAmount(cart)));
    Assoc(Header(table) + Join(Blocks(cart)), NoteSection(orderNote), Footer(TotalAmount(cart)));
    Assoc(Header(table), Join(Blocks(cart)), NoteSection(orderNote) + Footer(TotalAmount(cart)));
    Assoc(TableLabel + IntToString(table), HeaderTail, body);
    Assoc(TableLabel, IntToString(table), HeaderTail + body);
    assert (HeaderTail + body)[0] == '\n';
    ReadTableAfterLabel(table, HeaderTail + body);
  }

  /** The message ends with the estimated total, and it is `totalAmount`. */
  lemma {:induction false} ReadTotalOfOrderText(table: int, cart: seq<CartItem>, orderNote: string)
    ensures ReadTotal(OrderText(table, cart, orderNote)) == Some(TotalAmount(cart))
  {
    var front := Header(table) + Join(Blocks(cart)) + NoteSection(orderNote);
    Assoc(front, TotalLabel, IntToString(TotalAmount(cart)));
    var before := front + TotalLabel;
    assert before[|before| - 1] == '₹';
    TrailingIntRoundTrip(before, TotalAmount(cart));
  }

  /** Every bullet ends with its subtotal `price * qty`. */
  lemma {:induction false} ReadSubtotalOfBullet(item: CartItem)
    ensures var b := Bullet(item);
            |b| >= 1 && ReadTrailingInt(b[..|b| - 1]) == Some(item.price * item.qty)
  {
    var before := BulletMark + " " + item.name + " x" + IntToString(item.qty) + " " + Dash + " " + Rupee;
    var b := Bullet(item);
    assert b == before + IntToString(item.price * item.qty) + "\n";
    assert b[..|b| - 1] == before + IntToString(item.price * item.qty);
    assert before[|before| - 1] == '₹';
    TrailingIntRoundTrip(before, item.price * item.qty);
  }

  /** The message for table 4 with two Crispy Corn at 280 and no notes
      names table 4 and ends with the total 560. */
  lemma {:induction false} CrispyCornMessage(item: CartItem)
    requires item == CartItem("cc", "Crispy Corn", "Golden fried corn tossed with mild spices.",
                              280, 2, "", true, false)
    ensures ReadTable(OrderText(4, [item], "")) == Some(4)
    ensures ReadTotal(OrderText(4, [item], "")) == Some(560)
  {
    assert TotalAmount([item]) == 560 by {
      assert [item][..0] == [];
    }
    ReadTableOfOrderText(4, [item], "");
    ReadTotalOfOrderText(4, [item], "");
  }

  /** The same message is its header, the single bullet "Crispy Corn x2"
      with subtotal 560, and the total line: no note sub-line and no
      order-note section. */
  lemma {:induction false} CrispyCornBullet(item: CartItem)
    requires item == CartItem("cc", "Crispy Corn", "Golden fried corn tossed with mild spices.",
                              280, 2, "", true, false)
    ensures OrderText(4, [item], "") == Header(4) + Bullet(item) + Footer(560)
    ensures Block(item) == Bullet(item)
    ensures Bullet(item) == BulletMark + " " + "Crispy Corn" + " x" + "2" + " " + Dash + " "
                            + Rupee + "560" + "\n"
  {
    assert TotalAmount([item]) == 560 by {
      assert [item][..0] == [];
    }
    assert Blocks([item]) == [Block(item)];
    assert Join([Block(item)]) == Block(item) by {
      assert [Block(item)][..0] == [];
    }
    BlockHasNoteLineIff(item);
    assert IntToString(2) == "2";
    assert IntToString(560) == "560";
  }
}
