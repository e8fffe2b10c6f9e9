/**
 * buildReceipt: the text choices and the fixed line order of the receipt. Money
 * amounts stay exact values inside the lines; turning them into "$X.XX" is left
 * to a formatter supplied by the host (see Render).
 */
module Receipt {
  import opened CafeInput
  import opened Pricing
  import opened Icons

  /** A receipt line: blank, plain text, or a caption followed by an amount the formatter prints. */
  datatype Line = Blank | Text(text: string) | Priced(caption: string, amount: real)

  /** The student line reads Yes exactly for students. */
  function StudentText(isStudent: bool): (t: string)
    ensures t == "Yes" <==> isStudent
    ensures t == "No" <==> !isStudent
  {
    if isStudent then "Yes" else "No"
  }

  /** The eco-cup line reads N/A for everything but coffee, and Yes or No with the flag for coffee. */
  function EcoText(item: Item, ecoCup: bool): (t: string)
    ensures t == "N/A" <==> item != Coffee
    ensures t == "Yes" <==> item == Coffee && ecoCup
    ensures t == "No" <==> item == Coffee && !ecoCup
  {
    if item == Coffee then (if ecoCup then "Yes" else "No") else "N/A"
  }

  /** Decimal digits of a natural number, most significant first. */
  function Digits(n: nat): (s: string)
    ensures |s| > 0 && IsDecimal(s)
    ensures DecimalValue(s) == n
    ensures s[0] == '0' ==> n == 0 && |s| == 1
  {
    if n < 10 then [('0' as int + n) as char]
    else
      var d := Digits(n / 10);
      var s := d + [('0' as int + n % 10) as char];
      assert s[..|s| - 1] == d;
      s
  }

  /** Only the characters 0 to 9. */
  predicate IsDecimal(s: string) {
    forall k :: 0 <= k < |s| ==> '0' <= s[k] <= '9'
  }

  /** The number a string of decimal digits denotes, most significant first. */
  function DecimalValue(s: string): nat
    requires IsDecimal(s)
  {
    if s == [] then 0 else DecimalValue(s[..|s| - 1]) * 10 + (s[|s| - 1] as int - '0' as int)
  }

  /** How the host prints an integer quantity. */
  function IntText(n: int): (s: string)
    ensures |s| > 0 && (n < 0 <==> s[0] == '-')
    ensures n < 0 ==> |s| > 1 && s[1] != '0' && IsDecimal(s[1..]) && DecimalValue(s[1..]) == -n
    ensures 0 <= n ==> IsDecimal(s) && DecimalValue(s) == n && (s[0] == '0' ==> s == "0")
  {
    if n < 0 then
      var s := "-" + Digits(-n);
      assert s[1..] == Digits(-n);
      s
    else Digits(n)
  }

  /** The money lines of a receipt as (caption, amount) pairs, in the order they are printed. */
  function Amounts(lines: seq<Line>): seq<(string, real)> {
    AmountsOf(lines, |lines|)
  }

  /** The money lines among the first n lines. */
  function AmountsOf(lines: seq<Line>, n: nat): seq<(string, real)>
    requires n <= |lines|
  {
    if n == 0 then []
    else AmountsOf(lines, n - 1) + MoneyOf(lines[n - 1])
  }

  /** The (caption, amount) pair of a money line; nothing for any other line. */
  function MoneyOf(line: Line): seq<(string, real)> {
    if line.Priced? then [(line.caption, line.amount)] else []
  }

  /** The seven money lines of a receipt, with their captions, as buildReceipt prints them. */
  function MoneyLines(quote: Breakdown): seq<(string, real)> {
    [("Unit price: ", quote.unitPrice), ("Subtotal: ", quote.subtotal),
     ("Student -10%: -", quote.studentDiscount), ("Eco cup fee: ", quote.ecoFee),
     ("Bulk deal: -", quote.bulkDiscount), ("Tax (5%): ", quote.tax), ("TOTAL: ", quote.total)]
  }

  /** The amounts of two receipt parts put together are the first part's followed by the second's. */
  lemma {:induction false} AmountsAppend(a: seq<Line>, b: seq<Line>)
    ensures Amounts(a + b) == Amounts(a) + Amounts(b)
    decreases |b|
  {
    if b == [] {
      assert a + b == a;
    } else {
      var c, last := b[..|b| - 1], b[|b| - 1];
      assert a + b == (a + c) + [last] && b == c + [last];
      AmountsPrefix(a + c, last);
      AmountsPrefix(c, last);
      AmountsAppend(a, c);
    }
  }

  lemma AmountsPrefix(a: seq<Line>, last: Line)
    ensures Amounts(a + [last]) == Amounts(a) + MoneyOf(last)
  {
    var r := a + [last];
    assert AmountsOf(r, |a|) == AmountsOf(a, |a|) by {
      AmountsOfPrefix(r, a, |a|);
    }
  }

  lemma {:induction false} AmountsOfPrefix(r: seq<Line>, a: seq<Line>, n: nat)
    requires n <= |a| <= |r| && a == r[..|a|]
    ensures AmountsOf(r, n) == AmountsOf(a, n)
  {
    if n > 0 {
      AmountsOfPrefix(r, a, n - 1);
    }
  }

  /** The head of the receipt: title, item, unit price, quantity with its icons. */
  function Heading(item: Item, qty: int, unitPrice: real): (r: seq<Line>)
    ensures |r| == 5 && Amounts(r) == [("Unit price: ", unitPrice)]
    ensures r[0] == Text("CAMPUS CAF\U{C9} RECEIPT") && r[1] == Blank && r[2] == Text("Item: " + Name(item))
  {
    var title, itemLine := "CAMPUS CAF\U{C9} RECEIPT", "Item: " + Name(item);
    var quantityLine := "Quantity: " + IntText(qty) + "  " + IconLine(item, qty);
    HeadingAmounts(title, itemLine, quantityLine, unitPrice);
    [Text(title), Blank, Text(itemLine), Priced("Unit price: ", unitPrice), Text(quantityLine)]
  }

  /** The heading's only money line is the unit price, whatever its text lines say. */
  lemma HeadingAmounts(title: string, itemLine: string, quantityLine: string, unitPrice: real)
    ensures Amounts([Text(title), Blank, Text(itemLine), Priced("Unit price: ", unitPrice), Text(quantityLine)])
         == [("Unit price: ", unitPrice)]
  {
    var r := [Text(title), Blank, Text(itemLine), Priced("Unit price: ", unitPrice), Text(quantityLine)];
    assert AmountsOf(r, 1) == [];
    assert AmountsOf(r, 2) == [];
    assert AmountsOf(r, 3) == [];
    assert AmountsOf(r, 4) == [("Unit price: ", unitPrice)];
  }

  /** The answers to the two questions. */
  function Choices(item: Item, isStudent: bool, ecoCup: bool): (r: seq<Line>)
    ensures |r| == 4 && Amounts(r) == []
    ensures r[0] == Blank && r[3] == Blank
  {
    var r := [
      Blank,
      Text("Student discount: " + StudentText(isStudent)),
      Text("Eco cup add-on: " + EcoText(item, ecoCup)),
      Blank
    ];
    assert AmountsOf(r, 1) == [];
    assert AmountsOf(r, 2) == [];
    assert AmountsOf(r, 3) == [];
    assert AmountsOf(r, 4) == [];
    r
  }

  /** The breakdown, from the subtotal to the total, with a blank line before the total. */
  function Sums(quote: Breakdown): (r: seq<Line>)
    ensures |r| == 7 && r[5] == Blank
    ensures Amounts(r) == [("Subtotal: ", quote.subtotal), ("Student -10%: -", quote.studentDiscount),
                           ("Eco cup fee: ", quote.ecoFee), ("Bulk deal: -", quote.bulkDiscount),
                           ("Tax (5%): ", quote.tax), ("TOTAL: ", quote.total)]
  {
    var r := [
      Priced("Subtotal: ", quote.subtotal),
      Priced("Student -10%: -", quote.studentDiscount),
      Priced("Eco cup fee: ", quote.ecoFee),
      Priced("Bulk deal: -", quote.bulkDiscount),
      Priced("Tax (5%): ", quote.tax),
      Blank,
      Priced("TOTAL: ", quote.total)
    ];
    AmountsOfSums(r);
    r
  }

  /** The amounts of the breakdown block, gathered line by line. */
  lemma AmountsOfSums(r: seq<Line>)
    requires |r| == 7 && r[5] == Blank && forall k :: 0 <= k < 7 && k != 5 ==> r[k].Priced?
    ensures Amounts(r) == [(r[0].caption, r[0].amount), (r[1].caption, r[1].amount), (r[2].caption, r[2].amount),
                           (r[3].caption, r[3].amount), (r[4].caption, r[4].amount), (r[6].caption, r[6].amount)]
  {
    var p := seq(7, k requires 0 <= k < 7 => if k == 5 then ("", 0.0) else (r[k].caption, r[k].amount));
    assert AmountsOf(r, 1) == p[..1];
    assert AmountsOf(r, 2) == p[..2];
    assert AmountsOf(r, 3) == p[..3];
    assert AmountsOf(r, 4) == p[..4];
    assert AmountsOf(r, 5) == p[..5];
    assert AmountsOf(r, 6) == p[..5];
  }

  /**
   * buildReceipt: heading, answers and breakdown, in that order; the title, the item line,
   * the blank separators and every captioned money line in its fixed place.
   */
  function BuildReceipt(item: Item, qty: int, isStudent: bool, ecoCup: bool, quote: Breakdown): (r: seq<Line>)
    ensures |r| == 16
    ensures r[0] == Text("CAMPUS CAF\U{C9} RECEIPT") && r[2] == Text("Item: " + Name(item))
    ensures r[1] == Blank && r[5] == Blank && r[8] == Blank && r[14] == Blank
    ensures Amounts(r) == MoneyLines(quote)
  {
    var h, c, t := Heading(item, qty, quote.unitPrice), Choices(item, isStudent, ecoCup), Sums(quote);
    AmountsJoin(h, c, t, quote);
    LinesJoin(h, c, t);
    h + c + t
  }

  lemma AmountsJoin(h: seq<Line>, c: seq<Line>, t: seq<Line>, quote: Breakdown)
    requires Amounts(h) == [("Unit price: ", quote.unitPrice)] && Amounts(c) == []
    requires Amounts(t) == MoneyLines(quote)[1..]
    ensures Amounts(h + c + t) == MoneyLines(quote)
  {
    AmountsAppend(h, c);
    AmountsAppend(h + c, t);
  }

  /** Where the lines of the three blocks land in the joined receipt. */
  lemma LinesJoin(h: seq<Line>, c: seq<Line>, t: seq<Line>)
    requires |h| == 5 && |c| == 4 && |t| == 7
    ensures var r := h + c + t;
      && |r| == 16
      && r[0] == h[0] && r[1] == h[1] && r[2] == h[2]
      && r[5] == c[0] && r[8] == c[3] && r[14] == t[5]
  {
  }

  /** The answer lines: the student line follows the flag, the eco-cup line reads N/A off coffee. */
  lemma ReceiptAnswers(item: Item, qty: int, isStudent: bool, ecoCup: bool, quote: Breakdown)
    ensures var r := BuildReceipt(item, qty, isStudent, ecoCup, quote);
      && r[6] == Text("Student discount: " + StudentText(isStudent))
      && r[7] == Text("Eco cup add-on: " + EcoText(item, ecoCup))
      && (r[6] == Text("Student discount: Yes") <==> isStudent)
      && (r[6] == Text("Student discount: No") <==> !isStudent)
      && (r[7] == Text("Eco cup add-on: N/A") <==> item != Coffee)
      && (r[7] == Text("Eco cup add-on: Yes") <==> item == Coffee && ecoCup)
      && (r[7] == Text("Eco cup add-on: No") <==> item == Coffee && !ecoCup)
  {
    ReceiptChoiceLines(item, qty, isStudent, ecoCup, quote);
    ChoiceTexts(item, isStudent, ecoCup);
  }

  /** Lines 6 and 7 of a receipt are the two answer lines of its choices block. */
  lemma ReceiptChoiceLines(item: Item, qty: int, isStudent: bool, ecoCup: bool, quote: Breakdown)
    ensures var r, c := BuildReceipt(item, qty, isStudent, ecoCup, quote), Choices(item, isStudent, ecoCup);
      r[6] == c[1] && r[7] == c[2]
  {
    var r := BuildReceipt(item, qty, isStudent, ecoCup, quote);
    var h, c, t := Heading(item, qty, quote.unitPrice), Choices(item, isStudent, ecoCup), Sums(quote);
    assert r == h + c + t && |h| == 5;
  }

  lemma ChoiceTexts(item: Item, isStudent: bool, ecoCup: bool)
    ensures var c := Choices(item, isStudent, ecoCup);
      && c[1] == Text("Student discount: " + StudentText(isStudent))
      && c[2] == Text("Eco cup add-on: " + EcoText(item, ecoCup))
      && (c[1] == Text("Student discount: Yes") <==> isStudent)
      && (c[1] == Text("Student discount: No") <==> !isStudent)
      && (c[2] == Text("Eco cup add-on: N/A") <==> item != Coffee)
      && (c[2] == Text("Eco cup add-on: Yes") <==> item == Coffee && ecoCup)
      && (c[2] == Text("Eco cup add-on: No") <==> item == Coffee && !ecoCup)
  {
    var sp, ep := "Student discount: ", "Eco cup add-on: ";
    PrefixCancel(sp, StudentText(isStudent), "Yes");
    PrefixCancel(ep, EcoText(item, ecoCup), "N/A");
    PrefixCancel(sp, StudentText(isStudent), "No");
    PrefixCancel(ep, EcoText(item, ecoCup), "Yes");
    PrefixCancel(ep, EcoText(item, ecoCup), "No");
  }

  lemma PrefixCancel(p: string, a: string, b: string)
    ensures p + a == p + b <==> a == b
  {
    if p + a == p + b {
      assert a == (p + a)[|p|..] && b == (p + b)[|p|..];
    }
  }

  /** The quantity line carries exactly IconCount(qty) glyphs after the quantity, at most ten. */
  lemma ReceiptIcons(item: Item, qty: int, isStudent: bool, ecoCup: bool, quote: Breakdown)
    ensures var icons := IconLine(item, qty);
      && BuildReceipt(item, qty, isStudent, ecoCup, quote)[4] == Text("Quantity: " + IntText(qty) + "  " + icons)
      && |icons| == IconCount(qty) * |Glyph(item)| <= 10 * |Glyph(item)|
  {
    var n := IconCount(qty);
    RepeatCopies(Glyph(item), n);
    MulMono(n, 10, |Glyph(item)|);
  }

  lemma MulMono(a: nat, b: nat, m: nat)
    requires a <= b
    ensures a * m <= b * m
  {
  }

  /** Off coffee the eco-cup flag leaves the whole receipt unchanged. */
  lemma ReceiptIgnoresEcoOffCoffee(item: Item, qty: int, isStudent: bool, quote: Breakdown)
    requires item != Coffee
    ensures BuildReceipt(item, qty, isStudent, true, quote) == BuildReceipt(item, qty, isStudent, false, quote)
  {
  }

  /** The text of a receipt: each line's fields in order, money through the formatter, and a newline after every line. */
  function Render(lines: seq<Line>, money: real -> string): (s: string)
    ensures lines != [] ==> |s| > 0 && s[|s| - 1] == '\n'
  {
    if lines == [] then "" else Render(lines[..|lines| - 1], money) + LineText(lines[|lines| - 1], money) + "\n"
  }

  /** Rendering one line gives its text and a line break. */
  lemma RenderOne(line: Line, money: real -> string)
    ensures Render([line], money) == LineText(line, money) + "\n"
  {
    assert [line][..0] == [];
  }

  /** Rendering two receipts one after the other is rendering their concatenation. */
  lemma {:induction false} RenderAppend(a: seq<Line>, b: seq<Line>, money: real -> string)
    ensures Render(a + b, money) == Render(a, money) + Render(b, money)
    decreases |b|
  {
    if b == [] {
      assert a + b == a;
    } else {
      var front, line := b[..|b| - 1], b[|b| - 1];
      var rl := LineText(line, money) + "\n";
      calc {
        Render(a + b, money);
        { SplitLast(a, b); }
        Render((a + front) + [line], money);
        { RenderSnoc(a + front, line, money); }
        Render(a + front, money) + rl;
        { RenderAppend(a, front, money); }
        (Render(a, money) + Render(front, money)) + rl;
        { ConcatAssoc(Render(a, money), Render(front, money), rl); }
        Render(a, money) + (Render(front, money) + rl);
        { RenderSnoc(front, line, money); }
        Render(a, money) + Render(b, money);
      }
    }
  }

  lemma SplitLast(a: seq<Line>, b: seq<Line>)
    requires b != []
    ensures b == b[..|b| - 1] + [b[|b| - 1]]
    ensures a + b == (a + b[..|b| - 1]) + [b[|b| - 1]]
  {
  }

  lemma ConcatAssoc(x: string, y: string, z: string)
    ensures (x + y) + z == x + (y + z)
  {
  }

  /** Appending one line to a receipt appends its text and a line break to the rendering. */
  lemma RenderSnoc(lines: seq<Line>, line: Line, money: real -> string)
    ensures Render(lines + [line], money) == Render(lines, money) + (LineText(line, money) + "\n")
  {
    var s := lines + [line];
    assert s[..|s| - 1] == lines;
  }

  function LineText(line: Line, money: real -> string): string {
    match line
    case Blank => ""
    case Text(t) => t
    case Priced(c, x) => c + money(x)
  }
}
