/**
 * The café quote's input side: the item names the café sells, the normaliser
 * applied to the typed item name, the item-name check, and the validation the
 * Get Quote handler performs before it prices anything.
 */
module CafeInput {
  import opened Wrappers
  import opened JsText

  /** The three items on the menu. */
  datatype Item = Coffee | Sandwich | Salad

  /** The lower-case name under which each item is typed, priced and printed. */
  function Name(item: Item): string {
    match item
    case Coffee => "coffee"
    case Sandwich => "sandwich"
    case Salad => "salad"
  }

  /**
   * normalizeType: a cancelled prompt (None) or an empty answer becomes "",
   * anything else is trimmed and lower-cased.
   */
  function NormalizeType(raw: Option<string>): (r: string)
    ensures raw == None || raw == Some("") ==> r == ""
    ensures EdgeTrimmed(r) && NoUpper(r)
  {
    if raw.None? || raw.value == "" then "" else Lower(Trim(raw.value))
  }

  /**
   * What normalizeType keeps of a non-empty answer: the lower-cased answer with
   * only whitespace cut from its two ends.
   */
  lemma NormalizeKeepsMiddle(raw: Option<string>)
    requires raw.Some? && raw.value != ""
    ensures exists i: nat :: TrimmedFrom(Lower(raw.value), NormalizeType(raw), i)
  {
    var t := Trim(raw.value);
    var i: nat :| TrimmedFrom(raw.value, t, i);
    LowerKeepsTrim(raw.value, t, i);
    assert TrimmedFrom(Lower(raw.value), NormalizeType(raw), i);
  }

  /** isValidType: only the three menu names pass. */
  predicate IsValidType(t: string)
    ensures IsValidType(t) ==> EdgeTrimmed(t) && NoUpper(t) && 5 <= |t| <= 8
  {
    t == "coffee" || t == "sandwich" || t == "salad"
  }

  /** The item a valid name denotes. */
  function ParseItem(t: string): (r: Option<Item>)
    ensures r.Some? <==> IsValidType(t)
    ensures r.Some? ==> Name(r.value) == t
  {
    if t == "coffee" then Some(Coffee)
    else if t == "sandwich" then Some(Sandwich)
    else if t == "salad" then Some(Salad)
    else None
  }

  /** A name is valid exactly when it is the name of a menu item. */
  lemma ValidTypeIsMenuName(t: string)
    ensures IsValidType(t) <==> exists item :: Name(item) == t
  {
    if IsValidType(t) {
      assert Name(ParseItem(t).value) == t;
    }
  }

  /** Printing an item's name and reading it back gives the item. */
  lemma {:induction false} ParseName(item: Item)
    ensures IsValidType(Name(item))
    ensures ParseItem(Name(item)) == Some(item)
  {
    match item
    case Coffee =>
    case Sandwich =>
    case Salad =>
  }

  /** An answer already free of edge whitespace and upper case is its own normal form. */
  lemma NormalFixpoint(t: string)
    requires EdgeTrimmed(t) && NoUpper(t)
    ensures NormalizeType(Some(t)) == t
  {
    if t != "" {
      assert Trim(t) == t;
      LowerFixpoint(t);
    }
  }

  /** Normalising an already normalised answer changes nothing. */
  lemma NormalizeIdempotent(raw: Option<string>)
    ensures NormalizeType(Some(NormalizeType(raw))) == NormalizeType(raw)
  {
    NormalFixpoint(NormalizeType(raw));
  }

  /** The menu names are left alone by the normaliser. */
  lemma NameIsNormal(item: Item)
    ensures NormalizeType(Some(Name(item))) == Name(item)
  {
    var n := Name(item);
    assert EdgeTrimmed(n) && NoUpper(n) by {
      LowerCaseWord(n);
    }
    NormalFixpoint(n);
  }

  /** A word of lower-case letters has no edge whitespace and no upper case. */
  lemma LowerCaseWord(w: string)
    requires forall k :: 0 <= k < |w| ==> 'a' <= w[k] <= 'z'
    ensures EdgeTrimmed(w) && NoUpper(w)
  {
  }

  /** Surrounding whitespace and upper case are forgiven: "  Coffee\n" is read as coffee. */
  lemma NormalizeExample()
    ensures NormalizeType(Some("  Coffee\n")) == "coffee"
    ensures IsValidType(NormalizeType(Some("  Coffee\n")))
  {
    TrimExample();
    LowerExample();
  }

  lemma LowerExample()
    ensures Lower("Coffee") == "coffee"
  {
    var l := Lower("Coffee");
    assert l[0] == LowerChar('C') == 'c';
  }

  lemma TrimExample()
    ensures Trim("  Coffee\n") == "Coffee"
  {
    var s, s1, t := "  Coffee\n", " Coffee\n", "Coffee\n";
    assert s[1..] == s1;
    assert s1[1..] == t;
    TrimStartDrop(s);
    TrimStartDrop(s1);
    TrimStartKeep(t);
    assert t[..|t| - 1] == "Coffee" && IsSpace(t[|t| - 1]);
  }

  /**
   * The host number the quantity prompt produced: a finite value, or NaN or an
   * infinity, none of which is an integer.
   */
  datatype Num = Finite(value: real) | NonFinite

  /** Number.isInteger. */
  predicate IsInteger(n: Num)
    ensures IsInteger(n) ==> n.Finite?
  {
    n.Finite? && n.value.Floor as real == n.value
  }

  /** 2.5 is a finite number that is not an integer. */
  lemma HalfIsFractional()
    ensures !IsInteger(Finite(2.5))
  {
    var q := Finite(2.5);
    assert q.value.Floor == 2;
  }

  /** 6 is an integer quantity. */
  lemma WholeSix()
    ensures IsInteger(Finite(6.0)) && Finite(6.0).value.Floor == 6
  {
    var q := Finite(6.0);
    assert q.value.Floor == 6;
  }

  /** The quantities a quote accepts. */
  type Quantity = q: int | 1 <= q <= 10 witness 1

  datatype QuoteError = InvalidItemType | InvalidQuantity

  /** A validated request: a menu item and a quantity from 1 to 10. */
  datatype Order = Order(item: Item, qty: Quantity)

  /**
   * The guards of the Get Quote handler: the item name is checked first, then
   * the quantity must be an integer from 1 to 10.
   */
  function Validate(t: string, qty: Num): (r: Result<Order, QuoteError>)
    ensures r == Failure(InvalidItemType) <==> !IsValidType(t)
    ensures r == Failure(InvalidQuantity) <==>
              IsValidType(t) && !(IsInteger(qty) && 1.0 <= qty.value <= 10.0)
    ensures r.Success? ==> Name(r.value.item) == t && r.value.qty as real == qty.value
  {
    match ParseItem(t)
    case None => Failure(InvalidItemType)
    case Some(item) =>
      if !IsInteger(qty) || qty.value < 1.0 || qty.value > 10.0 then Failure(InvalidQuantity)
      else Success(Order(item, qty.value.Floor))
  }
}
