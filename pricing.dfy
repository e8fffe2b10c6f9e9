/**
 * processQuote: the price breakdown of one validated request. Amounts are exact
 * rationals (real); the host's binary floating point is not reproduced.
 */
module Pricing {
  import opened CafeInput

  /** The price table. */
  function Price(item: Item): (p: real)
    ensures 0.0 < p < 10.0
    ensures (p * 4.0).Floor as real == p * 4.0
  {
    match item
    case Coffee => 3.25
    case Sandwich => 8.50
    case Salad => 7.25
  }

  const TaxRate: real := 0.05
  const StudentRate: real := 0.10
  const EcoFee: real := 1.00
  const BulkQty: int := 6
  const BulkOff: real := 2.00

  /** The record processQuote returns. */
  datatype Breakdown = Breakdown(
    unitPrice: real,
    subtotal: real,
    studentDiscount: real,
    ecoFee: real,
    bulkDiscount: real,
    tax: real,
    total: real)
  {
    /** The amount tax is levied on: discounts taken off and the fee added, all before tax. */
    function Taxable(): real {
      subtotal - studentDiscount + ecoFee - bulkDiscount
    }
  }

  /**
   * processQuote. The quantity is not restricted here: a caller that skips
   * validation gets whatever the arithmetic gives, with no clamping.
   */
  function ProcessQuote(item: Item, qty: int, isStudent: bool, ecoCup: bool): (r: Breakdown)
    ensures r.unitPrice == Price(item)
    ensures r.subtotal == r.unitPrice * qty as real
    ensures r.studentDiscount == if isStudent then r.subtotal / 10.0 else 0.0
    ensures r.ecoFee != 0.0 <==> item == Coffee && ecoCup
    ensures r.ecoFee == 0.0 || r.ecoFee == 1.0
    ensures r.bulkDiscount != 0.0 <==> qty >= 6
    ensures r.bulkDiscount == 0.0 || r.bulkDiscount == 2.0
    ensures r.tax == r.Taxable() / 20.0
    ensures r.total == r.Taxable() * 1.05
  {
    var unitPrice := Price(item);
    var subtotal := unitPrice * qty as real;
    var studentDiscount := if isStudent then subtotal * StudentRate else 0.0;
    var ecoFee := if item == Coffee && ecoCup then EcoFee else 0.0;
    var bulkDiscount := if qty >= BulkQty then BulkOff else 0.0;
    var taxable := subtotal - studentDiscount + ecoFee - bulkDiscount;
    var tax := taxable * TaxRate;
    var total := taxable + tax;
    Breakdown(unitPrice, subtotal, studentDiscount, ecoFee, bulkDiscount, tax, total)
  }

  /**
   * An independent closed form of the total: the table price times the
   * quantity, 90% of it for students, plus one dollar for an eco cup on
   * coffee, less two dollars from six items on, and 5% on top.
   */
  lemma TotalClosedForm(item: Item, qty: int, isStudent: bool, ecoCup: bool)
    ensures ProcessQuote(item, qty, isStudent, ecoCup).total ==
      ((if item == Coffee then 3.25 else if item == Sandwich then 8.5 else 7.25) * qty as real
         * (if isStudent then 0.9 else 1.0)
       + (if item == Coffee && ecoCup then 1.0 else 0.0)
       - (if qty >= 6 then 2.0 else 0.0)) * 1.05
  {
  }

  /** The bulk deal depends on the quantity alone, never on the item or the flags. */
  lemma BulkIgnoresItem(item1: Item, item2: Item, qty: int, s1: bool, s2: bool, e1: bool, e2: bool)
    ensures ProcessQuote(item1, qty, s1, e1).bulkDiscount == ProcessQuote(item2, qty, s2, e2).bulkDiscount
  {
  }

  /** For anything but coffee the eco-cup flag changes nothing in the breakdown. */
  lemma EcoFlagIgnoredOffCoffee(item: Item, qty: int, isStudent: bool)
    requires item != Coffee
    ensures ProcessQuote(item, qty, isStudent, true) == ProcessQuote(item, qty, isStudent, false)
  {
  }

  /** The eco cup adds exactly $1.05 to a coffee total: the fee and the tax on it. */
  lemma EcoCupCost(qty: int, isStudent: bool)
    ensures ProcessQuote(Coffee, qty, isStudent, true).total
         == ProcessQuote(Coffee, qty, isStudent, false).total + 1.05
  {
  }

  /** A student saves a tenth of the subtotal and the tax on it. */
  lemma StudentSaving(item: Item, qty: int, ecoCup: bool)
    ensures ProcessQuote(item, qty, false, ecoCup).total - ProcessQuote(item, qty, true, ecoCup).total
         == Price(item) * qty as real * 0.105
  {
  }

  /** Over the quantities the handler admits, every amount taxed and charged is positive. */
  lemma PositiveForValidQuantity(item: Item, qty: Quantity, isStudent: bool, ecoCup: bool)
    ensures ProcessQuote(item, qty, isStudent, ecoCup).Taxable() > 0.0
    ensures 0.0 < ProcessQuote(item, qty, isStudent, ecoCup).tax < ProcessQuote(item, qty, isStudent, ecoCup).total
  {
    var b := ProcessQuote(item, qty, isStudent, ecoCup);
    if qty >= 6 {
      assert b.subtotal >= 3.25 * 6.0;
    }
  }

  /** No clamping: an unvalidated negative quantity yields a negative total. */
  lemma NegativePropagates()
    ensures ProcessQuote(Salad, -1, false, false).total == -7.6125
  {
  }

  /** Two worked quotes. */
  lemma WorkedExamples()
    ensures ProcessQuote(Coffee, 6, true, true)
         == Breakdown(3.25, 19.5, 1.95, 1.0, 2.0, 0.8275, 17.3775)
    ensures ProcessQuote(Salad, 3, false, false)
         == Breakdown(7.25, 21.75, 0.0, 0.0, 0.0, 1.0875, 22.8375)
  {
  }
}
