/**
 * The Get Quote handler with its host input as parameters: the answers to the
 * item and quantity prompts and to the two yes/no questions. It normalises and
 * validates the input, prices the order and builds the receipt.
 */
module QuoteFlow {
  import opened Wrappers
  import opened CafeInput
  import opened Pricing
  import opened Receipt

  /**
   * One click of Get Quote. The eco-cup question is asked only for coffee, so
   * for any other item its answer is taken as No.
   */
  function HandleQuote(rawType: Option<string>, rawQty: Num, studentAnswer: bool, ecoAnswer: bool)
    : (r: Result<seq<Line>, QuoteError>)
    ensures rawType == None ==> r == Failure(InvalidItemType)
    ensures r == Failure(InvalidItemType) <==> !IsValidType(NormalizeType(rawType))
    ensures r == Failure(InvalidQuantity) <==>
              IsValidType(NormalizeType(rawType)) && !(IsInteger(rawQty) && 1.0 <= rawQty.value <= 10.0)
    ensures r.Success? ==>
              var item := ParseItem(NormalizeType(rawType)).value;
              var eco := item == Coffee && ecoAnswer;
              var quote := ProcessQuote(item, rawQty.value.Floor, studentAnswer, eco);
              && r.value == BuildReceipt(item, rawQty.value.Floor, studentAnswer, eco, quote)
              && Amounts(r.value) == MoneyLines(quote)
              && r.value[2] == Text("Item: " + NormalizeType(rawType))
              && r.value[6] == Text("Student discount: " + StudentText(studentAnswer))
              && r.value[7] == Text("Eco cup add-on: " + EcoText(item, ecoAnswer))
              && (quote.ecoFee == 1.0 <==> NormalizeType(rawType) == "coffee" && ecoAnswer)
  {
    var t := NormalizeType(rawType);
    match Validate(t, rawQty)
    case Failure(e) => Failure(e)
    case Success(order) =>
      ParseName(order.item);
      var ecoCup := if order.item == Coffee then ecoAnswer else false;
      var quote := ProcessQuote(order.item, order.qty, studentAnswer, ecoCup);
      ReceiptAnswers(order.item, order.qty, studentAnswer, ecoCup, quote);
      Success(BuildReceipt(order.item, order.qty, studentAnswer, ecoCup, quote))
  }

  /** A padded, capitalised coffee order of six, student, with an eco cup, priced end to end. */
  lemma CoffeeOrderExample()
    ensures HandleQuote(Some("  Coffee\n"), Finite(6.0), true, true)
         == Success(BuildReceipt(Coffee, 6, true, true,
                                 Breakdown(3.25, 19.5, 1.95, 1.0, 2.0, 0.8275, 17.3775)))
  {
    NormalizeExample();
    WorkedExamples();
    WholeSix();
  }

  /** A fractional quantity is refused as a quantity. */
  lemma FractionRejected()
    ensures HandleQuote(Some("salad"), Finite(2.5), false, false) == Failure(InvalidQuantity)
  {
    HalfIsFractional();
    NameIsNormal(Salad);
  }

  /** An item off the menu is refused before the quantity is looked at. */
  lemma UnknownItemRejected()
    ensures HandleQuote(Some("tea"), Finite(2.5), false, false) == Failure(InvalidItemType)
  {
    var s := "tea";
    assert NormalizeType(Some(s)) == s by {
      LowerCaseWord(s);
      NormalFixpoint(s);
    }
  }
}
