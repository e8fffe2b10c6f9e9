# Campus café quote calculator, modelled in Dafny

The campus café page asks for an item (coffee, sandwich or salad), a quantity
and two yes/no answers (student discount, reusable eco cup). It prices the order
and prints a text receipt. This project models that quote logic from
`lab4-campus-cafe/script.js`:

- **Input** (`js_text.dfy`, `cafe_input.dfy`). `JsText` models the host's `trim` and
  `toLowerCase`. `CafeInput` holds `normalizeType`, `isValidType` and the two guards
  of the Get Quote handler, written as a pure `Validate` that returns a tagged
  error (`InvalidItemType`, `InvalidQuantity`).
- **Pricing** (`pricing.dfy`). `processQuote` over the constant table: the unit price,
  the subtotal, a 10% student discount, a $1.00 eco fee (coffee only), a $2.00 bulk
  deal from six items on, and 5% tax on the combined taxable amount. Amounts are
  exact `real`s, so every rule is proved as an exact equality.
- **Icons** (`icons.dfy`). `iconsFor` is a method with the source's loop. It is
  proved to return min(qty, 10) copies of the item's glyph, and no copies when the
  quantity is not positive.
- **Receipt** (`receipt.dfy`). `buildReceipt` returns the receipt as a sequence of
  lines. Money stays exact inside the lines. `Render` turns the lines into text
  with a money formatter passed in by the host.
- **Handler** (`quote_flow.dfy`). The click handler's pipeline. The prompt and
  confirm answers are parameters. The flow is normalise, validate, price, then
  build the receipt. The eco answer is forced to No for anything but coffee.

Two points about the code:

- `processQuote` itself never fails. An unknown item is rejected only by the
  handler's guard, before pricing. In the model the item is a `datatype`, so
  `ProcessQuote` cannot receive an unknown one.
- `processQuote` does not restrict the quantity. `ProcessQuote` accepts any
  integer and clamps nothing (see `NegativePropagates`). The 1 to 10 range is
  enforced by `Validate`.

## Model

| member | source | states |
|---|---|---|
| JsText.LowerChar | lab4-campus-cafe/script.js:17 | the lowered character is never upper case, is whitespace exactly when the input was, non-letters are kept, and an upper-case letter becomes the lower-case letter at the same place in the alphabet |
| JsText.Lower | lab4-campus-cafe/script.js:17 | lower-casing keeps the length and lowers every character in place |
| JsText.TrimStart | lab4-campus-cafe/script.js:17 | the result is a suffix of the input, everything cut was whitespace, and it does not start with whitespace |
| JsText.TrimEnd | lab4-campus-cafe/script.js:17 | the result is a prefix of the input, everything cut was whitespace, and it does not end with whitespace |
| JsText.Trim | lab4-campus-cafe/script.js:17 | trim leaves no whitespace at either end, keeps a contiguous middle with only whitespace cut around it, and leaves a string without edge whitespace unchanged |
| JsText.LowerKeepsTrim | lab4-campus-cafe/script.js:17 | lower-casing after trimming keeps the same piece as trimming the lower-cased string |
| JsText.LowerFixpoint | lab4-campus-cafe/script.js:17 | a string without upper-case letters is its own lower-case form |
| CafeInput.NormalizeType | lab4-campus-cafe/script.js:15-18 | a cancelled or empty answer gives ""; every result has no edge whitespace and no upper-case letters |
| CafeInput.NormalizeKeepsMiddle | lab4-campus-cafe/script.js:15-18 | for a non-empty answer the result is the lower-cased answer with only edge whitespace removed |
| CafeInput.NormalFixpoint | lab4-campus-cafe/script.js:15-18 | an answer with no edge whitespace and no upper case normalises to itself |
| CafeInput.NormalizeIdempotent | lab4-campus-cafe/script.js:15-18 | normalising twice gives the same as normalising once |
| CafeInput.NameIsNormal | lab4-campus-cafe/script.js:15-23 | the three menu names pass through the normaliser unchanged |
| CafeInput.NormalizeExample | lab4-campus-cafe/script.js:15-23 | "  Coffee\n" normalises to "coffee", which is a valid type |
| CafeInput.IsValidType | lab4-campus-cafe/script.js:21-23 | every accepted name is already in normal form (no edge whitespace, no upper case) and 5 to 8 characters long |
| CafeInput.ParseItem | lab4-campus-cafe/script.js:21-23 | a name denotes an item exactly when isValidType accepts it, and then the item's name is that name |
| CafeInput.ValidTypeIsMenuName | lab4-campus-cafe/script.js:21-23 | isValidType holds exactly for "coffee", "sandwich" and "salad", the names of the menu items |
| CafeInput.ParseName | lab4-campus-cafe/script.js:21-23 | every item's name is valid and reads back as that item |
| CafeInput.IsInteger | lab4-campus-cafe/script.js:124 | only a finite number can be an integer, so NaN and the infinities are rejected |
| CafeInput.Validate | lab4-campus-cafe/script.js:117-127 | an invalid type fails with InvalidItemType before the quantity is looked at; a valid type with a quantity that is not an integer from 1 to 10 fails with InvalidQuantity; otherwise the order carries the named item and that quantity |
| Pricing.Price | lab4-campus-cafe/script.js:2 | every menu price is positive, below ten dollars and a whole number of quarters |
| Pricing.ProcessQuote | lab4-campus-cafe/script.js:37-50 | unit price from the table, subtotal = unit price × quantity, student discount a tenth of the subtotal exactly for students, eco fee 1.00 exactly for coffee with an eco cup, bulk discount 2.00 exactly from quantity 6, tax a twentieth of the taxable amount, total = taxable × 1.05 |
| Pricing.TotalClosedForm | lab4-campus-cafe/script.js:2-7 | the total equals a closed form built from the literal prices 3.25 / 8.50 / 7.25, the 90% student factor, the $1 eco fee, the $2 bulk deal and 5% tax |
| Pricing.BulkIgnoresItem | lab4-campus-cafe/script.js:43 | the bulk discount is the same for any item and any flags at a given quantity |
| Pricing.EcoFlagIgnoredOffCoffee | lab4-campus-cafe/script.js:42 | for sandwich and salad the eco-cup flag changes nothing in the breakdown |
| Pricing.EcoCupCost | lab4-campus-cafe/script.js:42-47 | on coffee the eco cup raises the total by exactly 1.05 |
| Pricing.StudentSaving | lab4-campus-cafe/script.js:41-47 | the student total is lower by exactly 10.5% of price × quantity |
| Pricing.PositiveForValidQuantity | lab4-campus-cafe/script.js:37-50 | for quantities 1 to 10 the taxable amount and the tax are positive and the tax is below the total |
| Pricing.NegativePropagates | lab4-campus-cafe/script.js:45-47 | no clamping: salad at quantity -1 totals -7.6125 |
| Pricing.WorkedExamples | lab4-campus-cafe/script.js:37-50 | coffee ×6, student, eco cup gives 3.25 / 19.50 / 1.95 / 1.00 / 2.00 / 0.8275 / 17.3775; salad ×3 gives 7.25 / 21.75 / 0 / 0 / 0 / 1.0875 / 22.8375 |
| Icons.Glyph | lab4-campus-cafe/script.js:27 | each item has a non-empty glyph |
| Icons.IconCount | lab4-campus-cafe/script.js:28-30 | the loop runs the quantity many times, at most 10, and not at all for a quantity of 0 or less |
| Icons.RepeatCopies | lab4-campus-cafe/script.js:29-32 | n copies of g have length n·\|g\| and hold g's character j mod \|g\| at position j |
| Icons.IconsFor | lab4-campus-cafe/script.js:26-34 | the loop's line is the glyph repeated IconCount(qty) times: length IconCount(qty)·\|glyph\|, and position j holds glyph character j mod \|glyph\| |
| Receipt.StudentText | lab4-campus-cafe/script.js:55 | "Yes" exactly for students, "No" otherwise |
| Receipt.EcoText | lab4-campus-cafe/script.js:56 | "N/A" exactly for non-coffee items; for coffee "Yes" or "No" following the eco-cup flag |
| Receipt.Digits | lab4-campus-cafe/script.js:62 | the decimal digits of n read back as n, with no leading zero except for 0 itself |
| Receipt.IntText | lab4-campus-cafe/script.js:62 | an integer prints as its decimal digits, preceded by a minus sign exactly when it is negative, with no leading zero |
| Receipt.Heading | lab4-campus-cafe/script.js:58-62 | five lines: the title "CAMPUS CAFÉ RECEIPT", a blank line, "Item: " with the item's name, and a single money line, the unit price captioned "Unit price: " |
| Receipt.Choices | lab4-campus-cafe/script.js:63-66 | four lines with no amounts: a blank line, the two answer lines, and a blank line |
| Receipt.Sums | lab4-campus-cafe/script.js:67-73 | seven lines, the sixth blank, whose money lines are, in order, "Subtotal: ", "Student -10%: -", "Eco cup fee: ", "Bulk deal: -", "Tax (5%): " and "TOTAL: ", each with its own amount from the breakdown |
| Receipt.BuildReceipt | lab4-campus-cafe/script.js:53-75 | sixteen lines: the title first, "Item: " with the item's name third, blank lines at positions 1, 5, 8 and 14, and money lines that read top to bottom as MoneyLines: each caption of the template (the two discounts with their "-" sign) paired with the unit price, subtotal, student discount, eco fee, bulk discount, tax and total |
| Receipt.ReceiptAnswers | lab4-campus-cafe/script.js:55-65 | lines 6 and 7 are "Student discount: " and "Eco cup add-on: " followed by the answer texts; the student line reads Yes exactly for students and No otherwise; the eco line reads N/A exactly off coffee, Yes exactly for coffee with an eco cup, and No exactly for coffee without one |
| Receipt.ChoiceTexts | lab4-campus-cafe/script.js:55-65 | in the answer block the two lines are "Student discount: " and "Eco cup add-on: " followed by the answer texts; the student line reads Yes exactly for students and No otherwise; the eco line reads N/A exactly off coffee, Yes exactly for coffee with an eco cup, and No exactly for coffee without one |
| Receipt.ReceiptChoiceLines | lab4-campus-cafe/script.js:58-65 | the receipt's lines 6 and 7 are the two answer lines of the choices block |
| Receipt.ReceiptIcons | lab4-campus-cafe/script.js:54-62 | the quantity line ends with the icon line, which holds IconCount(qty) glyphs, at most ten |
| Receipt.ReceiptIgnoresEcoOffCoffee | lab4-campus-cafe/script.js:56 | for sandwich and salad the receipt is the same whatever the eco-cup flag |
| Receipt.Render | lab4-campus-cafe/script.js:58-74 | a non-empty receipt renders to text that ends in a newline |
| Receipt.RenderOne | lab4-campus-cafe/script.js:58-74 | one line renders as its text followed by a newline |
| Receipt.RenderSnoc | lab4-campus-cafe/script.js:58-74 | appending a line to a receipt appends its text and a newline to the rendering |
| Receipt.RenderAppend | lab4-campus-cafe/script.js:58-74 | rendering two blocks of lines one after the other is rendering them separately and concatenating the texts |
| QuoteFlow.HandleQuote | lab4-campus-cafe/script.js:113-139 | a cancelled item prompt or an unknown item fails with InvalidItemType; a bad quantity for a valid item fails with InvalidQuantity; on success the result is buildReceipt of the validated item, the integer quantity, the student answer, the eco answer (forced to No off coffee) and processQuote of those same values, so its captioned amounts are the quote's, its item line names the normalised item, its answer lines repeat the answers given, and the eco fee is charged exactly when the item is coffee and the eco answer is yes |
| QuoteFlow.CoffeeOrderExample | lab4-campus-cafe/script.js:113-139 | "  Coffee\n", 6, student, eco cup gives the receipt of the coffee worked example |
| QuoteFlow.FractionRejected | lab4-campus-cafe/script.js:123-127 | salad with quantity 2.5 fails with InvalidQuantity |
| QuoteFlow.UnknownItemRejected | lab4-campus-cafe/script.js:117-121 | "tea" fails with InvalidItemType |

## Left out

- `showError`, `resetUI`, `main` and the button wiring write to the page. They are browser plumbing, and only the decisions they make are modelled (in `HandleQuote`).
- `loadWeather` fetches and parses a weather report over the network. It is I/O with no logic of its own.
- `prompt` and `confirm` are host I/O. Their answers are parameters of `HandleQuote`. A cancelled prompt is `None`.
- `Number(...)` coercion from text to a number is host behaviour. The model starts from its outcome, `Num`: a finite value, or `NonFinite` for NaN and the infinities.
- `money` / `toFixed(2)` is not modelled. It formats binary floating-point values to two decimals. The receipt keeps each amount exact, and `Render` takes the formatter as a parameter.
- Binary floating-point arithmetic is replaced by exact rationals. For example, the model's tax of 0.8275 is exact, where the host computes a nearby double.
- `Glyph` holds the source's own code points (U+2615, U+1F96A and U+1F957) as one character each. The host counts string length in UTF-16 units, so two of the three glyphs have length 2 there; the model counts characters.
- JsText.LowerChar: maps only A–Z to a–z. Full Unicode case mapping is not modelled, so the `NoUpper` guarantee of `CafeInput.NormalizeType` is about A–Z only. None of the three menu names depends on it.
- JsText.Lower: lowers character by character with `LowerChar`, so mappings that change a string's length are not modelled either.
- IntText renders integers in plain decimal. Exponent notation, which the host uses only from 1e21 on, is not modelled.
