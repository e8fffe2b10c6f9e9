/** iconsFor: the line of item glyphs shown next to the quantity on the receipt. */
module Icons {
  import opened CafeInput

  /** The glyph drawn for each item; its characters are immaterial to the model. */
  function Glyph(item: Item): (g: string)
    ensures |g| > 0
  {
    match item
    case Coffee => "\U{2615}"
    case Sandwich => "\U{1F96A}"
    case Salad => "\U{1F957}"
  }

  /** The most glyphs one line shows. */
  const IconCap: int := 10

  /** How many glyphs the line shows for a quantity: the quantity, at most ten, never below zero. */
  function IconCount(qty: int): (n: nat)
    ensures n <= IconCap
    ensures 0 <= qty <= IconCap ==> n == qty
    ensures qty > IconCap ==> n == IconCap
    ensures qty <= 0 ==> n == 0
  {
    if qty <= 0 then 0 else if qty < IconCap then qty else IconCap
  }

  /** n copies of g, one after another. */
  function Repeat(g: string, n: nat): string {
    if n == 0 then "" else Repeat(g, n - 1) + g
  }

  /** Position j of the n-fold repetition holds character j mod |g| of g, and nothing else is there. */
  lemma {:induction false} RepeatCopies(g: string, n: nat)
    requires |g| > 0
    ensures |Repeat(g, n)| == n * |g|
    ensures forall j :: 0 <= j < |Repeat(g, n)| ==> Repeat(g, n)[j] == g[j % |g|]
  {
    if n > 0 {
      RepeatCopies(g, n - 1);
      var p, m := Repeat(g, n - 1), |g|;
      assert |p| == (n - 1) * m;
      forall j | 0 <= j < |p| + m ensures (p + g)[j] == g[j % m] {
        if j >= |p| {
          ModUnique(j, n - 1, m, j - |p|);
        }
      }
    }
  }

  /** The remainder modulo m of d * m + r is r, for 0 <= r < m. */
  lemma ModUnique(y: int, d: int, m: int, r: int)
    requires m > 0 && 0 <= r < m && y == d * m + r
    ensures y % m == r
  {
    var d', r' := y / m, y % m;
    assert (d - d') * m == r' - r;
    if d - d' >= 1 {
      MulAtLeast(d - d', m);
    } else if d' - d >= 1 {
      MulAtLeast(d' - d, m);
    }
  }

  lemma {:induction false} MulAtLeast(k: int, m: int)
    requires k >= 1 && m > 0
    ensures k * m >= m
  {
    if k > 1 {
      MulAtLeast(k - 1, m);
      assert k * m == (k - 1) * m + m;
    }
  }

  /** The icon line as a value: the item's glyph, IconCount(qty) times. */
  function IconLine(item: Item, qty: int): string {
    Repeat(Glyph(item), IconCount(qty))
  }

  /** iconsFor: appends the glyph once per step, up to min(qty, 10) steps. */
  method IconsFor(item: Item, qty: int) returns (line: string)
    ensures line == IconLine(item, qty)
    ensures |line| == IconCount(qty) * |Glyph(item)|
    ensures forall j :: 0 <= j < |line| ==> line[j] == Glyph(item)[j % |Glyph(item)|]
  {
    var g := Glyph(item);
    var cap := if qty < IconCap then qty else IconCap;
    line := "";
    var i := 0;
    while i < cap
      invariant 0 <= i && (i <= cap || i == 0)
      invariant line == Repeat(g, i)
    {
      line := line + g;
      i := i + 1;
    }
    RepeatCopies(g, i);
  }
}
