/** The product page: the variant guard before adding to the cart, and the quantity stepper. */
module ProductDetail {
  import opened Wrappers
  import opened Backend
  import opened Cart

  /** What pressing "Add to Cart" does. */
  datatype AddToCartDecision =
    | NoProduct
    | SizeRequired
    | ColorRequired
    | AddLine(size: Option<string>, color: Option<string>)

  /** `selection || undefined`: the empty selection is passed as absent. */
  function Selection(s: string): Option<string>
  {
    if s == "" then None else Some(s)
  }

  /**
   * The guards of the add-to-cart handler, in their order: a loaded product,
   * then a size if the product has sizes, then a color if it has colors.
   */
  function DecideAddToCart(product: Option<Product>, selectedSize: string, selectedColor: string): (d: AddToCartDecision)
    ensures product.None? <==> d == NoProduct
    ensures d == SizeRequired <==> product.Some? && |product.value.sizes| > 0 && selectedSize == ""
    ensures d == ColorRequired <==> product.Some? && !(|product.value.sizes| > 0 && selectedSize == "")
                                    && |product.value.colors| > 0 && selectedColor == ""
    ensures d.AddLine? <==> product.Some? && (|product.value.sizes| > 0 ==> selectedSize != "")
                                         && (|product.value.colors| > 0 ==> selectedColor != "")
    ensures d.AddLine? ==> d.size == Selection(selectedSize) && d.color == Selection(selectedColor)
    ensures d.AddLine? ==> d.size != Some("") && d.color != Some("")
    ensures d.AddLine? && |product.value.sizes| > 0 ==> d.size == Some(selectedSize)
    ensures d.AddLine? && |product.value.colors| > 0 ==> d.color == Some(selectedColor)
  {
    match product
    case None => NoProduct
    case Some(p) =>
      if |p.sizes| > 0 && selectedSize == "" then SizeRequired
      else if |p.colors| > 0 && selectedColor == "" then ColorRequired
      else AddLine(Selection(selectedSize), Selection(selectedColor))
  }

  /** The add-to-cart handler: adds the chosen quantity only when the guards pass. */
  method HandleAddToCart(cart: CartStore, product: Option<Product>, selectedSize: string,
                         selectedColor: string, quantity: int) returns (d: AddToCartDecision)
    modifies cart
    ensures d == DecideAddToCart(product, selectedSize, selectedColor)
    ensures d.AddLine? ==> cart.items == AfterAdd(old(cart.items), product.value, quantity, d.size, d.color)
    ensures !d.AddLine? ==> cart.items == old(cart.items)
  {
    d := DecideAddToCart(product, selectedSize, selectedColor);
    if d.AddLine? {
      cart.AddItem(product.value, quantity, d.size, d.color);
    }
  }

  // ---------------------------------------------------------------------------
  // The quantity stepper

  const MinQuantity: int := 1
  const MaxQuantity: int := 99

  /** The "-" button: `Math.max(1, quantity - 1)`. */
  function Decrement(quantity: int): (q: int)
    ensures q >= MinQuantity
    ensures q == MinQuantity || q == quantity - 1
    ensures quantity > MinQuantity ==> q == quantity - 1
    ensures quantity <= MinQuantity ==> q == MinQuantity
    ensures MinQuantity <= quantity <= MaxQuantity ==> MinQuantity <= q <= MaxQuantity
  {
    if quantity - 1 > 1 then quantity - 1 else 1
  }

  /** The "+" button: `Math.min(99, quantity + 1)`. */
  function Increment(quantity: int): (q: int)
    ensures q <= MaxQuantity
    ensures q == MaxQuantity || q == quantity + 1
    ensures quantity < MaxQuantity ==> q == quantity + 1
    ensures quantity >= MaxQuantity ==> q == MaxQuantity
    ensures MinQuantity <= quantity <= MaxQuantity ==> MinQuantity <= q <= MaxQuantity
  {
    if quantity + 1 < 99 then quantity + 1 else 99
  }

  datatype Step = Minus | Plus

  /** The quantity after pressing the buttons in order, starting from `start`. */
  function QuantityAfter(start: int, steps: seq<Step>): int
    decreases |steps|
  {
    if |steps| == 0 then start
    else
      var next := if steps[0] == Minus then Decrement(start) else Increment(start);
      QuantityAfter(next, steps[1..])
  }

  /** From the initial quantity 1, no sequence of presses leaves 1..99. */
  lemma {:induction false} QuantityStaysInRange(start: int, steps: seq<Step>)
    requires MinQuantity <= start <= MaxQuantity
    ensures MinQuantity <= QuantityAfter(start, steps) <= MaxQuantity
    decreases |steps|
  {
    if |steps| > 0 {
      var next := if steps[0] == Minus then Decrement(start) else Increment(start);
      QuantityStaysInRange(next, steps[1..]);
    }
  }
}
