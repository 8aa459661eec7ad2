/** Choosing the image a product card shows: its own URL, or one of three placeholders. */
module ProductImage {
  import opened Text
  import opened Sums

  const Placeholders: seq<string> := [
    "/assets/generated/vuurix-product-placeholder.dim_800x800.png",
    "/assets/generated/vuurix-product-placeholder-2.dim_800x800.png",
    "/assets/generated/vuurix-product-placeholder-3.dim_800x800.png"
  ]

  /**
   * The UTF-16 code units of one character, as JavaScript stores it: one unit
   * below U+10000, otherwise a high and a low surrogate.
   */
  function Utf16(c: char): (units: seq<int>)
    ensures |units| == 1 || |units| == 2
    ensures forall k :: 0 <= k < |units| ==> 0 <= units[k] < 0x1_0000
    ensures |units| == 1 <==> (c as int) < 0x1_0000
    ensures |units| == 1 ==> units[0] == c as int
    ensures |units| == 2 ==> 0xD800 <= units[0] < 0xDC00 && 0xDC00 <= units[1] < 0xE000
    ensures |units| == 2 ==> 0x1_0000 + (units[0] - 0xD800) * 0x400 + (units[1] - 0xDC00) == c as int
  {
    var v := c as int;
    if v < 0x1_0000 then [v]
    else [0xD800 + (v - 0x1_0000) / 0x400, 0xDC00 + (v - 0x1_0000) % 0x400]
  }

  /** The code units of a string (`s.split('')` yields one string per unit). */
  function CodeUnits(s: string): (units: seq<int>)
    ensures |units| >= |s|
    ensures forall k :: 0 <= k < |units| ==> 0 <= units[k] < 0x1_0000
    decreases |s|
  {
    if |s| == 0 then [] else Utf16(s[0]) + CodeUnits(s[1..])
  }

  lemma {:induction false} CodeUnitsConcat(a: string, b: string)
    ensures CodeUnits(a + b) == CodeUnits(a) + CodeUnits(b)
    decreases |a|
  {
    if |a| == 0 {
      assert a + b == b;
    } else {
      assert (a + b)[0] == a[0];
      assert (a + b)[1..] == a[1..] + b;
      CodeUnitsConcat(a[1..], b);
    }
  }

  /** `alt.split('').reduce((acc, ch) => acc + ch.charCodeAt(0), 0)`. */
  function Hash(alt: string): (h: int)
    ensures h >= 0
    ensures alt == "" ==> h == 0
  {
    SumOfNonNegative(CodeUnits(alt));
    SumOf(CodeUnits(alt))
  }

  /** The hash only adds per-unit codes, so the order of the two parts does not matter. */
  lemma HashSwap(a: string, b: string)
    ensures Hash(a + b) == Hash(b + a)
  {
    CodeUnitsConcat(a, b);
    CodeUnitsConcat(b, a);
    SumOfConcat(CodeUnits(a), CodeUnits(b));
    SumOfConcat(CodeUnits(b), CodeUnits(a));
  }

  /** The placeholder chosen for a name: hash modulo the number of placeholders. */
  function PlaceholderIndex(alt: string): (i: int)
    ensures 0 <= i < |Placeholders|
  {
    Hash(alt) % |Placeholders|
  }

  /** An image URL counts as missing when it is empty or only whitespace. */
  predicate Blank(imageUrl: string) {
    Trim(imageUrl) == ""
  }

  /** The `src` of the product image. */
  function GetPlaceholder(imageUrl: string, alt: string): (src: string)
    ensures !Blank(imageUrl) ==> src == imageUrl
    ensures Blank(imageUrl) ==> src in Placeholders
    ensures Blank(imageUrl) ==> src == Placeholders[Hash(alt) % 3]
  {
    if Blank(imageUrl) then Placeholders[PlaceholderIndex(alt)] else imageUrl
  }

  /** A whitespace-only URL, not just the empty one, gets a placeholder. */
  lemma WhitespaceUrlIsBlank(imageUrl: string)
    requires forall k :: 0 <= k < |imageUrl| ==> IsWhitespace(imageUrl[k])
    ensures Blank(imageUrl)
  {
  }
}
