/**
 * The text-height estimator of the eco-label tree diagram
 * (`estimateBoxHeight` inside `renderLevelSection`).
 *
 * A box's height is estimated from the number of characters in its text:
 * every glyph is taken to be `fontSize * 16` pixels wide, the usable width is
 * the box width minus the padding, the number of lines is the text length
 * divided by the characters per line, rounded up, and each line is
 * `fontSize * 16 * 1.5` pixels tall.  The padding is added back and the result
 * never drops below a 60 pixel floor.
 */
module EcoLabelText {

  /** The floor every estimated box height respects. */
  const MinBoxHeight: real := 60.0

  /** Nominal glyph advance, in pixels, at a font scale of 1. */
  const BaseCharPx: real := 16.0

  /** Line height as a multiple of the glyph advance. */
  const LineSpacing: real := 1.5

  function Max(a: real, b: real): (r: real)
    ensures r >= a && r >= b && (r == a || r == b)
  {
    if a >= b then a else b
  }

  /** `Math.ceil` on a real: the least integer not below `x`. */
  function Ceil(x: real): (r: int)
    ensures r as real >= x
    ensures r as real - 1.0 < x
  {
    var f := x.Floor;
    if f as real == x then f else f + 1
  }

  lemma CeilMonotone(x: real, y: real)
    requires x <= y
    ensures Ceil(x) <= Ceil(y)
  {
  }

  /**
   * `Math.floor((boxWidth - padding) / (fontSize * 16))`: the most glyphs whose
   * advances fit in the usable width.
   */
  function CharsPerLine(boxWidth: real, fontSize: real, padding: real): (r: int)
    requires fontSize > 0.0
    ensures r as real * (fontSize * BaseCharPx) <= boxWidth - padding
    ensures boxWidth - padding < (r + 1) as real * (fontSize * BaseCharPx)
  {
    var charWidth := fontSize * BaseCharPx;
    var q := (boxWidth - padding) / charWidth;
    var r := q.Floor;
    assert q * charWidth == boxWidth - padding;
    assert r as real * charWidth <= q * charWidth;
    var slack := (r + 1) as real - q;
    assert slack > 0.0 && charWidth > 0.0;
    assert slack * charWidth > 0.0;
    assert (r + 1) as real * charWidth - q * charWidth == slack * charWidth;
    assert boxWidth - padding < (r + 1) as real * charWidth;
    r
  }

  /**
   * `Math.ceil(length / charsPerLine)`: the number of wrapped lines is the
   * least count whose capacity holds the text.
   */
  function LineCount(length: nat, charsPerLine: int): (lines: nat)
    requires charsPerLine >= 1
    ensures lines * charsPerLine >= length
    ensures lines == 0 || (lines - 1) * charsPerLine < length
  {
    var q := length as real / charsPerLine as real;
    var c := Ceil(q);
    assert c >= 0;
    assert c as real * charsPerLine as real >= q * charsPerLine as real;
    assert q * charsPerLine as real == length as real;
    assert (c as real - 1.0) * charsPerLine as real < q * charsPerLine as real;
    c
  }

  lemma LineCountMonotone(m: nat, n: nat, charsPerLine: int)
    requires m <= n && charsPerLine >= 1
    ensures LineCount(m, charsPerLine) <= LineCount(n, charsPerLine)
  {
    CeilMonotone(m as real / charsPerLine as real, n as real / charsPerLine as real);
  }

  /** `fontSize * 16 * 1.5`: the height of one wrapped line. */
  function LineHeight(fontSize: real): (r: real)
    ensures fontSize > 0.0 ==> r > 0.0
  {
    fontSize * BaseCharPx * LineSpacing
  }

  /** The part of the estimator after the lines are counted: lines, plus padding, never below the floor. */
  function WrappedHeight(lines: nat, lineHeight: real, padding: real): (h: real)
    ensures h >= MinBoxHeight
    ensures h >= lines as real * lineHeight + padding
    ensures h == MinBoxHeight || h == lines as real * lineHeight + padding
  {
    var contentHeight := lines as real * lineHeight;
    Max(contentHeight + padding, MinBoxHeight)
  }

  /**
   * `estimateBoxHeight(text, boxWidth, fontSize, padding)`.  The source does
   * not clamp `charsPerLine`; both of its call sites give a positive value,
   * which the caller must establish.
   */
  function EstimateBoxHeight(text: string, boxWidth: real, fontSize: real, padding: real): (h: real)
    requires fontSize > 0.0
    requires CharsPerLine(boxWidth, fontSize, padding) >= 1
    ensures h >= MinBoxHeight
    ensures h >= LineCount(|text|, CharsPerLine(boxWidth, fontSize, padding)) as real
                 * LineHeight(fontSize) + padding
    ensures h == MinBoxHeight
         || h == LineCount(|text|, CharsPerLine(boxWidth, fontSize, padding)) as real
                 * LineHeight(fontSize) + padding
  {
    var charsPerLine := CharsPerLine(boxWidth, fontSize, padding);
    WrappedHeight(LineCount(|text|, charsPerLine), LineHeight(fontSize), padding)
  }

  /** More lines never make a shorter box, floor or not. */
  lemma WrappedMonotone(lm: nat, ln: nat, lineHeight: real, padding: real)
    requires lm <= ln && lineHeight >= 0.0
    ensures WrappedHeight(lm, lineHeight, padding) <= WrappedHeight(ln, lineHeight, padding)
  {
    ScaleMonotone(lm as real, ln as real, lineHeight);
  }

  /** For a fixed box, a longer text never gets a shorter box. */
  lemma EstimateMonotone(s: string, t: string, boxWidth: real, fontSize: real, padding: real)
    requires fontSize > 0.0
    requires CharsPerLine(boxWidth, fontSize, padding) >= 1
    requires |s| <= |t|
    ensures EstimateBoxHeight(s, boxWidth, fontSize, padding)
         <= EstimateBoxHeight(t, boxWidth, fontSize, padding)
  {
    var c := CharsPerLine(boxWidth, fontSize, padding);
    LineCountMonotone(|s|, |t|, c);
    WrappedMonotone(LineCount(|s|, c), LineCount(|t|, c), LineHeight(fontSize), padding);
  }

  lemma ScaleMonotone(a: real, b: real, k: real)
    requires a <= b && k >= 0.0
    ensures a * k <= b * k
  {
    assert b * k - a * k == (b - a) * k;
  }

  // The two call sites of the estimator in the diagram.

  const ItemBoxWidth: real := 280.0
  const ItemFontSize: real := 0.9
  const ConditionBoxWidth: real := 350.0
  const ConditionFontSize: real := 0.85
  const BoxPadding: real := 32.0

  /** An item box is 280 px wide at font scale 0.9: 248 / 14.4 gives 17 characters a line. */
  lemma ItemCharsPerLine()
    ensures CharsPerLine(ItemBoxWidth, ItemFontSize, BoxPadding) == 17
  {
  }

  /** A condition box is 350 px wide at font scale 0.85: 318 / 13.6 gives 23 characters a line. */
  lemma ConditionCharsPerLine()
    ensures CharsPerLine(ConditionBoxWidth, ConditionFontSize, BoxPadding) == 23
  {
  }

  /** Height of the box holding a category (item) name. */
  function ItemBoxHeight(name: string): (h: real)
    ensures h >= MinBoxHeight
    ensures h == Max(LineCount(|name|, 17) as real * 21.6 + BoxPadding, MinBoxHeight)
  {
    ItemCharsPerLine();
    EstimateBoxHeight(name, ItemBoxWidth, ItemFontSize, BoxPadding)
  }

  /** Height of the box holding a condition (leaf) text. */
  function ConditionBoxHeight(text: string): (h: real)
    ensures h >= MinBoxHeight
    ensures h == Max(LineCount(|text|, 23) as real * 20.4 + BoxPadding, MinBoxHeight)
  {
    ConditionCharsPerLine();
    EstimateBoxHeight(text, ConditionBoxWidth, ConditionFontSize, BoxPadding)
  }
}
