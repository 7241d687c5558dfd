/**
 * Tab geometry: every tab gets the same fixed width, computed from the width of the
 * strip (the RecyclerView parent), the number of pages, and the number of tabs that
 * should be visible at once.
 */
module TabGeometry {
  import opened Wrappers
  import opened JavaLang

  /** `ViewGroup.LayoutParams.MATCH_PARENT`. */
  const MATCH_PARENT: int32 := -1

  /** The layout parameters given to a tab view. */
  datatype LayoutParams = LayoutParams(width: int32, height: int32)

  function Min(x: int, y: int): int {
    if x <= y then x else y
  }

  /**
   * `createLayoutParamsForTabs`: when there are more pages than visible tabs, a tab is
   * `parentWidth / tabVisibleCount` wide, otherwise `parentWidth / itemCount`; the
   * height always matches the parent. A zero divisor throws, as Java's `/` does.
   */
  function CreateLayoutParamsForTabs(parentWidth: int32, itemCount: int32, tabVisibleCount: int32)
    : (r: Result<LayoutParams, Exception>)
    ensures r.Success? ==> r.value.height == MATCH_PARENT
    ensures r.Failure? ==> r.error == ArithmeticException("/ by zero")
  {
    if itemCount > tabVisibleCount then
      if tabVisibleCount == 0 then Failure(ArithmeticException("/ by zero"))
      else Success(LayoutParams(Div(parentWidth, tabVisibleCount), MATCH_PARENT))
    else
      if itemCount == 0 then Failure(ArithmeticException("/ by zero"))
      else Success(LayoutParams(Div(parentWidth, itemCount), MATCH_PARENT))
  }

  /**
   * The two branches of the width rule, and the single divisor they amount to:
   * the width is always the parent width divided by min(itemCount, tabVisibleCount),
   * and the computation throws exactly when that minimum is zero.
   */
  lemma WidthRule(parentWidth: int32, itemCount: int32, tabVisibleCount: int32)
    ensures var r := CreateLayoutParamsForTabs(parentWidth, itemCount, tabVisibleCount);
      && (itemCount > tabVisibleCount && tabVisibleCount != 0 ==>
            r == Success(LayoutParams(Div(parentWidth, tabVisibleCount), MATCH_PARENT)))
      && (itemCount <= tabVisibleCount && itemCount != 0 ==>
            r == Success(LayoutParams(Div(parentWidth, itemCount), MATCH_PARENT)))
      && (r.Failure? <==> Min(itemCount, tabVisibleCount) == 0)
      && (r.Success? ==> r.value.width == Div(parentWidth, Min(itemCount, tabVisibleCount) as int32))
  {
  }

  /**
   * For a laid-out parent (width >= 0) and positive counts, the `min(itemCount,
   * tabVisibleCount)` tabs that must fit do fit: their total width is at most the parent
   * width, and less than one pixel per tab is lost to rounding.
   */
  lemma TabsFillParent(parentWidth: int32, itemCount: int32, tabVisibleCount: int32)
    requires parentWidth >= 0 && itemCount >= 1 && tabVisibleCount >= 1
    ensures var r := CreateLayoutParamsForTabs(parentWidth, itemCount, tabVisibleCount);
      var d := Min(itemCount, tabVisibleCount);
      && r.Success?
      && r.value.width >= 0
      && r.value.width * d <= parentWidth < (r.value.width + 1) * d
  {
    var d := Min(itemCount, tabVisibleCount) as int32;
    var r := CreateLayoutParamsForTabs(parentWidth, itemCount, tabVisibleCount);
    assert r == Success(LayoutParams(Div(parentWidth, d), MATCH_PARENT));
    DivNonNegative(parentWidth, d);
  }

  /** For every Java `int` input, the width has the magnitude and sign of a quotient rounded toward zero. */
  lemma WidthRoundsTowardZero(parentWidth: int32, itemCount: int32, tabVisibleCount: int32)
    requires Min(itemCount, tabVisibleCount) != 0
    requires !(parentWidth == MIN_INT && Min(itemCount, tabVisibleCount) == -1)
    ensures var r := CreateLayoutParamsForTabs(parentWidth, itemCount, tabVisibleCount);
      var d := Min(itemCount, tabVisibleCount);
      && r.Success?
      && Abs(r.value.width * d) <= Abs(parentWidth) < Abs(r.value.width * d) + Abs(d)
      && (parentWidth >= 0 ==> r.value.width * d >= 0)
      && (parentWidth <= 0 ==> r.value.width * d <= 0)
  {
    WidthRule(parentWidth, itemCount, tabVisibleCount);
    TruncDivRoundsTowardZero(parentWidth, Min(itemCount, tabVisibleCount));
  }

  /** Sample layouts: 800 px over 3 pages and over 6 pages with 4 tabs visible, and a pager with no pages. */
  lemma WorkedExamples()
    ensures CreateLayoutParamsForTabs(800, 3, 4) == Success(LayoutParams(266, MATCH_PARENT))
    ensures CreateLayoutParamsForTabs(800, 6, 4) == Success(LayoutParams(200, MATCH_PARENT))
    ensures CreateLayoutParamsForTabs(800, 0, 4) == Failure(ArithmeticException("/ by zero"))
  {
  }
}
