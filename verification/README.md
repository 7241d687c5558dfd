# FunTabLayout `SimpleTabAdapter` in Dafny

A model of the adapter behind FunTabLayout's simple text tab strip. The strip is a
RecyclerView with one text tab per ViewPager page. The model covers:

- the rule that fixes every tab's width from the strip width, the page count and the
  number of tabs meant to be visible at once (with Java's rounding-toward-zero `int`
  division and its divide-by-zero exception written out);
- the selected flag a tab gets when it is bound, and the tap rule that forwards
  `setCurrentItem(position, true)` to the ViewPager;
- the two-state text colour list (selected state first, empty state second) and the
  first-match lookup that picks a tab's text colour from it;
- the builder: optional settings, the null-ViewPager check in `build()`, and the
  constructor's "builder value if set, else default" rule.

Files: `wrappers.dfy` (Option, Result), `java_lang.dfy` (Java `int`, `/`, exceptions),
`tab_geometry.dfy`, `color_states.dfy`, `selection.dfy`, and `simple_tab_adapter.dfy`
(the classes `ViewPager`, `TabView`, `ViewHolder`, `SimpleTabAdapter`, `Builder`).

The pure rules are functions with lemmas. The parts of the source that change objects
are class methods that state the new state: the builder setters, the constructor, the
holder's click listener and binding. `createColorStateList` is a method that fills two
arrays.

## Model

| member | source | states |
|---|---|---|
| JavaLang.Div | library/src/main/java/com/tompee/funtablayout/SimpleTabAdapter.java:105-107 | Java's `int` division: rounds toward zero, and `MIN_VALUE / -1` wraps to `MIN_VALUE`; always a 32-bit result |
| JavaLang.TruncDivRoundsTowardZero | library/src/main/java/com/tompee/funtablayout/SimpleTabAdapter.java:105-107 | the quotient times the divisor lies between 0 and the dividend and within one divisor of it |
| JavaLang.DivNonNegative | library/src/main/java/com/tompee/funtablayout/SimpleTabAdapter.java:105-107 | for a non-negative width and a positive divisor, Java division is floor division: `q*b <= a < (q+1)*b` and `q >= 0` |
| TabGeometry.CreateLayoutParamsForTabs | library/src/main/java/com/tompee/funtablayout/SimpleTabAdapter.java:101-111 | tab layout height is always MATCH_PARENT; the only failure is ArithmeticException("/ by zero") |
| TabGeometry.WidthRule | library/src/main/java/com/tompee/funtablayout/SimpleTabAdapter.java:104-108 | more pages than visible tabs: width = parent / visibleCount; otherwise parent / itemCount; throws exactly when min(itemCount, visibleCount) is 0, and the width is always parent / min(itemCount, visibleCount) |
| TabGeometry.TabsFillParent | library/src/main/java/com/tompee/funtablayout/SimpleTabAdapter.java:104-108 | for parent width >= 0 and positive counts, with d = min(itemCount, visibleCount): width*d <= parent < (width+1)*d, so d tabs never overflow the parent and lose under one pixel each |
| TabGeometry.WidthRoundsTowardZero | library/src/main/java/com/tompee/funtablayout/SimpleTabAdapter.java:103-108 | for any Java `int` inputs with a nonzero divisor (and no overflow), width*d has the sign of the parent width and lies within d of it |
| TabGeometry.WorkedExamples | library/src/main/java/com/tompee/funtablayout/SimpleTabAdapter.java:104-108 | 800 px over 3 pages with 4 visible gives 266; over 6 pages gives 200; no pages throws |
| ColorStates.CreateColorStateList | library/src/main/java/com/tompee/funtablayout/SimpleTabAdapter.java:118-127 | two entries in order: selected state to selectedColor, then empty state to defaultColor; the lookup gives selectedColor for every selected state and defaultColor for every other |
| ColorStates.TwoStateLookup | library/src/main/java/com/tompee/funtablayout/SimpleTabAdapter.java:118-127 | on that list, the first-match lookup yields selectedColor iff `state_selected` is in the view's state and defaultColor otherwise, whatever the fallback |
| ColorStates.FirstMatchAt | library/src/main/java/com/tompee/funtablayout/SimpleTabAdapter.java:126 | the list's lookup returns the colour of the first entry whose state spec matches |
| ColorStates.NoMatchGivesFallback | library/src/main/java/com/tompee/funtablayout/SimpleTabAdapter.java:126 | when no entry matches, the lookup returns the caller's fallback |
| ColorStates.SpecsOfTwoStateList | library/src/main/java/com/tompee/funtablayout/SimpleTabAdapter.java:121-124 | the empty state set matches every state; the selected state set matches exactly the states holding `state_selected` |
| Selection.IsSelected | library/src/main/java/com/tompee/funtablayout/SimpleTabAdapter.java:93 | a bound tab is selected iff its position equals the indicator position |
| Selection.TapRequest | library/src/main/java/com/tompee/funtablayout/SimpleTabAdapter.java:247-250 | a tap requests `setCurrentItem(pos, true)` iff pos != NO_POSITION, and no request otherwise |
| Selection.NoneSelected | library/src/main/java/com/tompee/funtablayout/SimpleTabAdapter.java:93 | if no bound position is the indicator position, no bound tab is selected |
| Selection.AtMostOneSelected | library/src/main/java/com/tompee/funtablayout/SimpleTabAdapter.java:93 | over tabs bound at distinct positions under the same indicator position, at most one is selected, and exactly one iff the indicator position is among them |
| SimpleTabs.ViewPager.SetCurrentItem | library/src/main/java/com/tompee/funtablayout/SimpleTabAdapter.java:249 | the pager receives exactly the request `setCurrentItem(item, smoothScroll)` |
| SimpleTabs.TabView.constructor | library/src/main/java/com/tompee/funtablayout/SimpleTabAdapter.java:71 | a new tab is unselected, untitled, and drawn in the colour its style gave it |
| SimpleTabs.TabView.GetCurrentTextColor | library/src/main/java/com/tompee/funtablayout/SimpleTabAdapter.java:85 | the text colour is the colour list's entry for the view's current drawable state |
| SimpleTabs.ViewHolder.constructor | library/src/main/java/com/tompee/funtablayout/SimpleTabAdapter.java:241-244 | the holder wraps the given tab view and starts without an adapter position |
| SimpleTabs.ViewHolder.OnClick | library/src/main/java/com/tompee/funtablayout/SimpleTabAdapter.java:244-252 | a tap appends `setCurrentItem(pos, true)` to the pager iff pos != NO_POSITION, nothing otherwise, and leaves the tab view (its selected flag included) unchanged |
| SimpleTabs.SimpleTabAdapter.constructor | library/src/main/java/com/tompee/funtablayout/SimpleTabAdapter.java:39-48 | selected text colour and indicator height are the builder's values when set and the context defaults otherwise; pager and base settings come from the builder |
| SimpleTabs.SimpleTabAdapter.GetDefaultValues | library/src/main/java/com/tompee/funtablayout/SimpleTabAdapter.java:50-62 | defaults: the theme's primary text colour (-1 when unresolved) and the indicator-height dimension |
| SimpleTabs.SimpleTabAdapter.GetTabIndicatorHeight | library/src/main/java/com/tompee/funtablayout/SimpleTabAdapter.java:64-67 | returns the stored indicator height unchanged |
| SimpleTabs.SimpleTabAdapter.GetItemCount | library/src/main/java/com/tompee/funtablayout/SimpleTabAdapter.java:96-99 | one tab per ViewPager page |
| SimpleTabs.SimpleTabAdapter.OnCreateViewHolder | library/src/main/java/com/tompee/funtablayout/SimpleTabAdapter.java:69-87 | fails exactly when the width rule throws; otherwise a fresh unbound holder whose tab has the width rule's layout and the two-state list (selected colour, styled colour) |
| SimpleTabs.SimpleTabAdapter.OnBindViewHolder | library/src/main/java/com/tompee/funtablayout/SimpleTabAdapter.java:89-94 | the tab shows the page title, is selected iff position == current indicator position, and so is drawn in the selected colour iff it is the indicator's tab |
| SimpleTabs.Builder.constructor | library/src/main/java/com/tompee/funtablayout/SimpleTabAdapter.java:139-141 | a new builder has no pager and no optional value set |
| SimpleTabs.Builder.SetViewPager | library/src/main/java/com/tompee/funtablayout/SimpleTabAdapter.java:149-152 | links (or, with null, clears) the pager and returns the same builder |
| SimpleTabs.Builder.SetTabPadding | library/src/main/java/com/tompee/funtablayout/SimpleTabAdapter.java:163-167 | records the four paddings, nothing else changes, returns the same builder |
| SimpleTabs.Builder.SetTabTextAppearance | library/src/main/java/com/tompee/funtablayout/SimpleTabAdapter.java:175-178 | records the text appearance, nothing else changes, returns the same builder |
| SimpleTabs.Builder.SetTabBackgroundResId | library/src/main/java/com/tompee/funtablayout/SimpleTabAdapter.java:187-190 | records the background resource, nothing else changes, returns the same builder |
| SimpleTabs.Builder.SetTabSelectedTextColor | library/src/main/java/com/tompee/funtablayout/SimpleTabAdapter.java:198-201 | the selected text colour becomes set to the given value, returns the same builder |
| SimpleTabs.Builder.SetTabIndicatorColor | library/src/main/java/com/tompee/funtablayout/SimpleTabAdapter.java:209-212 | records the indicator colour, nothing else changes, returns the same builder |
| SimpleTabs.Builder.SetTabIndicatorHeight | library/src/main/java/com/tompee/funtablayout/SimpleTabAdapter.java:220-223 | the indicator height becomes set to the given value, returns the same builder |
| SimpleTabs.Builder.Build | library/src/main/java/com/tompee/funtablayout/SimpleTabAdapter.java:230-235 | IllegalArgumentException iff no pager is linked; otherwise a fresh adapter on that pager whose colour and height are the builder's values when set, else the defaults |

## Left out

- `getTabVisibleCount`, `getCurrentIndicatorPosition` and `getViewPager` belong to
  `BaseAdapter`, which is not part of this model: the visible-tab count and the indicator
  position are parameters of the methods that read them.
- `BaseAdapter(builder)` and `BaseBuilder` are not part of this model: the constructor is
  taken to keep the builder's pager and the settings recorded in `BaseConfig`, and the
  base setters are modelled as recording their arguments.
- Theme and resource resolution in `getDefaultValues`: the resolved primary text colour
  and the indicator-height dimension are inputs carried by `Context`.
- The styling in `onCreateViewHolder` (padding, text appearance, gravity, the two-line
  limit, end ellipsizing, background): platform side effects. The colour the styled view
  carries before the colour list is set is an input (`styledTextColor`).
- RecyclerView recycling: which positions are bound and each holder's adapter position
  are maintained by the platform; the model only reads them.
- ViewPager behaviour: `setCurrentItem` is recorded as a request, not animated; page
  titles outside the pager's title list read as the empty text; a pager without a page
  adapter (a null dereference in the source) is not modelled.
- Colour state matching follows Android's rule (positive entries required, negative
  entries forbidden, 0 ends a spec); the other drawable states a view has are kept
  abstract in `TabView.otherStates`.
- Indicator drawing, scroll following and page-scroll listeners are not in this file and
  are not modelled; colours and dimensions are compared only for equality.
- Neither `build()` nor the width rule rejects a non-positive tab count, visible-tab
  count or indicator height. `build()` checks only the pager, and the width rule throws
  only when the divisor it picks is zero (a negative count gives a negative or zero
  width). The model does the same.
