/**
 * `SimpleTabAdapter`: the RecyclerView adapter that shows one text tab per ViewPager
 * page, with its builder, its view holder and the tab text view. The ViewPager, the
 * Android context and the view's drawable-state machinery are collaborators; only the
 * state this adapter reads or writes is kept.
 */
module SimpleTabs {
  import opened Wrappers
  import opened JavaLang
  import opened TabGeometry
  import opened ColorStates
  import opened Selection

  /**
   * What the Android context supplies: the colour the theme's `textColorPrimary`
   * attribute resolves to (None when it does not resolve), and the pixel size of the
   * `tabIndicatorHeight` dimension resource.
   */
  datatype Context = Context(themeTextColorPrimary: Option<int32>, tabIndicatorHeightDimen: int32)

  /** The default selected text colour: `getColor(0, -1)` on the resolved theme attribute. */
  function DefaultSelectedTextColor(context: Context): int32 {
    context.themeTextColorPrimary.GetOr(-1)
  }

  /** The default indicator height: the `tabIndicatorHeight` dimension. */
  function DefaultIndicatorHeight(context: Context): int32 {
    context.tabIndicatorHeightDimen
  }

  datatype Padding = Padding(start: int32, top: int32, end: int32, bottom: int32)

  /**
   * The settings the builder hands on to the base builder and base adapter, each None
   * until its setter is called.
   */
  datatype BaseConfig = BaseConfig(
    tabPadding: Option<Padding>,
    tabTextAppearance: Option<int32>,
    tabBackgroundResId: Option<int32>,
    tabIndicatorColor: Option<int32>)

  const UNSET_BASE_CONFIG := BaseConfig(None, None, None, None)

  /** The ViewPager, as far as the adapter uses it: its page adapter's count and titles, and the navigation requests it received. */
  class ViewPager {
    var count: int32
    var titles: seq<string>
    var navigations: seq<Navigation>

    /** `getAdapter().getPageTitle(position)`; positions without a title read as the empty text. */
    function PageTitle(position: int32): string
      reads this
    {
      if 0 <= position < |titles| then titles[position] else ""
    }

    /** `setCurrentItem(item, smoothScroll)`: recorded, its effect on the pages is the pager's business. */
    method SetCurrentItem(item: int32, smoothScroll: bool)
      modifies this`navigations
      ensures navigations == old(navigations) + [Navigation.SetCurrentItem(item, smoothScroll)]
    {
      navigations := navigations + [Navigation.SetCurrentItem(item, smoothScroll)];
    }
  }

  /** `TabTextView`: a text view carrying a title, a selected flag, a layout and a colour state list. */
  class TabView {
    var text: string
    var selected: bool
    var layoutParams: LayoutParams
    var textColors: ColorStateList
    /** The drawable states other than `state_selected` (enabled, pressed, ...), kept by the platform. */
    var otherStates: set<int32>

    ghost predicate Valid()
      reads this
    {
      textColors.Valid()
    }

    /** The view's drawable state: it holds `state_selected` exactly when the view is selected. */
    function DrawableState(): set<int32>
      reads this
    {
      if selected then otherStates + {STATE_SELECTED} else otherStates - {STATE_SELECTED}
    }

    /** The colour the text is drawn in: the colour list's entry for the current drawable state. */
    function CurrentTextColor(): int32
      reads this
      requires Valid()
    {
      ColorForState(textColors, DrawableState(), 0)
    }

    /**
     * A new tab view, not selected, without a title, whose text colour after the
     * text appearance has been applied is `styledTextColor`.
     */
    constructor (styledTextColor: int32)
      ensures Valid()
      ensures text == "" && !selected && otherStates == {}
      ensures CurrentTextColor() == styledTextColor
    {
      text := "";
      selected := false;
      layoutParams := LayoutParams(0, 0);
      textColors := ColorStateList([EMPTY_STATE_SET], [styledTextColor]);
      otherStates := {};
      new;
      FirstMatchAt(textColors.stateSpecs, textColors.colors, DrawableState(), 0, 0);
    }

    method GetCurrentTextColor() returns (color: int32)
      requires Valid()
      ensures color == CurrentTextColor()
    {
      color := ColorForState(textColors, DrawableState(), 0);
    }

    method SetText(title: string)
      modifies this`text
      ensures text == title
    {
      text := title;
    }

    method SetSelected(value: bool)
      modifies this`selected
      ensures selected == value
    {
      selected := value;
    }

    method SetLayoutParams(params: LayoutParams)
      modifies this`layoutParams
      ensures layoutParams == params
    {
      layoutParams := params;
    }

    method SetTextColor(colors: ColorStateList)
      requires colors.Valid()
      modifies this`textColors
      ensures textColors == colors && Valid()
    {
      textColors := colors;
    }
  }

  /** A RecyclerView view holder wrapping one tab view; its click listener drives the ViewPager. */
  class ViewHolder {
    const title: TabView
    const adapter: SimpleTabAdapter
    /** `getAdapterPosition()`: maintained by the RecyclerView, NO_POSITION when unbound. */
    var adapterPosition: int32

    constructor (itemView: TabView, adapter: SimpleTabAdapter)
      ensures title == itemView && this.adapter == adapter
      ensures adapterPosition == NO_POSITION
    {
      title := itemView;
      this.adapter := adapter;
      adapterPosition := NO_POSITION;
    }

    /**
     * The click listener: `setCurrentItem(position, true)` when the holder still has an
     * adapter position, nothing otherwise. The tab's own selected flag is left alone;
     * it changes only when the tab is bound again.
     */
    method OnClick()
      modifies adapter.viewPager`navigations
      ensures adapter.viewPager.navigations == old(adapter.viewPager.navigations) + Emitted(TapRequest(old(adapterPosition)))
      ensures adapterPosition != NO_POSITION ==>
        adapter.viewPager.navigations == old(adapter.viewPager.navigations) + [Navigation.SetCurrentItem(adapterPosition, true)]
      ensures adapterPosition == NO_POSITION ==> adapter.viewPager.navigations == old(adapter.viewPager.navigations)
      ensures unchanged(title)
    {
      var pos := adapterPosition;
      if pos != NO_POSITION {
        adapter.viewPager.SetCurrentItem(pos, true);
      }
    }
  }

  class SimpleTabAdapter {
    const viewPager: ViewPager
    const base: BaseConfig
    var tabSelectedTextColor: int32
    var tabIndicatorHeight: int32

    /**
     * The private constructor, reached only through `Builder.Build`: takes the defaults
     * from the context, then lets each value the builder was given override its default.
     */
    constructor (builder: Builder)
      requires builder.viewPager != null
      ensures viewPager == builder.viewPager && base == builder.base
      ensures builder.tabSelectedTextColor.Some? ==> tabSelectedTextColor == builder.tabSelectedTextColor.value
      ensures builder.tabSelectedTextColor.None? ==> tabSelectedTextColor == DefaultSelectedTextColor(builder.context)
      ensures builder.tabIndicatorHeight.Some? ==> tabIndicatorHeight == builder.tabIndicatorHeight.value
      ensures builder.tabIndicatorHeight.None? ==> tabIndicatorHeight == DefaultIndicatorHeight(builder.context)
    {
      viewPager := builder.viewPager;
      base := builder.base;
      new;
      GetDefaultValues(builder.context);
      if builder.tabSelectedTextColor.Some? {
        tabSelectedTextColor := builder.tabSelectedTextColor.value;
      }
      if builder.tabIndicatorHeight.Some? {
        tabIndicatorHeight := builder.tabIndicatorHeight.value;
      }
    }

    /** `getDefaultValues`: the theme's primary text colour and the indicator-height dimension. */
    method GetDefaultValues(context: Context)
      modifies this`tabSelectedTextColor, this`tabIndicatorHeight
      ensures tabSelectedTextColor == DefaultSelectedTextColor(context)
      ensures tabIndicatorHeight == DefaultIndicatorHeight(context)
    {
      tabSelectedTextColor := context.themeTextColorPrimary.GetOr(-1);
      tabIndicatorHeight := context.tabIndicatorHeightDimen;
    }

    /** `getTabIndicatorHeight`: the stored height, unchanged. */
    method GetTabIndicatorHeight() returns (height: int32)
      ensures height == tabIndicatorHeight
    {
      height := tabIndicatorHeight;
    }

    /** `getItemCount`: one tab per ViewPager page. */
    method GetItemCount() returns (count: int32)
      ensures count == viewPager.count
    {
      count := viewPager.count;
    }

    /**
     * `onCreateViewHolder`, for the parts that decide the tab's width and colours: the
     * layout comes from the width rule (and its division by zero propagates), and the
     * text colour list pairs the configured selected colour with the colour the styled
     * view already has.
     */
    method OnCreateViewHolder(parentWidth: int32, tabVisibleCount: int32, styledTextColor: int32)
      returns (r: Result<ViewHolder, Exception>)
      ensures var layout := CreateLayoutParamsForTabs(parentWidth, viewPager.count, tabVisibleCount);
        && (r.Failure? <==> layout.Failure?)
        && (r.Failure? ==> r.error == layout.error)
        && (r.Success? ==>
              && fresh(r.value) && fresh(r.value.title)
              && r.value.adapter == this
              && r.value.adapterPosition == NO_POSITION
              && r.value.title.Valid()
              && r.value.title.layoutParams == layout.value
              && r.value.title.text == "" && !r.value.title.selected && r.value.title.otherStates == {}
              && r.value.title.textColors.stateSpecs == [SELECTED_STATE_SET, EMPTY_STATE_SET]
              && r.value.title.textColors.colors == [tabSelectedTextColor, styledTextColor])
    {
      var itemCount := GetItemCount();
      var layout := CreateLayoutParamsForTabs(parentWidth, itemCount, tabVisibleCount);
      if layout.Failure? {
        return Failure(layout.error);
      }
      var tabTextView := new TabView(styledTextColor);
      tabTextView.SetLayoutParams(layout.value);
      var currentColor := tabTextView.GetCurrentTextColor();
      var colors := CreateColorStateList(currentColor, tabSelectedTextColor);
      tabTextView.SetTextColor(colors);
      var holder := new ViewHolder(tabTextView, this);
      r := Success(holder);
    }

    /**
     * `onBindViewHolder`: the tab shows the page's title and is selected exactly when
     * `position` is the current indicator position. A tab carrying the two-state colour
     * list is then drawn in the selected colour exactly when it is selected.
     */
    method OnBindViewHolder(holder: ViewHolder, position: int32, currentIndicatorPosition: int32)
      requires holder.title.Valid()
      modifies holder.title`text, holder.title`selected
      ensures holder.title.Valid()
      ensures holder.title.text == viewPager.PageTitle(position)
      ensures holder.title.selected == IsSelected(currentIndicatorPosition, position)
      ensures forall d: int32, s: int32 ::
        holder.title.textColors == ColorStateList([SELECTED_STATE_SET, EMPTY_STATE_SET], [s, d]) ==>
          holder.title.CurrentTextColor() == (if currentIndicatorPosition == position then s else d)
    {
      var title := viewPager.PageTitle(position);
      holder.title.SetText(title);
      holder.title.SetSelected(currentIndicatorPosition == position);
      forall d: int32, s: int32
        | holder.title.textColors == ColorStateList([SELECTED_STATE_SET, EMPTY_STATE_SET], [s, d])
        ensures holder.title.CurrentTextColor() == (if currentIndicatorPosition == position then s else d)
      {
        TwoStateLookup(d, s, holder.title.DrawableState(), 0);
      }
    }
  }

  /** `SimpleTabAdapter.Builder`: collects optional settings; `Build` validates them and creates the adapter. */
  class Builder {
    const context: Context
    var viewPager: ViewPager?
    var base: BaseConfig
    var tabSelectedTextColor: Option<int32>
    var tabIndicatorHeight: Option<int32>

    constructor (context: Context)
      ensures this.context == context
      ensures viewPager == null && base == UNSET_BASE_CONFIG
      ensures tabSelectedTextColor == None && tabIndicatorHeight == None
    {
      this.context := context;
      viewPager := null;
      base := UNSET_BASE_CONFIG;
      tabSelectedTextColor := None;
      tabIndicatorHeight := None;
    }

    /** Links the ViewPager whose pages become tabs; null clears the link. */
    method SetViewPager(pager: ViewPager?) returns (self: Builder)
      modifies this`viewPager
      ensures self == this && viewPager == pager
    {
      viewPager := pager;
      self := this;
    }

    method SetTabPadding(tabPaddingStart: int32, tabPaddingTop: int32, tabPaddingEnd: int32, tabPaddingBottom: int32)
      returns (self: Builder)
      modifies this`base
      ensures self == this
      ensures base == old(base).(tabPadding := Some(Padding(tabPaddingStart, tabPaddingTop, tabPaddingEnd, tabPaddingBottom)))
    {
      base := base.(tabPadding := Some(Padding(tabPaddingStart, tabPaddingTop, tabPaddingEnd, tabPaddingBottom)));
      self := this;
    }

    method SetTabTextAppearance(tabTextAppearance: int32) returns (self: Builder)
      modifies this`base
      ensures self == this && base == old(base).(tabTextAppearance := Some(tabTextAppearance))
    {
      base := base.(tabTextAppearance := Some(tabTextAppearance));
      self := this;
    }

    method SetTabBackgroundResId(tabBackgroundResId: int32) returns (self: Builder)
      modifies this`base
      ensures self == this && base == old(base).(tabBackgroundResId := Some(tabBackgroundResId))
    {
      base := base.(tabBackgroundResId := Some(tabBackgroundResId));
      self := this;
    }

    method SetTabSelectedTextColor(color: int32) returns (self: Builder)
      modifies this`tabSelectedTextColor
      ensures self == this && tabSelectedTextColor == Some(color)
    {
      tabSelectedTextColor := Some(color);
      self := this;
    }

    method SetTabIndicatorColor(color: int32) returns (self: Builder)
      modifies this`base
      ensures self == this && base == old(base).(tabIndicatorColor := Some(color))
    {
      base := base.(tabIndicatorColor := Some(color));
      self := this;
    }

    method SetTabIndicatorHeight(height: int32) returns (self: Builder)
      modifies this`tabIndicatorHeight
      ensures self == this && tabIndicatorHeight == Some(height)
    {
      tabIndicatorHeight := Some(height);
      self := this;
    }

    /**
     * `build`: throws IllegalArgumentException exactly when no ViewPager is linked;
     * otherwise a new adapter whose selected text colour and indicator height are the
     * builder's values where set and the context's defaults elsewhere.
     */
    method Build() returns (r: Result<SimpleTabAdapter, Exception>)
      ensures r.Failure? <==> viewPager == null
      ensures r.Failure? ==> r.error == IllegalArgumentException("ViewPager cannot be null")
      ensures r.Success? ==>
        && fresh(r.value)
        && r.value.viewPager == viewPager
        && r.value.base == base
        && r.value.tabSelectedTextColor == tabSelectedTextColor.GetOr(DefaultSelectedTextColor(context))
        && r.value.tabIndicatorHeight == tabIndicatorHeight.GetOr(DefaultIndicatorHeight(context))
    {
      if viewPager == null {
        return Failure(IllegalArgumentException("ViewPager cannot be null"));
      }
      var adapter := new SimpleTabAdapter(this);
      r := Success(adapter);
    }
  }
}
