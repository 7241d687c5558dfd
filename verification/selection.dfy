/**
 * Selection and tap rules of the tab strip. The current indicator position is owned by
 * the adapter's base class and the RecyclerView decides which positions are bound; both
 * enter here as plain values.
 */
module Selection {
  import opened Wrappers
  import opened JavaLang

  /** `RecyclerView.NO_POSITION`: the holder is not (or no longer) bound to a position. */
  const NO_POSITION: int32 := -1

  /** A request sent to the ViewPager: `setCurrentItem(item, smoothScroll)`. */
  datatype Navigation = SetCurrentItem(item: int32, smoothScroll: bool)

  /** `onBindViewHolder`: the tab bound at `position` is selected iff it is the indicator's position. */
  predicate IsSelected(currentIndicatorPosition: int, position: int): (selected: bool)
    ensures selected <==> position == currentIndicatorPosition
  {
    currentIndicatorPosition == position
  }

  /** The request a tap on a holder at `adapterPosition` issues, if any. */
  function TapRequest(adapterPosition: int32): (request: Option<Navigation>)
    ensures request.Some? <==> adapterPosition != NO_POSITION
    ensures request.Some? ==> request.value == SetCurrentItem(adapterPosition, true)
  {
    if adapterPosition != NO_POSITION then Some(SetCurrentItem(adapterPosition, true)) else None
  }

  /** The requests to append to the pager's log for one tap. */
  function Emitted(request: Option<Navigation>): seq<Navigation> {
    match request
    case Some(n) => [n]
    case None => []
  }

  /** No two bound holders share a position. */
  ghost predicate Distinct(positions: seq<int>) {
    forall i, j :: 0 <= i < j < |positions| ==> positions[i] != positions[j]
  }

  /** How many of the holders bound at `positions` are marked selected. */
  function CountSelected(positions: seq<int>, currentIndicatorPosition: int): nat {
    if positions == [] then 0
    else (if IsSelected(currentIndicatorPosition, positions[0]) then 1 else 0)
         + CountSelected(positions[1..], currentIndicatorPosition)
  }

  /** A strip none of whose bound positions is the indicator's has no selected tab. */
  lemma {:induction false} NoneSelected(positions: seq<int>, currentIndicatorPosition: int)
    requires currentIndicatorPosition !in positions
    ensures CountSelected(positions, currentIndicatorPosition) == 0
  {
    if positions != [] {
      assert positions[0] in positions;
      NoneSelected(positions[1..], currentIndicatorPosition);
    }
  }

  /**
   * Holders bound at distinct positions under one indicator position: at most one is
   * selected, and exactly one is when the indicator's position is among them.
   */
  lemma {:induction false} AtMostOneSelected(positions: seq<int>, currentIndicatorPosition: int)
    requires Distinct(positions)
    ensures CountSelected(positions, currentIndicatorPosition) <= 1
    ensures CountSelected(positions, currentIndicatorPosition) == 1 <==> currentIndicatorPosition in positions
  {
    if positions != [] {
      var rest := positions[1..];
      assert Distinct(rest);
      if positions[0] == currentIndicatorPosition {
        forall k | 0 <= k < |rest| ensures rest[k] != currentIndicatorPosition {
          assert rest[k] == positions[k + 1];
        }
        NoneSelected(rest, currentIndicatorPosition);
      } else {
        AtMostOneSelected(rest, currentIndicatorPosition);
        assert currentIndicatorPosition in positions <==> currentIndicatorPosition in rest by {
          assert positions == [positions[0]] + rest;
        }
      }
    }
  }
}
