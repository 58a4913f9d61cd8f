/**
 * The pager holder: previous/next arrows that move the ViewPager's current
 * item by one within [0, count - 1], the page-change handler that shows or
 * hides the arrows and records the page index, and the "<type> <n> <of> <count>"
 * page indicator.
 *
 * The PagerAdapter is reduced to its item count (None when no adapter is set).
 * When an arrow moves the ViewPager to a new item, the ViewPager's
 * onPageSelected callback runs the page-change handler; the model performs
 * that call directly.
 */
module PagerNavigation {
  import opened Wrappers
  import Decimal

  datatype Arrow = Right | Left

  /** The item an arrow click leaves the pager on (the click listeners' guards). */
  function ArrowTarget(current: int, adapterCount: Option<nat>, arrow: Arrow): (r: int)
    ensures r == current || r == current + 1 || r == current - 1
    ensures adapterCount.None? ==> r == current
    ensures adapterCount.Some? && 0 <= current < adapterCount.value ==> 0 <= r < adapterCount.value
    ensures arrow == Right ==> r >= current
    ensures arrow == Left ==> r <= current
  {
    match arrow
    case Right =>
      if adapterCount.None? || current + 1 >= adapterCount.value then current else current + 1
    case Left =>
      if adapterCount.None? || current - 1 < 0 then current else current - 1
  }

  /** The item after a sequence of arrow clicks. */
  function AfterClicks(current: int, adapterCount: Option<nat>, arrows: seq<Arrow>): int
    decreases |arrows|
  {
    if arrows == [] then current
    else ArrowTarget(AfterClicks(current, adapterCount, arrows[..|arrows| - 1]), adapterCount, arrows[|arrows| - 1])
  }

  /** Starting inside [0, count - 1], any sequence of arrow clicks stays inside it. */
  lemma {:induction false} ClicksStayInRange(current: int, count: nat, arrows: seq<Arrow>)
    requires 0 <= current < count
    ensures 0 <= AfterClicks(current, Some(count), arrows) < count
    decreases |arrows|
  {
    if arrows != [] {
      ClicksStayInRange(current, count, arrows[..|arrows| - 1]);
    }
  }

  /** Each click moves the pager by at most one item. */
  lemma {:induction false} ClicksMoveAtMostOneEach(current: int, adapterCount: Option<nat>, arrows: seq<Arrow>)
    ensures current - |arrows| <= AfterClicks(current, adapterCount, arrows) <= current + |arrows|
    decreases |arrows|
  {
    if arrows != [] {
      ClicksMoveAtMostOneEach(current, adapterCount, arrows[..|arrows| - 1]);
    }
  }

  /** k presses of the right arrow from the first page reach page min(k, count - 1). */
  lemma {:induction false} RightClicksReachLastPage(count: nat, k: nat)
    requires count > 0
    ensures AfterClicks(0, Some(count), seq(k, _ => Right)) == if k < count then k else count - 1
    decreases k
  {
    if k > 0 {
      assert seq(k, _ => Right)[..k - 1] == seq(k - 1, _ => Right);
      RightClicksReachLastPage(count, k - 1);
    }
  }

  /** The right arrow is shown at a position iff there is a next page. */
  function RightArrowVisible(position: int, count: nat): bool {
    position + 1 < count
  }

  /** The left arrow is shown at a position iff there is a previous page. */
  function LeftArrowVisible(position: int): bool {
    position > 0
  }

  /** With an adapter, an arrow is shown exactly when clicking it would move the pager. */
  lemma VisibleArrowsMove(position: int, count: nat)
    ensures RightArrowVisible(position, count) <==> ArrowTarget(position, Some(count), Right) != position
    ensures LeftArrowVisible(position) <==> ArrowTarget(position, Some(count), Left) != position
  {
  }

  /** String.format(Locale.US, "%s %d %s %d", itemType, pageIndex + 1, of, count) */
  function IndicatorText(itemType: string, pageIndex: int, of: string, count: int): string
  {
    itemType + " " + Decimal.IntToString(pageIndex + 1) + " " + of + " " + Decimal.IntToString(count)
  }

  /** The space-separated fields of a string. */
  function SplitOnSpaces(s: string): (fields: seq<string>)
    ensures |fields| >= 1
    decreases |s|
  {
    if s == [] then [""]
    else if s[0] == ' ' then [""] + SplitOnSpaces(s[1..])
    else
      var rest := SplitOnSpaces(s[1..]);
      [[s[0]] + rest[0]] + rest[1..]
  }

  lemma {:induction false} SplitOnSpacesWord(a: string)
    requires ' ' !in a
    ensures SplitOnSpaces(a) == [a]
    decreases |a|
  {
    if a != [] {
      SplitOnSpacesWord(a[1..]);
      assert [a[0]] + a[1..] == a;
    }
  }

  lemma {:induction false} SplitOnSpacesConcat(a: string, b: string)
    requires ' ' !in a
    ensures SplitOnSpaces(a + " " + b) == [a] + SplitOnSpaces(b)
    decreases |a|
  {
    var s := a + " " + b;
    if a == [] {
      assert s[1..] == b;
    } else {
      assert s[1..] == a[1..] + " " + b;
      SplitOnSpacesConcat(a[1..], b);
      assert [a[0]] + a[1..] == a;
    }
  }

  /**
   * When the item type and the word "of" contain no space, the indicator reads
   * back as four fields: the item type, the 1-based page number, "of" and the count.
   */
  lemma IndicatorTextFields(itemType: string, pageIndex: int, of: string, count: int)
    requires ' ' !in itemType && ' ' !in of
    ensures var fields := SplitOnSpaces(IndicatorText(itemType, pageIndex, of, count));
      && |fields| == 4
      && fields[0] == itemType
      && fields[2] == of
      && fields[1] == Decimal.IntToString(pageIndex + 1)
      && fields[3] == Decimal.IntToString(count)
      && Decimal.DecimalValue(fields[1]) == pageIndex + 1
      && Decimal.DecimalValue(fields[3]) == count
  {
    var page, total := Decimal.IntToString(pageIndex + 1), Decimal.IntToString(count);
    assert IndicatorText(itemType, pageIndex, of, count) == itemType + " " + (page + " " + (of + " " + total));
    SplitOnSpacesConcat(itemType, page + " " + (of + " " + total));
    SplitOnSpacesConcat(page, of + " " + total);
    SplitOnSpacesConcat(of, total);
    SplitOnSpacesWord(total);
    Decimal.IntRoundTrip(pageIndex + 1);
    Decimal.IntRoundTrip(count);
  }

  class ViewPagerHolder {
    /** The arrows are absent (the touch-not-hard-keys preference). */
    const noArrows: bool
    /** Page circles are shown instead of the indicator text. */
    const useCircle: bool
    var itemType: string
    const of: string

    /** The ViewPager's adapter, as its item count; None when no adapter is set. */
    var adapterCount: Option<nat>
    /** The ViewPager's current item. */
    var currentItem: int
    var pageIndex: int
    var rightVisible: bool
    var leftVisible: bool
    var indicatorText: string

    ghost predicate Valid()
      reads this
    {
      && 0 <= currentItem
      && (adapterCount.Some? && adapterCount.value > 0 ==> currentItem < adapterCount.value)
      && pageIndex == currentItem
    }

    /** A holder before any adapter is set (the arrows' initial visibility comes from the layout and is not modelled). */
    constructor (noArrows: bool, useCircle: bool, itemType: string, of: string)
      ensures Valid()
      ensures this.noArrows == noArrows && this.useCircle == useCircle
      ensures this.itemType == itemType && this.of == of
      ensures adapterCount.None? && currentItem == 0 && pageIndex == 0
    {
      this.noArrows := noArrows;
      this.useCircle := useCircle;
      this.itemType := itemType;
      this.of := of;
      adapterCount := None;
      currentItem := 0;
      pageIndex := 0;
      rightVisible := true;
      leftVisible := true;
      indicatorText := "";
    }

    /** Change the word naming the items; the indicator picks it up on its next update. */
    method SetItemType(itemType: string)
      modifies this`itemType
      ensures this.itemType == itemType
    {
      this.itemType := itemType;
    }

    /** Write the indicator text; only without circles and with an adapter. */
    method UpdatePageIndicatorText()
      modifies this`indicatorText
      ensures indicatorText ==
                if !useCircle && adapterCount.Some? then IndicatorText(itemType, pageIndex, of, adapterCount.value)
                else old(indicatorText)
    {
      if !useCircle && adapterCount.Some? {
        indicatorText := IndicatorText(itemType, pageIndex, of, adapterCount.value);
      }
    }

    /** A page was selected: show the arrows that can move, record the index, update the indicator. */
    method PageChangeHandler(position: int)
      modifies this`rightVisible, this`leftVisible, this`pageIndex, this`indicatorText
      ensures adapterCount.None? ==> unchanged(this)
      ensures adapterCount.Some? ==>
                && pageIndex == position
                && (!noArrows ==> rightVisible == RightArrowVisible(position, adapterCount.value))
                && (!noArrows ==> leftVisible == LeftArrowVisible(position))
                && (noArrows ==> rightVisible == old(rightVisible) && leftVisible == old(leftVisible))
                && indicatorText ==
                     if !useCircle then IndicatorText(itemType, position, of, adapterCount.value) else old(indicatorText)
    {
      if adapterCount.None? {
        return;
      }
      if !noArrows {
        rightVisible := position + 1 < adapterCount.value;
        leftVisible := position > 0;
      }
      pageIndex := position;
      UpdatePageIndicatorText();
    }

    /** The right arrow's click listener. */
    method RightArrowClick()
      requires Valid() && !noArrows
      modifies this`currentItem, this`rightVisible, this`leftVisible, this`pageIndex, this`indicatorText
      ensures Valid()
      ensures currentItem == ArrowTarget(old(currentItem), adapterCount, Right)
      ensures currentItem == old(currentItem) ==> unchanged(this)
      ensures currentItem != old(currentItem) ==>
                && rightVisible == RightArrowVisible(currentItem, adapterCount.value)
                && leftVisible == LeftArrowVisible(currentItem)
                && (!useCircle ==> indicatorText == IndicatorText(itemType, currentItem, of, adapterCount.value))
    {
      if !(adapterCount.None? || currentItem + 1 >= adapterCount.value) {
        currentItem := currentItem + 1;
        PageChangeHandler(currentItem);
      }
    }

    /** The left arrow's click listener. */
    method LeftArrowClick()
      requires Valid() && !noArrows
      modifies this`currentItem, this`rightVisible, this`leftVisible, this`pageIndex, this`indicatorText
      ensures Valid()
      ensures currentItem == ArrowTarget(old(currentItem), adapterCount, Left)
      ensures currentItem == old(currentItem) ==> unchanged(this)
      ensures currentItem != old(currentItem) ==>
                && rightVisible == RightArrowVisible(currentItem, adapterCount.value)
                && leftVisible == LeftArrowVisible(currentItem)
                && (!useCircle ==> indicatorText == IndicatorText(itemType, currentItem, of, adapterCount.value))
    {
      if !(adapterCount.None? || currentItem - 1 < 0) {
        currentItem := currentItem - 1;
        PageChangeHandler(currentItem);
      }
    }

    /** Set an adapter with `count` items; the ViewPager starts it at item 0. */
    method SetViewPagerAdapter(count: nat)
      requires Valid()
      modifies this`adapterCount, this`currentItem, this`rightVisible, this`leftVisible, this`pageIndex, this`indicatorText
      ensures Valid()
      ensures adapterCount == Some(count) && currentItem == 0 && pageIndex == 0
      ensures !noArrows ==> rightVisible == RightArrowVisible(0, count) && !leftVisible
      ensures !useCircle ==> indicatorText == IndicatorText(itemType, 0, of, count)
    {
      adapterCount := Some(count);
      currentItem := 0;
      UpdatePageIndicatorText();
      PageChangeHandler(currentItem);
    }

    /** The adapter's data changed: re-run the handler on the recorded page index. */
    method OnDataChanged()
      requires Valid()
      modifies this`rightVisible, this`leftVisible, this`pageIndex, this`indicatorText
      ensures Valid()
      ensures pageIndex == old(pageIndex)
      ensures adapterCount.None? ==> unchanged(this)
      ensures adapterCount.Some? && !noArrows ==>
                rightVisible == RightArrowVisible(pageIndex, adapterCount.value) && leftVisible == LeftArrowVisible(pageIndex)
      ensures adapterCount.Some? && !useCircle ==>
                indicatorText == IndicatorText(itemType, pageIndex, of, adapterCount.value)
    {
      PageChangeHandler(pageIndex);
    }

    /** The recorded page index, which is the ViewPager's current item. */
    function GetPageIndex(): (r: int)
      reads this
      requires Valid()
      ensures r == currentItem && r >= 0
      ensures adapterCount.Some? && adapterCount.value > 0 ==> r < adapterCount.value
    {
      pageIndex
    }
  }

  /** A client: with three pages, two right clicks reach the last page and a third does nothing. */
  method PagerScenario()
  {
    var holder := new ViewPagerHolder(false, false, "page", "of");
    holder.SetViewPagerAdapter(3);
    holder.RightArrowClick();
    holder.RightArrowClick();
    assert holder.currentItem == 2 && !holder.rightVisible && holder.leftVisible;
    holder.RightArrowClick();
    assert holder.GetPageIndex() == 2;
    assert holder.indicatorText == IndicatorText("page", 2, "of", 3);
  }
}
