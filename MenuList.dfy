/**
 * The scrolling menu list: its effect keeps the selected row in view by moving the container's
 * scroll offset, and every row is drawn with a flag saying whether it is the selected one.
 * Offsets and heights are whole pixels.
 */
module MenuList {
  import MainMenu

  /** Where a row sits in the list: its top offset and its height. */
  datatype ItemBox = ItemBox(top: int, height: int)

  /** The row lies entirely inside the viewport `[scrollTop, scrollTop + clientHeight]`. */
  predicate Visible(scrollTop: int, clientHeight: int, item: ItemBox)
  {
    scrollTop <= item.top && item.top + item.height <= scrollTop + clientHeight
  }

  function Abs(x: int): int { if x < 0 then -x else x }

  /** The scroll offset after the effect: a row above the viewport is brought to its top edge, a
      row below it to its bottom edge, and a row already inside leaves the offset alone. */
  function ScrollIntoView(scrollTop: int, clientHeight: int, item: ItemBox): (r: int)
    ensures scrollTop <= item.top && item.top + item.height <= scrollTop + clientHeight ==> r == scrollTop
    ensures 0 <= item.height <= clientHeight ==> Visible(r, clientHeight, item)
  {
    if item.top < scrollTop then item.top
    else if item.top + item.height > scrollTop + clientHeight then item.top + item.height - clientHeight
    else scrollTop
  }

  /** When the row fits in the viewport the effect moves the list as little as possible: no
      offset that shows the whole row is nearer to the old one. */
  lemma ScrollIsMinimal(scrollTop: int, clientHeight: int, item: ItemBox, other: int)
    requires 0 <= item.height <= clientHeight
    requires Visible(other, clientHeight, item)
    ensures Abs(ScrollIntoView(scrollTop, clientHeight, item) - scrollTop) <= Abs(other - scrollTop)
  {
  }

  /** A row that fits needs no second adjustment. */
  lemma ScrollIdempotent(scrollTop: int, clientHeight: int, item: ItemBox)
    requires 0 <= item.height <= clientHeight
    ensures var r := ScrollIntoView(scrollTop, clientHeight, item);
            ScrollIntoView(r, clientHeight, item) == r
  {
  }

  /** A row taller than the viewport is never shown whole: each adjustment flips the offset
      between the row's top edge and its bottom edge. */
  lemma TallRowAlternates(scrollTop: int, clientHeight: int, item: ItemBox)
    requires item.height > clientHeight
    ensures !Visible(ScrollIntoView(scrollTop, clientHeight, item), clientHeight, item)
    ensures var r := ScrollIntoView(scrollTop, clientHeight, item);
            r == item.top ==> ScrollIntoView(r, clientHeight, item) == item.top + item.height - clientHeight
    ensures var r := ScrollIntoView(scrollTop, clientHeight, item);
            r == item.top + item.height - clientHeight ==> ScrollIntoView(r, clientHeight, item) == item.top
  {
  }

  /** The mounted list container. `clientHeight` is the viewport's height, which the list never
      changes; `scrollTop` is the offset the effect assigns. */
  class ListContainer {
    var scrollTop: int
    const clientHeight: int

    constructor (height: int)
      ensures scrollTop == 0 && clientHeight == height
    {
      scrollTop := 0;
      clientHeight := height;
    }

    /** The effect run when the selected index changes; `layout` holds the rows that are
        mounted. An index with no mounted row leaves the offset alone. */
    method ScrollSelectedIntoView(layout: seq<ItemBox>, selectedIndex: int)
      modifies this
      ensures 0 <= selectedIndex < |layout| ==>
                scrollTop == ScrollIntoView(old(scrollTop), clientHeight, layout[selectedIndex])
      ensures !(0 <= selectedIndex < |layout|) ==> scrollTop == old(scrollTop)
      ensures 0 <= selectedIndex < |layout| && 0 <= layout[selectedIndex].height <= clientHeight ==>
                Visible(scrollTop, clientHeight, layout[selectedIndex])
    {
      if 0 <= selectedIndex < |layout| {
        var item := layout[selectedIndex];
        var itemTop := item.top;
        var itemBottom := itemTop + item.height;
        var containerTop := scrollTop;
        var containerBottom := containerTop + clientHeight;
        if itemTop < containerTop {
          scrollTop := itemTop;
        } else if itemBottom > containerBottom {
          scrollTop := itemBottom - clientHeight;
        }
      }
    }
  }

  // ---------------------------------------------------------------- selected-row marking

  /** A drawn row: the menu row and whether it is drawn as selected. */
  datatype DrawnRow = DrawnRow(item: MainMenu.MenuItemData, isSelected: bool)

  function DrawRows(items: seq<MainMenu.MenuItemData>, selectedIndex: int): (rows: seq<DrawnRow>)
    ensures |rows| == |items|
    ensures forall i :: 0 <= i < |rows| ==> rows[i].item == items[i]
  {
    seq(|items|, i requires 0 <= i < |items| => DrawnRow(items[i], i == selectedIndex))
  }

  function SelectedPositions(rows: seq<DrawnRow>): set<int>
  {
    set i | 0 <= i < |rows| && rows[i].isSelected
  }

  /** Exactly the row at the selected index is marked; an index outside the list marks none. */
  lemma ExactlySelectedRowMarked(items: seq<MainMenu.MenuItemData>, selectedIndex: int)
    ensures 0 <= selectedIndex < |items| ==> SelectedPositions(DrawRows(items, selectedIndex)) == {selectedIndex}
    ensures !(0 <= selectedIndex < |items|) ==> SelectedPositions(DrawRows(items, selectedIndex)) == {}
  {
    var rows := DrawRows(items, selectedIndex);
    if 0 <= selectedIndex < |items| {
      assert rows[selectedIndex].isSelected;
      assert selectedIndex in SelectedPositions(rows);
    }
  }
}
