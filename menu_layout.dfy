/** Geometry of the menu's command window in horizontal layout: one row of
    fixed-size buttons, and the window widened to fit them. */
module MenuLayout {

  datatype Rect = Rect(x: int, y: int, width: int, height: int)

  /** The padding the window adds around the row of buttons. */
  const WindowPadding := 20

  /** The host's column spacing for command windows. */
  const HostColSpacing := 8

  /** The number of buttons the initial window size assumes. */
  const EstimatedItems := 6

  /** The button layout parameters. */
  datatype Layout = Layout(horizontal: bool, buttonW: int, buttonH: int)

  /** `itemRect(index)`: before the list exists every item is a button at the
      origin; in horizontal layout button `index` sits `index` button widths
      and spacings to the right; otherwise the host's own rectangle. */
  function ItemRect(l: Layout, hasList: bool, index: int, spacing: int, hostRect: Rect): (r: Rect)
    ensures !hasList ==> r == Rect(0, 0, l.buttonW, l.buttonH)
    ensures hasList && !l.horizontal ==> r == hostRect
    ensures hasList && l.horizontal ==>
      && r.y == 0 && r.width == l.buttonW && r.height == l.buttonH
      && (index == 0 ==> r.x == 0)
  {
    if !hasList then Rect(0, 0, l.buttonW, l.buttonH)
    else if l.horizontal then
      Rect(index * (l.buttonW + spacing), 0, l.buttonW, l.buttonH)
    else hostRect
  }

  /** `maxCols()`: one row holding every item in horizontal layout. */
  function MaxCols(l: Layout, hasList: bool, items: nat, hostCols: int): (c: int)
    ensures !hasList ==> c == 1
    ensures hasList && l.horizontal ==> c == items
    ensures hasList && !l.horizontal ==> c == hostCols
  {
    if !hasList then 1 else if l.horizontal then items else hostCols
  }

  /** With the list in horizontal layout, the host places item `i` in column
      `i % maxCols()` of row `i / maxCols()`: every item lands in row 0, in
      the column of its own index, which is where `ItemRect` draws it. */
  lemma {:induction false} HorizontalOneRow(l: Layout, items: nat, hostCols: int, spacing: int, hostRect: Rect, i: int)
    requires l.horizontal && 0 <= i < items
    ensures i / MaxCols(l, true, items, hostCols) == 0
    ensures i % MaxCols(l, true, items, hostCols) == i
    ensures ItemRect(l, true, i, spacing, hostRect).x == (i % MaxCols(l, true, items, hostCols)) * (l.buttonW + spacing)
    ensures ItemRect(l, true, i, spacing, hostRect).y == (i / MaxCols(l, true, items, hostCols)) * l.buttonH
  {
    var cols := MaxCols(l, true, items, hostCols);
    assert cols == items;
    assert i == 0 * cols + i;
  }

  /** The width the window is given for `n` buttons. */
  function RowWidth(n: int, buttonW: int, spacing: int): int {
    n * buttonW + (n - 1) * spacing + WindowPadding
  }

  /** In horizontal layout each button starts one button width and one
      spacing to the right of the one before it. */
  lemma NextButton(l: Layout, spacing: int, hostRect: Rect, index: int)
    requires l.horizontal && index > 0
    ensures ItemRect(l, true, index, spacing, hostRect).x ==
            ItemRect(l, true, index - 1, spacing, hostRect).x + l.buttonW + spacing
  {
    assert index * (l.buttonW + spacing) == (index - 1) * (l.buttonW + spacing) + (l.buttonW + spacing);
  }

  /** In horizontal layout, the buttons do not overlap when the spacing is not
      negative: each starts at or after the right edge of the one before. */
  lemma ButtonsDisjoint(l: Layout, spacing: int, hostRect: Rect, i: int, j: int)
    requires l.horizontal && l.buttonW >= 0 && spacing >= 0 && 0 <= i < j
    ensures ItemRect(l, true, i, spacing, hostRect).x + l.buttonW <= ItemRect(l, true, j, spacing, hostRect).x
  {
    var step := l.buttonW + spacing;
    var ri, rj := ItemRect(l, true, i, spacing, hostRect), ItemRect(l, true, j, spacing, hostRect);
    assert ri.x == i * step && rj.x == j * step;
    assert j * step == i * step + step + (j - i - 1) * step;
    assert (j - i - 1) * step >= 0 by { NonNegativeProduct(j - i - 1, step); }
  }

  lemma NonNegativeProduct(a: int, b: int)
    requires a >= 0 && b >= 0
    ensures a * b >= 0
  {
  }

  /** The resized window is as wide as the row of `n` buttons plus the padding:
      the last button's right edge plus 20. */
  lemma RowWidthFitsLastButton(l: Layout, n: int, spacing: int, hostRect: Rect)
    requires l.horizontal && n >= 1
    ensures RowWidth(n, l.buttonW, spacing) == ItemRect(l, true, n - 1, spacing, hostRect).x + l.buttonW + WindowPadding
  {
    assert (n - 1) * (l.buttonW + spacing) == (n - 1) * l.buttonW + (n - 1) * spacing;
    assert n * l.buttonW == (n - 1) * l.buttonW + l.buttonW;
  }

  /** The command window after the deferred resize: in the horizontal layout,
      when the list has items, the row width, centred on a screen `boxWidth`
      wide; otherwise untouched. */
  function Resized(l: Layout, items: int, spacing: int, boxWidth: int, window: (int, real)): (r: (int, real))
    ensures l.horizontal && items > 0 ==>
      r.0 == RowWidth(items, l.buttonW, spacing) && 2.0 * r.1 + r.0 as real == boxWidth as real
    ensures !l.horizontal || items <= 0 ==> r == window
  {
    if l.horizontal && items > 0 then
      var w := RowWidth(items, l.buttonW, spacing);
      (w, (boxWidth - w) as real / 2.0)
    else window
  }

  /** The width the window starts with, before the list is known. */
  function EstimatedWidth(buttonW: int): int {
    EstimatedItems * buttonW + (EstimatedItems - 1) * 8 + WindowPadding
  }

  /** The estimate is exact for a menu of six buttons at the host's spacing. */
  lemma EstimateMatchesSixItems(buttonW: int)
    ensures EstimatedWidth(buttonW) == RowWidth(6, buttonW, HostColSpacing)
  {
  }
}
