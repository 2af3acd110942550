/**
 The panel-geometry heuristic of `plugin_get_icon_size` for panels older than
 libxfce4panel 4.14: the width one row of the panel offers, bucketed into the
 icon sizes the plugin renders.
 */
module Utils {
  import opened CTypes

  /** `size / snrows`, where `snrows` is `nrows` clamped to INT_MAX. */
  function RowWidth(size: Int32, nrows: UInt32): (width: Int32)
    requires nrows >= 1
    ensures size >= 0 ==> 0 <= width <= size
    ensures size < 0 ==> size <= width <= 0
    ensures nrows == 1 ==> width == size
  {
    CDivBounded(size, ClampToInt(nrows));
    CDiv(size, ClampToInt(nrows))
  }

  /** The if/else-if chain that turns a row width into an icon size. */
  function SizeForWidth(width: Int32): (r: Int32)
    ensures r >= 12
    ensures r in {12, 16, 24, 32} || r >= 38
    ensures width >= 20 ==> r <= width - 4
  {
    if width <= 19 then 12
    else if width <= 27 then 16
    else if width <= 35 then 24
    else if width <= 41 then 32
    else width - 4
  }

  /** The icon size in pixels for a panel of `size` pixels split into `nrows` rows. */
  function IconSize(size: Int32, nrows: UInt32): (r: Int32)
    requires nrows >= 1
    ensures r >= 12
    ensures r in {12, 16, 24, 32} || r >= 38
    ensures size >= 20 ==> r <= size - 4
  {
    SizeForWidth(RowWidth(size, nrows))
  }

  /** Each bucket of the chain, in both directions, in terms of the row width. */
  lemma IconSizeBuckets(size: Int32, nrows: UInt32)
    requires nrows >= 1
    ensures var w, r := RowWidth(size, nrows), IconSize(size, nrows);
      && (r == 12 <==> w <= 19)
      && (r == 16 <==> 20 <= w <= 27)
      && (r == 24 <==> 28 <= w <= 35)
      && (r == 32 <==> 36 <= w <= 41)
      && (r == w - 4 <==> w in {16, 20, 28, 36} || w >= 42)
      && (w >= 42 ==> r >= 38)
  {
  }

  /** The bucketing never shrinks the icon as the width grows. */
  lemma SizeForWidthMonotone(w1: Int32, w2: Int32)
    requires w1 <= w2
    ensures SizeForWidth(w1) <= SizeForWidth(w2)
  {
  }

  /** A taller (or wider) panel never gets a smaller icon. */
  lemma IconSizeMonotone(size1: Int32, size2: Int32, nrows: UInt32)
    requires nrows >= 1 && size1 <= size2
    ensures IconSize(size1, nrows) <= IconSize(size2, nrows)
  {
    CDivMonotone(size1, size2, ClampToInt(nrows));
    SizeForWidthMonotone(RowWidth(size1, nrows), RowWidth(size2, nrows));
  }

  /** Splitting the same panel into more rows never gets a larger icon. */
  lemma IconSizeMoreRows(size: Int32, nrows1: UInt32, nrows2: UInt32)
    requires 1 <= nrows1 <= nrows2
    ensures IconSize(size, nrows2) <= IconSize(size, nrows1)
  {
    if size >= 0 {
      CDivAntitone(size, ClampToInt(nrows1), ClampToInt(nrows2));
      SizeForWidthMonotone(RowWidth(size, nrows2), RowWidth(size, nrows1));
    }
  }
}
