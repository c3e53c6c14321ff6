/**
 * The page frame (frontend/src/layout/MainLayout.tsx): a fixed stack on
 * mobile, otherwise a row of resizable panels whose sizes, in percent of
 * the row, depend on the responsive flags.
 */
module MainLayout {
  import opened Optional
  import opened Responsive

  /** A resizable panel's size limits; a panel given no `maxSize` may take the whole row. */
  datatype Panel = Panel(defaultSize: int, minSize: int, maxSize: int)

  datatype Layout =
    | Stacked
    | Panels(left: Panel, main: Panel, right: Option<Panel>)

  /**
   * The frame for a set of flags: stacked exactly on mobile, otherwise panels
   * whose default sizes lie between their limits, with a main panel never
   * narrower than 30 percent.
   */
  function LayoutOf(v: View): (l: Layout)
    ensures l == Stacked <==> v.isMobile
    ensures l.Panels? ==>
      && WellBounded(l.left) && WellBounded(l.main) && (l.right.Some? ==> WellBounded(l.right.value))
      && l.main.minSize == 30
  {
    if v.isMobile then Stacked
    else Panels(
      Panel(if v.isTablet then 25 else 20, if v.isTablet then 20 else 15, 35),
      Panel(if v.isTablet then 75 else if v.breakpoint.xl then 50 else 60, 30, 100),
      if v.breakpoint.lg then Some(Panel(if v.breakpoint.xl then 30 else 20, 0, 35)) else None)
  }

  function TotalDefault(l: Layout): int
    requires l.Panels?
  {
    l.left.defaultSize + l.main.defaultSize + (if l.right.Some? then l.right.value.defaultSize else 0)
  }

  predicate WellBounded(p: Panel) {
    0 <= p.minSize <= p.defaultSize <= p.maxSize <= 100
  }

  /** The layout has no resizable panels exactly on mobile widths. */
  lemma StackedOnlyOnMobile(size: WindowSize)
    ensures LayoutOf(ViewOf(size)) == Stacked <==> size.width < 768
  {
  }

  /** The right panel is there exactly from 1024 pixels up: never on a tablet, always on a desktop. */
  lemma RightPanelOnDesktopOnly(size: WindowSize)
    ensures var l := LayoutOf(ViewOf(size));
      l.Panels? ==> (l.right.Some? <==> ViewOf(size).breakpoint.lg)
    ensures ViewOf(size).isTablet ==> LayoutOf(ViewOf(size)).right == None
    ensures ViewOf(size).isDesktop ==> LayoutOf(ViewOf(size)).right.Some?
  {
  }

  /** The default sizes of the panels shown add up to the whole row: 25+75, 20+60+20 or 20+50+30. */
  lemma DefaultsFillTheRow(size: WindowSize)
    requires size.width >= 768
    ensures TotalDefault(LayoutOf(ViewOf(size))) == 100
    ensures var l := LayoutOf(ViewOf(size));
      && (ViewOf(size).isTablet ==> l.left.defaultSize == 25 && l.main.defaultSize == 75)
      && (ViewOf(size).isDesktop && !ViewOf(size).isLargeScreen ==>
          l.left.defaultSize == 20 && l.main.defaultSize == 60 && l.right.value.defaultSize == 20)
      && (ViewOf(size).isLargeScreen ==>
          l.left.defaultSize == 20 && l.main.defaultSize == 50 && l.right.value.defaultSize == 30)
  {
  }
}
