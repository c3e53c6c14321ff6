/**
 * The responsive hook (frontend/src/hooks/useResponsive.ts): the breakpoint
 * table, the window size the hook keeps, and the flags it derives from the
 * window width.
 */
module Responsive {
  import opened Optional

  datatype WindowSize = WindowSize(width: int, height: int)

  /** The size assumed when there is no window to measure. */
  const DefaultSize := WindowSize(1024, 768)

  /** The breakpoint table, in pixels; `xxl` and `xxxl` stand for `'2xl'` and `'3xl'`. */
  const Xs := 475
  const Sm := 640
  const Md := 768
  const Lg := 1024
  const Xl := 1280
  const Xxl := 1536
  const Xxxl := 1920

  /** The `breakpoint` record: which thresholds the width has reached. */
  datatype BreakpointFlags = BreakpointFlags(xs: bool, sm: bool, md: bool, lg: bool, xl: bool, xxl: bool, xxxl: bool)

  /** Everything the hook returns. */
  datatype View = View(
    windowSize: WindowSize,
    isMobile: bool,
    isTablet: bool,
    isDesktop: bool,
    isLargeScreen: bool,
    isExtraLarge: bool,
    breakpoint: BreakpointFlags)

  /** The initial state: the window's inner size, or the default when there is no window. */
  function InitialSize(window: Option<WindowSize>): WindowSize {
    match window
    case Some(size) => size
    case None => DefaultSize
  }

  function Breakpoints(width: int): BreakpointFlags {
    BreakpointFlags(
      width >= Xs, width >= Sm, width >= Md, width >= Lg, width >= Xl, width >= Xxl, width >= Xxxl)
  }

  /**
   * The hook's result for the current window size. Each width is exactly one
   * of mobile (below 768), tablet (768 to 1023) and desktop (1024 up), and
   * the named flags agree with the breakpoint record.
   */
  function ViewOf(size: WindowSize): (v: View)
    ensures v.isMobile <==> size.width < 768
    ensures v.isTablet <==> 768 <= size.width < 1024
    ensures v.isDesktop <==> size.width >= 1024
    ensures (v.isMobile || v.isTablet || v.isDesktop)
      && !(v.isMobile && v.isTablet) && !(v.isMobile && v.isDesktop) && !(v.isTablet && v.isDesktop)
    ensures && v.isMobile == !v.breakpoint.md
            && v.isTablet == (v.breakpoint.md && !v.breakpoint.lg)
            && v.isDesktop == v.breakpoint.lg
            && v.isLargeScreen == v.breakpoint.xl
            && v.isExtraLarge == v.breakpoint.xxl
  {
    var w := size.width;
    View(size, w < Md, w >= Md && w < Lg, w >= Lg, w >= Xl, w >= Xxl, Breakpoints(w))
  }

  /** The hook's state: the last measured window size, replaced on every resize event. */
  class WindowTracker {
    var windowSize: WindowSize

    constructor (window: Option<WindowSize>)
      ensures windowSize == InitialSize(window)
    {
      windowSize := InitialSize(window);
    }

    /** `handleResize`: the new inner size replaces the old one. */
    method HandleResize(innerWidth: int, innerHeight: int)
      modifies this
      ensures windowSize == WindowSize(innerWidth, innerHeight)
    {
      windowSize := WindowSize(innerWidth, innerHeight);
    }
  }

  /** The thresholds are strictly increasing: xs < sm < md < lg < xl < 2xl < 3xl. */
  lemma ThresholdsIncrease()
    ensures Xs < Sm < Md < Lg < Xl < Xxl < Xxxl
  {
  }

  /** A breakpoint that is reached implies every lower one. */
  lemma HigherImpliesLower(width: int)
    ensures var b := Breakpoints(width);
      && (b.xxxl ==> b.xxl) && (b.xxl ==> b.xl) && (b.xl ==> b.lg)
      && (b.lg ==> b.md) && (b.md ==> b.sm) && (b.sm ==> b.xs)
  {
  }

  /** Every flag that holds at one width holds at every larger width. */
  lemma FlagsMonotone(w: int, w': int)
    requires w <= w'
    ensures var b, b' := Breakpoints(w), Breakpoints(w');
      && (b.xs ==> b'.xs) && (b.sm ==> b'.sm) && (b.md ==> b'.md) && (b.lg ==> b'.lg)
      && (b.xl ==> b'.xl) && (b.xxl ==> b'.xxl) && (b.xxxl ==> b'.xxxl)
    ensures ViewOf(WindowSize(w, 0)).isDesktop ==> ViewOf(WindowSize(w', 0)).isDesktop
    ensures ViewOf(WindowSize(w, 0)).isLargeScreen ==> ViewOf(WindowSize(w', 0)).isLargeScreen
    ensures ViewOf(WindowSize(w, 0)).isExtraLarge ==> ViewOf(WindowSize(w', 0)).isExtraLarge
  {
  }

  /** Without a window the size is 1024 by 768: a desktop that is not a large screen. */
  lemma NoWindowIsSmallDesktop()
    ensures InitialSize(None) == WindowSize(1024, 768)
    ensures ViewOf(InitialSize(None)).isDesktop && !ViewOf(InitialSize(None)).isLargeScreen
  {
  }

  /** The flags depend on the width only, never on the height. */
  lemma HeightIrrelevant(a: WindowSize, b: WindowSize)
    requires a.width == b.width
    ensures ViewOf(a).(windowSize := b) == ViewOf(b)
  {
  }
}
