/** Responsive typography helpers: heading style selection by device class,
    a two-size CSS fragment, and the mobile test against the breakpoint. */
module ResponsiveText {
  import opened Wrappers
  import opened Strings
  import opened DesignTokens

  /** `getResponsiveTextStyle`: the mobile style when on mobile and the table
      has one, otherwise the desktop style. The mobile table covers h1, h2 and
      h3, so the device class alone decides. */
  function GetResponsiveTextStyle(h: Heading, isMobile: bool): (r: TextStyle)
    ensures h in MobileHeadings && h in DesktopHeadings
    ensures isMobile ==> r == MobileHeadings[h]
    ensures !isMobile ==> r == DesktopHeadings[h]
  {
    HeadingTablesCover(h);
    if isMobile && h in MobileHeadings then MobileHeadings[h] else DesktopHeadings[h]
  }

  /** Only h2 changes between desktop and mobile, and only in font size. */
  lemma OnlyH2Shrinks(h: Heading)
    ensures h != H2 ==> GetResponsiveTextStyle(h, true) == GetResponsiveTextStyle(h, false)
    ensures GetResponsiveTextStyle(H2, true)
         == GetResponsiveTextStyle(H2, false).(fontSize := "1.25rem")
  {
  }

  const FontSizeOpen := "\n    font-size: "
  const MediaOpen := ";\n    @media (max-width: " + MobileBreakpoint + ") {\n      font-size: "
  const MediaClose := ";\n    }\n  "

  /** `getResponsiveFontSize`: the desktop size, then a media block for
      screens up to the mobile breakpoint carrying the mobile size. */
  function GetResponsiveFontSize(desktopStyle: string, mobileStyle: string): (r: string)
    ensures FontSizeOpen + desktopStyle + MediaOpen <= r
    ensures var tail := mobileStyle + MediaClose;
      |tail| <= |r| && r[|r| - |tail|..] == tail
    ensures |r| == |FontSizeOpen| + |desktopStyle| + |MediaOpen| + |mobileStyle| + |MediaClose|
  {
    var head := FontSizeOpen + desktopStyle + MediaOpen;
    var r := head + (mobileStyle + MediaClose);
    assert r == FontSizeOpen + desktopStyle + MediaOpen + mobileStyle + MediaClose;
    assert r[..|head|] == head;
    r
  }

  /** Reads two values back out of `open + first + mid + second + close`:
      the text after `open` up to the first ';', and the text after `mid` up
      to the next ';'. */
  function ParseFragment(css: string, open: string, mid: string, close: string): Option<(string, string)> {
    if !(open <= css) then None
    else
      var rest := css[|open|..];
      var first := Before(rest, ';');
      var afterFirst := rest[|first|..];
      if !(mid <= afterFirst) then None
      else
        var rest2 := afterFirst[|mid|..];
        var second := Before(rest2, ';');
        if rest2[|second|..] == close then Some((first, second)) else None
  }

  /** Reads the two sizes back out of a `getResponsiveFontSize` fragment. */
  function ParseResponsiveFontSize(css: string): Option<(string, string)> {
    ParseFragment(css, FontSizeOpen, MediaOpen, MediaClose)
  }

  lemma ParseFragmentRoundTrip(open: string, first: string, mid: string, second: string, close: string)
    requires ';' !in first && ';' !in second
    requires |mid| > 0 && mid[0] == ';' && |close| > 0 && close[0] == ';'
    ensures ParseFragment(open + (first + (mid + (second + close))), open, mid, close) == Some((first, second))
  {
    var tail2 := second + close;
    var tail1 := first + (mid + tail2);
    assert (open + tail1)[|open|..] == tail1;
    BeforeStopsAt(first, mid + tail2, ';');
    assert tail1[|first|..] == mid + tail2;
    assert (mid + tail2)[|mid|..] == tail2;
    BeforeStopsAt(second, close, ';');
    assert tail2[|second|..] == close;
  }

  /** The fragment carries the desktop size first and the mobile size second,
      and both can be read back when neither contains ';'. */
  lemma FontSizeRoundTrip(desktopStyle: string, mobileStyle: string)
    requires ';' !in desktopStyle && ';' !in mobileStyle
    ensures ParseResponsiveFontSize(GetResponsiveFontSize(desktopStyle, mobileStyle))
         == Some((desktopStyle, mobileStyle))
  {
    assert MediaOpen[0] == ';' && MediaClose[0] == ';';
    assert GetResponsiveFontSize(desktopStyle, mobileStyle)
        == FontSizeOpen + (desktopStyle + (MediaOpen + (mobileStyle + MediaClose)));
    ParseFragmentRoundTrip(FontSizeOpen, desktopStyle, MediaOpen, mobileStyle, MediaClose);
  }

  /** `useIsMobile`: false without a window; otherwise whether the window's
      inner width is at most `parseInt("768px")`. */
  function UseIsMobile(innerWidth: Option<int>): (r: bool)
    ensures r <==> innerWidth.Some? && innerWidth.value <= 768
  {
    var limit := ParseInt(MobileBreakpoint);
    assert limit == Some(768) by {
      assert NatToString(768) == "768" by {
        assert NatToString(7) == "7";
        assert NatToString(76) == NatToString(7) + "6";
      }
      assert MobileBreakpoint == NatToString(768) + "px";
      ParseIntOfNatToString(768, "px");
    }
    innerWidth.Some? && limit.Some? && innerWidth.value <= limit.value
  }
}
