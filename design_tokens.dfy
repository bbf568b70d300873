/** The constant tables of the design system that the modelled logic reads:
    the colour palette, the heading text styles (desktop and mobile) and the
    mobile breakpoint. */
module DesignTokens {

  const Green := "#E5F902"
  const Dun := "#CFBFAC"
  const Blue := "#C7EEFF"
  const Pink := "#FBE5FC"
  const LightGreen := "#D2FFD2"
  const Beige := "#FFE5D2"
  const White := "#FFFFFF"
  const Grey100 := "#F1F3F4"
  const Grey500 := "#BFC9CA"
  const Grey800 := "#202222"
  const Black := "#000000"

  /** A heading text style record. */
  datatype TextStyle = TextStyle(
    fontFamily: string,
    fontWeight: nat,
    fontSize: string,
    letterSpacing: string,
    lineHeight: string)

  datatype Heading = H1 | H2 | H3

  const FunnelDisplay := "var(--font-funnel-display), sans-serif"

  /** `designTokens.textStyles.h1` .. `h3`. */
  const DesktopHeadings: map<Heading, TextStyle> := map[
    H1 := TextStyle("Inter, sans-serif", 500, "2.5rem", "-0.06em", "1.1"),
    H2 := TextStyle(FunnelDisplay, 400, "1.625rem", "-0.03em", "1.1"),
    H3 := TextStyle("Inter, sans-serif", 500, "1.125rem", "-0.04em", "1.25rem")
  ]

  /** `designTokens.mobileTextStyles`: an entry for each of h1, h2 and h3. */
  const MobileHeadings: map<Heading, TextStyle> := map[
    H1 := TextStyle("Inter, sans-serif", 500, "2.5rem", "-0.06em", "1.1"),
    H2 := TextStyle(FunnelDisplay, 400, "1.25rem", "-0.03em", "1.1"),
    H3 := TextStyle("Inter, sans-serif", 500, "1.125rem", "-0.04em", "1.25rem")
  ]

  /** Both heading tables have an entry for every heading level. */
  lemma HeadingTablesCover(h: Heading)
    ensures h in DesktopHeadings && h in MobileHeadings
  {
    if h == H1 {
    } else if h == H2 {
    } else {
    }
  }

  /** `designTokens.breakpoints.mobile`. */
  const MobileBreakpoint := "768px"
}
