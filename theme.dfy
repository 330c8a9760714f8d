/**
 * Chat colour schemes: a background that is a gradient, a solid colour or
 * an image, and the colours of the two message bubbles and the input.
 */
module Theme {
  import opened Wrappers

  datatype FillType = Gradient | Solid | Picture

  /** A colour's `value`: every part is optional. */
  datatype ColorValue = ColorValue(start: Option<string>, end: Option<string>, color: Option<string>, image: Option<string>)

  datatype Color = Color(fill: FillType, value: ColorValue)

  datatype Bubble = Bubble(background: Option<Color>, foreground: Option<string>, fontFamily: Option<string>)

  datatype InputStyle = InputStyle(background: Option<string>, foreground: Option<string>)

  datatype ColorScheme = ColorScheme(
    name: string,
    background: Color,
    userBubble: Option<Bubble>,
    assistantBubble: Option<Bubble>,
    input: Option<InputStyle>)

  function GradientOf(start: string, end: string): Color {
    Color(Gradient, ColorValue(Some(start), Some(end), None, None))
  }

  function SolidOf(color: string): Color {
    Color(Solid, ColorValue(None, None, Some(color), None))
  }

  function BubbleOf(color: string, foreground: string, fontFamily: string): Bubble {
    Bubble(Some(SolidOf(color)), Some(foreground), Some(fontFamily))
  }

  /** `ColorSchemes`: the four schemes by key. */
  const ColorSchemes: map<string, ColorScheme> := map[
    "rose" := ColorScheme("rose", GradientOf("#E6E2E5", "#E3ACAB"),
      Some(BubbleOf("rgba(255, 255, 255, 0.1)", "#333333", "Poppins_100Thin")),
      Some(BubbleOf("transparent", "black", "EBGaramond_400Regular")),
      Some(InputStyle(Some("transparent"), Some("black")))),
    "dark" := ColorScheme("dark", SolidOf("#000000"),
      Some(BubbleOf("#FF3366", "#FFFFFF", "Poppins_100Thin")),
      Some(BubbleOf("#1A1A1A", "#FFFFFF", "EBGaramond_400Regular")),
      Some(InputStyle(Some("#1A1A1A"), Some("#FFFFFF")))),
    "whimsical" := ColorScheme("whimsical", GradientOf("#FFE5E5", "#FFC9C9"),
      Some(BubbleOf("#FFB6C1", "#333333", "IngridDarling_400Regular")),
      Some(BubbleOf("#FFF0F5", "#333333", "PlayfairDisplay_400Regular")),
      Some(InputStyle(Some("#FFF0F5"), Some("#333333")))),
    "elegant" := ColorScheme("elegant", GradientOf("#2C3E50", "#1A1A1A"),
      Some(BubbleOf("#34495E", "#FFFFFF", "CormorantGaramond_300Light")),
      Some(BubbleOf("#2C3E50", "#FFFFFF", "PlayfairDisplay_500Medium")),
      Some(InputStyle(Some("#34495E"), Some("#FFFFFF"))))
  ]

  /** Every scheme is filed under its own name, and every scheme sets both bubbles and the input. */
  lemma SchemesWellFormed()
    ensures ColorSchemes.Keys == {"rose", "dark", "whimsical", "elegant"}
    ensures forall k :: k in ColorSchemes ==> ColorSchemes[k].name == k
    ensures forall k :: k in ColorSchemes ==>
      ColorSchemes[k].userBubble.Some? && ColorSchemes[k].assistantBubble.Some? && ColorSchemes[k].input.Some?
  {
  }

  /** `x || '#000000'`: a missing or empty colour falls back to black. */
  function OrBlack(x: Option<string>): (c: string)
    ensures x.Some? && x.value != "" ==> c == x.value
    ensures x.None? || x.value == "" ==> c == "#000000"
  {
    if x.Some? && x.value != "" then x.value else "#000000"
  }

  /** What `renderBackground` draws. */
  datatype Backdrop =
    | LinearGradient(from: string, to: string)
    | SolidView(backgroundColor: Option<string>)
    | ImageView(source: Option<string>)

  /** `renderBackground`: a gradient with both ends filled in, a plain view, or an image. */
  function RenderBackground(c: Color): (b: Backdrop)
    ensures c.fill == Gradient <==> b.LinearGradient?
    ensures b.LinearGradient? ==> b.from == OrBlack(c.value.start) && b.to == OrBlack(c.value.end)
    ensures b.SolidView? ==> b.backgroundColor == c.value.color
    ensures b.ImageView? ==> c.fill == Picture && b.source == c.value.image
  {
    match c.fill
    case Gradient => LinearGradient(OrBlack(c.value.start), OrBlack(c.value.end))
    case Solid => SolidView(c.value.color)
    case Picture => ImageView(c.value.image)
  }

  /** `getBackgroundStyle`'s `backgroundColor`: the solid colour, or transparent under a gradient or an image. */
  function GetBackgroundStyle(c: Color): (backgroundColor: Option<string>)
    ensures c.fill == Solid ==> backgroundColor == c.value.color
    ensures c.fill != Solid ==> backgroundColor == Some("transparent")
  {
    match c.fill
    case Gradient => Some("transparent")
    case Solid => c.value.color
    case Picture => Some("transparent")
  }

  /**
   * The style agrees with what is drawn: it is transparent exactly where a
   * gradient or an image is drawn behind it, and under a plain view it is
   * that view's colour.
   */
  lemma StyleMatchesBackdrop(c: Color)
    ensures !RenderBackground(c).SolidView? ==> GetBackgroundStyle(c) == Some("transparent")
    ensures RenderBackground(c).SolidView? ==> GetBackgroundStyle(c) == RenderBackground(c).backgroundColor
  {
  }

  /** A gradient with a missing start and an empty end is drawn black to black. */
  lemma BareGradientIsBlack()
    ensures RenderBackground(Color(Gradient, ColorValue(None, Some(""), None, None))) == LinearGradient("#000000", "#000000")
  {
  }

  /** The dark scheme's background is its solid black; the other three are transparent over their gradients. */
  lemma SchemeBackgroundStyles()
    ensures GetBackgroundStyle(ColorSchemes["dark"].background) == Some("#000000")
    ensures forall k :: k in ColorSchemes && k != "dark" ==> GetBackgroundStyle(ColorSchemes[k].background) == Some("transparent")
  {
  }
}
