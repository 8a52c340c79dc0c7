/** Colour classes the components put on verdicts and scores. A `Hue` names
    the colour family; the components render it with Tailwind class strings. */
module Palette {

  datatype Hue = Red | Orange | Yellow | Green | Gray

  /** Text colour, shade 600: per-engine verdicts and the abuse score. */
  function TextClass(h: Hue): string
  {
    match h
    case Red => "text-red-600"
    case Orange => "text-orange-600"
    case Yellow => "text-yellow-600"
    case Green => "text-green-600"
    case Gray => "text-gray-600"
  }

  /** Badge colour (background 100, text 800): the URL verdict cards. */
  function BadgeClass(h: Hue): string
  {
    match h
    case Red => "bg-red-100 text-red-800"
    case Orange => "bg-orange-100 text-orange-800"
    case Yellow => "bg-yellow-100 text-yellow-800"
    case Green => "bg-green-100 text-green-800"
    case Gray => "bg-gray-100 text-gray-800"
  }

  /** The verdict categories that get a colour of their own. */
  const ColouredVerdicts: set<string> := {"malicious", "suspicious", "harmless"}

  /** Reference classification of a provider verdict category: the three named
      categories get red, yellow and green; every other category, known to the
      provider or not, is gray. */
  function VerdictHue(category: string): (h: Hue)
    ensures h == Red <==> category == "malicious"
    ensures h == Yellow <==> category == "suspicious"
    ensures h == Green <==> category == "harmless"
    ensures h == Gray <==> category !in ColouredVerdicts
    ensures h != Orange
  {
    if category == "malicious" then Red
    else if category == "suspicious" then Yellow
    else if category == "harmless" then Green
    else Gray
  }

  /** Distinct hues render as distinct classes, so the rendered colour tells
      the hues apart. */
  lemma ClassesDistinguishHues(h1: Hue, h2: Hue)
    requires h1 != h2
    ensures TextClass(h1) != TextClass(h2)
    ensures BadgeClass(h1) != BadgeClass(h2)
  {
  }
}
