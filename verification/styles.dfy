/**
 * The per-title style tables of the theme and moral-value cards, each a
 * finite table with a fallback for titles it does not list
 * (ThemeSelectionScreen.tsx:41-69, 130-134 and
 * MoralValueSelectionScreen.tsx:40-57, 98-105), and the palette entries
 * they use (src/constants/theme.ts).
 */
module Styles {

  /** Palette entries, as hexadecimal colour strings. */
  const KidsPrimary: string := "#4898e8"
  const KidsSecondary: string := "#6B48FF"
  const KidsAccent1: string := "#FFB740"
  const KidsAccent2: string := "#44D8BE"
  const KidsAccent3: string := "#78C9FF"
  const KidsBackground: string := "#F5F7FA"
  const GradientPrimary: seq<string> := ["#FF6B7A", "#FF8E9E"]

  datatype ThemeStyle = ThemeStyle(emoji: string, color: string, gradient: seq<string>)

  /** The five themes of the catalog, keyed by title. */
  const ThemeStyles: map<string, ThemeStyle> := map[
    "Macera" := ThemeStyle("\U{1F3D4}\U{FE0F}", KidsAccent1, ["#FFB74080", "#FFDF8A80"]),
    "Uzay ve Gezegenler" := ThemeStyle("\U{1F680}", KidsSecondary, ["#6B48FF80", "#9173FF80"]),
    "Deniz Altı" := ThemeStyle("\U{1F419}", KidsAccent3, ["#78C9FF80", "#A4DFFF80"]),
    "Orman ve Hayvanlar" := ThemeStyle("\U{1F981}", KidsAccent2, ["#44D8BE80", "#7BFFEB80"]),
    "Sihirli Dünya" := ThemeStyle("\U{2728}", KidsPrimary, ["#FF6B7A80", "#FF8E9E80"])
  ]

  /** The books card shown for a title the table does not list. */
  const DefaultThemeStyle: ThemeStyle := ThemeStyle("\U{1F4DA}", KidsPrimary, GradientPrimary)

  /** `THEME_STYLES[title] || {...}`: the table entry, or the default. */
  function ThemeStyleOf(title: string): (s: ThemeStyle)
    ensures title in ThemeStyles ==> s == ThemeStyles[title]
    ensures title !in ThemeStyles ==> s == DefaultThemeStyle
  {
    if title in ThemeStyles then ThemeStyles[title] else DefaultThemeStyle
  }

  /** The books emoji marks exactly the titles the table does not list. */
  lemma ThemeDefaultExactly(title: string)
    ensures ThemeStyleOf(title).emoji == "\U{1F4DA}" <==> title !in ThemeStyles
  {
  }

  datatype MoralValueStyle = MoralValueStyle(emoji: string, color: string)

  /** The fifteen moral-value titles the table knows, keyed by title. */
  const MoralValueStyles: map<string, MoralValueStyle> := map[
    "Cesaret" := MoralValueStyle("\U{1F981}", "#FF9800"),
    "İyilik" := MoralValueStyle("\U{1F496}", "#FF9800"),
    "Sorumluluk" := MoralValueStyle("\U{1F4BC}", "#FF9800"),
    "Azim" := MoralValueStyle("\U{1F525}", "#FF9800"),
    "Affetme" := MoralValueStyle("\U{1F495}", "#FF9800"),
    "Saygı" := MoralValueStyle(":star:", "#FF9800"),
    "Arkadaşlık" := MoralValueStyle("\U{1F91D}", "#FF9800"),
    "Dürüstlük" := MoralValueStyle("\U{2705}", "#4CAF50"),
    "Paylaşma" := MoralValueStyle("\U{1F381}", "#9C27B0"),
    "Empati" := MoralValueStyle("\U{1F496}", "#9C27B0"),
    "Minnettarlık" := MoralValueStyle("\U{1F64F}\U{1F3FB}", "#9C27B0"),
    "Yardımlaşma" := MoralValueStyle("\U{1F932}", "#03A9F4"),
    "Sabır" := MoralValueStyle("\U{23F3}", "#607D8B"),
    "Yaratıcılık" := MoralValueStyle("\U{1F3A8}", "#607D8B"),
    "Doğa Sevgisi" := MoralValueStyle("\U{1F33F}", "#8BC34A")
  ]

  /** The sparkles card shown for a title the table does not list. */
  const DefaultMoralValueStyle: MoralValueStyle := MoralValueStyle("\U{1F4AB}", KidsPrimary)

  /** `MORAL_VALUE_STYLES[value.title] || {...}`: the table entry, or the default. */
  function MoralValueStyleOf(title: string): (s: MoralValueStyle)
    ensures title in MoralValueStyles ==> s == MoralValueStyles[title]
    ensures title !in MoralValueStyles ==> s == DefaultMoralValueStyle
  {
    if title in MoralValueStyles then MoralValueStyles[title] else DefaultMoralValueStyle
  }
}
