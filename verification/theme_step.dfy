/**
 * The second wizard step (ThemeSelectionScreen.tsx:78-136): one theme card
 * may be selected at a time, a card shows as selected when its id is the
 * selected theme's id, and the step advances only once a theme is chosen.
 */
module ThemeStep {
  import opened Optional
  import opened Entities
  import opened Selection
  import Catalog
  import Styles

  /** The screen state: the main character it was entered with (the route
      parameter may be missing) and the selected theme, if any. */
  datatype Form = Form(mainCharacter: Option<Character>, selected: Option<StoryTheme>)

  /** The screen as it opens: nothing selected. */
  function Start(mainCharacter: Option<Character>): (f: Form)
    ensures f.mainCharacter == mainCharacter && f.selected.None?
  {
    Form(mainCharacter, None)
  }

  /** `handleSelectTheme`: the new theme replaces any earlier choice. */
  function Select(form: Form, theme: StoryTheme): (f: Form)
    ensures f.selected == Some(theme)
    ensures f.mainCharacter == form.mainCharacter
  {
    form.(selected := Some(theme))
  }

  /** `selectedTheme?.id === item.id`. */
  predicate IsSelected(form: Form, item: StoryTheme) {
    form.selected.Some? && form.selected.value.id == item.id
  }

  /** The parameters the next screen receives. */
  datatype MoralParams = MoralParams(mainCharacter: Option<Character>, theme: StoryTheme)

  /** Whether the "next" button is enabled. */
  predicate CanAdvance(form: Form) {
    form.selected.Some?
  }

  /** `handleNextStep`: nothing happens without a selection; otherwise the
      main character passes through and the theme is the selected one. */
  function Next(form: Form): (p: Option<MoralParams>)
    ensures p.None? <==> !CanAdvance(form)
    ensures p.Some? ==> p.value.mainCharacter == form.mainCharacter && Some(p.value.theme) == form.selected
  {
    if form.selected.None? then None else Some(MoralParams(form.mainCharacter, form.selected.value))
  }

  /** In a list of themes with distinct ids, selecting one marks exactly
      that card as selected, whatever was selected before. */
  lemma SelectMarksOne(form: Form, themes: seq<StoryTheme>, k: nat)
    requires UniqueKeys(themes, ThemeId) && k < |themes|
    ensures forall j | 0 <= j < |themes| :: IsSelected(Select(form, themes[k]), themes[j]) <==> j == k
  {
    forall j | 0 <= j < |themes| ensures IsSelected(Select(form, themes[k]), themes[j]) <==> j == k {
      if j < k {
        assert ThemeId(themes[j]) != ThemeId(themes[k]);
      } else if k < j {
        assert ThemeId(themes[k]) != ThemeId(themes[j]);
      }
    }
  }

  /** On the catalog, selecting a theme marks exactly its own card. */
  lemma CatalogSelectMarksOne(form: Form, k: nat)
    requires k < |Catalog.Themes|
    ensures forall j | 0 <= j < |Catalog.Themes| ::
              IsSelected(Select(form, Catalog.Themes[k]), Catalog.Themes[j]) <==> j == k
  {
    Catalog.ThemesAreDistinct();
    SelectMarksOne(form, Catalog.Themes, k);
  }

  /** The card style of a theme. */
  function StyleOf(theme: StoryTheme): Styles.ThemeStyle {
    Styles.ThemeStyleOf(theme.title)
  }

  /** Every catalog theme has its own entry in the style table, so no
      catalog card falls back to the books style. */
  lemma CatalogThemesStyled()
    ensures forall j | 0 <= j < |Catalog.Themes| ::
              Catalog.Themes[j].title in Styles.ThemeStyles
              && StyleOf(Catalog.Themes[j]) != Styles.DefaultThemeStyle
  {
  }
}
