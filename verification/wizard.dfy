/**
 * The wizard as a whole: Character -> Theme -> Moral -> Options -> Preview.
 * Each step refuses to advance until its guard holds and hands the earlier
 * steps' choices on unchanged, so the story the preview assembles is about
 * the name typed on the first screen, the theme chosen on the second and
 * the first value selected on the third.
 */
module Wizard {
  import opened Optional
  import opened Text
  import opened Entities
  import opened StoryTemplates
  import opened StoryAssembler
  import CharacterStep
  import ThemeStep
  import MoralStep
  import OptionsStep
  import Catalog

  /** The configuration the wizard hands to the preview, or `None` when
      some step refuses to advance: the name form of the first step, the
      theme form of the second (entered with the first step's character),
      the moral values selected on the third and the options form of the
      fourth (entered with the third step's parameters). */
  function Run(name: CharacterStep.Form, id: string, theme: ThemeStep.Form,
               morals: seq<MoralValue>, options: OptionsStep.Form, ids: nat -> string): (config: Option<StoryConfig>)
    ensures config.Some? <==> !Blank(name.name) && theme.selected.Some? && |morals| > 0
  {
    match CharacterStep.Next(name, id)
    case Stay(_) => None
    case Advance(main) =>
      match ThemeStep.Next(ThemeStep.Form(Some(main), theme.selected))
      case None => None
      case Some(mp) =>
        match MoralStep.Next(MoralStep.Form(mp, morals))
        case None => None
        case Some(op) => Some(OptionsStep.Finish(options.(params := op), ids))
  }

  /** When every guard holds, the configuration the wizard produces
      carries the choices of every step: the main character named as
      typed, the chosen theme, and the selected moral values, never an
      empty list. */
  lemma ChoicesReachPreview(name: CharacterStep.Form, id: string, theme: ThemeStep.Form,
                            morals: seq<MoralValue>, options: OptionsStep.Form, ids: nat -> string)
    requires !Blank(name.name) && theme.selected.Some? && |morals| > 0
    ensures var config := Run(name, id, theme, morals, options, ids).value;
            && config.mainCharacter == Some(Character(id, name.name, Main, Some("Ana karakter")))
            && config.theme == theme.selected
            && config.moralValues == Some(morals) && morals != []
            && config.storyLength == Some(options.storyLength)
            && config.supportingCharacters == Some(options.selectedCharacters)
  {
  }

  /** The story the preview then tells is titled with the name typed on
      the first screen and the first moral value selected on the third,
      never with a default, and it is told in the chosen theme's title
      (or "Macera" for a theme with an empty title). */
  lemma StoryOfTheWizard(name: CharacterStep.Form, id: string, theme: ThemeStep.Form,
                         morals: seq<MoralValue>, options: OptionsStep.Form, ids: nat -> string, pick: nat)
    requires !Blank(name.name) && theme.selected.Some? && |morals| > 0
    ensures var config := Run(name, id, theme, morals, options, ids).value;
            && MainName(config) == name.name
            && MainMoral(config) == morals[0].title
            && StoryTitle(config) == name.name + " ve " + morals[0].title + " Macerası"
            && (theme.selected.value.title != "" ==> ThemeName(config) == theme.selected.value.title)
            && (theme.selected.value.title == "" ==> ThemeName(config) == "Macera")
  {
    ChoicesReachPreview(name, id, theme, morals, options, ids);
  }

  /** Of the five catalog themes exactly the first two, "Macera" and
      "Uzay ve Gezegenler", have a dedicated story branch; the other three
      are told with the generic paragraphs. */
  lemma CatalogBranches()
    ensures BranchOf(Catalog.Themes[0].title) == Adventure
    ensures BranchOf(Catalog.Themes[1].title) == Space
    ensures forall j | 2 <= j < |Catalog.Themes| :: BranchOf(Catalog.Themes[j].title) == Generic
  {
  }
}
