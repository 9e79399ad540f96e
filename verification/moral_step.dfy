/**
 * The third wizard step (MoralValueSelectionScreen.tsx:67-105, 195-206):
 * moral values are toggled in and out of an ordered selection, and the
 * step advances only with at least one value selected.
 */
module MoralStep {
  import opened Optional
  import opened Entities
  import opened Selection
  import ThemeStep
  import Catalog
  import Styles

  /** The screen state: what it was entered with, and the values selected
      so far in the order they were selected. */
  datatype Form = Form(params: ThemeStep.MoralParams, selected: seq<MoralValue>)

  /** The screen as it opens: nothing selected. */
  function Start(params: ThemeStep.MoralParams): (f: Form)
    ensures f.params == params && f.selected == []
  {
    Form(params, [])
  }

  /** `toggleMoralValue`: a value whose id is selected is dropped,
      otherwise it is added at the end. */
  function Toggle(form: Form, v: MoralValue): (f: Form)
    ensures f.params == form.params
    ensures HasKey(f.selected, MoralValueId, v.id) <==> !HasKey(form.selected, MoralValueId, v.id)
    ensures !HasKey(form.selected, MoralValueId, v.id) ==> f.selected == form.selected + [v]
    ensures HasKey(form.selected, MoralValueId, v.id) ==>
              && |f.selected| < |form.selected|
              && (forall i | 0 <= i < |f.selected| :: f.selected[i] in form.selected && f.selected[i].id != v.id)
              && (forall i | 0 <= i < |form.selected| && form.selected[i].id != v.id :: form.selected[i] in f.selected)
    ensures Without(f.selected, MoralValueId, v.id) == Without(form.selected, MoralValueId, v.id)
  {
    form.(selected := Selection.Toggle(form.selected, MoralValueId, v))
  }

  /** The parameters the options screen receives. */
  datatype OptionsParams = OptionsParams(mainCharacter: Option<Character>, theme: StoryTheme,
                                         moralValues: seq<MoralValue>)

  /** Whether the "next" button is enabled. */
  predicate CanAdvance(form: Form) {
    |form.selected| > 0
  }

  /** `handleNextStep`: nothing happens while the selection is empty;
      otherwise main character and theme pass through and the moral values
      are the selection. */
  function Next(form: Form): (p: Option<OptionsParams>)
    ensures p.None? <==> !CanAdvance(form)
    ensures p.Some? ==>
              && p.value.mainCharacter == form.params.mainCharacter
              && p.value.theme == form.params.theme
              && p.value.moralValues == form.selected
              && |p.value.moralValues| > 0
  {
    if |form.selected| == 0 then None
    else Some(OptionsParams(form.params.mainCharacter, form.params.theme, form.selected))
  }

  /** The first value selected stays first while other values are toggled:
      it is the value the story is about. */
  lemma FirstStaysFirst(form: Form, v: MoralValue)
    requires |form.selected| > 0 && form.selected[0].id != v.id
    ensures |Toggle(form, v).selected| > 0 && Toggle(form, v).selected[0] == form.selected[0]
  {
    ToggleKeepsHead(form.selected, MoralValueId, v);
  }

  /** Toggling the same new value twice gives the screen back as it was. */
  lemma ToggleTwiceRestores(form: Form, v: MoralValue)
    requires !HasKey(form.selected, MoralValueId, v.id)
    ensures Toggle(Toggle(form, v), v) == form
  {
    ToggleTwice(form.selected, MoralValueId, v);
  }

  /** The card style of a moral value. */
  function StyleOf(v: MoralValue): Styles.MoralValueStyle {
    Styles.MoralValueStyleOf(v.title)
  }

  /** Every catalog moral value has its own entry in the style table, so
      no catalog card falls back to the sparkles style. */
  lemma CatalogMoralValuesStyled()
    ensures forall j | 0 <= j < |Catalog.MoralValues| ::
              Catalog.MoralValues[j].title in Styles.MoralValueStyles
  {
  }
}
