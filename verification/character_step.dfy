/**
 * The first wizard step (CharacterSelectionScreen.tsx:24-80): the child
 * types the main character's name, at most 20 characters; advancing with a
 * blank name shows an error instead, and any edit clears the error.
 */
module CharacterStep {
  import opened Optional
  import opened Text
  import opened Entities

  /** The text input's `maxLength`. */
  const MaxNameLength: nat := 20

  /** The error shown when the name is blank. */
  const MissingName: string := "Lütfen bir karakter adı giriniz"

  /** The screen state: the name typed so far and the error shown ("" for none). */
  datatype Form = Form(name: string, error: string)

  const Initial: Form := Form("", "")

  /** `onChangeText`: the input keeps at most the first 20 characters of
      what is typed, and the error is cleared. */
  function Edit(text: string): (f: Form)
    ensures f.error == ""
    ensures |f.name| <= MaxNameLength
    ensures |text| <= MaxNameLength ==> f.name == text
    ensures |text| > MaxNameLength ==> |f.name| == MaxNameLength
    ensures f.name <= text
  {
    Form(if |text| <= MaxNameLength then text else text[..MaxNameLength], "")
  }

  /** What pressing "next" does: stay with an error, or advance with the
      main character. */
  datatype Outcome = Stay(form: Form) | Advance(main: Character)

  /** `handleNextStep`: a blank name keeps the screen and shows the error;
      any other name advances with a main character carrying the name as
      typed, untrimmed, the given id and the description "Ana karakter". */
  function Next(form: Form, id: string): (o: Outcome)
    ensures o.Stay? <==> Blank(form.name)
    ensures o.Stay? ==> o.form == Form(form.name, MissingName)
    ensures o.Advance? ==> o.main == Character(id, form.name, Main, Some("Ana karakter"))
  {
    if Trim(form.name) == "" then Stay(form.(error := MissingName))
    else Advance(Character(id, form.name, Main, Some("Ana karakter")))
  }

  /** The form the screen can be in: a name of at most 20 characters, and
      either no error or the blank-name error for a blank name. */
  predicate Reachable(form: Form) {
    && |form.name| <= MaxNameLength
    && (form.error == "" || (form.error == MissingName && Blank(form.name)))
  }

  /** The screen starts reachable, and editing and a refused "next" keep it
      so; an advancing name is never blank, so it is never the empty
      string the assembler replaces by "Çocuk". */
  lemma StepsStayReachable(form: Form, text: string, id: string)
    requires Reachable(form)
    ensures Reachable(Initial)
    ensures Reachable(Edit(text))
    ensures Next(form, id).Stay? ==> Reachable(Next(form, id).form)
    ensures Next(form, id).Advance? ==> Next(form, id).main.name != ""
  {
  }
}
