/**
 * The fourth wizard step (StoryOptionsScreen.tsx:101-204, 320-370): story
 * length, helpers (sample ones toggled by id, or new ones typed in with a
 * role), custom items (sample ones toggled by id, or typed in as a
 * comma-separated list), the two feature flags, and the configuration
 * handed to the preview.
 */
module OptionsStep {
  import opened Optional
  import opened Text
  import opened Entities
  import opened Selection
  import opened StoryAssembler
  import MoralStep
  import Catalog

  /** The roles a new helper can be given; the first is the default. */
  const CharacterRoles: seq<string> := [
    "Arkadaş", "En iyi arkadaş", "Anne", "Baba", "Erkek Kardeş", "Kız Kardeş",
    "Büyük anne", "Büyük baba", "Öğretmen", "Evcil Hayvan", "Mentor", "Komşu"
  ]

  /** The description of every item typed in as text. */
  const TypedItemDescription: string := "Özel olarak eklenmiş öğe"

  /** The screen state. */
  datatype Form = Form(
    params: MoralStep.OptionsParams,
    storyLength: Length,
    selectedCharacters: seq<Character>,
    selectedItems: seq<CustomItem>,
    customItemsText: string,
    enableSoundEffects: bool,
    enableTTS: bool,
    newCharacterName: string,
    selectedRole: string)

  /** The screen as it opens: a medium story, nothing selected or typed,
      both features off, the role "Arkadaş". */
  function Start(params: MoralStep.OptionsParams): (f: Form)
    ensures f.params == params
    ensures f.storyLength == Medium && f.selectedCharacters == [] && f.selectedItems == []
    ensures f.customItemsText == "" && f.newCharacterName == ""
    ensures !f.enableSoundEffects && !f.enableTTS
    ensures f.selectedRole == CharacterRoles[0] == "Arkadaş"
  {
    Form(params, Medium, [], [], "", false, false, "", CharacterRoles[0])
  }

  /** Choosing a role from the picker. */
  function SelectRole(form: Form, k: nat): (f: Form)
    requires k < |CharacterRoles|
    ensures f.selectedRole == CharacterRoles[k]
    ensures f == form.(selectedRole := f.selectedRole)
  {
    form.(selectedRole := CharacterRoles[k])
  }

  /** `toggleCharacter`. */
  function ToggleCharacter(form: Form, c: Character): (f: Form)
    ensures HasKey(f.selectedCharacters, CharacterId, c.id) <==> !HasKey(form.selectedCharacters, CharacterId, c.id)
    ensures !HasKey(form.selectedCharacters, CharacterId, c.id) ==> f.selectedCharacters == form.selectedCharacters + [c]
    ensures HasKey(form.selectedCharacters, CharacterId, c.id) ==>
              && |f.selectedCharacters| < |form.selectedCharacters|
              && (forall i | 0 <= i < |f.selectedCharacters| ::
                    f.selectedCharacters[i] in form.selectedCharacters && f.selectedCharacters[i].id != c.id)
              && (forall i | 0 <= i < |form.selectedCharacters| && form.selectedCharacters[i].id != c.id ::
                    form.selectedCharacters[i] in f.selectedCharacters)
    ensures Without(f.selectedCharacters, CharacterId, c.id) == Without(form.selectedCharacters, CharacterId, c.id)
    ensures f == form.(selectedCharacters := f.selectedCharacters)
  {
    form.(selectedCharacters := Toggle(form.selectedCharacters, CharacterId, c))
  }

  /** `toggleItem`. */
  function ToggleItem(form: Form, item: CustomItem): (f: Form)
    ensures HasKey(f.selectedItems, CustomItemId, item.id) <==> !HasKey(form.selectedItems, CustomItemId, item.id)
    ensures !HasKey(form.selectedItems, CustomItemId, item.id) ==> f.selectedItems == form.selectedItems + [item]
    ensures HasKey(form.selectedItems, CustomItemId, item.id) ==>
              && |f.selectedItems| < |form.selectedItems|
              && (forall i | 0 <= i < |f.selectedItems| ::
                    f.selectedItems[i] in form.selectedItems && f.selectedItems[i].id != item.id)
              && (forall i | 0 <= i < |form.selectedItems| && form.selectedItems[i].id != item.id ::
                    form.selectedItems[i] in f.selectedItems)
    ensures Without(f.selectedItems, CustomItemId, item.id) == Without(form.selectedItems, CustomItemId, item.id)
    ensures f == form.(selectedItems := f.selectedItems)
  {
    form.(selectedItems := Toggle(form.selectedItems, CustomItemId, item))
  }

  /** Toggling the same new item twice gives the screen back as it was. */
  lemma ToggleItemTwice(form: Form, item: CustomItem)
    requires !HasKey(form.selectedItems, CustomItemId, item.id)
    ensures ToggleItem(ToggleItem(form, item), item) == form
  {
    ToggleTwice(form.selectedItems, CustomItemId, item);
  }

  /** Toggling the same new helper twice gives the screen back as it was. */
  lemma ToggleCharacterTwice(form: Form, c: Character)
    requires !HasKey(form.selectedCharacters, CharacterId, c.id)
    ensures ToggleCharacter(ToggleCharacter(form, c), c) == form
  {
    ToggleTwice(form.selectedCharacters, CharacterId, c);
  }

  /** Whether the "add" button is enabled. */
  predicate CanAdd(form: Form) {
    !Blank(form.newCharacterName)
  }

  /** The helper `addNewCharacter` creates: the name as typed, untrimmed,
      and the selected role as its description. */
  function NewHelper(form: Form, id: string): Character {
    Character(id, form.newCharacterName, Supporting, Some(form.selectedRole))
  }

  /** `addNewCharacter`: nothing happens for a blank name; otherwise the
      new helper is appended and the name field is cleared. */
  function AddNewCharacter(form: Form, id: string): (f: Form)
    ensures !CanAdd(form) ==> f == form
    ensures CanAdd(form) ==>
              && f.selectedCharacters == form.selectedCharacters + [NewHelper(form, id)]
              && f.newCharacterName == ""
              && f == form.(selectedCharacters := f.selectedCharacters, newCharacterName := "")
  {
    if Trim(form.newCharacterName) == "" then form
    else form.(selectedCharacters := form.selectedCharacters + [NewHelper(form, id)], newCharacterName := "")
  }

  /** Removing a just-added helper by its (fresh) id gives back the
      helpers selected before. */
  lemma AddThenRemove(form: Form, id: string)
    requires CanAdd(form) && !HasKey(form.selectedCharacters, CharacterId, id)
    ensures ToggleCharacter(AddNewCharacter(form, id), NewHelper(form, id)).selectedCharacters
              == form.selectedCharacters
  {
    ToggleTwice(form.selectedCharacters, CharacterId, NewHelper(form, id));
  }

  /** `pieces.map(p => p.trim())`. */
  function TrimAll(ps: seq<string>): (ts: seq<string>)
    ensures |ts| == |ps|
    ensures forall i | 0 <= i < |ps| :: ts[i] == Trim(ps[i])
    decreases |ps|
  {
    if |ps| == 0 then [] else [Trim(ps[0])] + TrimAll(ps[1..])
  }

  /** `pieces.filter(p => p !== "")`, keeping the order. */
  function NonEmpty(ps: seq<string>): (r: seq<string>)
    ensures forall i | 0 <= i < |r| :: r[i] != "" && r[i] in ps
    ensures forall i | 0 <= i < |ps| && ps[i] != "" :: ps[i] in r
    ensures |r| <= |ps|
    ensures (forall i | 0 <= i < |ps| :: ps[i] != "") ==> r == ps
    ensures (forall i | 0 <= i < |ps| :: ps[i] == "") ==> r == []
    decreases |ps|
  {
    if |ps| == 0 then []
    else
      var rest := NonEmpty(ps[1..]);
      assert (forall i | 0 <= i < |ps| :: ps[i] != "") ==> ps == [ps[0]] + ps[1..];
      if ps[0] == "" then rest else [ps[0]] + rest
  }

  /** The filter works piecewise, so the pieces it keeps stay in input
      order and each keeps its multiplicity. */
  lemma {:induction false} NonEmptyAppend(a: seq<string>, b: seq<string>)
    ensures NonEmpty(a + b) == NonEmpty(a) + NonEmpty(b)
    decreases |a|
  {
    if |a| == 0 {
      assert a + b == b;
    } else {
      var ab := a + b;
      assert ab[1..] == a[1..] + b;
      assert ab[0] == a[0];
      NonEmptyAppend(a[1..], b);
      var n := NonEmpty(a[1..] + b);
      if a[0] == "" {
        assert NonEmpty(ab) == n;
      } else {
        assert NonEmpty(ab) == [a[0]] + n;
      }
    }
  }

  /** One piece: kept exactly when it is not empty. */
  lemma NonEmptyOne(p: string)
    ensures NonEmpty([p]) == if p == "" then [] else [p]
  {
    assert [p][1..] == [];
  }

  /** The item names typed in `text`: cut at every comma, trimmed, empty
      pieces dropped. */
  function TypedNames(text: string): (names: seq<string>)
    ensures forall i | 0 <= i < |names| :: names[i] != "" && Trimmed(names[i]) && ',' !in names[i]
  {
    var pieces := Split(text, ",");
    SplitPieces(text, ",");
    var trimmed := TrimAll(pieces);
    forall i | 0 <= i < |trimmed| ensures Trimmed(trimmed[i]) && ',' !in trimmed[i] {
      TrimKeeps(pieces[i], ',');
    }
    NonEmpty(trimmed)
  }

  /** Trimming removes characters and never adds one. */
  lemma TrimKeeps(s: string, c: char)
    requires c !in s
    ensures c !in Trim(s)
  {
    var r := Trim(s);
    forall k | 0 <= k < |r| ensures r[k] != c {
      assert r[k] in s;
    }
  }

  /** The custom items made from the typed names, with ids from `ids`. */
  function TypedItems(names: seq<string>, ids: nat -> string, from: nat): (items: seq<CustomItem>)
    ensures |items| == |names|
    ensures forall i | 0 <= i < |names| ::
              items[i] == CustomItem(ids(from + i), names[i], Some(TypedItemDescription))
    decreases |names|
  {
    if |names| == 0 then []
    else [CustomItem(ids(from), names[0], Some(TypedItemDescription))] + TypedItems(names[1..], ids, from + 1)
  }

  /** `processCustomItems`: the selected items, unchanged, then one item per
      name typed in the text, in order. The id generator is the parameter
      `ids`, giving the id of the k-th typed item. */
  function ProcessCustomItems(form: Form, ids: nat -> string): (items: seq<CustomItem>)
    ensures form.selectedItems <= items
    ensures var typed := items[|form.selectedItems|..];
            && |typed| == |TypedNames(form.customItemsText)|
            && forall i | 0 <= i < |typed| ::
                 && typed[i].name == TypedNames(form.customItemsText)[i]
                 && typed[i].name != "" && Trimmed(typed[i].name) && ',' !in typed[i].name
                 && typed[i].description == Some(TypedItemDescription)
  {
    var typed := TypedItems(TypedNames(form.customItemsText), ids, 0);
    assert (form.selectedItems + typed)[|form.selectedItems|..] == typed;
    form.selectedItems + typed
  }

  /** Text made only of commas and white space cuts into blank pieces. */
  lemma BlankPieces(text: string)
    requires forall k | 0 <= k < |text| :: text[k] == ',' || IsWhite(text[k])
    ensures forall i | 0 <= i < |Split(text, ",")| :: Blank(Split(text, ",")[i])
  {
    var pieces := Split(text, ",");
    SplitPieces(text, ",");
    forall i | 0 <= i < |pieces| ensures Blank(pieces[i]) {
      var p := pieces[i];
      assert ',' !in p;
      forall k | 0 <= k < |p| ensures IsWhite(p[k]) {
        assert p[k] in p;
        assert p[k] in text;
      }
    }
  }

  /** Blank pieces all trim to nothing, so there are no names. */
  lemma NoNames(text: string)
    requires forall i | 0 <= i < |Split(text, ",")| :: Blank(Split(text, ",")[i])
    ensures TypedNames(text) == []
  {
    var trimmed := TrimAll(Split(text, ","));
    assert forall i | 0 <= i < |trimmed| :: trimmed[i] == "";
  }

  /** Text made only of commas and white space adds no item. */
  lemma NothingTyped(form: Form, ids: nat -> string)
    requires forall k | 0 <= k < |form.customItemsText| ::
               form.customItemsText[k] == ',' || IsWhite(form.customItemsText[k])
    ensures ProcessCustomItems(form, ids) == form.selectedItems
  {
    BlankPieces(form.customItemsText);
    NoNames(form.customItemsText);
    assert form.selectedItems + [] == form.selectedItems;
  }

  /** Trimming strings that have no white space at their ends changes none. */
  lemma TrimAllTrimmed(names: seq<string>)
    requires forall i | 0 <= i < |names| :: Trimmed(names[i])
    ensures TrimAll(names) == names
  {
    var trimmed := TrimAll(names);
    forall i | 0 <= i < |names| ensures trimmed[i] == names[i] {
      TrimOfTrimmed(names[i]);
    }
  }

  /** Names that are non-empty, have no white space at their ends and no
      comma, typed as a comma-separated list, come back exactly, in order. */
  lemma TypedNamesJoin(names: seq<string>)
    requires forall i | 0 <= i < |names| :: names[i] != "" && Trimmed(names[i]) && ',' !in names[i]
    ensures TypedNames(Join(names, ",")) == names
  {
    if |names| == 0 {
      assert Split("", ",") == [""];
      assert TrimAll([""]) == [""];
    } else {
      SplitJoin(names, ",");
      TrimAllTrimmed(names);
    }
  }

  /** `handleNextStep`: the configuration handed to the preview. Main
      character, theme and moral values pass through from the earlier
      steps. */
  function Finish(form: Form, ids: nat -> string): (config: StoryConfig)
    ensures config.mainCharacter == form.params.mainCharacter
    ensures config.theme == Some(form.params.theme)
    ensures config.moralValues == Some(form.params.moralValues)
    ensures config.storyLength == Some(form.storyLength)
    ensures config.supportingCharacters == Some(form.selectedCharacters)
    ensures config.customItems == Some(ProcessCustomItems(form, ids))
    ensures config.enableSoundEffects == Some(form.enableSoundEffects)
    ensures config.enableTTS == Some(form.enableTTS)
  {
    StoryConfig(form.params.mainCharacter, Some(form.params.theme), Some(form.params.moralValues),
                Some(form.storyLength), Some(form.selectedCharacters), Some(ProcessCustomItems(form, ids)),
                Some(form.enableSoundEffects), Some(form.enableTTS))
  }

  /** Advancing from the screen as it opened gives a medium story with no
      helpers, no items and both features off. */
  lemma FinishDefaults(params: MoralStep.OptionsParams, ids: nat -> string)
    ensures var config := Finish(Start(params), ids);
            && config.storyLength == Some(Medium)
            && config.supportingCharacters == Some([])
            && config.customItems == Some([])
            && config.enableSoundEffects == Some(false) && config.enableTTS == Some(false)
  {
    NothingTyped(Start(params), ids);
  }

  /** The sample helpers offered on the screen, and whether each is
      selected: by id, as the toggle decides. */
  function OfferedHelpers(): (hs: seq<Character>)
    ensures forall c :: c in hs <==> c in Catalog.SampleCharacters && c.kind == Supporting
  {
    Catalog.Helpers(Catalog.SampleCharacters)
  }

  predicate IsHelperSelected(form: Form, c: Character) {
    HasKey(form.selectedCharacters, CharacterId, c.id)
  }
}
