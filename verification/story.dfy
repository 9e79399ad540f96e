/**
 * The story assembler, `createStory` (StoryPreviewScreen.tsx:99-231): the
 * fallbacks it resolves from a possibly incomplete configuration, the
 * length factor, and the text it builds (a title line, the body
 * paragraphs, and the closing `# SON`, each block followed by a blank
 * line except the last).
 *
 * The text is defined for any `Wording`; `CreateStory` instantiates it with
 * the source's own paragraphs.
 */
module StoryAssembler {
  import opened Optional
  import opened Text
  import opened Entities
  import opened Paragraphs
  import opened StoryTemplates
  import SourceText

  /** The `storyLength` choices. */
  datatype Length = Short | Medium | Long

  /** The configuration record the preview screen receives: every field may
      be missing (StoryPreviewScreen.tsx:48-66). */
  datatype StoryConfig = StoryConfig(
    mainCharacter: Option<Character>,
    theme: Option<StoryTheme>,
    moralValues: Option<seq<MoralValue>>,
    storyLength: Option<Length>,
    supportingCharacters: Option<seq<Character>>,
    customItems: Option<seq<CustomItem>>,
    enableSoundEffects: Option<bool>,
    enableTTS: Option<bool>)

  /** The block separator: a blank line, the end of every block but the last. */
  const Separator: string := "\n\n"

  /** The last block of every story. */
  const Closing: string := "# SON"

  /** `config.mainCharacter?.name || "Çocuk"`. */
  function MainName(config: StoryConfig): (name: string)
    ensures config.mainCharacter.Some? && config.mainCharacter.value.name != "" ==>
              name == config.mainCharacter.value.name
    ensures config.mainCharacter.None? || config.mainCharacter.value.name == "" ==>
              name == "Çocuk"
  {
    OrElse(if config.mainCharacter.Some? then Some(config.mainCharacter.value.name) else None, "Çocuk")
  }

  /** `config.theme?.title || "Macera"`. */
  function ThemeName(config: StoryConfig): (title: string)
    ensures config.theme.Some? && config.theme.value.title != "" ==> title == config.theme.value.title
    ensures config.theme.None? || config.theme.value.title == "" ==> title == "Macera"
  {
    OrElse(if config.theme.Some? then Some(config.theme.value.title) else None, "Macera")
  }

  /** The titles of the selected moral values, in selection order. */
  function Titles(vs: seq<MoralValue>): (ts: seq<string>)
    ensures |ts| == |vs|
    ensures forall i | 0 <= i < |vs| :: ts[i] == vs[i].title
    decreases |vs|
  {
    if |vs| == 0 then [] else [vs[0].title] + Titles(vs[1..])
  }

  /** `config.moralValues?.map(v => v.title) || ["Arkadaşlık"]`: only a
      missing list takes the default, since an array is truthy even when
      it is empty. */
  function MoralNames(config: StoryConfig): (names: seq<string>)
    ensures config.moralValues.None? ==> names == ["Arkadaşlık"]
    ensures config.moralValues.Some? ==> names == Titles(config.moralValues.value)
  {
    if config.moralValues.Some? then Titles(config.moralValues.value) else ["Arkadaşlık"]
  }

  /** `moralValueNames[0]`, interpolated: the first selected value's title,
      "Arkadaşlık" when no list was given, and the text "undefined" when
      the list is present but empty. */
  function MainMoral(config: StoryConfig): (moral: string)
    ensures config.moralValues.None? ==> moral == "Arkadaşlık"
    ensures config.moralValues.Some? && |config.moralValues.value| > 0 ==>
              moral == config.moralValues.value[0].title
    ensures config.moralValues == Some([]) ==> moral == "undefined"
  {
    var names := MoralNames(config);
    if |names| > 0 then names[0] else "undefined"
  }

  /** A helper as the assembler sees it: a name and a role. */
  datatype Friend = Friend(name: string, role: string)

  /** `{name: c.name, role: c.description || "arkadaş"}` for each helper. */
  function Friends(cs: seq<Character>): (fs: seq<Friend>)
    ensures |fs| == |cs|
    ensures forall i | 0 <= i < |cs| ::
              fs[i] == Friend(cs[i].name, OrElse(cs[i].description, "arkadaş"))
    decreases |cs|
  {
    if |cs| == 0 then [] else [Friend(cs[0].name, OrElse(cs[0].description, "arkadaş"))] + Friends(cs[1..])
  }

  /** The friend of the story: the first supporting character when there is
      one, otherwise "Zeynep", "en iyi arkadaş". */
  function FriendOf(config: StoryConfig): (f: Friend)
    ensures config.supportingCharacters.Some? && |config.supportingCharacters.value| > 0 ==>
              var c := config.supportingCharacters.value[0];
              f == Friend(c.name, OrElse(c.description, "arkadaş"))
    ensures config.supportingCharacters.None? || config.supportingCharacters.value == [] ==>
              f == Friend("Zeynep", "en iyi arkadaş")
  {
    var fs := if config.supportingCharacters.Some? then Friends(config.supportingCharacters.value) else [];
    if |fs| > 0 then fs[0] else Friend("Zeynep", "en iyi arkadaş")
  }

  /** The names of the custom items, in order. */
  function ItemNames(config: StoryConfig): (names: seq<string>)
    ensures config.customItems.None? ==> names == []
    ensures config.customItems.Some? ==>
              && |names| == |config.customItems.value|
              && forall i | 0 <= i < |names| :: names[i] == config.customItems.value[i].name
  {
    if config.customItems.None? then [] else Names(config.customItems.value)
  }

  function Names(items: seq<CustomItem>): (names: seq<string>)
    ensures |names| == |items|
    ensures forall i | 0 <= i < |items| :: names[i] == items[i].name
    decreases |items|
  {
    if |items| == 0 then [] else [items[0].name] + Names(items[1..])
  }

  /** The special item: the custom item the random draw picks, or
      "sihirli kalem" when there are none. The draw
      `Math.floor(Math.random() * n)` is the parameter `pick`, read modulo
      the number of items so that every index is reachable and none is
      out of range. */
  function SpecialItem(names: seq<string>, pick: nat): (item: string)
    ensures |names| > 0 ==> item in names
    ensures pick < |names| ==> item == names[pick]
    ensures |names| == 0 ==> item == "sihirli kalem"
  {
    if |names| > 0 then names[pick % |names|] else "sihirli kalem"
  }

  /** 1 for "short", 2 for "medium", and 3 for "long" or a missing length. */
  function LengthFactor(length: Option<Length>): (factor: nat)
    ensures 1 <= factor <= 3
    ensures factor == 1 <==> length == Some(Short)
    ensures factor == 2 <==> length == Some(Medium)
  {
    if length == Some(Short) then 1 else if length == Some(Medium) then 2 else 3
  }

  /** The values the templates interpolate. */
  function CastOf(config: StoryConfig, pick: nat): Cast {
    Cast(MainName(config), FriendOf(config).name, SpecialItem(ItemNames(config), pick),
         MainMoral(config), ThemeName(config))
  }

  /** The title: "<main character> ve <main moral value> Macerası". */
  function StoryTitle(config: StoryConfig): string {
    MainName(config) + " ve " + MainMoral(config) + " Macerası"
  }

  /** The title block: the title marked as a heading. */
  function TitleLine(config: StoryConfig): string {
    "# " + StoryTitle(config)
  }

  /** The body paragraphs of the story `config` asks for. */
  function BodyOf(w: Wording, config: StoryConfig, pick: nat): seq<string> {
    Body(w, CastOf(config, pick), LengthFactor(config.storyLength))
  }

  /** Each paragraph followed by a blank line, as the `story +=` lines append them. */
  function Appended(ps: seq<string>): string
    decreases |ps|
  {
    if |ps| == 0 then "" else ps[0] + Separator + Appended(ps[1..])
  }

  /** The text `createStory` returns for a title line and body
      paragraphs. */
  function Layout(title: string, body: seq<string>): (story: string)
    ensures StartsWith(story, title + Separator)
    ensures |story| >= |Closing| && story[|story| - |Closing|..] == Closing
  {
    var head := title + Separator;
    var story := head + Appended(body) + Closing;
    assert story[..|head|] == head;
    story
  }

  /** The story text over a wording: it opens with the title marked as a
      heading and a blank line, and ends with exactly `# SON`. */
  function StoryWith(w: Wording, config: StoryConfig, pick: nat): (story: string)
    ensures StartsWith(story, "# " + StoryTitle(config) + Separator)
    ensures |story| >= |Closing| && story[|story| - |Closing|..] == Closing
  {
    Layout(TitleLine(config), BodyOf(w, config, pick))
  }

  /** `createStory(config)` with the draw `pick`: the title heading and a
      blank line first, `# SON` last. */
  function CreateStory(config: StoryConfig, pick: nat): (story: string)
    ensures StartsWith(story, "# " + StoryTitle(config) + Separator)
    ensures |story| >= |Closing| && story[|story| - |Closing|..] == Closing
  {
    StoryWith(SourceText.SourceStrings, config, pick)
  }

  /** Appending each block followed by the separator, then the closing
      block, lays the blocks out as `join` would. */
  lemma {:induction false} AppendedJoin(ps: seq<string>, last: string)
    ensures Appended(ps) + last == Join(ps + [last], Separator)
    decreases |ps|
  {
    if |ps| > 0 {
      AppendedJoin(ps[1..], last);
      assert (ps + [last])[1..] == ps[1..] + [last];
    } else {
      assert ps + [last] == [last];
    }
  }

  /** The layout is its blocks, title line, body paragraphs and `# SON`,
      joined by blank lines. */
  lemma LayoutBlocks(title: string, body: seq<string>)
    ensures Layout(title, body) == Join([title] + body + [Closing], Separator)
  {
    AppendedJoin(body, Closing);
    var parts := [title] + body + [Closing];
    assert parts[1..] == body + [Closing];
    assert title + Separator + (Appended(body) + Closing) == title + Separator + Appended(body) + Closing;
  }

  /** An absent or empty theme title takes the "Macera" branch, with its
      5, 7 or 12 paragraphs. */
  lemma NoThemeIsAdventure(w: Wording, config: StoryConfig, pick: nat)
    requires config.theme.None? || config.theme.value.title == ""
    ensures BranchOf(CastOf(config, pick).theme) == Adventure
    ensures |BodyOf(w, config, pick)| == [5, 7, 12][LengthFactor(config.storyLength) - 1]
  {
    ParagraphCounts(w, CastOf(config, pick), LengthFactor(config.storyLength));
  }

  /** The body at a given length is the template body at its factor; the
      values interpolated do not depend on the length. */
  lemma BodyAt(w: Wording, config: StoryConfig, pick: nat, length: Option<Length>)
    ensures BodyOf(w, config.(storyLength := length), pick)
              == Body(w, CastOf(config, pick), LengthFactor(length))
  {
    assert CastOf(config.(storyLength := length), pick) == CastOf(config, pick);
  }

  /** Choosing a longer story, everything else unchanged, only appends
      paragraphs: short is a prefix of medium, medium a prefix of long,
      and a missing length reads as long. */
  lemma LongerStories(w: Wording, config: StoryConfig, pick: nat)
    ensures BodyOf(w, config.(storyLength := Some(Short)), pick)
              <= BodyOf(w, config.(storyLength := Some(Medium)), pick)
    ensures BodyOf(w, config.(storyLength := Some(Medium)), pick)
              <= BodyOf(w, config.(storyLength := Some(Long)), pick)
    ensures BodyOf(w, config.(storyLength := None), pick) == BodyOf(w, config.(storyLength := Some(Long)), pick)
  {
    var c := CastOf(config, pick);
    BodyAt(w, config, pick, Some(Short));
    BodyAt(w, config, pick, Some(Medium));
    BodyAt(w, config, pick, Some(Long));
    BodyAt(w, config, pick, None);
    BodyGrows(w, c, 1);
    BodyGrows(w, c, 2);
  }
}
