/**
 * Filling the paragraph templates and choosing them by theme title and
 * length factor (StoryPreviewScreen.tsx:146-225).
 *
 * Everything here is stated for an arbitrary `Wording`, the fixed strings
 * of every template: the properties hold whatever the paragraphs say, as
 * long as they interpolate the slots `Paragraphs.Slots` lists. The
 * source's own wording is `SourceText.SourceStrings`.
 */
module StoryTemplates {
  import opened Text
  import opened Paragraphs

  /** The fixed strings of each template. */
  type Wording = TemplateId -> seq<string>

  /** The values `createStory` substitutes, once its fallbacks are resolved. */
  datatype Cast = Cast(name: string, friend: string, item: string, moral: string, theme: string)

  function Value(c: Cast, s: Slot): string {
    match s
    case MainName => c.name
    case FriendName => c.friend
    case SpecialItem => c.item
    case MainMoral => c.moral
    case ThemeName => c.theme
  }

  /** No substituted value contains a line feed. */
  predicate OneLine(c: Cast) {
    forall s: Slot :: '\n' !in Value(c, s)
  }

  /** None of the strings contains a line feed. */
  predicate NoLineFeed(strings: seq<string>) {
    forall i | 0 <= i < |strings| :: '\n' !in strings[i]
  }

  /** The template literal with fixed strings `strings` and slots `slots`,
      evaluated with the values of `c`: `strings[0]`, the value of
      `slots[0]`, `strings[1]`, and so on. A missing string reads as "". */
  function Fill(strings: seq<string>, slots: seq<Slot>, c: Cast): (p: string)
    ensures OneLine(c) && NoLineFeed(strings) ==> '\n' !in p
    decreases |slots|
  {
    var head := if |strings| > 0 then strings[0] else "";
    var tail := if |strings| > 0 then strings[1..] else [];
    assert NoLineFeed(strings) ==> NoLineFeed(tail) by {
      if NoLineFeed(strings) && |strings| > 0 {
        forall i | 0 <= i < |tail| ensures '\n' !in tail[i] {
          assert tail[i] == strings[i + 1];
        }
      }
    }
    if |slots| == 0 then head
    else head + Value(c, slots[0]) + Fill(tail, slots[1..], c)
  }

  /** Every value a template has a slot for occurs in the filled text. */
  lemma {:induction false} FillMentions(strings: seq<string>, slots: seq<Slot>, c: Cast, s: Slot)
    requires s in slots
    ensures Contains(Fill(strings, slots, c), Value(c, s))
    decreases |slots|
  {
    var head := if |strings| > 0 then strings[0] else "";
    var tail := if |strings| > 0 then strings[1..] else [];
    var v := Value(c, slots[0]);
    var rest := Fill(tail, slots[1..], c);
    var p := Fill(strings, slots, c);
    assert p == head + v + rest;
    if slots[0] == s {
      assert p[|head|..][..|v|] == v;
    } else {
      assert s in slots[1..];
      FillMentions(tail, slots[1..], c, s);
      var k :| 0 <= k <= |rest| && StartsWith(rest[k..], Value(c, s));
      assert p[|head| + |v| + k..] == rest[k..];
    }
  }

  /** A template without a slot for the special item reads the same
      whatever the item is. */
  lemma {:induction false} FillIgnoresItem(strings: seq<string>, slots: seq<Slot>, c: Cast, item: string)
    requires SpecialItem !in slots
    ensures Fill(strings, slots, c.(item := item)) == Fill(strings, slots, c)
    decreases |slots|
  {
    if |slots| > 0 {
      var tail := if |strings| > 0 then strings[1..] else [];
      assert SpecialItem !in slots[1..];
      FillIgnoresItem(tail, slots[1..], c, item);
    }
  }

  /** The paragraph a template yields. */
  function Paragraph(w: Wording, id: TemplateId, c: Cast): string {
    Fill(w(id), Slots(id), c)
  }

  /** `Adventure1`-`Adventure5`, always told in the "Macera" branch. */
  const AdventureOpening: seq<TemplateId> := [Adventure1, Adventure2, Adventure3, Adventure4, Adventure5]
  /** Added when the length factor is above 1. */
  const AdventureMiddle: seq<TemplateId> := [Adventure6, Adventure7]
  /** Added when the length factor is above 2. */
  const AdventureEnding: seq<TemplateId> := [Adventure8, Adventure9, Adventure10, Adventure11, Adventure12]

  const SpaceOpening: seq<TemplateId> := [Space1, Space2, Space3, Space4, Space5]
  const SpaceMiddle: seq<TemplateId> := [Space6, Space7, Space8]
  const SpaceEnding: seq<TemplateId> := [Space9, Space10, Space11, Space12, Space13, Space14]

  const GenericOpening: seq<TemplateId> := [Generic1, Generic2, Generic3]
  const GenericMiddle: seq<TemplateId> := [Generic4, Generic5]
  const GenericEnding: seq<TemplateId> := [Generic6, Generic7]

  /** The three branches of `createStory`. */
  datatype Branch = Adventure | Space | Generic

  /** The branch is chosen by exact comparison of the theme title. */
  function BranchOf(theme: string): (b: Branch)
    ensures b == Adventure <==> theme == "Macera"
    ensures b == Space <==> theme == "Uzay ve Gezegenler"
  {
    if theme == "Macera" then Adventure
    else if theme == "Uzay ve Gezegenler" then Space
    else Generic
  }

  /** The opening tier, then the middle one when `factor > 1`, then the
      ending one when `factor > 2`. */
  function Tiered(opening: seq<TemplateId>, middle: seq<TemplateId>, ending: seq<TemplateId>, factor: nat)
    : seq<TemplateId>
  {
    opening + (if factor > 1 then middle else []) + (if factor > 2 then ending else [])
  }

  /** The templates a branch tells at a given length factor, in order. */
  function Templates(b: Branch, factor: nat): seq<TemplateId> {
    match b
    case Adventure => Tiered(AdventureOpening, AdventureMiddle, AdventureEnding, factor)
    case Space => Tiered(SpaceOpening, SpaceMiddle, SpaceEnding, factor)
    case Generic => Tiered(GenericOpening, GenericMiddle, GenericEnding, factor)
  }

  /** The paragraphs of a list of templates, in order. */
  function Told(w: Wording, ids: seq<TemplateId>, c: Cast): (ps: seq<string>)
    ensures |ps| == |ids|
    ensures forall i | 0 <= i < |ids| :: ps[i] == Paragraph(w, ids[i], c)
    decreases |ids|
  {
    if |ids| == 0 then [] else [Paragraph(w, ids[0], c)] + Told(w, ids[1..], c)
  }

  /** The body of the story: the paragraphs of the theme's branch at the
      given length factor, each without its blank line. When neither the
      wording nor a value has a line feed, no paragraph has one. */
  function Body(w: Wording, c: Cast, factor: nat): (ps: seq<string>)
    ensures (forall id :: NoLineFeed(w(id))) && OneLine(c) ==>
              forall i | 0 <= i < |ps| :: '\n' !in ps[i]
  {
    Told(w, Templates(BranchOf(c.theme), factor), c)
  }

  /** The number of body paragraphs per branch and length factor:
      5/7/12 for "Macera", 5/8/14 for "Uzay ve Gezegenler" and 3/5/7 for
      every other title. */
  lemma ParagraphCounts(w: Wording, c: Cast, factor: nat)
    requires 1 <= factor <= 3
    ensures c.theme == "Macera" ==>
              |Body(w, c, factor)| == [5, 7, 12][factor - 1]
    ensures c.theme == "Uzay ve Gezegenler" ==>
              |Body(w, c, factor)| == [5, 8, 14][factor - 1]
    ensures c.theme != "Macera" && c.theme != "Uzay ve Gezegenler" ==>
              |Body(w, c, factor)| == [3, 5, 7][factor - 1]
  {
  }

  /** A longer story starts with the whole of the shorter one. */
  lemma BodyGrows(w: Wording, c: Cast, factor: nat)
    ensures Body(w, c, factor) <= Body(w, c, factor + 1)
  {
    var b := BranchOf(c.theme);
    assert Templates(b, factor) <= Templates(b, factor + 1);
  }

  /** In the "Macera" branch the special item is mentioned only at length
      factor 3: below it the body does not depend on the item at all, and
      at factor 3 the item occurs in the eleventh paragraph. */
  lemma AdventureItem(w: Wording, c: Cast, factor: nat, item: string)
    requires c.theme == "Macera"
    ensures factor <= 2 ==> Body(w, c.(item := item), factor) == Body(w, c, factor)
    ensures factor >= 3 ==> Contains(Body(w, c, factor)[10], c.item)
  {
    if factor <= 2 {
      AdventureIgnoresItem(w, c, factor, item);
    } else {
      AdventureNamesItem(w, c, factor);
    }
  }

  /** The first two tiers of "Macera" do not depend on the special item. */
  lemma AdventureIgnoresItem(w: Wording, c: Cast, factor: nat, item: string)
    requires c.theme == "Macera" && factor <= 2
    ensures Body(w, c.(item := item), factor) == Body(w, c, factor)
  {
    var ids := Templates(Adventure, factor);
    assert BranchOf(c.(item := item).theme) == Adventure;
    assert ids == AdventureOpening + (if factor > 1 then AdventureMiddle else []);
    forall i | 0 <= i < |ids| ensures Paragraph(w, ids[i], c.(item := item)) == Paragraph(w, ids[i], c) {
      assert SpecialItem !in Slots(ids[i]) by { NoItemSlot(ids[i]); }
      FillIgnoresItem(w(ids[i]), Slots(ids[i]), c, item);
    }
  }

  /** The eleventh paragraph of a long "Macera" story names the special item. */
  lemma AdventureNamesItem(w: Wording, c: Cast, factor: nat)
    requires c.theme == "Macera" && factor >= 3
    ensures Contains(Body(w, c, factor)[10], c.item)
  {
    assert BranchOf(c.theme) == Adventure;
    AdventureEleventh(factor);
    ParagraphMentions(w, Adventure11, c, SpecialItem);
  }

  /** The eleventh template of a long "Macera" story is `Adventure11`,
      which has a slot for the special item. */
  lemma AdventureEleventh(factor: nat)
    requires factor >= 3
    ensures |Templates(Adventure, factor)| > 10 && Templates(Adventure, factor)[10] == Adventure11
    ensures SpecialItem in Slots(Adventure11)
  {
    assert Templates(Adventure, factor) == AdventureOpening + AdventureMiddle + AdventureEnding;
    assert Slots(Adventure11)[2] == SpecialItem;
  }

  /** The templates of the first two tiers of "Macera" have no slot for
      the special item. */
  lemma NoItemSlot(id: TemplateId)
    requires id in AdventureOpening + AdventureMiddle
    ensures SpecialItem !in Slots(id)
  {
  }

  /** A template names every value it has a slot for. */
  lemma ParagraphMentions(w: Wording, id: TemplateId, c: Cast, s: Slot)
    requires s in Slots(id)
    ensures Contains(Paragraph(w, id, c), Value(c, s))
  {
    FillMentions(w(id), Slots(id), c, s);
  }


  /** The generic branch always opens with `Generic1` and `Generic2`. */
  lemma GenericOpens(w: Wording, c: Cast, factor: nat)
    requires BranchOf(c.theme) == Generic
    ensures |Body(w, c, factor)| >= 2
    ensures Body(w, c, factor)[0] == Paragraph(w, Generic1, c)
    ensures Body(w, c, factor)[1] == Paragraph(w, Generic2, c)
  {
    assert Templates(Generic, factor)[..2] == [Generic1, Generic2];
  }

  /** The generic branch always names the theme title in its first
      paragraph and the main moral value in its second. */
  lemma GenericMentions(w: Wording, c: Cast, factor: nat)
    requires BranchOf(c.theme) == Generic
    ensures Contains(Body(w, c, factor)[0], c.theme)
    ensures Contains(Body(w, c, factor)[1], c.moral)
  {
    GenericOpens(w, c, factor);
    GenericSlots();
    ParagraphMentions(w, Generic1, c, ThemeName);
    ParagraphMentions(w, Generic2, c, MainMoral);
  }

  /** `Generic1` has a slot for the theme title, `Generic2` one for the
      main moral value. */
  lemma GenericSlots()
    ensures ThemeName in Slots(Generic1)
    ensures MainMoral in Slots(Generic2)
  {
    assert Slots(Generic1)[2] == ThemeName;
    assert Slots(Generic2)[2] == MainMoral;
  }
}
