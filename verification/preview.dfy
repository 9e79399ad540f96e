/**
 * The display side of the preview screen (StoryPreviewScreen.tsx:234-282,
 * 368-381): cutting the story text into blocks at blank lines, showing a
 * block that starts with "# " as a heading without its marker, the
 * background tint chosen by theme title, and the length label.
 */
module StoryPreview {
  import opened Optional
  import opened Text
  import opened Entities
  import opened StoryTemplates
  import opened StoryAssembler
  import Paragraphs
  import SourceText
  import SourceLines
  import Styles

  /** A displayed block: a heading or a paragraph. */
  datatype Block = Heading(text: string) | Para(text: string)

  /** The heading marker. */
  const Marker: string := "# "

  /** How one piece of the text is shown: a piece that starts with "# "
      is a heading with the marker cut off, any other piece a paragraph. */
  function Display(piece: string): (b: Block)
    ensures b.Heading? <==> StartsWith(piece, Marker)
    ensures b.Heading? ==> Marker + b.text == piece
    ensures b.Para? ==> b.text == piece
  {
    if StartsWith(piece, Marker) then
      assert piece == Marker + piece[2..];
      Heading(piece[2..])
    else Para(piece)
  }

  /** The text a block is shown for. */
  function Source(b: Block): string {
    match b
    case Heading(t) => Marker + t
    case Para(t) => t
  }

  /** Showing a block's text gives the block back, unless it is a paragraph
      that itself starts with the marker; showing a piece and taking the
      block's text back gives the piece. */
  lemma DisplaySource(b: Block, piece: string)
    ensures b.Heading? || !StartsWith(b.text, Marker) ==> Display(Source(b)) == b
    ensures Source(Display(piece)) == piece
  {
    if b.Heading? {
      assert (Marker + b.text)[..2] == Marker;
      assert (Marker + b.text)[2..] == b.text;
    }
  }

  /** `pieces.map(...)`. */
  function DisplayAll(pieces: seq<string>): (bs: seq<Block>)
    ensures |bs| == |pieces|
    ensures forall i | 0 <= i < |pieces| :: bs[i] == Display(pieces[i])
    decreases |pieces|
  {
    if |pieces| == 0 then [] else [Display(pieces[0])] + DisplayAll(pieces[1..])
  }

  /** `renderStoryParagraphs(text)`: the text cut at every blank line. */
  function Render(text: string): (bs: seq<Block>)
    ensures |bs| >= 1
  {
    DisplayAll(Split(text, Separator))
  }

  /** When neither the title line nor any body paragraph has a line feed,
      cutting the layout at blank lines gives back exactly the title line,
      the body paragraphs in order, and `# SON`. */
  lemma SplitLayout(title: string, body: seq<string>)
    requires '\n' !in title
    requires forall i | 0 <= i < |body| :: '\n' !in body[i]
    ensures Split(Layout(title, body), Separator) == [title] + body + [Closing]
  {
    var parts := [title] + body + [Closing];
    forall j | 0 <= j < |parts| ensures Separator[0] !in parts[j] {
      if j == 0 {
      } else if j <= |body| {
        assert parts[j] == body[j - 1];
      } else {
        assert parts[j] == Closing;
      }
    }
    LayoutBlocks(title, body);
    SplitJoin(parts, Separator);
  }


  /** Marking a line as a heading adds no line feed. */
  lemma MarkedOneLine(title: string)
    requires '\n' !in title
    ensures '\n' !in Marker + title
  {
    var line := Marker + title;
    forall k | 0 <= k < |line| ensures line[k] != '\n' {
      if k >= 2 { assert line[k] == title[k - 2]; }
    }
  }

  /** A marked line shows as a heading with the marker cut off. */
  lemma ShowsHeading(title: string)
    ensures Display(Marker + title) == Heading(title)
  {
    var line := Marker + title;
    assert line[..2] == Marker && line[2..] == title;
  }

  /** The blocks of a title line, a body and `# SON`, shown one by one. */
  lemma ShowsFrame(line: string, body: seq<string>, title: string)
    requires Display(line) == Heading(title)
    ensures DisplayAll([line] + body + [Closing]) == [Heading(title)] + DisplayAll(body) + [Heading("SON")]
  {
    assert Display(Closing) == Heading("SON") by {
      assert Closing[..2] == Marker;
    }
    var pieces := [line] + body + [Closing];
    var bs := DisplayAll(pieces);
    assert |bs| == |body| + 2;
    forall i | 0 <= i < |bs|
      ensures bs[i] == ([Heading(title)] + DisplayAll(body) + [Heading("SON")])[i]
    {
      if 0 < i <= |body| { assert pieces[i] == body[i - 1]; }
    }
  }

  /** A layout whose title line is a heading shows as that heading, the
      body paragraphs in order, and the heading "SON", as long as no block
      has a line feed. */
  lemma RenderLayout(title: string, body: seq<string>)
    requires '\n' !in title
    requires forall i | 0 <= i < |body| :: '\n' !in body[i]
    ensures Render(Layout(Marker + title, body)) == [Heading(title)] + DisplayAll(body) + [Heading("SON")]
  {
    var line := Marker + title;
    MarkedOneLine(title);
    SplitLayout(line, body);
    ShowsHeading(title);
    ShowsFrame(line, body, title);
  }

  /** No value interpolated into the title has a line feed, so the title
      has none. */
  lemma TitleOneLine(config: StoryConfig, pick: nat)
    requires OneLine(CastOf(config, pick))
    ensures '\n' !in StoryTitle(config)
  {
    var c := CastOf(config, pick);
    assert '\n' !in Value(c, Paragraphs.MainName) && '\n' !in Value(c, Paragraphs.MainMoral);
    TitleWords(MainName(config), MainMoral(config));
  }

  /** The fixed words of the title have no line feed. */
  lemma TitleWords(name: string, moral: string)
    requires '\n' !in name && '\n' !in moral
    ensures '\n' !in name + " ve " + moral + " Macerası"
  {
    var v, m := " ve ", " Macerası";
    assert '\n' !in v && '\n' !in m;
  }

  /** The preview shows a created story as a heading with its title (the
      main character and main moral value), then one block per body
      paragraph in order, then the heading "SON" -- provided no
      interpolated value and no fixed template string has a line feed. */
  lemma RenderStory(w: Wording, config: StoryConfig, pick: nat)
    requires OneLine(CastOf(config, pick))
    requires forall id :: NoLineFeed(w(id))
    ensures Render(StoryWith(w, config, pick))
              == [Heading(StoryTitle(config))] + DisplayAll(BodyOf(w, config, pick)) + [Heading("SON")]
  {
    TitleOneLine(config, pick);
    assert TitleLine(config) == Marker + StoryTitle(config);
    RenderLayout(StoryTitle(config), BodyOf(w, config, pick));
  }

  /** The preview shows the story `createStory` tells as a heading with its
      title, then one block per body paragraph in order, then the heading
      "SON", whenever no interpolated value has a line feed: the source's
      own template strings have none. */
  lemma RenderCreateStory(config: StoryConfig, pick: nat)
    requires OneLine(CastOf(config, pick))
    ensures Render(CreateStory(config, pick))
              == [Heading(StoryTitle(config))]
                 + DisplayAll(BodyOf(SourceText.SourceStrings, config, pick)) + [Heading("SON")]
  {
    forall id ensures NoLineFeed(SourceText.SourceStrings(id)) {
      SourceLines.SourceOneLine(id);
    }
    RenderStory(SourceText.SourceStrings, config, pick);
  }

  /** The background of the preview: the theme's tint, or the plain
      background for a missing or unknown title. */
  datatype Background = Tinted(color: string) | Plain(color: string)

  /** `getBackgroundColor`: each of the five catalog titles has its tint
      (its palette colour with alpha "15"); any other title, and a missing
      theme, gets the plain background. */
  function BackgroundOf(theme: Option<StoryTheme>): Background {
    var title := OrElse(if theme.Some? then Some(theme.value.title) else None, "");
    if title == "Macera" then Tinted(Styles.KidsAccent1 + "15")
    else if title == "Uzay ve Gezegenler" then Tinted(Styles.KidsSecondary + "15")
    else if title == "Deniz Altı" then Tinted(Styles.KidsAccent3 + "15")
    else if title == "Orman ve Hayvanlar" then Tinted(Styles.KidsAccent2 + "15")
    else if title == "Sihirli Dünya" then Tinted(Styles.KidsPrimary + "15")
    else Plain(Styles.KidsBackground)
  }

  /** The preview's tint agrees with the theme card's colour: a title the
      card table lists is tinted with that card's colour, any other title
      is plain. */
  lemma BackgroundMatchesCard(theme: StoryTheme)
    ensures theme.title in Styles.ThemeStyles ==>
              BackgroundOf(Some(theme)) == Tinted(Styles.ThemeStyles[theme.title].color + "15")
    ensures theme.title !in Styles.ThemeStyles ==> BackgroundOf(Some(theme)) == Plain(Styles.KidsBackground)
  {
  }

  /** The summary label of a length: "long" and a missing length both read
      "Uzun (15 dakika)". */
  function LengthLabel(length: Option<Length>): (caption: string)
    ensures length == Some(Short) ==> caption == "Kısa (5 dakika)"
    ensures length == Some(Medium) ==> caption == "Orta (10 dakika)"
    ensures length == None || length == Some(Long) ==> caption == "Uzun (15 dakika)"
  {
    if length == Some(Short) then "Kısa (5 dakika)"
    else if length == Some(Medium) then "Orta (10 dakika)"
    else "Uzun (15 dakika)"
  }

  /** The label tells the story length the assembler uses: the label says
      "Uzun" exactly when the factor is 3. */
  lemma LabelMatchesFactor(length: Option<Length>)
    ensures LengthFactor(length) == 1 <==> LengthLabel(length) == "Kısa (5 dakika)"
    ensures LengthFactor(length) == 2 <==> LengthLabel(length) == "Orta (10 dakika)"
    ensures LengthFactor(length) == 3 <==> LengthLabel(length) == "Uzun (15 dakika)"
  {
  }
}
