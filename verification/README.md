# Story wizard model

A model of the logic inside a children's story app. The user walks through a wizard:

1. choose a main character (type a name);
2. choose a theme;
3. choose one or more moral values;
4. choose the story options: length, helpers and special items.

The preview screen then assembles a story text (`createStory`) from fixed paragraph templates. It shows that text cut into headings and paragraphs. A separate reader screen pages through a story with "next", "previous" and "read again".

The model is functional. Every screen state is an immutable record, and every handler is a pure function from one state to the next. The strings are `seq<char>`.

| file | module | what it holds |
|---|---|---|
| optional.dfy | Optional | `Option`, for the source's optional fields |
| text.dfy | Text | JavaScript `trim`, `split`, `join`, `startsWith` and `a \|\| d`, with the two split/join round trips |
| entities.dfy | Entities | characters, themes, moral values, custom items |
| selection.dfy | Selection | id-keyed selection lists: `some`, `filter`, and the toggle the screens share |
| catalog.dfy | Catalog | the `THEMES`, `MORAL_VALUES`, `SAMPLE_CHARACTERS` and `CUSTOM_ITEMS` catalogs |
| styles.dfy | Styles | the card style tables with their fallbacks, and the palette colours they use |
| paragraphs.dfy | Paragraphs | the slots (interpolated values) of every paragraph template |
| wording.dfy | SourceText | the fixed strings of every paragraph template, as the source writes them, word by word |
| wording_lines.dfy | SourceLines | no fixed string of any template has a line feed, checked a few words at a time |
| templates.dfy | StoryTemplates | filling templates, choosing them by theme title and length factor |
| story.dfy | StoryAssembler | `createStory`: fallbacks, length factor, title, body, `# SON` |
| preview.dfy | StoryPreview | `renderStoryParagraphs`, the background tint, the length label |
| character_step.dfy … options_step.dfy | CharacterStep, ThemeStep, MoralStep, OptionsStep | the four wizard screens |
| page_cursor.dfy | PageCursor | the reader's page cursor |
| wizard.dfy | Wizard | the four steps chained into the configuration the preview receives |

Each template is split the way JavaScript evaluates a template literal: fixed strings with slots between them. The slots come from `Paragraphs.Slots`, and the fixed strings are a parameter `w: Wording`. So every property of the story holds whatever the paragraphs say, as long as they use those slots. `StoryAssembler.CreateStory` instantiates `w` with the source's own strings. `SourceLines` shows that none of those strings has a line feed, so the display properties hold for `createStory` itself (`StoryPreview.RenderCreateStory`).

## Model

| member | source | states |
|---|---|---|
| Text.Trim | src/screens/story-steps/CharacterSelectionScreen.tsx:30 | `trim()`: the result is a slice of the input, blank on both sides, with no white space at its ends; it is empty exactly when the input is blank; it has no character the input lacks |
| Text.TrimOfTrimmed | src/screens/story-steps/StoryOptionsScreen.tsx:175 | trimming a string with no white space at its ends changes nothing |
| Text.OrElse | src/screens/story-steps/StoryPreviewScreen.tsx:101 | `a \|\| d` on an optional string: a missing or empty value gives way to the default, any other is kept |
| Text.Split | src/screens/story-steps/StoryOptionsScreen.tsx:174 | `split` always yields at least one piece |
| Text.SplitPieces | src/screens/story-steps/StoryOptionsScreen.tsx:173-175 | cutting at a one-character separator: no piece contains it, and every character of a piece comes from the text |
| Text.JoinSplit | src/screens/story-steps/StoryPreviewScreen.tsx:235 | joining the pieces of a cut with the same separator gives back the text exactly |
| Text.SplitJoin | src/screens/story-steps/StoryPreviewScreen.tsx:235 | cutting a join of pieces free of the separator's first character gives back the pieces |
| Selection.Without | src/screens/story-steps/StoryOptionsScreen.tsx:139 | `filter` by id: keeps exactly the entries with another id, drops every entry with that id, and is shorter when one was there |
| Selection.WithoutAbsent | src/screens/story-steps/StoryOptionsScreen.tsx:139 | filtering out an id that no entry has changes nothing |
| Selection.WithoutAppend | src/screens/story-steps/StoryOptionsScreen.tsx:137-143 | the filter distributes over concatenation, so the kept entries keep their order |
| Selection.Toggle | src/screens/story-steps/StoryOptionsScreen.tsx:136-144 | the id is selected afterwards exactly when it was not before; a new id is appended at the end; a present id loses every entry with that id and nothing else |
| Selection.ToggleTwice | src/screens/story-steps/StoryOptionsScreen.tsx:136-144 | toggling a new entry twice restores the list |
| Selection.ToggleKeepsHead | src/screens/story-steps/MoralValueSelectionScreen.tsx:75-81 | toggling anything but the first entry leaves the first entry first |
| Catalog.Helpers | src/screens/story-steps/StoryOptionsScreen.tsx:362 | the characters of type "supporting", exactly, and no more of them than characters in all |
| Catalog.ThemesAreDistinct | src/constants/data.ts:3-29 | the five themes have pairwise distinct ids and pairwise distinct titles |
| Catalog.MoralValuesAreDistinct | src/constants/data.ts:31-62 | the six moral values have pairwise distinct ids |
| Catalog.SampleHelpers | src/constants/data.ts:64-95 | exactly two sample characters are helpers, those with ids "2" and "3", in that order |
| Catalog.CustomItemsAreDistinct | src/constants/data.ts:97-118 | the four custom items have pairwise distinct ids |
| Styles.ThemeStyleOf | src/screens/story-steps/ThemeSelectionScreen.tsx:130-134 | the table entry for a listed title, the books card for any other |
| Styles.ThemeDefaultExactly | src/screens/story-steps/ThemeSelectionScreen.tsx:41-69 | the books emoji shows exactly for titles the table does not list |
| Styles.MoralValueStyleOf | src/screens/story-steps/MoralValueSelectionScreen.tsx:98-105 | the table entry for a listed title, the sparkles card in the primary colour for any other |
| StoryTemplates.Fill | src/screens/story-steps/StoryPreviewScreen.tsx:147 | a filled template has no line feed when neither its fixed strings nor the values have one |
| StoryTemplates.FillMentions | src/screens/story-steps/StoryPreviewScreen.tsx:147-172 | every value a template has a slot for occurs in the filled paragraph |
| StoryTemplates.FillIgnoresItem | src/screens/story-steps/StoryPreviewScreen.tsx:147-160 | a template without a special-item slot reads the same whatever the item is |
| StoryTemplates.BranchOf | src/screens/story-steps/StoryPreviewScreen.tsx:146-206 | the "Macera" branch exactly for the title "Macera", the space branch exactly for "Uzay ve Gezegenler", the generic branch for every other title |
| StoryTemplates.Told | src/screens/story-steps/StoryPreviewScreen.tsx:147-172 | the i-th paragraph is the i-th template, filled |
| StoryTemplates.Body | src/screens/story-steps/StoryPreviewScreen.tsx:145-225 | no paragraph has a line feed when neither the wording nor a value has one |
| StoryTemplates.ParagraphCounts | src/screens/story-steps/StoryPreviewScreen.tsx:145-225 | 5/7/12 paragraphs for "Macera", 5/8/14 for "Uzay ve Gezegenler", 3/5/7 for any other title, at length factor 1/2/3 |
| StoryTemplates.BodyGrows | src/screens/story-steps/StoryPreviewScreen.tsx:157-173 | the body at one factor is a prefix of the body at the next |
| StoryTemplates.AdventureItem | src/screens/story-steps/StoryPreviewScreen.tsx:146-173 | in "Macera" the special item changes nothing below factor 3, and at factor 3 it occurs in the eleventh paragraph |
| StoryTemplates.GenericOpens | src/screens/story-steps/StoryPreviewScreen.tsx:206-212 | the generic branch always opens with its first two templates |
| StoryTemplates.GenericMentions | src/screens/story-steps/StoryPreviewScreen.tsx:208-212 | the generic branch names the theme title in its first paragraph and the main moral value in its second |
| StoryAssembler.MainName | src/screens/story-steps/StoryPreviewScreen.tsx:101 | the main character's name, or "Çocuk" when it is missing or empty |
| StoryAssembler.ThemeName | src/screens/story-steps/StoryPreviewScreen.tsx:104 | the theme's title, or "Macera" when it is missing or empty |
| StoryAssembler.Titles | src/screens/story-steps/StoryPreviewScreen.tsx:107 | the titles of the moral values, one per value, in order |
| StoryAssembler.MoralNames | src/screens/story-steps/StoryPreviewScreen.tsx:107-109 | the titles when a list is given, even an empty one; ["Arkadaşlık"] only when it is missing |
| StoryAssembler.MainMoral | src/screens/story-steps/StoryPreviewScreen.tsx:107-110 | the first title; "Arkadaşlık" for a missing list; the text "undefined" for an empty one |
| StoryAssembler.Friends | src/screens/story-steps/StoryPreviewScreen.tsx:113-117 | each helper's name, and its description or "arkadaş" as its role |
| StoryAssembler.FriendOf | src/screens/story-steps/StoryPreviewScreen.tsx:137-140 | the first helper, with its name and its description or "arkadaş", when there is one; otherwise "Zeynep", "en iyi arkadaş" |
| StoryAssembler.ItemNames | src/screens/story-steps/StoryPreviewScreen.tsx:120 | the custom items' names in order, or none when the list is missing |
| StoryAssembler.Names | src/screens/story-steps/StoryPreviewScreen.tsx:120 | the i-th name is the i-th item's name |
| StoryAssembler.SpecialItem | src/screens/story-steps/StoryPreviewScreen.tsx:131-134 | one of the item names (the one the draw picks) when there are any, otherwise "sihirli kalem" |
| StoryAssembler.LengthFactor | src/screens/story-steps/StoryPreviewScreen.tsx:123-128 | 1 exactly for "short", 2 exactly for "medium", 3 for "long" and for a missing length |
| StoryAssembler.Layout | src/screens/story-steps/StoryPreviewScreen.tsx:143-228 | the story starts with the title line and a blank line, and ends with `# SON` |
| StoryAssembler.StoryWith | src/screens/story-steps/StoryPreviewScreen.tsx:143-228 | over any wording, the story opens with "# <name> ve <moral> Macerası" and a blank line and ends with exactly `# SON` |
| StoryAssembler.CreateStory | src/screens/story-steps/StoryPreviewScreen.tsx:99-231 | `createStory` with the source's paragraphs opens with the title heading and a blank line and ends with exactly `# SON` |
| StoryAssembler.AppendedJoin | src/screens/story-steps/StoryPreviewScreen.tsx:147-228 | appending each paragraph with a blank line, then the last block, is the blocks joined by blank lines |
| StoryAssembler.LayoutBlocks | src/screens/story-steps/StoryPreviewScreen.tsx:143-228 | the story is title line, body paragraphs and `# SON` joined by blank lines |
| StoryAssembler.NoThemeIsAdventure | src/screens/story-steps/StoryPreviewScreen.tsx:104-146 | a missing or untitled theme is told in the "Macera" branch, with 5, 7 or 12 paragraphs |
| StoryAssembler.BodyAt | src/screens/story-steps/StoryPreviewScreen.tsx:123-128 | the length changes the factor only, never the values interpolated |
| StoryAssembler.LongerStories | src/screens/story-steps/StoryPreviewScreen.tsx:157-224 | short is a prefix of medium, medium of long, and a missing length tells the long story |
| StoryPreview.Display | src/screens/story-steps/StoryPreviewScreen.tsx:237-248 | a piece is a heading exactly when it starts with "# ", shown without the marker; any other piece is a paragraph, shown as it is |
| StoryPreview.DisplaySource | src/screens/story-steps/StoryPreviewScreen.tsx:237-248 | showing a piece loses nothing: the piece can be rebuilt from its block, and a block from its text |
| StoryPreview.DisplayAll | src/screens/story-steps/StoryPreviewScreen.tsx:235 | one block per piece, in order |
| StoryPreview.Render | src/screens/story-steps/StoryPreviewScreen.tsx:234-251 | any text shows as at least one block |
| StoryPreview.SplitLayout | src/screens/story-steps/StoryPreviewScreen.tsx:235 | cutting a story free of line feeds at blank lines yields the title line, the body paragraphs in order, and `# SON` |
| StoryPreview.RenderLayout | src/screens/story-steps/StoryPreviewScreen.tsx:234-250 | such a story shows as the title heading, the body paragraphs, and the heading "SON" |
| StoryPreview.TitleOneLine | src/screens/story-steps/StoryPreviewScreen.tsx:143 | the title has no line feed when the values have none |
| StoryPreview.RenderStory | src/screens/story-steps/StoryPreviewScreen.tsx:143-250 | over any wording without line feeds, a story shows as the heading "<name> ve <moral> Macerası", one block per body paragraph in order, and the heading "SON" |
| SourceLines.SourceOneLine | src/screens/story-steps/StoryPreviewScreen.tsx:146-225 | no fixed string of any of the 33 templates contains a line feed |
| StoryPreview.RenderCreateStory | src/screens/story-steps/StoryPreviewScreen.tsx:143-250 | the story `createStory` tells shows as the heading "<name> ve <moral> Macerası", one block per body paragraph in order, and the heading "SON", whenever no interpolated value has a line feed |
| StoryPreview.BackgroundMatchesCard | src/screens/story-steps/StoryPreviewScreen.tsx:272-282 | the preview is tinted with the theme card's colour for a title the card table lists, and plain for any other title |
| StoryPreview.LengthLabel | src/screens/story-steps/StoryPreviewScreen.tsx:376-381 | "Kısa", "Orta", or "Uzun" for "long" and for a missing length |
| StoryPreview.LabelMatchesFactor | src/screens/story-steps/StoryPreviewScreen.tsx:376-381 | the label names the length the story is told at: each label exactly for its factor |
| CharacterStep.Edit | src/screens/story-steps/CharacterSelectionScreen.tsx:65-71 | an edit clears the error and keeps at most the first 20 characters typed |
| CharacterStep.Next | src/screens/story-steps/CharacterSelectionScreen.tsx:29-44 | stays with the error exactly for a blank name; otherwise advances with a main character carrying the untrimmed name and "Ana karakter" |
| CharacterStep.StepsStayReachable | src/screens/story-steps/CharacterSelectionScreen.tsx:26-71 | the name never exceeds 20 characters, the error shows only for a blank name, and an advancing name is never empty |
| ThemeStep.Start | src/screens/story-steps/ThemeSelectionScreen.tsx:83-85 | the screen opens with the route's main character and no theme |
| ThemeStep.Select | src/screens/story-steps/ThemeSelectionScreen.tsx:88-90 | the new theme replaces any earlier one |
| ThemeStep.Next | src/screens/story-steps/ThemeSelectionScreen.tsx:96-103 | no move exactly when nothing is selected; otherwise the main character passes through and the theme is the selected one |
| ThemeStep.SelectMarksOne | src/screens/story-steps/ThemeSelectionScreen.tsx:136 | among themes with distinct ids, exactly the chosen card shows as selected |
| ThemeStep.CatalogSelectMarksOne | src/screens/story-steps/ThemeSelectionScreen.tsx:136 | on the catalog, exactly the chosen card shows as selected |
| ThemeStep.CatalogThemesStyled | src/screens/story-steps/ThemeSelectionScreen.tsx:41-69 | every catalog theme has its own style, none falls back to the books card |
| MoralStep.Start | src/screens/story-steps/MoralValueSelectionScreen.tsx:71-73 | the screen opens with its parameters and nothing selected |
| MoralStep.Toggle | src/screens/story-steps/MoralValueSelectionScreen.tsx:75-81 | the value is selected afterwards exactly when it was not; a new one is appended at the end; a selected one loses every entry with its id, and the other values stay, in order |
| MoralStep.Next | src/screens/story-steps/MoralValueSelectionScreen.tsx:87-95 | no move exactly while the selection is empty; otherwise character and theme pass through and the moral values are the non-empty selection |
| MoralStep.FirstStaysFirst | src/screens/story-steps/MoralValueSelectionScreen.tsx:79 | the first value selected stays first while others are toggled |
| MoralStep.ToggleTwiceRestores | src/screens/story-steps/MoralValueSelectionScreen.tsx:75-81 | toggling a new value twice restores the screen |
| MoralStep.CatalogMoralValuesStyled | src/screens/story-steps/MoralValueSelectionScreen.tsx:40-57 | every catalog moral value has its own style |
| OptionsStep.Start | src/screens/story-steps/StoryOptionsScreen.tsx:104-119 | a medium story, nothing selected or typed, both features off, role "Arkadaş" |
| OptionsStep.SelectRole | src/screens/story-steps/StoryOptionsScreen.tsx:591 | the picked role becomes the selected role and nothing else changes |
| OptionsStep.ToggleCharacter | src/screens/story-steps/StoryOptionsScreen.tsx:136-144 | toggle by id on the helpers: a new helper is appended, a selected one loses every entry with its id while the other helpers stay in order, and nothing else changes |
| OptionsStep.ToggleItem | src/screens/story-steps/StoryOptionsScreen.tsx:160-166 | toggle by id on the items: a new item is appended, a selected one loses every entry with its id while the other items stay in order, and nothing else changes |
| OptionsStep.ToggleItemTwice | src/screens/story-steps/StoryOptionsScreen.tsx:160-166 | toggling a new item twice restores the screen |
| OptionsStep.ToggleCharacterTwice | src/screens/story-steps/StoryOptionsScreen.tsx:136-144 | toggling a new helper twice restores the screen |
| OptionsStep.AddNewCharacter | src/screens/story-steps/StoryOptionsScreen.tsx:146-158 | nothing for a blank name; otherwise one supporting helper with the untrimmed name and the role as description is appended, and the name field is cleared |
| OptionsStep.AddThenRemove | src/screens/story-steps/StoryOptionsScreen.tsx:136-158 | toggling off a just-added helper gives back the helpers before |
| OptionsStep.TrimAll | src/screens/story-steps/StoryOptionsScreen.tsx:175 | each piece trimmed, in order |
| OptionsStep.NonEmpty | src/screens/story-steps/StoryOptionsScreen.tsx:176 | no piece kept is empty, every non-empty piece is kept, and there are no more pieces than before |
| OptionsStep.NonEmptyAppend | src/screens/story-steps/StoryOptionsScreen.tsx:176 | the filter distributes over concatenation, so kept pieces stay in input order with their multiplicity |
| OptionsStep.NonEmptyOne | src/screens/story-steps/StoryOptionsScreen.tsx:176 | a single piece is kept exactly when it is not empty |
| OptionsStep.TypedNames | src/screens/story-steps/StoryOptionsScreen.tsx:173-176 | every typed name is non-empty, has no white space at its ends and no comma |
| OptionsStep.TypedItems | src/screens/story-steps/StoryOptionsScreen.tsx:178-182 | one item per name, in order, with the fixed description "Özel olarak eklenmiş öğe" |
| OptionsStep.ProcessCustomItems | src/screens/story-steps/StoryOptionsScreen.tsx:172-185 | the selected items unchanged as a prefix, then one item per typed name in order, each with a well-formed name and the fixed description |
| OptionsStep.NothingTyped | src/screens/story-steps/StoryOptionsScreen.tsx:172-185 | text of commas and white space only adds no item |
| OptionsStep.TypedNamesJoin | src/screens/story-steps/StoryOptionsScreen.tsx:173-176 | well-formed names typed as a comma-separated list come back exactly, in order |
| OptionsStep.Finish | src/screens/story-steps/StoryOptionsScreen.tsx:187-204 | the configuration passes character, theme and moral values through and carries the screen's choices |
| OptionsStep.FinishDefaults | src/screens/story-steps/StoryOptionsScreen.tsx:109-115 | advancing from the fresh screen gives a medium story, no helpers or items, both features off |
| OptionsStep.OfferedHelpers | src/screens/story-steps/StoryOptionsScreen.tsx:362 | the helpers offered are exactly the supporting sample characters |
| PageCursor.Open | src/screens/StoryDetailScreen.tsx:30 | the reader opens on the first page |
| PageCursor.Next | src/screens/StoryDetailScreen.tsx:118-122 | one page forward below the last page, otherwise no change |
| PageCursor.Prev | src/screens/StoryDetailScreen.tsx:124-128 | one page back above the first page, otherwise no change |
| PageCursor.Restart | src/screens/StoryDetailScreen.tsx:182 | back to page 0 |
| PageCursor.Indicator | src/screens/StoryDetailScreen.tsx:146 | "Sayfa x/y" shows the page counted from one and the page count, so x lies between 1 and y |
| PageCursor.IndicatorTracks | src/screens/StoryDetailScreen.tsx:118-190 | the indicator reads 1 on opening and after "read again", goes up by one on "next" and down by one on "previous" where enabled, and reads y/y exactly when the completion panel shows |
| PageCursor.MovesStayValid | src/screens/StoryDetailScreen.tsx:118-128 | next, previous and restart keep the page among the story's pages |
| PageCursor.ButtonsDisabledExactly | src/screens/StoryDetailScreen.tsx:162-174 | each button is disabled exactly when pressing it would change nothing; the completion panel shows exactly when "next" is disabled |
| PageCursor.MovesUndo | src/screens/StoryDetailScreen.tsx:118-128 | previous undoes next and next undoes previous, where the button is enabled |
| PageCursor.ForwardStops | src/screens/StoryDetailScreen.tsx:118-122 | n presses of next move n pages forward, stopping at the last page |
| PageCursor.ReadToEnd | src/screens/StoryDetailScreen.tsx:166-174 | the completion panel is reached after exactly one press per remaining page |
| Wizard.Run | src/screens/story-steps/CharacterSelectionScreen.tsx:29-44 | the wizard reaches the preview exactly when the name is not blank, a theme is chosen and a moral value is selected |
| Wizard.ChoicesReachPreview | src/screens/story-steps/StoryOptionsScreen.tsx:192-201 | when every guard holds, the configuration carries the typed main character, the chosen theme and the non-empty moral values |
| Wizard.StoryOfTheWizard | src/screens/story-steps/StoryPreviewScreen.tsx:101-143 | the story is titled with the typed name and the first moral value, never a default, and told in the chosen theme |
| Wizard.CatalogBranches | src/constants/data.ts:3-29 | of the catalog themes only "Macera" and "Uzay ve Gezegenler" have their own branch; the other three are generic |

## Left out

- Rendering, style sheets, navigation wiring, the step indicator and the carousel animation. These are presentation or floating-point UI work.
- The `setTimeout` loading and generation delays in StoryPreviewScreen.tsx and StoryDetailScreen.tsx. The demo story data and the story list of MyStoriesScreen.tsx are left out too: they are fixed demo data behind timers.
- Ids from `Date.now()` and `Math.random()` are parameters: `id` for a character and `ids` for the k-th typed item.
- StoryAssembler.SpecialItem: the draw `Math.floor(Math.random() * n)` is the parameter `pick`, read as `pick % n`. Every index is therefore reachable, and `pick < n` picks exactly `names[pick]`.
- CharacterStep.Edit: `maxLength={20}` is modelled as keeping the first 20 characters of the typed text, counted as Unicode scalar values. The platform counts UTF-16 code units, so a name with characters outside the Basic Multilingual Plane (an emoji, say) is cut earlier in the app than in the model. How the platform cuts a paste is not modelled either.
- `trim()` uses the ECMAScript WhiteSpace and LineTerminator characters. Unicode category data beyond that list is not modelled.
- The style maps are Dafny maps over the listed titles. JavaScript object lookups would also hit inherited keys such as "constructor"; that is not modelled.
- src/constants/theme.ts is left out except for the palette colours the style tables and the background use.
- The unused `StoryConfig` and `Story` types of src/constants/types.ts are left out. The assembler reads its own optional-field record.
- The static screens (home, about, create-story) are left out.

Behaviour of the code worth noting:

- A missing story length tells the long story, with factor 3, and the summary label reads "Uzun".
- The "Macera" branch at factor 1 has five paragraphs.
- A present but empty moral-value list does not take the "Arkadaşlık" default, because an empty array is truthy. Its main moral prints as "undefined". The wizard never produces such a list (Wizard.ChoicesReachPreview).
