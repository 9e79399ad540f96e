/** The records the wizard collects: characters, themes, moral values and
    custom items, each identified by a string id. */
module Entities {
  import opened Optional

  /** A character is either the protagonist or one of their helpers. */
  datatype CharacterKind = Main | Supporting

  /** For a helper, `description` holds the free-text role ("Mentor", "Anne", ...). */
  datatype Character = Character(id: string, name: string, kind: CharacterKind, description: Option<string>)

  /** `title` is the key the story assembler dispatches on. */
  datatype StoryTheme = StoryTheme(id: string, title: string, description: string)

  datatype MoralValue = MoralValue(id: string, title: string, description: string)

  datatype CustomItem = CustomItem(id: string, name: string, description: Option<string>)

  function CharacterId(c: Character): string { c.id }
  function ThemeId(t: StoryTheme): string { t.id }
  function MoralValueId(v: MoralValue): string { v.id }
  function CustomItemId(i: CustomItem): string { i.id }
}
