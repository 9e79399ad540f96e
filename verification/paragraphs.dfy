/**
 * The shape of the paragraph templates of the story assembler
 * (`createStory`, StoryPreviewScreen.tsx:146-225): which values each
 * `story += \`...\`` line interpolates, in order.
 *
 * JavaScript splits a template literal `s0${v0}s1${v1}...sn` into its
 * fixed strings `s0 ... sn` and the values `v0 ... vn-1` between them.
 * The model keeps that split: this module holds the values' slots, and
 * module `SourceText` holds the fixed strings of the source.
 */
module Paragraphs {

  /** The interpolated values: `mainCharName`, `friend.name`,
      `specialItem`, `mainMoralValue` and `themeName`. */
  datatype Slot = MainName | FriendName | SpecialItem | MainMoral | ThemeName

  /** One paragraph template per `story +=` line of a branch, numbered in
      source order. */
  datatype TemplateId =
    | Adventure1 | Adventure2 | Adventure3 | Adventure4 | Adventure5 | Adventure6
    | Adventure7 | Adventure8 | Adventure9 | Adventure10 | Adventure11 | Adventure12
    | Space1 | Space2 | Space3 | Space4 | Space5 | Space6 | Space7
    | Space8 | Space9 | Space10 | Space11 | Space12 | Space13 | Space14
    | Generic1 | Generic2 | Generic3 | Generic4 | Generic5 | Generic6 | Generic7

  /** The slots of each template, left to right. */
  function Slots(id: TemplateId): seq<Slot> {
    match id
    case Adventure1 => [MainName, MainName]
    case Adventure2 => [MainName, FriendName, MainName, FriendName, FriendName, FriendName, MainName]
    case Adventure3 => [MainName, FriendName, MainName]
    case Adventure4 => [MainName, FriendName, MainName, MainName, FriendName]
    case Adventure5 => [MainName, FriendName, FriendName, MainName, FriendName]
    case Adventure6 => [MainName, FriendName, MainName]
    case Adventure7 => [MainName, FriendName, MainName, FriendName, FriendName, MainName]
    case Adventure8 => [MainName, MainName, FriendName, MainName]
    case Adventure9 => [MainName, FriendName, FriendName]
    case Adventure10 => [FriendName, MainName, FriendName]
    case Adventure11 => [MainName, FriendName, SpecialItem, SpecialItem, MainName, FriendName, SpecialItem]
    case Adventure12 => [MainName, FriendName, SpecialItem]
    case Space1 => [MainName, MainName]
    case Space2 => [MainName]
    case Space3 => [MainName, FriendName, MainName, FriendName]
    case Space4 => [FriendName, MainName, FriendName, SpecialItem]
    case Space5 => [MainName, FriendName]
    case Space6 => [MainName, FriendName]
    case Space7 => [MainName, FriendName, FriendName]
    case Space8 => [MainName]
    case Space9 => [MainName]
    case Space10 => [MainName, FriendName, MainName, SpecialItem]
    case Space11 => [SpecialItem, MainName, FriendName, MainName, FriendName]
    case Space12 => [MainName, FriendName]
    case Space13 => [MainName, MainName, FriendName]
    case Space14 => [MainName, FriendName]
    case Generic1 => [MainName, FriendName, ThemeName, SpecialItem]
    case Generic2 => [MainName, FriendName, MainMoral, MainName, FriendName, MainMoral]
    case Generic3 => [FriendName, MainName, MainMoral]
    case Generic4 => [MainName, FriendName]
    case Generic5 => [MainName, MainMoral]
    case Generic6 => [MainName]
    case Generic7 => [MainName, FriendName]
  }
}
