/** The fixed catalogs the wizard offers: themes, moral values, sample
    characters and sample custom items. */
module Catalog {
  import opened Optional
  import opened Entities
  import opened Selection

  const Themes: seq<StoryTheme> := [
    StoryTheme("1", "Macera", "Heyecan dolu maceralar içeren hikayeler"),
    StoryTheme("2", "Uzay ve Gezegenler", "Uzayda ve diğer gezegenlerde geçen hikayeler"),
    StoryTheme("3", "Deniz Altı", "Denizlerin derinliklerinde geçen hikayeler"),
    StoryTheme("4", "Orman ve Hayvanlar", "Orman ve hayvan dünyasında geçen hikayeler"),
    StoryTheme("5", "Sihirli Dünya", "Sihir ve büyü dolu fantastik hikayeler")
  ]

  const MoralValues: seq<MoralValue> := [
    MoralValue("1", "Arkadaşlık", "Arkadaşlığın önemini vurgulayan değerler"),
    MoralValue("2", "Dürüstlük", "Dürüstlüğün önemini vurgulayan değerler"),
    MoralValue("3", "Paylaşma", "Paylaşmanın güzelliğini vurgulayan değerler"),
    MoralValue("4", "Yardımlaşma", "Başkalarına yardım etmenin önemini vurgulayan değerler"),
    MoralValue("5", "Sabır", "Sabırlı olmanın önemini vurgulayan değerler"),
    MoralValue("6", "Doğa Sevgisi", "Doğayı ve çevreyi koruma bilincini aşılayan değerler")
  ]

  const SampleCharacters: seq<Character> := [
    Character("1", "Cesur Aslan", Main, Some("Cesur ve lider ruhlu bir aslan")),
    Character("2", "Bilge Baykuş", Supporting, Some("Bilge ve her soruya cevabı olan bir baykuş")),
    Character("3", "Neşeli Tavşan", Supporting, Some("Neşeli ve hızlı bir tavşan")),
    Character("4", "Cesur Prenses", Main, Some("Cesur ve akıllı bir prenses")),
    Character("5", "Meraklı Çocuk", Main, Some("Her şeyi merak eden bir çocuk"))
  ]

  const CustomItems: seq<CustomItem> := [
    CustomItem("1", "Sihirli Kalem", Some("Her çizdiğini gerçeğe dönüştüren sihirli bir kalem")),
    CustomItem("2", "Görünmezlik Pelerini", Some("Giyen kişiyi görünmez yapan sihirli bir pelerin")),
    CustomItem("3", "Uçan Halı", Some("İstenilen her yere gidebilen sihirli bir halı")),
    CustomItem("4", "Konuşan Kitap", Some("Hikayeler anlatan ve sorulara cevap veren konuşan bir kitap"))
  ]

  function ThemeTitle(t: StoryTheme): string { t.title }

  /** The sample characters offered as helpers on the options screen:
      those of kind `Supporting`, in catalog order. */
  function Helpers(cs: seq<Character>): (r: seq<Character>)
    ensures forall c :: c in r <==> c in cs && c.kind == Supporting
    ensures |r| <= |cs|
  {
    if |cs| == 0 then []
    else (if cs[0].kind == Supporting then [cs[0]] else []) + Helpers(cs[1..])
  }

  lemma ThemesAreDistinct()
    ensures UniqueKeys(Themes, ThemeId)
    ensures UniqueKeys(Themes, ThemeTitle)
  {
    ThemeIdsDistinct();
    ThemeTitlesDistinct();
  }

  lemma ThemeIdsDistinct()
    ensures UniqueKeys(Themes, ThemeId)
  {
  }

  lemma ThemeTitlesDistinct()
    ensures UniqueKeys(Themes, ThemeTitle)
  {
  }

  lemma MoralValuesAreDistinct()
    ensures UniqueKeys(MoralValues, MoralValueId)
  {
  }

  lemma CustomItemsAreDistinct()
    ensures UniqueKeys(CustomItems, CustomItemId)
  {
  }

  /** Exactly two sample characters are helpers, "Bilge Baykuş" (id "2")
      and "Neşeli Tavşan" (id "3"), in that order. */
  lemma SampleHelpers()
    ensures Helpers(SampleCharacters) == [SampleCharacters[1], SampleCharacters[2]]
    ensures SampleCharacters[1].id == "2" && SampleCharacters[2].id == "3"
  {
    HelpersOfFive(SampleCharacters);
  }

  /** Of five characters whose second and third alone are helpers, the
      helpers are those two, in order. */
  lemma HelpersOfFive(cs: seq<Character>)
    requires |cs| == 5 && cs[1].kind == Supporting && cs[2].kind == Supporting
    requires cs[0].kind == Main && cs[3].kind == Main && cs[4].kind == Main
    ensures Helpers(cs) == [cs[1], cs[2]]
  {
    assert Helpers(cs[4..]) == [] by { assert cs[4..][1..] == []; }
    assert cs[3..][1..] == cs[4..];
    assert cs[2..][1..] == cs[3..];
    assert Helpers(cs[3..]) == [];
    assert Helpers(cs[2..]) == [cs[2]];
    assert cs[1..][1..] == cs[2..];
    assert Helpers(cs[1..]) == [cs[1], cs[2]];
    assert Helpers(cs) == Helpers(cs[1..]);
  }
}
