/**
 * No fixed string of the source's templates contains a line feed, so the
 * story text has blank lines only where `createStory` puts them. The
 * words of each template are checked a few at a time, in lemmas of their
 * own, and each template's lemma then puts its words together.
 */
module SourceLines {
  import opened Paragraphs
  import opened StoryTemplates
  import opened SourceText

  /** No fixed string of any template contains a line feed. */
  lemma SourceOneLine(id: TemplateId)
    ensures NoLineFeed(SourceStrings(id))
  {
    Adventure1OneLine();
    Adventure2OneLine();
    Adventure3OneLine();
    Adventure4OneLine();
    Adventure5OneLine();
    Adventure6OneLine();
    Adventure7OneLine();
    Adventure8OneLine();
    Adventure9OneLine();
    Adventure10OneLine();
    Adventure11OneLine();
    Adventure12OneLine();
    Space1OneLine();
    Space2OneLine();
    Space3OneLine();
    Space4OneLine();
    Space5OneLine();
    Space6OneLine();
    Space7OneLine();
    Space8OneLine();
    Space9OneLine();
    Space10OneLine();
    Space11OneLine();
    Space12OneLine();
    Space13OneLine();
    Space14OneLine();
    Generic1OneLine();
    Generic2OneLine();
    Generic3OneLine();
    Generic4OneLine();
    Generic5OneLine();
    Generic6OneLine();
    Generic7OneLine();
  }

  /** The fixed strings of `Adventure1` (StoryPreviewScreen.tsx:147). */
  lemma Adventure1OneLine()
    ensures NoLineFeed(Adventure1Text())
  {
    Adventure1Pieces1();
    Adventure1Pieces2();
    Adventure1Pieces3();
    Adventure1Pieces4();
    Adventure1Pieces5();
  }

  lemma Adventure1Pieces1()
    ensures '\n' !in ""
    ensures '\n' !in " iki "
    ensures '\n' !in "yaşındaydı "
    ensures '\n' !in "ve "
    ensures '\n' !in "her "
    ensures '\n' !in "gün "
  {
  }

  lemma Adventure1Pieces2()
    ensures '\n' !in "yeni "
    ensures '\n' !in "şeyler "
    ensures '\n' !in "keşfetmeyi "
    ensures '\n' !in "çok "
    ensures '\n' !in "seviyordu. "
    ensures '\n' !in "Bir "
  {
  }

  lemma Adventure1Pieces3()
    ensures '\n' !in "sabah "
    ensures '\n' !in ", "
    ensures '\n' !in "en "
    ensures '\n' !in "sevdiği "
    ensures '\n' !in "oyuncak "
    ensures '\n' !in "ayısıyla "
  {
  }

  lemma Adventure1Pieces4()
    ensures '\n' !in "oynamaya "
    ensures '\n' !in "karar "
    ensures '\n' !in "verdi. "
    ensures '\n' !in "\"Ayıcık, "
    ensures '\n' !in "hadi "
    ensures '\n' !in "bahçede "
  {
  }

  lemma Adventure1Pieces5()
    ensures '\n' !in "oynayalım!\" "
    ensures '\n' !in "dedi."
  {
  }

  /** The fixed strings of `Adventure2` (StoryPreviewScreen.tsx:149). */
  lemma Adventure2OneLine()
    ensures NoLineFeed(Adventure2Text())
  {
    Adventure2Pieces1();
    Adventure2Pieces2();
    Adventure2Pieces3();
    Adventure2Pieces4();
  }

  lemma Adventure2Pieces1()
    ensures '\n' !in "Bahçede "
    ensures '\n' !in "'nin "
    ensures '\n' !in "en "
    ensures '\n' !in "iyi "
    ensures '\n' !in "arkadaşı "
    ensures '\n' !in ", "
  {
  }

  lemma Adventure2Pieces2()
    ensures '\n' !in "çiçekleri "
    ensures '\n' !in "suluyordu. "
    ensures '\n' !in " "
    ensures '\n' !in "'e "
    ensures '\n' !in "el "
    ensures '\n' !in "salladı, "
  {
  }

  lemma Adventure2Pieces3()
    ensures '\n' !in "\""
    ensures '\n' !in ", "
    ensures '\n' !in "benimle "
    ensures '\n' !in "oynamak "
    ensures '\n' !in "ister "
    ensures '\n' !in "misin?\" "
  {
  }

  lemma Adventure2Pieces4()
    ensures '\n' !in " gülümsedi, "
    ensures '\n' !in "\"Evet, "
    ensures '\n' !in "! "
    ensures '\n' !in "Hangi "
    ensures '\n' !in "oyunu "
    ensures '\n' !in "oynayalım?\""
  {
  }

  /** The fixed strings of `Adventure3` (StoryPreviewScreen.tsx:151). */
  lemma Adventure3OneLine()
    ensures NoLineFeed(Adventure3Text())
  {
    Adventure3Pieces1();
    Adventure3Pieces2();
    Adventure3Pieces3();
  }

  lemma Adventure3Pieces1()
    ensures '\n' !in ""
    ensures '\n' !in " heyecanla, "
    ensures '\n' !in "\"Kovalamaca!\" "
    ensures '\n' !in "dedi. "
    ensures '\n' !in ", "
    ensures '\n' !in "\"Tamam! "
  {
  }

  lemma Adventure3Pieces2()
    ensures '\n' !in "Ama "
    ensures '\n' !in "önce "
    ensures '\n' !in "bahçedeki "
    ensures '\n' !in "çiçeklere "
    ensures '\n' !in "dikkat "
    ensures '\n' !in "edelim!\" "
  {
  }

  lemma Adventure3Pieces3()
    ensures '\n' !in ", "
    ensures '\n' !in "\"Tamam!\" "
    ensures '\n' !in "diyerek "
    ensures '\n' !in "koşmaya "
    ensures '\n' !in "başladı."
  {
  }

  /** The fixed strings of `Adventure4` (StoryPreviewScreen.tsx:153). */
  lemma Adventure4OneLine()
    ensures NoLineFeed(Adventure4Text())
  {
    Adventure4Pieces1();
    Adventure4Pieces2();
    Adventure4Pieces3();
    Adventure4Pieces4();
    Adventure4Pieces5();
  }

  lemma Adventure4Pieces1()
    ensures '\n' !in "Koşarken "
    ensures '\n' !in ", "
    ensures '\n' !in "birden "
    ensures '\n' !in "yere "
    ensures '\n' !in "düştü. "
    ensures '\n' !in "\"Ayy!\" "
  {
  }

  lemma Adventure4Pieces2()
    ensures '\n' !in "diye "
    ensures '\n' !in "bağırdı. "
    ensures '\n' !in " hemen "
    ensures '\n' !in "yanına "
    ensures '\n' !in "geldi, "
    ensures '\n' !in "\""
  {
  }

  lemma Adventure4Pieces3()
    ensures '\n' !in ", "
    ensures '\n' !in "iyi "
    ensures '\n' !in "misin?\" "
    ensures '\n' !in " gülerek, "
    ensures '\n' !in "\"Evet! "
    ensures '\n' !in "Ama "
  {
  }

  lemma Adventure4Pieces4()
    ensures '\n' !in "biraz "
    ensures '\n' !in "canım "
    ensures '\n' !in "acıdı.\" "
    ensures '\n' !in ", "
    ensures '\n' !in "\"Yavaş "
    ensures '\n' !in "oynamamız "
  {
  }

  lemma Adventure4Pieces5()
    ensures '\n' !in "gerekiyor, "
    ensures '\n' !in "hadi "
    ensures '\n' !in "birlikte "
    ensures '\n' !in "kalkalım!\" "
    ensures '\n' !in "dedi."
  {
  }

  /** The fixed strings of `Adventure5` (StoryPreviewScreen.tsx:155). */
  lemma Adventure5OneLine()
    ensures NoLineFeed(Adventure5Text())
  {
    Adventure5Pieces1();
    Adventure5Pieces2();
    Adventure5Pieces3();
    Adventure5Pieces4();
  }

  lemma Adventure5Pieces1()
    ensures '\n' !in ""
    ensures '\n' !in " "
    ensures '\n' !in "'in "
    ensures '\n' !in "elini "
    ensures '\n' !in "tuttu "
    ensures '\n' !in "ve "
  {
  }

  lemma Adventure5Pieces2()
    ensures '\n' !in "birlikte "
    ensures '\n' !in "ayakta "
    ensures '\n' !in "durdular. "
    ensures '\n' !in ", "
    ensures '\n' !in "\"Hadi, "
    ensures '\n' !in "yavaşça "
  {
  }

  lemma Adventure5Pieces3()
    ensures '\n' !in "oynayalım!\" "
    ensures '\n' !in "dedi. "
    ensures '\n' !in ", "
    ensures '\n' !in "\"Evet, "
    ensures '\n' !in "!\" "
    ensures '\n' !in "diyerek "
  {
  }

  lemma Adventure5Pieces4()
    ensures '\n' !in "kabul "
    ensures '\n' !in "etti."
  {
  }

  /** The fixed strings of `Adventure6` (StoryPreviewScreen.tsx:158). */
  lemma Adventure6OneLine()
    ensures NoLineFeed(Adventure6Text())
  {
    Adventure6Pieces1();
    Adventure6Pieces2();
    Adventure6Pieces3();
    Adventure6Pieces4();
    Adventure6Pieces5();
  }

  lemma Adventure6Pieces1()
    ensures '\n' !in "Sonra "
    ensures '\n' !in " ve "
    ensures '\n' !in " el "
    ensures '\n' !in "ele "
    ensures '\n' !in "tutuşarak "
    ensures '\n' !in "bahçede "
  {
  }

  lemma Adventure6Pieces2()
    ensures '\n' !in "dans "
    ensures '\n' !in "etmeye "
    ensures '\n' !in "başladılar. "
    ensures '\n' !in "O "
    ensures '\n' !in "sırada "
    ensures '\n' !in "Fatma "
  {
  }

  lemma Adventure6Pieces3()
    ensures '\n' !in "teyze, "
    ensures '\n' !in "bahçenin "
    ensures '\n' !in "yanından "
    ensures '\n' !in "geçiyordu. "
    ensures '\n' !in "Gülerek, "
    ensures '\n' !in "\"Ne "
  {
  }

  lemma Adventure6Pieces4()
    ensures '\n' !in "güzel "
    ensures '\n' !in "dans "
    ensures '\n' !in "ediyorsunuz!\" "
    ensures '\n' !in "dedi. "
    ensures '\n' !in ", "
    ensures '\n' !in "\"Teşekkür "
  {
  }

  lemma Adventure6Pieces5()
    ensures '\n' !in "ederiz, "
    ensures '\n' !in "Fatma "
    ensures '\n' !in "teyze!\" "
    ensures '\n' !in "dedi."
  {
  }

  /** The fixed strings of `Adventure7` (StoryPreviewScreen.tsx:160). */
  lemma Adventure7OneLine()
    ensures NoLineFeed(Adventure7Text())
  {
    Adventure7Pieces1();
    Adventure7Pieces2();
    Adventure7Pieces3();
    Adventure7Pieces4();
    Adventure7Pieces5();
    Adventure7Pieces6();
    Adventure7Pieces7();
    Adventure7Pieces8();
  }

  lemma Adventure7Pieces1()
    ensures '\n' !in "O "
    ensures '\n' !in "gün "
    ensures '\n' !in ", "
    ensures '\n' !in "en "
    ensures '\n' !in "önemli "
    ensures '\n' !in "dersi "
  {
  }

  lemma Adventure7Pieces2()
    ensures '\n' !in "öğrendi: "
    ensures '\n' !in "Oynamak "
    ensures '\n' !in "çok "
    ensures '\n' !in "eğlenceli "
    ensures '\n' !in "ama "
    ensures '\n' !in "dikkatli "
  {
  }

  lemma Adventure7Pieces3()
    ensures '\n' !in "olmalıyız! "
    ensures '\n' !in " ile "
    ensures '\n' !in "birlikte "
    ensures '\n' !in "yavaşça "
    ensures '\n' !in "oynayarak "
    ensures '\n' !in "hem "
  {
  }

  lemma Adventure7Pieces4()
    ensures '\n' !in "eğlendi "
    ensures '\n' !in "hem "
    ensures '\n' !in "de "
    ensures '\n' !in "güvenli "
    ensures '\n' !in "bir "
    ensures '\n' !in "şekilde "
  {
  }

  lemma Adventure7Pieces5()
    ensures '\n' !in "bahçede "
    ensures '\n' !in "vakit "
    ensures '\n' !in "geçirdi. "
    ensures '\n' !in ", "
    ensures '\n' !in "\""
    ensures '\n' !in ", "
  {
  }

  lemma Adventure7Pieces6()
    ensures '\n' !in "birlikte "
    ensures '\n' !in "oynamak "
    ensures '\n' !in "çok "
    ensures '\n' !in "güzel!\" "
    ensures '\n' !in "dedi. "
    ensures '\n' !in ", "
  {
  }

  lemma Adventure7Pieces7()
    ensures '\n' !in "\"Evet, "
    ensures '\n' !in "! "
    ensures '\n' !in "Birlikte "
    ensures '\n' !in "eğlenmek "
    ensures '\n' !in "için "
    ensures '\n' !in "dikkatli "
  {
  }

  lemma Adventure7Pieces8()
    ensures '\n' !in "olmalıyız!\""
  {
  }

  /** The fixed strings of `Adventure8` (StoryPreviewScreen.tsx:164). */
  lemma Adventure8OneLine()
    ensures NoLineFeed(Adventure8Text())
  {
    Adventure8Pieces1();
    Adventure8Pieces2();
    Adventure8Pieces3();
    Adventure8Pieces4();
  }

  lemma Adventure8Pieces1()
    ensures '\n' !in "Akşam "
    ensures '\n' !in "olduğunda, "
    ensures '\n' !in "'nin "
    ensures '\n' !in "annesi "
    ensures '\n' !in "onları "
    ensures '\n' !in "eve "
  {
  }

  lemma Adventure8Pieces2()
    ensures '\n' !in "çağırdı. "
    ensures '\n' !in "\"Çocuklar, "
    ensures '\n' !in "yemek "
    ensures '\n' !in "hazır!\" "
    ensures '\n' !in " ve "
    ensures '\n' !in " koşarak "
  {
  }

  lemma Adventure8Pieces3()
    ensures '\n' !in "eve "
    ensures '\n' !in "gittiler. "
    ensures '\n' !in "'nin "
    ensures '\n' !in "annesi, "
    ensures '\n' !in "\"Bugün "
    ensures '\n' !in "ne "
  {
  }

  lemma Adventure8Pieces4()
    ensures '\n' !in "yaptınız?\" "
    ensures '\n' !in "diye "
    ensures '\n' !in "sordu."
  {
  }

  /** The fixed strings of `Adventure9` (StoryPreviewScreen.tsx:166). */
  lemma Adventure9OneLine()
    ensures NoLineFeed(Adventure9Text())
  {
    Adventure9Pieces1();
    Adventure9Pieces2();
    Adventure9Pieces3();
    Adventure9Pieces4();
  }

  lemma Adventure9Pieces1()
    ensures '\n' !in ""
    ensures '\n' !in " heyecanla "
    ensures '\n' !in "anlatmaya "
    ensures '\n' !in "başladı: "
    ensures '\n' !in "\"Anne, "
    ensures '\n' !in "biz "
  {
  }

  lemma Adventure9Pieces2()
    ensures '\n' !in " ile "
    ensures '\n' !in "bahçede "
    ensures '\n' !in "oynadık. "
    ensures '\n' !in "Önce "
    ensures '\n' !in "düştüm "
    ensures '\n' !in "ama "
  {
  }

  lemma Adventure9Pieces3()
    ensures '\n' !in "sonra "
    ensures '\n' !in " bana "
    ensures '\n' !in "yardım "
    ensures '\n' !in "etti. "
    ensures '\n' !in "Sonra "
    ensures '\n' !in "dans "
  {
  }

  lemma Adventure9Pieces4()
    ensures '\n' !in "ettik "
    ensures '\n' !in "ve "
    ensures '\n' !in "Fatma "
    ensures '\n' !in "teyze "
    ensures '\n' !in "bizi "
    ensures '\n' !in "gördü!\""
  {
  }

  /** The fixed strings of `Adventure10` (StoryPreviewScreen.tsx:168). */
  lemma Adventure10OneLine()
    ensures NoLineFeed(Adventure10Text())
  {
    Adventure10Pieces1();
    Adventure10Pieces2();
    Adventure10Pieces3();
  }

  lemma Adventure10Pieces1()
    ensures '\n' !in "Annesi "
    ensures '\n' !in "gülümsedi "
    ensures '\n' !in "ve "
    ensures '\n' !in "\"Harika! "
    ensures '\n' !in " çok "
    ensures '\n' !in "iyi "
  {
  }

  lemma Adventure10Pieces2()
    ensures '\n' !in "bir "
    ensures '\n' !in "arkadaş. "
    ensures '\n' !in "Birbirinize "
    ensures '\n' !in "yardım "
    ensures '\n' !in "etmeniz "
    ensures '\n' !in "çok "
  {
  }

  lemma Adventure10Pieces3()
    ensures '\n' !in "güzel,\" "
    ensures '\n' !in "dedi. "
    ensures '\n' !in " ve "
    ensures '\n' !in " birbirlerine "
    ensures '\n' !in "bakıp "
    ensures '\n' !in "gülümsediler."
  {
  }

  /** The fixed strings of `Adventure11` (StoryPreviewScreen.tsx:170). */
  lemma Adventure11OneLine()
    ensures NoLineFeed(Adventure11Text())
  {
    Adventure11Pieces1();
    Adventure11Pieces2();
    Adventure11Pieces3();
    Adventure11Pieces4();
  }

  lemma Adventure11Pieces1()
    ensures '\n' !in "Yemekten "
    ensures '\n' !in "sonra, "
    ensures '\n' !in " ve "
    ensures '\n' !in " "
    ensures '\n' !in " ile "
    ensures '\n' !in "oynamaya "
  {
  }

  lemma Adventure11Pieces2()
    ensures '\n' !in "başladılar. "
    ensures '\n' !in " sayesinde "
    ensures '\n' !in "hayal "
    ensures '\n' !in "ettikleri "
    ensures '\n' !in "her "
    ensures '\n' !in "şeyi "
  {
  }

  lemma Adventure11Pieces3()
    ensures '\n' !in "gerçekleştirebiliyorlardı. "
    ensures '\n' !in ", "
    ensures '\n' !in "\""
    ensures '\n' !in ", "
    ensures '\n' !in "bu "
    ensures '\n' !in " ile "
  {
  }

  lemma Adventure11Pieces4()
    ensures '\n' !in "neler "
    ensures '\n' !in "yapabileceğimizi "
    ensures '\n' !in "hayal "
    ensures '\n' !in "et!\" "
    ensures '\n' !in "dedi."
  {
  }

  /** The fixed strings of `Adventure12` (StoryPreviewScreen.tsx:172). */
  lemma Adventure12OneLine()
    ensures NoLineFeed(Adventure12Text())
  {
    Adventure12Pieces1();
    Adventure12Pieces2();
    Adventure12Pieces3();
  }

  lemma Adventure12Pieces1()
    ensures '\n' !in "Ve "
    ensures '\n' !in "böylece "
    ensures '\n' !in " ve "
    ensures '\n' !in " yeni "
    ensures '\n' !in "maceralarına "
    ensures '\n' !in " ile "
  {
  }

  lemma Adventure12Pieces2()
    ensures '\n' !in "devam "
    ensures '\n' !in "ettiler. "
    ensures '\n' !in "Her "
    ensures '\n' !in "zaman "
    ensures '\n' !in "birbirlerine "
    ensures '\n' !in "yardım "
  {
  }

  lemma Adventure12Pieces3()
    ensures '\n' !in "ederek "
    ensures '\n' !in "ve "
    ensures '\n' !in "dikkatli "
    ensures '\n' !in "olarak "
    ensures '\n' !in "oynamayı "
    ensures '\n' !in "unutmadılar."
  {
  }

  /** The fixed strings of `Space1` (StoryPreviewScreen.tsx:175). */
  lemma Space1OneLine()
    ensures NoLineFeed(Space1Text())
  {
    Space1Pieces1();
    Space1Pieces2();
    Space1Pieces3();
    Space1Pieces4();
  }

  lemma Space1Pieces1()
    ensures '\n' !in ""
    ensures '\n' !in " yıldızları "
    ensures '\n' !in "ve "
    ensures '\n' !in "gezegenleri "
    ensures '\n' !in "çok "
    ensures '\n' !in "seviyordu. "
  {
  }

  lemma Space1Pieces2()
    ensures '\n' !in "Her "
    ensures '\n' !in "gece "
    ensures '\n' !in "yatmadan "
    ensures '\n' !in "önce "
    ensures '\n' !in "pencereden "
    ensures '\n' !in "gökyüzüne "
  {
  }

  lemma Space1Pieces3()
    ensures '\n' !in "bakardı. "
    ensures '\n' !in "Bir "
    ensures '\n' !in "gece, "
    ensures '\n' !in "parlak "
    ensures '\n' !in "bir "
    ensures '\n' !in "yıldız "
  {
  }

  lemma Space1Pieces4()
    ensures '\n' !in "'nin "
    ensures '\n' !in "dikkatini "
    ensures '\n' !in "çekti."
  {
  }

  /** The fixed strings of `Space2` (StoryPreviewScreen.tsx:177). */
  lemma Space2OneLine()
    ensures NoLineFeed(Space2Text())
  {
    Space2Pieces1();
    Space2Pieces2();
    Space2Pieces3();
    Space2Pieces4();
    Space2Pieces5();
  }

  lemma Space2Pieces1()
    ensures '\n' !in "\"Anne, "
    ensures '\n' !in "bak "
    ensures '\n' !in "ne "
    ensures '\n' !in "kadar "
    ensures '\n' !in "parlak "
    ensures '\n' !in "bir "
  {
  }

  lemma Space2Pieces2()
    ensures '\n' !in "yıldız!\" "
    ensures '\n' !in "diye "
    ensures '\n' !in "seslendi "
    ensures '\n' !in ". "
    ensures '\n' !in "Annesi "
    ensures '\n' !in "yanına "
  {
  }

  lemma Space2Pieces3()
    ensures '\n' !in "geldi "
    ensures '\n' !in "ve "
    ensures '\n' !in "\"Evet, "
    ensures '\n' !in "çok "
    ensures '\n' !in "güzel. "
    ensures '\n' !in "Belki "
  {
  }

  lemma Space2Pieces4()
    ensures '\n' !in "de "
    ensures '\n' !in "bir "
    ensures '\n' !in "gün "
    ensures '\n' !in "uzaya "
    ensures '\n' !in "gidebilirsin\" "
    ensures '\n' !in "dedi "
  {
  }

  lemma Space2Pieces5()
    ensures '\n' !in "gülümseyerek."
  {
  }

  /** The fixed strings of `Space3` (StoryPreviewScreen.tsx:179). */
  lemma Space3OneLine()
    ensures NoLineFeed(Space3Text())
  {
    Space3Pieces1();
    Space3Pieces2();
    Space3Pieces3();
    Space3Pieces4();
  }

  lemma Space3Pieces1()
    ensures '\n' !in "Ertesi "
    ensures '\n' !in "gün "
    ensures '\n' !in " ve "
    ensures '\n' !in "arkadaşı "
    ensures '\n' !in " bahçede "
    ensures '\n' !in "buluştular. "
  {
  }

  lemma Space3Pieces2()
    ensures '\n' !in ", "
    ensures '\n' !in "\"Dün "
    ensures '\n' !in "gece "
    ensures '\n' !in "çok "
    ensures '\n' !in "parlak "
    ensures '\n' !in "bir "
  {
  }

  lemma Space3Pieces3()
    ensures '\n' !in "yıldız "
    ensures '\n' !in "gördüm, "
    ensures '\n' !in ". "
    ensures '\n' !in "Bir "
    ensures '\n' !in "gün "
    ensures '\n' !in "uzaya "
  {
  }

  lemma Space3Pieces4()
    ensures '\n' !in "gitmek "
    ensures '\n' !in "istiyorum\" "
    ensures '\n' !in "dedi "
    ensures '\n' !in "heyecanla."
  {
  }

  /** The fixed strings of `Space4` (StoryPreviewScreen.tsx:181). */
  lemma Space4OneLine()
    ensures NoLineFeed(Space4Text())
  {
    Space4Pieces1();
    Space4Pieces2();
    Space4Pieces3();
    Space4Pieces4();
  }

  lemma Space4Pieces1()
    ensures '\n' !in ""
    ensures '\n' !in " da "
    ensures '\n' !in "heyecanlandı, "
    ensures '\n' !in "\"Ben "
    ensures '\n' !in "de "
    ensures '\n' !in "gelmek "
  {
  }

  lemma Space4Pieces2()
    ensures '\n' !in "isterim! "
    ensures '\n' !in "Bir "
    ensures '\n' !in "uzay "
    ensures '\n' !in "gemisi "
    ensures '\n' !in "yapalım!\". "
    ensures '\n' !in "Böylece "
  {
  }

  lemma Space4Pieces3()
    ensures '\n' !in " ve "
    ensures '\n' !in " kartonları, "
    ensures '\n' !in "kutuları "
    ensures '\n' !in "ve "
    ensures '\n' !in "'ı "
    ensures '\n' !in "kullanarak "
  {
  }

  lemma Space4Pieces4()
    ensures '\n' !in "kendi "
    ensures '\n' !in "uzay "
    ensures '\n' !in "gemilerini "
    ensures '\n' !in "yaptılar."
  {
  }

  /** The fixed strings of `Space5` (StoryPreviewScreen.tsx:183). */
  lemma Space5OneLine()
    ensures NoLineFeed(Space5Text())
  {
    Space5Pieces1();
    Space5Pieces2();
    Space5Pieces3();
  }

  lemma Space5Pieces1()
    ensures '\n' !in "Uzay "
    ensures '\n' !in "gemilerini "
    ensures '\n' !in "tamamladıklarında, "
    ensures '\n' !in " ve "
    ensures '\n' !in " içine "
    ensures '\n' !in "oturdular "
  {
  }

  lemma Space5Pieces2()
    ensures '\n' !in "ve "
    ensures '\n' !in "hayal "
    ensures '\n' !in "etmeye "
    ensures '\n' !in "başladılar. "
    ensures '\n' !in "\"Üç, "
    ensures '\n' !in "iki, "
  {
  }

  lemma Space5Pieces3()
    ensures '\n' !in "bir, "
    ensures '\n' !in "kalkış!\" "
    ensures '\n' !in "diye "
    ensures '\n' !in "bağırdılar "
    ensures '\n' !in "birlikte."
  {
  }

  /** The fixed strings of `Space6` (StoryPreviewScreen.tsx:186). */
  lemma Space6OneLine()
    ensures NoLineFeed(Space6Text())
  {
    Space6Pieces1();
    Space6Pieces2();
    Space6Pieces3();
  }

  lemma Space6Pieces1()
    ensures '\n' !in "Hayallerinde, "
    ensures '\n' !in "uzay "
    ensures '\n' !in "gemileri "
    ensures '\n' !in "yerden "
    ensures '\n' !in "yükseldi "
    ensures '\n' !in "ve "
  {
  }

  lemma Space6Pieces2()
    ensures '\n' !in "gökyüzüne "
    ensures '\n' !in "doğru "
    ensures '\n' !in "uçmaya "
    ensures '\n' !in "başladı. "
    ensures '\n' !in "Yıldızların "
    ensures '\n' !in "arasından "
  {
  }

  lemma Space6Pieces3()
    ensures '\n' !in "geçerken "
    ensures '\n' !in " ve "
    ensures '\n' !in " şaşkınlıkla "
    ensures '\n' !in "etraflarına "
    ensures '\n' !in "bakıyorlardı."
  {
  }

  /** The fixed strings of `Space7` (StoryPreviewScreen.tsx:188). */
  lemma Space7OneLine()
    ensures NoLineFeed(Space7Text())
  {
    Space7Pieces1();
    Space7Pieces2();
    Space7Pieces3();
    Space7Pieces4();
  }

  lemma Space7Pieces1()
    ensures '\n' !in "İlk "
    ensures '\n' !in "durakları "
    ensures '\n' !in "Ay "
    ensures '\n' !in "oldu. "
    ensures '\n' !in ", "
    ensures '\n' !in "\"Bak, "
  {
  }

  lemma Space7Pieces2()
    ensures '\n' !in ", "
    ensures '\n' !in "Ay'dayız!\" "
    ensures '\n' !in "dedi "
    ensures '\n' !in "sevinçle. "
    ensures '\n' !in "Ay'ın "
    ensures '\n' !in "yüzeyinde "
  {
  }

  lemma Space7Pieces3()
    ensures '\n' !in "zıplayarak "
    ensures '\n' !in "eğlendiler. "
    ensures '\n' !in ", "
    ensures '\n' !in "\"Burada "
    ensures '\n' !in "çok "
    ensures '\n' !in "hafifiz!\" "
  {
  }

  lemma Space7Pieces4()
    ensures '\n' !in "diye "
    ensures '\n' !in "güldü."
  {
  }

  /** The fixed strings of `Space8` (StoryPreviewScreen.tsx:190). */
  lemma Space8OneLine()
    ensures NoLineFeed(Space8Text())
  {
    Space8Pieces1();
    Space8Pieces2();
    Space8Pieces3();
  }

  lemma Space8Pieces1()
    ensures '\n' !in "Sonra "
    ensures '\n' !in "Mars'a "
    ensures '\n' !in "gittiler. "
    ensures '\n' !in "Kırmızı "
    ensures '\n' !in "gezegen "
    ensures '\n' !in "çok "
  {
  }

  lemma Space8Pieces2()
    ensures '\n' !in "etkileyiciydi. "
    ensures '\n' !in ", "
    ensures '\n' !in "\"Mars "
    ensures '\n' !in "toprağı "
    ensures '\n' !in "kırmızı, "
    ensures '\n' !in "tıpkı "
  {
  }

  lemma Space8Pieces3()
    ensures '\n' !in "kitaplarda "
    ensures '\n' !in "gördüğüm "
    ensures '\n' !in "gibi!\" "
    ensures '\n' !in "dedi "
    ensures '\n' !in "hayranlıkla."
  {
  }

  /** The fixed strings of `Space9` (StoryPreviewScreen.tsx:194). */
  lemma Space9OneLine()
    ensures NoLineFeed(Space9Text())
  {
    Space9Pieces1();
    Space9Pieces2();
    Space9Pieces3();
    Space9Pieces4();
  }

  lemma Space9Pieces1()
    ensures '\n' !in "Uzak "
    ensures '\n' !in "bir "
    ensures '\n' !in "gezegende, "
    ensures '\n' !in "mavi "
    ensures '\n' !in "renkli, "
    ensures '\n' !in "sevimli "
  {
  }

  lemma Space9Pieces2()
    ensures '\n' !in "uzaylılarla "
    ensures '\n' !in "karşılaştılar. "
    ensures '\n' !in "Uzaylılar "
    ensures '\n' !in "onları "
    ensures '\n' !in "nazikçe "
    ensures '\n' !in "karşıladı "
  {
  }

  lemma Space9Pieces3()
    ensures '\n' !in "ve "
    ensures '\n' !in "gezegenlerini "
    ensures '\n' !in "gezdirdi. "
    ensures '\n' !in ", "
    ensures '\n' !in "\"Evimizden "
    ensures '\n' !in "ne "
  {
  }

  lemma Space9Pieces4()
    ensures '\n' !in "kadar "
    ensures '\n' !in "farklı!\" "
    ensures '\n' !in "dedi "
    ensures '\n' !in "şaşkınlıkla."
  {
  }

  /** The fixed strings of `Space10` (StoryPreviewScreen.tsx:196). */
  lemma Space10OneLine()
    ensures NoLineFeed(Space10Text())
  {
    Space10Pieces1();
    Space10Pieces2();
    Space10Pieces3();
  }

  lemma Space10Pieces1()
    ensures '\n' !in "Uzaylılar "
    ensures '\n' !in " ve "
    ensures '\n' !in "'e "
    ensures '\n' !in "gezegendeki "
    ensures '\n' !in "problemlerini "
    ensures '\n' !in "anlattılar: "
  {
  }

  lemma Space10Pieces2()
    ensures '\n' !in "su "
    ensures '\n' !in "kaynakları "
    ensures '\n' !in "azalıyordu "
    ensures '\n' !in "ve "
    ensures '\n' !in "yardıma "
    ensures '\n' !in "ihtiyaçları "
  {
  }

  lemma Space10Pieces3()
    ensures '\n' !in "vardı. "
    ensures '\n' !in " düşündü, "
    ensures '\n' !in "\"Belki "
    ensures '\n' !in " ile "
    ensures '\n' !in "yardım "
    ensures '\n' !in "edebiliriz!\""
  {
  }

  /** The fixed strings of `Space11` (StoryPreviewScreen.tsx:198). */
  lemma Space11OneLine()
    ensures NoLineFeed(Space11Text())
  {
    Space11Pieces1();
    Space11Pieces2();
    Space11Pieces3();
    Space11Pieces4();
  }

  lemma Space11Pieces1()
    ensures '\n' !in ""
    ensures '\n' !in "'ı "
    ensures '\n' !in "kullanarak, "
    ensures '\n' !in " ve "
    ensures '\n' !in " uzaylılara "
    ensures '\n' !in "su "
  {
  }

  lemma Space11Pieces2()
    ensures '\n' !in "bulmalarına "
    ensures '\n' !in "yardım "
    ensures '\n' !in "ettiler. "
    ensures '\n' !in "Uzaylılar "
    ensures '\n' !in "çok "
    ensures '\n' !in "mutlu "
  {
  }

  lemma Space11Pieces3()
    ensures '\n' !in "oldular "
    ensures '\n' !in "ve "
    ensures '\n' !in "minnettarlıklarını "
    ensures '\n' !in "göstermek "
    ensures '\n' !in "için "
    ensures '\n' !in " ve "
  {
  }

  lemma Space11Pieces4()
    ensures '\n' !in "'e "
    ensures '\n' !in "parlayan "
    ensures '\n' !in "mavi "
    ensures '\n' !in "kristaller "
    ensures '\n' !in "hediye "
    ensures '\n' !in "ettiler."
  {
  }

  /** The fixed strings of `Space12` (StoryPreviewScreen.tsx:200). */
  lemma Space12OneLine()
    ensures NoLineFeed(Space12Text())
  {
    Space12Pieces1();
    Space12Pieces2();
    Space12Pieces3();
  }

  lemma Space12Pieces1()
    ensures '\n' !in "Eve "
    ensures '\n' !in "dönme "
    ensures '\n' !in "vakti "
    ensures '\n' !in "geldiğinde, "
    ensures '\n' !in " ve "
    ensures '\n' !in " yeni "
  {
  }

  lemma Space12Pieces2()
    ensures '\n' !in "arkadaşlarına "
    ensures '\n' !in "veda "
    ensures '\n' !in "ettiler. "
    ensures '\n' !in "\"Tekrar "
    ensures '\n' !in "geleceğiz!\" "
    ensures '\n' !in "diye "
  {
  }

  lemma Space12Pieces3()
    ensures '\n' !in "söz "
    ensures '\n' !in "verdiler."
  {
  }

  /** The fixed strings of `Space13` (StoryPreviewScreen.tsx:202). */
  lemma Space13OneLine()
    ensures NoLineFeed(Space13Text())
  {
    Space13Pieces1();
    Space13Pieces2();
    Space13Pieces3();
    Space13Pieces4();
    Space13Pieces5();
  }

  lemma Space13Pieces1()
    ensures '\n' !in "Eve "
    ensures '\n' !in "döndüklerinde, "
    ensures '\n' !in "'nin "
    ensures '\n' !in "annesi "
    ensures '\n' !in "onları "
    ensures '\n' !in "çağırdı: "
  {
  }

  lemma Space13Pieces2()
    ensures '\n' !in "\"Çocuklar, "
    ensures '\n' !in "yemek "
    ensures '\n' !in "hazır!\". "
    ensures '\n' !in " ve "
    ensures '\n' !in " koşarak "
    ensures '\n' !in "eve "
  {
  }

  lemma Space13Pieces3()
    ensures '\n' !in "girdiler, "
    ensures '\n' !in "ama "
    ensures '\n' !in "yaşadıkları "
    ensures '\n' !in "büyük "
    ensures '\n' !in "macera "
    ensures '\n' !in "hakkında "
  {
  }

  lemma Space13Pieces4()
    ensures '\n' !in "kimseye "
    ensures '\n' !in "bir "
    ensures '\n' !in "şey "
    ensures '\n' !in "söylemediler. "
    ensures '\n' !in "Bu, "
    ensures '\n' !in "sadece "
  {
  }

  lemma Space13Pieces5()
    ensures '\n' !in "onların "
    ensures '\n' !in "bildiği "
    ensures '\n' !in "özel "
    ensures '\n' !in "bir "
    ensures '\n' !in "sırdı."
  {
  }

  /** The fixed strings of `Space14` (StoryPreviewScreen.tsx:204). */
  lemma Space14OneLine()
    ensures NoLineFeed(Space14Text())
  {
    Space14Pieces1();
    Space14Pieces2();
    Space14Pieces3();
    Space14Pieces4();
    Space14Pieces5();
  }

  lemma Space14Pieces1()
    ensures '\n' !in "O "
    ensures '\n' !in "gece, "
    ensures '\n' !in " yatağına "
    ensures '\n' !in "uzandığında, "
    ensures '\n' !in "penceresinden "
    ensures '\n' !in "gökyüzüne "
  {
  }

  lemma Space14Pieces2()
    ensures '\n' !in "baktı "
    ensures '\n' !in "ve "
    ensures '\n' !in "uzaktaki "
    ensures '\n' !in "yıldızları "
    ensures '\n' !in "düşündü. "
    ensures '\n' !in "Bir "
  {
  }

  lemma Space14Pieces3()
    ensures '\n' !in "gün "
    ensures '\n' !in "gerçekten "
    ensures '\n' !in "uzaya "
    ensures '\n' !in "gideceğini "
    ensures '\n' !in "biliyordu. "
    ensures '\n' !in "Ama "
  {
  }

  lemma Space14Pieces4()
    ensures '\n' !in "şimdilik, "
    ensures '\n' !in "hayal "
    ensures '\n' !in "kurmak "
    ensures '\n' !in "ve "
    ensures '\n' !in " ile "
    ensures '\n' !in "paylaşmak "
  {
  }

  lemma Space14Pieces5()
    ensures '\n' !in "da "
    ensures '\n' !in "çok "
    ensures '\n' !in "güzeldi."
  {
  }

  /** The fixed strings of `Generic1` (StoryPreviewScreen.tsx:208). */
  lemma Generic1OneLine()
    ensures NoLineFeed(Generic1Text())
  {
    Generic1Pieces1();
    Generic1Pieces2();
    Generic1Pieces3();
  }

  lemma Generic1Pieces1()
    ensures '\n' !in ""
    ensures '\n' !in " bir "
    ensures '\n' !in "gün "
    ensures '\n' !in " ile "
    ensures '\n' !in "birlikte "
    ensures '\n' !in " hakkında "
  {
  }

  lemma Generic1Pieces2()
    ensures '\n' !in "bir "
    ensures '\n' !in "maceraya "
    ensures '\n' !in "atıldı. "
    ensures '\n' !in "Yanlarında "
    ensures '\n' !in " vardı "
    ensures '\n' !in "ve "
  {
  }

  lemma Generic1Pieces3()
    ensures '\n' !in "bu "
    ensures '\n' !in "onlara "
    ensures '\n' !in "çok "
    ensures '\n' !in "yardımcı "
    ensures '\n' !in "oldu."
  {
  }

  /** The fixed strings of `Generic2` (StoryPreviewScreen.tsx:210). */
  lemma Generic2OneLine()
    ensures NoLineFeed(Generic2Text())
  {
    Generic2Pieces1();
    Generic2Pieces2();
    Generic2Pieces3();
  }

  lemma Generic2Pieces1()
    ensures '\n' !in "Macera "
    ensures '\n' !in "sırasında "
    ensures '\n' !in " ve "
    ensures '\n' !in " "
    ensures '\n' !in "'nin "
    ensures '\n' !in "ne "
  {
  }

  lemma Generic2Pieces2()
    ensures '\n' !in "kadar "
    ensures '\n' !in "önemli "
    ensures '\n' !in "olduğunu "
    ensures '\n' !in "öğrendiler. "
    ensures '\n' !in ", "
    ensures '\n' !in "\""
  {
  }

  lemma Generic2Pieces3()
    ensures '\n' !in ", "
    ensures '\n' !in " değerini "
    ensures '\n' !in "anladım "
    ensures '\n' !in "artık\" "
    ensures '\n' !in "dedi."
  {
  }

  /** The fixed strings of `Generic3` (StoryPreviewScreen.tsx:212). */
  lemma Generic3OneLine()
    ensures NoLineFeed(Generic3Text())
  {
    Generic3Pieces1();
    Generic3Pieces2();
  }

  lemma Generic3Pieces1()
    ensures '\n' !in ""
    ensures '\n' !in ", "
    ensures '\n' !in "\"Evet "
    ensures '\n' !in ", "
    ensures '\n' !in " hayatta "
    ensures '\n' !in "en "
  {
  }

  lemma Generic3Pieces2()
    ensures '\n' !in "önemli "
    ensures '\n' !in "şeylerden "
    ensures '\n' !in "biri!\" "
    ensures '\n' !in "diye "
    ensures '\n' !in "cevap "
    ensures '\n' !in "verdi."
  {
  }

  /** The fixed strings of `Generic4` (StoryPreviewScreen.tsx:215). */
  lemma Generic4OneLine()
    ensures NoLineFeed(Generic4Text())
  {
    Generic4Pieces1();
    Generic4Pieces2();
  }

  lemma Generic4Pieces1()
    ensures '\n' !in "Bu "
    ensures '\n' !in "macerada "
    ensures '\n' !in " ve "
    ensures '\n' !in " birçok "
    ensures '\n' !in "zorlukla "
    ensures '\n' !in "karşılaştılar "
  {
  }

  lemma Generic4Pieces2()
    ensures '\n' !in "ama "
    ensures '\n' !in "birlikte "
    ensures '\n' !in "çalışarak "
    ensures '\n' !in "hepsinin "
    ensures '\n' !in "üstesinden "
    ensures '\n' !in "geldiler."
  {
  }

  /** The fixed strings of `Generic5` (StoryPreviewScreen.tsx:217). */
  lemma Generic5OneLine()
    ensures NoLineFeed(Generic5Text())
  {
    Generic5Pieces1();
    Generic5Pieces2();
    Generic5Pieces3();
  }

  lemma Generic5Pieces1()
    ensures '\n' !in "Eve "
    ensures '\n' !in "döndüklerinde, "
    ensures '\n' !in "'nin "
    ensures '\n' !in "ailesi "
    ensures '\n' !in "onun "
    ensures '\n' !in "nasıl "
  {
  }

  lemma Generic5Pieces2()
    ensures '\n' !in "büyüdüğünü "
    ensures '\n' !in "ve "
    ensures '\n' !in " değerini "
    ensures '\n' !in "nasıl "
    ensures '\n' !in "öğrendiğini "
    ensures '\n' !in "görmekten "
  {
  }

  lemma Generic5Pieces3()
    ensures '\n' !in "çok "
    ensures '\n' !in "mutlu "
    ensures '\n' !in "oldu."
  {
  }

  /** The fixed strings of `Generic6` (StoryPreviewScreen.tsx:221). */
  lemma Generic6OneLine()
    ensures NoLineFeed(Generic6Text())
  {
    Generic6Pieces1();
    Generic6Pieces2();
    Generic6Pieces3();
  }

  lemma Generic6Pieces1()
    ensures '\n' !in "Bu "
    ensures '\n' !in "macera "
    ensures '\n' !in "'nin "
    ensures '\n' !in "hayatındaki "
    ensures '\n' !in "en "
    ensures '\n' !in "önemli "
  {
  }

  lemma Generic6Pieces2()
    ensures '\n' !in "deneyimlerden "
    ensures '\n' !in "biriydi "
    ensures '\n' !in "ve "
    ensures '\n' !in "onu "
    ensures '\n' !in "hayatı "
    ensures '\n' !in "boyunca "
  {
  }

  lemma Generic6Pieces3()
    ensures '\n' !in "etkileyecekti."
  {
  }

  /** The fixed strings of `Generic7` (StoryPreviewScreen.tsx:223). */
  lemma Generic7OneLine()
    ensures NoLineFeed(Generic7Text())
  {
    Generic7Pieces1();
    Generic7Pieces2();
    Generic7Pieces3();
    Generic7Pieces4();
  }

  lemma Generic7Pieces1()
    ensures '\n' !in ""
    ensures '\n' !in " ve "
    ensures '\n' !in " sonraki "
    ensures '\n' !in "günlerde "
    ensures '\n' !in "de "
    ensures '\n' !in "buluşmaya "
  {
  }

  lemma Generic7Pieces2()
    ensures '\n' !in "ve "
    ensures '\n' !in "yeni "
    ensures '\n' !in "maceralar "
    ensures '\n' !in "yaşamaya "
    ensures '\n' !in "devam "
    ensures '\n' !in "ettiler, "
  {
  }

  lemma Generic7Pieces3()
    ensures '\n' !in "her "
    ensures '\n' !in "seferinde "
    ensures '\n' !in "yeni "
    ensures '\n' !in "değerler "
    ensures '\n' !in "öğrenerek "
    ensures '\n' !in "ve "
  {
  }

  lemma Generic7Pieces4()
    ensures '\n' !in "dostluklarını "
    ensures '\n' !in "güçlendirerek."
  {
  }
}
