/**
 * The fixed text of the paragraph templates as the source writes it
 * (StoryPreviewScreen.tsx:146-225): for each template, the strings that
 * come before, between and after its slots (`Paragraphs.Slots`), each
 * without the blank line `\n\n` that ends every paragraph.
 *
 * Each string is written word by word, as a concatenation of short
 * literals, so that the verifier can check its characters a few words at
 * a time (module `SourceLines`).
 */
module SourceText {
  import opened Paragraphs

  /** The fixed strings of template `id`. */
  function SourceStrings(id: TemplateId): seq<string> {
    match id
    case Adventure1 => Adventure1Text()
    case Adventure2 => Adventure2Text()
    case Adventure3 => Adventure3Text()
    case Adventure4 => Adventure4Text()
    case Adventure5 => Adventure5Text()
    case Adventure6 => Adventure6Text()
    case Adventure7 => Adventure7Text()
    case Adventure8 => Adventure8Text()
    case Adventure9 => Adventure9Text()
    case Adventure10 => Adventure10Text()
    case Adventure11 => Adventure11Text()
    case Adventure12 => Adventure12Text()
    case Space1 => Space1Text()
    case Space2 => Space2Text()
    case Space3 => Space3Text()
    case Space4 => Space4Text()
    case Space5 => Space5Text()
    case Space6 => Space6Text()
    case Space7 => Space7Text()
    case Space8 => Space8Text()
    case Space9 => Space9Text()
    case Space10 => Space10Text()
    case Space11 => Space11Text()
    case Space12 => Space12Text()
    case Space13 => Space13Text()
    case Space14 => Space14Text()
    case Generic1 => Generic1Text()
    case Generic2 => Generic2Text()
    case Generic3 => Generic3Text()
    case Generic4 => Generic4Text()
    case Generic5 => Generic5Text()
    case Generic6 => Generic6Text()
    case Generic7 => Generic7Text()
  }

  // StoryPreviewScreen.tsx:147
  function Adventure1Text(): seq<string> {
    [
      "",
      " iki " + "yaşındaydı " + "ve " + "her " + "gün " + "yeni " + "şeyler " +
        "keşfetmeyi " + "çok " + "seviyordu. " + "Bir " + "sabah ",
      ", " + "en " + "sevdiği " + "oyuncak " + "ayısıyla " + "oynamaya " + "karar " +
        "verdi. " + "\"Ayıcık, " + "hadi " + "bahçede " + "oynayalım!\" " + "dedi."
    ]
  }

  // StoryPreviewScreen.tsx:149
  function Adventure2Text(): seq<string> {
    [
      "Bahçede ",
      "'nin " + "en " + "iyi " + "arkadaşı ",
      ", " + "çiçekleri " + "suluyordu. ",
      " ",
      "'e " + "el " + "salladı, " + "\"",
      ", " + "benimle " + "oynamak " + "ister " + "misin?\" ",
      " gülümsedi, " + "\"Evet, ",
      "! " + "Hangi " + "oyunu " + "oynayalım?\""
    ]
  }

  // StoryPreviewScreen.tsx:151
  function Adventure3Text(): seq<string> {
    [
      "",
      " heyecanla, " + "\"Kovalamaca!\" " + "dedi. ",
      ", " + "\"Tamam! " + "Ama " + "önce " + "bahçedeki " + "çiçeklere " + "dikkat " +
        "edelim!\" ",
      ", " + "\"Tamam!\" " + "diyerek " + "koşmaya " + "başladı."
    ]
  }

  // StoryPreviewScreen.tsx:153
  function Adventure4Text(): seq<string> {
    [
      "Koşarken ",
      ", " + "birden " + "yere " + "düştü. " + "\"Ayy!\" " + "diye " + "bağırdı. ",
      " hemen " + "yanına " + "geldi, " + "\"",
      ", " + "iyi " + "misin?\" ",
      " gülerek, " + "\"Evet! " + "Ama " + "biraz " + "canım " + "acıdı.\" ",
      ", " + "\"Yavaş " + "oynamamız " + "gerekiyor, " + "hadi " + "birlikte " +
        "kalkalım!\" " + "dedi."
    ]
  }

  // StoryPreviewScreen.tsx:155
  function Adventure5Text(): seq<string> {
    [
      "",
      " ",
      "'in " + "elini " + "tuttu " + "ve " + "birlikte " + "ayakta " + "durdular. ",
      ", " + "\"Hadi, " + "yavaşça " + "oynayalım!\" " + "dedi. ",
      ", " + "\"Evet, ",
      "!\" " + "diyerek " + "kabul " + "etti."
    ]
  }

  // StoryPreviewScreen.tsx:158
  function Adventure6Text(): seq<string> {
    [
      "Sonra ",
      " ve ",
      " el " + "ele " + "tutuşarak " + "bahçede " + "dans " + "etmeye " + "başladılar. " +
        "O " + "sırada " + "Fatma " + "teyze, " + "bahçenin " + "yanından " + "geçiyordu. " +
        "Gülerek, " + "\"Ne " + "güzel " + "dans " + "ediyorsunuz!\" " + "dedi. ",
      ", " + "\"Teşekkür " + "ederiz, " + "Fatma " + "teyze!\" " + "dedi."
    ]
  }

  // StoryPreviewScreen.tsx:160
  function Adventure7Text(): seq<string> {
    [
      "O " + "gün ",
      ", " + "en " + "önemli " + "dersi " + "öğrendi: " + "Oynamak " + "çok " + "eğlenceli " +
        "ama " + "dikkatli " + "olmalıyız! ",
      " ile " + "birlikte " + "yavaşça " + "oynayarak " + "hem " + "eğlendi " + "hem " +
        "de " + "güvenli " + "bir " + "şekilde " + "bahçede " + "vakit " + "geçirdi. ",
      ", " + "\"",
      ", " + "birlikte " + "oynamak " + "çok " + "güzel!\" " + "dedi. ",
      ", " + "\"Evet, ",
      "! " + "Birlikte " + "eğlenmek " + "için " + "dikkatli " + "olmalıyız!\""
    ]
  }

  // StoryPreviewScreen.tsx:164
  function Adventure8Text(): seq<string> {
    [
      "Akşam " + "olduğunda, ",
      "'nin " + "annesi " + "onları " + "eve " + "çağırdı. " + "\"Çocuklar, " + "yemek " +
        "hazır!\" ",
      " ve ",
      " koşarak " + "eve " + "gittiler. ",
      "'nin " + "annesi, " + "\"Bugün " + "ne " + "yaptınız?\" " + "diye " + "sordu."
    ]
  }

  // StoryPreviewScreen.tsx:166
  function Adventure9Text(): seq<string> {
    [
      "",
      " heyecanla " + "anlatmaya " + "başladı: " + "\"Anne, " + "biz ",
      " ile " + "bahçede " + "oynadık. " + "Önce " + "düştüm " + "ama " + "sonra ",
      " bana " + "yardım " + "etti. " + "Sonra " + "dans " + "ettik " + "ve " + "Fatma " +
        "teyze " + "bizi " + "gördü!\""
    ]
  }

  // StoryPreviewScreen.tsx:168
  function Adventure10Text(): seq<string> {
    [
      "Annesi " + "gülümsedi " + "ve " + "\"Harika! ",
      " çok " + "iyi " + "bir " + "arkadaş. " + "Birbirinize " + "yardım " + "etmeniz " +
        "çok " + "güzel,\" " + "dedi. ",
      " ve ",
      " birbirlerine " + "bakıp " + "gülümsediler."
    ]
  }

  // StoryPreviewScreen.tsx:170
  function Adventure11Text(): seq<string> {
    [
      "Yemekten " + "sonra, ",
      " ve ",
      " ",
      " ile " + "oynamaya " + "başladılar. ",
      " sayesinde " + "hayal " + "ettikleri " + "her " + "şeyi " +
        "gerçekleştirebiliyorlardı. ",
      ", " + "\"",
      ", " + "bu ",
      " ile " + "neler " + "yapabileceğimizi " + "hayal " + "et!\" " + "dedi."
    ]
  }

  // StoryPreviewScreen.tsx:172
  function Adventure12Text(): seq<string> {
    [
      "Ve " + "böylece ",
      " ve ",
      " yeni " + "maceralarına ",
      " ile " + "devam " + "ettiler. " + "Her " + "zaman " + "birbirlerine " + "yardım " +
        "ederek " + "ve " + "dikkatli " + "olarak " + "oynamayı " + "unutmadılar."
    ]
  }

  // StoryPreviewScreen.tsx:175
  function Space1Text(): seq<string> {
    [
      "",
      " yıldızları " + "ve " + "gezegenleri " + "çok " + "seviyordu. " + "Her " + "gece " +
        "yatmadan " + "önce " + "pencereden " + "gökyüzüne " + "bakardı. " + "Bir " +
        "gece, " + "parlak " + "bir " + "yıldız ",
      "'nin " + "dikkatini " + "çekti."
    ]
  }

  // StoryPreviewScreen.tsx:177
  function Space2Text(): seq<string> {
    [
      "\"Anne, " + "bak " + "ne " + "kadar " + "parlak " + "bir " + "yıldız!\" " + "diye " +
        "seslendi ",
      ". " + "Annesi " + "yanına " + "geldi " + "ve " + "\"Evet, " + "çok " + "güzel. " +
        "Belki " + "de " + "bir " + "gün " + "uzaya " + "gidebilirsin\" " + "dedi " +
        "gülümseyerek."
    ]
  }

  // StoryPreviewScreen.tsx:179
  function Space3Text(): seq<string> {
    [
      "Ertesi " + "gün ",
      " ve " + "arkadaşı ",
      " bahçede " + "buluştular. ",
      ", " + "\"Dün " + "gece " + "çok " + "parlak " + "bir " + "yıldız " + "gördüm, ",
      ". " + "Bir " + "gün " + "uzaya " + "gitmek " + "istiyorum\" " + "dedi " + "heyecanla."
    ]
  }

  // StoryPreviewScreen.tsx:181
  function Space4Text(): seq<string> {
    [
      "",
      " da " + "heyecanlandı, " + "\"Ben " + "de " + "gelmek " + "isterim! " + "Bir " +
        "uzay " + "gemisi " + "yapalım!\". " + "Böylece ",
      " ve ",
      " kartonları, " + "kutuları " + "ve ",
      "'ı " + "kullanarak " + "kendi " + "uzay " + "gemilerini " + "yaptılar."
    ]
  }

  // StoryPreviewScreen.tsx:183
  function Space5Text(): seq<string> {
    [
      "Uzay " + "gemilerini " + "tamamladıklarında, ",
      " ve ",
      " içine " + "oturdular " + "ve " + "hayal " + "etmeye " + "başladılar. " + "\"Üç, " +
        "iki, " + "bir, " + "kalkış!\" " + "diye " + "bağırdılar " + "birlikte."
    ]
  }

  // StoryPreviewScreen.tsx:186
  function Space6Text(): seq<string> {
    [
      "Hayallerinde, " + "uzay " + "gemileri " + "yerden " + "yükseldi " + "ve " +
        "gökyüzüne " + "doğru " + "uçmaya " + "başladı. " + "Yıldızların " + "arasından " +
        "geçerken ",
      " ve ",
      " şaşkınlıkla " + "etraflarına " + "bakıyorlardı."
    ]
  }

  // StoryPreviewScreen.tsx:188
  function Space7Text(): seq<string> {
    [
      "İlk " + "durakları " + "Ay " + "oldu. ",
      ", " + "\"Bak, ",
      ", " + "Ay'dayız!\" " + "dedi " + "sevinçle. " + "Ay'ın " + "yüzeyinde " +
        "zıplayarak " + "eğlendiler. ",
      ", " + "\"Burada " + "çok " + "hafifiz!\" " + "diye " + "güldü."
    ]
  }

  // StoryPreviewScreen.tsx:190
  function Space8Text(): seq<string> {
    [
      "Sonra " + "Mars'a " + "gittiler. " + "Kırmızı " + "gezegen " + "çok " +
        "etkileyiciydi. ",
      ", " + "\"Mars " + "toprağı " + "kırmızı, " + "tıpkı " + "kitaplarda " + "gördüğüm " +
        "gibi!\" " + "dedi " + "hayranlıkla."
    ]
  }

  // StoryPreviewScreen.tsx:194
  function Space9Text(): seq<string> {
    [
      "Uzak " + "bir " + "gezegende, " + "mavi " + "renkli, " + "sevimli " + "uzaylılarla " +
        "karşılaştılar. " + "Uzaylılar " + "onları " + "nazikçe " + "karşıladı " + "ve " +
        "gezegenlerini " + "gezdirdi. ",
      ", " + "\"Evimizden " + "ne " + "kadar " + "farklı!\" " + "dedi " + "şaşkınlıkla."
    ]
  }

  // StoryPreviewScreen.tsx:196
  function Space10Text(): seq<string> {
    [
      "Uzaylılar ",
      " ve ",
      "'e " + "gezegendeki " + "problemlerini " + "anlattılar: " + "su " + "kaynakları " +
        "azalıyordu " + "ve " + "yardıma " + "ihtiyaçları " + "vardı. ",
      " düşündü, " + "\"Belki ",
      " ile " + "yardım " + "edebiliriz!\""
    ]
  }

  // StoryPreviewScreen.tsx:198
  function Space11Text(): seq<string> {
    [
      "",
      "'ı " + "kullanarak, ",
      " ve ",
      " uzaylılara " + "su " + "bulmalarına " + "yardım " + "ettiler. " + "Uzaylılar " +
        "çok " + "mutlu " + "oldular " + "ve " + "minnettarlıklarını " + "göstermek " +
        "için ",
      " ve ",
      "'e " + "parlayan " + "mavi " + "kristaller " + "hediye " + "ettiler."
    ]
  }

  // StoryPreviewScreen.tsx:200
  function Space12Text(): seq<string> {
    [
      "Eve " + "dönme " + "vakti " + "geldiğinde, ",
      " ve ",
      " yeni " + "arkadaşlarına " + "veda " + "ettiler. " + "\"Tekrar " + "geleceğiz!\" " +
        "diye " + "söz " + "verdiler."
    ]
  }

  // StoryPreviewScreen.tsx:202
  function Space13Text(): seq<string> {
    [
      "Eve " + "döndüklerinde, ",
      "'nin " + "annesi " + "onları " + "çağırdı: " + "\"Çocuklar, " + "yemek " + "hazır!\". ",
      " ve ",
      " koşarak " + "eve " + "girdiler, " + "ama " + "yaşadıkları " + "büyük " + "macera " +
        "hakkında " + "kimseye " + "bir " + "şey " + "söylemediler. " + "Bu, " + "sadece " +
        "onların " + "bildiği " + "özel " + "bir " + "sırdı."
    ]
  }

  // StoryPreviewScreen.tsx:204
  function Space14Text(): seq<string> {
    [
      "O " + "gece, ",
      " yatağına " + "uzandığında, " + "penceresinden " + "gökyüzüne " + "baktı " + "ve " +
        "uzaktaki " + "yıldızları " + "düşündü. " + "Bir " + "gün " + "gerçekten " +
        "uzaya " + "gideceğini " + "biliyordu. " + "Ama " + "şimdilik, " + "hayal " +
        "kurmak " + "ve ",
      " ile " + "paylaşmak " + "da " + "çok " + "güzeldi."
    ]
  }

  // StoryPreviewScreen.tsx:208
  function Generic1Text(): seq<string> {
    [
      "",
      " bir " + "gün ",
      " ile " + "birlikte ",
      " hakkında " + "bir " + "maceraya " + "atıldı. " + "Yanlarında ",
      " vardı " + "ve " + "bu " + "onlara " + "çok " + "yardımcı " + "oldu."
    ]
  }

  // StoryPreviewScreen.tsx:210
  function Generic2Text(): seq<string> {
    [
      "Macera " + "sırasında ",
      " ve ",
      " ",
      "'nin " + "ne " + "kadar " + "önemli " + "olduğunu " + "öğrendiler. ",
      ", " + "\"",
      ", ",
      " değerini " + "anladım " + "artık\" " + "dedi."
    ]
  }

  // StoryPreviewScreen.tsx:212
  function Generic3Text(): seq<string> {
    [
      "",
      ", " + "\"Evet ",
      ", ",
      " hayatta " + "en " + "önemli " + "şeylerden " + "biri!\" " + "diye " + "cevap " +
        "verdi."
    ]
  }

  // StoryPreviewScreen.tsx:215
  function Generic4Text(): seq<string> {
    [
      "Bu " + "macerada ",
      " ve ",
      " birçok " + "zorlukla " + "karşılaştılar " + "ama " + "birlikte " + "çalışarak " +
        "hepsinin " + "üstesinden " + "geldiler."
    ]
  }

  // StoryPreviewScreen.tsx:217
  function Generic5Text(): seq<string> {
    [
      "Eve " + "döndüklerinde, ",
      "'nin " + "ailesi " + "onun " + "nasıl " + "büyüdüğünü " + "ve ",
      " değerini " + "nasıl " + "öğrendiğini " + "görmekten " + "çok " + "mutlu " + "oldu."
    ]
  }

  // StoryPreviewScreen.tsx:221
  function Generic6Text(): seq<string> {
    [
      "Bu " + "macera ",
      "'nin " + "hayatındaki " + "en " + "önemli " + "deneyimlerden " + "biriydi " + "ve " +
        "onu " + "hayatı " + "boyunca " + "etkileyecekti."
    ]
  }

  // StoryPreviewScreen.tsx:223
  function Generic7Text(): seq<string> {
    [
      "",
      " ve ",
      " sonraki " + "günlerde " + "de " + "buluşmaya " + "ve " + "yeni " + "maceralar " +
        "yaşamaya " + "devam " + "ettiler, " + "her " + "seferinde " + "yeni " + "değerler " +
        "öğrenerek " + "ve " + "dostluklarını " + "güçlendirerek."
    ]
  }
}
