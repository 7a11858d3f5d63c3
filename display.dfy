/** Result display: the sentinel gate, the image table and the bilingual
    description table, each with its "Default" fallback, and the one fertilizer whose
    description is filed under a different key. */
module Display {
  import opened Frame
  import opened Recommender

  /** Label to image path. The 10-26-26 fertilizer is keyed here by the
      date-shaped fertilizer "10/26/2026"; the description table keys it "10-26-26". */
  const ImageTable: map<string, string> := map[
    "Urea" := "images/urea.jpg",
    "DAP" := "images/dap.jpg",
    "Potash" := "images/potash.jpg",
    "10/26/2026" := "images/10-26-26.jpg",
    "17-17-17" := "images/17-17-17.jpg",
    "20-20" := "images/20-20.jpg",
    "28-28" := "images/28-28.jpg",
    "14-35-14" := "images/14-35-14.jpg",
    "Default" := "images/default.jpg"
  ]

  /** Label to description, one text per language code. */
  const DescriptionTable: map<string, map<string, string>> := map[
    "Urea" := map["en" := UreaEnglish, "hi" := UreaHindi],
    "DAP" := map["en" := DapEnglish, "hi" := DapHindi],
    "Potash" := map["en" := PotashEnglish, "hi" := PotashHindi],
    "10-26-26" := map["en" := Npk102626English, "hi" := Npk102626Hindi],
    "17-17-17" := map["en" := Npk171717English, "hi" := Npk171717Hindi],
    "20-20" := map["en" := Np2020English, "hi" := Np2020Hindi],
    "28-28" := map["en" := Np2828English, "hi" := Np2828Hindi],
    "14-35-14" := map["en" := Npk143514English, "hi" := Npk143514Hindi],
    "Default" := map["en" := DefaultEnglish, "hi" := DefaultHindi]
  ]

  /** The description texts, English and Hindi, one pair per table entry. */
  const UreaEnglish: string := "Urea is a nitrogen-rich fertilizer (46-0-0) primarily used to provide nitrogen to plants, promoting leafy green growth. Apply as per soil test recommendations."
  const UreaHindi: string := "यूरिया एक नाइट्रोजन युक्त उर्वरक (46-0-0) है जिसका उपयोग मुख्य रूप से पौधों को नाइट्रोजन प्रदान करने के लिए किया जाता है, जिससे पत्तेदार हरी वृद्धि को बढ़ावा मिलता है। मिट्टी परीक्षण की सिफारिशों के अनुसार प्रयोग करें।"

  const DapEnglish: string := "Diammonium Phosphate (DAP) (18-46-0) is a source of both nitrogen and phosphorus. It's excellent for root development and early plant growth."
  const DapHindi: string := "डाईअमोनियम फॉस्फेट (डीएपी) (18-46-0) नाइट्रोजन और फास्फोरस दोनों का स्रोत है। यह जड़ विकास और पौधे की शुरुआती वृद्धि के लिए उत्कृष्ट है।"

  const PotashEnglish: string := "Muriate of Potash (MOP) (0-0-60) provides potassium, essential for overall plant health, disease resistance, and fruit/flower development."
  const PotashHindi: string := "म्यूरेट ऑफ पोटाश (एमओपी) (0-0-60) पोटेशियम प्रदान करता है, जो पौधे के समग्र स्वास्थ्य, रोग प्रतिरोधक क्षमता और फल/फूल विकास के लिए आवश्यक है।"

  const Npk102626English: string := "A complex fertilizer providing Nitrogen (10%), Phosphorus (26%), and Potassium (26%). Suitable for crops requiring balanced nutrients, especially P and K."
  const Npk102626Hindi: string := "एक जटिल उर्वरक जो नाइट्रोजन (10%), फास्फोरस (26%), और पोटेशियम (26%) प्रदान करता है। संतुलित पोषक तत्वों, विशेष रूप से पी और के की आवश्यकता वाली फसलों के लिए उपयुक्त है।"

  const Npk171717English: string := "A balanced NPK fertilizer providing equal parts Nitrogen, Phosphorus, and Potassium. Good for general purpose use during vegetative growth."
  const Npk171717Hindi: string := "एक संतुलित एनपीके उर्वरक जो नाइट्रोजन, फास्फोरस और पोटेशियम के बराबर हिस्से प्रदान करता है। वानस्पतिक विकास के दौरान सामान्य प्रयोजन के उपयोग के लिए अच्छा है।"

  const Np2020English: string := "Often refers to 20-20-0 (like Ammonium Phosphate Sulphate) or 20-20-20. Provides Nitrogen and Phosphorus (and Potassium if 20-20-20). Good for initial growth stages."
  const Np2020Hindi: string := "अक्सर 20-20-0 (जैसे अमोनियम फॉस्फेट सल्फेट) या 20-20-20 को संदर्भित करता है। नाइट्रोजन और फास्फोरस (और पोटेशियम यदि 20-20-20) प्रदान करता है। प्रारंभिक विकास चरणों के लिए अच्छा है।"

  const Np2828English: string := "A fertilizer with high Nitrogen (28%) and Phosphorus (28%). Promotes vigorous vegetative growth and root development."
  const Np2828Hindi: string := "उच्च नाइट्रोजन (28%) और फास्फोरस (28%) वाला उर्वरक। जोरदार वानस्पतिक विकास और जड़ विकास को बढ़ावा देता है।"

  const Npk143514English: string := "Provides Nitrogen (14%), high Phosphorus (35%), and Potassium (14%). Excellent for promoting root growth, flowering, and fruiting."
  const Npk143514Hindi: string := "नाइट्रोजन (14%), उच्च फास्फोरस (35%), और पोटेशियम (14%) प्रदान करता है। जड़ वृद्धि, फूल और फलन को बढ़ावा देने के लिए उत्कृष्ट है।"

  const DefaultEnglish: string := "No specific description available."
  const DefaultHindi: string := "कोई विशिष्ट विवरण उपलब्ध नहीं है।"

  /** The texts shown when an entry lacks a language. */
  const EnglishFallback: string := "Not available."
  const HindiFallback: string := "उपलब्ध नहीं है।"

  /** Image resolution is total: the label's own path, else the Default path. */
  function ImagePath(fertilizer: string): (path: string)
    ensures fertilizer in ImageTable ==> path == ImageTable[fertilizer]
    ensures fertilizer !in ImageTable ==> path == "images/default.jpg"
  {
    if fertilizer in ImageTable then ImageTable[fertilizer] else ImageTable["Default"]
  }

  /** The description-table key for a label: only the date-shaped label is renamed. */
  function DescriptionKey(fertilizer: string): (key: string)
    ensures fertilizer == "10/26/2026" ==> key == "10-26-26"
    ensures fertilizer != "10/26/2026" ==> key == fertilizer
  {
    if fertilizer == "10/26/2026" then "10-26-26" else fertilizer
  }

  /** The description entry for a label: the entry under its key, else Default.
      Whichever entry is chosen has both an English and a Hindi text. */
  function Description(fertilizer: string): (entry: map<string, string>)
    ensures DescriptionKey(fertilizer) in DescriptionTable ==> entry == DescriptionTable[DescriptionKey(fertilizer)]
    ensures DescriptionKey(fertilizer) !in DescriptionTable ==> entry == DescriptionTable["Default"]
    ensures "en" in entry && "hi" in entry
  {
    EntriesComplete();
    var key := DescriptionKey(fertilizer);
    if key in DescriptionTable then DescriptionTable[key] else DescriptionTable["Default"]
  }

  /** `entry.get('en', ...)`: the entry's English text, else the fallback. */
  function English(entry: map<string, string>): (text: string)
    ensures "en" in entry ==> text == entry["en"]
    ensures "en" !in entry ==> text == EnglishFallback
  {
    if "en" in entry then entry["en"] else EnglishFallback
  }

  /** `entry.get('hi', ...)`: the entry's Hindi text, else the fallback. */
  function Hindi(entry: map<string, string>): (text: string)
    ensures "hi" in entry ==> text == entry["hi"]
    ensures "hi" !in entry ==> text == HindiFallback
  {
    if "hi" in entry then entry["hi"] else HindiFallback
  }

  /** Both tables have a Default entry, and every description entry, Default
      included, has exactly an English and a Hindi text. */
  lemma EntriesComplete()
    ensures "Default" in ImageTable && "Default" in DescriptionTable
    ensures forall key :: key in DescriptionTable ==> DescriptionTable[key].Keys == {"en", "hi"}
  {
  }

  /** What the result area shows for one answer of the recommendation function. */
  datatype Outcome =
    | Warning
    | Shown(fertilizer: string, image: string, english: string, hindi: string)

  /** The display only happens for an answer that is no sentinel; it shows the
      label's image and the texts of its description entry, never a per-language
      fallback text. */
  function Resolve(prediction: string): (d: Outcome)
    ensures d.Warning? <==> prediction in Sentinels
    ensures d.Shown? ==> d.fertilizer == prediction && d.image == ImagePath(prediction)
    ensures d.Shown? ==> d.english == Description(prediction)["en"] && d.hindi == Description(prediction)["hi"]
  {
    if prediction in Sentinels then Warning
    else
      var entry := Description(prediction);
      Shown(prediction, ImagePath(prediction), English(entry), Hindi(entry))
  }

  /** The normalisation in one step: the date-shaped label gets its own image and
      the 10-26-26 description, not the Default one. */
  lemma DateLabelResolves()
    ensures Resolve("10/26/2026") ==
      Shown("10/26/2026", "images/10-26-26.jpg",
            DescriptionTable["10-26-26"]["en"], DescriptionTable["10-26-26"]["hi"])
    ensures DescriptionTable["10-26-26"] != DescriptionTable["Default"]
  {
  }

  /** The two tables key the 10-26-26 fertilizer differently. */
  lemma TableKeysDiffer()
    ensures "10/26/2026" in ImageTable && "10/26/2026" !in DescriptionTable
    ensures "10-26-26" in DescriptionTable && "10-26-26" !in ImageTable
  {
  }

  /** Because of the differing keys, the hyphenated label finds its description
      but only the Default image. */
  lemma HyphenLabelAsymmetry()
    ensures Resolve("10-26-26") ==
      Shown("10-26-26", "images/default.jpg",
            DescriptionTable["10-26-26"]["en"], DescriptionTable["10-26-26"]["hi"])
  {
  }

  /** The tables agree up to normalisation: a label with an image of its own has a
      description of its own, and the reverse holds for every key but "10-26-26". */
  lemma TablesAgree()
    ensures forall fertilizer :: fertilizer in ImageTable ==> DescriptionKey(fertilizer) in DescriptionTable
    ensures forall key :: key in DescriptionTable && key != "10-26-26" ==> key in ImageTable
  {
  }

  /** A label neither table knows (and that is not renamed) shows the Default
      image and the Default texts. */
  lemma UnknownLabelResolves(fertilizer: string)
    requires fertilizer !in Sentinels && fertilizer !in ImageTable && fertilizer !in DescriptionTable
    ensures Resolve(fertilizer) ==
      Shown(fertilizer, "images/default.jpg",
            DefaultEnglish, DefaultHindi)
  {
  }
}
