/**
 * What `filterSchemes` does on the catalogue `loadSchemes` installs: the `health` tab, and
 * the search for "kisan" in each display language. The letter-level facts at the end look
 * at two literal texts each and nothing else, which keeps the solver's work small.
 */
module SchemeCatalogue {
  import opened Sequences
  import opened Schemes
  import opened Locale

  /** The `health` tab with an empty search lists Ayushman Bharat alone. */
  lemma HealthTab(lang: Language)
    ensures FilterSchemes(SampleSchemes(), lang, "health", "") == [AyushmanBharat]
  {
    FilterOfFive(SampleSchemes(), InCategory("health"));
  }

  /**
   * Searching "kisan" on the `all` tab finds PM Kisan Samman Nidhi alone in English, and
   * nothing in Hindi: the search reads the name and description in the display language,
   * and the Hindi texts do not spell "kisan" in Latin letters.
   */
  lemma KisanSearch(lang: Language)
    ensures FilterSchemes(SampleSchemes(), lang, AllCategories, "kisan") == if lang == En then [PmKisan] else []
  {
    var p := Matching(lang, "kisan");
    CatalogueAvoidsK(lang);
    NoKisanMatch(Housing, lang);
    NoKisanMatch(AyushmanBharat, lang);
    NoKisanMatch(BetiBachao, lang);
    NoKisanMatch(JanDhan, lang);
    if lang == En {
      KisanMatchesInEnglish();
    } else {
      NoKisanMatch(PmKisan, lang);
    }
    FilterOfFive(SampleSchemes(), p);
  }

  /** Every catalogue text except PM Kisan Samman Nidhi's English ones avoids the letter `k`. */
  lemma CatalogueAvoidsK(lang: Language)
    ensures TextsAvoidK(Housing, lang) && TextsAvoidK(AyushmanBharat, lang) && TextsAvoidK(BetiBachao, lang)
    ensures TextsAvoidK(JanDhan, lang) && (lang == Hi ==> TextsAvoidK(PmKisan, lang))
  {
    if lang == En {
      HousingEnglishAvoidsK();
      AyushmanBharatEnglishAvoidsK();
      BetiBachaoEnglishAvoidsK();
      JanDhanEnglishAvoidsK();
    } else {
      HousingHindiAvoidsK();
      AyushmanBharatHindiAvoidsK();
      BetiBachaoHindiAvoidsK();
      PmKisanHindiAvoidsK();
      JanDhanHindiAvoidsK();
    }
  }

  lemma HousingEnglishAvoidsK()
    ensures AvoidsK("PM Housing Scheme") && AvoidsK("Affordable housing for all")
  {
  }

  lemma HousingHindiAvoidsK()
    ensures AvoidsK("प्रधानमंत्री आवास योजना") && AvoidsK("सभी के लिए किफायती आवास")
  {
  }

  lemma AyushmanBharatEnglishAvoidsK()
    ensures AvoidsK("Ayushman Bharat") && AvoidsK("Health insurance scheme")
  {
  }

  lemma AyushmanBharatHindiAvoidsK()
    ensures AvoidsK("आयुष्मान भारत") && AvoidsK("स्वास्थ्य बीमा योजना")
  {
  }

  lemma BetiBachaoEnglishAvoidsK()
    ensures AvoidsK("Beti Bachao Beti Padhao") && AvoidsK("Girl child education and safety")
  {
  }

  lemma BetiBachaoHindiAvoidsK()
    ensures AvoidsK("बेटी बचाओ बेटी पढ़ाओ") && AvoidsK("बालिका शिक्षा और सुरक्षा")
  {
  }

  lemma PmKisanHindiAvoidsK()
    ensures AvoidsK("किसान सम्मान निधि") && AvoidsK("किसानों के लिए आर्थिक सहायता")
  {
  }

  lemma JanDhanEnglishAvoidsK()
    ensures AvoidsK("Jan Dhan Yojana") && AvoidsK("Financial inclusion scheme")
  {
  }

  lemma JanDhanHindiAvoidsK()
    ensures AvoidsK("जन धन योजना") && AvoidsK("वित्तीय समावेशन योजना")
  {
  }
}
