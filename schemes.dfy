/**
 * The government-scheme catalogue and `filterSchemes`: a category filter followed by a
 * case-insensitive search of each scheme's name and description in the display language.
 */
module Schemes {
  import opened Strings
  import opened Sequences
  import opened Locale

  /** The category tab that shows every scheme. */
  const AllCategories := "all"

  /** A text field: either one plain text, or one text per supported language. */
  datatype Text = Plain(text: string) | PerLanguage(en: string, hi: string)

  /** `typeof t === 'object' ? t[currentLanguage] : t`. */
  function InLanguage(t: Text, lang: Language): string {
    match t
    case Plain(s) => s
    case PerLanguage(en, hi) => if lang == En then en else hi
  }

  datatype Scheme = Scheme(id: int, name: Text, category: string, description: Text, benefits: Text)

  const Housing := Scheme(1, PerLanguage("PM Housing Scheme", "प्रधानमंत्री आवास योजना"), "finance",
    PerLanguage("Affordable housing for all", "सभी के लिए किफायती आवास"),
    PerLanguage("Financial assistance, subsidies", "वित्तीय सहायता, सब्सिडी"))
  const AyushmanBharat := Scheme(2, PerLanguage("Ayushman Bharat", "आयुष्मान भारत"), "health",
    PerLanguage("Health insurance scheme", "स्वास्थ्य बीमा योजना"),
    PerLanguage("Coverage up to ₹5 lakh", "₹5 लाख तक का कवरेज"))
  const BetiBachao := Scheme(3, PerLanguage("Beti Bachao Beti Padhao", "बेटी बचाओ बेटी पढ़ाओ"), "education",
    PerLanguage("Girl child education and safety", "बालिका शिक्षा और सुरक्षा"),
    PerLanguage("Education support, awareness", "शिक्षा सहायता, जागरूकता"))
  const PmKisan := Scheme(4, PerLanguage("PM Kisan Samman Nidhi", "किसान सम्मान निधि"), "agriculture",
    PerLanguage("Financial support for farmers", "किसानों के लिए आर्थिक सहायता"),
    PerLanguage("₹6000 annual assistance", "₹6000 सालाना सहायता"))
  const JanDhan := Scheme(5, PerLanguage("Jan Dhan Yojana", "जन धन योजना"), "finance",
    PerLanguage("Financial inclusion scheme", "वित्तीय समावेशन योजना"),
    PerLanguage("Free bank account, insurance", "मुफ्त बैंक खाता, बीमा"))

  /** The catalogue `loadSchemes` installs. */
  function SampleSchemes(): seq<Scheme> {
    [Housing, AyushmanBharat, BetiBachao, PmKisan, JanDhan]
  }

  function InCategory(category: string): Scheme -> bool {
    (s: Scheme) => s.category == category
  }

  /**
   * The search test: the lower-cased term occurs in the lower-cased name or description.
   * The empty term matches every scheme, and a term longer than both texts matches none.
   */
  predicate MatchesTerm(s: Scheme, lang: Language, term: string): (b: bool)
    ensures term == "" ==> b
    ensures b ==> |term| <= |InLanguage(s.name, lang)| || |term| <= |InLanguage(s.description, lang)|
  {
    || Contains(Lower(InLanguage(s.name, lang)), Lower(term))
    || Contains(Lower(InLanguage(s.description, lang)), Lower(term))
  }

  function Matching(lang: Language, term: string): Scheme -> bool {
    (s: Scheme) => MatchesTerm(s, lang, term)
  }

  /**
   * `filterSchemes(category, term)` over `schemes` in display language `lang`: the two
   * filters in turn. A scheme is in the result exactly when it is in the catalogue and
   * listed: its category is selected and the term, if any, matches it.
   */
  function FilterSchemes(schemes: seq<Scheme>, lang: Language, category: string, term: string): (r: seq<Scheme>)
    ensures |r| <= |schemes|
    ensures forall s :: s in r <==> s in schemes && IsListed(s, lang, category, term)
  {
    var byCategory := if category != AllCategories then Filter(schemes, InCategory(category)) else schemes;
    FilterMembershipAll(schemes, InCategory(category));
    FilterMembershipAll(byCategory, Matching(lang, term));
    if term != "" then Filter(byCategory, Matching(lang, term)) else byCategory
  }

  /** Whether a scheme is listed: its category is selected, and the term, if any, matches it. */
  predicate IsListed(s: Scheme, lang: Language, category: string, term: string) {
    (category == AllCategories || s.category == category) && (term == "" || MatchesTerm(s, lang, term))
  }

  function Listed(lang: Language, category: string, term: string): Scheme -> bool {
    (s: Scheme) => IsListed(s, lang, category, term)
  }

  /** The two successive filters amount to one filter by `IsListed`. */
  lemma FilterSchemesIsOneFilter(schemes: seq<Scheme>, lang: Language, category: string, term: string)
    ensures FilterSchemes(schemes, lang, category, term) == Filter(schemes, Listed(lang, category, term))
  {
    var listed := Listed(lang, category, term);
    if category != AllCategories && term != "" {
      FilterFilter(schemes, InCategory(category), Matching(lang, term));
      FilterAgree(schemes, Both(InCategory(category), Matching(lang, term)), listed);
    } else if category != AllCategories {
      FilterAgree(schemes, InCategory(category), listed);
    } else if term != "" {
      FilterAgree(schemes, Matching(lang, term), listed);
    } else {
      FilterAll(schemes, listed);
    }
  }

  /**
   * The result keeps the catalogue's order and holds exactly the listed schemes; the tab
   * `all` with an empty search shows the whole catalogue.
   */
  lemma FilterSchemesSpec(schemes: seq<Scheme>, lang: Language, category: string, term: string)
    ensures var r := FilterSchemes(schemes, lang, category, term);
      && IsSubsequence(r, schemes)
      && (forall s :: s in r <==> s in schemes && IsListed(s, lang, category, term))
      && (category == AllCategories && term == "" ==> r == schemes)
  {
    var listed := Listed(lang, category, term);
    FilterSchemesIsOneFilter(schemes, lang, category, term);
    FilterIsSubsequence(schemes, listed);
    forall s {
      FilterMembership(schemes, listed, s);
    }
  }

  /** Whether a text has no letter `k` in either case. */
  predicate AvoidsK(t: string) {
    'k' !in t && 'K' !in t
  }

  /** Whether a scheme's name and description in `lang` have no letter `k` in either case. */
  predicate TextsAvoidK(s: Scheme, lang: Language) {
    AvoidsK(InLanguage(s.name, lang)) && AvoidsK(InLanguage(s.description, lang))
  }

  /** A text that has no `k` in either case does not contain "kisan" once lower-cased. */
  lemma NoKisanIn(t: string)
    requires AvoidsK(t)
    ensures !Contains(Lower(t), "kisan")
  {
    LowerKeepsOut(t, 'k');
    FirstCharAbsent(Lower(t), "kisan");
  }

  lemma KisanMatchesInEnglish()
    ensures MatchesTerm(PmKisan, En, "kisan")
  {
    var lowered := Lower("PM Kisan Samman Nidhi");
    assert Lower("kisan") == "kisan";
    assert lowered[3] == 'k' && lowered[4] == 'i' && lowered[5] == 's' && lowered[6] == 'a' && lowered[7] == 'n';
    assert lowered[3..8] == "kisan";
    assert OccursAt(lowered, "kisan", 3);
  }

  lemma {:induction false} NoKisanMatch(s: Scheme, lang: Language)
    requires TextsAvoidK(s, lang)
    ensures !MatchesTerm(s, lang, "kisan")
  {
    assert Lower("kisan") == "kisan";
    NoKisanIn(InLanguage(s.name, lang));
    NoKisanIn(InLanguage(s.description, lang));
  }
}
