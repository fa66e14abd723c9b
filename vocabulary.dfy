/**
 * The vocabulary list (`js/vocabulary-learning.js`): the loaded words, their
 * category tabs ('all' first, then each category once, in order of first
 * appearance), the category filter and the tab labels.
 */
module Vocabulary {
  import opened Wrappers
  import opened WordData
  import opened I18nDictionary

  /** The Korean name of each known category, used as a translation key. */
  const CategoryEnToKo: map<string, string> := map[
    "all" := "전체", "greetings" := "인사", "basic" := "기본", "food" := "음식",
    "people" := "사람", "places" := "장소", "transportation" := "교통",
    "verbs_daily" := "일상 동사", "verbs_actions" := "행동 동사", "adjectives" := "형용사",
    "numbers" := "숫자", "time" := "시간", "colors" := "색깔", "body" := "신체",
    "nature" := "자연", "school" := "학교"]

  /** The pseudo-category that shows every word. */
  const All: string := "all"

  /** Adding one word's category to the tab list, as `Set.add` does: only a new, non-empty one is appended. */
  function AddCategory(cats: seq<string>, c: string): seq<string>
  {
    if c != "" && c !in cats then cats + [c] else cats
  }

  /** The tab list `extractCategories` builds from `words`. */
  function CategoriesOf(words: seq<Record>): seq<string>
  {
    if words == [] then [All]
    else AddCategory(CategoriesOf(words[..|words| - 1]), Field(words[|words| - 1], "category"))
  }

  /** Some word carries category `c`. */
  predicate Mentions(words: seq<Record>, c: string)
  {
    exists k :: 0 <= k < |words| && Field(words[k], "category") == c
  }

  /** No entry occurs twice. */
  predicate NoDuplicates(s: seq<string>)
  {
    forall i, j :: 0 <= i < j < |s| ==> s[i] != s[j]
  }

  /**
   * The tabs start with 'all', have no duplicates, and hold exactly 'all' and
   * the non-empty categories of the words.
   */
  lemma {:induction false} CategoriesShape(words: seq<Record>)
    ensures |CategoriesOf(words)| >= 1 && CategoriesOf(words)[0] == All
    ensures NoDuplicates(CategoriesOf(words))
    ensures forall c :: c in CategoriesOf(words) <==>
      c == All || (c != "" && Mentions(words, c))
  {
    if words != [] {
      var init := words[..|words| - 1];
      CategoriesShape(init);
      var last := Field(words[|words| - 1], "category");
      forall c ensures Mentions(words, c) <==> (c == last || Mentions(init, c)) {
        if Mentions(words, c) {
          var k :| 0 <= k < |words| && Field(words[k], "category") == c;
          if k < |init| { assert init[k] == words[k]; }
        }
        if Mentions(init, c) {
          var k :| 0 <= k < |init| && Field(init[k], "category") == c;
          assert words[k] == init[k];
        }
      }
    }
  }

  /** With no words there is only the 'all' tab. */
  lemma NoWordsOnlyAll()
    ensures CategoriesOf([]) == [All]
  {
  }

  /** First-appearance order: the tabs of a prefix of the words are a prefix of the tabs of all of them. */
  lemma {:induction false} CategoriesPrefixStable(words: seq<Record>, k: nat)
    requires k <= |words|
    ensures CategoriesOf(words[..k]) <= CategoriesOf(words)
  {
    if k < |words| {
      assert words[..|words| - 1][..k] == words[..k];
      CategoriesPrefixStable(words[..|words| - 1], k);
    } else {
      assert words[..k] == words;
    }
  }

  /** Whether word `w` is in category `c`: `w.category === c` (a word without one is in none). */
  predicate InCategory(w: Record, c: string)
  {
    "category" in w && w["category"] == c
  }

  /** The words of category `c`, in their original order. */
  function FilterCategory(words: seq<Record>, c: string): seq<Record>
  {
    if words == [] then []
    else FilterCategory(words[..|words| - 1], c) + (if InCategory(words[|words| - 1], c) then [words[|words| - 1]] else [])
  }

  /** The words shown for the current category: all of them for 'all'. */
  function FilteredWords(words: seq<Record>, current: string): seq<Record>
  {
    if current == All then words else FilterCategory(words, current)
  }

  /** The filter keeps exactly the words of the category. */
  lemma {:induction false} FilterMembership(words: seq<Record>, c: string)
    ensures forall w :: w in FilterCategory(words, c) <==> w in words && InCategory(w, c)
  {
    if words != [] {
      FilterMembership(words[..|words| - 1], c);
      assert words == words[..|words| - 1] + [words[|words| - 1]];
    }
  }

  /** The filter keeps the original order: filtering a concatenation concatenates the filtered parts. */
  lemma {:induction false} FilterAppend(a: seq<Record>, b: seq<Record>, c: string)
    ensures FilterCategory(a + b, c) == FilterCategory(a, c) + FilterCategory(b, c)
  {
    if b != [] {
      assert (a + b)[..|a + b| - 1] == a + b[..|b| - 1];
      FilterAppend(a, b[..|b| - 1], c);
    } else {
      assert a + b == a;
    }
  }

  /** For 'all' nothing is filtered out. */
  lemma FilterAll(words: seq<Record>)
    ensures FilteredWords(words, All) == words
  {
  }

  /**
   * The label of a category tab: the translation of its Korean name, else the
   * translation of `category.<c>`, else the Korean name in Korean mode and the
   * raw category otherwise. With no `I18n` it is the raw category.
   */
  function CategoryLabel(category: string, ui: Option<UiStrings>): (r: string)
    ensures ui.None? ==> r == category
    ensures r == category || r == KoreanName(category) ||
            (ui.Some? && (r == ui.value.lookup(KoreanName(category)) || r == ui.value.lookup("category." + category)))
  {
    var koLabel := KoreanName(category);
    match ui
    case None => category
    case Some(u) =>
      var translated := u.lookup(koLabel);
      if translated != koLabel then translated
      else
        var key := "category." + category;
        var catKeyTranslated := u.lookup(key);
        if catKeyTranslated != key then catKeyTranslated
        else if u.currentLang == "ko" then koLabel
        else category
  }

  /** The Korean name of a category, or the category itself when it has none (`CATEGORY_EN_TO_KO[c] || c`). */
  function KoreanName(category: string): string
  {
    if category in CategoryEnToKo then CategoryEnToKo[category] else category
  }

  /**
   * The tab label case by case, for every category and dictionary: a hit on
   * the Korean name wins; failing that a hit on `category.<c>`; failing both,
   * the Korean name in Korean mode and the raw category in any other.
   */
  lemma CategoryLabelCases(category: string, u: UiStrings)
    ensures u.lookup(KoreanName(category)) != KoreanName(category) ==>
      CategoryLabel(category, Some(u)) == u.lookup(KoreanName(category))
    ensures u.lookup(KoreanName(category)) == KoreanName(category) &&
            u.lookup("category." + category) != "category." + category ==>
      CategoryLabel(category, Some(u)) == u.lookup("category." + category)
    ensures u.lookup(KoreanName(category)) == KoreanName(category) &&
            u.lookup("category." + category) == "category." + category ==>
      CategoryLabel(category, Some(u)) == if u.currentLang == "ko" then KoreanName(category) else category
  {
  }

  /** The label of the play button: `vocab.play` when it translates, else the Korean default. */
  function PlayLabel(ui: Option<UiStrings>): (r: string)
    ensures ui.None? ==> r == "발음 듣기"
    ensures ui.Some? && ui.value.lookup("vocab.play") != "vocab.play" ==> r == ui.value.lookup("vocab.play")
    ensures ui.Some? && ui.value.lookup("vocab.play") == "vocab.play" ==> r == "발음 듣기"
  {
    if ui.Some? && ui.value.lookup("vocab.play") != "vocab.play" then ui.value.lookup("vocab.play") else "발음 듣기"
  }

  /**
   * With an `I18n` whose dictionary is empty (Korean mode, or a language whose
   * pack did not load) every lookup misses: the tab shows the Korean name in
   * Korean mode and the raw category in any other.
   */
  lemma CategoryLabelEmptyDictionary(category: string, lang: string)
    ensures CategoryLabel(category, Some(UiStrings(k => Translate(Empty, k), lang)))
         == if lang == "ko" then (if category in CategoryEnToKo then CategoryEnToKo[category] else category) else category
  {
    var koLabel := if category in CategoryEnToKo then CategoryEnToKo[category] else category;
    EmptyDictionaryIsIdentity(koLabel);
    EmptyDictionaryIsIdentity("category." + category);
  }

  /** A translation of the Korean name takes precedence over the `category.<c>` key. */
  lemma KoreanNameTranslationFirst(category: string, u: UiStrings)
    requires category in CategoryEnToKo
    requires u.lookup(CategoryEnToKo[category]) != CategoryEnToKo[category]
    ensures CategoryLabel(category, Some(u)) == u.lookup(CategoryEnToKo[category])
  {
  }

  /** The vocabulary singleton. */
  class VocabularyLearning {
    var words: seq<Record>
    var currentCategory: string
    var categories: seq<string>

    constructor ()
      ensures words == [] && currentCategory == All && categories == []
    {
      words, currentCategory, categories := [], All, [];
    }

    /** `loadWords()` for the parsed word list of language `lang` (None when it could not be loaded). */
    method LoadWords(raw: Option<seq<Record>>, lang: string)
      modifies this`words
      ensures words == WordData.LoadWords(raw, lang)
    {
      words := WordData.LoadWords(raw, lang);
    }

    /** `extractCategories()`: collect the tabs in one pass over the words. */
    method ExtractCategories()
      modifies this`categories
      ensures categories == CategoriesOf(words)
    {
      var cats := [All];
      var i := 0;
      while i < |words|
        invariant 0 <= i <= |words|
        invariant cats == CategoriesOf(words[..i])
      {
        assert words[..i + 1][..i] == words[..i];
        var c := Field(words[i], "category");
        if c != "" && c !in cats {
          cats := cats + [c];
        }
        i := i + 1;
      }
      assert words[..i] == words;
      categories := cats;
    }

    /** `setCategory(cat)`: only the current category changes. */
    method SetCategory(cat: string)
      modifies this`currentCategory
      ensures currentCategory == cat
    {
      currentCategory := cat;
    }

    /** The words the list shows. */
    function Shown(): (ws: seq<Record>)
      reads this
      ensures currentCategory == All ==> ws == words
      ensures currentCategory != All ==> ws == FilterCategory(words, currentCategory)
    {
      FilteredWords(words, currentCategory)
    }
  }
}
