# Korean-learning app: verified model of the content and localisation core

This project models, in Dafny, the browser code of a static Korean-learning
web application. It covers:

- **Grammar reference** (`js/grammar-ui.js`). The controller object loads a
  category → group → unit taxonomy. It merges content shards into one unit
  map, indexed by id with last write winning. It appends per-category
  examples to per-group lists. For a non-Korean language it loads two
  translation overlays: unit titles/explanations and example translations.
  It keeps a three-level selection with cascading resets. Every view resolves
  its text with a fixed fallback chain.
- **UI dictionary** (`i18n.js`). `I18n.load` replaces the dictionary for a
  language. `I18n.t` walks a dotted key through nested objects and returns the
  key itself on a miss or a non-string leaf.
- **Language start-up and switching** (`js/i18n-init.js`). This covers
  `normalizeLanguage` (lower-casing, base subtag, fallback to Korean), the
  stored-preference / browser-language decision, and `applyLanguage`'s effect
  on the stored preference and the dictionary.
- **Flashcards** (`js/flashcard.js`): the meaning-field normalisation, the
  session (copy, optional Fisher–Yates shuffle, JS `slice` truncation), card
  navigation with its counters, and the progress line.
- **Vocabulary list** (`js/vocabulary-learning.js`): the same meaning
  normalisation, category extraction (insertion-ordered set headed by
  `'all'`), category filtering, and the category/play-button labels.
- **Hangul drill** (`js/hangul-learning.js`): per-language data paths, the
  all-or-fallback load, and mode/next/prev navigation kept within the current
  list.

The model makes these modelling choices:

- Each fetched document is a parameter. `None` means the fetch failed, gave a
  non-ok status or did not parse; a map without the category's key means the
  same for per-category files.
- A string field a document may omit is `""` when absent, because the code only
  tests such fields for truthiness.
- Objects whose fields the code updates are Dafny classes: `I18n`,
  `PreferenceStore`, `Flashcard`, `VocabularyLearning`, `HangulLearning` and
  `GrammarUI`. Each method is proved against pure specification functions, and
  the lemmas are proved about those functions.
- The UI string lookup is taken from an `I18n` object as a
  `UiStrings(lookup, currentLang)` value (`I18n.Snapshot`). `None` stands for
  "no `window.I18n`".

Modules:

| file | module | content |
|---|---|---|
| wrappers.dfy | `Wrappers` | `Option` |
| js_text.dfy | `JsText` | the JS string built-ins used: `split`, `toLowerCase`, first-occurrence `replace`, `String(n)` |
| i18n.dfy | `I18nDictionary` | JSON values, dotted-key lookup, class `I18n` |
| i18n_init.dfy | `LanguageInit` | language normalisation, start-up decision, preference store, `applyLanguage`, `initI18n` |
| word_data.dfy | `WordData` | word records and the meaning-field chain shared by flashcards and vocabulary |
| flashcard.dfy | `FlashcardSession` | class `Flashcard`, shuffle, progress text |
| vocabulary.dfy | `Vocabulary` | categories, filtering, labels, class `VocabularyLearning` |
| hangul.dfy | `Hangul` | data paths, class `HangulLearning` |
| grammar_content.dfy | `GrammarContent` | grammar documents, merge, overlays, text resolution |
| grammar_ui.dfy | `GrammarView` | class `GrammarUI`: loading, language switch, selection, views |

## Model

| member | source | states |
|---|---|---|
| JsText.IndexOf | i18n.js:40 | the position found holds the separator and no earlier position does |
| JsText.Split | i18n.js:40 | `split` yields at least one part, no part contains the separator, and joining the parts with it gives back the input |
| JsText.SplitHead | js/i18n-init.js:9 | the first part of a split is the text before the first separator, or the whole text when there is none |
| JsText.ToLower | js/i18n-init.js:7 | lower-casing keeps the length and maps every character by the ASCII case map |
| JsText.ToLowerOfLower | js/i18n-init.js:7 | text without capital letters is unchanged by lower-casing |
| JsText.ToLowerIdempotent | js/i18n-init.js:7 | lower-casing twice is lower-casing once |
| JsText.Find | js/flashcard.js:172 | the search for a placeholder returns its first occurrence, or None when it occurs nowhere |
| JsText.ReplaceFirstAt | js/flashcard.js:172 | `replace` with a string pattern substitutes exactly the first occurrence |
| JsText.ReplaceAfterPlainPrefix | js/flashcard.js:172 | a pattern whose first character is absent from the prefix is replaced right after that prefix |
| JsText.ReplaceFirstAbsent | js/flashcard.js:172 | `replace` leaves a text without the pattern unchanged |
| JsText.NatToString | js/flashcard.js:172 | a count is rendered as decimal digits with no leading zero |
| JsText.NatToStringValue | js/flashcard.js:172 | the rendered digits denote the count itself |
| I18nDictionary.WalkMissPersists | i18n.js:42-47 | once a prefix of the path is missing, the whole path is missing |
| I18nDictionary.TranslateMissIsKey | i18n.js:43-47 | a key whose walk fails at any segment translates to itself |
| I18nDictionary.WalkEmpty | i18n.js:3 | no non-empty path exists in the empty dictionary |
| I18nDictionary.EmptyDictionaryIsIdentity | i18n.js:5-36 | with the empty dictionary (Korean, failed load) every key translates to itself |
| I18nDictionary.Translate | i18n.js:40-49 | a translation is either the key itself or the string stored at the end of the key's dotted path, and it is that string whenever the path ends at one |
| I18nDictionary.NonStringLeafIsKey | i18n.js:49 | a key that reaches an object, number or other non-string value translates to itself |
| I18nDictionary.TwoLevelLookup | i18n.js:40-49 | `section.name` finds the string stored under `name` inside `section` |
| I18nDictionary.I18n.constructor | i18n.js:2-3 | starts in Korean with an empty dictionary |
| I18nDictionary.I18n.Load | i18n.js:5-36 | sets the language always; the dictionary becomes empty for Korean or a failed fetch, else the parsed document |
| I18nDictionary.I18n.T | i18n.js:38-50 | the loop's result is the dotted-key translation of the current dictionary |
| I18nDictionary.I18n.Snapshot | i18n.js:1-3 | the lookup handed to the views is exactly the dictionary's translation function, with the current language |
| LanguageInit.NormalizeLanguage | js/i18n-init.js:5-16 | the result is always a supported code or Korean, and a missing or empty code gives Korean |
| LanguageInit.NormalizeSupported | js/i18n-init.js:7-11 | a code that lower-cases to a supported one normalises to that lower-cased code |
| LanguageInit.NormalizeBaseSubtag | js/i18n-init.js:9-12 | an unsupported tag whose part before the first `-` lower-cases to a supported code normalises to that base code |
| LanguageInit.NormalizeOtherwiseKorean | js/i18n-init.js:14-15 | a tag whose full form and base subtag are both unsupported normalises to Korean |
| LanguageInit.CanonicalCodes | js/i18n-init.js:2-3 | every result code is lower-case and has no subtag |
| LanguageInit.NormalizeIdempotent | js/i18n-init.js:5-16 | normalising a normalised code changes nothing |
| LanguageInit.NormalizeExamples | js/i18n-init.js:8 | `en-US` becomes `en` and `ko-KR` becomes Korean |
| LanguageInit.InitialLanguage | js/i18n-init.js:78-93 | the initial language is always supported or Korean; it is Korean when nothing is stored or reported, and when the stored preference is unsupported |
| LanguageInit.StoredPreferenceWins | js/i18n-init.js:82-87 | a stored preference decides the initial language whatever the browser reports |
| LanguageInit.BrowserLanguageWhenNothingStored | js/i18n-init.js:88-92 | with nothing stored the browser's `language`, else `userLanguage`, decides |
| LanguageInit.PreferenceStore.Get | js/i18n-init.js:82 | a read finds a value exactly when the key is stored, and returns it |
| LanguageInit.PreferenceStore.constructor | js/i18n-init.js:82 | the store starts with the entries already saved |
| LanguageInit.ApplyLanguage | js/i18n-init.js:18-61 | without `I18n` nothing changes; normalising to Korean removes the stored preference; otherwise the dictionary is loaded for the normalised code and that code is stored |
| LanguageInit.InitI18n | js/i18n-init.js:78-104 | the initial language is the start-up decision made on the stored value; a non-Korean one is stored and loaded (its dictionary, or `{}` when the fetch fails) and Korean leaves the store and the I18n object untouched |
| WordData.TargetKey | js/flashcard.js:57-71 | the meaning key is the language's column name, or `english` for other languages |
| WordData.FirstNonEmpty | js/flashcard.js:76 | the chain `a \|\| b \|\| …` yields "" exactly when every field is empty, else the first non-empty one |
| WordData.MeaningIsFirstNonEmpty | js/flashcard.js:76 | the meaning is the first non-empty of the target column, `English`, `english`, `Japanese` |
| WordData.NormalizeWord | js/flashcard.js:73-77 | a normalised word has that meaning and keeps every other field |
| WordData.LoadWords | js/flashcard.js:73-82 | a failed load gives no words; otherwise each record is normalised, in order |
| FlashcardSession.GetLabel | js/flashcard.js:3-9 | a label is the translation when it is a non-empty hit, and the fallback otherwise |
| FlashcardSession.SliceEnd | js/flashcard.js:94 | `slice(0, n)` keeps `n` items, capped by the length, counting a negative `n` from the end |
| FlashcardSession.ShuffleArray | js/flashcard.js:97-104 | the shuffled copy is a permutation of the input |
| FlashcardSession.ProgressTemplateAsWritten | js/flashcard.js:164-170 | as written, the template is always the label of the current key with the Korean template as its fallback |
| FlashcardSession.ProgressTemplate | js/flashcard.js:164-170 | corrected: the current key's label, or the legacy key's label followed by `: {done} / {total}` |
| FlashcardSession.LegacyKeyCounterexample | js/flashcard.js:164-170 | a dictionary with only the legacy key: as written shows the Korean text, the corrected template uses the translation |
| FlashcardSession.ProgressTemplateCorrected | js/flashcard.js:164-170 | the corrected template is the new key's translation, else the legacy key's, else the Korean default |
| FlashcardSession.ReplaceTwice | js/flashcard.js:172 | two chained first-occurrence replacements substitute each pattern at its first place |
| FlashcardSession.ProgressLineFirstOnly | js/flashcard.js:172 | the progress line substitutes the completed count for the first `{done}` and the total for the first `{total}` |
| FlashcardSession.ProgressLineNoPlaceholders | js/flashcard.js:172 | a template without placeholders is shown unchanged |
| FlashcardSession.DefaultProgressLine | js/flashcard.js:164-172 | the default template reads `진행도: <done> / <total>` with the counts in decimal |
| FlashcardSession.Flashcard.constructor | js/flashcard.js:11-19 | empty lists, counters zero, session size 50, shuffling on |
| FlashcardSession.Flashcard.LoadData | js/flashcard.js:31-83 | all words are the normalised records of the fetched file, or none on failure |
| FlashcardSession.Flashcard.SetupSession | js/flashcard.js:85-95 | the session is a sub-multiset of all words of the sliced length, and their first items in order when shuffling is off |
| FlashcardSession.Flashcard.GetCurrentWord | js/flashcard.js:106 | the current word exists exactly when the index is in range, and is the word there |
| FlashcardSession.Flashcard.Flip | js/flashcard.js:108-111 | flipping toggles the face |
| FlashcardSession.Flashcard.NextCard | js/flashcard.js:136-144 | advances and unflips when a later card exists, else changes nothing; the index stays valid |
| FlashcardSession.Flashcard.MarkAsKnown | js/flashcard.js:126-129 | one more known card, then the same move as `nextCard` |
| FlashcardSession.Flashcard.MarkAsUnknown | js/flashcard.js:131-134 | one more unknown card, then the same move as `nextCard` |
| FlashcardSession.Flashcard.ResetProgress | js/flashcard.js:279-284 | index, face and both counters are reset |
| FlashcardSession.Flashcard.Restart | js/flashcard.js:270-277 | a fresh session with all progress reset |
| FlashcardSession.Flashcard.SetSessionSize | js/flashcard.js:286-289 | the size becomes the smaller of the request and the word count, and the session restarts |
| FlashcardSession.Flashcard.ToggleShuffle | js/flashcard.js:291-294 | shuffling is toggled and the session restarts |
| FlashcardSession.Flashcard.ProgressText | js/flashcard.js:159-172 | the progress line, as written: the current key's template with answered cards and session size substituted; without `I18n` it reads `진행도: <done> / <total>` |
| FlashcardSession.Flashcard.ProgressTextCorrected | js/flashcard.js:164-172 | the corrected progress line agrees with the one as written unless the current key has no translation and the legacy key has one, when it shows the legacy label with the counts |
| Vocabulary.CategoriesShape | js/vocabulary-learning.js:73-79 | the categories start with `all`, repeat nothing, and are exactly `all` plus every non-empty category of a word |
| Vocabulary.NoWordsOnlyAll | js/vocabulary-learning.js:74 | with no words the only category is `all` |
| Vocabulary.CategoriesPrefixStable | js/vocabulary-learning.js:76 | later words only append categories: the list for a prefix is a prefix of the list |
| Vocabulary.FilterMembership | js/vocabulary-learning.js:92 | a filtered word is one of the words whose category is the selected one, and each such word is kept |
| Vocabulary.FilterAppend | js/vocabulary-learning.js:92 | filtering keeps the words' order |
| Vocabulary.FilterAll | js/vocabulary-learning.js:90-91 | the `all` category shows every word |
| Vocabulary.PlayLabel | js/vocabulary-learning.js:144-145 | the play label is the translation of `vocab.play` when it is a hit, else the Korean default |
| Vocabulary.CategoryLabel | js/vocabulary-learning.js:114-136 | without `I18n` the tab shows the raw category; otherwise the raw category, its Korean name, or a translation of one of the two keys |
| Vocabulary.CategoryLabelCases | js/vocabulary-learning.js:114-136 | case by case: a hit on the Korean name wins; failing that a hit on `category.<c>`; failing both, the Korean name in Korean mode and the raw category otherwise |
| Vocabulary.CategoryLabelEmptyDictionary | js/vocabulary-learning.js:96-137 | with an empty dictionary a category shows its Korean name in Korean and its own name otherwise |
| Vocabulary.KoreanNameTranslationFirst | js/vocabulary-learning.js:118-124 | a category with a Korean name shows that name's translation when it is a hit |
| Vocabulary.VocabularyLearning.constructor | js/vocabulary-learning.js:2-7 | no words, category `all` |
| Vocabulary.VocabularyLearning.LoadWords | js/vocabulary-learning.js:17-70 | the words are the normalised records, or none on failure |
| Vocabulary.VocabularyLearning.ExtractCategories | js/vocabulary-learning.js:73-79 | the loop builds exactly the category list of the words |
| Vocabulary.VocabularyLearning.SetCategory | js/vocabulary-learning.js:164 | the selected category becomes the argument |
| Vocabulary.VocabularyLearning.Shown | js/vocabulary-learning.js:90-92 | all words for `all`, else the words of the selected category |
| Hangul.GetPathInjective | js/hangul-learning.js:27-30 | different data kinds never share a path |
| Hangul.GetPathLocation | js/hangul-learning.js:28-29 | Korean reads from `data/`, another language from its own `locales/<lang>/` folder |
| Hangul.HangulLearning.constructor | js/hangul-learning.js:3-7 | empty lists, consonant mode, index 0 |
| Hangul.HangulLearning.GetCurrentCharacters | js/hangul-learning.js:58-64 | vowels and finals by name; any other mode shows consonants |
| Hangul.HangulLearning.GetCurrentCharacter | js/hangul-learning.js:66-68 | a character exists exactly when the index is in range, and is the one there |
| Hangul.HangulLearning.LoadData | js/hangul-learning.js:20-56 | all three lists are loaded, or on any failure all three become the one-letter placeholders |
| Hangul.HangulLearning.SetMode | js/hangul-learning.js:134-138 | the mode is set and the index reset, which keeps it valid |
| Hangul.HangulLearning.Next | js/hangul-learning.js:140-146 | advances only while a later character exists; the index stays valid |
| Hangul.HangulLearning.Prev | js/hangul-learning.js:148-153 | steps back only above 0; the index stays valid |
| GrammarContent.MergeUnitsAppend | js/grammar-ui.js:82-87 | merging two runs of units is merging the first, then the second |
| GrammarContent.MergeUnitsUntouched | js/grammar-ui.js:84 | units of other ids leave an id's entry as it was |
| GrammarContent.MergeLastWins | js/grammar-ui.js:85 | an id maps to the last usable unit with that id |
| GrammarContent.MergeUnitsKeys | js/grammar-ui.js:81-87 | the map's ids are exactly those of non-null units with a non-empty id, each filed under its own id |
| GrammarContent.FailedShardContributesNothing | js/grammar-ui.js:66-76 | a shard that failed to load changes nothing about the merge of the others |
| GrammarContent.LaterShardWins | js/grammar-ui.js:82-87 | with two shards defining an id, the later shard's unit wins in either order |
| GrammarContent.AppendExamplesSpec | js/grammar-ui.js:107-114 | each group's list grows by exactly its examples, in load order; an entry exists only for groups that got examples |
| GrammarContent.AppendExamplesAppend | js/grammar-ui.js:98-117 | appending two runs of examples is appending the first, then the second |
| GrammarContent.ExamplesOfAppend | js/grammar-ui.js:107 | a group's examples over two runs are those of each, in order |
| GrammarContent.CategoryExamplesAppend | js/grammar-ui.js:98-117 | the examples of two runs of categories are those of each, in order |
| GrammarContent.MissingExampleFileIsolated | js/grammar-ui.js:103-105 | a category whose example file did not load leaves the index the same as without it |
| GrammarContent.ExamplesByGroupSpec | js/grammar-ui.js:90-114 | the rebuilt index holds for each group exactly its examples, and no entry for groups without any |
| GrammarContent.TranslationMapOrigin | js/grammar-ui.js:139-145 | every overlay entry comes from an item with that id, with a missing title or explanation set to "" |
| GrammarContent.TranslationLastWins | js/grammar-ui.js:139-145 | the last item with an id decides its entry |
| GrammarContent.BaseLanguageNoOverlay | js/grammar-ui.js:124-127 | Korean or an empty code loads no unit overlay |
| GrammarContent.ExampleTranslationsNonEmpty | js/grammar-ui.js:176-183 | only non-empty texts enter the example overlay |
| GrammarContent.TranslationBeforeText | js/grammar-ui.js:180 | an entry's `translation` takes precedence over its `text` |
| GrammarContent.BaseLanguageShowsBase | js/grammar-ui.js:421-435 | in Korean the detail shows the unit's title (else id) and description whatever the overlay holds |
| GrammarContent.NoEntryShowsBase | js/grammar-ui.js:421-435 | without an overlay entry a unit reads the same in any language as in Korean |
| GrammarContent.IndependentFallback | js/grammar-ui.js:421-435 | title and description use the overlay each exactly when its own field is non-empty |
| GrammarContent.UnitLabelMatchesTitle | js/grammar-ui.js:373-381 | a unit button shows the same title as the detail pane for a unit filed under its own id |
| GrammarContent.UnitLabel | js/grammar-ui.js:373-381 | Korean shows `title \|\| id`; outside Korean a non-empty overlay title for the id wins; every label is either the base label or a non-empty overlay title |
| GrammarContent.TaxonomyLabelCases | js/grammar-ui.js:287-295 | a category or group label is the translation exactly when the UI is not Korean and the lookup is a non-empty hit, else `label \|\| id` |
| GrammarContent.TaxonomyLabel | js/grammar-ui.js:287-295 | without `I18n` the label is `label \|\| id`; otherwise it is that or a non-empty translation different from its key, and it is never empty unless both label and id are |
| GrammarContent.CategoryLabel | js/grammar-ui.js:287-295 | a category tab shows `label \|\| id` in Korean or without `I18n`, and otherwise that or a non-empty translation of `grammar_category_<id>` |
| GrammarContent.GroupLabel | js/grammar-ui.js:327-335 | a group tab shows `label \|\| id` in Korean or without `I18n`, and otherwise that or a non-empty translation of `grammar_group_<id>` |
| GrammarContent.TaxonomyLabelEmptyDictionary | js/grammar-ui.js:287-295 | with an empty dictionary every taxonomy label is the document's own |
| GrammarContent.ExampleTranslationScenario | js/grammar-ui.js:472-475 | a French file holding only `text: "Bonjour"` makes the example show it; in Korean the example shows no translation |
| GrammarView.FirstIndexOf | js/grammar-ui.js:524 | the position found is the first with the id sought, or None when no id matches |
| GrammarView.FindCategory | js/grammar-ui.js:523-525 | the result is none exactly when no category carries the id; otherwise it is the first category that does |
| GrammarView.FindGroup | js/grammar-ui.js:527-531 | none without a category; otherwise none exactly when none of its groups carries the id, else the first group that does |
| GrammarView.FindFirstGroup | js/grammar-ui.js:527-537 | selecting a category's first group by its id finds that very group |
| GrammarView.LoadedUnitLabel | js/grammar-ui.js:373-381 | every loaded unit is filed under its own non-empty id, so its button and its detail title agree |
| GrammarView.MergeShardsKeyed | js/grammar-ui.js:81-87 | every unit of the merged map is filed under its own id, and no id is empty |
| GrammarView.SelectionScenario | js/grammar-ui.js:533-561 | a group listing `u1` and `u2` with only `u2` loaded: selecting the category and then the group keeps `u1` selected, and the detail pane shows the placeholder |
| GrammarView.GrammarUI.constructor | js/grammar-ui.js:4-16 | empty indices and overlays, Korean, nothing selected |
| GrammarView.GrammarUI.LoadData | js/grammar-ui.js:52-92 | the taxonomy is stored, the unit map is the merge of the shards rebuilt from empty, and the examples index is rebuilt from the category files |
| GrammarView.GrammarUI.MergeBlock | js/grammar-ui.js:82-87 | one shard's usable units are merged into the map in order |
| GrammarView.GrammarUI.AppendFile | js/grammar-ui.js:107-114 | one file's examples with a group id are appended to their groups' lists, in order |
| GrammarView.GrammarUI.LoadExamples | js/grammar-ui.js:95-121 | each loaded example with a group id is appended to its group's list, category by category |
| GrammarView.GrammarUI.LoadGrammarTranslations | js/grammar-ui.js:123-151 | the unit overlay is rebuilt exactly as specified: empty for Korean or a failed fetch |
| GrammarView.GrammarUI.LoadExampleTranslations | js/grammar-ui.js:153-191 | the example overlay is the merge of the loaded files' non-empty texts; empty for Korean or with no categories |
| GrammarView.GrammarUI.AddTranslations | js/grammar-ui.js:176-184 | visiting the ids in any order adds exactly the file's non-empty texts |
| GrammarView.GrammarUI.UpdateLanguage | js/grammar-ui.js:193-200 | an empty code means Korean; both overlays are reloaded for the language, and are empty in Korean |
| GrammarView.GrammarUI.SelectedCategory | js/grammar-ui.js:523-525 | the selected category is a loaded category carrying the selected id, and is none exactly when no category carries it |
| GrammarView.GrammarUI.SelectedGroup | js/grammar-ui.js:527-531 | a group of the selected category carrying the selected group id; it is found whenever that category has such a group, and is none without a category |
| GrammarView.GrammarUI.EnsureInitialSelection | js/grammar-ui.js:202-221 | nothing changes without categories; otherwise the first category, its first group and that group's first unit; with no unit from the group the previous unit is kept, else some loaded unit is chosen whenever any is loaded, else none |
| GrammarView.GrammarUI.OnCategorySelect | js/grammar-ui.js:533-547 | re-selecting does nothing; otherwise the group becomes the category's first (or none) and the unit its first (or none), consistent with each other |
| GrammarView.GrammarUI.OnGroupSelect | js/grammar-ui.js:549-561 | re-selecting does nothing; otherwise the unit becomes the group's first within the current category, or none when the group is not there |
| GrammarView.GrammarUI.OnUnitSelect | js/grammar-ui.js:563-567 | only the unit changes |
| GrammarView.GrammarUI.DetailText | js/grammar-ui.js:402-435 | the detail exists exactly when the selected unit is loaded, and shows its resolved title and description |
| GrammarView.GrammarUI.ShownExamples | js/grammar-ui.js:440-443 | the examples shown are the selected group's list, or none without a group |
| GrammarView.GrammarUI.ExampleLine | js/grammar-ui.js:472-475 | no translation line in Korean or without an overlay entry; otherwise exactly the overlay's text for the example |
| GrammarView.GrammarUI.UnitButton | js/grammar-ui.js:373-381 | a loaded unit's button shows its detail title; an id that is not loaded shows its non-empty overlay title outside Korean, else the id itself |

## Left out

- Rendering: the DOM, CSS classes, event listeners, modals, the theme, speech synthesis, the service worker and the app router are not part of this model. The views are modelled by the functions that compute their text.
- `fetch`, `Promise.all` and `await`: each fetched document is a parameter. The request paths (apart from the Hangul drill's `getPath`) are not modelled.
- The race between overlapping language switches (`languageChanged` events while a load is in flight) is concurrency and is not modelled.
- Completion order under `Promise.all`: per-category examples and example translations from different files are combined in taxonomy order. The browser combines them in completion order.
- `Object.keys` order: the "any unit" fallback of the initial selection and the order in which one translation file's ids are visited are both modelled as an arbitrary choice.
- `Math.random` in the shuffle is an arbitrary index in `0..i`. Only the permutation property is stated, not uniformity.
- `location.reload` on switching to Korean, and `localStorage` exceptions, are not modelled. The stored preference is the entry the code removes or writes.
- `I18n.apply`, `setupLanguageOptions` and the language buttons' selected state are DOM work and are not modelled.
- `I18n.t` on a dictionary holding arrays: JSON arrays are leaves in the model, so a key through an array index is a miss.
- Keys inherited through JavaScript's prototype chain (`constructor`, `toString`) count as absent in every lookup. So does a selected unit id of `null`, which the code would look up as the key `"null"`.
- Non-string field values in word, unit and example records are not modelled; every field is a string.
- JsText.ToLower: covers ASCII letters only. That is exact for `normalizeLanguage`'s result, since every supported code is ASCII.
- The flashcard words file's second fetch (`data/words.json` after a non-ok response) is folded into the one document parameter, and so is the Hangul drill's.
- The initialisation's hard failures (taxonomy or index fetch throwing, shown as an error message) and the `initialized` flag are not modelled.
- Hangul.HangulLearning.LoadData: like the source, it does not reset the index, so a reload to shorter lists can leave the index out of range (`Valid()` is not ensured); only `SetMode` resets it.
- The flashcard accuracy percentage and completion screen, the vocabulary list's HTML and the Hangul character card are rendering only.

## Findings

| source | as written | input that shows it | evidently intended | confidence | as-written member | corrected member |
|---|---|---|---|---|---|---|
| js/flashcard.js:164-170 | the test `labelTemplate === 'flashcard.progress.label'` can never hold, because `getLabel` returns its fallback, not the key, on a miss; the legacy key `flashcard.progress` is never consulted | a dictionary holding only `flashcard.progress: "Progress"` with the UI in English: the line reads `진행도: {done} / {total}` | fall back to the legacy key's translation followed by `: {done} / {total}` when the new key is missing | not executed | FlashcardSession.LegacyKeyCounterexample | FlashcardSession.ProgressTemplateCorrected |
