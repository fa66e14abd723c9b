/**
 * The grammar reference's documents and the pure logic over them
 * (`js/grammar-ui.js`): merging content shards into the unit map, grouping
 * examples, building the translation overlays, and resolving the text each
 * view shows with its fallbacks.
 *
 * A string field that a document may leave out is "" when absent, since the
 * code tests such fields only for truthiness. The raw translation documents
 * keep absence explicit (`Option`) because the code defaults those fields.
 */
module GrammarContent {
  import opened Wrappers
  import opened I18nDictionary

  datatype Group = Group(id: string, labelText: string, unitIds: seq<string>)
  datatype Category = Category(id: string, labelText: string, groups: seq<Group>)
  datatype Unit = Unit(id: string, title: string, description: string)
  /** A content shard: its `units` array, whose entries may be null. */
  datatype ContentBlock = ContentBlock(units: seq<Option<Unit>>)
  datatype Example = Example(id: string, groupId: string, korean: string, romanization: string, ipa: string)
  /** A per-category example file: its `examples` array, whose entries may be null. */
  datatype ExampleFile = ExampleFile(examples: seq<Option<Example>>)
  /** One entry of a `<lang>_grammar.json` document. */
  datatype TranslationItem = TranslationItem(id: string, title: Option<string>, explanation: Option<string>)
  /** An overlay entry for one unit. */
  datatype UnitTranslation = UnitTranslation(title: string, explanation: string)
  /** One value of a per-category example-translation document. */
  datatype ExampleText = ExampleText(translation: Option<string>, text: Option<string>)
  datatype ExampleTranslationFile = ExampleTranslationFile(translations: map<string, Option<ExampleText>>)

  const BaseLanguage: string := "ko"

  // ---------------------------------------------------------------------------
  // Content merge (loadData, step 4)

  /** A unit entry that is merged: not null and with a non-empty id. */
  predicate Usable(u: Option<Unit>)
  {
    u.Some? && u.value.id != ""
  }

  function PutUnit(m: map<string, Unit>, u: Option<Unit>): map<string, Unit>
  {
    if Usable(u) then m[u.value.id := u.value] else m
  }

  /** `m` after merging `us` in order. */
  function MergeUnits(m: map<string, Unit>, us: seq<Option<Unit>>): map<string, Unit>
  {
    if us == [] then m else PutUnit(MergeUnits(m, us[..|us| - 1]), us[|us| - 1])
  }

  /** The units a fetched shard contributes: none for a failed fetch. */
  function ShardUnits(shard: Option<ContentBlock>): seq<Option<Unit>>
  {
    if shard.None? then [] else shard.value.units
  }

  /** All unit entries of the shards, in file order. */
  function AllUnits(shards: seq<Option<ContentBlock>>): seq<Option<Unit>>
  {
    if shards == [] then [] else AllUnits(shards[..|shards| - 1]) + ShardUnits(shards[|shards| - 1])
  }

  /** The unit map rebuilt from empty out of the shards. */
  function MergeShards(shards: seq<Option<ContentBlock>>): map<string, Unit>
  {
    MergeUnits(map[], AllUnits(shards))
  }

  lemma {:induction false} MergeUnitsAppend(m: map<string, Unit>, a: seq<Option<Unit>>, b: seq<Option<Unit>>)
    ensures MergeUnits(m, a + b) == MergeUnits(MergeUnits(m, a), b)
  {
    if b == [] {
      assert a + b == a;
    } else {
      assert (a + b)[..|a + b| - 1] == a + b[..|b| - 1];
      MergeUnitsAppend(m, a, b[..|b| - 1]);
    }
  }

  lemma MergeUnitsSnoc(m: map<string, Unit>, us: seq<Option<Unit>>, u: Option<Unit>)
    ensures MergeUnits(m, us + [u]) == PutUnit(MergeUnits(m, us), u)
  {
    assert (us + [u])[..|us|] == us;
  }

  /** A unit entry defines id `k`. */
  predicate Defines(u: Option<Unit>, k: string)
  {
    Usable(u) && u.value.id == k
  }

  /** Entries that do not define `k` leave the map's entry for `k` as it was. */
  lemma {:induction false} MergeUnitsUntouched(m: map<string, Unit>, us: seq<Option<Unit>>, k: string)
    requires forall i :: 0 <= i < |us| ==> !Defines(us[i], k)
    ensures (k in MergeUnits(m, us)) == (k in m)
    ensures k in m ==> MergeUnits(m, us)[k] == m[k]
  {
    if us != [] {
      MergeUnitsUntouched(m, us[..|us| - 1], k);
    }
  }

  /** Last write wins: the unit map holds, for an id, the last usable unit with that id. */
  lemma MergeLastWins(m: map<string, Unit>, before: seq<Option<Unit>>, u: Unit, after: seq<Option<Unit>>)
    requires u.id != ""
    requires forall i :: 0 <= i < |after| ==> !Defines(after[i], u.id)
    ensures u.id in MergeUnits(m, before + [Some(u)] + after)
    ensures MergeUnits(m, before + [Some(u)] + after)[u.id] == u
  {
    MergeUnitsAppend(m, before + [Some(u)], after);
    MergeUnitsAppend(m, before, [Some(u)]);
    MergeUnitsUntouched(MergeUnits(m, before + [Some(u)]), after, u.id);
  }

  /** Some usable entry of `us` defines id `k`. */
  predicate DefinedIn(us: seq<Option<Unit>>, k: string)
  {
    exists i :: 0 <= i < |us| && Defines(us[i], k)
  }

  lemma DefinedInSnoc(us: seq<Option<Unit>>, k: string)
    requires us != []
    ensures DefinedIn(us, k) <==> Defines(us[|us| - 1], k) || DefinedIn(us[..|us| - 1], k)
  {
    var init := us[..|us| - 1];
    if DefinedIn(us, k) {
      var i :| 0 <= i < |us| && Defines(us[i], k);
      if i < |init| { assert init[i] == us[i]; }
    }
    if DefinedIn(init, k) {
      var i :| 0 <= i < |init| && Defines(init[i], k);
      assert us[i] == init[i];
    }
  }

  /** Exactly the ids of usable entries are added; every unit is filed under its own id. */
  lemma {:induction false} MergeUnitsKeys(m: map<string, Unit>, us: seq<Option<Unit>>)
    requires forall k :: k in m ==> m[k].id == k
    ensures forall k :: k in MergeUnits(m, us) ==> MergeUnits(m, us)[k].id == k
    ensures forall k :: k in MergeUnits(m, us) <==> k in m || DefinedIn(us, k)
  {
    if us != [] {
      MergeUnitsKeys(m, us[..|us| - 1]);
      forall k ensures DefinedIn(us, k) <==> Defines(us[|us| - 1], k) || DefinedIn(us[..|us| - 1], k) {
        DefinedInSnoc(us, k);
      }
    }
  }

  lemma {:induction false} AllUnitsAppend(a: seq<Option<ContentBlock>>, b: seq<Option<ContentBlock>>)
    ensures AllUnits(a + b) == AllUnits(a) + AllUnits(b)
  {
    if b == [] {
      assert a + b == a;
    } else {
      assert (a + b)[..|a + b| - 1] == a + b[..|b| - 1];
      AllUnitsAppend(a, b[..|b| - 1]);
    }
  }

  /** A shard whose fetch failed contributes no units and does not affect the other shards. */
  lemma FailedShardContributesNothing(before: seq<Option<ContentBlock>>, after: seq<Option<ContentBlock>>)
    ensures MergeShards(before + [None] + after) == MergeShards(before + after)
  {
    var failed: seq<Option<ContentBlock>> := [None];
    assert failed[..0] == [];
    assert AllUnits(failed) == [];
    AllUnitsAppend(before + failed, after);
    AllUnitsAppend(before, failed);
    AllUnitsAppend(before, after);
    assert AllUnits(before + failed + after) == AllUnits(before + after);
  }

  /** Two shards that define the same id: the later one in file order wins, whichever it is. */
  lemma LaterShardWins(a: Unit, b: Unit)
    requires a.id == b.id && a.id != ""
    ensures MergeShards([Some(ContentBlock([Some(a)])), Some(ContentBlock([Some(b)]))])[a.id] == b
    ensures MergeShards([Some(ContentBlock([Some(b)])), Some(ContentBlock([Some(a)]))])[a.id] == a
  {
    var sa, sb := Some(ContentBlock([Some(a)])), Some(ContentBlock([Some(b)]));
    AllUnitsAppend([sa], [sb]);
    AllUnitsAppend([sb], [sa]);
    assert [sa] + [sb] == [sa, sb] && [sb] + [sa] == [sb, sa];
    assert AllUnits([sa, sb]) == [Some(a)] + [Some(b)] + [];
    assert AllUnits([sb, sa]) == [Some(b)] + [Some(a)] + [];
    MergeLastWins(map[], [Some(a)], b, []);
    MergeLastWins(map[], [Some(b)], a, []);
  }

  // ---------------------------------------------------------------------------
  // Examples by group (loadExamples)

  /** An example entry that is kept: not null and with a non-empty group id. */
  predicate Groupable(e: Option<Example>)
  {
    e.Some? && e.value.groupId != ""
  }

  /** The list of group `g`, empty when absent. */
  function GroupList(m: map<string, seq<Example>>, g: string): seq<Example>
  {
    if g in m then m[g] else []
  }

  function AppendExample(m: map<string, seq<Example>>, e: Option<Example>): map<string, seq<Example>>
  {
    if Groupable(e) then m[e.value.groupId := GroupList(m, e.value.groupId) + [e.value]] else m
  }

  /** `m` after appending each example of `es` to its group's list, in order. */
  function AppendExamples(m: map<string, seq<Example>>, es: seq<Option<Example>>): map<string, seq<Example>>
  {
    if es == [] then m else AppendExample(AppendExamples(m, es[..|es| - 1]), es[|es| - 1])
  }

  lemma AppendExamplesSnoc(m: map<string, seq<Example>>, es: seq<Option<Example>>, e: Option<Example>)
    ensures AppendExamples(m, es + [e]) == AppendExample(AppendExamples(m, es), e)
  {
    assert (es + [e])[..|es|] == es;
  }

  lemma {:induction false} AppendExamplesAppend(m: map<string, seq<Example>>, a: seq<Option<Example>>, b: seq<Option<Example>>)
    ensures AppendExamples(m, a + b) == AppendExamples(AppendExamples(m, a), b)
  {
    if b == [] {
      assert a + b == a;
    } else {
      assert (a + b)[..|a + b| - 1] == a + b[..|b| - 1];
      AppendExamplesAppend(m, a, b[..|b| - 1]);
    }
  }

  /** The examples of `es` that belong to group `g`, in order. */
  function ExamplesOf(es: seq<Option<Example>>, g: string): seq<Example>
  {
    if es == [] then []
    else ExamplesOf(es[..|es| - 1], g) +
         (if Groupable(es[|es| - 1]) && es[|es| - 1].value.groupId == g then [es[|es| - 1].value] else [])
  }

  /** Appending extends each group's list by exactly that group's examples, in load order. */
  lemma {:induction false} AppendExamplesSpec(m: map<string, seq<Example>>, es: seq<Option<Example>>, g: string)
    ensures GroupList(AppendExamples(m, es), g) == GroupList(m, g) + ExamplesOf(es, g)
    ensures g in AppendExamples(m, es) <==> g in m || ExamplesOf(es, g) != []
  {
    if es != [] {
      AppendExamplesSpec(m, es[..|es| - 1], g);
    }
  }

  lemma {:induction false} ExamplesOfAppend(a: seq<Option<Example>>, b: seq<Option<Example>>, g: string)
    ensures ExamplesOf(a + b, g) == ExamplesOf(a, g) + ExamplesOf(b, g)
  {
    if b == [] {
      assert a + b == a;
    } else {
      assert (a + b)[..|a + b| - 1] == a + b[..|b| - 1];
      ExamplesOfAppend(a, b[..|b| - 1], g);
    }
  }

  /** The example entries of a category's file: none when its fetch failed. */
  function FileExamples(docs: map<string, ExampleFile>, categoryId: string): seq<Option<Example>>
  {
    if categoryId in docs then docs[categoryId].examples else []
  }

  /** All example entries, category by category in taxonomy order. */
  function CategoryExamples(categories: seq<Category>, docs: map<string, ExampleFile>): seq<Option<Example>>
  {
    if categories == [] then []
    else CategoryExamples(categories[..|categories| - 1], docs) + FileExamples(docs, categories[|categories| - 1].id)
  }

  /** The examples index built from empty. */
  function ExamplesByGroup(categories: seq<Category>, docs: map<string, ExampleFile>): map<string, seq<Example>>
  {
    AppendExamples(map[], CategoryExamples(categories, docs))
  }

  lemma {:induction false} CategoryExamplesAppend(a: seq<Category>, b: seq<Category>, docs: map<string, ExampleFile>)
    ensures CategoryExamples(a + b, docs) == CategoryExamples(a, docs) + CategoryExamples(b, docs)
  {
    if b == [] {
      assert a + b == a;
    } else {
      assert (a + b)[..|a + b| - 1] == a + b[..|b| - 1];
      CategoryExamplesAppend(a, b[..|b| - 1], docs);
    }
  }

  /** A category whose example file failed to load takes nothing away from the other categories. */
  lemma MissingExampleFileIsolated(before: seq<Category>, c: Category, after: seq<Category>, docs: map<string, ExampleFile>)
    requires c.id !in docs
    ensures ExamplesByGroup(before + [c] + after, docs) == ExamplesByGroup(before + after, docs)
  {
    var missing := [c];
    assert missing[..0] == [];
    assert CategoryExamples(missing, docs) == [];
    CategoryExamplesAppend(before + missing, after, docs);
    CategoryExamplesAppend(before, missing, docs);
    CategoryExamplesAppend(before, after, docs);
    assert CategoryExamples(before + missing + after, docs) == CategoryExamples(before + after, docs);
  }

  /** Each group's list is exactly that group's examples, in load order; groups without examples are absent. */
  lemma ExamplesByGroupSpec(categories: seq<Category>, docs: map<string, ExampleFile>, g: string)
    ensures GroupList(ExamplesByGroup(categories, docs), g) == ExamplesOf(CategoryExamples(categories, docs), g)
    ensures g in ExamplesByGroup(categories, docs) <==> ExamplesOf(CategoryExamples(categories, docs), g) != []
  {
    AppendExamplesSpec(map[], CategoryExamples(categories, docs), g);
  }

  // ---------------------------------------------------------------------------
  // Translation overlays (loadGrammarTranslations, loadExampleTranslations)

  /** `x || ''` for an optional string. */
  function OrEmpty(o: Option<string>): string
  {
    if o.Some? then o.value else ""
  }

  /** The overlay entry of an item: a missing title or explanation becomes "". */
  function EntryOf(item: TranslationItem): UnitTranslation
  {
    UnitTranslation(OrEmpty(item.title), OrEmpty(item.explanation))
  }

  /** A translation item that is kept: not null and with a non-empty id. */
  predicate Identified(item: Option<TranslationItem>)
  {
    item.Some? && item.value.id != ""
  }

  function PutTranslation(m: map<string, UnitTranslation>, item: Option<TranslationItem>): map<string, UnitTranslation>
  {
    if Identified(item) then m[item.value.id := EntryOf(item.value)] else m
  }

  /** `m` after adding the items in order. */
  function TranslationMap(m: map<string, UnitTranslation>, items: seq<Option<TranslationItem>>): map<string, UnitTranslation>
  {
    if items == [] then m else PutTranslation(TranslationMap(m, items[..|items| - 1]), items[|items| - 1])
  }

  lemma TranslationMapSnoc(m: map<string, UnitTranslation>, items: seq<Option<TranslationItem>>, item: Option<TranslationItem>)
    ensures TranslationMap(m, items + [item]) == PutTranslation(TranslationMap(m, items), item)
  {
    assert (items + [item])[..|items|] == items;
  }

  /** Whether `lang` is the base language, for which no overlay exists (an empty code counts as base). */
  predicate IsBase(lang: string)
  {
    lang == "" || lang == BaseLanguage
  }

  /** The unit-translation overlay for `lang` from its document (None when it could not be loaded). */
  function GrammarTranslations(lang: string, doc: Option<seq<Option<TranslationItem>>>): map<string, UnitTranslation>
  {
    if IsBase(lang) || doc.None? then map[] else TranslationMap(map[], doc.value)
  }

  /** Every overlay entry comes from an identified item with that id, its missing fields set to "". */
  lemma {:induction false} TranslationMapOrigin(items: seq<Option<TranslationItem>>)
    ensures forall k :: k in TranslationMap(map[], items) ==>
      exists i :: 0 <= i < |items| && Identified(items[i]) && items[i].value.id == k &&
                  TranslationMap(map[], items)[k] == EntryOf(items[i].value)
  {
    if items != [] {
      var init := items[..|items| - 1];
      TranslationMapOrigin(init);
      forall k | k in TranslationMap(map[], items)
        ensures exists i :: 0 <= i < |items| && Identified(items[i]) && items[i].value.id == k &&
                            TranslationMap(map[], items)[k] == EntryOf(items[i].value)
      {
        var last := items[|items| - 1];
        if !(Identified(last) && last.value.id == k) {
          assert k in TranslationMap(map[], init);
          var i :| 0 <= i < |init| && Identified(init[i]) && init[i].value.id == k &&
                   TranslationMap(map[], init)[k] == EntryOf(init[i].value);
          assert items[i] == init[i];
        }
      }
    }
  }

  /** The last identified item with an id decides its entry. */
  lemma {:induction false} TranslationLastWins(before: seq<Option<TranslationItem>>, item: TranslationItem, after: seq<Option<TranslationItem>>)
    requires item.id != ""
    requires forall i :: 0 <= i < |after| ==> !(Identified(after[i]) && after[i].value.id == item.id)
    ensures item.id in TranslationMap(map[], before + [Some(item)] + after)
    ensures TranslationMap(map[], before + [Some(item)] + after)[item.id] == EntryOf(item)
  {
    if after == [] {
      assert (before + [Some(item)] + after)[..|before|] == before;
    } else {
      var a' := after[..|after| - 1];
      assert (before + [Some(item)] + after)[..|before + [Some(item)] + after| - 1] == before + [Some(item)] + a';
      TranslationLastWins(before, item, a');
    }
  }

  /** The base language has no overlay, whatever the documents hold. */
  lemma BaseLanguageNoOverlay(lang: string, doc: Option<seq<Option<TranslationItem>>>)
    requires IsBase(lang)
    ensures GrammarTranslations(lang, doc) == map[]
  {
  }

  /** `t.translation || t.text || ''` for a translation value (null gives ""). */
  function TextOf(e: Option<ExampleText>): string
  {
    if e.None? then ""
    else if OrEmpty(e.value.translation) != "" then e.value.translation.value
    else OrEmpty(e.value.text)
  }

  /** The entries one example-translation file contributes: those with a non-empty text. */
  function FileTranslations(f: ExampleTranslationFile): map<string, string>
  {
    map id | id in f.translations && TextOf(f.translations[id]) != "" :: TextOf(f.translations[id])
  }

  /** The contribution of the category with id `categoryId`: none when its file failed to load. */
  function CategoryTranslations(docs: map<string, ExampleTranslationFile>, categoryId: string): map<string, string>
  {
    if categoryId in docs then FileTranslations(docs[categoryId]) else map[]
  }

  /** The files of the categories merged in taxonomy order; a later file wins on a shared id. */
  function MergeExampleTranslations(categories: seq<Category>, docs: map<string, ExampleTranslationFile>): map<string, string>
  {
    if categories == [] then map[]
    else MergeExampleTranslations(categories[..|categories| - 1], docs) + CategoryTranslations(docs, categories[|categories| - 1].id)
  }

  /** The example-translation overlay for `lang`. */
  function ExampleTranslations(lang: string, categories: seq<Category>, docs: map<string, ExampleTranslationFile>): map<string, string>
  {
    if IsBase(lang) || categories == [] then map[] else MergeExampleTranslations(categories, docs)
  }

  /** Only non-empty texts enter the example overlay. */
  lemma {:induction false} ExampleTranslationsNonEmpty(lang: string, categories: seq<Category>, docs: map<string, ExampleTranslationFile>)
    ensures forall id :: id in ExampleTranslations(lang, categories, docs) ==> ExampleTranslations(lang, categories, docs)[id] != ""
  {
    MergeNonEmpty(categories, docs);
  }

  lemma {:induction false} MergeNonEmpty(categories: seq<Category>, docs: map<string, ExampleTranslationFile>)
    ensures forall id :: id in MergeExampleTranslations(categories, docs) ==> MergeExampleTranslations(categories, docs)[id] != ""
  {
    if categories != [] {
      MergeNonEmpty(categories[..|categories| - 1], docs);
    }
  }

  /** An entry's `translation` takes precedence over its `text`. */
  lemma TranslationBeforeText(translation: string, text: Option<string>)
    requires translation != ""
    ensures TextOf(Some(ExampleText(Some(translation), text))) == translation
  {
  }

  // ---------------------------------------------------------------------------
  // Text resolution (renderDetail, renderUnits, renderCategories, renderGroups)

  /** The language the unit views render in: `(I18n && I18n.currentLang) || this.currentLang || 'ko'`. */
  function RenderLang(ui: Option<UiStrings>, currentLang: string): string
  {
    if ui.Some? && ui.value.currentLang != "" then ui.value.currentLang
    else if currentLang != "" then currentLang
    else BaseLanguage
  }

  /** The untranslated title: `unit.title || unit.id`. */
  function BaseTitle(unit: Unit): string
  {
    if unit.title != "" then unit.title else unit.id
  }

  /** The detail title: the overlay's title unless Korean, no entry, or an empty one. */
  function UnitTitle(lang: string, unit: Unit, tr: Option<UnitTranslation>): string
  {
    if lang == BaseLanguage || tr.None? || tr.value.title == "" then BaseTitle(unit) else tr.value.title
  }

  /** The detail description: the overlay's explanation unless Korean, no entry, or an empty one. */
  function UnitDescription(lang: string, unit: Unit, tr: Option<UnitTranslation>): string
  {
    if lang == BaseLanguage || tr.None? || tr.value.explanation == "" then unit.description else tr.value.explanation
  }

  /** In Korean a unit shows its own title (or id) and description, whatever the overlay holds. */
  lemma BaseLanguageShowsBase(unit: Unit, tr: Option<UnitTranslation>)
    ensures UnitTitle(BaseLanguage, unit, tr) == (if unit.title != "" then unit.title else unit.id)
    ensures UnitDescription(BaseLanguage, unit, tr) == unit.description
  {
  }

  /** Without an overlay entry a unit reads the same in every language as in Korean. */
  lemma NoEntryShowsBase(lang: string, unit: Unit)
    ensures UnitTitle(lang, unit, None) == UnitTitle(BaseLanguage, unit, None)
    ensures UnitDescription(lang, unit, None) == UnitDescription(BaseLanguage, unit, None)
  {
  }

  /** Title and description fall back independently: each uses the overlay iff its own field is non-empty. */
  lemma IndependentFallback(lang: string, unit: Unit, e: UnitTranslation)
    requires lang != BaseLanguage
    ensures UnitTitle(lang, unit, Some(e)) == (if e.title != "" then e.title else BaseTitle(unit))
    ensures UnitDescription(lang, unit, Some(e)) == (if e.explanation != "" then e.explanation else unit.description)
  {
  }

  /** The overlay entry for `k`, if any. */
  function Lookup(translations: map<string, UnitTranslation>, k: string): Option<UnitTranslation>
  {
    if k in translations then Some(translations[k]) else None
  }

  /**
   * The label of a unit button: the translated title when not Korean and the
   * entry for the id (or for the loaded unit's own id) has a title; else the
   * unit's title, else the id itself (also for a unit that is not loaded).
   */
  function UnitLabel(lang: string, unitId: string, unit: Option<Unit>, translations: map<string, UnitTranslation>): (r: string)
    ensures lang == BaseLanguage ==> r == (if unit.Some? && unit.value.title != "" then unit.value.title else unitId)
    ensures unit.None? && unitId !in translations ==> r == unitId
    ensures lang != BaseLanguage && unitId in translations && translations[unitId].title != "" ==>
      r == translations[unitId].title
    ensures r == (if unit.Some? && unit.value.title != "" then unit.value.title else unitId) ||
            (lang != BaseLanguage && r != "" &&
             ((unitId in translations && r == translations[unitId].title) ||
              (unit.Some? && unit.value.id in translations && r == translations[unit.value.id].title)))
  {
    var labelText := if unit.Some? && unit.value.title != "" then unit.value.title else unitId;
    if lang == BaseLanguage then labelText
    else
      var tr := if unitId in translations then Some(translations[unitId])
                else if unit.Some? then Lookup(translations, unit.value.id)
                else None;
      if tr.Some? && tr.value.title != "" then tr.value.title else labelText
  }

  /** For a loaded unit filed under its own id, the button shows the same title as the detail pane. */
  lemma UnitLabelMatchesTitle(lang: string, unit: Unit, translations: map<string, UnitTranslation>)
    ensures UnitLabel(lang, unit.id, Some(unit), translations) == UnitTitle(lang, unit, Lookup(translations, unit.id))
  {
  }

  /** An example's translation line: "" in Korean or when the overlay has none. */
  function ExampleTranslation(lang: string, overlay: map<string, string>, exampleId: string): string
  {
    if lang == BaseLanguage then "" else if exampleId in overlay then overlay[exampleId] else ""
  }

  /**
   * A category or group label: `t(prefix + id)` when the UI language is not
   * Korean and that is a non-empty hit; else `labelText || id`.
   */
  function TaxonomyLabel(prefix: string, id: string, labelText: string, ui: Option<UiStrings>): (r: string)
    ensures ui.None? ==> r == (if labelText != "" then labelText else id)
    ensures r == (if labelText != "" then labelText else id) ||
            (ui.Some? && r == ui.value.lookup(prefix + id) && r != "" && r != prefix + id)
    ensures r != "" || (labelText == "" && id == "")
  {
    var lang := if ui.Some? && ui.value.currentLang != "" then ui.value.currentLang else BaseLanguage;
    var base := if labelText != "" then labelText else id;
    if lang != BaseLanguage && ui.Some? then
      var key := prefix + id;
      var tr := ui.value.lookup(key);
      if tr != "" && tr != key then tr else base
    else base
  }

  /** A category tab's label (`renderCategories`). */
  function CategoryLabel(c: Category, ui: Option<UiStrings>): (r: string)
    ensures ui.None? || ui.value.currentLang == "" || ui.value.currentLang == BaseLanguage ==>
      r == (if c.labelText != "" then c.labelText else c.id)
    ensures r == (if c.labelText != "" then c.labelText else c.id) ||
            (ui.Some? && r == ui.value.lookup("grammar_category_" + c.id) && r != "")
  {
    TaxonomyLabelCases("grammar_category_", c.id, c.labelText, ui);
    TaxonomyLabel("grammar_category_", c.id, c.labelText, ui)
  }

  /** A group tab's label (`renderGroups`). */
  function GroupLabel(g: Group, ui: Option<UiStrings>): (r: string)
    ensures ui.None? || ui.value.currentLang == "" || ui.value.currentLang == BaseLanguage ==>
      r == (if g.labelText != "" then g.labelText else g.id)
    ensures r == (if g.labelText != "" then g.labelText else g.id) ||
            (ui.Some? && r == ui.value.lookup("grammar_group_" + g.id) && r != "")
  {
    TaxonomyLabelCases("grammar_group_", g.id, g.labelText, ui);
    TaxonomyLabel("grammar_group_", g.id, g.labelText, ui)
  }

  /**
   * A taxonomy label is the translation exactly when the UI is not Korean and
   * the lookup is a non-empty hit; otherwise the document's label, else the id.
   */
  lemma TaxonomyLabelCases(prefix: string, id: string, labelText: string, ui: Option<UiStrings>)
    ensures var hit := ui.Some? && ui.value.currentLang != "" && ui.value.currentLang != BaseLanguage &&
                       ui.value.lookup(prefix + id) != "" && ui.value.lookup(prefix + id) != prefix + id;
      TaxonomyLabel(prefix, id, labelText, ui) == if hit then ui.value.lookup(prefix + id) else if labelText != "" then labelText else id
  {
  }

  /** Through an `I18n` whose dictionary is empty, every taxonomy label is the document's own. */
  lemma TaxonomyLabelEmptyDictionary(prefix: string, id: string, labelText: string, lang: string)
    ensures TaxonomyLabel(prefix, id, labelText, Some(UiStrings(k => Translate(Empty, k), lang)))
         == if labelText != "" then labelText else id
  {
    EmptyDictionaryIsIdentity(prefix + id);
  }

  /** Switched to French with a file holding only `text`, the example shows it; in Korean it shows nothing. */
  lemma ExampleTranslationScenario(c: Category)
    ensures var docs := map[c.id := ExampleTranslationFile(map["ex42" := Some(ExampleText(None, Some("Bonjour")))])];
      && ExampleTranslation("fr", ExampleTranslations("fr", [c], docs), "ex42") == "Bonjour"
      && ExampleTranslation(BaseLanguage, ExampleTranslations(BaseLanguage, [c], docs), "ex42") == ""
  {
    var docs := map[c.id := ExampleTranslationFile(map["ex42" := Some(ExampleText(None, Some("Bonjour")))])];
    assert [c][..0] == [];
    assert TextOf(Some(ExampleText(None, Some("Bonjour")))) == "Bonjour";
    assert FileTranslations(docs[c.id]) == map["ex42" := "Bonjour"];
  }
}
