/**
 * The grammar reference's controller (`js/grammar-ui.js`): the object whose
 * fields hold the loaded documents, the translation overlays, the current
 * language and the category/group/unit selection, and the operations that
 * update them. Rendering is modelled by the functions that compute the text
 * each view shows.
 */
module GrammarView {
  import opened Wrappers
  import opened I18nDictionary
  import opened GrammarContent

  /** The selection; None is `null`. */
  datatype Selection = Selection(categoryId: Option<string>, groupId: Option<string>, unitId: Option<string>)

  /** What the detail pane shows for a loaded unit. */
  datatype Detail = Detail(title: string, description: string)

  /** `Array.prototype.findIndex` on ids: the first position whose id equals `target`. */
  function FirstIndexOf(ids: seq<string>, target: Option<string>): (r: Option<nat>)
    ensures r.Some? ==> r.value < |ids| && Some(ids[r.value]) == target &&
                        forall j :: 0 <= j < r.value ==> Some(ids[j]) != target
    ensures r.None? ==> forall j :: 0 <= j < |ids| ==> Some(ids[j]) != target
  {
    if ids == [] then None
    else if Some(ids[0]) == target then Some(0)
    else
      var rest := FirstIndexOf(ids[1..], target);
      if rest.None? then None else Some(rest.value + 1)
  }

  /** `categories.find(c => c.id === id) || null`. */
  function FindCategory(cats: seq<Category>, id: Option<string>): (r: Option<Category>)
    ensures r.None? <==> forall j :: 0 <= j < |cats| ==> Some(cats[j].id) != id
    ensures r.Some? ==> exists i :: 0 <= i < |cats| && cats[i] == r.value && Some(cats[i].id) == id &&
                                   forall j :: 0 <= j < i ==> Some(cats[j].id) != id
  {
    var ids := seq(|cats|, k requires 0 <= k < |cats| => cats[k].id);
    assert forall k :: 0 <= k < |cats| ==> ids[k] == cats[k].id;
    var i := FirstIndexOf(ids, id);
    if i.None? then None else Some(cats[i.value])
  }

  /** `(category.groups || []).find(g => g.id === id) || null`, null without a category. */
  function FindGroup(category: Option<Category>, id: Option<string>): (r: Option<Group>)
    ensures category.None? ==> r.None?
    ensures category.Some? ==> (r.None? <==> forall j :: 0 <= j < |category.value.groups| ==> Some(category.value.groups[j].id) != id)
    ensures r.Some? ==> category.Some? &&
                        exists i :: 0 <= i < |category.value.groups| && category.value.groups[i] == r.value &&
                                    Some(category.value.groups[i].id) == id &&
                                    forall j :: 0 <= j < i ==> Some(category.value.groups[j].id) != id
  {
    if category.None? then None
    else
      var groups := category.value.groups;
      var ids := seq(|groups|, k requires 0 <= k < |groups| => groups[k].id);
      assert forall k :: 0 <= k < |groups| ==> ids[k] == groups[k].id;
      var i := FirstIndexOf(ids, id);
      if i.None? then None else Some(category.value.groups[i.value])
  }

  /** The first unit id of a group when it is non-empty. */
  function FirstUnitId(g: Group): Option<string>
  {
    if |g.unitIds| > 0 && g.unitIds[0] != "" then Some(g.unitIds[0]) else None
  }

  /** A group always finds its first entry: the first group of a list is the one chosen by its id. */
  lemma {:induction false} FindFirstGroup(c: Category)
    requires |c.groups| > 0
    ensures FindGroup(Some(c), Some(c.groups[0].id)) == Some(c.groups[0])
  {
  }

  class GrammarUI {
    var categories: seq<Category>
    var contents: map<string, Unit>
    var examplesByGroup: map<string, seq<Example>>
    var exampleTranslations: map<string, string>
    var grammarTranslations: map<string, UnitTranslation>
    var currentLang: string
    var state: Selection

    constructor()
      ensures categories == [] && contents == map[] && examplesByGroup == map[]
      ensures exampleTranslations == map[] && grammarTranslations == map[]
      ensures currentLang == BaseLanguage && state == Selection(None, None, None)
      ensures ContentsKeyed()
    {
      categories := [];
      contents := map[];
      examplesByGroup := map[];
      exampleTranslations := map[];
      grammarTranslations := map[];
      currentLang := BaseLanguage;
      state := Selection(None, None, None);
    }

    /**
     * Load the taxonomy, merge the content shards listed by the index (a
     * failed shard is None) and rebuild the examples index from the
     * per-category example files (a category whose file failed is absent
     * from `exampleDocs`).
     */
    method LoadData(taxonomy: seq<Category>, shards: seq<Option<ContentBlock>>, exampleDocs: map<string, ExampleFile>)
      modifies this`categories, this`contents, this`examplesByGroup
      ensures categories == taxonomy
      ensures contents == MergeShards(shards)
      ensures examplesByGroup == ExamplesByGroup(taxonomy, exampleDocs)
      ensures ContentsKeyed()
    {
      categories := taxonomy;
      contents := map[];
      var k := 0;
      while k < |shards|
        invariant 0 <= k <= |shards|
        invariant categories == taxonomy
        invariant contents == MergeShards(shards[..k])
      {
        MergeBlock(shards[k]);
        MergeUnitsAppend(map[], AllUnits(shards[..k]), ShardUnits(shards[k]));
        assert shards[..k + 1][..k] == shards[..k];
        k := k + 1;
      }
      assert shards[..k] == shards;
      MergeShardsKeyed(shards);
      examplesByGroup := map[];
      LoadExamples(exampleDocs);
    }

    /** File the usable units of one shard under their ids; a later unit replaces an earlier one. */
    method MergeBlock(block: Option<ContentBlock>)
      modifies this`contents
      ensures contents == MergeUnits(old(contents), ShardUnits(block))
    {
      var units := ShardUnits(block);
      ghost var start := contents;
      var j := 0;
      while j < |units|
        invariant 0 <= j <= |units|
        invariant contents == MergeUnits(start, units[..j])
      {
        var unit := units[j];
        MergeUnitsSnoc(start, units[..j], unit);
        assert units[..j + 1] == units[..j] + [unit];
        if unit.Some? && unit.value.id != "" {
          contents := contents[unit.value.id := unit.value];
        }
        j := j + 1;
      }
      assert units[..j] == units;
    }

    /** Append every example of one category file that has a group id to that group's list. */
    method AppendFile(examples: seq<Option<Example>>)
      modifies this`examplesByGroup
      ensures examplesByGroup == AppendExamples(old(examplesByGroup), examples)
    {
      ghost var start := examplesByGroup;
      var j := 0;
      while j < |examples|
        invariant 0 <= j <= |examples|
        invariant examplesByGroup == AppendExamples(start, examples[..j])
      {
        var ex := examples[j];
        AppendExamplesSnoc(start, examples[..j], ex);
        assert examples[..j + 1] == examples[..j] + [ex];
        if ex.Some? && ex.value.groupId != "" {
          var gid := ex.value.groupId;
          if gid !in examplesByGroup {
            examplesByGroup := examplesByGroup[gid := []];
          }
          examplesByGroup := examplesByGroup[gid := examplesByGroup[gid] + [ex.value]];
        }
        j := j + 1;
      }
      assert examples[..j] == examples;
    }

    /** Append the examples of every loaded category file, category by category. */
    method LoadExamples(exampleDocs: map<string, ExampleFile>)
      modifies this`examplesByGroup
      ensures examplesByGroup == AppendExamples(old(examplesByGroup), CategoryExamples(categories, exampleDocs))
    {
      if |categories| == 0 {
        return;
      }
      ghost var start := examplesByGroup;
      var i := 0;
      while i < |categories|
        invariant 0 <= i <= |categories|
        invariant examplesByGroup == AppendExamples(start, CategoryExamples(categories[..i], exampleDocs))
      {
        var examples := FileExamples(exampleDocs, categories[i].id);
        AppendFile(examples);
        AppendExamplesAppend(start, CategoryExamples(categories[..i], exampleDocs), examples);
        assert categories[..i + 1][..i] == categories[..i];
        i := i + 1;
      }
      assert categories[..i] == categories;
    }

    /** Rebuild the unit overlay for `lang` from its document (None when it could not be loaded). */
    method LoadGrammarTranslations(lang: string, doc: Option<seq<Option<TranslationItem>>>)
      modifies this`grammarTranslations
      ensures grammarTranslations == GrammarTranslations(lang, doc)
    {
      if IsBase(lang) || doc.None? {
        grammarTranslations := map[];
        return;
      }
      var items := doc.value;
      var m: map<string, UnitTranslation> := map[];
      var i := 0;
      while i < |items|
        invariant 0 <= i <= |items|
        invariant m == TranslationMap(map[], items[..i])
      {
        var item := items[i];
        TranslationMapSnoc(map[], items[..i], item);
        assert items[..i + 1] == items[..i] + [item];
        if item.Some? && item.value.id != "" {
          m := m[item.value.id := UnitTranslation(OrEmpty(item.value.title), OrEmpty(item.value.explanation))];
        }
        i := i + 1;
      }
      assert items[..i] == items;
      grammarTranslations := m;
    }

    /** Rebuild the example overlay for `lang` from the per-category files that loaded. */
    method LoadExampleTranslations(lang: string, docs: map<string, ExampleTranslationFile>)
      modifies this`exampleTranslations
      ensures exampleTranslations == ExampleTranslations(lang, categories, docs)
    {
      if IsBase(lang) || |categories| == 0 {
        exampleTranslations := map[];
        return;
      }
      var m: map<string, string> := map[];
      var i := 0;
      while i < |categories|
        invariant 0 <= i <= |categories|
        invariant m == MergeExampleTranslations(categories[..i], docs)
      {
        var c := categories[i];
        assert categories[..i + 1][..i] == categories[..i];
        if c.id in docs {
          m := AddTranslations(m, docs[c.id]);
        }
        i := i + 1;
      }
      assert categories[..i] == categories;
      exampleTranslations := m;
    }

    /** Add one file's non-empty texts to `m`, visiting its ids in some order. */
    static method AddTranslations(m: map<string, string>, f: ExampleTranslationFile) returns (r: map<string, string>)
      ensures r == m + FileTranslations(f)
    {
      r := m;
      var remaining := f.translations.Keys;
      ghost var done: set<string> := {};
      while remaining != {}
        invariant remaining == f.translations.Keys - done
        invariant done <= f.translations.Keys
        invariant r == m + Visited(f, done)
        decreases |remaining|
      {
        var id :| id in remaining;
        VisitedStep(f, done, id);
        var text := TextOf(f.translations[id]);
        if text != "" {
          UnionUpdate(m, Visited(f, done), id, text);
          r := r[id := text];
        }
        remaining := remaining - {id};
        done := done + {id};
      }
      assert done == f.translations.Keys;
      assert Visited(f, f.translations.Keys) == FileTranslations(f);
    }

    /**
     * Switch the reference to `lang` (empty means Korean) and reload both
     * overlays from the documents fetched for that language.
     */
    method UpdateLanguage(lang: string, grammarDoc: Option<seq<Option<TranslationItem>>>,
                          exampleDocs: map<string, ExampleTranslationFile>)
      modifies this`currentLang, this`grammarTranslations, this`exampleTranslations
      ensures currentLang == (if lang == "" then BaseLanguage else lang)
      ensures grammarTranslations == GrammarTranslations(currentLang, grammarDoc)
      ensures exampleTranslations == ExampleTranslations(currentLang, categories, exampleDocs)
      ensures currentLang == BaseLanguage ==> grammarTranslations == map[] && exampleTranslations == map[]
    {
      currentLang := if lang == "" then BaseLanguage else lang;
      LoadGrammarTranslations(currentLang, grammarDoc);
      LoadExampleTranslations(currentLang, exampleDocs);
    }

    /** Every loaded unit is filed under its own id, and no id is empty. */
    predicate ContentsKeyed()
      reads this
    {
      forall k :: k in contents ==> k != "" && contents[k].id == k
    }

    /** The selected category: the first whose id is the selected one, None when none has it. */
    function SelectedCategory(): (r: Option<Category>)
      reads this
      ensures r.None? <==> forall j :: 0 <= j < |categories| ==> Some(categories[j].id) != state.categoryId
      ensures r.Some? ==> r.value in categories && Some(r.value.id) == state.categoryId
    {
      FindCategory(categories, state.categoryId)
    }

    /** The selected group: the first of the selected category's groups with the selected id. */
    function SelectedGroup(): (r: Option<Group>)
      reads this
      ensures SelectedCategory().None? ==> r.None?
      ensures r.Some? ==> SelectedCategory().Some? && r.value in SelectedCategory().value.groups &&
                          Some(r.value.id) == state.groupId
      ensures SelectedCategory().Some? && state.groupId.Some? &&
              (exists j :: 0 <= j < |SelectedCategory().value.groups| && SelectedCategory().value.groups[j].id == state.groupId.value)
              ==> r.Some?
    {
      FindGroup(SelectedCategory(), state.groupId)
    }

    /**
     * Select the first category, its first group and that group's first unit;
     * with no unit chosen so far, fall back to some loaded unit, else none.
     */
    method EnsureInitialSelection()
      requires ContentsKeyed()
      modifies this`state
      ensures |categories| == 0 ==> state == old(state)
      ensures |categories| > 0 ==>
        var first := categories[0];
        var fromGroup := if |first.groups| > 0 then FirstUnitId(first.groups[0]) else None;
        var kept := if fromGroup.Some? then fromGroup else old(state.unitId);
        && state.categoryId == Some(first.id)
        && state.groupId == (if |first.groups| > 0 then Some(first.groups[0].id) else old(state.groupId))
        && (kept.Some? && kept.value != "" ==> state.unitId == kept)
        && (!(kept.Some? && kept.value != "") ==>
              (contents != map[] ==> state.unitId.Some? && state.unitId.value in contents) &&
              (contents == map[] ==> state.unitId.None?))
    {
      if |categories| == 0 {
        return;
      }
      var first := categories[0];
      state := state.(categoryId := Some(first.id));
      if |first.groups| > 0 {
        var g := first.groups[0];
        state := state.(groupId := Some(g.id));
        if |g.unitIds| > 0 && g.unitIds[0] != "" {
          state := state.(unitId := Some(g.unitIds[0]));
        }
      }
      if state.unitId.None? || state.unitId == Some("") {
        if contents != map[] {
          var anyUnitId :| anyUnitId in contents;
          state := state.(unitId := if anyUnitId != "" then Some(anyUnitId) else None);
        } else {
          state := state.(unitId := None);
        }
      }
    }

    /** Select a category: its first group and that group's first unit, or null for each. */
    method OnCategorySelect(categoryId: string)
      modifies this`state
      ensures old(state.categoryId) == Some(categoryId) ==> state == old(state)
      ensures old(state.categoryId) != Some(categoryId) ==>
        var c := FindCategory(categories, Some(categoryId));
        && state.categoryId == Some(categoryId)
        && state.groupId == (if c.Some? && |c.value.groups| > 0 then Some(c.value.groups[0].id) else None)
        && state.unitId == (if c.Some? && |c.value.groups| > 0 then FirstUnitId(c.value.groups[0]) else None)
        && (state.groupId.Some? ==> SelectedGroup().Some?)
        && (state.unitId.Some? ==> SelectedGroup().Some? && state.unitId.value in SelectedGroup().value.unitIds)
    {
      if state.categoryId == Some(categoryId) {
        return;
      }
      state := state.(categoryId := Some(categoryId));
      var c := SelectedCategory();
      if c.Some? && |c.value.groups| > 0 {
        var g := c.value.groups[0];
        FindFirstGroup(c.value);
        state := state.(groupId := Some(g.id), unitId := FirstUnitId(g));
      } else {
        state := state.(groupId := None, unitId := None);
      }
    }

    /** Select a group of the current category: its first unit, or null. */
    method OnGroupSelect(groupId: string)
      modifies this`state
      ensures old(state.groupId) == Some(groupId) ==> state == old(state)
      ensures old(state.groupId) != Some(groupId) ==>
        && state.categoryId == old(state.categoryId)
        && state.groupId == Some(groupId)
        && state.unitId == (if SelectedGroup().Some? then FirstUnitId(SelectedGroup().value) else None)
        && (state.unitId.Some? ==> SelectedGroup().Some? && state.unitId.value in SelectedGroup().value.unitIds)
    {
      if state.groupId == Some(groupId) {
        return;
      }
      state := state.(groupId := Some(groupId));
      var g := SelectedGroup();
      state := state.(unitId := if g.Some? then FirstUnitId(g.value) else None);
    }

    /** Select a unit; category and group stay as they are. */
    method OnUnitSelect(unitId: string)
      modifies this`state
      ensures state == old(state).(unitId := Some(unitId))
    {
      if state.unitId == Some(unitId) {
        return;
      }
      state := state.(unitId := Some(unitId));
    }

    /** The detail pane's text, or None for the "not found" placeholder. */
    function DetailText(ui: Option<UiStrings>): (d: Option<Detail>)
      reads this
      ensures d.Some? <==> state.unitId.Some? && state.unitId.value in contents
      ensures d.Some? ==>
        var unit := contents[state.unitId.value];
        var tr := Lookup(grammarTranslations, unit.id);
        var lang := RenderLang(ui, currentLang);
        d.value == Detail(UnitTitle(lang, unit, tr), UnitDescription(lang, unit, tr))
    {
      if state.unitId.Some? && state.unitId.value in contents then
        var unit := contents[state.unitId.value];
        var lang := RenderLang(ui, currentLang);
        var tr := Lookup(grammarTranslations, unit.id);
        Some(Detail(UnitTitle(lang, unit, tr), UnitDescription(lang, unit, tr)))
      else None
    }

    /** The examples listed under the detail pane: the selected group's, in load order. */
    function ShownExamples(): (es: seq<Example>)
      reads this
      ensures SelectedGroup().None? || SelectedGroup().value.id == "" ==> es == []
      ensures SelectedGroup().Some? && SelectedGroup().value.id != "" ==>
        es == GroupList(examplesByGroup, SelectedGroup().value.id)
    {
      var g := SelectedGroup();
      if g.Some? && g.value.id != "" then GroupList(examplesByGroup, g.value.id) else []
    }

    /** The translation line under example `ex`: "" in Korean or without an overlay entry. */
    function ExampleLine(ui: Option<UiStrings>, ex: Example): (line: string)
      reads this
      ensures RenderLang(ui, currentLang) == BaseLanguage ==> line == ""
      ensures line != "" ==> ex.id in exampleTranslations && line == exampleTranslations[ex.id]
      ensures RenderLang(ui, currentLang) != BaseLanguage && ex.id in exampleTranslations ==>
        line == exampleTranslations[ex.id]
      ensures ex.id !in exampleTranslations ==> line == ""
    {
      ExampleTranslation(RenderLang(ui, currentLang), exampleTranslations, ex.id)
    }

    /** The label of the selected group's button for `unitId`. */
    function UnitButton(ui: Option<UiStrings>, unitId: string): (b: string)
      reads this
      ensures ContentsKeyed() && unitId in contents ==>
        b == UnitTitle(RenderLang(ui, currentLang), contents[unitId], Lookup(grammarTranslations, unitId))
      ensures unitId !in contents ==>
        b == (if RenderLang(ui, currentLang) != BaseLanguage && unitId in grammarTranslations && grammarTranslations[unitId].title != ""
              then grammarTranslations[unitId].title else unitId)
    {
      if unitId in contents && contents[unitId].id == unitId then
        UnitLabelMatchesTitle(RenderLang(ui, currentLang), contents[unitId], grammarTranslations);
        UnitLabel(RenderLang(ui, currentLang), unitId, Some(contents[unitId]), grammarTranslations)
      else
      UnitLabel(RenderLang(ui, currentLang), unitId, if unitId in contents then Some(contents[unitId]) else None, grammarTranslations)
    }
  }

  /** The entries of `f` among the ids already visited. */
  ghost function Visited(f: ExampleTranslationFile, done: set<string>): map<string, string>
  {
    map id | id in f.translations && id in done && TextOf(f.translations[id]) != "" :: TextOf(f.translations[id])
  }

  lemma UnionUpdate(m: map<string, string>, v: map<string, string>, id: string, text: string)
    ensures m + v[id := text] == (m + v)[id := text]
  {
  }

  lemma VisitedStep(f: ExampleTranslationFile, done: set<string>, id: string)
    requires id in f.translations && id !in done
    ensures Visited(f, done + {id}) ==
      if TextOf(f.translations[id]) != "" then Visited(f, done)[id := TextOf(f.translations[id])] else Visited(f, done)
  {
  }

  /** Merged shards file every unit under its own non-empty id. */
  lemma MergeShardsKeyed(shards: seq<Option<ContentBlock>>)
    ensures forall k :: k in MergeShards(shards) ==> k != "" && MergeShards(shards)[k].id == k
  {
    forall k | k in MergeShards(shards)
      ensures k != "" && MergeShards(shards)[k].id == k
    {
      MergeUnitsKeys(map[], AllUnits(shards));
      var i :| 0 <= i < |AllUnits(shards)| && Defines(AllUnits(shards)[i], k);
    }
  }

  /** Once loaded, every unit is filed under its own non-empty id, so the list and detail titles agree. */
  lemma LoadedUnitLabel(shards: seq<Option<ContentBlock>>, lang: string, k: string, translations: map<string, UnitTranslation>)
    requires k in MergeShards(shards)
    ensures MergeShards(shards)[k].id == k && k != ""
    ensures UnitLabel(lang, k, Some(MergeShards(shards)[k]), translations)
         == UnitTitle(lang, MergeShards(shards)[k], Lookup(translations, k))
  {
    MergeShardsKeyed(shards);
    UnitLabelMatchesTitle(lang, MergeShards(shards)[k], translations);
  }

  /**
   * A group lists `u1` and `u2` but only `u2` is loaded: selecting the
   * category picks `u1`, re-selecting its group leaves it, and the detail
   * pane shows the "not found" placeholder.
   */
  method SelectionScenario() returns (view: GrammarUI)
    ensures view.state.unitId == Some("u1") && "u1" !in view.contents
    ensures view.DetailText(None).None?
  {
    view := new GrammarUI();
    var u2 := Unit("u2", "", "");
    var shards := [Some(ContentBlock([Some(u2)]))];
    view.LoadData([Category("cat1", "", [Group("g1", "", ["u1", "u2"])])], shards, map[]);
    assert shards[..0] == [];
    assert AllUnits(shards) == [Some(u2)];
    var loaded: seq<Option<Unit>> := [Some(u2)];
    assert loaded[..0] == [];
    assert MergeUnits(map[], loaded) == PutUnit(MergeUnits(map[], []), Some(u2));
    assert view.contents == map["u2" := u2];
    view.OnCategorySelect("cat1");
    assert view.state.unitId == Some("u1");
    view.OnGroupSelect("g1");
    assert view.state.unitId == Some("u1");
    assert view.DetailText(None).None?;
  }
}
