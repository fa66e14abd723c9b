/**
 * The UI-string dictionary (`i18n.js`): a JSON tree loaded per language and a
 * dotted-path lookup `t(key)` that answers the key itself on any miss.
 */
module I18nDictionary {
  import opened Wrappers
  import JsText

  /** A parsed JSON value. Numbers are kept as integers: their value never matters here. */
  datatype Json =
    | JNull
    | JBool(b: bool)
    | JNumber(n: int)
    | JString(s: string)
    | JArray(elems: seq<Json>)
    | JObject(fields: map<string, Json>)

  /** The empty dictionary `{}`. */
  const Empty: Json := JObject(map[])

  /** One step of the walk: descend into `node` along `segment` when `node` is an object that has it. */
  function Step(node: Json, segment: string): Option<Json>
  {
    if node.JObject? && segment in node.fields then Some(node.fields[segment]) else None
  }

  /** The node reached from `root` by following `path` segment by segment, or None at the first miss. */
  function Walk(root: Json, path: seq<string>): Option<Json>
  {
    if path == [] then Some(root)
    else
      match Walk(root, path[..|path| - 1])
      case None => None
      case Some(node) => Step(node, path[|path| - 1])
  }

  /** What `t(key)` answers for dictionary `dict`. */
  function Translate(dict: Json, key: string): (r: string)
    ensures r == key || Walk(dict, JsText.Split(key, '.')) == Some(JString(r))
    ensures Walk(dict, JsText.Split(key, '.')).Some? && Walk(dict, JsText.Split(key, '.')).value.JString? ==>
              r == Walk(dict, JsText.Split(key, '.')).value.s
  {
    match Walk(dict, JsText.Split(key, '.'))
    case Some(JString(s)) => s
    case _ => key
  }

  /** Once the walk misses, it stays missed: a missing prefix makes the whole path miss. */
  lemma {:induction false} WalkMissPersists(root: Json, path: seq<string>, i: nat)
    requires i <= |path|
    requires Walk(root, path[..i]) == None
    ensures Walk(root, path) == None
  {
    if i < |path| {
      assert path[..|path| - 1][..i] == path[..i];
      WalkMissPersists(root, path[..|path| - 1], i);
    } else {
      assert path[..i] == path;
    }
  }

  /** If some segment is missing, or the walk meets a node that is not an object, `t` returns the key. */
  lemma {:induction false} TranslateMissIsKey(dict: Json, key: string, i: nat)
    requires i <= |JsText.Split(key, '.')|
    requires Walk(dict, JsText.Split(key, '.')[..i]) == None
    ensures Translate(dict, key) == key
  {
    WalkMissPersists(dict, JsText.Split(key, '.'), i);
  }

  /** A walk of a non-empty path through the empty dictionary misses. */
  lemma {:induction false} WalkEmpty(path: seq<string>)
    requires |path| >= 1
    ensures Walk(Empty, path) == None
  {
    if |path| > 1 {
      WalkEmpty(path[..|path| - 1]);
    }
  }

  /** With the empty dictionary every key translates to itself. */
  lemma EmptyDictionaryIsIdentity(key: string)
    ensures Translate(Empty, key) == key
  {
    WalkEmpty(JsText.Split(key, '.'));
  }

  /** A path that ends at a non-string value (an object, a number, ...) translates to the key. */
  lemma NonStringLeafIsKey(dict: Json, key: string)
    requires Walk(dict, JsText.Split(key, '.')).Some?
    requires !Walk(dict, JsText.Split(key, '.')).value.JString?
    ensures Translate(dict, key) == key
  {
  }

  /** A dotted key of two segments finds the string nested two levels deep. */
  lemma {:induction false} TwoLevelLookup(section: string, name: string, text: string)
    requires '.' !in section && '.' !in name
    ensures Translate(JObject(map[section := JObject(map[name := JString(text)])]), section + "." + name) == text
  {
    var key := section + "." + name;
    var i := JsText.IndexOf(key, '.');
    assert key[|section|] == '.';
    assert i == |section|;
    assert key[..i] == section;
    assert key[i + 1..] == name;
    assert JsText.Split(key, '.') == [section, name];
    var p := [section, name];
    var inner := JObject(map[name := JString(text)]);
    var dict := JObject(map[section := inner]);
    assert p[..1] == [section] && p[..1][..0] == [];
    assert Walk(dict, p[..1]) == Some(inner);
    assert Walk(dict, p) == Some(JString(text));
  }

  /** A snapshot of the UI-string facility for its callers: `lookup` answers the key on a miss. */
  datatype UiStrings = UiStrings(lookup: string -> string, currentLang: string)

  /** The `I18n` singleton: the active language and its dictionary. */
  class I18n {
    var currentLang: string
    var dictionary: Json

    /** Initial state: Korean, empty dictionary. */
    constructor ()
      ensures currentLang == "ko" && dictionary == Empty
    {
      currentLang := "ko";
      dictionary := Empty;
    }

    /**
     * `load(lang)`. `response` is the parsed locale document, or None when the
     * fetch failed, answered a non-success status, or did not parse. Korean
     * fetches nothing. Every path sets `currentLang`.
     */
    method Load(lang: string, response: Option<Json>)
      modifies this
      ensures currentLang == lang
      ensures dictionary == if lang == "ko" || response.None? then Empty else response.value
    {
      if lang == "ko" {
        dictionary := Empty;
        currentLang := lang;
        return;
      }
      match response
      case None =>
        dictionary := Empty;
        currentLang := lang;
      case Some(doc) =>
        dictionary := doc;
        currentLang := lang;
    }

    /** `t(key)`: walk the dictionary along the dot-separated segments of `key`. */
    method T(key: string) returns (r: string)
      ensures r == Translate(dictionary, key)
    {
      var parts := JsText.Split(key, '.');
      var cur := dictionary;
      var i := 0;
      while i < |parts|
        invariant 0 <= i <= |parts|
        invariant Walk(dictionary, parts[..i]) == Some(cur)
      {
        var p := parts[i];
        assert parts[..i + 1][..i] == parts[..i];
        if cur.JObject? && p in cur.fields {
          cur := cur.fields[p];
        } else {
          TranslateMissIsKey(dictionary, key, i + 1);
          return key;
        }
        i := i + 1;
      }
      assert parts[..i] == parts;
      r := if cur.JString? then cur.s else key;
    }

    /** The lookup other modules see: a function of the current dictionary. */
    function Snapshot(): (u: UiStrings)
      reads this
      ensures u.currentLang == currentLang
      ensures forall k :: u.lookup(k) == Translate(dictionary, k)
    {
      var d := dictionary;
      UiStrings(k => Translate(d, k), currentLang)
    }
  }
}
