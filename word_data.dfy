/**
 * Vocabulary records as the word lists deliver them, and the meaning
 * normalisation that `js/flashcard.js` and `js/vocabulary-learning.js` both
 * apply when loading a list.
 */
module WordData {
  import opened Wrappers

  /** A parsed word record: its string-valued fields. An absent field reads as "". */
  type Record = map<string, string>

  /** `item[k]`, with "" for an absent field. */
  function Field(r: Record, k: string): string
  {
    if k in r then r[k] else ""
  }

  /** The record field that holds the meaning in each supported language. */
  const LangKeyMap: map<string, string> := map[
    "en" := "English", "ja" := "Japanese", "zh" := "Chinese", "ru" := "Russian",
    "es" := "Spanish", "fr" := "French", "it" := "Italian", "de" := "German",
    "th" := "Thai", "pt" := "Portuguese", "nl" := "Dutch"]

  /** `langKeyMap[currentLang] || 'english'`. */
  function TargetKey(lang: string): (k: string)
    ensures lang in LangKeyMap ==> k == LangKeyMap[lang]
    ensures lang !in LangKeyMap ==> k == "english"
  {
    if lang in LangKeyMap then LangKeyMap[lang] else "english"
  }

  /** The first non-empty field of `r` among `keys`, in order, or "" when all are empty. */
  function FirstNonEmpty(r: Record, keys: seq<string>): (v: string)
    ensures v == "" <==> forall i :: 0 <= i < |keys| ==> Field(r, keys[i]) == ""
    ensures v != "" ==> exists i :: 0 <= i < |keys| && v == Field(r, keys[i]) &&
                                    forall j :: 0 <= j < i ==> Field(r, keys[j]) == ""
  {
    if keys == [] then ""
    else if Field(r, keys[0]) != "" then Field(r, keys[0])
    else
      var v := FirstNonEmpty(r, keys[1..]);
      assert v != "" ==> exists i :: 0 <= i < |keys| && v == Field(r, keys[i]) &&
                                     forall j :: 0 <= j < i ==> Field(r, keys[j]) == "" by {
        if v != "" {
          var i :| 0 <= i < |keys[1..]| && v == Field(r, keys[1..][i]) &&
                   forall j :: 0 <= j < i ==> Field(r, keys[1..][j]) == "";
          assert forall j :: 0 <= j < i + 1 ==> Field(r, keys[j]) == "";
        }
      }
      v
  }

  /** `item[targetKey] || item.English || item.english || item.Japanese || ''`. */
  function Meaning(item: Record, lang: string): string
  {
    var t := Field(item, TargetKey(lang));
    if t != "" then t
    else if Field(item, "English") != "" then Field(item, "English")
    else if Field(item, "english") != "" then Field(item, "english")
    else Field(item, "Japanese")
  }

  /** The meaning is the first non-empty of the target-language field, English, english, Japanese; else "". */
  lemma MeaningIsFirstNonEmpty(item: Record, lang: string)
    ensures Meaning(item, lang) == FirstNonEmpty(item, [TargetKey(lang), "English", "english", "Japanese"])
  {
    var k3: seq<string> := ["Japanese"];
    var k2: seq<string> := ["english"] + k3;
    var k1: seq<string> := ["English"] + k2;
    var k0: seq<string> := [TargetKey(lang)] + k1;
    assert k3[1..] == [] && k2[1..] == k3 && k1[1..] == k2 && k0[1..] == k1;
    assert FirstNonEmpty(item, k3) == Field(item, "Japanese");
    assert FirstNonEmpty(item, k2) == if Field(item, "english") != "" then Field(item, "english") else Field(item, "Japanese");
    assert k0 == [TargetKey(lang), "English", "english", "Japanese"];
  }

  /** `{...item, meaning: Meaning(item)}`: every other field is kept. */
  function NormalizeWord(item: Record, lang: string): (w: Record)
    ensures Field(w, "meaning") == Meaning(item, lang)
    ensures forall k :: k != "meaning" ==> Field(w, k) == Field(item, k)
  {
    item["meaning" := Meaning(item, lang)]
  }

  /**
   * The loaded word list: every record of the parsed document normalised, in
   * order; an empty list when the document could not be loaded or parsed.
   */
  function LoadWords(raw: Option<seq<Record>>, lang: string): (ws: seq<Record>)
    ensures raw.None? ==> ws == []
    ensures raw.Some? ==> |ws| == |raw.value| &&
                          forall i :: 0 <= i < |ws| ==> ws[i] == NormalizeWord(raw.value[i], lang)
  {
    match raw
    case None => []
    case Some(items) => seq(|items|, i requires 0 <= i < |items| => NormalizeWord(items[i], lang))
  }
}
