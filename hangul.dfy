/**
 * The Hangul drill (`js/hangul-learning.js`): three character lists, a mode
 * that picks one of them, and an index moved by next/prev within its bounds.
 */
module Hangul {
  import opened Wrappers
  import opened WordData

  /** `getPath(type)`: the Korean data file, or the language's own locale file. */
  function GetPath(lang: string, kind: string): string
  {
    if lang == "ko" then "data/" + kind + ".json"
    else "locales/" + lang + "/" + lang + "_" + kind + ".json"
  }

  /** Different data kinds of one language never share a file. */
  lemma {:induction false} GetPathInjective(lang: string, kind1: string, kind2: string)
    requires GetPath(lang, kind1) == GetPath(lang, kind2)
    ensures kind1 == kind2
  {
    var pre := if lang == "ko" then "data/" else "locales/" + lang + "/" + lang + "_";
    var p1, p2 := GetPath(lang, kind1), GetPath(lang, kind2);
    assert p1 == pre + kind1 + ".json" && p2 == pre + kind2 + ".json";
    assert |kind1| == |kind2|;
    assert kind1 == p1[|pre|..|pre| + |kind1|];
    assert kind2 == p2[|pre|..|pre| + |kind2|];
  }

  /** The Korean files live under `data/`, the others under `locales/<lang>/`. */
  lemma GetPathLocation(lang: string, kind: string)
    ensures lang == "ko" ==> GetPath(lang, kind)[..5] == "data/"
    ensures lang != "ko" ==> GetPath(lang, kind)[..8 + |lang| + 1] == "locales/" + lang + "/"
  {
  }

  /** The placeholder lists `loadData` falls back to when a file cannot be loaded. */
  const FallbackConsonants: seq<Record> := [map["char" := "ㄱ", "name" := "Giyeok", "romanization" := "g"]]
  const FallbackVowels: seq<Record> := [map["char" := "ㅏ", "name" := "A", "romanization" := "a"]]
  const FallbackFinals: seq<Record> := [map["char" := "ㄱ", "name" := "giyeok", "romanization" := "g"]]

  /** The Hangul drill singleton. */
  class HangulLearning {
    var consonants: seq<Record>
    var vowels: seq<Record>
    var finals: seq<Record>
    var currentIndex: int
    var mode: string

    constructor ()
      ensures consonants == [] && vowels == [] && finals == []
      ensures currentIndex == 0 && mode == "consonants"
      ensures Valid()
    {
      consonants, vowels, finals := [], [], [];
      currentIndex, mode := 0, "consonants";
    }

    /** `getCurrentCharacters()`: the list for the mode; any unknown mode shows the consonants. */
    function GetCurrentCharacters(): (cs: seq<Record>)
      reads this
      ensures mode == "vowels" ==> cs == vowels
      ensures mode == "finals" ==> cs == finals
      ensures mode != "vowels" && mode != "finals" ==> cs == consonants
    {
      if mode == "vowels" then vowels
      else if mode == "finals" then finals
      else consonants
    }

    /** The index is within `[0, max(len - 1, 0)]` for the current list. */
    ghost predicate Valid()
      reads this
    {
      0 <= currentIndex && (currentIndex == 0 || currentIndex < |GetCurrentCharacters()|)
    }

    /** `getCurrentCharacter()`: the character at the index, or null when out of range. */
    function GetCurrentCharacter(): (c: Option<Record>)
      reads this
      ensures c.Some? <==> 0 <= currentIndex < |GetCurrentCharacters()|
      ensures c.Some? ==> c.value == GetCurrentCharacters()[currentIndex]
    {
      var cs := GetCurrentCharacters();
      if 0 <= currentIndex < |cs| then Some(cs[currentIndex]) else None
    }

    /**
     * `loadData()` given the three parsed files (None when one could not be
     * loaded). Any failure replaces all three lists by the placeholders.
     * The index is left as it was, so a reload to shorter lists may leave it
     * out of range; only `SetMode` brings it back to 0.
     */
    method LoadData(consonantsDoc: Option<seq<Record>>, vowelsDoc: Option<seq<Record>>, finalsDoc: Option<seq<Record>>)
      modifies this`consonants, this`vowels, this`finals
      ensures consonantsDoc.Some? && vowelsDoc.Some? && finalsDoc.Some? ==>
        consonants == consonantsDoc.value && vowels == vowelsDoc.value && finals == finalsDoc.value
      ensures !(consonantsDoc.Some? && vowelsDoc.Some? && finalsDoc.Some?) ==>
        consonants == FallbackConsonants && vowels == FallbackVowels && finals == FallbackFinals
    {
      if consonantsDoc.Some? && vowelsDoc.Some? && finalsDoc.Some? {
        consonants := consonantsDoc.value;
        vowels := vowelsDoc.value;
        finals := finalsDoc.value;
      } else {
        consonants := FallbackConsonants;
        vowels := FallbackVowels;
        finals := FallbackFinals;
      }
    }

    /** `setMode(mode)`: switch lists and go back to the first character. */
    method SetMode(newMode: string)
      modifies this`mode, this`currentIndex
      ensures mode == newMode && currentIndex == 0
      ensures Valid()
    {
      mode := newMode;
      currentIndex := 0;
    }

    /** `next()`: advance unless at the last character (or the list is empty). */
    method Next()
      requires Valid()
      modifies this`currentIndex
      ensures Valid()
      ensures old(currentIndex) < |GetCurrentCharacters()| - 1 ==> currentIndex == old(currentIndex) + 1
      ensures old(currentIndex) >= |GetCurrentCharacters()| - 1 ==> currentIndex == old(currentIndex)
    {
      var characters := GetCurrentCharacters();
      if currentIndex < |characters| - 1 {
        currentIndex := currentIndex + 1;
      }
    }

    /** `prev()`: go back unless at the first character. */
    method Prev()
      requires Valid()
      modifies this`currentIndex
      ensures Valid()
      ensures old(currentIndex) > 0 ==> currentIndex == old(currentIndex) - 1
      ensures old(currentIndex) <= 0 ==> currentIndex == old(currentIndex)
    {
      if currentIndex > 0 {
        currentIndex := currentIndex - 1;
      }
    }
  }
}
