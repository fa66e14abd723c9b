/**
 * The flashcard session (`js/flashcard.js`): a word list, a session drawn
 * from it (capped, optionally shuffled), the current card and its face, and
 * the known/unknown counters with the progress line built from them.
 */
module FlashcardSession {
  import opened Wrappers
  import JsText
  import opened WordData
  import opened I18nDictionary

  /** `getLabel(key, fallback)`: the translation of `key` when `I18n` exists and it is a non-empty hit. */
  function GetLabel(ui: Option<UiStrings>, key: string, fallback: string): (r: string)
    ensures r == fallback || (ui.Some? && r == ui.value.lookup(key) && r != "" && r != key)
    ensures ui.None? ==> r == fallback
    ensures ui.Some? && ui.value.lookup(key) != "" && ui.value.lookup(key) != key ==> r == ui.value.lookup(key)
  {
    match ui
    case None => fallback
    case Some(u) =>
      var value := u.lookup(key);
      if value != "" && value != key then value else fallback
  }

  /** JavaScript `arr.slice(0, end)` length: a negative end counts from the back. */
  function SliceEnd(len: nat, end: int): (k: nat)
    ensures k <= len
    ensures end >= 0 ==> k == if end < len then end else len
    ensures end < 0 ==> k == if len + end > 0 then len + end else 0
  {
    if end < 0 then (if len + end > 0 then len + end else 0)
    else if end < len then end else len
  }

  /**
   * `ws` is a session drawn from `all`: empty for an empty list; otherwise
   * `slice(0, size)` of `all` or, when shuffling, of a permutation of `all`.
   */
  ghost predicate IsSession(ws: seq<Record>, all: seq<Record>, size: int, shuffle: bool)
  {
    if |all| == 0 then ws == []
    else
      && |ws| == SliceEnd(|all|, size)
      && multiset(ws) <= multiset(all)
      && (!shuffle ==> ws == all[..SliceEnd(|all|, size)])
  }

  /**
   * `shuffleArray(arr)`: a Fisher-Yates shuffle of a copy of `arr`. The random
   * index of each step is an arbitrary `j` with `0 <= j <= i`; whatever the
   * draws, the result is a permutation of the input.
   */
  method ShuffleArray(arr: seq<Record>) returns (shuffled: seq<Record>)
    ensures |shuffled| == |arr|
    ensures multiset(shuffled) == multiset(arr)
  {
    var a := new Record[|arr|](k => if 0 <= k < |arr| then arr[k] else map[]);
    assert a[..] == arr;
    var i := a.Length - 1;
    while i > 0
      invariant -1 <= i < a.Length
      invariant multiset(a[..]) == multiset(arr)
    {
      var j :| 0 <= j <= i;
      a[i], a[j] := a[j], a[i];
      i := i - 1;
    }
    shuffled := a[..];
  }

  /** The corrected progress template: the current key, else the legacy key's label with the numbers appended. */
  function ProgressTemplate(ui: Option<UiStrings>): (r: string)
    ensures r == GetLabel(ui, "flashcard.progress.label", "flashcard.progress.label") ||
            r == GetLabel(ui, "flashcard.progress", "진행도") + ": {done} / {total}"
  {
    var current := GetLabel(ui, "flashcard.progress.label", "flashcard.progress.label");
    if current != "flashcard.progress.label" then current
    else GetLabel(ui, "flashcard.progress", "진행도") + ": {done} / {total}"
  }

  /**
   * The progress template exactly as `updateProgress` computes it. The legacy
   * branch compares the label with its own key, which `getLabel` never
   * returns here because its fallback differs from the key.
   */
  function ProgressTemplateAsWritten(ui: Option<UiStrings>): (r: string)
    ensures r == GetLabel(ui, "flashcard.progress.label", "진행도: {done} / {total}")
  {
    var labelTemplate := GetLabel(ui, "flashcard.progress.label", "진행도: {done} / {total}");
    if labelTemplate == "flashcard.progress.label" then
      GetLabel(ui, "flashcard.progress", "진행도") + ": {done} / {total}"
    else labelTemplate
  }

  /** A dictionary that has only the legacy key: as written the Korean default shows; corrected, the legacy label. */
  lemma {:induction false} LegacyKeyCounterexample()
    ensures var ui := Some(UiStrings(k => if k == "flashcard.progress" then "Progress" else k, "en"));
      && ProgressTemplateAsWritten(ui) == "진행도: {done} / {total}"
      && ProgressTemplate(ui) == "Progress: {done} / {total}"
  {
    var ui := Some(UiStrings(k => if k == "flashcard.progress" then "Progress" else k, "en"));
    assert ui.value.lookup("flashcard.progress.label") == "flashcard.progress.label";
    assert ui.value.lookup("flashcard.progress") == "Progress";
    assert GetLabel(ui, "flashcard.progress.label", "진행도: {done} / {total}") == "진행도: {done} / {total}";
    assert GetLabel(ui, "flashcard.progress.label", "flashcard.progress.label") == "flashcard.progress.label";
    assert GetLabel(ui, "flashcard.progress", "진행도") == "Progress";
  }

  /**
   * The corrected template agrees with the one as written whenever the current
   * key has a translation or the legacy key has none, and otherwise shows the
   * legacy label.
   */
  lemma ProgressTemplateCorrected(ui: Option<UiStrings>)
    ensures GetLabel(ui, "flashcard.progress.label", "") != "" ==>
      ProgressTemplate(ui) == ProgressTemplateAsWritten(ui)
    ensures GetLabel(ui, "flashcard.progress", "") == "" ==>
      ProgressTemplate(ui) == ProgressTemplateAsWritten(ui)
    ensures GetLabel(ui, "flashcard.progress.label", "") == "" ==>
      ProgressTemplate(ui) == GetLabel(ui, "flashcard.progress", "진행도") + ": {done} / {total}"
  {
  }

  /** The progress line: the first `{done}` becomes `done`, then the first `{total}` becomes `total`. */
  function ProgressLine(template: string, done: nat, total: nat): string
  {
    JsText.ReplaceFirst(JsText.ReplaceFirst(template, "{done}", JsText.NatToString(done)), "{total}", JsText.NatToString(total))
  }

  /** A template without placeholders is shown as it is. */
  lemma ProgressLineNoPlaceholders(template: string, done: nat, total: nat)
    requires forall j :: 0 <= j <= |template| ==> !JsText.OccursAt(template, "{done}", j) && !JsText.OccursAt(template, "{total}", j)
    ensures ProgressLine(template, done, total) == template
  {
    JsText.ReplaceFirstAbsent(template, "{done}", JsText.NatToString(done));
    JsText.ReplaceFirstAbsent(template, "{total}", JsText.NatToString(total));
  }

  /** Two first-occurrence replacements in a row, the second pattern absent before its place. */
  lemma ReplaceTwice(prefix: string, p1: string, middle: string, p2: string, rest: string, r1: string, r2: string)
    requires |p1| > 0 && |p2| > 0
    requires p1[0] !in prefix && p2[0] !in prefix && p2[0] !in r1 && p2[0] !in middle
    ensures JsText.ReplaceFirst(JsText.ReplaceFirst(prefix + p1 + middle + p2 + rest, p1, r1), p2, r2)
         == prefix + r1 + middle + r2 + rest
  {
    var tail := middle + p2 + rest;
    var pre2 := prefix + r1 + middle;
    assert prefix + p1 + middle + p2 + rest == prefix + p1 + tail;
    JsText.ReplaceAfterPlainPrefix(prefix, p1, tail, r1);
    assert prefix + r1 + tail == pre2 + p2 + rest;
    JsText.ReplaceAfterPlainPrefix(pre2, p2, rest, r2);
  }

  /**
   * Only the first occurrence of each placeholder is substituted: whatever
   * follows the first `{total}`, later placeholders included, is left as it is.
   */
  lemma {:induction false} ProgressLineFirstOnly(prefix: string, middle: string, rest: string, done: nat, total: nat)
    requires '{' !in prefix && '{' !in middle
    ensures ProgressLine(prefix + "{done}" + middle + "{total}" + rest, done, total)
         == prefix + JsText.NatToString(done) + middle + JsText.NatToString(total) + rest
  {
    var d := JsText.NatToString(done);
    assert '{' !in d;
    ReplaceTwice(prefix, "{done}", middle, "{total}", rest, d, JsText.NatToString(total));
  }

  /** With no dictionary the progress line reads `진행도: <done> / <total>`. */
  lemma {:induction false} DefaultProgressLine(template: string, done: nat, total: nat)
    requires template == "진행도: {done} / {total}"
    ensures ProgressLine(template, done, total)
         == "진행도: " + JsText.NatToString(done) + " / " + JsText.NatToString(total)
  {
    assert template == "진행도: " + "{done}" + " / " + "{total}" + "";
    ProgressLineFirstOnly("진행도: ", " / ", "", done, total);
  }

  /** The flashcard singleton. */
  class Flashcard {
    var allWords: seq<Record>
    var words: seq<Record>
    var currentIndex: int
    var isFlipped: bool
    var knownCount: nat
    var unknownCount: nat
    var sessionSize: int
    var useShuffled: bool

    /** The index points at a card, or is 0 for an empty session. */
    ghost predicate Valid()
      reads this
    {
      0 <= currentIndex && (currentIndex == 0 || currentIndex < |words|)
    }

    constructor ()
      ensures allWords == [] && words == [] && currentIndex == 0 && !isFlipped
      ensures knownCount == 0 && unknownCount == 0 && sessionSize == 50 && useShuffled
      ensures Valid()
    {
      allWords, words := [], [];
      currentIndex, isFlipped := 0, false;
      knownCount, unknownCount := 0, 0;
      sessionSize, useShuffled := 50, true;
    }

    /** `loadData` for the parsed word list of language `lang` (None when it could not be loaded). */
    method LoadData(raw: Option<seq<Record>>, lang: string)
      modifies this`allWords
      ensures allWords == LoadWords(raw, lang)
    {
      allWords := LoadWords(raw, lang);
    }

    /** `setupSession()`. */
    method SetupSession()
      modifies this`words
      ensures IsSession(words, allWords, sessionSize, useShuffled)
    {
      if |allWords| == 0 {
        words := [];
        return;
      }
      var sessionWords := allWords;
      if useShuffled {
        sessionWords := ShuffleArray(sessionWords);
      }
      var k := SliceEnd(|sessionWords|, sessionSize);
      words := sessionWords[..k];
      assert sessionWords == words + sessionWords[k..];
    }

    /** `getCurrentWord()`: the card at the index, or null when the index is out of range. */
    function GetCurrentWord(): (w: Option<Record>)
      reads this
      ensures w.Some? <==> 0 <= currentIndex < |words|
      ensures w.Some? ==> w.value == words[currentIndex]
    {
      if 0 <= currentIndex < |words| then Some(words[currentIndex]) else None
    }

    /** `flip()`: turn the card over. */
    method Flip()
      modifies this`isFlipped
      ensures isFlipped == !old(isFlipped)
    {
      isFlipped := !isFlipped;
    }

    /** `nextCard()`: advance and show the front, unless this is the last card. */
    method NextCard()
      requires Valid()
      modifies this`currentIndex, this`isFlipped
      ensures Valid()
      ensures old(currentIndex) < |words| - 1 ==> currentIndex == old(currentIndex) + 1 && !isFlipped
      ensures old(currentIndex) >= |words| - 1 ==> currentIndex == old(currentIndex) && isFlipped == old(isFlipped)
    {
      if currentIndex < |words| - 1 {
        currentIndex := currentIndex + 1;
        isFlipped := false;
      }
    }

    /** `markAsKnown()`. */
    method MarkAsKnown()
      requires Valid()
      modifies this`knownCount, this`currentIndex, this`isFlipped
      ensures Valid()
      ensures knownCount == old(knownCount) + 1
      ensures old(currentIndex) < |words| - 1 ==> currentIndex == old(currentIndex) + 1 && !isFlipped
      ensures old(currentIndex) >= |words| - 1 ==> currentIndex == old(currentIndex) && isFlipped == old(isFlipped)
    {
      knownCount := knownCount + 1;
      NextCard();
    }

    /** `markAsUnknown()`. */
    method MarkAsUnknown()
      requires Valid()
      modifies this`unknownCount, this`currentIndex, this`isFlipped
      ensures Valid()
      ensures unknownCount == old(unknownCount) + 1
      ensures old(currentIndex) < |words| - 1 ==> currentIndex == old(currentIndex) + 1 && !isFlipped
      ensures old(currentIndex) >= |words| - 1 ==> currentIndex == old(currentIndex) && isFlipped == old(isFlipped)
    {
      unknownCount := unknownCount + 1;
      NextCard();
    }

    /** `resetProgress()`. */
    method ResetProgress()
      modifies this`currentIndex, this`isFlipped, this`knownCount, this`unknownCount
      ensures currentIndex == 0 && !isFlipped && knownCount == 0 && unknownCount == 0
      ensures Valid()
    {
      currentIndex := 0;
      isFlipped := false;
      knownCount := 0;
      unknownCount := 0;
    }

    /** `restart()`: a new session and fresh progress. */
    method Restart()
      modifies this`words, this`currentIndex, this`isFlipped, this`knownCount, this`unknownCount
      ensures IsSession(words, allWords, sessionSize, useShuffled)
      ensures currentIndex == 0 && !isFlipped && knownCount == 0 && unknownCount == 0
      ensures Valid()
    {
      SetupSession();
      currentIndex := 0;
      isFlipped := false;
      knownCount := 0;
      unknownCount := 0;
    }

    /** `setSessionSize(size)`: store the size capped at the word count, then restart. */
    method SetSessionSize(size: int)
      modifies this`sessionSize, this`words, this`currentIndex, this`isFlipped, this`knownCount, this`unknownCount
      ensures sessionSize == if size < |allWords| then size else |allWords|
      ensures IsSession(words, allWords, sessionSize, useShuffled)
      ensures currentIndex == 0 && !isFlipped && knownCount == 0 && unknownCount == 0
    {
      sessionSize := if size < |allWords| then size else |allWords|;
      Restart();
    }

    /** `toggleShuffle()`: flip the shuffle setting, then restart. */
    method ToggleShuffle()
      modifies this`useShuffled, this`words, this`currentIndex, this`isFlipped, this`knownCount, this`unknownCount
      ensures useShuffled == !old(useShuffled)
      ensures IsSession(words, allWords, sessionSize, useShuffled)
      ensures currentIndex == 0 && !isFlipped && knownCount == 0 && unknownCount == 0
    {
      useShuffled := !useShuffled;
      Restart();
    }

    /** The text `updateProgress()` shows, exactly as written: answered cards over session size. */
    function ProgressText(ui: Option<UiStrings>): (t: string)
      reads this
      ensures t == ProgressLine(GetLabel(ui, "flashcard.progress.label", "진행도: {done} / {total}"), knownCount + unknownCount, |words|)
      ensures ui.None? ==> t == "진행도: " + JsText.NatToString(knownCount + unknownCount) + " / " + JsText.NatToString(|words|)
    {
      var template := ProgressTemplateAsWritten(ui);
      if ui.None? then
        DefaultProgressLine(template, knownCount + unknownCount, |words|);
        ProgressLine(template, knownCount + unknownCount, |words|)
      else ProgressLine(template, knownCount + unknownCount, |words|)
    }

    /**
     * The progress text with the legacy-key fallback working as its comment
     * intends (see `ProgressTemplate`); it differs from `ProgressText` only
     * when the current key has no translation and the legacy key has one.
     */
    function ProgressTextCorrected(ui: Option<UiStrings>): (t: string)
      reads this
      ensures GetLabel(ui, "flashcard.progress.label", "") != "" ==> t == ProgressText(ui)
      ensures GetLabel(ui, "flashcard.progress", "") == "" ==> t == ProgressText(ui)
      ensures GetLabel(ui, "flashcard.progress.label", "") == "" ==>
        t == ProgressLine(GetLabel(ui, "flashcard.progress", "진행도") + ": {done} / {total}", knownCount + unknownCount, |words|)
    {
      var corrected := ProgressTemplate(ui);
      ProgressTemplateCorrected(ui);
      assert ProgressText(ui) == ProgressLine(ProgressTemplateAsWritten(ui), knownCount + unknownCount, |words|);
      ProgressLine(corrected, knownCount + unknownCount, |words|)
    }
  }
}
