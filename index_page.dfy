/**
 * The translator page of the front end: the text box, the chosen source
 * language, the current translation and the history of translations, and
 * the handlers that change them. The translation itself is a fixed
 * per-language template around the input.
 */
module IndexPage {
  import opened Text
  import opened TranslationHistory

  /** The languages the selector offers. */
  datatype SourceLanguage = English | Russian | Chinese | Spanish

  /** `getLanguageLabel`: its table has no entry for Spanish, so the lookup is undefined there. */
  function LanguageLabel(lang: SourceLanguage): (r: Option<string>)
    ensures r.None? <==> lang == Spanish
  {
    match lang
    case English => Some("English")
    case Russian => Some("Russian")
    case Chinese => Some("Chinese")
    case Spanish => None
  }

  /** Distinct languages have distinct labels. */
  lemma LabelInjective(a: SourceLanguage, b: SourceLanguage)
    requires LanguageLabel(a).Some? && LanguageLabel(a) == LanguageLabel(b)
    ensures a == b
  {
  }

  /** "Translation of the text from the language …": the common head of every template. */
  const TemplateHead := "Тарчумаи матн аз забони "

  /** The Tajik name of a language in the template table; Spanish has none. */
  function LanguageWord(lang: SourceLanguage): Option<string> {
    match lang
    case English => Some("англисӣ")
    case Russian => Some("русӣ")
    case Chinese => Some("хитоӣ")
    case Spanish => None
  }

  /**
   * The demo translation of `input`: the head, the language's name, a colon
   * and the input in double quotes, or undefined for Spanish.
   */
  function Template(lang: SourceLanguage, input: string): (r: Option<string>)
    ensures r.None? <==> lang == Spanish
    ensures r.Some? ==> |TemplateHead| + |input| + 2 < |r.value|
    ensures r.Some? ==> r.value[..|TemplateHead|] == TemplateHead
    ensures r.Some? ==> r.value[|r.value| - |input| - 1..] == input + "\""
  {
    match LanguageWord(lang)
    case None => None
    case Some(word) =>
      var t := TemplateHead + word + ": \"" + input + "\"";
      assert t[..|TemplateHead|] == TemplateHead;
      assert t[|t| - |input| - 1..] == input + "\"";
      Some(t)
  }

  /** The template keeps language and input recoverable: two equal translations come from the same language and the same input. */
  lemma TemplateInjective(a: SourceLanguage, x: string, b: SourceLanguage, y: string)
    requires Template(a, x).Some? && Template(a, x) == Template(b, y)
    ensures a == b && x == y
  {
    var t := Template(a, x).value;
    var n := |TemplateHead|;
    assert t[n] == LanguageWord(a).value[0];
    assert t[n] == LanguageWord(b).value[0];
    assert a == b;
    assert |x| == |y|;
    assert t[|t| - |x| - 1..] == x + "\"";
    assert t[|t| - |y| - 1..] == y + "\"";
    assert x == (x + "\"")[..|x|];
  }

  /** The translation on display. Text and label are absent when the page has no entry for the language. */
  datatype Translation = Translation(sourceText: string, translatedText: Option<string>, sourceLanguage: Option<string>)

  /** The page's whole state, field for field. */
  datatype PageState = PageState(
    isListening: bool,
    sourceLanguage: SourceLanguage,
    inputText: string,
    hasTranslated: bool,
    currentTranslation: Translation,
    translationHistory: seq<HistoryItem>)

  /** Every item with `isActive` cleared (`prev.map(n => ({ ...n, isActive: false }))`). */
  function Deactivated(items: seq<HistoryItem>): (r: seq<HistoryItem>)
    ensures |r| == |items|
    ensures forall i :: 0 <= i < |items| ==> r[i] == items[i].(isActive := false)
  {
    seq(|items|, i requires 0 <= i < |items| => items[i].(isActive := false))
  }

  /** Every item with `isActive` set exactly when its id is `id`. */
  function Selected(items: seq<HistoryItem>, id: int): (r: seq<HistoryItem>)
    ensures |r| == |items|
    ensures forall i :: 0 <= i < |items| ==> r[i] == items[i].(isActive := items[i].id == id)
  {
    seq(|items|, i requires 0 <= i < |items| => items[i].(isActive := items[i].id == id))
  }

  /** `Array.prototype.find` by id: the index of the first item with that id. */
  function FirstWithId(items: seq<HistoryItem>, id: int): (r: Option<nat>)
    ensures r.Some? ==>
      (r.value < |items| && items[r.value].id == id && forall j :: 0 <= j < r.value ==> items[j].id != id)
    ensures r.None? ==> forall j :: 0 <= j < |items| ==> items[j].id != id
  {
    if items == [] then None
    else if items[0].id == id then Some(0)
    else match FirstWithId(items[1..], id)
      case None => None
      case Some(k) => Some(k + 1)
  }

  /**
   * `handleTranslate` with `idClock` and `stampClock` the two `Date.now()`
   * readings it takes (one for the id, one for the timestamp).
   */
  function Translated(st: PageState, idClock: int, stampClock: int): PageState {
    if Strip(JavaScript, st.inputText) == [] then st
    else
      var t := Translation(st.inputText, Template(st.sourceLanguage, st.inputText), LanguageLabel(st.sourceLanguage));
      var item := HistoryItem(idClock, t.sourceText, t.translatedText, t.sourceLanguage, stampClock, true);
      st.(currentTranslation := t, hasTranslated := true,
          translationHistory := Deactivated(st.translationHistory) + [item], inputText := [])
  }

  /** `handleHistoryClick(id)`. */
  function HistoryClicked(st: PageState, id: int): PageState {
    match FirstWithId(st.translationHistory, id)
    case None => st
    case Some(k) =>
      var item := st.translationHistory[k];
      st.(currentTranslation := Translation(item.sourceText, item.translatedText, item.sourceLanguage),
          translationHistory := Selected(st.translationHistory, id))
  }

  /** Input that is blank once trimmed changes nothing at all. */
  lemma BlankInputIgnored(st: PageState, idClock: int, stampClock: int)
    requires IsBlank(JavaScript, st.inputText)
    ensures Translated(st, idClock, stampClock) == st
  {
  }

  /**
   * Translating other input: the template and label of the chosen language
   * around the untrimmed input become the current translation; the history
   * grows by exactly that translation at the end, as the only active item,
   * while earlier items keep every other field; the input is cleared and
   * `hasTranslated` set.
   */
  lemma TranslateAppends(st: PageState, idClock: int, stampClock: int)
    requires !IsBlank(JavaScript, st.inputText)
    ensures var r := Translated(st, idClock, stampClock);
      var h, h' := st.translationHistory, r.translationHistory;
      && r.currentTranslation.sourceText == st.inputText
      && r.currentTranslation.translatedText == Template(st.sourceLanguage, st.inputText)
      && r.currentTranslation.sourceLanguage == LanguageLabel(st.sourceLanguage)
      && |h'| == |h| + 1
      && h'[|h|] == HistoryItem(idClock, st.inputText, r.currentTranslation.translatedText,
                                r.currentTranslation.sourceLanguage, stampClock, true)
      && (forall i :: 0 <= i < |h| ==> h'[i].(isActive := h[i].isActive) == h[i])
      && OnlyActive(h', |h|)
      && r.inputText == [] && r.hasTranslated
      && r.isListening == st.isListening && r.sourceLanguage == st.sourceLanguage
  {
  }

  /**
   * Clicking a history entry: an absent id changes nothing; a present one
   * shows the first item with that id and marks active exactly the items
   * with that id.
   */
  lemma ClickSelects(st: PageState, id: int)
    ensures var r := HistoryClicked(st, id);
      var h, h' := st.translationHistory, r.translationHistory;
      && ((forall i :: 0 <= i < |h| ==> h[i].id != id) ==> r == st)
      && (forall k :: 0 <= k < |h| && h[k].id == id && (forall j :: 0 <= j < k ==> h[j].id != id) ==>
            r.currentTranslation == Translation(h[k].sourceText, h[k].translatedText, h[k].sourceLanguage))
      && (|h'| == |h|)
      && (forall i :: 0 <= i < |h| ==> h'[i].(isActive := h[i].isActive) == h[i])
      && ((exists i :: 0 <= i < |h| && h[i].id == id) ==>
            forall i :: 0 <= i < |h| ==> (h'[i].isActive <==> h[i].id == id))
      && r.inputText == st.inputText && r.hasTranslated == st.hasTranslated
      && r.isListening == st.isListening && r.sourceLanguage == st.sourceLanguage
  {
    var h := st.translationHistory;
    match FirstWithId(h, id)
    case None =>
    case Some(k) =>
      forall k' | 0 <= k' < |h| && h[k'].id == id && (forall j :: 0 <= j < k' ==> h[j].id != id)
        ensures k' == k
      {
      }
  }

  /** With unique ids, clicking a present id leaves exactly one active item: the clicked one. */
  lemma ClickLeavesOneActive(st: PageState, k: int)
    requires UniqueIds(st.translationHistory)
    requires 0 <= k < |st.translationHistory|
    ensures OnlyActive(HistoryClicked(st, st.translationHistory[k].id).translationHistory, k)
  {
    ClickSelects(st, st.translationHistory[k].id);
  }

  /**
   * Two items with the same id (two translations within one millisecond)
   * are both active after clicking that id.
   */
  lemma DuplicateIdsBothActive(st: PageState, i: int, j: int)
    requires 0 <= i < j < |st.translationHistory|
    requires st.translationHistory[i].id == st.translationHistory[j].id
    ensures var h' := HistoryClicked(st, st.translationHistory[i].id).translationHistory;
      h'[i].isActive && h'[j].isActive
  {
    ClickSelects(st, st.translationHistory[i].id);
  }

  /**
   * What the page keeps true when the clock strictly increases between
   * translations: ids are strictly increasing along the history, all below
   * the clock, and at most one item is active.
   */
  predicate Good(st: PageState, clock: int) {
    && (forall i, j :: 0 <= i < j < |st.translationHistory| ==>
          st.translationHistory[i].id < st.translationHistory[j].id)
    && (forall i :: 0 <= i < |st.translationHistory| ==> st.translationHistory[i].id < clock)
    && (forall i, j ::
          (0 <= i < |st.translationHistory| && 0 <= j < |st.translationHistory|
           && st.translationHistory[i].isActive && st.translationHistory[j].isActive) ==> i == j)
  }

  lemma GoodIdsUnique(st: PageState, clock: int)
    requires Good(st, clock)
    ensures UniqueIds(st.translationHistory)
  {
  }

  /** Translating with a clock reading not below the bound keeps `Good`, with the bound moved past the new id. */
  lemma TranslateKeepsGood(st: PageState, clock: int, idClock: int, stampClock: int)
    requires Good(st, clock) && clock <= idClock
    ensures Good(Translated(st, idClock, stampClock), idClock + 1)
  {
    if !IsBlank(JavaScript, st.inputText) {
      TranslateAppends(st, idClock, stampClock);
    }
  }

  /** Clicking any id keeps `Good`. */
  lemma ClickKeepsGood(st: PageState, clock: int, id: int)
    requires Good(st, clock)
    ensures Good(HistoryClicked(st, id), clock)
  {
    ClickSelects(st, id);
    GoodIdsUnique(st, clock);
  }

  /** History order never changes and no item is ever dropped: only `isActive` can differ on old items. */
  lemma HistoryOnlyGrows(st: PageState, idClock: int, stampClock: int, id: int)
    ensures var h, t := st.translationHistory, Translated(st, idClock, stampClock).translationHistory;
      |h| <= |t| && forall i :: 0 <= i < |h| ==> t[i].(isActive := h[i].isActive) == h[i]
    ensures var h, c := st.translationHistory, HistoryClicked(st, id).translationHistory;
      |h| == |c| && forall i :: 0 <= i < |h| ==> c[i].(isActive := h[i].isActive) == h[i]
  {
    if !IsBlank(JavaScript, st.inputText) {
      TranslateAppends(st, idClock, stampClock);
    }
    ClickSelects(st, id);
  }

  /** The page component: its state hooks as fields, its handlers as methods. */
  class Index {
    var isListening: bool
    var sourceLanguage: SourceLanguage
    var inputText: string
    var hasTranslated: bool
    var currentTranslation: Translation
    var translationHistory: seq<HistoryItem>

    function State(): PageState
      reads this
    {
      PageState(isListening, sourceLanguage, inputText, hasTranslated, currentTranslation, translationHistory)
    }

    /** The initial state: not listening, English, empty input and translation, no history. */
    constructor()
      ensures State() == PageState(false, English, [], false, Translation([], Some([]), Some([])), [])
    {
      isListening := false;
      sourceLanguage := English;
      inputText := [];
      hasTranslated := false;
      currentTranslation := Translation([], Some([]), Some([]));
      translationHistory := [];
    }

    /** `handleToggleMic`: flips `isListening`. */
    method ToggleMic()
      modifies this
      ensures State() == old(State()).(isListening := !old(isListening))
    {
      isListening := !isListening;
    }

    /** The text box's change handler. */
    method SetInputText(text: string)
      modifies this
      ensures State() == old(State()).(inputText := text)
    {
      inputText := text;
    }

    /** The language selector's change handler. */
    method SetSourceLanguage(lang: SourceLanguage)
      modifies this
      ensures State() == old(State()).(sourceLanguage := lang)
    {
      sourceLanguage := lang;
    }

    /** `handleTranslate`, reading the clock as `idClock` for the id and `stampClock` for the timestamp. */
    method HandleTranslate(idClock: int, stampClock: int)
      modifies this
      ensures State() == Translated(old(State()), idClock, stampClock)
    {
      if Strip(JavaScript, inputText) == [] {
        return;
      }
      var translation := Translation(inputText, Template(sourceLanguage, inputText), LanguageLabel(sourceLanguage));
      currentTranslation := translation;
      hasTranslated := true;
      var newItem := HistoryItem(idClock, translation.sourceText, translation.translatedText,
        translation.sourceLanguage, stampClock, true);
      translationHistory := Deactivated(translationHistory) + [newItem];
      inputText := [];
    }

    /** `handleKeyPress`: Enter without Shift translates; any other key does nothing. */
    method HandleKeyPress(key: string, shiftKey: bool, idClock: int, stampClock: int)
      modifies this
      ensures key == "Enter" && !shiftKey ==> State() == Translated(old(State()), idClock, stampClock)
      ensures !(key == "Enter" && !shiftKey) ==> State() == old(State())
    {
      if key == "Enter" && !shiftKey {
        HandleTranslate(idClock, stampClock);
      }
    }

    /** `handleHistoryClick(id)`. */
    method HandleHistoryClick(id: int)
      modifies this
      ensures State() == HistoryClicked(old(State()), id)
    {
      var found := FirstWithId(translationHistory, id);
      if found.Some? {
        var item := translationHistory[found.value];
        currentTranslation := Translation(item.sourceText, item.translatedText, item.sourceLanguage);
        translationHistory := Selected(translationHistory, id);
      }
    }
  }
}
