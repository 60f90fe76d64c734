/**
 * The progressive answer card stack of the front end: answer levels are
 * revealed one card at a time by a "Want to know more?" button, and the
 * sources card appears once every level is expanded. The only state is the
 * number `expandedLevel`.
 */
module ProgressiveAnswer {
  import opened Text

  datatype AnswerLevel = AnswerLevel(level: int, title: string, content: string)

  datatype Source = Source(title: string, url: string)

  /** `toggleLevel(level)` applied to the current `expandedLevel`. */
  function Toggled(expanded: int, level: int): (r: int)
    ensures r == level - 1 || r == level
    ensures r == level - 1 <==> expanded == level
  {
    if expanded == level then level - 1 else level
  }

  /** Toggling the same level twice: back at `level` when it started there, otherwise at `level - 1`. */
  lemma ToggleTwice(expanded: int, level: int)
    ensures Toggled(Toggled(expanded, level), level) == (if expanded == level then level else level - 1)
  {
  }

  /** A level's card is shown once `expandedLevel` has reached its number. */
  predicate IsExpanded(expanded: int, l: AnswerLevel) {
    expanded >= l.level
  }

  /** The level right after the expanded ones. */
  predicate IsCurrentLevel(expanded: int, l: AnswerLevel) {
    expanded == l.level - 1
  }

  /** The "more" button is rendered under the entry at `index` (never under the last entry). */
  predicate ShowsButton(expanded: int, levels: seq<AnswerLevel>, index: int) {
    0 <= index < |levels| && IsCurrentLevel(expanded, levels[index]) && index < |levels| - 1
  }

  /** The sources card: present, non-empty, and every level number up to the count expanded. */
  predicate ShowsSources(expanded: int, levels: seq<AnswerLevel>, sources: Option<seq<Source>>) {
    sources.Some? && |sources.value| > 0 && expanded >= |levels|
  }

  /** Level numbers are pairwise distinct (they are the list keys). */
  predicate DistinctLevels(levels: seq<AnswerLevel>) {
    forall i, j :: 0 <= i < j < |levels| ==> levels[i].level != levels[j].level
  }

  /** With distinct level numbers at most one button is on screen. */
  lemma AtMostOneButton(expanded: int, levels: seq<AnswerLevel>, i: int, j: int)
    requires DistinctLevels(levels)
    requires ShowsButton(expanded, levels, i) && ShowsButton(expanded, levels, j)
    ensures i == j
  {
  }

  /** The button under entry `index` calls `toggleLevel(level + 1)`, which raises `expandedLevel` by exactly 2. */
  lemma ClickRaisesByTwo(expanded: int, levels: seq<AnswerLevel>, index: int)
    requires ShowsButton(expanded, levels, index)
    ensures Toggled(expanded, levels[index].level + 1) == expanded + 2
  {
  }

  /** Levels numbered 1..N in list order. */
  predicate Numbered(levels: seq<AnswerLevel>) {
    forall i :: 0 <= i < |levels| ==> levels[i].level == i + 1
  }

  /**
   * The button as the code places it and the button as evidently intended
   * (`fixed`): under the last expanded level, i.e. the level equal to
   * `expandedLevel`, whenever a later level exists.
   */
  predicate Shows(fixed: bool, expanded: int, levels: seq<AnswerLevel>, index: int) {
    if fixed then ShowsButtonFixed(expanded, levels, index) else ShowsButton(expanded, levels, index)
  }

  predicate ShowsButtonFixed(expanded: int, levels: seq<AnswerLevel>, index: int) {
    0 <= index < |levels| - 1 && expanded == levels[index].level
  }

  /**
   * `expandedLevel` after clicking the buttons under the entries `clicks`,
   * in order, starting from the initial 1; None when some click hits an
   * entry that shows no button at that moment.
   */
  function Clicks(levels: seq<AnswerLevel>, clicks: seq<int>, fixed: bool): Option<int> {
    if clicks == [] then Some(1)
    else match Clicks(levels, clicks[..|clicks| - 1], fixed)
      case None => None
      case Some(e) =>
        var i := clicks[|clicks| - 1];
        if Shows(fixed, e, levels, i) then Some(Toggled(e, levels[i].level + 1)) else None
  }

  /** As written: every value reachable through the buttons is odd, and beyond 1 it never exceeds N. */
  lemma {:induction false} ReachedIsOdd(levels: seq<AnswerLevel>, clicks: seq<int>)
    requires Numbered(levels)
    requires Clicks(levels, clicks, false).Some?
    ensures Clicks(levels, clicks, false).value == 2 * |clicks| + 1
    ensures clicks != [] ==> Clicks(levels, clicks, false).value <= |levels|
  {
    if clicks != [] {
      ReachedIsOdd(levels, clicks[..|clicks| - 1]);
    }
  }

  /** The clicks 1, 3, …, 2m−1: each hits the one button on screen. */
  function OddLadder(m: nat): (r: seq<int>)
    ensures |r| == m
  {
    seq(m, j => 2 * j + 1)
  }

  /** As written: every odd value up to N is reached, by `OddLadder`. */
  lemma {:induction false} OddValuesReached(levels: seq<AnswerLevel>, m: nat)
    requires Numbered(levels)
    requires m == 0 || 2 * m + 1 <= |levels|
    ensures Clicks(levels, OddLadder(m), false) == Some(2 * m + 1)
  {
    if m > 0 {
      var c := OddLadder(m);
      assert c[..m - 1] == OddLadder(m - 1);
      OddValuesReached(levels, m - 1);
      assert ShowsButton(2 * m - 1, levels, 2 * m - 1);
    }
  }

  /**
   * As written, with an even number N >= 2 of levels: no sequence of clicks
   * ever shows the last level or the sources card.
   */
  lemma EvenCountHidesLast(levels: seq<AnswerLevel>, clicks: seq<int>, sources: Option<seq<Source>>)
    requires Numbered(levels) && |levels| >= 2 && |levels| % 2 == 0
    requires Clicks(levels, clicks, false).Some?
    ensures !IsExpanded(Clicks(levels, clicks, false).value, levels[|levels| - 1])
    ensures !ShowsSources(Clicks(levels, clicks, false).value, levels, sources)
  {
    ReachedIsOdd(levels, clicks);
  }

  /** Corrected: each click reveals exactly one more level, never past N. */
  lemma {:induction false} FixedReachedCount(levels: seq<AnswerLevel>, clicks: seq<int>)
    requires Numbered(levels)
    requires Clicks(levels, clicks, true).Some?
    ensures Clicks(levels, clicks, true).value == |clicks| + 1
    ensures clicks != [] ==> Clicks(levels, clicks, true).value <= |levels|
  {
    if clicks != [] {
      FixedReachedCount(levels, clicks[..|clicks| - 1]);
    }
  }

  /** The clicks 0, 1, …, m−1. */
  function Ladder(m: nat): (r: seq<int>)
    ensures |r| == m
  {
    seq(m, j => j)
  }

  /** Corrected: every level 1..N is reached, by `Ladder`. */
  lemma {:induction false} FixedReachesEvery(levels: seq<AnswerLevel>, m: nat)
    requires Numbered(levels)
    requires m == 0 || m + 1 <= |levels|
    ensures Clicks(levels, Ladder(m), true) == Some(m + 1)
  {
    if m > 0 {
      var c := Ladder(m);
      assert c[..m - 1] == Ladder(m - 1);
      FixedReachesEvery(levels, m - 1);
      assert ShowsButtonFixed(m, levels, m - 1);
    }
  }

  /** Corrected: with N >= 1 levels, N − 1 clicks show every level and the sources card. */
  lemma FixedShowsAll(levels: seq<AnswerLevel>, sources: Option<seq<Source>>)
    requires Numbered(levels) && |levels| >= 1
    requires sources.Some? && |sources.value| > 0
    ensures var e := Clicks(levels, Ladder(|levels| - 1), true);
      e.Some? && (forall i :: 0 <= i < |levels| ==> IsExpanded(e.value, levels[i]))
      && ShowsSources(e.value, levels, sources)
  {
    FixedReachesEvery(levels, |levels| - 1);
  }

  /** The component: its props and the one state hook. */
  class Component {
    const levels: seq<AnswerLevel>
    const sources: Option<seq<Source>>
    var expandedLevel: int

    /** `expandedLevel` starts at 1. */
    constructor(levels: seq<AnswerLevel>, sources: Option<seq<Source>>)
      ensures this.levels == levels && this.sources == sources && expandedLevel == 1
    {
      this.levels := levels;
      this.sources := sources;
      expandedLevel := 1;
    }

    /** `toggleLevel(level)`. */
    method ToggleLevel(level: int)
      modifies this
      ensures expandedLevel == Toggled(old(expandedLevel), level)
      ensures expandedLevel == level - 1 || expandedLevel == level
    {
      expandedLevel := if expandedLevel == level then level - 1 else level;
    }

    /** A click on the button under entry `index`, which exists only while it is rendered. */
    method ClickMore(index: int)
      requires ShowsButton(expandedLevel, levels, index)
      modifies this
      ensures expandedLevel == old(expandedLevel) + 2
    {
      ToggleLevel(levels[index].level + 1);
    }
  }
}
