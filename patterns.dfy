/**
 * The regular-expression deletions the Python services apply to model
 * output, written as scanners. A pattern is described by the length of its
 * leftmost match at the start of a string (0 when it does not match there);
 * `re.sub(pattern, '', s)` then scans left to right, deleting each match and
 * moving one character on where there is none.
 */
module Patterns {
  import opened Text

  /** `re.sub(pattern, '', s)` for the pattern whose match length at the start of a string is `matchLength`. */
  function DeleteMatches(s: string, matchLength: string -> nat): (r: string)
    ensures |r| <= |s|
    ensures forall i :: 0 <= i < |r| ==> r[i] in s
    decreases |s|
  {
    if s == [] then []
    else
      var n := matchLength(s);
      if 0 < n <= |s| then DeleteMatches(s[n..], matchLength)
      else [s[0]] + DeleteMatches(s[1..], matchLength)
  }

  /** Where the pattern matches at no position, nothing is deleted. */
  lemma {:induction false} DeleteNothing(s: string, matchLength: string -> nat)
    requires forall k :: 0 <= k < |s| ==> matchLength(s[k..]) == 0
    ensures DeleteMatches(s, matchLength) == s
  {
    if s != [] {
      assert matchLength(s[0..]) == 0;
      assert s[0..] == s;
      forall k | 0 <= k < |s[1..]| ensures matchLength(s[1..][k..]) == 0 {
        assert s[1..][k..] == s[k + 1..];
      }
      DeleteNothing(s[1..], matchLength);
    }
  }

  const ThinkOpen: string := "<think"
  const ThinkClose: string := "</think>"

  /** `g` is the first `>` after `<think`: where the opening tag ends. */
  predicate OpenTagEndsAt(s: string, g: int) {
    |ThinkOpen| <= g < |s| && s[g] == '>' && forall j :: |ThinkOpen| <= j < g ==> s[j] != '>'
  }

  /** No `>` at or after `from`. */
  predicate NoAngleFrom(s: string, from: nat) {
    forall j :: from <= j < |s| ==> s[j] != '>'
  }

  /** No `</think>` starts at a position in `from..to`. */
  predicate NoCloseIn(s: string, from: int, to: int, ignoreCase: bool) {
    forall j :: 0 <= from <= j < to && j <= |s| ==> !StartsWith(s[j..], ThinkClose, ignoreCase)
  }

  /**
   * Length of the match of `<think[^>]*>.*?</think>` (with DOTALL) at the
   * start of `s`: the opening tag runs to the first `>` after `<think`, and
   * the block ends with the nearest `</think>` after that `>`
   * (ThinkBlockMatched and ThinkBlockUnmatched state this).
   */
  function ThinkBlockLength(s: string, ignoreCase: bool): (n: nat)
    ensures n <= |s|
    ensures n > 0 ==> StartsWith(s, ThinkOpen, ignoreCase) && |ThinkOpen| + |ThinkClose| < n
  {
    if !StartsWith(s, ThinkOpen, ignoreCase) then 0
    else match IndexOf(s, '>', |ThinkOpen|)
      case None => 0
      case Some(g) =>
        match Find(s, ThinkClose, g + 1, ignoreCase)
        case None => 0
        case Some(e) => e + |ThinkClose|
  }

  /**
   * A match ends with `</think>`, its opening tag ends at the first `>`
   * after `<think`, and no `</think>` starts between that `>` and the
   * closing tag.
   */
  lemma ThinkBlockMatched(s: string, ignoreCase: bool)
    requires ThinkBlockLength(s, ignoreCase) > 0
    ensures var n := ThinkBlockLength(s, ignoreCase);
      StartsWith(s[n - |ThinkClose|..], ThinkClose, ignoreCase)
      && exists g :: OpenTagEndsAt(s, g) && g < n - |ThinkClose| && NoCloseIn(s, g + 1, n - |ThinkClose|, ignoreCase)
  {
    var g, e := MatchParts(s, ignoreCase);
    MatchShape(s, g, e, ignoreCase);
    var n := ThinkBlockLength(s, ignoreCase);
    assert n - |ThinkClose| == e;
    assert OpenTagEndsAt(s, g) && g < n - |ThinkClose| && NoCloseIn(s, g + 1, n - |ThinkClose|, ignoreCase);
  }

  /** The `>` and the `</think>` a match is made of. */
  lemma MatchParts(s: string, ignoreCase: bool) returns (g: nat, e: nat)
    requires ThinkBlockLength(s, ignoreCase) > 0
    ensures StartsWith(s, ThinkOpen, ignoreCase)
    ensures IndexOf(s, '>', |ThinkOpen|) == Some(g) && Find(s, ThinkClose, g + 1, ignoreCase) == Some(e)
    ensures ThinkBlockLength(s, ignoreCase) == e + |ThinkClose|
  {
    g := IndexOf(s, '>', |ThinkOpen|).value;
    e := Find(s, ThinkClose, g + 1, ignoreCase).value;
  }

  /**
   * There is no match exactly when `s` does not start with `<think`, or no
   * `>` follows, or no `</think>` follows the first such `>`.
   */
  lemma ThinkBlockUnmatched(s: string, ignoreCase: bool)
    ensures ThinkBlockLength(s, ignoreCase) == 0 <==>
      (!StartsWith(s, ThinkOpen, ignoreCase)
       || NoAngleFrom(s, |ThinkOpen|)
       || (IndexOf(s, '>', |ThinkOpen|).Some?
           && NoCloseIn(s, IndexOf(s, '>', |ThinkOpen|).value + 1, |s| + 1, ignoreCase)))
  {
    if StartsWith(s, ThinkOpen, ignoreCase) {
      match IndexOf(s, '>', |ThinkOpen|)
      case None =>
        assert NoAngleFrom(s, |ThinkOpen|);
      case Some(g) =>
        match Find(s, ThinkClose, g + 1, ignoreCase)
        case None =>
          assert NoCloseIn(s, g + 1, |s| + 1, ignoreCase);
        case Some(e) =>
          MatchShape(s, g, e, ignoreCase);
    }
  }

  /** The facts about a match that ends with the `</think>` found at `e`. */
  lemma MatchShape(s: string, g: nat, e: nat, ignoreCase: bool)
    requires StartsWith(s, ThinkOpen, ignoreCase)
    requires IndexOf(s, '>', |ThinkOpen|) == Some(g)
    requires Find(s, ThinkClose, g + 1, ignoreCase) == Some(e)
    ensures e + |ThinkClose| <= |s| && |ThinkOpen| <= g < e
    ensures StartsWith(s[e..], ThinkClose, ignoreCase)
    ensures OpenTagEndsAt(s, g) && NoCloseIn(s, g + 1, e, ignoreCase)
    ensures !NoAngleFrom(s, |ThinkOpen|)
    ensures !NoCloseIn(s, g + 1, |s| + 1, ignoreCase)
  {
    assert s[g] == '>';
  }

  /** The matcher of `<think[^>]*>.*?</think>`, for DeleteMatches. */
  function ThinkBlock(ignoreCase: bool): string -> nat {
    s => ThinkBlockLength(s, ignoreCase)
  }

  /** A string that does not start with `<` holds no think block at its start. */
  lemma NoThinkBlockWithoutAngle(s: string, ignoreCase: bool)
    requires s == [] || s[0] != '<'
    ensures ThinkBlockLength(s, ignoreCase) == 0
  {
    if s != [] {
      assert !SameChar(s[0], '<', ignoreCase) by {
        assert Fold('<') == '<';
      }
    }
  }

  lemma NotOpenNoBlock(s: string, ignoreCase: bool)
    requires !StartsWith(s, ThinkOpen, ignoreCase)
    ensures ThinkBlockLength(s, ignoreCase) == 0
  {
  }

  /** Text in which no position starts an opening `<think` passes the think-block deletion unchanged. */
  lemma NoOpenTagKept(s: string, ignoreCase: bool)
    requires forall k :: 0 <= k < |s| ==> !StartsWith(s[k..], ThinkOpen, ignoreCase)
    ensures DeleteMatches(s, ThinkBlock(ignoreCase)) == s
  {
    forall k | 0 <= k < |s| ensures ThinkBlock(ignoreCase)(s[k..]) == 0 {
      NotOpenNoBlock(s[k..], ignoreCase);
    }
    DeleteNothing(s, ThinkBlock(ignoreCase));
  }

  /** Text without `<` passes the think-block deletion unchanged. */
  lemma ThinkBlocksNeedAngle(s: string, ignoreCase: bool)
    requires forall i :: 0 <= i < |s| ==> s[i] != '<'
    ensures DeleteMatches(s, ThinkBlock(ignoreCase)) == s
  {
    forall k | 0 <= k < |s| ensures ThinkBlock(ignoreCase)(s[k..]) == 0 {
      NoThinkBlockWithoutAngle(s[k..], ignoreCase);
    }
    DeleteNothing(s, ThinkBlock(ignoreCase));
  }

  /** Whether `s` starts with `w` is decided by its first `|w|` characters. */
  lemma StartsWithAppend(x: string, y: string, w: string, ignoreCase: bool)
    requires |w| <= |x|
    ensures StartsWith(x + y, w, ignoreCase) == StartsWith(x, w, ignoreCase)
  {
    assert forall i :: 0 <= i < |w| ==> (x + y)[i] == x[i];
  }

  /**
   * A block written out as `<think` + `a` + `>` + `b` + `</think>`, where
   * `a` holds no `>` and no `</think>` begins before the one that closes it,
   * is exactly one match: the deletion then goes on with what follows it.
   */
  lemma LeadingBlockDeleted(s: string, a: string, b: string, c: string, ignoreCase: bool)
    requires s == ThinkOpen + a + ">" + b + ThinkClose + c
    requires forall i :: 0 <= i < |a| ==> a[i] != '>'
    requires forall j :: 0 <= j < |b| ==> !StartsWith((b + ThinkClose)[j..], ThinkClose, ignoreCase)
    ensures ThinkBlockLength(s, ignoreCase) == |s| - |c|
    ensures DeleteMatches(s, ThinkBlock(ignoreCase)) == DeleteMatches(c, ThinkBlock(ignoreCase))
  {
    var p := ThinkOpen + a + ">";
    var tail := b + ThinkClose;
    assert s == p + tail + c;
    BlockOpens(s, p, a, ignoreCase);
    BlockCloses(s, p, tail, b, c, ignoreCase);
    var n := ThinkBlockLength(s, ignoreCase);
    assert n == |p| + |tail|;
    assert s[n..] == c;
  }

  /** The opening tag of such a block: `<think` at the start and its `>` right after `a`. */
  lemma BlockOpens(s: string, p: string, a: string, ignoreCase: bool)
    requires p == ThinkOpen + a + ">" && |p| <= |s| && s[..|p|] == p
    requires forall i :: 0 <= i < |a| ==> a[i] != '>'
    ensures StartsWith(s, ThinkOpen, ignoreCase)
    ensures IndexOf(s, '>', |ThinkOpen|) == Some(|p| - 1)
  {
    assert forall i :: 0 <= i < |p| ==> s[i] == p[i];
    assert forall i :: 0 <= i < |ThinkOpen| ==> p[i] == ThinkOpen[i];
    assert forall j :: |ThinkOpen| <= j < |p| - 1 ==> p[j] == a[j - |ThinkOpen|];
    assert s[|p| - 1] == '>';
    assert forall j :: |ThinkOpen| <= j < |p| - 1 ==> s[j] != '>';
  }

  /** The closing tag of such a block is the first `</think>` after its `>`. */
  lemma BlockCloses(s: string, p: string, tail: string, b: string, c: string, ignoreCase: bool)
    requires s == p + tail + c && tail == b + ThinkClose
    requires forall j :: 0 <= j < |b| ==> !StartsWith(tail[j..], ThinkClose, ignoreCase)
    ensures Find(s, ThinkClose, |p|, ignoreCase) == Some(|p| + |b|)
  {
    NoCloseInside(s, p, tail, b, c, ignoreCase);
    CloseAtEnd(s, p, tail, b, c, ignoreCase);
    FindFirst(s, ThinkClose, |p|, |p| + |b|, ignoreCase);
  }

  lemma NoCloseInside(s: string, p: string, tail: string, b: string, c: string, ignoreCase: bool)
    requires s == p + tail + c && tail == b + ThinkClose
    requires forall j :: 0 <= j < |b| ==> !StartsWith(tail[j..], ThinkClose, ignoreCase)
    ensures forall j :: |p| <= j < |p| + |b| ==> !StartsWith(s[j..], ThinkClose, ignoreCase)
  {
    forall j | |p| <= j < |p| + |b| ensures !StartsWith(s[j..], ThinkClose, ignoreCase) {
      SuffixOfBlock(s, p, tail, c, j, ignoreCase);
    }
  }

  lemma CloseAtEnd(s: string, p: string, tail: string, b: string, c: string, ignoreCase: bool)
    requires s == p + tail + c && tail == b + ThinkClose
    ensures |p| + |b| + |ThinkClose| <= |s| && StartsWith(s[|p| + |b|..], ThinkClose, ignoreCase)
  {
    SuffixOfBlock(s, p, tail, c, |p| + |b|, ignoreCase);
    assert tail[|b|..] == ThinkClose;
  }

  lemma SuffixOfBlock(s: string, p: string, tail: string, c: string, j: nat, ignoreCase: bool)
    requires s == p + tail + c && |p| <= j && j + |ThinkClose| <= |p| + |tail|
    ensures StartsWith(s[j..], ThinkClose, ignoreCase) == StartsWith(tail[j - |p|..], ThinkClose, ignoreCase)
  {
    assert s[j..] == tail[j - |p|..] + c;
    StartsWithAppend(tail[j - |p|..], c, ThinkClose, ignoreCase);
  }

  /** `Find` gives the first position at or after `from` where `w` starts. */
  lemma FindFirst(s: string, w: string, from: nat, e: nat, ignoreCase: bool)
    requires from <= e && e + |w| <= |s| && StartsWith(s[e..], w, ignoreCase)
    requires forall j :: from <= j < e ==> !StartsWith(s[j..], w, ignoreCase)
    ensures Find(s, w, from, ignoreCase) == Some(e)
  {
  }
}
