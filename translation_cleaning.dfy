/**
 * `clean_translation_output` of the translation bot: the fixed chain of
 * deletions that strips what a language model adds around a Tajik
 * translation (reasoning blocks, labels, explanatory notes, dialogue
 * attribution, filler phrases), followed by whitespace normalisation.
 *
 * Every pattern except the label is applied with `re.sub(…, '', …)`, which
 * is DeleteMatches with the pattern's match length; all of them ignore case.
 */
module TranslationCleaning {
  import opened Text
  import opened Patterns

  /** Length of the match of `</?think[^>]*>` at the start of `s`: an opening or closing tag up to its first `>`. */
  function ThinkTagLength(s: string): (n: nat)
    ensures n <= |s|
    ensures n > 0 ==> s[0] == '<' && s[n - 1] == '>' && n >= 7
    ensures n > 0 ==> forall j :: 0 <= j < n - 1 ==> s[j] != '>'
    ensures n > 0 ==> StartsWith(s[1..], "think", true) || (s[1] == '/' && StartsWith(s[2..], "think", true))
    ensures |s| > 0 && s[0] == '<' && StartsWith(s[1..], "think", true) && '>' in s[6..] ==> n > 0
  {
    if |s| == 0 || s[0] != '<' then 0
    else
      var open := if |s| >= 2 && s[1] == '/' then 2 else 1;
      if !StartsWith(s[open..], "think", true) then 0
      else match IndexOf(s, '>', open + 5)
        case None => 0
        case Some(g) => g + 1
  }

  function ThinkTag(): string -> nat {
    s => ThinkTagLength(s)
  }

  /** The labels a model puts before its answer, in the order the pattern tries them. */
  const Labels: seq<string> := ["Translation:", "Output:", "Тарҷума:", "Text:", "Input:", "Wrong:", "Correct:"]

  /** The first of `words` that `s` starts with, ignoring case. */
  function FirstPrefix(s: string, words: seq<string>): (r: Option<nat>)
    ensures r.Some? ==> r.value < |words| && StartsWith(s, words[r.value], true)
    ensures r.Some? ==> forall i :: 0 <= i < r.value ==> !StartsWith(s, words[i], true)
    ensures r.None? ==> forall i :: 0 <= i < |words| ==> !StartsWith(s, words[i], true)
  {
    if words == [] then None
    else if StartsWith(s, words[0], true) then Some(0)
    else match FirstPrefix(s, words[1..])
      case None => None
      case Some(i) => Some(i + 1)
  }

  /**
   * `^(Translation:|…|Correct:)\s*` deleted: the pattern is anchored at the
   * start, so at most one label goes, together with the whitespace after it.
   */
  function StripLabel(s: string): (r: string)
    ensures |r| <= |s| && r == s[|s| - |r|..]
    ensures FirstPrefix(s, Labels).None? ==> r == s
    ensures FirstPrefix(s, Labels).Some? ==>
      var rest := s[|Labels[FirstPrefix(s, Labels).value]|..];
      r == rest[LeadingSpaces(Python, rest)..]
  {
    match FirstPrefix(s, Labels)
    case None => s
    case Some(i) =>
      var rest := s[|Labels[i]|..];
      rest[LeadingSpaces(Python, rest)..]
  }

  /** A label that follows another label is not removed. */
  lemma SecondLabelKept(s: string)
    requires s == "Output: Output: x"
    ensures StripLabel(s) == "Output: x"
  {
    OutputLabelFirst(s);
    var rest := s[|Labels[1]|..];
    assert rest == " Output: x";
    OneLeadingSpace(rest);
  }

  lemma OneLeadingSpace(rest: string)
    requires rest == " Output: x"
    ensures rest[LeadingSpaces(Python, rest)..] == "Output: x"
  {
    assert LeadingSpaces(Python, rest) == 1 by {
      assert IsPySpace(rest[0]) && !IsPySpace(rest[1]);
      assert LeadingSpaces(Python, rest[1..]) == 0;
    }
  }

  lemma OutputLabelFirst(s: string)
    requires s == "Output: Output: x"
    ensures FirstPrefix(s, Labels) == Some(1) && |Labels[1]| == 7
  {
    var tail := Labels[1..];
    assert tail[0] == "Output:";
    assert StartsWith(s, tail[0], true) by {
      assert s[..7] == "Output:";
    }
    assert FirstPrefix(s, tail) == Some(0);
    assert !StartsWith(s, Labels[0], true) by {
      assert s[0] == 'O' && Labels[0][0] == 'T';
    }
  }

  /** Length of the match of `\([^)]*w[^)]*\)` at the start of `s`: a parenthesis, up to its first `)`, that mentions `w`. */
  function ParenLength(s: string, w: string): (n: nat)
    ensures n <= |s|
    ensures n > 0 ==> s[0] == '(' && s[n - 1] == ')' && n >= 2
    ensures n > 0 ==> (forall j :: 1 <= j < n - 1 ==> s[j] != ')') && Contains(s[1..n - 1], w, true)
  {
    if |s| == 0 || s[0] != '(' then 0
    else match IndexOf(s, ')', 1)
      case None => 0
      case Some(c) =>
        if Contains(s[1..c], w, true) then c + 1 else 0
  }

  function Paren(w: string): string -> nat {
    s => ParenLength(s, w)
  }

  const Explanation: string := "тавзеҳот"
  const Appears: string := "омадааст"
  const Father: string := "Падар"

  /**
   * Length of the match of `\s*-\s*Падар.*$` at the start of `s`. `.` does
   * not match a newline and `$` matches at the end or just before a final
   * newline, so a match runs to the end of the text, less a final newline,
   * and there is none when a newline other than the last follows the word.
   */
  function AttributionLength(s: string): (n: nat)
    ensures n <= |s|
    ensures n > 0 ==> n == |s| || (n == |s| - 1 && s[n] == '\n')
    ensures n > 0 ==> exists d :: 0 <= d < n && s[d] == '-' && IsBlank(Python, s[..d])
  {
    var d := LeadingSpaces(Python, s);
    if d == |s| || s[d] != '-' then 0
    else
      var w := d + 1 + LeadingSpaces(Python, s[d + 1..]);
      if !StartsWith(s[w..], Father, true) then 0
      else match IndexOf(s, '\n', w + |Father|)
        case None => |s|
        case Some(q) => if q == |s| - 1 then q else 0
  }

  function Attribution(): string -> nat {
    s => AttributionLength(s)
  }

  const Heard: string := "Ман туро мешунавам"

  /** Length of the match of `Ман туро мешунавам[^.]*\.` at the start of `s`: the phrase up to the next full stop. */
  function HeardLength(s: string): (n: nat)
    ensures n <= |s|
    ensures n > 0 ==> StartsWith(s, Heard, true) && s[n - 1] == '.' && n > |Heard|
    ensures n > 0 ==> forall j :: |Heard| <= j < n - 1 ==> s[j] != '.'
  {
    if !StartsWith(s, Heard, true) then 0
    else match IndexOf(s, '.', |Heard|)
      case None => 0
      case Some(d) => d + 1
  }

  function HeardPhrase(): string -> nat {
    s => HeardLength(s)
  }

  const Fillers: seq<string> := ["буданаш маълум шуд", "дар рӯшноӣ"]

  /** Length of the match of `(буданаш маълум шуд|дар рӯшноӣ)` at the start of `s`. */
  function FillerLength(s: string): (n: nat)
    ensures n <= |s|
    ensures n > 0 ==> exists i :: 0 <= i < |Fillers| && n == |Fillers[i]| && StartsWith(s, Fillers[i], true)
    ensures n == 0 ==> forall i :: 0 <= i < |Fillers| ==> !StartsWith(s, Fillers[i], true)
  {
    match FirstPrefix(s, Fillers)
    case None => 0
    case Some(i) => |Fillers[i]|
  }

  function Filler(): string -> nat {
    s => FillerLength(s)
  }

  /** Every whitespace character is a plain space. */
  predicate PlainSpaces(s: string) {
    forall i :: 0 <= i < |s| && IsPySpace(s[i]) ==> s[i] == ' '
  }

  /** No two whitespace characters are adjacent. */
  predicate NoDoubleSpace(s: string) {
    forall i :: 0 <= i < |s| - 1 && IsPySpace(s[i]) ==> !IsPySpace(s[i + 1])
  }

  predicate IsPunct(c: char) {
    c == ',' || c == '.' || c == '!' || c == '?'
  }

  /** No whitespace character stands right before `,`, `.`, `!` or `?`. */
  predicate NoSpaceBeforePunct(s: string) {
    forall i :: 0 <= i < |s| - 1 && IsPySpace(s[i]) ==> !IsPunct(s[i + 1])
  }

  /** `re.sub(r'\s+', ' ', s)`: every run of whitespace becomes one space. */
  function CollapseSpaces(s: string): (r: string)
    ensures |r| <= |s| && (r == [] <==> s == [])
    ensures s != [] && !IsPySpace(s[0]) ==> r[0] == s[0]
    ensures PlainSpaces(r) && NoDoubleSpace(r)
    ensures forall i :: 0 <= i < |r| && !IsPySpace(r[i]) ==> r[i] in s
    decreases |s|
  {
    if s == [] then []
    else if IsPySpace(s[0]) then
      var k := LeadingSpaces(Python, s);
      var rest := CollapseSpaces(s[k..]);
      assert forall i :: 0 <= i < |rest| && !IsPySpace(rest[i]) ==> rest[i] in s by {
        forall i | 0 <= i < |rest| && !IsPySpace(rest[i]) ensures rest[i] in s {
          assert rest[i] in s[k..];
        }
      }
      " " + rest
    else
      var rest := CollapseSpaces(s[1..]);
      assert forall i :: 0 <= i < |rest| && !IsPySpace(rest[i]) ==> rest[i] in s by {
        forall i | 0 <= i < |rest| && !IsPySpace(rest[i]) ensures rest[i] in s {
          assert rest[i] in s[1..];
        }
      }
      [s[0]] + rest
  }

  /** `s` begins with a run of whitespace that a punctuation mark follows. */
  predicate RunBeforePunct(s: string) {
    var k := LeadingSpaces(Python, s);
    0 < k < |s| && IsPunct(s[k])
  }

  /**
   * `re.sub(r'\s+([,.!?])', r'\1', s)`: a run of whitespace followed by a
   * punctuation mark is deleted; the mark stays.
   */
  function DropSpaceBeforePunct(s: string): (r: string)
    ensures |r| <= |s|
    ensures s != [] && !RunBeforePunct(s) ==> r != [] && r[0] == s[0]
    ensures RunBeforePunct(s) ==> r != [] && IsPunct(r[0])
    ensures NoSpaceBeforePunct(r)
    ensures forall i :: 0 <= i < |r| ==> r[i] in s
    ensures NoDoubleSpace(s) ==> NoDoubleSpace(r)
    decreases |s|
  {
    if s == [] then []
    else if RunBeforePunct(s) then
      var k := LeadingSpaces(Python, s);
      var rest := DropSpaceBeforePunct(s[k + 1..]);
      DrawnFromSuffix(rest, s, k + 1);
      SuffixNoDouble(s, k + 1);
      ConsShape(s[k], rest);
      [s[k]] + rest
    else
      var rest := DropSpaceBeforePunct(s[1..]);
      DrawnFromSuffix(rest, s, 1);
      assert IsPySpace(s[0]) && |s| > 1 ==> !IsPunct(rest[0]) by {
        if IsPySpace(s[0]) && |s| > 1 {
          TailAfterSpace(s);
        }
      }
      SuffixNoDouble(s, 1);
      ConsShape(s[0], rest);
      [s[0]] + rest
  }

  /** Putting `c` in front keeps the two properties unless `c` is whitespace and the next character breaks them. */
  lemma ConsShape(c: char, rest: string)
    ensures NoSpaceBeforePunct(rest) && (IsPySpace(c) && rest != [] ==> !IsPunct(rest[0]))
      ==> NoSpaceBeforePunct([c] + rest)
    ensures NoDoubleSpace(rest) && (IsPySpace(c) && rest != [] ==> !IsPySpace(rest[0]))
      ==> NoDoubleSpace([c] + rest)
  {
    var r := [c] + rest;
    assert forall i :: 0 < i < |r| ==> r[i] == rest[i - 1];
  }

  /** Characters taken from a suffix of `s` are characters of `s`. */
  lemma DrawnFromSuffix(rest: string, s: string, d: nat)
    requires d <= |s| && forall i :: 0 <= i < |rest| ==> rest[i] in s[d..]
    ensures forall i :: 0 <= i < |rest| ==> rest[i] in s
  {
    forall i | 0 <= i < |rest| ensures rest[i] in s {
      var j :| 0 <= j < |s[d..]| && s[d..][j] == rest[i];
      assert s[d + j] == rest[i];
    }
  }

  lemma SuffixNoDouble(s: string, d: nat)
    requires d <= |s|
    ensures NoDoubleSpace(s) ==> NoDoubleSpace(s[d..])
  {
    if NoDoubleSpace(s) {
      var t := s[d..];
      forall i | 0 <= i < |t| - 1 && IsPySpace(t[i]) ensures !IsPySpace(t[i + 1]) {
        assert t[i] == s[d + i] && t[i + 1] == s[d + i + 1];
      }
    }
  }

  /**
   * When a run of whitespace at the start is not followed by a mark, the
   * rest of the text after its first character is not either, and that rest
   * begins with a character that is not a mark.
   */
  lemma TailAfterSpace(s: string)
    requires |s| > 1 && IsPySpace(s[0]) && !RunBeforePunct(s)
    ensures !RunBeforePunct(s[1..]) && !IsPunct(s[1])
  {
    var k := LeadingSpaces(Python, s);
    assert LeadingSpaces(Python, s[1..]) == k - 1;
    if k < |s| {
      assert s[1..][k - 1] == s[k];
    }
  }

  /** The three whitespace properties carry over to any infix. */
  lemma InfixKeepsShape(s: string, i: nat, j: nat)
    requires i <= j <= |s|
    requires PlainSpaces(s) && NoDoubleSpace(s) && NoSpaceBeforePunct(s)
    ensures PlainSpaces(s[i..j]) && NoDoubleSpace(s[i..j]) && NoSpaceBeforePunct(s[i..j])
  {
    var t := s[i..j];
    forall m | 0 <= m < |t| ensures t[m] == s[i + m] {
    }
  }

  /**
   * `clean_translation_output`: empty text gives "". Otherwise the result
   * has no surrounding whitespace, every whitespace character in it is a
   * single plain space, and no space stands before a punctuation mark.
   */
  function Clean(text: string): (r: string)
    ensures text == [] ==> r == []
    ensures |r| <= |text|
    ensures NoEdgeSpace(Python, r)
    ensures PlainSpaces(r) && NoDoubleSpace(r) && NoSpaceBeforePunct(r)
  {
    if text == [] then []
    else
      var t1 := DeleteMatches(text, ThinkBlock(true));
      var t2 := DeleteMatches(t1, ThinkTag());
      var t3 := StripLabel(t2);
      var t4 := DeleteMatches(t3, Paren(Explanation));
      var t5 := DeleteMatches(t4, Paren(Appears));
      var t6 := DeleteMatches(t5, Attribution());
      var t7 := DeleteMatches(t6, HeardPhrase());
      var t8 := DeleteMatches(t7, Filler());
      var t9 := CollapseSpaces(t8);
      var t10 := DropSpaceBeforePunct(t9);
      var r := Strip(Python, t10);
      FinalShape(t9, t10, r);
      r
  }

  lemma FinalShape(t9: string, t10: string, r: string)
    requires PlainSpaces(t9) && NoDoubleSpace(t9)
    requires t10 == DropSpaceBeforePunct(t9) && r == Strip(Python, t10)
    ensures PlainSpaces(r) && NoDoubleSpace(r) && NoSpaceBeforePunct(r)
  {
    DropKeepsPlain(t9, t10);
    var k := LeadingSpaces(Python, t10);
    InfixKeepsShape(t10, k, k + |r|);
  }

  lemma DropKeepsPlain(t9: string, t10: string)
    requires PlainSpaces(t9) && t10 == DropSpaceBeforePunct(t9)
    ensures PlainSpaces(t10)
  {
    forall i | 0 <= i < |t10| && IsPySpace(t10[i]) ensures t10[i] == ' ' {
      assert t10[i] in t9;
    }
  }

  /**
   * Text none of the deletions touches: no `<` and no `(`, no label at the
   * start, and none of the attribution name, the "heard" phrase or the
   * fillers anywhere, ignoring case.
   */
  predicate Untouched(t: string) {
    (forall i :: 0 <= i < |t| ==> t[i] != '<' && t[i] != '(')
    && FirstPrefix(t, Labels).None?
    && (forall k :: 0 <= k < |t| ==>
          !StartsWith(t[k..], Father, true) && !StartsWith(t[k..], Heard, true) && FirstPrefix(t[k..], Fillers).None?)
  }

  /** Text already in the shape `Clean` produces. */
  predicate Normalised(t: string) {
    NoEdgeSpace(Python, t) && PlainSpaces(t) && NoDoubleSpace(t) && NoSpaceBeforePunct(t)
  }

  /** A clean translation passes through unchanged: the cleaner only removes what its patterns name. */
  lemma CleanKeeps(t: string)
    requires Untouched(t) && Normalised(t)
    ensures Clean(t) == t
  {
    if t != [] {
      DeletionsKeep(t);
      CollapseKeeps(t);
      DropKeeps(t);
      StripKeepsTrimmed(Python, t);
    }
  }

  /** A leading think block goes, and the rest of the text is cleaned as if it stood alone. */
  lemma LeadingBlockCleaned(s: string, a: string, b: string, c: string)
    requires s == ThinkOpen + a + ">" + b + ThinkClose + c
    requires forall i :: 0 <= i < |a| ==> a[i] != '>'
    requires forall j :: 0 <= j < |b| ==> !StartsWith((b + ThinkClose)[j..], ThinkClose, true)
    ensures Clean(s) == Clean(c)
  {
    LeadingBlockDeleted(s, a, b, c, true);
  }

  lemma DeletionsKeep(t: string)
    requires Untouched(t)
    ensures DeleteMatches(t, ThinkBlock(true)) == t
    ensures DeleteMatches(t, ThinkTag()) == t
    ensures StripLabel(t) == t
    ensures DeleteMatches(t, Paren(Explanation)) == t && DeleteMatches(t, Paren(Appears)) == t
    ensures DeleteMatches(t, Attribution()) == t
    ensures DeleteMatches(t, HeardPhrase()) == t && DeleteMatches(t, Filler()) == t
  {
    ThinkBlocksNeedAngle(t, true);
    TagsAndParensKeep(t);
    PhrasesKeep(t);
    AttributionKeeps(t);
  }

  lemma TagsAndParensKeep(t: string)
    requires forall i :: 0 <= i < |t| ==> t[i] != '<' && t[i] != '('
    ensures DeleteMatches(t, ThinkTag()) == t
    ensures DeleteMatches(t, Paren(Explanation)) == t && DeleteMatches(t, Paren(Appears)) == t
  {
    forall k | 0 <= k < |t| ensures ThinkTag()(t[k..]) == 0 {
      NoTagWithoutAngle(t, k);
    }
    DeleteNothing(t, ThinkTag());
    ParenKeeps(t, Explanation);
    ParenKeeps(t, Appears);
  }

  lemma NoTagWithoutAngle(t: string, k: nat)
    requires k < |t| && t[k] != '<'
    ensures ThinkTagLength(t[k..]) == 0
  {
    assert t[k..][0] == t[k];
  }

  lemma ParenKeeps(t: string, w: string)
    requires forall i :: 0 <= i < |t| ==> t[i] != '('
    ensures DeleteMatches(t, Paren(w)) == t
  {
    forall k | 0 <= k < |t| ensures Paren(w)(t[k..]) == 0 {
      assert t[k..][0] == t[k];
    }
    DeleteNothing(t, Paren(w));
  }

  lemma PhrasesKeep(t: string)
    requires forall k :: 0 <= k < |t| ==> !StartsWith(t[k..], Heard, true) && FirstPrefix(t[k..], Fillers).None?
    ensures DeleteMatches(t, HeardPhrase()) == t && DeleteMatches(t, Filler()) == t
  {
    forall k | 0 <= k < |t| ensures HeardPhrase()(t[k..]) == 0 && Filler()(t[k..]) == 0 {
    }
    DeleteNothing(t, HeardPhrase());
    DeleteNothing(t, Filler());
  }

  lemma AttributionKeeps(t: string)
    requires forall k :: 0 <= k < |t| ==> !StartsWith(t[k..], Father, true)
    ensures DeleteMatches(t, Attribution()) == t
  {
    forall k | 0 <= k < |t| ensures Attribution()(t[k..]) == 0 {
      forall m | 0 <= m < |t[k..]| ensures !StartsWith(t[k..][m..], Father, true) {
        assert t[k..][m..] == t[k + m..];
      }
      AttributionNeedsName(t[k..]);
    }
    DeleteNothing(t, Attribution());
  }

  /** Without the name anywhere there is no attribution to delete. */
  lemma AttributionNeedsName(u: string)
    requires forall m :: 0 <= m < |u| ==> !StartsWith(u[m..], Father, true)
    ensures AttributionLength(u) == 0
  {
    var d := LeadingSpaces(Python, u);
    if d < |u| && u[d] == '-' {
      var w := d + 1 + LeadingSpaces(Python, u[d + 1..]);
      assert w < |u| ==> !StartsWith(u[w..], Father, true);
    }
  }

  /** Single plain spaces are left as they are by the whitespace collapse. */
  lemma {:induction false} CollapseKeeps(s: string)
    requires PlainSpaces(s) && NoDoubleSpace(s)
    ensures CollapseSpaces(s) == s
    decreases |s|
  {
    if s != [] {
      var t := s[1..];
      assert PlainSpaces(t) && NoDoubleSpace(t) by {
        assert forall i :: 0 <= i < |t| ==> t[i] == s[i + 1];
      }
      CollapseKeeps(t);
      if IsPySpace(s[0]) {
        assert LeadingSpaces(Python, s) == 1 by {
          assert |s| > 1 ==> !IsPySpace(s[1]);
          assert LeadingSpaces(Python, s) >= 1;
        }
      }
    }
  }

  /** Text with no space before a mark is left as it is by the punctuation rule. */
  lemma {:induction false} DropKeeps(s: string)
    requires NoSpaceBeforePunct(s)
    ensures DropSpaceBeforePunct(s) == s
    decreases |s|
  {
    if s != [] {
      var k := LeadingSpaces(Python, s);
      assert 0 < k < |s| ==> IsPySpace(s[k - 1]) by {
        if 0 < k < |s| {
          assert s[..k][k - 1] == s[k - 1];
        }
      }
      assert !RunBeforePunct(s);
      var t := s[1..];
      assert NoSpaceBeforePunct(t) by {
        assert forall i :: 0 <= i < |t| ==> t[i] == s[i + 1];
      }
      DropKeeps(t);
    }
  }
}
