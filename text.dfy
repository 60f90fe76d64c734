/**
 * Strings as the two runtimes of the system see them: Python (the servers
 * and the speech bot) and JavaScript (the browser front end). A string is a
 * sequence of Unicode scalar values, which is what Python's `len` counts;
 * JavaScript's `.length` counts UTF-16 code units instead (Utf16Length).
 */
module Text {

  datatype Option<T> = None | Some(value: T)

  datatype Runtime = Python | JavaScript

  /** The characters for which Python's `str.isspace()` holds; `re`'s `\s` on str patterns uses the same set. */
  predicate IsPySpace(c: char) {
    c == ' ' || c == '\t' || c == '\n' || c == '\r' || c == '\U{000B}' || c == '\U{000C}'
    || ('\U{001C}' <= c <= '\U{001F}') || c == '\U{0085}' || c == '\U{00A0}' || c == '\U{1680}'
    || ('\U{2000}' <= c <= '\U{200A}') || c == '\U{2028}' || c == '\U{2029}' || c == '\U{202F}'
    || c == '\U{205F}' || c == '\U{3000}'
  }

  /** The characters JavaScript's `String.prototype.trim` removes (WhiteSpace and LineTerminator). */
  predicate IsJsSpace(c: char) {
    c == ' ' || c == '\t' || c == '\n' || c == '\r' || c == '\U{000B}' || c == '\U{000C}'
    || c == '\U{00A0}' || c == '\U{1680}' || ('\U{2000}' <= c <= '\U{200A}')
    || c == '\U{2028}' || c == '\U{2029}' || c == '\U{202F}' || c == '\U{205F}'
    || c == '\U{3000}' || c == '\U{FEFF}'
  }

  predicate IsSpace(rt: Runtime, c: char) {
    match rt
    case Python => IsPySpace(c)
    case JavaScript => IsJsSpace(c)
  }

  predicate IsBlank(rt: Runtime, s: string) {
    forall i :: 0 <= i < |s| ==> IsSpace(rt, s[i])
  }

  /** Neither the first nor the last character is whitespace. */
  predicate NoEdgeSpace(rt: Runtime, s: string) {
    s == [] || (!IsSpace(rt, s[0]) && !IsSpace(rt, s[|s| - 1]))
  }

  /** Length of the longest all-whitespace prefix. */
  function LeadingSpaces(rt: Runtime, s: string): (n: nat)
    ensures n <= |s|
    ensures IsBlank(rt, s[..n])
    ensures n < |s| ==> !IsSpace(rt, s[n])
  {
    if s != [] && IsSpace(rt, s[0]) then
      var m := LeadingSpaces(rt, s[1..]);
      assert s[..m + 1] == [s[0]] + s[1..][..m];
      1 + m
    else 0
  }

  /** Length of the longest all-whitespace suffix. */
  function TrailingSpaces(rt: Runtime, s: string): (n: nat)
    ensures n <= |s|
    ensures IsBlank(rt, s[|s| - n..])
    ensures n < |s| ==> !IsSpace(rt, s[|s| - n - 1])
  {
    if s != [] && IsSpace(rt, s[|s| - 1]) then
      var t := s[..|s| - 1];
      var m := TrailingSpaces(rt, t);
      assert s[|s| - (m + 1)..] == t[|t| - m..] + [s[|s| - 1]];
      1 + m
    else 0
  }

  /**
   * Python's `str.strip()` and JavaScript's `trim()`: the input splits into
   * a blank prefix, the result and a blank suffix, and the result starts and
   * ends with a non-whitespace character.
   */
  function Strip(rt: Runtime, s: string): (r: string)
    ensures NoEdgeSpace(rt, r)
    ensures |r| <= |s|
    ensures var k := LeadingSpaces(rt, s);
      k + |r| <= |s| && r == s[k..k + |r|] && IsBlank(rt, s[..k]) && IsBlank(rt, s[k + |r|..])
    ensures r == [] <==> IsBlank(rt, s)
  {
    var k := LeadingSpaces(rt, s);
    var t := s[k..];
    var e := TrailingSpaces(rt, t);
    var r := t[..|t| - e];
    StripSplits(rt, s, k, t, r);
    r
  }

  lemma StripSplits(rt: Runtime, s: string, k: nat, t: string, r: string)
    requires k == LeadingSpaces(rt, s) && t == s[k..] && r == t[..|t| - TrailingSpaces(rt, t)]
    ensures NoEdgeSpace(rt, r)
    ensures k + |r| <= |s| && r == s[k..k + |r|] && IsBlank(rt, s[..k]) && IsBlank(rt, s[k + |r|..])
    ensures r == [] <==> IsBlank(rt, s)
  {
    var e := TrailingSpaces(rt, t);
    StripSlices(s, k, t, e, r);
    StripEdges(rt, s, k, t, r);
    BlankIffAllLeading(rt, s);
    if r == [] {
      assert s == s[..k] + t;
      BlankConcat(rt, s[..k], t);
    }
  }

  /** Where the stripped text sits in the input. */
  lemma StripSlices(s: string, k: nat, t: string, e: nat, r: string)
    requires k <= |s| && t == s[k..] && e <= |t| && r == t[..|t| - e]
    ensures k + |r| <= |s| && r == s[k..k + |r|] && s[k + |r|..] == t[|t| - e..]
    ensures r == [] ==> t[|t| - e..] == t
  {
  }

  lemma StripEdges(rt: Runtime, s: string, k: nat, t: string, r: string)
    requires k == LeadingSpaces(rt, s) && t == s[k..] && r == t[..|t| - TrailingSpaces(rt, t)]
    ensures NoEdgeSpace(rt, r)
  {
    if r != [] {
      var e := TrailingSpaces(rt, t);
      assert r[0] == s[k];
      assert r[|r| - 1] == t[|t| - e - 1];
    }
  }

  /** A string is blank exactly when its whitespace prefix is all of it. */
  lemma BlankIffAllLeading(rt: Runtime, s: string)
    ensures IsBlank(rt, s) <==> LeadingSpaces(rt, s) == |s|
  {
    var n := LeadingSpaces(rt, s);
    assert s[..|s|] == s;
    if n < |s| {
      assert !IsSpace(rt, s[n]);
    }
  }

  lemma BlankConcat(rt: Runtime, a: string, b: string)
    requires IsBlank(rt, a) && IsBlank(rt, b)
    ensures IsBlank(rt, a + b)
  {
    forall i | 0 <= i < |a + b| ensures IsSpace(rt, (a + b)[i]) {
      if i < |a| {
        assert (a + b)[i] == a[i];
      } else {
        assert (a + b)[i] == b[i - |a|];
      }
    }
  }

  lemma StripKeepsTrimmed(rt: Runtime, s: string)
    requires NoEdgeSpace(rt, s)
    ensures Strip(rt, s) == s
  {
    assert LeadingSpaces(rt, s) == 0;
    assert TrailingSpaces(rt, s) == 0;
  }

  lemma StripIdempotent(rt: Runtime, s: string)
    ensures Strip(rt, Strip(rt, s)) == Strip(rt, s)
  {
    StripKeepsTrimmed(rt, Strip(rt, s));
  }

  /** `s` begins with `w`, comparing characters exactly or, when `ignoreCase`, after case folding. */
  predicate StartsWith(s: string, w: string, ignoreCase: bool) {
    |w| <= |s| && forall i :: 0 <= i < |w| ==> SameChar(s[i], w[i], ignoreCase)
  }

  predicate SameChar(a: char, b: char, ignoreCase: bool) {
    if ignoreCase then Fold(a) == Fold(b) else a == b
  }

  /**
   * Lower-case folding for Latin and Cyrillic letters, the scripts of the
   * text the system handles (Tajik is written in Cyrillic).
   */
  function Fold(c: char): (f: char)
    ensures 'A' <= c <= 'Z' ==> f as int == c as int + 32
    ensures c as int < 0x41 ==> f == c
  {
    if 'A' <= c <= 'Z' then (c as int + 32) as char
    else if '\U{0410}' <= c <= '\U{042F}' then (c as int + 0x20) as char
    else if '\U{0400}' <= c <= '\U{040F}' then (c as int + 0x50) as char
    else if ('\U{0460}' <= c <= '\U{0481}' || '\U{048A}' <= c <= '\U{04BF}' || '\U{04D0}' <= c <= '\U{04FF}')
      && c as int % 2 == 0 then (c as int + 1) as char
    else if '\U{04C1}' <= c <= '\U{04CE}' && c as int % 2 == 1 then (c as int + 1) as char
    else if c == '\U{04C0}' then '\U{04CF}'
    else c
  }

  /** The first position at or after `from` where `w` occurs in `s`. */
  function Find(s: string, w: string, from: nat, ignoreCase: bool): (r: Option<nat>)
    ensures r.Some? ==> from <= r.value && r.value + |w| <= |s| && StartsWith(s[r.value..], w, ignoreCase)
    ensures r.Some? ==> forall j :: from <= j < r.value ==> !StartsWith(s[j..], w, ignoreCase)
    ensures r.None? ==> forall j :: from <= j <= |s| ==> !StartsWith(s[j..], w, ignoreCase)
    decreases |s| - from
  {
    if from > |s| then None
    else if StartsWith(s[from..], w, ignoreCase) then Some(from)
    else Find(s, w, from + 1, ignoreCase)
  }

  /** The first position at or after `from` holding `c`. */
  function IndexOf(s: string, c: char, from: nat): (r: Option<nat>)
    ensures r.Some? ==> from <= r.value < |s| && s[r.value] == c
    ensures r.Some? ==> forall j :: from <= j < r.value ==> s[j] != c
    ensures r.None? ==> forall j :: from <= j < |s| ==> s[j] != c
    decreases |s| - from
  {
    if from >= |s| then None
    else if s[from] == c then Some(from)
    else IndexOf(s, c, from + 1)
  }

  predicate Contains(s: string, w: string, ignoreCase: bool) {
    Find(s, w, 0, ignoreCase).Some?
  }

  /** `s` with every occurrence of a character of `cs` removed (Python's `str.replace(c, '')`, `re.sub('[..]', '', s)`). */
  function RemoveChars(s: string, cs: set<char>): (r: string)
    ensures |r| <= |s|
    ensures forall i :: 0 <= i < |r| ==> r[i] !in cs
    ensures (forall i :: 0 <= i < |s| ==> s[i] !in cs) ==> r == s
    ensures forall i :: 0 <= i < |r| ==> r[i] in s
  {
    if s == [] then []
    else if s[0] in cs then RemoveChars(s[1..], cs)
    else [s[0]] + RemoveChars(s[1..], cs)
  }

  /** Total length of a list of strings. */
  function TotalLength(parts: seq<string>): nat {
    if parts == [] then 0 else TotalLength(parts[..|parts| - 1]) + |parts[|parts| - 1]|
  }

  /** Python's `sep.join(parts)`. */
  function Join(parts: seq<string>, sep: string): string {
    if |parts| == 0 then []
    else if |parts| == 1 then parts[0]
    else Join(parts[..|parts| - 1], sep) + sep + parts[|parts| - 1]
  }

  lemma {:induction false} JoinLength(parts: seq<string>, sep: string)
    requires parts != []
    ensures |Join(parts, sep)| == TotalLength(parts) + |sep| * (|parts| - 1)
  {
    if |parts| > 1 {
      var init := parts[..|parts| - 1];
      JoinLength(init, sep);
      assert init[..|init| - 1] == parts[..|parts| - 2];
      if |init| == 1 {
        assert TotalLength(init) == |parts[0]| by {
          assert init[..0] == [];
        }
      }
    } else {
      assert parts[..0] == [];
    }
  }

  /** JavaScript's `.length`: characters outside the Basic Multilingual Plane count twice (surrogate pairs). */
  function Utf16Length(s: string): (n: nat)
    ensures |s| <= n <= 2 * |s|
  {
    if s == [] then 0 else (if s[0] as int > 0xFFFF then 2 else 1) + Utf16Length(s[1..])
  }
}
