/**
 * The Facebook MMS Tajik speech service (`FacebookTTSTajik`): how it
 * prepares text for the synthesis model and the frames its `run_tts` yields.
 */
module FacebookTts {
  import opened Text
  import opened Patterns
  import opened Frames

  predicate IsAngle(c: char) {
    c == '<' || c == '>'
  }

  /** `re.sub(r'<think[^>]*>.*?</think>', '', text, flags=re.DOTALL)`: case-sensitive. */
  function RemoveThinkBlocks(text: string): string {
    DeleteMatches(text, ThinkBlock(false))
  }

  /**
   * `_prepare_text`: delete `<think…>…</think>` blocks, then every `<` and
   * `>`, then strip; "." when nothing is left. The result is never empty,
   * holds no angle bracket and has no surrounding whitespace.
   */
  function PrepareText(text: string): (r: string)
    ensures r != []
    ensures forall i :: 0 <= i < |r| ==> !IsAngle(r[i])
    ensures NoEdgeSpace(Python, r)
  {
    var t := StripAngles(RemoveThinkBlocks(text));
    if t == [] then
      assert !IsPySpace('.') && !IsAngle('.');
      "."
    else t
  }

  /** Every `<` and `>` removed, then the ends stripped. */
  function StripAngles(u: string): (t: string)
    ensures forall i :: 0 <= i < |t| ==> !IsAngle(t[i])
    ensures NoEdgeSpace(Python, t)
  {
    var v := RemoveChars(u, {'<', '>'});
    var t := Strip(Python, v);
    StrippedHasNoAngle(v, t);
    t
  }

  lemma StrippedHasNoAngle(v: string, t: string)
    requires forall i :: 0 <= i < |v| ==> v[i] !in {'<', '>'}
    requires t == Strip(Python, v)
    ensures forall i :: 0 <= i < |t| ==> !IsAngle(t[i])
  {
    var k := LeadingSpaces(Python, v);
    forall i | 0 <= i < |t| ensures !IsAngle(t[i]) {
      assert t[i] == v[k + i];
    }
  }

  /** Non-empty text with no angle bracket and no surrounding whitespace is handed over unchanged. */
  lemma CleanTextKept(text: string)
    requires text != []
    requires forall i :: 0 <= i < |text| ==> !IsAngle(text[i])
    requires NoEdgeSpace(Python, text)
    ensures PrepareText(text) == text
  {
    ThinkBlocksNeedAngle(text, false);
    assert RemoveThinkBlocks(text) == text;
    assert RemoveChars(text, {'<', '>'}) == text;
    StripKeepsTrimmed(Python, text);
  }

  /** Preparing prepared text changes nothing. */
  lemma PrepareIdempotent(text: string)
    ensures PrepareText(PrepareText(text)) == PrepareText(text)
  {
    CleanTextKept(PrepareText(text));
  }

  /**
   * A think block at the start is deleted from `<think` to the nearest
   * `</think>` after the opening tag's `>`, and preparation goes on with
   * what follows it as if the block had never been there.
   */
  lemma ThinkBlockDropped(s: string, a: string, b: string, c: string)
    requires s == ThinkOpen + a + ">" + b + ThinkClose + c
    requires forall i :: 0 <= i < |a| ==> a[i] != '>'
    requires forall j :: 0 <= j < |b| ==> !StartsWith((b + ThinkClose)[j..], ThinkClose, false)
    ensures RemoveThinkBlocks(s) == RemoveThinkBlocks(c)
    ensures PrepareText(s) == PrepareText(c)
  {
    LeadingBlockDeleted(s, a, b, c, false);
  }

  /**
   * The think-block match is case-sensitive here: an upper-case block is
   * left for the bracket removal, while a case-insensitive match (the one the
   * translation cleaner uses) takes the whole block.
   */
  lemma UpperCaseBlockKept(s: string)
    requires s == "<THINK>x</THINK>"
    ensures ThinkBlockLength(s, true) == |s|
    ensures RemoveThinkBlocks(s) == s
  {
    UpperCaseBlockLength(s);
    UpperCaseNoOpen(s);
    NoOpenTagKept(s, false);
  }

  lemma UpperCaseNoOpen(s: string)
    requires s == "<THINK>x</THINK>"
    ensures forall k :: 0 <= k < |s| ==> !StartsWith(s[k..], ThinkOpen, false)
  {
    forall k | 0 <= k < |s| ensures !StartsWith(s[k..], ThinkOpen, false) {
      if k == 0 || k == 8 {
        NotOpenAt(s, k, 1);
      } else {
        NotOpenAt(s, k, 0);
      }
    }
  }

  /** A position whose `j`-th character differs from `<think` does not open a tag, with case compared exactly. */
  lemma NotOpenAt(s: string, k: nat, j: nat)
    requires k + j < |s| && j < |ThinkOpen| && s[k + j] != ThinkOpen[j]
    ensures !StartsWith(s[k..], ThinkOpen, false)
  {
    assert s[k..][j] == s[k + j];
  }

  lemma UpperCaseBlockLength(s: string)
    requires s == "<THINK>x</THINK>"
    ensures ThinkBlockLength(s, true) == 16
  {
    assert Fold('T') == 't' && Fold('H') == 'h' && Fold('I') == 'i' && Fold('N') == 'n' && Fold('K') == 'k';
    assert StartsWith(s, ThinkOpen, true);
    assert IndexOf(s, '>', 6) == Some(6);
    assert StartsWith(s[8..], ThinkClose, true);
    assert !StartsWith(s[7..], ThinkClose, true) by {
      assert s[7] == 'x';
    }
    assert Find(s, ThinkClose, 7, true) == Some(8);
  }

  /** `run_tts`: the frames for `text`, where `synthesize` stands for what the synthesis model does with the prepared text. */
  function RunTts(text: string, synthesize: string -> SpeechOutcome): (frames: seq<Frame>)
    ensures |frames| >= 2 && frames[0] == TTSStarted && frames[|frames| - 1] == TTSStopped
    ensures var o := synthesize(PrepareText(text));
      HasAudio(frames) <==> !o.Raised? && AudioSamples(o) > 0
    ensures synthesize(PrepareText(text)).Raised? <==> |frames| == 3 && frames[1].ErrorFrame?
  {
    TtsFrames(synthesize(PrepareText(text)))
  }
}
