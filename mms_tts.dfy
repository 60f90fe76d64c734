/**
 * The MMS Tajik speech service (`MMSTTSTajik`): how it prepares text for the
 * synthesis model and the frames its `run_tts` yields.
 */
module MmsTts {
  import opened Text
  import opened Frames

  predicate IsQuote(c: char) {
    c == '"' || c == '\''
  }

  /**
   * `_prepare_text`: strip surrounding whitespace, then delete every double
   * and every single quote; "." when nothing is left. The model is never
   * handed an empty string and never sees a quote.
   */
  function PrepareText(text: string): (r: string)
    ensures r != []
    ensures forall i :: 0 <= i < |r| ==> !IsQuote(r[i])
    ensures |r| <= |text| || r == "."
  {
    var t := RemoveChars(RemoveChars(Strip(Python, text), {'"'}), {'\''});
    if t == [] then
      assert !IsQuote('.');
      "."
    else t
  }

  /** Stripped text that is not empty and holds no quote is handed over as it is. */
  lemma PlainTextKept(text: string)
    requires Strip(Python, text) != []
    requires forall i :: 0 <= i < |Strip(Python, text)| ==> !IsQuote(Strip(Python, text)[i])
    ensures PrepareText(text) == Strip(Python, text)
  {
    var s := Strip(Python, text);
    assert forall i :: 0 <= i < |s| ==> s[i] !in {'"'};
    assert RemoveChars(s, {'"'}) == s;
    assert forall i :: 0 <= i < |s| ==> s[i] !in {'\''};
    assert RemoveChars(s, {'\''}) == s;
  }

  /** Blank text, and text that is nothing but quotes once stripped, becomes ".". */
  lemma {:induction false} OnlyQuotesGiveDot(text: string)
    requires forall i :: 0 <= i < |Strip(Python, text)| ==> IsQuote(Strip(Python, text)[i])
    ensures PrepareText(text) == "."
  {
    var s := Strip(Python, text);
    var t := RemoveChars(s, {'"'});
    assert forall i :: 0 <= i < |t| ==> t[i] == '\'' by {
      forall i | 0 <= i < |t| ensures t[i] == '\'' {
        assert t[i] in s;
      }
    }
    AllRemoved(t, '\'');
  }

  lemma {:induction false} AllRemoved(s: string, c: char)
    requires forall i :: 0 <= i < |s| ==> s[i] == c
    ensures RemoveChars(s, {c}) == []
  {
    if s != [] {
      AllRemoved(s[1..], c);
    }
  }

  /**
   * Stripping comes before quote removal, so whitespace that sat between
   * quotes survives: a quoted blank is handed to the model as a blank.
   */
  lemma QuotedBlankSurvives(s: string)
    requires s == "\" \""
    ensures PrepareText(s) == " "
  {
    assert NoEdgeSpace(Python, s) by {
      assert !IsPySpace(s[0]) && !IsPySpace(s[2]);
    }
    StripKeepsTrimmed(Python, s);
    assert s[1..][1..] == s[2..];
    assert RemoveChars(s[2..], {'"'}) == [];
    assert RemoveChars(s, {'"'}) == " ";
    assert RemoveChars(" ", {'\''}) == " ";
  }

  /**
   * `run_tts`: the frames for `text`, where `synthesize` stands for what the
   * synthesis model does with the prepared text.
   */
  function RunTts(text: string, synthesize: string -> SpeechOutcome): (frames: seq<Frame>)
    ensures |frames| >= 2 && frames[0] == TTSStarted && frames[|frames| - 1] == TTSStopped
    ensures var o := synthesize(PrepareText(text));
      HasAudio(frames) <==> !o.Raised? && AudioSamples(o) > 0
    ensures synthesize(PrepareText(text)).Raised? <==> |frames| == 3 && frames[1].ErrorFrame?
  {
    TtsFrames(synthesize(PrepareText(text)))
  }
}
