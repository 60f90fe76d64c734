/**
 * The two frame processors of the translation bot: `TranslationAggregator`,
 * which collects the language model's streamed text between the response
 * start and end markers and hands one cleaned speech frame to the speech
 * service, and the speech-buffer part of `StatelessTranslationProcessor`,
 * which gathers transcribed segments and turns them into one translation
 * request.
 */
module BotTranslator {
  import opened Text
  import opened Frames
  import opened TranslationCleaning

  /** The aggregator's two fields. */
  datatype AggState = AggState(currentText: string, collecting: bool)

  /** Outside a response nothing is held. */
  predicate Idle(st: AggState) {
    !st.collecting ==> st.currentText == []
  }

  /** What an end marker releases for the collected text `t`: one speech frame, when there is something to say. */
  function Speech(t: string): seq<Frame> {
    if IsBlank(Python, t) then []
    else
      var cleaned := Clean(t);
      if cleaned == [] then [] else [TTSSpeak(cleaned)]
  }

  /** One call of `process_frame`: the new fields and the frames pushed on. */
  function Step(st: AggState, f: Frame): (AggState, seq<Frame>) {
    if f.LLMFullResponseStart? then (AggState([], true), [])
    else if IsTextFrame(f) && st.collecting then (AggState(st.currentText + f.text, true), [])
    else if f.LLMFullResponseEnd? then (AggState([], false), Speech(st.currentText))
    else if !IsTextFrame(f) then (st, [f])
    else (st, [])
  }

  /** The aggregator fed `fs` in order: its final fields and everything it pushed. */
  function Run(st: AggState, fs: seq<Frame>): (AggState, seq<Frame>)
    decreases |fs|
  {
    if fs == [] then (st, [])
    else
      var prev := Run(st, fs[..|fs| - 1]);
      var next := Step(prev.0, fs[|fs| - 1]);
      (next.0, prev.1 + next.1)
  }

  /** The text carried by the text frames of `fs`, in order. */
  function Texts(fs: seq<Frame>): string {
    if fs == [] then []
    else Texts(fs[..|fs| - 1]) + (if IsTextFrame(fs[|fs| - 1]) then fs[|fs| - 1].text else [])
  }

  predicate AllText(fs: seq<Frame>) {
    forall i :: 0 <= i < |fs| ==> IsTextFrame(fs[i])
  }

  predicate IsMarker(f: Frame) {
    f.LLMFullResponseStart? || f.LLMFullResponseEnd?
  }

  /** A text frame is appended while collecting and dropped otherwise. */
  lemma StepText(st: AggState, f: Frame)
    requires IsTextFrame(f)
    ensures Step(st, f) == (if st.collecting then (AggState(st.currentText + f.text, true), []) else (st, []))
  {
  }

  /** Every frame keeps the aggregator idle outside a response. */
  lemma StepKeepsIdle(st: AggState, f: Frame)
    requires Idle(st)
    ensures Idle(Step(st, f).0)
  {
  }

  /** Feeding `a` and then `b` is feeding `a + b`. */
  lemma {:induction false} RunAppend(st: AggState, a: seq<Frame>, b: seq<Frame>)
    ensures Run(st, a + b) == (Run(Run(st, a).0, b).0, Run(st, a).1 + Run(Run(st, a).0, b).1)
    decreases |b|
  {
    if b == [] {
      assert a + b == a;
      assert Run(Run(st, a).0, b) == (Run(st, a).0, []);
      assert Run(st, a).1 + [] == Run(st, a).1;
    } else {
      var init, last := b[..|b| - 1], b[|b| - 1];
      assert (a + b)[..|a + b| - 1] == a + init;
      assert (a + b)[|a + b| - 1] == last;
      RunAppend(st, a, init);
      var mid := Run(st, a);
      var prev := Run(mid.0, init);
      var next := Step(prev.0, last);
      assert Run(mid.0, b) == (next.0, prev.1 + next.1);
      assert Run(st, a + b) == (next.0, (mid.1 + prev.1) + next.1);
      assert (mid.1 + prev.1) + next.1 == mid.1 + (prev.1 + next.1);
    }
  }

  /** While collecting, text frames are appended and nothing is pushed on. */
  lemma {:induction false} CollectTexts(st: AggState, fs: seq<Frame>)
    requires st.collecting && AllText(fs)
    ensures Run(st, fs) == (AggState(st.currentText + Texts(fs), true), [])
    decreases |fs|
  {
    if fs == [] {
      assert st.currentText + Texts(fs) == st.currentText;
    } else {
      var init, last := fs[..|fs| - 1], fs[|fs| - 1];
      AllTextInit(fs);
      CollectTexts(st, init);
      RunLast(st, fs);
      var prev := Run(st, init);
      var next := Step(prev.0, last);
      StepText(prev.0, last);
      assert next == (AggState((st.currentText + Texts(init)) + last.text, true), []);
      assert prev.1 + next.1 == [];
      TextsLast(fs);
      assert st.currentText + Texts(fs) == (st.currentText + Texts(init)) + last.text;
    }
  }

  lemma AllTextInit(fs: seq<Frame>)
    requires fs != [] && AllText(fs)
    ensures AllText(fs[..|fs| - 1]) && IsTextFrame(fs[|fs| - 1])
  {
    var init := fs[..|fs| - 1];
    forall i | 0 <= i < |init| ensures IsTextFrame(init[i]) {
      assert init[i] == fs[i];
    }
  }

  /** `Run` on a non-empty batch: the run of all but the last frame, then one step. */
  lemma RunLast(st: AggState, fs: seq<Frame>)
    requires fs != []
    ensures var prev := Run(st, fs[..|fs| - 1]);
      var next := Step(prev.0, fs[|fs| - 1]);
      Run(st, fs) == (next.0, prev.1 + next.1)
  {
  }

  lemma TextsLast(fs: seq<Frame>)
    requires fs != [] && IsTextFrame(fs[|fs| - 1])
    ensures Texts(fs) == Texts(fs[..|fs| - 1]) + fs[|fs| - 1].text
  {
  }

  /** Outside a response, text frames are dropped. */
  lemma {:induction false} IdleDropsTexts(st: AggState, fs: seq<Frame>)
    requires !st.collecting && AllText(fs)
    ensures Run(st, fs) == (st, [])
    decreases |fs|
  {
    if fs != [] {
      var init, last := fs[..|fs| - 1], fs[|fs| - 1];
      assert AllText(init) by {
        forall i | 0 <= i < |init| ensures IsTextFrame(init[i]) {
          assert init[i] == fs[i];
        }
      }
      IdleDropsTexts(st, init);
      var prev := Run(st, init);
      var next := Step(prev.0, last);
      assert Run(st, fs) == (next.0, prev.1 + next.1);
      StepText(st, last);
      assert prev.1 + next.1 == [];
    }
  }

  /** Frames that are neither markers nor text pass through unchanged and in order, and leave the fields alone. */
  lemma {:induction false} ForwardOthers(st: AggState, fs: seq<Frame>)
    requires forall i :: 0 <= i < |fs| ==> !IsMarker(fs[i]) && !IsTextFrame(fs[i])
    ensures Run(st, fs) == (st, fs)
    decreases |fs|
  {
    if fs != [] {
      var init, last := fs[..|fs| - 1], fs[|fs| - 1];
      forall i | 0 <= i < |init| ensures !IsMarker(init[i]) && !IsTextFrame(init[i]) {
        assert init[i] == fs[i];
      }
      ForwardOthers(st, init);
      var prev := Run(st, init);
      assert prev == (st, init);
      assert !IsMarker(last) && !IsTextFrame(last);
      var next := Step(st, last);
      assert next == (st, [last]);
      assert Run(st, fs) == (next.0, prev.1 + next.1);
      assert init + [last] == fs;
    }
  }

  /**
   * A whole response: the start marker, text frames, the end marker. The
   * aggregator ends idle and has pushed one speech frame carrying the cleaned
   * text of the response, or nothing when that text is blank or cleans to
   * nothing.
   */
  lemma ResponseSpoken(st: AggState, fs: seq<Frame>)
    requires AllText(fs)
    ensures Run(st, [LLMFullResponseStart] + fs + [LLMFullResponseEnd]) == (AggState([], false), Speech(Texts(fs)))
    ensures |Speech(Texts(fs))| <= 1
    ensures Speech(Texts(fs)) != [] <==> !IsBlank(Python, Texts(fs)) && Clean(Texts(fs)) != []
    ensures Speech(Texts(fs)) != [] ==> Speech(Texts(fs))[0] == TTSSpeak(Clean(Texts(fs)))
  {
    var started := AggState([], true);
    SingleStep(st, LLMFullResponseStart);
    RunAppend(st, [LLMFullResponseStart], fs);
    CollectTexts(started, fs);
    assert [] + Texts(fs) == Texts(fs);
    SingleStep(AggState(Texts(fs), true), LLMFullResponseEnd);
    RunAppend(st, [LLMFullResponseStart] + fs, [LLMFullResponseEnd]);
  }

  /** Feeding one frame is one step. */
  lemma SingleStep(st: AggState, f: Frame)
    ensures Run(st, [f]) == Step(st, f)
  {
    var fs := [f];
    assert fs[..0] == [];
    var prev := Run(st, fs[..0]);
    assert prev == (st, []);
    var next := Step(prev.0, f);
    assert Run(st, fs) == (next.0, prev.1 + next.1);
    assert prev.1 + next.1 == next.1;
  }

  /**
   * Everything the aggregator pushes is either a frame of the input that is
   * neither a marker nor text, or a speech frame whose text is cleaned: not
   * empty, without surrounding whitespace.
   */
  lemma {:induction false} OutputShape(st: AggState, fs: seq<Frame>)
    ensures forall g :: g in Run(st, fs).1 ==>
      (g in fs && !IsMarker(g) && !IsTextFrame(g)) || (g.TTSSpeak? && g.text != [] && NoEdgeSpace(Python, g.text))
    decreases |fs|
  {
    if fs != [] {
      var init := fs[..|fs| - 1];
      OutputShape(st, init);
      forall g | g in init ensures g in fs {
        var i :| 0 <= i < |init| && init[i] == g;
        assert fs[i] == g;
      }
    }
  }

  /** `TranslationAggregator`: the fields `current_text` and `collecting`. */
  class TranslationAggregator {
    var currentText: string
    var collecting: bool

    function State(): AggState
      reads this
    {
      AggState(currentText, collecting)
    }

    predicate Valid()
      reads this
    {
      Idle(State())
    }

    constructor ()
      ensures Valid() && currentText == [] && !collecting
    {
      currentText := [];
      collecting := false;
    }

    /** `process_frame`: returns the frames pushed downstream. */
    method ProcessFrame(f: Frame) returns (pushed: seq<Frame>)
      requires Valid()
      modifies this
      ensures Valid()
      ensures (State(), pushed) == Step(old(State()), f)
    {
      pushed := [];
      if f.LLMFullResponseStart? {
        currentText := [];
        collecting := true;
      } else if IsTextFrame(f) && collecting {
        currentText := currentText + f.text;
      } else if f.LLMFullResponseEnd? {
        collecting := false;
        if !IsBlank(Python, currentText) {
          var cleaned := Clean(currentText);
          if cleaned != [] {
            pushed := [TTSSpeak(cleaned)];
          }
        }
        currentText := [];
      } else if !IsTextFrame(f) {
        pushed := [f];
      }
    }
  }

  /** Transcribed segments as they are buffered: stripped and never blank. */
  predicate Segments(buffer: seq<string>) {
    forall i :: 0 <= i < |buffer| ==> buffer[i] != [] && NoEdgeSpace(Python, buffer[i])
  }

  /** Segments joined with single spaces begin with the first segment's first character and end with the last one's last. */
  lemma {:induction false} JoinEdges(parts: seq<string>)
    requires parts != [] && forall i :: 0 <= i < |parts| ==> parts[i] != []
    ensures var j := Join(parts, " ");
      j != [] && j[0] == parts[0][0] && j[|j| - 1] == parts[|parts| - 1][|parts[|parts| - 1]| - 1]
  {
    if |parts| > 1 {
      var init := parts[..|parts| - 1];
      JoinEdges(init);
    }
  }

  /** Joining buffered segments gives text that stripping leaves alone, so the request carries exactly the joined segments. */
  lemma JoinedSegmentsTrimmed(buffer: seq<string>)
    requires buffer != [] && Segments(buffer)
    ensures Strip(Python, Join(buffer, " ")) == Join(buffer, " ")
    ensures Join(buffer, " ") != []
  {
    JoinEdges(buffer);
    StripKeepsTrimmed(Python, Join(buffer, " "));
  }

  /** The speech buffer of `StatelessTranslationProcessor`. */
  class StatelessTranslationProcessor {
    var speechBuffer: seq<string>

    predicate Valid()
      reads this
    {
      Segments(speechBuffer)
    }

    constructor ()
      ensures Valid() && speechBuffer == []
    {
      speechBuffer := [];
    }

    /**
     * `process_frame`: a transcription is stripped and, unless blank, added
     * to the buffer, and nothing is pushed on; any other frame is pushed on
     * and the buffer is left alone.
     */
    method ProcessFrame(f: Frame) returns (pushed: seq<Frame>)
      requires Valid()
      modifies this
      ensures Valid()
      ensures f.Transcription? ==> pushed == []
      ensures f.Transcription? && IsBlank(Python, f.text) ==> speechBuffer == old(speechBuffer)
      ensures f.Transcription? && !IsBlank(Python, f.text) ==> speechBuffer == old(speechBuffer) + [Strip(Python, f.text)]
      ensures !f.Transcription? ==> pushed == [f] && speechBuffer == old(speechBuffer)
    {
      if f.Transcription? {
        var userText := Strip(Python, f.text);
        pushed := [];
        if userText != [] {
          speechBuffer := speechBuffer + [userText];
        }
      } else {
        pushed := [f];
      }
    }

    /**
     * `_translate_buffer`: nothing on an empty buffer; otherwise one context
     * frame holding the system prompt and the buffered segments joined by
     * single spaces, and the buffer is emptied.
     */
    method TranslateBuffer(systemPrompt: string) returns (pushed: seq<Frame>)
      requires Valid()
      modifies this
      ensures Valid() && speechBuffer == []
      ensures old(speechBuffer) == [] ==> pushed == []
      ensures old(speechBuffer) != [] ==>
        pushed == [LLMContext([Message(System, systemPrompt), Message(User, Join(old(speechBuffer), " "))])]
    {
      if speechBuffer == [] {
        pushed := [];
      } else {
        var joined := Join(speechBuffer, " ");
        JoinedSegmentsTrimmed(speechBuffer);
        var completeText := Strip(Python, joined);
        speechBuffer := [];
        pushed := [LLMContext([Message(System, systemPrompt), Message(User, completeText)])];
      }
    }
  }
}
