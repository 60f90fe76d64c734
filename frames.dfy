/**
 * The pipecat frames that the translation bot and the two Tajik speech
 * services exchange, and the frame sequence both services' `run_tts` yield.
 */
module Frames {

  datatype Role = System | User

  datatype Message = Message(role: Role, content: string)

  datatype Frame =
    | LLMFullResponseStart
    | LLMFullResponseEnd
      /** Text produced by the language model. */
    | TextFrame(text: string)
      /** A speech-to-text result; in pipecat a subclass of TextFrame. */
    | Transcription(text: string)
    | TTSSpeak(text: string)
    | LLMContext(messages: seq<Message>)
    | TTSStarted
      /** 16-bit mono PCM audio: `bytes` bytes at `sampleRate` Hz over `channels` channels. */
    | TTSAudioRaw(bytes: nat, sampleRate: nat, channels: nat)
    | TTSStopped
    | ErrorFrame(error: string)
      /** Any other frame (audio input, control, system frames), identified by an opaque tag. */
    | OtherFrame(tag: nat)

  /** Frames an `isinstance(frame, TextFrame)` test accepts. */
  predicate IsTextFrame(f: Frame) {
    f.TextFrame? || f.Transcription?
  }

  /** The sample rate both Tajik speech services produce. */
  const SampleRate: nat := 16000

  /**
   * What happened to one synthesis request inside `run_tts`: the model
   * produced a waveform of `samples` samples; or `_generate_speech` caught an
   * error and substituted one second of silence; or an exception escaped to
   * `run_tts`'s own handler after the start frame was yielded.
   */
  datatype SpeechOutcome =
    | Waveform(samples: nat)
    | SynthesisFailed
    | Raised(message: string)

  /** Number of samples `_generate_speech` hands back (silence of `SampleRate` samples on its own error path). */
  function AudioSamples(o: SpeechOutcome): nat
    requires !o.Raised?
  {
    match o
    case Waveform(n) => n
    case SynthesisFailed => SampleRate
  }

  predicate HasAudio(frames: seq<Frame>) {
    exists i :: 0 <= i < |frames| && frames[i].TTSAudioRaw?
  }

  /**
   * The frames `run_tts` yields: the start frame first and the stop frame
   * last on every path, one audio frame (two bytes per sample, mono, at the
   * service's sample rate) exactly when there is audio, and on an exception an
   * error frame just before the stop frame.
   */
  function TtsFrames(o: SpeechOutcome): (frames: seq<Frame>)
    ensures 2 <= |frames| <= 3
    ensures frames[0] == TTSStarted && frames[|frames| - 1] == TTSStopped
    ensures forall i :: 0 < i < |frames| - 1 ==> !frames[i].TTSStarted? && !frames[i].TTSStopped?
    ensures HasAudio(frames) <==> !o.Raised? && AudioSamples(o) > 0
    ensures HasAudio(frames) ==> frames[1] == TTSAudioRaw(2 * AudioSamples(o), SampleRate, 1)
    ensures o.Raised? <==> |frames| == 3 && frames[1].ErrorFrame?
    ensures o.Raised? ==> frames[1] == ErrorFrame("TTS failed: " + o.message)
  {
    match o
    case Raised(m) => [TTSStarted, ErrorFrame("TTS failed: " + m), TTSStopped]
    case _ =>
      var n := AudioSamples(o);
      if n > 0 then
        var frames := [TTSStarted, TTSAudioRaw(2 * n, SampleRate, 1), TTSStopped];
        assert frames[1].TTSAudioRaw?;
        frames
      else [TTSStarted, TTSStopped]
  }
}
