/**
 * The per-event render engine of the kowalski audio engine
 * (src/engine/kwl_eventinstance.c): an event instance's lifecycle, the freeform
 * event factory, the frame arithmetic and the render step that fills one output
 * buffer from a chain of 16-bit PCM source buffers.
 *
 * Every `float` of the source is a `real`. PITCH_EPSILON is defined in a header
 * that is not part of this model; it is the parameter `epsilon`, a positive number.
 */
module Engine {
  import opened Wrappers

  // ---------------------------------------------------------------------------------
  // Data model

  datatype PlaybackState =
    | Stopped
    | Playing
    | StopRequested
    | PlayLastBufferAndStopRequested
    | StopAndUnloadRequested

  datatype EventType = Positional | NonPositional

  datatype Encoding = Signed16BitPcm | OggVorbis | Unknown

  datatype PlaybackMode = Sequential | Random | RandomNoRepeat | SequentialNoReset

  datatype RetriggerMode = Retrigger | NoRetrigger

  datatype StealingMode = DontSteal | StealQuietest | StealRandom

  /** Audio data as the engine holds it: `bytes` is None once the pointer is NULL. */
  datatype AudioData = AudioData(encoding: Encoding, numChannels: int, numFrames: int, numBytes: int,
                                 bytes: Option<seq<int>>)

  /** A sound: its audio entries and how they are played. */
  datatype SoundDefinition = SoundDefinition(
    audioDataEntries: seq<AudioData>, playbackMode: PlaybackMode, playbackCount: int, deferStop: int,
    gain: real, pitch: real, pitchVariation: real, gainVariation: real)

  /** The event definition an instance plays; `mixBus` None marks a freeform event. */
  datatype EventDefinition = EventDefinition(
    id: string, instanceCount: int, isPositional: int, gain: real, pitch: real,
    innerConeCosAngle: real, outerConeCosAngle: real, outerConeGain: real,
    retriggerMode: RetriggerMode, stealingMode: StealingMode,
    streamAudioData: Option<AudioData>, sound: Option<SoundDefinition>,
    numReferencedWaveBanks: int, mixBus: Option<int>)

  /** A caller's PCM buffer for a freeform event: frames, channels and the interleaved samples (None for NULL). */
  datatype PcmBuffer = PcmBuffer(numFrames: int, numChannels: int, pcmData: Option<seq<int>>)

  /** A source buffer the render step plays: interleaved 16-bit samples, its size in frames, its channel count. */
  datatype SourceBuffer = SourceBuffer(samples: seq<int>, numFrames: int, numChannels: int)

  datatype Vector = Vector(x: real, y: real, z: real)

  /** The two per-channel gains of the gain ramp. */
  datatype StereoGain = StereoGain(left: real, right: real)

  /** The error codes the factory returns; `LoadFailure` carries what the audio file loader returned. */
  datatype EngineError = NoError | InvalidParameterValue | PositionalEventMustBeMono | LoadFailure(code: int)

  // ---------------------------------------------------------------------------------
  // Frame arithmetic (lines 232-252)

  /** isUnitPitch (lines 232-237): both comparisons are strict. */
  predicate IsUnitPitch(pitch: real, epsilon: real) {
    pitch - 1.0 < epsilon && pitch - 1.0 > -epsilon
  }

  /**
   * The unit-pitch test accepts exactly the pitches strictly within epsilon of 1:
   * pitch 1 for any positive epsilon, and neither edge of the window.
   */
  lemma UnitPitchWindow(pitch: real, epsilon: real)
    ensures IsUnitPitch(pitch, epsilon) <==> 1.0 - epsilon < pitch < 1.0 + epsilon
    ensures IsUnitPitch(1.0, epsilon) <==> epsilon > 0.0
    ensures !IsUnitPitch(1.0 + epsilon, epsilon) && !IsUnitPitch(1.0 - epsilon, epsilon)
  {
  }

  /** C's cast of a float to int: truncation toward zero. */
  function Trunc(x: real): (n: int)
    ensures 0.0 <= x ==> 0 <= n && n as real <= x < n as real + 1.0
    ensures x < 0.0 ==> n <= 0 && n as real - 1.0 < x <= n as real
  {
    if x >= 0.0 then x.Floor else -((-x).Floor)
  }

  /**
   * kwlEventInstance_getNumRemainingOutFrames (lines 239-252): the output frames the
   * rest of the source buffer can supply at `pitch`.
   */
  function NumRemainingOutFrames(bufferSize: int, frameIndex: int, accumulator: real, pitch: real, epsilon: real): (n: int)
    requires pitch > 0.0
    ensures IsUnitPitch(pitch, epsilon) ==> n == bufferSize - frameIndex
    ensures var left := (bufferSize - frameIndex) as real - accumulator;
            !IsUnitPitch(pitch, epsilon) && left >= 0.0 ==> 0 <= n && n as real * pitch <= left < (n + 1) as real * pitch
  {
    if IsUnitPitch(pitch, epsilon) then bufferSize - frameIndex
    else
      var left := (bufferSize - frameIndex) as real - accumulator;
      var n := Trunc(left / pitch);
      assert left >= 0.0 ==> n as real * pitch <= left < (n + 1) as real * pitch by {
        if left >= 0.0 {
          ScaledBounds(left, pitch, n);
        }
      }
      n
  }

  /** Bounds on a quotient, multiplied back by the divisor. */
  lemma ScaledBounds(x: real, p: real, n: int)
    requires p > 0.0 && n as real <= x / p < (n + 1) as real
    ensures n as real * p <= x < (n + 1) as real * p
  {
    assert x == x / p * p;
  }

  /** The count is never negative while the cursor has not passed the end of the buffer. */
  lemma RemainingNonNegative(bufferSize: int, frameIndex: int, accumulator: real, pitch: real, epsilon: real)
    requires pitch > 0.0 && 0.0 <= accumulator && frameIndex as real + accumulator <= bufferSize as real
    ensures NumRemainingOutFrames(bufferSize, frameIndex, accumulator, pitch, epsilon) >= 0
  {
    var x := (bufferSize - frameIndex) as real - accumulator;
    assert x / pitch >= 0.0;
  }

  /**
   * Shifted by `pitch`, the remaining output frames fit in the remaining source: they
   * consume no more than what lies between the cursor and the end of the buffer.
   */
  lemma RemainingFramesFit(bufferSize: int, frameIndex: int, accumulator: real, pitch: real, epsilon: real)
    requires pitch > 0.0 && !IsUnitPitch(pitch, epsilon)
    requires frameIndex as real + accumulator <= bufferSize as real
    ensures NumRemainingOutFrames(bufferSize, frameIndex, accumulator, pitch, epsilon) as real * pitch
              <= (bufferSize - frameIndex) as real - accumulator
  {
    var x := (bufferSize - frameIndex) as real - accumulator;
    var n := Trunc(x / pitch);
    assert n as real <= x / pitch;
    assert n as real * pitch <= x / pitch * pitch;
  }

  /**
   * The pitch a mixing pass plays at (lines 332-336): the event's, the sound's and the
   * mix bus's pitch multiplied, and raised to at least `epsilon`.
   */
  function EffectivePitch(eventPitch: real, soundPitch: real, busPitch: real, epsilon: real): (p: real)
    ensures p >= epsilon
    ensures eventPitch * soundPitch * busPitch >= epsilon ==> p == eventPitch * soundPitch * busPitch
  {
    var p := eventPitch * soundPitch * busPitch;
    if p < epsilon then epsilon else p
  }

  /**
   * Where a mixing pass stops (lines 342-347), and whether it stops because the source
   * buffer runs out: the end of the output, or the last frame the source still fills,
   * plus one more frame at a shifted pitch. The pass never runs past the output.
   */
  function PassEnd(numFrames: int, outFrameIdx: int, numOutFramesLeft: int, unitPitch: bool): (r: (int, bool))
    ensures r.0 <= numFrames
    ensures r.1 <==> numOutFramesLeft < numFrames - outFrameIdx
    ensures !r.1 ==> r.0 == numFrames
    ensures r.1 ==> r.0 == outFrameIdx + numOutFramesLeft || (!unitPitch && r.0 == outFrameIdx + numOutFramesLeft + 1)
  {
    if numOutFramesLeft < numFrames - outFrameIdx then
      (outFrameIdx + numOutFramesLeft + (if unitPitch then 0 else 1), true)
    else (numFrames, false)
  }

  // ---------------------------------------------------------------------------------
  // Sample positions

  /**
   * The position of channel `ch` of frame `frame` in an interleaved buffer of
   * `channels` channels: frame * channels + ch for the one or two channels the engine
   * mixes.
   */
  function Slot(frame: int, channels: int, ch: int): int {
    if channels == 1 then frame + ch else 2 * frame + ch
  }

  /** A sample of a frame lies inside that frame's span, and spans of later frames come later. */
  lemma SlotInFrame(frame: int, last: int, channels: int, ch: int)
    requires 0 <= ch < channels <= 2 && frame < last
    ensures Slot(frame, channels, 0) <= Slot(frame, channels, ch) < Slot(last, channels, 0)
  {
  }

  // ---------------------------------------------------------------------------------
  // The sample kernels (kwl_asm is not part of this model)

  /**
   * The level a 16-bit source sample contributes, scaled by `gain`; a position outside
   * the buffer contributes silence.
   */
  function Sample(samples: seq<int>, index: int, gain: real): real {
    if 0 <= index < |samples| then samples[index] as real / 32768.0 * gain else 0.0
  }

  /** Where a pitch-shifted read stands after `frames` output frames: the start plus `frames` steps of `pitch`. */
  function Travel(accumulator: real, pitch: real, frames: nat): (t: real)
    ensures pitch >= 0.0 ==> t >= accumulator
  {
    if frames == 0 then accumulator else Travel(accumulator, pitch, frames - 1) + pitch
  }

  function Max(a: int, b: int): int {
    if a < b then b else a
  }

  /** The source cursor: a frame index and the fraction of a frame carried in the accumulator. */
  datatype Cursor = Cursor(frameIndex: int, accumulator: real)

  /** The state of an event instance a mixing call starts from (see EventInstance.Entry). */
  datatype MixEntry = MixEntry(pending: seq<SourceBuffer>, cursor: Cursor, numBuffersPlayed: int, prevEffectiveGain: StereoGain)

  /**
   * Where one mixing pass leaves the source cursor after `frames` output frames: at unit
   * pitch one source frame per output frame, otherwise the whole frames of the distance
   * travelled, with the fraction carried over.
   */
  function Advance(c: Cursor, pitch: real, unitPitch: bool, frames: nat): (r: Cursor)
    ensures 0.0 <= c.accumulator < 1.0 ==> 0.0 <= r.accumulator < 1.0
    ensures unitPitch ==> r.frameIndex == c.frameIndex + frames
    ensures !unitPitch && pitch >= 0.0 && 0.0 <= c.accumulator ==> r.frameIndex >= c.frameIndex
  {
    if unitPitch then Cursor(c.frameIndex + frames, c.accumulator)
    else
      var t := Travel(c.accumulator, pitch, frames);
      Cursor(c.frameIndex + t.Floor, t - t.Floor as real)
  }

  /**
   * kwlInt16ToFloatWithGain as called on lines 369-376: one channel, from output sample
   * `outSampleIdx` up to `maxOutSampleIdx`, one source frame per output frame.
   * The frame and channel parameters name where the two cursors stand.
   */
  method Int16ToFloatWithGain(src: seq<int>, out: array<real>, maxOutSampleIdx: int, srcSampleIdx: int,
                              srcNumChannels: int, outSampleIdx: int, numOutChannels: int, gain: real,
                              ghost outFrame: int, ghost maxOutFrame: int, ghost srcFrame: int, ghost ch: int)
    returns (srcIdx: int, outIdx: int)
    requires 0 <= ch < numOutChannels <= 2 && 1 <= srcNumChannels <= 2
    requires 0 <= outFrame && Slot(maxOutFrame, numOutChannels, 0) <= out.Length
    requires outSampleIdx == Slot(outFrame, numOutChannels, ch) && maxOutSampleIdx == Slot(maxOutFrame, numOutChannels, ch)
    requires srcSampleIdx == Slot(srcFrame, srcNumChannels, ch)
    modifies out
    ensures outIdx == Slot(Max(outFrame, maxOutFrame), numOutChannels, ch)
    ensures srcIdx == Slot(srcFrame + Max(0, maxOutFrame - outFrame), srcNumChannels, ch)
    ensures forall i :: 0 <= i < out.Length && !(Slot(outFrame, numOutChannels, 0) <= i < Slot(maxOutFrame, numOutChannels, 0)) ==>
              out[i] == old(out[i])
  {
    srcIdx, outIdx := srcSampleIdx, outSampleIdx;
    var f := outFrame;
    while outIdx < maxOutSampleIdx
      invariant outFrame <= f <= Max(outFrame, maxOutFrame)
      invariant outIdx == Slot(f, numOutChannels, ch) && srcIdx == Slot(srcFrame + f - outFrame, srcNumChannels, ch)
      invariant forall i :: 0 <= i < out.Length && !(Slot(outFrame, numOutChannels, 0) <= i < Slot(f, numOutChannels, 0)) ==>
                  out[i] == old(out[i])
      decreases maxOutSampleIdx - outIdx
    {
      SlotInFrame(f, maxOutFrame, numOutChannels, ch);
      SlotInFrame(f, f + 1, numOutChannels, ch);
      out[outIdx] := Sample(src, srcIdx, gain);
      outIdx := outIdx + numOutChannels;
      srcIdx := srcIdx + srcNumChannels;
      f := f + 1;
    }
  }

  /** Moving k frames on moves the sample position by k times the channel count. */
  lemma SlotShift(frame: int, k: int, channels: int, ch: int)
    requires 1 <= channels <= 2
    ensures Slot(frame, channels, ch) + k * channels == Slot(frame + k, channels, ch)
  {
  }

  /** A whole number plus a fraction in [0, 1) has that whole number as its floor. */
  lemma FloorOfSplit(n: int, a: real)
    requires 0.0 <= a < 1.0
    ensures (n as real + a).Floor == n
  {
  }

  /**
   * kwlInt16ToFloatWithGainAndPitch as called on lines 381-390: one channel, from output
   * sample `outSampleIdx` up to `maxOutSampleIdx`, the source read advancing by `pitch`
   * per output frame with the fraction carried in the accumulator.
   */
  method Int16ToFloatWithGainAndPitch(src: seq<int>, out: array<real>, maxOutSampleIdx: int, srcSampleIdx: int,
                                      srcNumChannels: int, outSampleIdx: int, numOutChannels: int, gain: real,
                                      pitch: real, accumulator: real,
                                      ghost outFrame: int, ghost maxOutFrame: int, ghost srcFrame: int, ghost ch: int)
    returns (srcIdx: int, outIdx: int, acc: real)
    requires 0 <= ch < numOutChannels <= 2 && 1 <= srcNumChannels <= 2
    requires 0 <= outFrame && Slot(maxOutFrame, numOutChannels, 0) <= out.Length
    requires outSampleIdx == Slot(outFrame, numOutChannels, ch) && maxOutSampleIdx == Slot(maxOutFrame, numOutChannels, ch)
    requires srcSampleIdx == Slot(srcFrame, srcNumChannels, ch)
    requires pitch > 0.0 && 0.0 <= accumulator < 1.0
    modifies out
    ensures outIdx == Slot(Max(outFrame, maxOutFrame), numOutChannels, ch)
    ensures var c := Advance(Cursor(srcFrame, accumulator), pitch, false, Max(0, maxOutFrame - outFrame));
            srcIdx == Slot(c.frameIndex, srcNumChannels, ch) && acc == c.accumulator
    ensures forall i :: 0 <= i < out.Length && !(Slot(outFrame, numOutChannels, 0) <= i < Slot(maxOutFrame, numOutChannels, 0)) ==>
              out[i] == old(out[i])
  {
    srcIdx, outIdx, acc := srcSampleIdx, outSampleIdx, accumulator;
    var f := outFrame;
    ghost var srcF := srcFrame;
    while outIdx < maxOutSampleIdx
      invariant outFrame <= f <= Max(outFrame, maxOutFrame)
      invariant outIdx == Slot(f, numOutChannels, ch) && srcIdx == Slot(srcF, srcNumChannels, ch)
      invariant 0.0 <= acc < 1.0 && (srcF - srcFrame) as real + acc == Travel(accumulator, pitch, f - outFrame)
      invariant forall i :: 0 <= i < out.Length && !(Slot(outFrame, numOutChannels, 0) <= i < Slot(f, numOutChannels, 0)) ==>
                  out[i] == old(out[i])
      decreases maxOutSampleIdx - outIdx
    {
      SlotInFrame(f, maxOutFrame, numOutChannels, ch);
      SlotInFrame(f, f + 1, numOutChannels, ch);
      out[outIdx] := Sample(src, srcIdx, gain);
      outIdx := outIdx + numOutChannels;
      acc := acc + pitch;
      var whole := acc.Floor;
      SlotShift(srcF, whole, srcNumChannels, ch);
      srcIdx := srcIdx + whole * srcNumChannels;
      srcF := srcF + whole;
      acc := acc - whole as real;
      f := f + 1;
    }
    var t := Travel(accumulator, pitch, f - outFrame);
    FloorOfSplit(srcF - srcFrame, acc);
  }

  /** C's array index arithmetic, frame * channels + ch, is the interleaved position. */
  lemma SlotIsProduct(frame: int, channels: int, ch: int)
    requires 1 <= channels <= 2
    ensures frame * channels + ch == Slot(frame, channels, ch)
  {
    if channels == 1 {
    } else {
    }
  }

  /** The channel of a sample position, for one or two channels, gives back its frame. */
  lemma SlotFrame(frame: int, channels: int, ch: int)
    requires 0 <= ch < channels <= 2
    ensures Slot(frame, channels, ch) / channels == frame
  {
  }

  /** kwlClearFloatBuffer (kwl_asm): `count` samples from `start` become silence. */
  method ClearFloatBuffer(out: array<real>, start: int, count: int)
    requires 0 <= start && 0 <= count && start + count <= out.Length
    modifies out
    ensures forall i :: 0 <= i < out.Length ==> out[i] == if start <= i < start + count then 0.0 else old(out[i])
  {
    var k := start;
    while k < start + count
      invariant start <= k <= start + count
      invariant forall i :: 0 <= i < out.Length ==> out[i] == if start <= i < k then 0.0 else old(out[i])
    {
      out[k] := 0.0;
      k := k + 1;
    }
  }

  function ChannelGain(g: StereoGain, ch: int): real {
    if ch == 0 then g.left else g.right
  }

  /** The gain kwlApplyGainRamp gives frame `frame` of channel `ch`: a straight line from `from` to `to` over the buffer. */
  function RampGain(from: StereoGain, to: StereoGain, ch: int, frame: int, numFrames: int): real {
    if numFrames <= 0 then ChannelGain(to, ch)
    else ChannelGain(from, ch) + (ChannelGain(to, ch) - ChannelGain(from, ch)) * frame as real / numFrames as real
  }

  /** A ramp between equal gains is flat: every frame gets that gain. */
  lemma RampFlat(g: StereoGain, ch: int, frame: int, numFrames: int)
    ensures RampGain(g, g, ch, frame, numFrames) == ChannelGain(g, ch)
  {
  }

  /** The ramp starts at its first gain. */
  lemma RampStart(from: StereoGain, to: StereoGain, ch: int, numFrames: int)
    requires numFrames > 0
    ensures RampGain(from, to, ch, 0, numFrames) == ChannelGain(from, ch)
  {
  }

  /**
   * `after` is `before` with the gain ramp from `from` to `to` applied: every sample of
   * the first numFrames frames scaled by its channel's ramp gain, the rest as it was.
   */
  ghost predicate Ramped(after: seq<real>, before: seq<real>, numOutChannels: int, numFrames: int, from: StereoGain, to: StereoGain)
  {
    1 <= numOutChannels <= 2 && |after| == |before| &&
    forall i :: 0 <= i < |after| ==>
      after[i] == if i < Slot(numFrames, numOutChannels, 0)
                  then before[i] * RampGain(from, to, i % numOutChannels, i / numOutChannels, numFrames)
                  else before[i]
  }

  /**
   * Every stereo frame among the first `frames` of `out` that was mixed from a mono
   * source buffer (`sourceChannels` records the channel count frame by frame) has equal
   * left and right samples.
   */
  ghost predicate PairsEqual(out: seq<real>, numOutChannels: int, frames: int, sourceChannels: seq<int>) {
    numOutChannels == 2 ==>
      forall i :: (0 <= i < Slot(frames, 2, 0) && i + 1 < |out| && i / 2 < |sourceChannels| && i % 2 == 0 &&
                   sourceChannels[i / 2] == 1) ==> out[i + 1] == out[i]
  }

  /** Samples `from` up to `to` of `s` are silence. */
  ghost predicate Silent(s: seq<real>, from: int, to: int) {
    0 <= from && to <= |s| && forall i :: from <= i < to ==> s[i] == 0.0
  }

  /**
   * What a mixing call produced before the ramp: `mixedFrames` output frames mixed from
   * source data, all of them unless the event finished, in which case the rest of
   * `mixed` is silent.
   */
  ghost predicate MixedFrames(numOutChannels: int, numFrames: int, donePlaying: int, mixedFrames: int, mixed: seq<real>)
  {
    0 <= mixedFrames <= numFrames && (donePlaying == 0 ==> mixedFrames == numFrames) &&
    (donePlaying == 1 ==> Silent(mixed, Slot(mixedFrames, numOutChannels, 0), Slot(numFrames, numOutChannels, 0)))
  }

  /** The ramp keeps silence silent: the zeroed tail of a finished event stays zero. */
  lemma RampKeepsSilence(after: seq<real>, before: seq<real>, numOutChannels: int, numFrames: int,
                         from: StereoGain, to: StereoGain, lo: int, hi: int)
    requires Ramped(after, before, numOutChannels, numFrames, from, to) && Silent(before, lo, hi)
    ensures Silent(after, lo, hi)
  {
    forall i | lo <= i < hi
      ensures after[i] == 0.0
    {
      assert before[i] == 0.0;
    }
  }

  /**
   * A ramp between equal gains scales every sample of its frames by its channel's gain:
   * the first render after a start, whose ramp starts at the current gains, does not
   * fade in from the previous ones.
   */
  lemma FlatRamp(after: seq<real>, before: seq<real>, numOutChannels: int, numFrames: int, g: StereoGain)
    requires Ramped(after, before, numOutChannels, numFrames, g, g)
    ensures forall i :: 0 <= i < |after| && i < Slot(numFrames, numOutChannels, 0) ==>
              after[i] == before[i] * ChannelGain(g, i % numOutChannels)
  {
    forall i | 0 <= i < |after| && i < Slot(numFrames, numOutChannels, 0)
      ensures after[i] == before[i] * ChannelGain(g, i % numOutChannels)
    {
      RampFlat(g, i % numOutChannels, i / numOutChannels, numFrames);
    }
  }

  /**
   * kwlApplyGainRamp (kwl_asm, not part of this model) as called on lines 489-493:
   * every sample of the first numFrames frames is scaled by its channel's ramp gain.
   */
  method ApplyGainRamp(out: array<real>, numOutChannels: int, numFrames: int, from: StereoGain, to: StereoGain)
    requires 1 <= numOutChannels <= 2 && 0 <= numFrames && Slot(numFrames, numOutChannels, 0) <= out.Length
    modifies out
    ensures Ramped(out[..], old(out[..]), numOutChannels, numFrames, from, to)
  {
    var k := 0;
    var end := Slot(numFrames, numOutChannels, 0);
    while k < end
      invariant 0 <= k <= end
      invariant forall i :: 0 <= i < out.Length ==>
                  out[i] == if i < k then old(out[i]) * RampGain(from, to, i % numOutChannels, i / numOutChannels, numFrames)
                            else old(out[i])
    {
      out[k] := out[k] * RampGain(from, to, k % numOutChannels, k / numOutChannels, numFrames);
      k := k + 1;
    }
  }

  // ---------------------------------------------------------------------------------
  // The playback-state checks and the fade (lines 260-315)

  /** A sound that does not defer stopping, or no sound at all, lets the event stop mid-buffer. */
  predicate AllowsImmediateStop(definition: EventDefinition) {
    definition.sound.Some? ==> definition.sound.value.deferStop == 0
  }

  /** What the checks at the top of a render call decide. */
  datatype Admission =
    | Finish          // return 1 without touching anything
    | Silence         // zero the output and return 0
    | PickThenMix     // pick the next buffer, then fade and mix
    | MixNow          // fade and mix

  /** The if/else chain of lines 262-299: the pause flag is looked at only outside the three stop states. */
  function Admit(state: PlaybackState, isPaused: bool, definition: EventDefinition): (a: Admission)
    ensures state == StopAndUnloadRequested ==> a == Finish
    ensures a == Silence <==> isPaused && state !in {StopRequested, PlayLastBufferAndStopRequested, StopAndUnloadRequested}
    ensures a == Finish <==> state == StopAndUnloadRequested || (state == StopRequested && AllowsImmediateStop(definition))
    ensures a == PickThenMix <==> state == PlayLastBufferAndStopRequested && AllowsImmediateStop(definition)
  {
    match state
    case StopAndUnloadRequested => Finish
    case StopRequested => if AllowsImmediateStop(definition) then Finish else MixNow
    case PlayLastBufferAndStopRequested => if AllowsImmediateStop(definition) then PickThenMix else MixNow
    case _ => if isPaused then Silence else MixNow
  }

  /** A stop request outranks the pause flag: in the stop states pausing changes nothing. */
  lemma StopOutranksPause(state: PlaybackState, definition: EventDefinition)
    requires state in {StopRequested, PlayLastBufferAndStopRequested, StopAndUnloadRequested}
    ensures Admit(state, true, definition) == Admit(state, false, definition) != Silence
  {
  }

  /** The fade after `numFrames` frames (lines 302-315): clamped to 1 above, and 0 with the event finished below 0. */
  datatype Fade = Fade(gain: real, finished: bool)

  function FadeStep(fadeGain: real, increment: real, numFrames: int): (f: Fade)
    ensures 0.0 <= f.gain <= 1.0
    ensures f.finished <==> fadeGain + increment * numFrames as real < 0.0
    ensures f.finished ==> f.gain == 0.0
    ensures 0.0 <= fadeGain + increment * numFrames as real <= 1.0 ==> f.gain == fadeGain + increment * numFrames as real
  {
    var g := fadeGain + increment * numFrames as real;
    if g > 1.0 then Fade(1.0, false)
    else if g < 0.0 then Fade(0.0, true)
    else Fade(g, false)
  }

  /**
   * Where the source cursor `c` stands after a render call has mixed `mixedFrames`
   * output frames from cursor `c0`: the last source buffer it mixed from was entered at
   * output frame `startFrame` with cursor `startCursor`, and has been read from there at
   * `pitch` ever since. With no buffer taken from the source (`consumed` false) that is
   * the call's own starting cursor at frame 0; otherwise it is the first frame of a new
   * buffer.
   */
  ghost predicate CursorTrail(c0: Cursor, consumed: bool, c: Cursor, mixedFrames: int, startFrame: int, startCursor: Cursor,
                              pitch: real, unitPitch: bool)
  {
    0 <= startFrame <= mixedFrames &&
    (!consumed ==> startFrame == 0 && startCursor == c0) &&
    (consumed ==> startCursor.frameIndex == 0) &&
    c == Advance(startCursor, pitch, unitPitch, mixedFrames - startFrame)
  }

  /** At unit pitch, a call that stays on one source buffer moves its cursor by exactly the frames it mixed. */
  lemma UnitPitchCursorMovesByFrames(c0: Cursor, c: Cursor, mixedFrames: int, startFrame: int, startCursor: Cursor, pitch: real)
    requires CursorTrail(c0, false, c, mixedFrames, startFrame, startCursor, pitch, true)
    ensures c == Cursor(c0.frameIndex + mixedFrames, c0.accumulator)
  {
  }

  /** `b` is what is left of the queue `a` once items have been taken from its front. */
  ghost predicate SuffixOf<T>(b: seq<T>, a: seq<T>)
  {
    |b| <= |a| && b == a[|a| - |b|..]
  }

  /** One more item taken from the front. */
  lemma SuffixStep<T>(a: seq<T>, b: seq<T>)
    requires SuffixOf(b, a) && b != []
    ensures SuffixOf(b[1..], a)
  {
    assert b[1..] == a[|a| - |b| + 1..];
  }

  // ---------------------------------------------------------------------------------
  // The event instance

  /**
   * Where the next source buffers come from: what the sound's buffer-picking policy
   * (kwlSoundDefinition_pickNextBufferForEvent) or the decoder
   * (kwlDecoder_decodeNewBufferForEvent) deliver, in order. Once it is empty, they
   * report that the event has finished.
   */
  class BufferSource {
    var pending: seq<SourceBuffer>

    constructor (pending: seq<SourceBuffer>)
      ensures this.pending == pending
    {
      this.pending := pending;
    }
  }

  /** kwlEventInstance: the fields `render` reads and updates. */
  class EventInstance {
    var definitionMixer: Option<EventDefinition>
    var definitionEngine: Option<EventDefinition>
    var position: Vector
    var velocity: Vector
    var direction: Vector
    var userGain: real
    var userPitch: real
    var balance: real
    var numBuffersPlayed: int
    var currentAudioDataIndex: int
    var pitchAccumulator: real
    var fadeGainIncrPerFrame: real
    var fadeGain: real
    var soundPitch: real
    var playbackState: PlaybackState
    var isPaused: bool
    /** The render-side values of the pitch and the two gains (`valueMixer`). */
    var pitch: real
    var gainLeft: real
    var gainRight: real
    var prevEffectiveGain: StereoGain
    var currentPCMBuffer: seq<int>
    var currentPCMBufferSize: int
    var currentNumChannels: int
    var currentPCMFrameIndex: int
    var hasDecoder: bool

    /** The state render relies on: a definition, a source of one or two channels, a cursor inside a frame. */
    predicate Ready(source: BufferSource)
      reads this, source
    {
      CursorReady() && forall b :: b in source.pending ==> 1 <= b.numChannels <= 2
    }

    predicate CursorReady()
      reads this
    {
      definitionMixer.Some? &&
      1 <= currentNumChannels <= 2 && 0 <= currentPCMFrameIndex && 0.0 <= pitchAccumulator < 1.0
    }

    /** The state kwlEventInstance_init leaves (lines 35-66): all zero except the defaults it sets. */
    predicate Initialized()
      reads this
    {
      definitionMixer == None && definitionEngine == None &&
      position == Vector(0.0, 0.0, 0.0) && velocity == Vector(0.0, 0.0, 0.0) && direction == Vector(0.0, 0.0, 0.0) &&
      userGain == 1.0 && userPitch == 1.0 && balance == 0.0 &&
      numBuffersPlayed == 0 && currentAudioDataIndex == 0 && pitchAccumulator == 0.0 &&
      fadeGainIncrPerFrame == 0.0 && fadeGain == 1.0 && soundPitch == 1.0 && playbackState == Stopped &&
      !isPaused && pitch == 0.0 && gainLeft == 0.0 && gainRight == 0.0 && prevEffectiveGain == StereoGain(0.0, 0.0) &&
      currentPCMBuffer == [] && currentPCMBufferSize == 0 && currentNumChannels == 0 && currentPCMFrameIndex == 0 &&
      !hasDecoder
    }

    /** kwlEventInstance_init (lines 35-66): the memset, then the defaults. */
    constructor Init()
      ensures definitionMixer == None && definitionEngine == None
      ensures position == Vector(0.0, 0.0, 0.0) && velocity == Vector(0.0, 0.0, 0.0) && direction == Vector(0.0, 0.0, 0.0)
      ensures userGain == 1.0 && userPitch == 1.0 && balance == 0.0
      ensures numBuffersPlayed == 0 && currentAudioDataIndex == 0 && pitchAccumulator == 0.0
      ensures fadeGainIncrPerFrame == 0.0 && fadeGain == 1.0 && soundPitch == 1.0 && playbackState == Stopped
      ensures !isPaused && pitch == 0.0 && gainLeft == 0.0 && gainRight == 0.0 && prevEffectiveGain == StereoGain(0.0, 0.0)
      ensures currentPCMBuffer == [] && currentPCMBufferSize == 0 && currentNumChannels == 0 && currentPCMFrameIndex == 0
      ensures !hasDecoder
    {
      definitionMixer := None;
      definitionEngine := None;
      position := Vector(0.0, 0.0, 0.0);
      velocity := Vector(0.0, 0.0, 0.0);
      direction := Vector(0.0, 0.0, 0.0);
      isPaused := false;
      pitch := 0.0;
      gainLeft := 0.0;
      gainRight := 0.0;
      prevEffectiveGain := StereoGain(0.0, 0.0);
      currentPCMBuffer := [];
      currentPCMBufferSize := 0;
      currentNumChannels := 0;
      currentPCMFrameIndex := 0;
      hasDecoder := false;
      userGain := 1.0;
      userPitch := 1.0;
      balance := 0.0;
      numBuffersPlayed := 0;
      currentAudioDataIndex := 0;
      pitchAccumulator := 0.0;
      fadeGainIncrPerFrame := 0.0;
      fadeGain := 1.0;
      soundPitch := 1.0;
      playbackState := Stopped;
    }

    /**
     * kwlEventInstance_start (lines 68-77): the source cursor back to the start, playing,
     * and the -1 sentinel in the previous gains, so that the first render does not ramp.
     */
    method Start()
      modifies this`numBuffersPlayed, this`pitchAccumulator, this`currentPCMFrameIndex, this`playbackState,
               this`soundPitch, this`prevEffectiveGain
      ensures numBuffersPlayed == 0 && pitchAccumulator == 0.0 && currentPCMFrameIndex == 0
      ensures playbackState == Playing && soundPitch == 1.0
      ensures prevEffectiveGain == StereoGain(-1.0, -1.0)
    {
      numBuffersPlayed := 0;
      pitchAccumulator := 0.0;
      currentPCMFrameIndex := 0;
      playbackState := Playing;
      soundPitch := 1.0;
      prevEffectiveGain := StereoGain(-1.0, -1.0);
    }

    /**
     * The buffer-picking policy or the decoder: the next source buffer becomes the
     * current one, read from its first frame; with none left, they report the end.
     */
    method PickNextBuffer(source: BufferSource) returns (finished: bool)
      modifies source, this`currentPCMBuffer, this`currentPCMBufferSize, this`currentNumChannels, this`currentPCMFrameIndex
      ensures finished <==> old(source.pending) == []
      ensures finished ==> unchanged(this) && unchanged(source)
      ensures !finished ==>
                var b := old(source.pending)[0];
                source.pending == old(source.pending)[1..] && currentPCMBuffer == b.samples &&
                currentPCMBufferSize == b.numFrames && currentNumChannels == b.numChannels && currentPCMFrameIndex == 0
    {
      if source.pending == [] {
        return true;
      }
      var b := source.pending[0];
      source.pending := source.pending[1..];
      currentPCMBuffer, currentPCMBufferSize, currentNumChannels, currentPCMFrameIndex := b.samples, b.numFrames, b.numChannels, 0;
      finished := false;
    }

    /**
     * The end of a source buffer (lines 425-441): count it as played, then ask the
     * decoder, or the sound, for the next one; an event with neither has finished.
     */
    method NextBuffer(source: BufferSource) returns (donePlaying: int)
      modifies source, this`currentPCMBuffer, this`currentPCMBufferSize, this`currentNumChannels, this`currentPCMFrameIndex,
               this`numBuffersPlayed
      ensures numBuffersPlayed == old(numBuffersPlayed) + 1
      ensures donePlaying == 0 || donePlaying == 1
      ensures donePlaying == 1 ==> source.pending == old(source.pending) && currentNumChannels == old(currentNumChannels) &&
                                   currentPCMFrameIndex == old(currentPCMFrameIndex)
      ensures donePlaying == 0 ==>
                old(source.pending) != [] && source.pending == old(source.pending)[1..] &&
                currentPCMBuffer == old(source.pending)[0].samples && currentPCMBufferSize == old(source.pending)[0].numFrames &&
                currentNumChannels == old(source.pending)[0].numChannels && currentPCMFrameIndex == 0
      ensures definitionMixer.None? && !hasDecoder ==> donePlaying == 1
    {
      numBuffersPlayed := numBuffersPlayed + 1;
      var finished: bool;
      if definitionMixer.None? && !hasDecoder {
        finished := true;
      } else if hasDecoder {
        finished := PickNextBuffer(source);
      } else {
        finished := PickNextBuffer(source);
      }
      donePlaying := if finished then 1 else 0;
    }
  
    /**
     * One pass of the channel loop (lines 349-415): every output channel is mixed from
     * output frame `outFrameIdx` up to `maxOutFrameIdx`, each channel starting from the
     * same source cursor; mono into stereo mixes the left channel, copies it to the
     * right one and stops. The indices and accumulator of the last channel mixed are
     * returned, as the C code keeps them.
     */
    method MixPass(out: array<real>, numOutChannels: int, outFrameIdx: int, maxOutFrameIdx: int,
                   unitPitch: bool, effectivePitch: real, soundGain: real)
      returns (outSampleIdx: int, srcSampleIdx: int, acc: real)
      requires 1 <= numOutChannels <= 2 && 1 <= currentNumChannels <= 2
      requires 0 <= outFrameIdx && Slot(maxOutFrameIdx, numOutChannels, 0) <= out.Length
      requires 0.0 <= pitchAccumulator < 1.0 && effectivePitch > 0.0
      modifies out
      ensures outSampleIdx / numOutChannels == Max(outFrameIdx, maxOutFrameIdx)
      ensures var c := Advance(Cursor(currentPCMFrameIndex, pitchAccumulator), effectivePitch, unitPitch,
                               Max(0, maxOutFrameIdx - outFrameIdx));
              srcSampleIdx / currentNumChannels == c.frameIndex && acc == c.accumulator
      ensures forall i :: 0 <= i < out.Length && !(Slot(outFrameIdx, numOutChannels, 0) <= i < Slot(maxOutFrameIdx, numOutChannels, 0)) ==>
                out[i] == old(out[i])
      ensures currentNumChannels == 1 && numOutChannels == 2 ==>
                forall i :: Slot(outFrameIdx, 2, 0) <= i < Slot(maxOutFrameIdx, 2, 0) && i % 2 == 0 ==> out[i + 1] == out[i]
    {
      ghost var cursor := Advance(Cursor(currentPCMFrameIndex, pitchAccumulator), effectivePitch, unitPitch,
                                  Max(0, maxOutFrameIdx - outFrameIdx));
      outSampleIdx, srcSampleIdx, acc := 0, 0, 0.0;
      var ch := 0;
      while ch < numOutChannels
        invariant 0 <= ch <= numOutChannels
        invariant ch >= 1 && numOutChannels == 2 ==> currentNumChannels == 2
        invariant ch > 0 ==> outSampleIdx == Slot(Max(outFrameIdx, maxOutFrameIdx), numOutChannels, ch - 1)
        invariant ch > 0 ==> srcSampleIdx == Slot(cursor.frameIndex, currentNumChannels, ch - 1) && acc == cursor.accumulator
        invariant forall i :: 0 <= i < out.Length && !(Slot(outFrameIdx, numOutChannels, 0) <= i < Slot(maxOutFrameIdx, numOutChannels, 0)) ==>
                    out[i] == old(out[i])
      {
        SlotIsProduct(outFrameIdx, numOutChannels, ch);
        SlotIsProduct(maxOutFrameIdx, numOutChannels, ch);
        SlotIsProduct(currentPCMFrameIndex, currentNumChannels, ch);
        outSampleIdx := outFrameIdx * numOutChannels + ch;
        var maxOutSampleIdx := maxOutFrameIdx * numOutChannels + ch;
        srcSampleIdx := currentPCMFrameIndex * currentNumChannels + ch;
        acc := pitchAccumulator;
        if unitPitch {
          srcSampleIdx, outSampleIdx := Int16ToFloatWithGain(currentPCMBuffer, out, maxOutSampleIdx, srcSampleIdx,
                                          currentNumChannels, outSampleIdx, numOutChannels, soundGain,
                                          outFrameIdx, maxOutFrameIdx, currentPCMFrameIndex, ch);
        } else {
          srcSampleIdx, outSampleIdx, acc := Int16ToFloatWithGainAndPitch(currentPCMBuffer, out, maxOutSampleIdx, srcSampleIdx,
                                               currentNumChannels, outSampleIdx, numOutChannels, soundGain,
                                               effectivePitch, acc, outFrameIdx, maxOutFrameIdx, currentPCMFrameIndex, ch);
        }
        if currentNumChannels == 1 && numOutChannels == 2 {
          CopyLeftToRight(out, outFrameIdx, maxOutFrameIdx);
          SlotFrame(Max(outFrameIdx, maxOutFrameIdx), numOutChannels, ch);
          SlotFrame(cursor.frameIndex, currentNumChannels, ch);
          return;
        }
        ch := ch + 1;
      }
      SlotFrame(Max(outFrameIdx, maxOutFrameIdx), numOutChannels, ch - 1);
      SlotFrame(cursor.frameIndex, currentNumChannels, ch - 1);
    }

    /**
     * The mixing loop (lines 317-463): passes over the output buffer, each up to the end
     * of the output or of the current source buffer, chaining source buffers until the
     * output is full or the event has finished, in which case the rest of the output is
     * zeroed. `sourceChannels` records the channel count of the source each output frame
     * was mixed from.
     */
    method Mix(out: array<real>, numOutChannels: int, numFrames: int, accumulatedBusPitch: real, epsilon: real,
               source: BufferSource)
      returns (donePlaying: int, outFrameIdx: int, ghost sourceChannels: seq<int>, ghost startFrame: int, ghost startCursor: Cursor)
      requires Ready(source) && 1 <= numOutChannels <= 2 && 0 <= numFrames && Slot(numFrames, numOutChannels, 0) <= out.Length
      requires epsilon > 0.0
      modifies out, source, this`currentPCMBuffer, this`currentPCMBufferSize, this`currentNumChannels,
               this`currentPCMFrameIndex, this`pitchAccumulator, this`numBuffersPlayed
      ensures Ready(source)
      ensures donePlaying == 0 || donePlaying == 1
      ensures 0 <= outFrameIdx <= numFrames && (donePlaying == 0 ==> outFrameIdx == numFrames)
      ensures var p := EffectivePitch(pitch, soundPitch, accumulatedBusPitch, epsilon);
              CursorTrail(Cursor(old(currentPCMFrameIndex), old(pitchAccumulator)), |source.pending| < old(|source.pending|),
                          Cursor(currentPCMFrameIndex, pitchAccumulator), outFrameIdx, startFrame, startCursor, p, IsUnitPitch(p, epsilon))
      ensures IsUnitPitch(EffectivePitch(pitch, soundPitch, accumulatedBusPitch, epsilon), epsilon) &&
              source.pending == old(source.pending) && donePlaying == 0 ==>
                currentPCMFrameIndex == old(currentPCMFrameIndex) + numFrames
      ensures donePlaying == 1 ==> Silent(out[..], Slot(outFrameIdx, numOutChannels, 0), Slot(numFrames, numOutChannels, 0))
      ensures forall i :: Slot(numFrames, numOutChannels, 0) <= i < out.Length ==> out[i] == old(out[i])
      ensures |sourceChannels| == outFrameIdx
      ensures PairsEqual(out[..], numOutChannels, outFrameIdx, sourceChannels)
      ensures SuffixOf(source.pending, old(source.pending))
      ensures numBuffersPlayed == old(numBuffersPlayed) + (old(|source.pending|) - |source.pending|) + donePlaying
    {
      ghost var pending0 := source.pending;
      ghost var c0 := Cursor(currentPCMFrameIndex, pitchAccumulator);
      ghost var p := EffectivePitch(pitch, soundPitch, accumulatedBusPitch, epsilon);
      outFrameIdx := 0;
      donePlaying := 0;
      sourceChannels := [];
      startFrame, startCursor := 0, c0;
      // the loop of lines 331-462; it ends by a break where the source sets
      // endOfOutBufferReached or finds the event done
      while true
        invariant Ready(source) && donePlaying == 0 && EffectivePitch(pitch, soundPitch, accumulatedBusPitch, epsilon) == p
        invariant 0 <= outFrameIdx <= numFrames && |sourceChannels| == outFrameIdx
        invariant |source.pending| == |pending0| ==> outFrameIdx == 0 && Cursor(currentPCMFrameIndex, pitchAccumulator) == c0
        invariant |source.pending| < |pending0| ==> currentPCMFrameIndex == 0
        invariant forall i :: Slot(numFrames, numOutChannels, 0) <= i < out.Length ==> out[i] == old(out[i])
        invariant PairsEqual(out[..], numOutChannels, outFrameIdx, sourceChannels)
        invariant SuffixOf(source.pending, pending0)
        invariant numBuffersPlayed == old(numBuffersPlayed) + (|pending0| - |source.pending|)
        decreases |source.pending|
      {
        startFrame, startCursor := outFrameIdx, Cursor(currentPCMFrameIndex, pitchAccumulator);
        var endOfSourceBufferReached;
        endOfSourceBufferReached, outFrameIdx, sourceChannels :=
          MixStep(out, numOutChannels, numFrames, outFrameIdx, accumulatedBusPitch, epsilon, sourceChannels);
        if !endOfSourceBufferReached {
          break;
        }
        ghost var pendingBefore := source.pending;
        donePlaying := EndOfSourceBuffer(out, numOutChannels, numFrames, outFrameIdx, source);
        if donePlaying != 0 {
          break;
        }
        SuffixStep(pending0, pendingBefore);
      }
      if IsUnitPitch(p, epsilon) && |source.pending| == |pending0| {
        UnitPitchCursorMovesByFrames(c0, Cursor(currentPCMFrameIndex, pitchAccumulator), outFrameIdx, startFrame, startCursor, p);
      }
    }

    /**
     * The end of a source buffer within the mixing loop (lines 423-454): the next source
     * buffer from its first frame or, when the event has finished, silence from output
     * frame `outFrameIdx` to the end of the output.
     */
    method EndOfSourceBuffer(out: array<real>, numOutChannels: int, numFrames: int, outFrameIdx: int, source: BufferSource)
      returns (donePlaying: int)
      requires Ready(source) && 1 <= numOutChannels <= 2 && 0 <= outFrameIdx <= numFrames
      requires Slot(numFrames, numOutChannels, 0) <= out.Length
      modifies out, source, this`currentPCMBuffer, this`currentPCMBufferSize, this`currentNumChannels,
               this`currentPCMFrameIndex, this`numBuffersPlayed
      ensures Ready(source)
      ensures numBuffersPlayed == old(numBuffersPlayed) + 1
      ensures donePlaying == 0 || donePlaying == 1
      ensures donePlaying == 1 ==>
                source.pending == old(source.pending) && currentPCMFrameIndex == old(currentPCMFrameIndex) &&
                Silent(out[..], Slot(outFrameIdx, numOutChannels, 0), Slot(numFrames, numOutChannels, 0)) &&
                forall i :: 0 <= i < out.Length && !(Slot(outFrameIdx, numOutChannels, 0) <= i < Slot(numFrames, numOutChannels, 0)) ==>
                  out[i] == old(out[i])
      ensures donePlaying == 0 ==>
                old(source.pending) != [] && source.pending == old(source.pending)[1..] && currentPCMFrameIndex == 0 &&
                out[..] == old(out[..])
    {
      donePlaying := NextBuffer(source);
      if donePlaying != 0 {
        SlotIsProduct(outFrameIdx, numOutChannels, 0);
        SlotIsProduct(numFrames - outFrameIdx, numOutChannels, 0);
        ClearFloatBuffer(out, outFrameIdx * numOutChannels, (numFrames - outFrameIdx) * numOutChannels);
      } else {
        assert old(source.pending)[0] in old(source.pending);
        forall b | b in source.pending
          ensures 1 <= b.numChannels <= 2
        {
          assert b in old(source.pending);
        }
      }
    }

    /**
     * One turn of the mixing loop up to the buffer-chaining checks (lines 331-420): the
     * effective pitch, how far the current source buffer reaches, one pass over the
     * channels, and the source cursor taken from the pass.
     */
    method MixStep(out: array<real>, numOutChannels: int, numFrames: int, outFrameIdx: int, accumulatedBusPitch: real,
                   epsilon: real, ghost sourceChannels: seq<int>)
      returns (endOfSourceBufferReached: bool, newOutFrameIdx: int, ghost newSourceChannels: seq<int>)
      requires CursorReady() && 1 <= numOutChannels <= 2 && 0 <= outFrameIdx <= numFrames
      requires Slot(numFrames, numOutChannels, 0) <= out.Length && epsilon > 0.0 && |sourceChannels| == outFrameIdx
      requires PairsEqual(out[..], numOutChannels, outFrameIdx, sourceChannels)
      modifies out, this`currentPCMFrameIndex, this`pitchAccumulator
      ensures CursorReady()
      ensures outFrameIdx <= newOutFrameIdx <= numFrames && (!endOfSourceBufferReached ==> newOutFrameIdx == numFrames)
      ensures var p := EffectivePitch(pitch, soundPitch, accumulatedBusPitch, epsilon);
              Cursor(currentPCMFrameIndex, pitchAccumulator) ==
                Advance(Cursor(old(currentPCMFrameIndex), old(pitchAccumulator)), p, IsUnitPitch(p, epsilon), newOutFrameIdx - outFrameIdx)
      ensures |newSourceChannels| == newOutFrameIdx
      ensures forall i :: Slot(numFrames, numOutChannels, 0) <= i < out.Length ==> out[i] == old(out[i])
      ensures PairsEqual(out[..], numOutChannels, newOutFrameIdx, newSourceChannels)
    {
      var effectivePitch := EffectivePitch(pitch, soundPitch, accumulatedBusPitch, epsilon);
      var unitPitch := IsUnitPitch(effectivePitch, epsilon);
      var numOutFramesLeft := NumRemainingOutFrames(currentPCMBufferSize, currentPCMFrameIndex, pitchAccumulator, effectivePitch, epsilon);
      var (maxOutFrameIdx, sourceRunsOut) := PassEnd(numFrames, outFrameIdx, numOutFramesLeft, unitPitch);
      endOfSourceBufferReached := sourceRunsOut;
      var definition := definitionMixer.value;
      var soundGain := if definition.sound.Some? then definition.sound.value.gain else 1.0;
      newOutFrameIdx, newSourceChannels :=
        MixPassAndAdvance(out, numOutChannels, outFrameIdx, maxOutFrameIdx, unitPitch, effectivePitch, soundGain, sourceChannels);
    }

    /**
     * The pass of MixStep and the cursor it leaves (lines 349-420): the output frame
     * moves to the end of the pass, and the event's source cursor is taken from the
     * last channel mixed.
     */
    method MixPassAndAdvance(out: array<real>, numOutChannels: int, outFrameIdx: int, maxOutFrameIdx: int,
                             unitPitch: bool, effectivePitch: real, soundGain: real, ghost sourceChannels: seq<int>)
      returns (newOutFrameIdx: int, ghost newSourceChannels: seq<int>)
      requires CursorReady() && 1 <= numOutChannels <= 2 && 0 <= outFrameIdx && |sourceChannels| == outFrameIdx
      requires Slot(Max(outFrameIdx, maxOutFrameIdx), numOutChannels, 0) <= out.Length && effectivePitch > 0.0
      requires PairsEqual(out[..], numOutChannels, outFrameIdx, sourceChannels)
      modifies out, this`currentPCMFrameIndex, this`pitchAccumulator
      ensures CursorReady()
      ensures newOutFrameIdx == Max(outFrameIdx, maxOutFrameIdx)
      ensures Cursor(currentPCMFrameIndex, pitchAccumulator) ==
                Advance(Cursor(old(currentPCMFrameIndex), old(pitchAccumulator)), effectivePitch, unitPitch,
                        Max(0, maxOutFrameIdx - outFrameIdx))
      ensures newSourceChannels == MixedFrom(sourceChannels, currentNumChannels, outFrameIdx, maxOutFrameIdx)
      ensures forall i :: 0 <= i < out.Length && !(Slot(outFrameIdx, numOutChannels, 0) <= i < Slot(maxOutFrameIdx, numOutChannels, 0)) ==>
                out[i] == old(out[i])
      ensures PairsEqual(out[..], numOutChannels, newOutFrameIdx, newSourceChannels)
    {
      ghost var before := out[..];
      var outSampleIdx, srcSampleIdx, acc := MixPass(out, numOutChannels, outFrameIdx, maxOutFrameIdx, unitPitch, effectivePitch, soundGain);
      newSourceChannels := MixedFrom(sourceChannels, currentNumChannels, outFrameIdx, maxOutFrameIdx);
      PairsKept(before, out[..], numOutChannels, outFrameIdx, maxOutFrameIdx, sourceChannels, currentNumChannels);
      newOutFrameIdx := outSampleIdx / numOutChannels;
      pitchAccumulator := acc;
      currentPCMFrameIndex := srcSampleIdx / currentNumChannels;
    }

    /**
     * kwlEventInstance_render (lines 254-500): the playback-state checks, the fade, the
     * mixing loop and the gain ramp; returns 1 when the event has finished. The ghost
     * results name what the checks decided, the fade, the state the mixing started from
     * and what MixedAndRamped says about the mixing.
     */
    method Render(out: array<real>, numOutChannels: int, numFrames: int, accumulatedBusPitch: real, epsilon: real,
                  source: BufferSource)
      returns (donePlaying: int, ghost admission: Admission, ghost fade: Fade, ghost entry: MixEntry,
               ghost mixedFrames: int, ghost mixed: seq<real>, ghost rampFrom: StereoGain, ghost startFrame: int,
               ghost startCursor: Cursor)
      requires Ready(source) && 1 <= numOutChannels <= 2 && 0 <= numFrames && Slot(numFrames, numOutChannels, 0) <= out.Length
      requires epsilon > 0.0
      modifies out, source, this`currentPCMBuffer, this`currentPCMBufferSize, this`currentNumChannels,
               this`currentPCMFrameIndex, this`pitchAccumulator, this`numBuffersPlayed, this`pitch, this`fadeGain,
               this`prevEffectiveGain
      ensures Ready(source)
      ensures donePlaying == 0 || donePlaying == 1
      ensures forall i :: Slot(numFrames, numOutChannels, 0) <= i < out.Length ==> out[i] == old(out[i])
      ensures admission == Admit(old(playbackState), old(isPaused), old(definitionMixer).value)
      ensures admission == Finish ==> donePlaying == 1 && unchanged(this) && unchanged(source) && unchanged(out)
      ensures admission == Silence ==>
                donePlaying == 0 && unchanged(this) && unchanged(source) &&
                forall i :: 0 <= i < Slot(numFrames, numOutChannels, 0) ==> out[i] == 0.0
      ensures pitch == if old(playbackState) !in {StopRequested, PlayLastBufferAndStopRequested, StopAndUnloadRequested} &&
                          !old(isPaused) && old(pitch) < epsilon then epsilon else old(pitch)
      // the state the mixing starts from: the pick consumes the first queued buffer
      ensures admission == MixNow ==> entry == old(Entry(source))
      ensures admission == PickThenMix ==>
                entry == if old(source.pending) == [] then old(Entry(source))
                         else MixEntry(old(source.pending)[1..], Cursor(0, old(pitchAccumulator)), old(numBuffersPlayed),
                                       old(prevEffectiveGain))
      // then the fade, which may finish the event, and the mixing with the ramp
      ensures (admission == PickThenMix || admission == MixNow) ==>
                fade == FadeStep(old(fadeGain), fadeGainIncrPerFrame, numFrames) && fadeGain == fade.gain
      ensures (admission == PickThenMix || admission == MixNow) && fade.finished ==>
                donePlaying == 1 && unchanged(out) && Entry(source) == entry
      ensures (admission == PickThenMix || admission == MixNow) && !fade.finished ==>
                MixedAndRamped(out[..], numOutChannels, numFrames, accumulatedBusPitch, epsilon, source, entry, donePlaying,
                               mixedFrames, mixed, rampFrom, startFrame, startCursor)
    {
      mixedFrames, mixed, rampFrom, startFrame, startCursor := 0, [], prevEffectiveGain, 0, Cursor(0, 0.0);
      fade := FadeStep(fadeGain, fadeGainIncrPerFrame, numFrames);
      ghost var pending0, cursor0 := source.pending, Cursor(currentPCMFrameIndex, pitchAccumulator);
      var proceed;
      donePlaying, proceed, admission := RenderChecks(out, numOutChannels, numFrames, epsilon, source);
      entry := Entry(source);
      if !proceed {
        return;
      }
      assert admission == MixNow ==> entry == MixEntry(pending0, cursor0, numBuffersPlayed, prevEffectiveGain);
      assert admission == PickThenMix && pending0 != [] ==>
               entry == MixEntry(pending0[1..], Cursor(0, cursor0.accumulator), numBuffersPlayed, prevEffectiveGain);
      donePlaying, fade, entry, mixedFrames, mixed, rampFrom, startFrame, startCursor :=
        FadeMixAndRamp(out, numOutChannels, numFrames, accumulatedBusPitch, epsilon, source);
    }

    /**
     * The checks at the top of a render call (lines 262-299), as Admit decides them:
     * finish, or zero the output while paused, or go on to the fade and the mixing,
     * first picking the next buffer when the last one is to be played before stopping.
     * A pitch below epsilon is raised to it outside the stop states.
     */
    method RenderChecks(out: array<real>, numOutChannels: int, numFrames: int, epsilon: real, source: BufferSource)
      returns (donePlaying: int, proceed: bool, ghost admission: Admission)
      requires Ready(source) && 1 <= numOutChannels <= 2 && 0 <= numFrames && Slot(numFrames, numOutChannels, 0) <= out.Length
      modifies out, source, this`currentPCMBuffer, this`currentPCMBufferSize, this`currentNumChannels,
               this`currentPCMFrameIndex, this`pitch
      ensures Ready(source)
      ensures forall i :: Slot(numFrames, numOutChannels, 0) <= i < out.Length ==> out[i] == old(out[i])
      ensures admission == Admit(old(playbackState), old(isPaused), old(definitionMixer).value)
      ensures proceed <==> admission == PickThenMix || admission == MixNow
      ensures proceed ==> unchanged(out) && donePlaying == 0
      ensures admission == Finish ==>
                donePlaying == 1 && unchanged(this) && unchanged(source) && unchanged(out)
      ensures admission == Silence ==>
                donePlaying == 0 && unchanged(this) && unchanged(source) &&
                forall i :: 0 <= i < Slot(numFrames, numOutChannels, 0) ==> out[i] == 0.0
      ensures admission == MixNow ==>
                unchanged(source) && currentPCMFrameIndex == old(currentPCMFrameIndex)
      ensures admission == PickThenMix ==>
                if old(source.pending) == [] then unchanged(source) && currentPCMFrameIndex == old(currentPCMFrameIndex)
                else source.pending == old(source.pending)[1..] && currentPCMFrameIndex == 0
      ensures pitch == if old(playbackState) !in {StopRequested, PlayLastBufferAndStopRequested, StopAndUnloadRequested} &&
                          !old(isPaused) && old(pitch) < epsilon then epsilon else old(pitch)
    {
      donePlaying, proceed := 0, true;
      var definition := definitionMixer.value;
      admission := Admit(playbackState, isPaused, definition);
      if playbackState == StopAndUnloadRequested {
        return 1, false, admission;
      } else if playbackState == StopRequested {
        if AllowsImmediateStop(definition) {
          return 1, false, admission;
        }
      } else if playbackState == PlayLastBufferAndStopRequested {
        if AllowsImmediateStop(definition) {
          var _ := PickNextBuffer(source);
          if old(source.pending) != [] {
            assert old(source.pending)[0] in old(source.pending);
            forall b | b in source.pending
              ensures 1 <= b.numChannels <= 2
            {
              assert b in old(source.pending);
            }
          }
        }
      } else if isPaused {
        SlotIsProduct(numFrames, numOutChannels, 0);
        ClearFloatBuffer(out, 0, numFrames * numOutChannels);
        return 0, false, admission;
      } else if pitch < epsilon {
        pitch := epsilon;
      }
    }

    /**
     * The part of a render call after the state checks (lines 302-499): the fade, which
     * may finish the event before anything is mixed, then the mixing loop and the gain
     * ramp.
     */
    method FadeMixAndRamp(out: array<real>, numOutChannels: int, numFrames: int, accumulatedBusPitch: real, epsilon: real,
                          source: BufferSource)
      returns (donePlaying: int, ghost fade: Fade, ghost entry: MixEntry, ghost mixedFrames: int, ghost mixed: seq<real>,
               ghost rampFrom: StereoGain, ghost startFrame: int, ghost startCursor: Cursor)
      requires Ready(source) && 1 <= numOutChannels <= 2 && 0 <= numFrames && Slot(numFrames, numOutChannels, 0) <= out.Length
      requires epsilon > 0.0
      modifies out, source, this`currentPCMBuffer, this`currentPCMBufferSize, this`currentNumChannels,
               this`currentPCMFrameIndex, this`pitchAccumulator, this`numBuffersPlayed, this`fadeGain,
               this`prevEffectiveGain
      ensures Ready(source)
      ensures donePlaying == 0 || donePlaying == 1
      ensures forall i :: Slot(numFrames, numOutChannels, 0) <= i < out.Length ==> out[i] == old(out[i])
      ensures entry == old(Entry(source))
      ensures fade == FadeStep(old(fadeGain), fadeGainIncrPerFrame, numFrames) && fadeGain == fade.gain
      ensures fade.finished ==> donePlaying == 1 && unchanged(out) && unchanged(source) && Entry(source) == entry
      ensures !fade.finished ==>
                MixedAndRamped(out[..], numOutChannels, numFrames, accumulatedBusPitch, epsilon, source, entry, donePlaying,
                               mixedFrames, mixed, rampFrom, startFrame, startCursor)
    {
      mixedFrames, mixed, rampFrom, startFrame, startCursor := 0, [], prevEffectiveGain, 0, Cursor(0, 0.0);
      entry := Entry(source);
      var step := FadeStep(fadeGain, fadeGainIncrPerFrame, numFrames);
      fade := step;
      fadeGain := step.gain;
      if step.finished {
        return 1, fade, entry, mixedFrames, mixed, rampFrom, startFrame, startCursor;
      }

      donePlaying, mixedFrames, mixed, rampFrom, startFrame, startCursor :=
        MixAndRamp(out, numOutChannels, numFrames, accumulatedBusPitch, epsilon, source);
    }

    /**
     * Mixing followed by the gain ramp (lines 317-499): the samples mixed this call
     * (`mixed`) are scaled from the previous effective gains to the current ones, which
     * are kept for the next call. Right after a start the previous gains are the -1
     * sentinel, and the ramp is flat at the current gains.
     */
    method MixAndRamp(out: array<real>, numOutChannels: int, numFrames: int, accumulatedBusPitch: real, epsilon: real,
                      source: BufferSource)
      returns (donePlaying: int, ghost mixedFrames: int, ghost mixed: seq<real>, ghost rampFrom: StereoGain,
               ghost startFrame: int, ghost startCursor: Cursor)
      requires Ready(source) && 1 <= numOutChannels <= 2 && 0 <= numFrames && Slot(numFrames, numOutChannels, 0) <= out.Length
      requires epsilon > 0.0
      modifies out, source, this`currentPCMBuffer, this`currentPCMBufferSize, this`currentNumChannels,
               this`currentPCMFrameIndex, this`pitchAccumulator, this`numBuffersPlayed, this`prevEffectiveGain
      ensures Ready(source)
      ensures donePlaying == 0 || donePlaying == 1
      ensures forall i :: Slot(numFrames, numOutChannels, 0) <= i < out.Length ==> out[i] == old(out[i])
      ensures MixedAndRamped(out[..], numOutChannels, numFrames, accumulatedBusPitch, epsilon, source, old(Entry(source)),
                             donePlaying, mixedFrames, mixed, rampFrom, startFrame, startCursor)
    {
      ghost var sourceChannels;
      donePlaying, mixedFrames, sourceChannels, startFrame, startCursor :=
        Mix(out, numOutChannels, numFrames, accumulatedBusPitch, epsilon, source);
      mixed := out[..];

      var effectiveGain := StereoGain(fadeGain * gainLeft, fadeGain * gainRight);
      if prevEffectiveGain.left < 0.0 {
        prevEffectiveGain := effectiveGain;
      }
      rampFrom := prevEffectiveGain;
      ApplyGainRamp(out, numOutChannels, numFrames, prevEffectiveGain, effectiveGain);
      prevEffectiveGain := effectiveGain;
    }

    /** The state a mixing call starts from: the queued source buffers, the source cursor, the count of buffers played and the previous effective gains. */
    ghost function Entry(source: BufferSource): MixEntry
      reads this, source
    {
      MixEntry(source.pending, Cursor(currentPCMFrameIndex, pitchAccumulator), numBuffersPlayed, prevEffectiveGain)
    }

    /**
     * The state a mixing call and the gain ramp leave, from the state `entry` the call
     * started in: what was mixed, the ramp, and what was taken from the source.
     */
    ghost predicate MixedAndRamped(out: seq<real>, numOutChannels: int, numFrames: int, accumulatedBusPitch: real,
                                   epsilon: real, source: BufferSource, entry: MixEntry, donePlaying: int,
                                   mixedFrames: int, mixed: seq<real>, rampFrom: StereoGain, startFrame: int,
                                   startCursor: Cursor)
      reads this, source
    {
      MixedFrames(numOutChannels, numFrames, donePlaying, mixedFrames, mixed) &&
      GainRamped(out, numOutChannels, numFrames, entry, mixed, rampFrom) &&
      SourceConsumed(accumulatedBusPitch, epsilon, source, entry, donePlaying, mixedFrames, startFrame, startCursor)
    }

    /**
     * The output as the ramp leaves it: `mixed` ramped from `rampFrom` (the previous
     * effective gains, or the new ones right after a start) to the new effective gains,
     * which are kept for the next call.
     */
    ghost predicate GainRamped(out: seq<real>, numOutChannels: int, numFrames: int, entry: MixEntry, mixed: seq<real>,
                               rampFrom: StereoGain)
      reads this
    {
      prevEffectiveGain == StereoGain(fadeGain * gainLeft, fadeGain * gainRight) &&
      rampFrom == (if entry.prevEffectiveGain.left < 0.0 then prevEffectiveGain else entry.prevEffectiveGain) &&
      Ramped(out, mixed, numOutChannels, numFrames, rampFrom, prevEffectiveGain)
    }

    /**
     * What a mixing call takes from the source: a prefix of the queued buffers, each
     * counted as played, as is the last one when the event finishes; the source cursor
     * has moved along the trail of the last buffer entered.
     */
    ghost predicate SourceConsumed(accumulatedBusPitch: real, epsilon: real, source: BufferSource, entry: MixEntry,
                                   donePlaying: int, mixedFrames: int, startFrame: int, startCursor: Cursor)
      reads this, source
    {
      var p := EffectivePitch(pitch, soundPitch, accumulatedBusPitch, epsilon);
      SuffixOf(source.pending, entry.pending) &&
      numBuffersPlayed == entry.numBuffersPlayed + (|entry.pending| - |source.pending|) + donePlaying &&
      CursorTrail(entry.cursor, |source.pending| < |entry.pending|, Cursor(currentPCMFrameIndex, pitchAccumulator),
                  mixedFrames, startFrame, startCursor, p, IsUnitPitch(p, epsilon))
    }

    /**
     * Right after a start (the -1 sentinel in the previous gains) there is no ramp: each
     * sample mixed this call is scaled by the new effective gain of its channel.
     */
    lemma FirstRenderIsFlat(out: seq<real>, numOutChannels: int, numFrames: int, entry: MixEntry, mixed: seq<real>,
                            rampFrom: StereoGain)
      requires GainRamped(out, numOutChannels, numFrames, entry, mixed, rampFrom)
      requires entry.prevEffectiveGain.left < 0.0
      ensures forall i :: 0 <= i < |out| && i < Slot(numFrames, numOutChannels, 0) ==>
                out[i] == mixed[i] * ChannelGain(prevEffectiveGain, i % numOutChannels)
    {
      FlatRamp(out, mixed, numOutChannels, numFrames, prevEffectiveGain);
    }

    /** Once the event has finished, the output after the frames mixed from source data is silent. */
    lemma FinishedTailIsSilent(out: seq<real>, numOutChannels: int, numFrames: int, entry: MixEntry, donePlaying: int,
                               mixedFrames: int, mixed: seq<real>, rampFrom: StereoGain)
      requires MixedFrames(numOutChannels, numFrames, donePlaying, mixedFrames, mixed)
      requires GainRamped(out, numOutChannels, numFrames, entry, mixed, rampFrom)
      requires donePlaying == 1
      ensures Silent(out, Slot(mixedFrames, numOutChannels, 0), Slot(numFrames, numOutChannels, 0))
    {
      RampKeepsSilence(out, mixed, numOutChannels, numFrames, rampFrom, prevEffectiveGain,
                       Slot(mixedFrames, numOutChannels, 0), Slot(numFrames, numOutChannels, 0));
    }

    /**
     * At unit pitch a call that fills the output from the source buffer it started on
     * moves the source cursor by exactly the frames it mixed, and keeps the accumulator.
     */
    lemma UnitPitchRenderMovesByFrames(numOutChannels: int, numFrames: int, accumulatedBusPitch: real, epsilon: real,
                                       source: BufferSource, entry: MixEntry, donePlaying: int, mixedFrames: int,
                                       mixed: seq<real>, startFrame: int, startCursor: Cursor)
      requires MixedFrames(numOutChannels, numFrames, donePlaying, mixedFrames, mixed)
      requires SourceConsumed(accumulatedBusPitch, epsilon, source, entry, donePlaying, mixedFrames, startFrame, startCursor)
      requires IsUnitPitch(EffectivePitch(pitch, soundPitch, accumulatedBusPitch, epsilon), epsilon)
      requires source.pending == entry.pending && donePlaying == 0
      ensures currentPCMFrameIndex == entry.cursor.frameIndex + numFrames && pitchAccumulator == entry.cursor.accumulator
    {
      UnitPitchCursorMovesByFrames(entry.cursor, Cursor(currentPCMFrameIndex, pitchAccumulator), mixedFrames, startFrame,
                                   startCursor, EffectivePitch(pitch, soundPitch, accumulatedBusPitch, epsilon));
    }
  }

  /** Lines 396-405: mono into stereo, each right sample becomes a copy of its left one. */
  method CopyLeftToRight(out: array<real>, outFrameIdx: int, maxOutFrameIdx: int)
    requires 0 <= outFrameIdx && Slot(maxOutFrameIdx, 2, 0) <= out.Length
    modifies out
    ensures forall i :: Slot(outFrameIdx, 2, 0) <= i < Slot(maxOutFrameIdx, 2, 0) && i % 2 == 0 ==> out[i + 1] == out[i]
    ensures forall i :: 0 <= i < out.Length && !(Slot(outFrameIdx, 2, 0) <= i < Slot(maxOutFrameIdx, 2, 0)) ==>
              out[i] == old(out[i])
  {
    var i := outFrameIdx * 2;
    while i < maxOutFrameIdx * 2
      invariant i % 2 == 0 && 2 * outFrameIdx <= i <= Max(2 * outFrameIdx, 2 * maxOutFrameIdx)
      invariant forall j :: 2 * outFrameIdx <= j < i && j % 2 == 0 ==> out[j + 1] == out[j]
      invariant forall j :: 0 <= j < out.Length && !(2 * outFrameIdx <= j < 2 * maxOutFrameIdx) ==> out[j] == old(out[j])
    {
      out[i + 1] := out[i];
      i := i + 2;
    }
  }

  /** The channel counts of the frames mixed so far, after a pass over [outFrameIdx, maxOutFrameIdx). */
  function MixedFrom(sourceChannels: seq<int>, channels: int, outFrameIdx: int, maxOutFrameIdx: int): (r: seq<int>)
    requires |sourceChannels| == outFrameIdx
    ensures |r| == Max(outFrameIdx, maxOutFrameIdx) && r[..outFrameIdx] == sourceChannels
    ensures forall f :: outFrameIdx <= f < |r| ==> r[f] == channels
  {
    sourceChannels + seq(Max(0, maxOutFrameIdx - outFrameIdx), _ => channels)
  }

  /**
   * After a pass over [outFrameIdx, maxOutFrameIdx) that wrote nothing else, the frames
   * mixed from a mono source into stereo still have equal left and right samples.
   */
  lemma PairsKept(before: seq<real>, after: seq<real>, numOutChannels: int, outFrameIdx: int, maxOutFrameIdx: int,
                  sourceChannels: seq<int>, channels: int)
    requires |before| == |after| && 0 <= outFrameIdx && 1 <= numOutChannels <= 2 && |sourceChannels| == outFrameIdx
    requires Slot(Max(outFrameIdx, maxOutFrameIdx), numOutChannels, 0) <= |after|
    requires forall i :: 0 <= i < |after| && !(Slot(outFrameIdx, numOutChannels, 0) <= i < Slot(maxOutFrameIdx, numOutChannels, 0)) ==>
               after[i] == before[i]
    requires PairsEqual(before, numOutChannels, outFrameIdx, sourceChannels)
    requires channels == 1 && numOutChannels == 2 ==>
               forall i :: Slot(outFrameIdx, 2, 0) <= i < Slot(maxOutFrameIdx, 2, 0) && i % 2 == 0 ==> after[i + 1] == after[i]
    ensures PairsEqual(after, numOutChannels, Max(outFrameIdx, maxOutFrameIdx), MixedFrom(sourceChannels, channels, outFrameIdx, maxOutFrameIdx))
  {
  }

  // ---------------------------------------------------------------------------------
  // Freeform events (lines 79-229)

  /** The id that marks a freeform event playing a caller's buffer, whose samples release leaves alone. */
  const FreeformBufferEventId: string := "freeform buffer event"

  /** The id of a freeform event playing a loaded audio file. */
  const FreeformEventId: string := "freeform event"

  /** The checks of createFreeformEventFromBuffer (lines 81-87): frames, one or two channels, and data. */
  predicate ValidBuffer(buffer: PcmBuffer) {
    buffer.numFrames >= 1 && 1 <= buffer.numChannels <= 2 && buffer.pcmData.Some?
  }

  /**
   * The audio data wrapped around a caller's buffer (lines 89-96): 16-bit PCM, the
   * buffer's frames and channels, two bytes a sample, and the caller's samples themselves.
   */
  function BufferAudioData(buffer: PcmBuffer): (a: AudioData)
    requires ValidBuffer(buffer)
    ensures a.encoding == Signed16BitPcm && a.bytes == buffer.pcmData
    ensures a.numFrames == buffer.numFrames && a.numChannels == buffer.numChannels
    ensures a.numBytes == 2 * a.numFrames * a.numChannels && a.numBytes >= 2
  {
    AudioData(Signed16BitPcm, buffer.numChannels, buffer.numFrames, buffer.numFrames * buffer.numChannels * 2, buffer.pcmData)
  }

  /** The sound of a freeform event (lines 145-160): its one audio entry played once, at unit gain and pitch. */
  function FreeformSound(audioData: AudioData): SoundDefinition {
    SoundDefinition([audioData], Sequential, 1, 0, 1.0, 1.0, 0.0, 0.0)
  }

  /**
   * The definition a freeform event owns (lines 140-188): one instance, no mix bus
   * (which is how the mixer tells a freeform event), no wave banks, no stream data,
   * and a sound only when the audio is 16-bit PCM; other encodings are not supported
   * and leave the event without one.
   */
  function FreeformDefinition(audioData: AudioData, eventType: EventType, eventId: string): (d: EventDefinition)
    ensures d.mixBus.None? && d.instanceCount == 1 && d.numReferencedWaveBanks == 0 && d.streamAudioData.None?
    ensures d.isPositional == 1 <==> eventType == Positional
    ensures d.isPositional == 0 <==> eventType == NonPositional
    ensures d.sound.Some? <==> audioData.encoding == Signed16BitPcm
    ensures d.sound.Some? ==> d.sound.value.audioDataEntries == [audioData] && d.sound.value.playbackCount == 1
    ensures d.id == eventId
  {
    EventDefinition(
      eventId, 1, if eventType == Positional then 1 else 0, 1.0, 1.0, 1.0, -1.0, 1.0, Retrigger, DontSteal,
      None, if audioData.encoding == Signed16BitPcm then Some(FreeformSound(audioData)) else None, 0, None)
  }

  /**
   * kwlEventInstance_createFreeformEventFromAudioData (lines 133-196): a new, freshly
   * initialised instance whose mixer-side and engine-side definitions are the same
   * freeform definition.
   */
  method CreateFreeformEventFromAudioData(audioData: AudioData, eventType: EventType, eventId: string)
    returns (rc: EngineError, event: EventInstance)
    ensures rc == NoError && fresh(event)
    ensures event.definitionMixer == Some(FreeformDefinition(audioData, eventType, eventId))
    ensures event.definitionEngine == event.definitionMixer
    ensures event.playbackState == Stopped && event.fadeGain == 1.0 && event.userGain == 1.0 && event.userPitch == 1.0
  {
    event := new EventInstance.Init();
    var definition := FreeformDefinition(audioData, eventType, eventId);
    event.definitionMixer := Some(definition);
    event.definitionEngine := Some(definition);
    rc := NoError;
  }

  /**
   * kwlEventInstance_createFreeformEventFromBuffer (lines 79-102): an invalid buffer is
   * refused with no event; a valid one is played in place, under the buffer event id.
   */
  method CreateFreeformEventFromBuffer(buffer: PcmBuffer, eventType: EventType)
    returns (rc: EngineError, event: EventInstance?)
    ensures rc == InvalidParameterValue <==> !ValidBuffer(buffer)
    ensures rc == InvalidParameterValue ==> event == null
    ensures rc != InvalidParameterValue ==>
              rc == NoError && event != null && fresh(event) &&
              event.definitionMixer == Some(FreeformDefinition(BufferAudioData(buffer), eventType, FreeformBufferEventId)) &&
              event.definitionEngine == event.definitionMixer
  {
    if buffer.numFrames < 1 || buffer.numChannels < 1 || buffer.numChannels > 2 || buffer.pcmData.None? {
      return InvalidParameterValue, null;
    }
    var audioData := AudioData(Signed16BitPcm, buffer.numChannels, buffer.numFrames,
                               buffer.numFrames * buffer.numChannels * 2, buffer.pcmData);
    rc, event := CreateFreeformEventFromAudioData(audioData, eventType, FreeformBufferEventId);
  }

  /**
   * kwlEventInstance_createFreeformEventFromFile (lines 104-131). Loading the file is
   * outside this model: `loadResult` is what the loader returned and `loaded` the audio
   * data it filled in. A loader error is passed on; a positional event needs mono data.
   * Streaming from disk is not supported, and the source asserts the flag is 0.
   */
  method CreateFreeformEventFromFile(loadResult: EngineError, loaded: AudioData, eventType: EventType,
                                     streamFromDisk: int)
    returns (rc: EngineError, event: EventInstance?)
    requires streamFromDisk == 0
    ensures loadResult != NoError ==> rc == loadResult && event == null
    ensures loadResult == NoError && eventType == Positional && loaded.numChannels != 1 ==>
              rc == PositionalEventMustBeMono && event == null
    ensures loadResult == NoError && (eventType == NonPositional || loaded.numChannels == 1) ==>
              rc == NoError && event != null && fresh(event) &&
              event.definitionMixer == Some(FreeformDefinition(loaded, eventType, FreeformEventId)) &&
              event.definitionEngine == event.definitionMixer
  {
    if loadResult != NoError {
      return loadResult, null;
    }
    if eventType == Positional && loaded.numChannels != 1 {
      return PositionalEventMustBeMono, null;
    }
    rc, event := CreateFreeformEventFromAudioData(loaded, eventType, FreeformEventId);
  }

  /** A definition release can take apart: a sound it owns has the audio entry release reads. */
  predicate Releasable(definition: EventDefinition) {
    definition.sound.Some? ==> |definition.sound.value.audioDataEntries| >= 1
  }

  /**
   * The sample data kwlEventInstance_releaseFreeformEvent frees (lines 198-229): the
   * stream data's, else the sound's audio entry's, except that a buffer event's pointer
   * is cleared first; None when nothing is freed.
   */
  function ReleasedSamples(definition: EventDefinition): (r: Option<seq<int>>)
    requires Releasable(definition)
    ensures definition.streamAudioData.Some? ==> r == definition.streamAudioData.value.bytes
    ensures definition.streamAudioData.None? && definition.sound.None? ==> r == None
    ensures definition.streamAudioData.None? && definition.id == FreeformBufferEventId ==> r == None
  {
    if definition.streamAudioData.Some? then definition.streamAudioData.value.bytes
    else if definition.sound.Some? then
      if definition.id == FreeformBufferEventId then None
      else definition.sound.value.audioDataEntries[0].bytes
    else None
  }

  /**
   * kwlEventInstance_releaseFreeformEvent (lines 198-229), with the freeing of the
   * structs left out: the sample data it hands to kwlAudioData_free.
   */
  method ReleaseFreeformEvent(event: EventInstance) returns (freedSamples: Option<seq<int>>)
    requires event.definitionEngine.Some? && Releasable(event.definitionEngine.value)
    ensures freedSamples == ReleasedSamples(event.definitionEngine.value)
  {
    var definition := event.definitionEngine.value;
    freedSamples := None;
    if definition.streamAudioData.Some? {
      freedSamples := definition.streamAudioData.value.bytes;
    } else if definition.sound.Some? {
      var entry := definition.sound.value.audioDataEntries[0];
      if definition.id == FreeformBufferEventId {
        entry := entry.(bytes := None);
      }
      freedSamples := entry.bytes;
    }
  }

  /** Every freeform definition can be released. */
  lemma FreeformReleasable(audioData: AudioData, eventType: EventType, eventId: string)
    ensures Releasable(FreeformDefinition(audioData, eventType, eventId))
  {
  }

  /**
   * Releasing a buffer event leaves the caller's samples alone, whatever they are:
   * the buffer belongs to the caller.
   */
  lemma BufferEventKeepsSamples(buffer: PcmBuffer, eventType: EventType)
    requires ValidBuffer(buffer)
    ensures ReleasedSamples(FreeformDefinition(BufferAudioData(buffer), eventType, FreeformBufferEventId)) == None
  {
  }

  /** Releasing an event made from a 16-bit PCM file frees exactly the samples loaded for it. */
  lemma FileEventReleasesSamples(loaded: AudioData, eventType: EventType)
    requires loaded.encoding == Signed16BitPcm
    ensures ReleasedSamples(FreeformDefinition(loaded, eventType, FreeformEventId)) == loaded.bytes
  {
  }

  /**
   * An event made from audio in another encoding has no sound: it plays nothing, and
   * release frees none of its samples.
   */
  lemma NonPcmEventHasNothingToPlay(audioData: AudioData, eventType: EventType, eventId: string)
    requires audioData.encoding != Signed16BitPcm
    ensures FreeformDefinition(audioData, eventType, eventId).sound.None?
    ensures ReleasedSamples(FreeformDefinition(audioData, eventType, eventId)) == None
  {
  }
}
