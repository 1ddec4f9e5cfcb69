/**
 * The per-call queries of an open MIDI file: seeking, its duration, and
 * decoding the next block of audio. libsmf's view of the file is a Timeline
 * value; FluidSynth's player status and rendering are inputs.
 */
module Playback {
  import opened Optional

  /** (int)x in C: the fractional part is dropped, rounding toward zero. */
  function Trunc(x: real): (r: int)
    ensures 0.0 <= x ==> 0 <= r && r as real <= x < r as real + 1.0
    ensures x < 0.0 ==> r <= 0 && r as real - 1.0 < x <= r as real
  {
    if x >= 0.0 then x.Floor else -((-x).Floor)
  }

  /** An smf_event_t as seek reads it: its time in pulses and in seconds. */
  datatype SmfEvent = SmfEvent(timePulses: int, timeSeconds: real)

  /**
   * libsmf's view of a loaded MIDI file: its length in seconds; for each
   * target time, whether smf_seek_to_seconds(target) fails; and the event
   * smf_peek_next_event returns after that seek, or None for a NULL event.
   */
  datatype Timeline = Timeline(length: real, seekFails: real -> bool, nextEvent: real -> Option<SmfEvent>)

  /** A file of non-negative length whose events never lie before its start. */
  ghost predicate WellFormed(tl: Timeline)
  {
    0.0 <= tl.length
    && forall t :: tl.nextEvent(t).Some? ==> 0.0 <= tl.nextEvent(t).value.timeSeconds
  }

  /**
   * The event the seek reads exists: the C dereferences the peeked event
   * without checking it for NULL, so a successful libsmf seek must leave one.
   */
  predicate PeekDefined(tl: Timeline, target: real)
  {
    !tl.seekFails(target) ==> tl.nextEvent(target).Some?
  }

  /** MIN(sec, length): the requested second, or the end of the file when it lies beyond. */
  function Clamp(sec: int, length: real): (t: real)
    ensures t <= sec as real && t <= length
    ensures t == sec as real || t == length
  {
    if sec as real <= length then sec as real else length
  }

  /**
   * fluidsynth_seek: with libsmf, seek the file's timeline to the clamped
   * target, then move the player to the next event's pulse; the result is
   * that event's second, or -1 when either seek fails. Without libsmf a seek
   * always fails. playerSeekFails says whether fluid_player_seek fails at a pulse.
   */
  function Seek(haveSmf: bool, sec: int, tl: Timeline, playerSeekFails: int -> bool): (r: int)
    requires haveSmf ==> 0 <= sec && PeekDefined(tl, Clamp(sec, tl.length))
    ensures !haveSmf ==> r == -1
    ensures haveSmf && tl.seekFails(Clamp(sec, tl.length)) ==> r == -1
  {
    if !haveSmf then -1
    else
      var target := Clamp(sec, tl.length);
      if tl.seekFails(target) then -1
      else
        var event := tl.nextEvent(target).value;
        if playerSeekFails(event.timePulses) then -1 else Trunc(event.timeSeconds)
  }

  /**
   * On a well-formed file, a seek reports -1 exactly when it fails; when it
   * succeeds it reports the whole second of the event playback resumes at,
   * which may differ from the second requested.
   */
  lemma SeekMeans(haveSmf: bool, sec: int, tl: Timeline, playerSeekFails: int -> bool)
    requires haveSmf ==> 0 <= sec && PeekDefined(tl, Clamp(sec, tl.length))
    requires WellFormed(tl)
    ensures var r := Seek(haveSmf, sec, tl, playerSeekFails);
            var target := Clamp(sec, tl.length);
            var next := tl.nextEvent(target);
            && (r == -1 <==> !haveSmf || tl.seekFails(target) || playerSeekFails(next.value.timePulses))
            && (r != -1 ==> 0 <= r && r as real <= next.value.timeSeconds < r as real + 1.0)
  {
    var target := Clamp(sec, tl.length);
    if haveSmf && !tl.seekFails(target) {
      assert 0.0 <= tl.nextEvent(target).value.timeSeconds;
    }
  }

  /** Every seek at or past the end of the file lands where any other such seek lands. */
  lemma SeekPastEnd(sec1: int, sec2: int, tl: Timeline, playerSeekFails: int -> bool)
    requires 0 <= sec1 && tl.length <= sec1 as real
    requires 0 <= sec2 && tl.length <= sec2 as real
    requires PeekDefined(tl, tl.length)
    ensures Seek(true, sec1, tl, playerSeekFails) == Seek(true, sec2, tl, playerSeekFails)
  {
    assert Clamp(sec1, tl.length) == tl.length == Clamp(sec2, tl.length);
  }

  /** fluidsynth_get_duration: the file's length in whole seconds with libsmf, -1 without. */
  function GetDuration(haveSmf: bool, tl: Timeline): (r: int)
    ensures !haveSmf ==> r == -1
    ensures haveSmf && WellFormed(tl) ==> 0 <= r && r as real <= tl.length < r as real + 1.0
  {
    if haveSmf then Trunc(tl.length) else -1
  }

  /** A successful seek never reports a point past the file's duration, provided its event lies within the file. */
  lemma SeekWithinDuration(sec: int, tl: Timeline, playerSeekFails: int -> bool)
    requires 0 <= sec && WellFormed(tl) && PeekDefined(tl, Clamp(sec, tl.length))
    requires forall t :: tl.nextEvent(t).Some? ==> tl.nextEvent(t).value.timeSeconds <= tl.length
    ensures Seek(true, sec, tl, playerSeekFails) <= GetDuration(true, tl)
  {
    var target := Clamp(sec, tl.length);
    if !tl.seekFails(target) && !playerSeekFails(tl.nextEvent(target).value.timePulses) {
      TruncMonotone(tl.nextEvent(target).value.timeSeconds, tl.length);
    }
  }

  lemma TruncMonotone(x: real, y: real)
    requires 0.0 <= x <= y
    ensures Trunc(x) <= Trunc(y)
  {
  }

  /** How samples are encoded: bytes per sample, signedness, byte order (SFMT_S16 | SFMT_LE is 2, signed, little-endian). */
  datatype SampleFormat = SampleFormat(bytesPerSample: nat, signed: bool, littleEndian: bool)

  /** struct sound_params: channel count, sample rate, sample format. */
  datatype SoundParams = SoundParams(channels: nat, rate: int, format: SampleFormat)

  /** The bytes one frame (one sample for every channel) occupies. */
  function FrameBytes(params: SoundParams): nat
  {
    params.channels * params.format.bytesPerSample
  }

  /**
   * fluidsynth_decode: announce interleaved stereo 16-bit little-endian audio
   * at the configured rate; if the player is playing, ask the synth for as
   * many whole frames as fit in the buffer (requested) and report the whole
   * buffer as filled, or 0 when the render fails; a player that is not
   * playing reports 0 (end of stream) and renders nothing.
   */
  method Decode(rate: int, bufLen: nat, playing: bool, renderFails: bool)
    returns (bytes: int, params: SoundParams, requested: Option<nat>)
    ensures params.channels == 2 && params.rate == rate
    ensures params.format == SampleFormat(2, true, true)
    ensures requested.Some? <==> playing
    ensures requested.Some? ==>
              requested.value * FrameBytes(params) <= bufLen < (requested.value + 1) * FrameBytes(params)
    ensures bytes == 0 || bytes == bufLen
    ensures bytes == bufLen <==> bufLen == 0 || (playing && !renderFails)
  {
    params := SoundParams(2, rate, SampleFormat(2, true, true));
    if !playing {
      return 0, params, None;
    }
    requested := Some(bufLen / (2 * params.channels));
    if renderFails {
      return 0, params, requested;
    }
    bytes := bufLen;
  }
}
