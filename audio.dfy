/**
 * The synthesised sound effects: an audio manager that owns at most one audio context and a
 * mute flag, and schedules tone voices on it. A scheduled voice is recorded as the parameters
 * the manager gives it (waveform, frequency and gain schedules, start and stop times); the
 * sound itself is not modelled.
 */
module AudioUtil {

  import opened Types

  datatype Waveform = Sine | Triangle

  datatype RampKind = LinearRamp | ExponentialRamp

  /**
   * The schedule of one audio parameter: a fixed value, or a value set at `fromTime` and
   * ramped to `to` by `toTime`.
   */
  datatype Param =
    | Fixed(value: real)
    | Ramp(kind: RampKind, from: real, fromTime: real, to: real, toTime: real)

  /** One oscillator routed through its own gain node to the output. */
  datatype Voice = Voice(wave: Waveform, frequency: Param, gain: Param, start: real, stop: real)

  datatype ContextState = Suspended | Running | Closed

  /** The part of an audio context the manager consults. */
  datatype AudioContext = AudioContext(state: ContextState)

  /** What the platform offers when the manager is constructed. */
  datatype Platform =
    | NoAudioContextClass           // neither AudioContext nor webkitAudioContext exists
    | ConstructorThrows             // the class exists, but `new` throws
    | Supported(initial: ContextState)

  const TickStartHz: real := 600.0
  const TickEndHz: real := 300.0
  const TickStartGain: real := 0.1
  const TickEndGain: real := 0.01
  const TickRampSeconds: real := 0.05
  const TickSeconds: real := 0.06

  /** The C-major arpeggio of the win fanfare, in playing order. */
  const WinNotes: seq<real> := [523.25, 659.25, 783.99, 1046.50, 783.99, 1046.50]
  const NoteSeconds: real := 0.15
  const NoteGain: real := 0.1

  /** A ramp that runs within the life of its voice and ends no later than the voice stops. */
  predicate RampWithin(p: Param, start: real, stop: real) {
    p.Ramp? ==> start <= p.fromTime < p.toTime <= stop
  }

  /** A voice that starts before it stops and whose ramps all run while it sounds. */
  predicate WellFormed(v: Voice) {
    v.start < v.stop && RampWithin(v.frequency, v.start, v.stop) && RampWithin(v.gain, v.start, v.stop)
  }

  /** The voice `playTick` schedules when the context clock reads `t`. */
  function TickVoice(t: real): (v: Voice)
    ensures WellFormed(v) && v.wave == Triangle && v.start == t && v.stop == t + TickSeconds
    ensures v.frequency.Ramp? && v.frequency.kind == ExponentialRamp && v.frequency.fromTime == t
    ensures v.frequency.from == TickStartHz && v.frequency.to == TickEndHz && v.frequency.to < v.frequency.from
    ensures v.gain.Ramp? && v.gain.kind == ExponentialRamp && v.gain.fromTime == t
    ensures v.gain.from == TickStartGain && v.gain.to == TickEndGain && v.gain.to < v.gain.from
    ensures v.frequency.toTime == v.gain.toTime == t + TickRampSeconds < v.stop
  {
    Voice(Triangle,
      Ramp(ExponentialRamp, TickStartHz, t, TickEndHz, t + TickRampSeconds),
      Ramp(ExponentialRamp, TickStartGain, t, TickEndGain, t + TickRampSeconds),
      t, t + TickSeconds)
  }

  /** Note `i` of the fanfare, playing at `freq`, when the fanfare starts at `now`. */
  function WinVoice(now: real, i: nat, freq: real): (v: Voice)
    ensures WellFormed(v) && v.wave == Sine && v.frequency == Fixed(freq)
    ensures v.start == now + i as real * NoteSeconds && v.stop - v.start == NoteSeconds
    ensures v.gain.Ramp? && v.gain.from == NoteGain && v.gain.fromTime == v.start
    ensures v.gain.to == 0.0 && v.gain.toTime == v.stop
  {
    var start := now + i as real * NoteSeconds;
    Voice(Sine, Fixed(freq), Ramp(LinearRamp, NoteGain, start, 0.0, start + NoteSeconds),
      start, start + NoteSeconds)
  }

  /** The six voices `playWin` schedules when the context clock reads `now`. */
  function WinVoices(now: real): (vs: seq<Voice>)
    ensures |vs| == |WinNotes| == 6
    ensures forall i :: 0 <= i < |vs| ==>
      WellFormed(vs[i]) && vs[i].wave == Sine && vs[i].frequency == Fixed(WinNotes[i]) &&
      vs[i].start == now + NoteSeconds * i as real && vs[i].stop == now + NoteSeconds * (i + 1) as real
    ensures forall i :: 0 <= i < |vs| ==>
      vs[i].gain == Ramp(LinearRamp, NoteGain, vs[i].start, 0.0, vs[i].stop)
    ensures forall i :: 0 <= i < |vs| - 1 ==> vs[i].stop == vs[i + 1].start
    ensures vs[0].start == now && vs[5].stop == now + 0.9
  {
    seq(|WinNotes|, i requires 0 <= i < |WinNotes| => WinVoice(now, i, WinNotes[i]))
  }

  class AudioManager {
    /** The platform context, or None when none could be created. */
    var ctx: Option<AudioContext>
    var isMuted: bool
    /** Every voice scheduled so far, oldest first. */
    var log: seq<Voice>

    /** Construction never fails: an absent or throwing context class leaves the manager without a context. */
    constructor (platform: Platform)
      ensures ctx == if platform.Supported? then Some(AudioContext(platform.initial)) else None
      ensures !isMuted && log == []
    {
      isMuted := false;
      log := [];
      if platform.Supported? {
        ctx := Some(AudioContext(platform.initial));
      } else {
        ctx := None;
      }
    }

    /** Sounds are scheduled only while unmuted and with a context. */
    predicate Audible()
      reads this
    {
      !isMuted && ctx.Some?
    }

    method SetMuted(muted: bool)
      modifies this`isMuted
      ensures isMuted == muted
    {
      isMuted := muted;
    }

    /** Wakes a suspended context; any other context, or none, is left alone. */
    method Resume()
      modifies this`ctx
      ensures ctx == if old(ctx) == Some(AudioContext(Suspended)) then Some(AudioContext(Running)) else old(ctx)
    {
      if ctx.Some? && ctx.value.state == Suspended {
        ctx := Some(AudioContext(Running));
      }
    }

    /** Schedules one tick at context time `now`, unless muted or without a context. */
    method PlayTick(now: real)
      modifies this`log
      ensures log == old(log) + if Audible() then [TickVoice(now)] else []
    {
      if isMuted || ctx.None? {
        return;
      }
      log := log + [TickVoice(now)];
    }

    /** Schedules the six fanfare notes one after another from context time `now`, unless muted or without a context. */
    method PlayWin(now: real)
      modifies this`log
      ensures log == old(log) + if Audible() then WinVoices(now) else []
    {
      if isMuted || ctx.None? {
        return;
      }
      for i := 0 to |WinNotes|
        invariant log == old(log) + WinVoices(now)[..i]
      {
        log := log + [WinVoice(now, i, WinNotes[i])];
      }
    }
  }
}
