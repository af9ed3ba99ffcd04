/** The simple beep hook: one lazily created audio context, kept in a ref and shared by
    every beep, and one `playBeep` whose options default to an 800 Hz, 200 ms sine at
    volume 0.3. */
module UseBeepSound {
  import opened Common
  import opened SoundTypes
  import opened SoundContext

  /** `BeepOptions`: every field may be left out. */
  datatype BeepOptions = BeepOptions(frequency: Option<nat>, durationMs: Option<nat>, volume: Option<real>, waveform: Option<Waveform>)

  const DefaultFrequency: nat := 800
  const DefaultDurationMs: nat := 200
  const DefaultVolume: real := 0.3
  const DefaultWaveform: Waveform := Sine

  /** A beep with its defaults filled in. */
  datatype Beep = Beep(frequency: nat, durationMs: nat, volume: real, waveform: Waveform)

  /** The destructuring with defaults: a given field wins, a missing one takes its
      default. */
  function ResolveBeepOptions(o: BeepOptions): (b: Beep)
    ensures o.frequency.Some? ==> b.frequency == o.frequency.value
    ensures o.frequency.None? ==> b.frequency == DefaultFrequency
    ensures o.durationMs.Some? ==> b.durationMs == o.durationMs.value
    ensures o.durationMs.None? ==> b.durationMs == DefaultDurationMs
    ensures o.volume.Some? ==> b.volume == o.volume.value
    ensures o.volume.None? ==> b.volume == DefaultVolume
    ensures o.waveform.Some? ==> b.waveform == o.waveform.value
    ensures o.waveform.None? ==> b.waveform == DefaultWaveform
  {
    Beep(o.frequency.GetOr(DefaultFrequency), o.durationMs.GetOr(DefaultDurationMs),
         o.volume.GetOr(DefaultVolume), o.waveform.GetOr(DefaultWaveform))
  }

  /** `playBeep()` with no options is the 800 Hz, 200 ms sine at 0.3, and giving every
      field makes the defaults irrelevant. */
  lemma DefaultsLaws(f: nat, d: nat, v: real, w: Waveform)
    ensures ResolveBeepOptions(BeepOptions(None, None, None, None)) == Beep(800, 200, 0.3, Sine)
    ensures ResolveBeepOptions(BeepOptions(Some(f), Some(d), Some(v), Some(w))) == Beep(f, d, v, w)
  {
  }

  /** A Web Audio context. */
  class AudioContext {
    constructor ()
    {
    }
  }

  /** One `useBeepSound` instance: the `audioContextRef`. */
  class BeepSoundHook {
    var audioContextRef: AudioContext?

    constructor ()
      ensures audioContextRef == null
    {
      audioContextRef := null;
    }

    /** `getAudioContext`: the stored context, created on first use. `constructible` is
        whether the browser's constructor succeeds; when it throws nothing is stored and
        the error propagates (`None`). */
    method GetAudioContext(constructible: bool) returns (ctx: Option<AudioContext>)
      modifies this
      ensures old(audioContextRef) != null ==> ctx == Some(old(audioContextRef)) && audioContextRef == old(audioContextRef)
      ensures old(audioContextRef) == null && constructible ==>
        ctx.Some? && fresh(ctx.value) && audioContextRef == ctx.value
      ensures old(audioContextRef) == null && !constructible ==> ctx.None? && audioContextRef == null
    {
      if audioContextRef == null {
        if !constructible {
          return None;
        }
        audioContextRef := new AudioContext();
      }
      ctx := Some(audioContextRef);
    }

    /** `playBeep`: nothing with sound off; otherwise the resolved beep ramps to
        `volume * masterVolume` on the shared context. If the context cannot be created
        the warning is logged and nothing plays. */
    method PlayBeep(settings: SoundState, options: BeepOptions, constructible: bool) returns (tone: Option<Tone>)
      modifies this
      ensures !settings.isSoundEnabled ==> tone.None? && audioContextRef == old(audioContextRef)
      ensures settings.isSoundEnabled ==> (tone.Some? <==> old(audioContextRef) != null || constructible)
      ensures old(audioContextRef) != null ==> audioContextRef == old(audioContextRef)
      ensures settings.isSoundEnabled && old(audioContextRef) == null ==>
        if constructible then audioContextRef != null && fresh(audioContextRef) else audioContextRef == null
      ensures tone.Some? ==> audioContextRef != null
      ensures tone.Some? ==>
        var b := ResolveBeepOptions(options);
        tone.value == Tone(b.frequency, b.durationMs, b.waveform, b.volume * settings.masterVolume)
    {
      if !settings.isSoundEnabled {
        return None;
      }
      var b := ResolveBeepOptions(options);
      var ctx := GetAudioContext(constructible);
      if ctx.None? {
        return None;
      }
      tone := Some(Tone(b.frequency, b.durationMs, b.waveform, b.volume * settings.masterVolume));
    }
  }

  /** Two beeps in a row share one context: the second finds the first's. */
  method TwoBeepsShareContext(hook: BeepSoundHook, settings: SoundState, first: BeepOptions, second: BeepOptions)
    returns (t1: Option<Tone>, t2: Option<Tone>)
    requires settings.isSoundEnabled
    modifies hook
    ensures t1.Some? && t2.Some?
    ensures hook.audioContextRef != null
    ensures old(hook.audioContextRef) != null ==> hook.audioContextRef == old(hook.audioContextRef)
  {
    t1 := hook.PlayBeep(settings, first, true);
    ghost var ctx := hook.audioContextRef;
    t2 := hook.PlayBeep(settings, second, false);
    assert hook.audioContextRef == ctx;
  }

  // ---------------------------------------------------------------------------------------
  // The beep table
  // ---------------------------------------------------------------------------------------

  /** One `playBeep` call issued `delayMs` after the sound's function is called. */
  datatype ScheduledBeep = ScheduledBeep(delayMs: nat, options: BeepOptions)

  function BeepTable(e: SoundEffect): seq<ScheduledBeep> {
    match e
    case Feed => [ScheduledBeep(0, BeepOptions(Some(600), Some(300), None, Some(Square)))]
    case Sleep => [ScheduledBeep(0, BeepOptions(Some(300), Some(800), None, Some(Sine)))]
    case Play => [ScheduledBeep(0, BeepOptions(Some(800), Some(200), None, Some(Triangle)))]
    case Work => [ScheduledBeep(0, BeepOptions(Some(400), Some(400), None, Some(Sawtooth)))]
    case LevelUp => [
      ScheduledBeep(0, BeepOptions(Some(523), Some(150), None, None)),
      ScheduledBeep(150, BeepOptions(Some(659), Some(150), None, None)),
      ScheduledBeep(300, BeepOptions(Some(784), Some(300), None, None))]
    case WakeUp => [ScheduledBeep(0, BeepOptions(Some(1000), Some(100), None, Some(Square)))]
    case Click => [ScheduledBeep(0, BeepOptions(Some(1200), Some(50), Some(0.1), Some(Square)))]
  }

  /** The table with every beep's defaults filled in: each call keeps its delay and the
      fields it gives, and a field it leaves out takes the default. */
  function ResolvedTable(e: SoundEffect): (steps: seq<ToneStep>)
    ensures |steps| == |BeepTable(e)|
    ensures forall i :: 0 <= i < |steps| ==> steps[i].delayMs == BeepTable(e)[i].delayMs
    ensures forall i :: 0 <= i < |steps| ==>
      steps[i].frequency == BeepTable(e)[i].options.frequency.GetOr(DefaultFrequency)
      && steps[i].durationMs == BeepTable(e)[i].options.durationMs.GetOr(DefaultDurationMs)
    ensures forall i :: 0 <= i < |steps| ==>
      && (BeepTable(e)[i].options.volume.Some? ==> steps[i].volume == BeepTable(e)[i].options.volume.value)
      && (BeepTable(e)[i].options.volume.None? ==> steps[i].volume == DefaultVolume)
      && (BeepTable(e)[i].options.waveform.Some? ==> steps[i].waveform == BeepTable(e)[i].options.waveform.value)
      && (BeepTable(e)[i].options.waveform.None? ==> steps[i].waveform == Sine)
  {
    var t := BeepTable(e);
    seq(|t|, i requires 0 <= i < |t| =>
      var b := ResolveBeepOptions(t[i].options);
      ToneStep(t[i].delayMs, b.frequency, b.durationMs, b.waveform, b.volume))
  }

  /** Level Up is the ascending C5, E5, G5 at 0, 150 and 300 ms, in the default sine; the
      click is the only beep quieter than the default volume; every beep is scheduled in
      order. */
  lemma BeepTableFacts(e: SoundEffect)
    ensures var t := ResolvedTable(LevelUp);
      FrequenciesAscending(t) && |t| == 3
      && t[0].frequency == 523 && t[1].frequency == 659 && t[2].frequency == 784
      && t[0].delayMs == 0 && t[1].delayMs == 150 && t[2].delayMs == 300
      && forall i :: 0 <= i < 3 ==> t[i].waveform == Sine
    ensures DelaysNonDecreasing(ResolvedTable(e))
    ensures forall s :: s in ResolvedTable(e) ==> s.volume == (if e == Click then 0.1 else DefaultVolume)
  {
    var t := ResolvedTable(e);
    assert forall i :: 0 <= i < |t| ==> t[i] in t;
  }
}
