/** The synthesised sound set used when no sound files are available. Every effect is a
    small table of tones; Sleep instead starts a loop that replays a three-tone chord every
    second and remembers the oscillators and the interval so that Wake Up can stop it.
    The browser's interval table is modelled by `Timers`; each oscillator is the `Tone` it
    was started with. */
module EnhancedBeepSounds {
  import opened Common
  import opened SoundTypes
  import opened SoundContext

  /** `generateBeepDataURL`: a placeholder that ignores its arguments. */
  function GenerateBeepDataUrl(frequency: nat, durationMs: nat, waveform: Waveform): (url: string)
    ensures url == ""
  {
    ""
  }

  /** `playTone`: nothing when sound is off; otherwise an oscillator that ramps to
      `volume * masterVolume`, unless creating the audio context throws
      (`audioAvailable == false`), in which case the error is logged and nothing plays. */
  function PlayTone(settings: SoundState, frequency: nat, durationMs: nat, waveform: Waveform, volume: real, audioAvailable: bool): (osc: Option<Tone>)
    ensures !settings.isSoundEnabled ==> osc.None?
    ensures osc.Some? <==> settings.isSoundEnabled && audioAvailable
    ensures osc.Some? ==> osc.value.frequency == frequency && osc.value.durationMs == durationMs && osc.value.waveform == waveform
    ensures osc.Some? ==> osc.value.peakGain == volume * settings.masterVolume
  {
    if !settings.isSoundEnabled || !audioAvailable then None
    else Some(Tone(frequency, durationMs, waveform, volume * settings.masterVolume))
  }

  /** With a master volume in [0, 1] a tone never peaks above its own volume. */
  lemma PeakWithinVolume(settings: SoundState, frequency: nat, durationMs: nat, waveform: Waveform, volume: real, audioAvailable: bool)
    ensures var osc := PlayTone(settings, frequency, durationMs, waveform, volume, audioAvailable);
      ValidState(settings) && volume >= 0.0 && osc.Some? ==> 0.0 <= osc.value.peakGain <= volume
  {
    var osc := PlayTone(settings, frequency, durationMs, waveform, volume, audioAvailable);
    if ValidState(settings) && volume >= 0.0 && osc.Some? {
      ScaleWithinUnit(volume, settings.masterVolume);
    }
  }

  // ---------------------------------------------------------------------------------------
  // The tone tables
  // ---------------------------------------------------------------------------------------

  /** The chord the sleep loop plays each second: 400, 350 and 300 Hz. */
  const SleepChord: seq<ToneStep> := [
    ToneStep(0, 400, 300, Sine, 0.3),
    ToneStep(0, 350, 400, Sine, 0.25),
    ToneStep(0, 300, 500, Sine, 0.2)]

  /** The `playTone` calls each effect's `play` issues, with their `setTimeout` delays. */
  function ToneTable(e: SoundEffect): seq<ToneStep> {
    match e
    case Feed => [ToneStep(0, 600, 150, Square, 0.4), ToneStep(150, 400, 100, Square, 0.3)]
    case Sleep => SleepChord
    case Play => [ToneStep(0, 800, 100, Triangle, 0.4), ToneStep(100, 1000, 100, Triangle, 0.4), ToneStep(200, 1200, 150, Triangle, 0.3)]
    case Work => [ToneStep(0, 440, 200, Sawtooth, 0.3), ToneStep(250, 440, 100, Sawtooth, 0.2), ToneStep(400, 440, 100, Sawtooth, 0.2)]
    case LevelUp => [ToneStep(0, 523, 150, Sine, 0.5), ToneStep(150, 659, 150, Sine, 0.5), ToneStep(300, 784, 200, Sine, 0.5), ToneStep(500, 1047, 300, Sine, 0.6)]
    case WakeUp => [ToneStep(0, 1000, 80, Square, 0.4), ToneStep(100, 1200, 80, Square, 0.4), ToneStep(200, 1000, 80, Square, 0.3)]
    case Click => [ToneStep(0, 1200, 50, Square, 0.15)]
  }

  /** The sleep chord descends, the level-up fanfare ascends (C5, E5, G5, C6 at 0, 150,
      300 and 500 ms), and no table schedules a tone before an earlier one. */
  lemma ToneTableOrderings(e: SoundEffect)
    ensures FrequenciesDescending(SleepChord)
    ensures FrequenciesAscending(ToneTable(LevelUp))
    ensures DelaysNonDecreasing(ToneTable(e))
    ensures forall s :: s in ToneTable(e) ==> 0.0 < s.volume <= 1.0
  {
  }

  /** The `playTone` calls of one table, one oscillator (or none) per entry, each at its
      entry's pitch, length and waveform; `audioAvailable[i]` says whether the i-th call
      could create its audio context. With sound off nothing starts. */
  function TableTones(settings: SoundState, table: seq<ToneStep>, audioAvailable: seq<bool>): (oscs: seq<Option<Tone>>)
    requires |audioAvailable| == |table|
    ensures |oscs| == |table|
    ensures !settings.isSoundEnabled ==> forall i :: 0 <= i < |oscs| ==> oscs[i].None?
    ensures forall i :: 0 <= i < |oscs| ==> (oscs[i].Some? <==> settings.isSoundEnabled && audioAvailable[i])
    ensures forall i :: 0 <= i < |oscs| && oscs[i].Some? ==>
      oscs[i].value.frequency == table[i].frequency && oscs[i].value.durationMs == table[i].durationMs
      && oscs[i].value.waveform == table[i].waveform && oscs[i].value.peakGain == table[i].volume * settings.masterVolume
  {
    seq(|table|, i requires 0 <= i < |table| =>
      PlayTone(settings, table[i].frequency, table[i].durationMs, table[i].waveform, table[i].volume, audioAvailable[i]))
  }

  /** With a valid master volume no tone of a table peaks above its entry's volume. */
  lemma TableTonesWithinVolume(settings: SoundState, table: seq<ToneStep>, audioAvailable: seq<bool>)
    requires |audioAvailable| == |table| && ValidState(settings)
    ensures var oscs := TableTones(settings, table, audioAvailable);
      forall i :: 0 <= i < |oscs| && oscs[i].Some? && table[i].volume >= 0.0 ==>
        0.0 <= oscs[i].value.peakGain <= table[i].volume
  {
    var oscs := TableTones(settings, table, audioAvailable);
    forall i | 0 <= i < |oscs| && oscs[i].Some? && table[i].volume >= 0.0
      ensures 0.0 <= oscs[i].value.peakGain <= table[i].volume
    {
      PeakWithinVolume(settings, table[i].frequency, table[i].durationMs, table[i].waveform, table[i].volume, audioAvailable[i]);
    }
  }

  /** One `play` of an effect's entry in the sound set: every table entry's tone, at most
      at the entry's own volume. */
  lemma EffectTonesWithinVolume(settings: SoundState, e: SoundEffect, audioAvailable: seq<bool>)
    requires |audioAvailable| == |ToneTable(e)| && ValidState(settings)
    ensures var oscs := TableTones(settings, ToneTable(e), audioAvailable);
      forall i :: 0 <= i < |oscs| && oscs[i].Some? ==> 0.0 <= oscs[i].value.peakGain <= ToneTable(e)[i].volume <= 1.0
  {
    ToneTableOrderings(e);
    var t := ToneTable(e);
    assert forall i :: 0 <= i < |t| ==> t[i] in t;
    TableTonesWithinVolume(settings, t, audioAvailable);
  }

  // ---------------------------------------------------------------------------------------
  // The sleep loop
  // ---------------------------------------------------------------------------------------

  /** Each tone as a created oscillator. */
  function AsPresent(ts: seq<Tone>): (r: seq<Option<Tone>>)
    ensures |r| == |ts| && forall i :: 0 <= i < |ts| ==> r[i] == Some(ts[i])
  {
    seq(|ts|, i requires 0 <= i < |ts| => Some(ts[i]))
  }

  /** The `if (osc) push(osc)` filter: the oscillators that were created, in the order
      they were created. */
  function Present(oscs: seq<Option<Tone>>): (r: seq<Tone>)
    ensures |r| <= |oscs|
    ensures forall t :: t in r ==> Some(t) in oscs
    ensures forall t :: Some(t) in oscs ==> t in r
    ensures IsSubsequence(AsPresent(r), oscs)
  {
    if oscs == [] then []
    else
      var rest := Present(oscs[1..]);
      assert oscs == [oscs[0]] + oscs[1..];
      if oscs[0].Some? then
        assert AsPresent([oscs[0].value] + rest)[1..] == AsPresent(rest);
        [oscs[0].value] + rest
      else
        rest
  }

  /** The browser's table of live intervals. */
  class Timers {
    var live: set<nat>
    var next: nat

    ghost predicate Valid()
      reads this
    {
      forall id :: id in live ==> id < next
    }

    constructor ()
      ensures Valid() && live == {} && next == 0
    {
      live, next := {}, 0;
    }

    /** `setInterval`: a new id, live from now on. */
    method SetInterval() returns (id: nat)
      requires Valid()
      modifies this
      ensures Valid()
      ensures id == old(next) && id !in old(live)
      ensures live == old(live) + {id} && next == old(next) + 1
    {
      id := next;
      live := live + {id};
      next := next + 1;
    }

    /** `clearInterval` */
    method ClearInterval(id: nat)
      requires Valid()
      modifies this
      ensures Valid()
      ensures live == old(live) - {id} && next == old(next)
    {
      live := live - {id};
    }
  }

  /** The two variables one run of the hook body declares, `activeSleepOscillators` and
      `sleepInterval`, together with the settings that run read from the context. */
  class SleepLoop {
    const settings: SoundState
    const timers: Timers
    var activeSleepOscillators: seq<Tone>
    var sleepInterval: Option<nat>

    constructor (settings: SoundState, timers: Timers)
      ensures this.settings == settings && this.timers == timers
      ensures activeSleepOscillators == [] && sleepInterval == None
    {
      this.settings := settings;
      this.timers := timers;
      activeSleepOscillators := [];
      sleepInterval := None;
    }

    /** `playSleepTone`: the chord's oscillators that were created join the active list,
        at most three of them. */
    method PlaySleepTone(audioAvailable: seq<bool>)
      requires |audioAvailable| == |SleepChord|
      modifies this
      ensures activeSleepOscillators == old(activeSleepOscillators) + Present(TableTones(settings, SleepChord, audioAvailable))
      ensures |activeSleepOscillators| <= |old(activeSleepOscillators)| + 3
      ensures sleepInterval == old(sleepInterval)
    {
      var oscs := TableTones(settings, SleepChord, audioAvailable);
      activeSleepOscillators := activeSleepOscillators + Present(oscs);
    }

    /** `startSleepLoop`: with sound off, nothing; otherwise one chord now and an interval
        that repeats it every second. */
    method StartSleepLoop(audioAvailable: seq<bool>)
      requires |audioAvailable| == |SleepChord| && timers.Valid()
      modifies this, timers
      ensures timers.Valid()
      ensures !settings.isSoundEnabled ==> unchanged(this) && unchanged(timers)
      ensures settings.isSoundEnabled ==>
        && activeSleepOscillators == old(activeSleepOscillators) + Present(TableTones(settings, SleepChord, audioAvailable))
        && sleepInterval == Some(old(timers.next))
        && old(timers.next) !in old(timers.live)
        && timers.live == old(timers.live) + {old(timers.next)}
    {
      if !settings.isSoundEnabled {
        return;
      }
      PlaySleepTone(audioAvailable);
      var id := timers.SetInterval();
      sleepInterval := Some(id);
    }

    /** `stopSleepLoop`: the remembered interval is cleared and forgotten, and the active
        list emptied. A second call finds nothing left to do. */
    method StopSleepLoop()
      requires timers.Valid()
      modifies this, timers
      ensures timers.Valid()
      ensures sleepInterval == None && activeSleepOscillators == []
      ensures timers.live == if old(sleepInterval).Some? then old(timers.live) - {old(sleepInterval).value} else old(timers.live)
      ensures timers.next == old(timers.next)
    {
      if sleepInterval.Some? {
        timers.ClearInterval(sleepInterval.value);
        sleepInterval := None;
      }
      activeSleepOscillators := [];
    }

    /** An entry's `play` in the sound set: Sleep's is `startSleepLoop`; the other six
        issue their table's tones and keep no state. */
    method PlayEffect(e: SoundEffect, audioAvailable: seq<bool>) returns (started: seq<Option<Tone>>)
      requires |audioAvailable| == |ToneTable(e)| && timers.Valid()
      modifies this, timers
      ensures timers.Valid()
      ensures started == TableTones(settings, ToneTable(e), audioAvailable)
      ensures e != Sleep || !settings.isSoundEnabled ==> unchanged(this) && unchanged(timers)
      ensures e == Sleep && settings.isSoundEnabled ==>
        && activeSleepOscillators == old(activeSleepOscillators) + Present(started)
        && sleepInterval == Some(old(timers.next))
        && old(timers.next) !in old(timers.live)
        && timers.live == old(timers.live) + {old(timers.next)}
    {
      started := TableTones(settings, ToneTable(e), audioAvailable);
      if e == Sleep {
        StartSleepLoop(audioAvailable);
      }
    }

    /** An entry's `stop`: Sleep's is `stopSleepLoop`; the other six are no-ops. */
    method StopEffect(e: SoundEffect)
      requires timers.Valid()
      modifies this, timers
      ensures timers.Valid()
      ensures e != Sleep ==> unchanged(this) && unchanged(timers)
      ensures e == Sleep ==>
        && sleepInterval == None && activeSleepOscillators == []
        && timers.live == (if old(sleepInterval).Some? then old(timers.live) - {old(sleepInterval).value} else old(timers.live))
        && timers.next == old(timers.next)
    {
      if e == Sleep {
        StopSleepLoop();
      }
    }
  }

  /** As written, the two variables are plain locals of the hook body, so every render of
      the dashboard declares a fresh pair. Sleep is clicked in one render; the dashboard
      re-renders (the pending mutation, the ledger update and the once-a-second display
      tick all cause one); Wake Up runs the later render's `stopSleepLoop`, which sees
      `sleepInterval == null`. The interval started by Sleep stays live. */
  method WakeUpInLaterRender(settings: SoundState) returns (loopStillRunning: bool)
    requires settings.isSoundEnabled
    ensures loopStillRunning
  {
    var timers := new Timers();
    var sleepRender := new SleepLoop(settings, timers);
    sleepRender.StartSleepLoop([true, true, true]);
    var started := sleepRender.sleepInterval;
    var wakeRender := new SleepLoop(settings, timers);
    wakeRender.StopSleepLoop();
    loopStillRunning := started.Some? && started.value in timers.live;
  }

  /** Corrected: the pair lives in a ref that survives renders, so Wake Up stops the very
      loop that Sleep started, whatever happened in between. */
  method WakeUpWithPersistentLoop(settings: SoundState) returns (loopStillRunning: bool)
    ensures !loopStillRunning
  {
    var timers := new Timers();
    var loop := new SleepLoop(settings, timers);
    loop.StartSleepLoop([true, true, true]);
    var started := loop.sleepInterval;
    loop.StopSleepLoop();
    loopStillRunning := started.Some? && started.value in timers.live;
  }
}
