/** The vocabulary the three sound hooks share: the seven named effects every sound set
    offers, the oscillator waveforms of Web Audio, and the tones the beep hooks produce. */
module SoundTypes {

  /** The keys of the sound set a caller receives (`feedSound`, `sleepSound`, ...). */
  datatype SoundEffect = Feed | Sleep | Play | Work | LevelUp | WakeUp | Click

  /** `OscillatorType` */
  datatype Waveform = Sine | Square | Sawtooth | Triangle

  /** One oscillator as started: pitch in hertz, length in milliseconds, waveform, and the
      gain it ramps up to before it decays. */
  datatype Tone = Tone(frequency: nat, durationMs: nat, waveform: Waveform, peakGain: real)

  /** One entry of a tone table: a `playTone` (or `playBeep`) call issued `delayMs` after
      the sound's `play` is invoked. */
  datatype ToneStep = ToneStep(delayMs: nat, frequency: nat, durationMs: nat, waveform: Waveform, volume: real)

  predicate FrequenciesAscending(steps: seq<ToneStep>) {
    forall i, j :: 0 <= i < j < |steps| ==> steps[i].frequency < steps[j].frequency
  }

  predicate FrequenciesDescending(steps: seq<ToneStep>) {
    forall i, j :: 0 <= i < j < |steps| ==> steps[i].frequency > steps[j].frequency
  }

  predicate DelaysNonDecreasing(steps: seq<ToneStep>) {
    forall i, j :: 0 <= i < j < |steps| ==> steps[i].delayMs <= steps[j].delayMs
  }
}
