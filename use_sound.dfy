/** The file-backed sound hook. Each hook instance owns one audio element, created on the
    first render and kept in a ref; every render re-applies the volume (the option volume
    scaled by the master volume) and the loop flag. `isPlaying` follows the element's
    `play`, `pause`, `ended` and `error` events. */
module UseSound {
  import opened Common
  import opened SoundTypes
  import opened SoundContext

  datatype SoundOptions = SoundOptions(volume: Option<real>, playbackRate: Option<real>, loop: Option<bool>)

  /** `(options.volume ?? 0.5) * masterVolume` */
  function ElementVolume(options: SoundOptions, masterVolume: real): (v: real)
    ensures options.volume.None? ==> v == 0.5 * masterVolume
    ensures options.volume.Some? ==> v == options.volume.value * masterVolume
  {
    options.volume.GetOr(0.5) * masterVolume
  }

  /** `options.loop ?? false` */
  function Loops(options: SoundOptions): (b: bool)
    ensures b <==> options.loop == Some(true)
  {
    options.loop.GetOr(false)
  }

  /** Scaling a volume in [0, 1] by a master volume in [0, 1] stays in [0, 1] and never
      exceeds the volume itself. */
  lemma ElementVolumeInRange(options: SoundOptions, masterVolume: real)
    requires 0.0 <= options.volume.GetOr(0.5) <= 1.0 && 0.0 <= masterVolume <= 1.0
    ensures 0.0 <= ElementVolume(options, masterVolume) <= options.volume.GetOr(0.5) <= 1.0
  {
    var v := options.volume.GetOr(0.5);
    ScaleWithinUnit(v, masterVolume);
    assert ElementVolume(options, masterVolume) == v * masterVolume;
  }

  /** The part of an `HTMLAudioElement` the hook touches. */
  class AudioElement {
    const src: string
    var volume: real
    var playbackRate: real
    var loop: bool
    var currentTime: real
    var paused: bool

    /** `new Audio(src)`: paused at the start, full volume, normal speed, not looping. */
    constructor (src: string)
      ensures this.src == src && volume == 1.0 && playbackRate == 1.0
      ensures !loop && currentTime == 0.0 && paused
    {
      this.src := src;
      volume, playbackRate, loop := 1.0, 1.0, false;
      currentTime, paused := 0.0, true;
    }
  }

  /** One `useSound(src, options)` instance: the ref and the `isPlaying` state cell. */
  class SoundHook {
    const src: string
    const options: SoundOptions
    var audio: AudioElement?
    var isPlaying: bool

    /** `isPlaying` is only ever true while the element plays. */
    ghost predicate Valid()
      reads this, audio
    {
      && (audio != null ==> audio.src == src)
      && (isPlaying ==> audio != null && !audio.paused)
    }

    /** `useRef(null)`, `useState(false)` */
    constructor (src: string, options: SoundOptions)
      ensures this.src == src && this.options == options
      ensures audio == null && !isPlaying && Valid()
    {
      this.src := src;
      this.options := options;
      audio := null;
      isPlaying := false;
    }

    /** One render. The first creates the element with the options' rate; every render,
        the first included, sets its volume from the current master volume and its loop
        flag. Anything `SetVolume` did is overwritten. */
    method Render(masterVolume: real)
      requires Valid()
      modifies this, audio
      ensures Valid()
      ensures audio != null && audio.src == src
      ensures old(audio) != null ==> audio == old(audio)
      ensures old(audio) == null ==>
        && fresh(audio) && audio.playbackRate == options.playbackRate.GetOr(1.0)
        && audio.currentTime == 0.0 && audio.paused
      ensures old(audio) != null ==>
        audio.playbackRate == old(audio.playbackRate) && audio.currentTime == old(audio.currentTime)
        && audio.paused == old(audio.paused)
      ensures audio.volume == ElementVolume(options, masterVolume) && audio.loop == Loops(options)
      ensures isPlaying == old(isPlaying)
    {
      if audio == null {
        var a := new AudioElement(src);
        a.volume := ElementVolume(options, masterVolume);
        a.playbackRate := options.playbackRate.GetOr(1.0);
        a.loop := Loops(options);
        audio := a;
      }
      audio.volume := ElementVolume(options, masterVolume);
      audio.loop := Loops(options);
    }

    /** `play`: with sound on and an element, a non-looping sound rewinds to the start and
        playback is requested. `accepted` is whether the browser's `play()` promise
        fulfils: if so the element plays and the `play` listener sets `isPlaying`; if it
        rejects, the warning is logged and `isPlaying` is cleared. */
    method Play(isSoundEnabled: bool, accepted: bool)
      requires Valid()
      modifies this, audio
      ensures Valid()
      ensures audio == old(audio)
      ensures audio == null || !isSoundEnabled ==> isPlaying == old(isPlaying) && (audio != null ==> unchanged(audio))
      ensures audio != null && isSoundEnabled ==>
        && audio.currentTime == (if audio.loop then old(audio.currentTime) else 0.0)
        && audio.paused == (old(audio.paused) && !accepted)
        && (isPlaying <==> accepted)
        && audio.volume == old(audio.volume) && audio.loop == old(audio.loop) && audio.playbackRate == old(audio.playbackRate)
    {
      if audio != null && isSoundEnabled {
        if !audio.loop {
          audio.currentTime := 0.0;
        }
        if accepted {
          audio.paused := false;
          isPlaying := true;
        } else {
          isPlaying := false;
        }
      }
    }

    /** `stop`: the element pauses (the `pause` listener clears `isPlaying` when it was
        playing) and rewinds to the start. */
    method Stop()
      requires Valid()
      modifies this, audio
      ensures Valid()
      ensures audio == old(audio)
      ensures audio != null ==> audio.paused && audio.currentTime == 0.0 && !isPlaying
      ensures audio != null ==>
        audio.volume == old(audio.volume) && audio.loop == old(audio.loop) && audio.playbackRate == old(audio.playbackRate)
      ensures audio == null ==> isPlaying == old(isPlaying)
    {
      if audio != null {
        if !audio.paused {
          audio.paused := true;
          isPlaying := false;
        }
        audio.currentTime := 0.0;
      }
    }

    /** `setVolume`: the element's volume becomes `volume * masterVolume`, clamped to
        [0, 1]. */
    method SetVolume(volume: real, masterVolume: real)
      requires Valid()
      modifies audio
      ensures Valid()
      ensures audio != null ==> audio.volume == ClampUnit(volume * masterVolume)
      ensures audio != null ==>
        && 0.0 <= audio.volume <= 1.0 && audio.paused == old(audio.paused) && audio.loop == old(audio.loop)
        && audio.currentTime == old(audio.currentTime) && audio.playbackRate == old(audio.playbackRate)
    {
      if audio != null {
        audio.volume := ClampUnit(volume * masterVolume);
      }
    }

    /** The `ended` event: a non-looping sound that reaches its end stops playing. */
    method PlaybackEnded()
      requires Valid()
      modifies this, audio
      ensures Valid()
      ensures audio == old(audio)
      ensures audio != null && !audio.loop && !old(audio.paused) ==>
        && audio.paused && !isPlaying
        && audio.volume == old(audio.volume) && audio.loop == old(audio.loop)
        && audio.currentTime == old(audio.currentTime) && audio.playbackRate == old(audio.playbackRate)
      ensures audio == null || audio.loop || old(audio.paused) ==> isPlaying == old(isPlaying) && (audio != null ==> unchanged(audio))
    {
      if audio != null && !audio.loop && !audio.paused {
        audio.paused := true;
        isPlaying := false;
      }
    }

    /** The `error` event: the warning is logged and `isPlaying` cleared. */
    method LoadFailed()
      requires Valid()
      modifies this
      ensures Valid() && !isPlaying && audio == old(audio)
    {
      isPlaying := false;
    }
  }

  /** Play then stop leaves the sound silent and rewound, whatever it did before. */
  method PlayThenStop(hook: SoundHook, isSoundEnabled: bool, accepted: bool)
    requires hook.Valid() && hook.audio != null
    modifies hook, hook.audio
    ensures hook.Valid() && hook.audio == old(hook.audio)
    ensures hook.audio != null && !hook.isPlaying && hook.audio.paused && hook.audio.currentTime == 0.0
  {
    hook.Play(isSoundEnabled, accepted);
    hook.Stop();
  }

  // ---------------------------------------------------------------------------------------
  // `useSoundEffects`
  // ---------------------------------------------------------------------------------------

  /** The file each named effect plays. */
  function EffectSource(e: SoundEffect): string {
    match e
    case Feed => "/sounds/feed.mp3"
    case Sleep => "/sounds/sleep.mp3"
    case Play => "/sounds/play.mp3"
    case Work => "/sounds/work.mp3"
    case LevelUp => "/sounds/levelup.mp3"
    case WakeUp => "/sounds/wakeup.mp3"
    case Click => "/sounds/click.mp3"
  }

  function EffectOptions(e: SoundEffect): SoundOptions {
    match e
    case Feed => SoundOptions(Some(0.6), None, None)
    case Sleep => SoundOptions(Some(0.4), None, Some(true))
    case Play => SoundOptions(Some(0.7), None, None)
    case Work => SoundOptions(Some(0.5), None, None)
    case LevelUp => SoundOptions(Some(0.8), None, None)
    case WakeUp => SoundOptions(Some(0.6), None, None)
    case Click => SoundOptions(Some(0.3), None, None)
  }

  /** Only the sleep sound loops; every effect plays its own file at normal speed, at a
      volume in [0, 1] for any valid master volume, and no two effects share a file. */
  lemma EffectTableFacts(e: SoundEffect, f: SoundEffect, masterVolume: real)
    requires 0.0 <= masterVolume <= 1.0
    ensures Loops(EffectOptions(e)) <==> e == Sleep
    ensures EffectOptions(e).playbackRate.GetOr(1.0) == 1.0
    ensures 0.0 <= ElementVolume(EffectOptions(e), masterVolume) <= 1.0
    ensures e != f ==> EffectSource(e) != EffectSource(f)
  {
    ElementVolumeInRange(EffectOptions(e), masterVolume);
  }

  /** The seven hooks `useSoundEffects` creates, in the order of the returned object's
      keys, before their first render. */
  method UseSoundEffects() returns (hooks: seq<SoundHook>)
    ensures |hooks| == |EffectOrder|
    ensures forall i :: 0 <= i < |hooks| ==> fresh(hooks[i]) && hooks[i].Valid() && hooks[i].audio == null && !hooks[i].isPlaying
    ensures forall i :: 0 <= i < |hooks| ==>
      hooks[i].src == EffectSource(EffectOrder[i]) && hooks[i].options == EffectOptions(EffectOrder[i])
  {
    var feed := new SoundHook(EffectSource(Feed), EffectOptions(Feed));
    var sleep := new SoundHook(EffectSource(Sleep), EffectOptions(Sleep));
    var play := new SoundHook(EffectSource(Play), EffectOptions(Play));
    var work := new SoundHook(EffectSource(Work), EffectOptions(Work));
    var levelUp := new SoundHook(EffectSource(LevelUp), EffectOptions(LevelUp));
    var wakeUp := new SoundHook(EffectSource(WakeUp), EffectOptions(WakeUp));
    var click := new SoundHook(EffectSource(Click), EffectOptions(Click));
    hooks := [feed, sleep, play, work, levelUp, wakeUp, click];
  }

  /** `feedSound`, `sleepSound`, `playSound`, `workSound`, `levelUpSound`, `wakeUpSound`,
      `clickSound` */
  const EffectOrder: seq<SoundEffect> := [Feed, Sleep, Play, Work, LevelUp, WakeUp, Click]
}
