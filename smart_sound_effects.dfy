/** The choice between recorded sound files and synthesised beeps. On mount a probe tries to
    load one file and waits for the first of three outcomes: the file can play, it fails to
    load, or three seconds pass. The sound set in use follows the probe's result. */
module SmartSoundEffects {

  /** What can happen while the probe waits: the element's `canplay` or `error` event, or
      the firing of the 3000 ms timeout. */
  datatype ProbeEvent = CanPlay | LoadError | TimeoutElapsed

  /** The two state cells of `useAudioAvailability`, whether the probe's promise has
      settled, and whether its timeout is still scheduled. */
  datatype Probe = Probe(hasAudioFiles: bool, isChecking: bool, settled: bool, timerPending: bool)

  /** `useState(false)`, `useState(true)`, and a freshly armed timeout. */
  const InitialProbe: Probe := Probe(false, true, false, true)

  /** One event. The first one to reach an unsettled promise settles it (`canplay`
      resolves, `error` and the timeout reject), clears the timeout, and the awaiting code
      then stores the result and ends the check. A settled promise ignores later events,
      and a cleared timeout never fires. */
  function Step(p: Probe, e: ProbeEvent): (q: Probe)
    ensures p.settled ==> q == p
    ensures !p.settled && (e != TimeoutElapsed || p.timerPending) ==>
      q.settled && !q.isChecking && !q.timerPending && (q.hasAudioFiles <==> e == CanPlay)
  {
    if p.settled then p
    else
      match e
      case CanPlay => Probe(true, false, true, false)
      case LoadError => Probe(false, false, true, false)
      case TimeoutElapsed => if p.timerPending then Probe(false, false, true, false) else p
  }

  /** The probe after a sequence of events. */
  function Run(p: Probe, events: seq<ProbeEvent>): Probe
    decreases |events|
  {
    if events == [] then p else Run(Step(p, events[0]), events[1..])
  }

  /** The probe is checking exactly until its promise settles, its timeout is scheduled
      exactly until then, and files are reported only once the check is over. */
  predicate Consistent(p: Probe) {
    && p.isChecking == !p.settled
    && p.timerPending == !p.settled
    && (p.hasAudioFiles ==> p.settled)
  }

  lemma {:induction false} RunKeepsConsistent(p: Probe, events: seq<ProbeEvent>)
    requires Consistent(p)
    ensures Consistent(Run(p, events))
    decreases |events|
  {
    if events != [] {
      RunKeepsConsistent(Step(p, events[0]), events[1..]);
    }
  }

  /** Once settled, the result never changes. */
  lemma {:induction false} SettledIsFinal(p: Probe, events: seq<ProbeEvent>)
    requires p.settled
    ensures Run(p, events) == p
    decreases |events|
  {
    if events != [] {
      SettledIsFinal(Step(p, events[0]), events[1..]);
    }
  }

  /** The first event decides the outcome: files are available exactly when it is
      `canplay`, and the check is over. */
  lemma FirstEventDecides(events: seq<ProbeEvent>)
    requires events != []
    ensures Run(InitialProbe, events) == Step(InitialProbe, events[0])
    ensures Run(InitialProbe, events).hasAudioFiles <==> events[0] == CanPlay
    ensures !Run(InitialProbe, events).isChecking
  {
    SettledIsFinal(Step(InitialProbe, events[0]), events[1..]);
  }

  /** `useAudioAvailability`'s state, driven by the probe's events. */
  class AudioAvailability {
    var hasAudioFiles: bool
    var isChecking: bool
    var settled: bool
    var timerPending: bool

    function State(): Probe
      reads this
    {
      Probe(hasAudioFiles, isChecking, settled, timerPending)
    }

    constructor ()
      ensures State() == InitialProbe
    {
      hasAudioFiles, isChecking, settled, timerPending := false, true, false, true;
    }

    method Handle(e: ProbeEvent)
      modifies this
      ensures State() == Step(old(State()), e)
    {
      if settled {
        return;
      }
      if e == TimeoutElapsed && !timerPending {
        return;
      }
      // the promise settles and the timeout is cleared ...
      settled, timerPending := true, false;
      // ... then `setHasAudioFiles(...)` and, in `finally`, `setIsChecking(false)`
      hasAudioFiles := e == CanPlay;
      isChecking := false;
    }
  }

  /** Which sound set the hook hands out. */
  datatype SoundSource = AudioFiles | Beeps

  datatype SmartResult = SmartResult(soundEffects: SoundSource, hasAudioFiles: bool, isChecking: bool, usingBeepFallback: bool)

  /** `useSmartSoundEffects` */
  function SelectSoundEffects(p: Probe): (r: SmartResult)
    ensures r.soundEffects == AudioFiles <==> p.hasAudioFiles
    ensures r.hasAudioFiles == p.hasAudioFiles && r.isChecking == p.isChecking
    ensures r.usingBeepFallback <==> !p.hasAudioFiles && !p.isChecking
    ensures r.usingBeepFallback ==> !r.isChecking && r.soundEffects == Beeps
    ensures Consistent(p) && p.isChecking ==> r.soundEffects == Beeps && !r.usingBeepFallback
  {
    SmartResult(if p.hasAudioFiles then AudioFiles else Beeps, p.hasAudioFiles, p.isChecking, !p.hasAudioFiles && !p.isChecking)
  }

  /** Over the probe's whole life: beeps (without the fallback flag) until an event
      arrives; afterwards files exactly when the first event was `canplay`, and the beep
      fallback flag exactly otherwise. */
  lemma SelectionOverTime(events: seq<ProbeEvent>)
    ensures var r := SelectSoundEffects(Run(InitialProbe, events));
      && (events == [] ==> r.isChecking && r.soundEffects == Beeps && !r.usingBeepFallback)
      && (events != [] ==> !r.isChecking
                           && (r.soundEffects == AudioFiles <==> events[0] == CanPlay)
                           && (r.usingBeepFallback <==> events[0] != CanPlay))
  {
    if events != [] {
      FirstEventDecides(events);
    }
  }
}
