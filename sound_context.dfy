/** The global sound settings: an on/off switch and a master volume kept in [0, 1], held by
    the provider and read by every sound hook through `useSoundContext`. */
module SoundContext {
  import opened Common

  /** `Math.max(0, Math.min(1, v))` */
  function ClampUnit(v: real): (r: real)
    ensures 0.0 <= r <= 1.0
    ensures 0.0 <= v <= 1.0 ==> r == v
    ensures v < 0.0 ==> r == 0.0
    ensures v > 1.0 ==> r == 1.0
  {
    Max(0.0, Min(1.0, v))
  }

  /** Clamping twice is clamping once. */
  lemma ClampUnitIdempotent(v: real)
    ensures ClampUnit(ClampUnit(v)) == ClampUnit(v)
  {
  }

  /** The context value a consumer sees (its two callbacks are the methods below). */
  datatype SoundState = SoundState(isSoundEnabled: bool, masterVolume: real)

  predicate ValidState(s: SoundState) {
    0.0 <= s.masterVolume <= 1.0
  }

  const InitialState: SoundState := SoundState(true, 0.7)

  /** `setIsSoundEnabled(prev => !prev)` */
  function Toggled(s: SoundState): (t: SoundState)
    ensures t.isSoundEnabled != s.isSoundEnabled && t.masterVolume == s.masterVolume
  {
    s.(isSoundEnabled := !s.isSoundEnabled)
  }

  /** `setMasterVolumeState(Math.max(0, Math.min(1, volume)))` */
  function WithMasterVolume(s: SoundState, volume: real): (t: SoundState)
    ensures ValidState(t) && t.isSoundEnabled == s.isSoundEnabled
    ensures 0.0 <= volume <= 1.0 ==> t.masterVolume == volume
  {
    s.(masterVolume := ClampUnit(volume))
  }

  /** Toggling twice restores the switch; setting a volume twice is setting it once, and
      a valid state keeps its validity under both operations. */
  lemma SettingsLaws(s: SoundState, v: real, w: real)
    ensures Toggled(Toggled(s)) == s
    ensures WithMasterVolume(WithMasterVolume(s, v), v) == WithMasterVolume(s, v)
    ensures WithMasterVolume(WithMasterVolume(s, v), w) == WithMasterVolume(s, w)
    ensures ValidState(s) ==> ValidState(Toggled(s))
    ensures ValidState(InitialState) && InitialState.isSoundEnabled
  {
  }

  /** `SoundProvider`'s two state cells. */
  class SoundProvider {
    var isSoundEnabled: bool
    var masterVolume: real

    ghost predicate Valid()
      reads this
    {
      ValidState(Value())
    }

    function Value(): SoundState
      reads this
    {
      SoundState(isSoundEnabled, masterVolume)
    }

    /** `useState(true)`, `useState(0.7)` */
    constructor ()
      ensures Valid() && Value() == InitialState
    {
      isSoundEnabled := true;
      masterVolume := 0.7;
    }

    method ToggleSound()
      modifies this
      ensures Value() == Toggled(old(Value()))
      ensures old(Valid()) ==> Valid()
    {
      isSoundEnabled := !isSoundEnabled;
    }

    method SetMasterVolume(volume: real)
      modifies this
      ensures Value() == WithMasterVolume(old(Value()), volume)
      ensures Valid()
    {
      masterVolume := ClampUnit(volume);
    }
  }

  /** The outcome of `useSoundContext`: the provider's value, or the error it throws. */
  datatype ContextLookup = Found(state: SoundState) | Thrown(message: string)

  const MissingProviderMessage: string := "useSoundContext must be used within a SoundProvider"

  /** `useContext(SoundContext)` is `undefined` outside a provider; a provided value is an
      object and therefore truthy. */
  function UseSoundContext(provided: Option<SoundState>): (r: ContextLookup)
    ensures r.Thrown? <==> provided.None?
    ensures r.Thrown? ==> r.message == MissingProviderMessage
    ensures r.Found? ==> r.state == provided.value
  {
    match provided
    case None => Thrown(MissingProviderMessage)
    case Some(s) => Found(s)
  }
}
