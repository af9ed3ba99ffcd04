/** The game rules of the pet dashboard: the once-a-second stat drift shown while the pet
    sleeps, the eligibility of each action, the enabled/disabled state of every button and
    the order in which a click plays sounds and dispatches the ledger mutation. */
module PetComponent {
  import opened Common
  import opened SoundTypes

  /** The three stats of a pet (`pet.stats`, and the component's `displayStats`). */
  datatype Stats = Stats(energy: real, hunger: real, happiness: real)

  datatype GameData = GameData(coins: int, experience: int, level: int)

  datatype Pet = Pet(id: string, isSleeping: bool, stats: Stats, gameData: GameData)

  /** The ledger's game-balance object. The periods are unsigned ledger integers that the
      component converts with `Number(...)`. */
  datatype GameBalance = GameBalance(
    maxStat: real,
    sleepEnergyGainMs: nat,
    sleepHungerLossMs: nat,
    sleepHappinessLossMs: nat,
    feedCoinsCost: nat,
    playEnergyLoss: real,
    playHungerLoss: real,
    workEnergyLoss: real,
    workHappinessLoss: real,
    workHungerLoss: real,
    expPerLevel: nat)

  // ---------------------------------------------------------------------------------------
  // The sleep tick
  // ---------------------------------------------------------------------------------------

  /** The JavaScript value of `1000 / Number(periodMs)`: a finite amount per second, or
      `Infinity` when the period is 0. */
  datatype Rate = PerSecond(amount: real) | Unbounded

  function RateOf(periodMs: nat): (r: Rate)
    ensures r.PerSecond? <==> periodMs > 0
    ensures r.PerSecond? ==> r.amount > 0.0 && r.amount * (periodMs as real) == 1000.0
  {
    if periodMs == 0 then Unbounded else PerSecond(1000.0 / periodMs as real)
  }

  predicate NonNegative(rate: Rate) {
    rate.PerSecond? ==> rate.amount >= 0.0
  }

  /** The same rate sustained for `n` seconds. */
  function Times(rate: Rate, n: nat): Rate {
    match rate
    case Unbounded => if n == 0 then PerSecond(0.0) else Unbounded
    case PerSecond(p) => PerSecond(p * n as real)
  }

  /** `Math.min(cap, x + rate)`; with an infinite rate the sum is `Infinity` and the
      minimum is `cap`. */
  function RaiseCapped(x: real, rate: Rate, cap: real): (r: real)
    ensures r <= cap
    ensures rate.Unbounded? ==> r == cap
    ensures rate.PerSecond? ==> r <= x + rate.amount && (r == cap || r == x + rate.amount)
  {
    match rate
    case Unbounded => cap
    case PerSecond(p) => Min(cap, x + p)
  }

  /** `Math.max(0, x - rate)`; with an infinite rate the difference is `-Infinity` and the
      maximum is 0. */
  function LowerFloored(x: real, rate: Rate): (r: real)
    ensures r >= 0.0
    ensures rate.Unbounded? ==> r == 0.0
    ensures rate.PerSecond? ==> r >= x - rate.amount && (r == 0.0 || r == x - rate.amount)
  {
    match rate
    case Unbounded => 0.0
    case PerSecond(p) => Max(0.0, x - p)
  }

  /** One firing of the one-second interval: energy rises towards `maxStat`, hunger and
      happiness fall towards 0. */
  function SleepTick(b: GameBalance, prev: Stats): (next: Stats)
    ensures next.energy <= b.maxStat && next.hunger >= 0.0 && next.happiness >= 0.0
    ensures prev.energy <= b.maxStat ==> prev.energy <= next.energy
    ensures prev.hunger >= 0.0 ==> next.hunger <= prev.hunger
    ensures prev.happiness >= 0.0 ==> next.happiness <= prev.happiness
  {
    Stats(
      RaiseCapped(prev.energy, RateOf(b.sleepEnergyGainMs), b.maxStat),
      LowerFloored(prev.hunger, RateOf(b.sleepHungerLossMs)),
      LowerFloored(prev.happiness, RateOf(b.sleepHappinessLossMs)))
  }

  /** The displayed stats after `n` firings of the interval. */
  function SleepTicks(b: GameBalance, s: Stats, n: nat): (r: Stats)
    ensures n > 0 ==> r.energy <= b.maxStat && r.hunger >= 0.0 && r.happiness >= 0.0
    ensures s.energy <= b.maxStat ==> s.energy <= r.energy <= b.maxStat
    ensures s.hunger >= 0.0 ==> 0.0 <= r.hunger <= s.hunger
    ensures s.happiness >= 0.0 ==> 0.0 <= r.happiness <= s.happiness
    decreases n
  {
    if n == 0 then s else SleepTick(b, SleepTicks(b, s, n - 1))
  }

  /** With finite periods one tick is exactly the source's formula: energy becomes
      `min(maxStat, energy + 1000/gainMs)`, hunger and happiness `max(0, x - 1000/lossMs)`. */
  lemma SleepTickFormula(b: GameBalance, prev: Stats)
    requires b.sleepEnergyGainMs > 0 && b.sleepHungerLossMs > 0 && b.sleepHappinessLossMs > 0
    ensures SleepTick(b, prev).energy == Min(b.maxStat, prev.energy + 1000.0 / b.sleepEnergyGainMs as real)
    ensures SleepTick(b, prev).hunger == Max(0.0, prev.hunger - 1000.0 / b.sleepHungerLossMs as real)
    ensures SleepTick(b, prev).happiness == Max(0.0, prev.happiness - 1000.0 / b.sleepHappinessLossMs as real)
  {
  }

  lemma RaiseAgain(x: real, rate: Rate, k: nat, cap: real)
    requires k > 0 && NonNegative(rate)
    ensures RaiseCapped(RaiseCapped(x, Times(rate, k), cap), rate, cap) == RaiseCapped(x, Times(rate, k + 1), cap)
  {
    if rate.PerSecond? {
      var p := rate.amount;
      assert p * (k + 1) as real == p * k as real + p;
    }
  }

  lemma LowerAgain(x: real, rate: Rate, k: nat)
    requires k > 0 && NonNegative(rate)
    ensures LowerFloored(LowerFloored(x, Times(rate, k)), rate) == LowerFloored(x, Times(rate, k + 1))
  {
    if rate.PerSecond? {
      var p := rate.amount;
      assert p * (k + 1) as real == p * k as real + p;
    }
  }

  /** `n >= 1` ticks equal one tick at `n` times the rate: the clamps do not accumulate
      error, so the display after `n` seconds is `min(maxStat, e + n * 1000/gainMs)` and
      `max(0, h - n * 1000/lossMs)`. */
  lemma {:induction false} SleepTicksClosedForm(b: GameBalance, s: Stats, n: nat)
    requires n > 0
    ensures SleepTicks(b, s, n) == Stats(
      RaiseCapped(s.energy, Times(RateOf(b.sleepEnergyGainMs), n), b.maxStat),
      LowerFloored(s.hunger, Times(RateOf(b.sleepHungerLossMs), n)),
      LowerFloored(s.happiness, Times(RateOf(b.sleepHappinessLossMs), n)))
    decreases n
  {
    if n > 1 {
      SleepTicksClosedForm(b, s, n - 1);
      RaiseAgain(s.energy, RateOf(b.sleepEnergyGainMs), n - 1, b.maxStat);
      LowerAgain(s.hunger, RateOf(b.sleepHungerLossMs), n - 1);
      LowerAgain(s.happiness, RateOf(b.sleepHappinessLossMs), n - 1);
    }
  }

  /** Once `n` seconds of gain cover the distance to `maxStat`, the displayed energy is
      exactly `maxStat`. */
  lemma SleepFillsEnergy(b: GameBalance, s: Stats, n: nat)
    requires n > 0
    requires b.sleepEnergyGainMs == 0 || s.energy + (n as real) * 1000.0 / (b.sleepEnergyGainMs as real) >= b.maxStat
    ensures SleepTicks(b, s, n).energy == b.maxStat
  {
    SleepTicksClosedForm(b, s, n);
    if b.sleepEnergyGainMs > 0 {
      var p := 1000.0 / (b.sleepEnergyGainMs as real);
      assert (n as real) * 1000.0 / (b.sleepEnergyGainMs as real) == p * n as real;
    }
  }

  /** The interval exists only while the pet sleeps, no wake-up is pending and the game
      balance has loaded (`pet.isSleeping && !isWakingUp && gameBalance`). */
  predicate TickActive(pet: Pet, isWakingUp: bool, balance: Option<GameBalance>) {
    pet.isSleeping && !isWakingUp && balance.Some?
  }

  /** The component's `displayStats` state. */
  class PetDisplay {
    var displayStats: Stats

    /** `useState(pet.stats)` */
    constructor (pet: Pet)
      ensures displayStats == pet.stats
    {
      displayStats := pet.stats;
    }

    /** The effect keyed on `pet.stats`: the display is reset to the ledger's stats. */
    method LedgerStatsChanged(stats: Stats)
      modifies this
      ensures displayStats == stats
    {
      displayStats := stats;
    }

    /** One second of wall-clock time: the interval fires only while it is active. */
    method SecondElapsed(pet: Pet, isWakingUp: bool, balance: Option<GameBalance>)
      modifies this
      ensures displayStats == if TickActive(pet, isWakingUp, balance)
                              then SleepTick(balance.value, old(displayStats))
                              else old(displayStats)
    {
      if TickActive(pet, isWakingUp, balance) {
        displayStats := SleepTick(balance.value, displayStats);
      }
    }

    /** `n` seconds during which the effect's inputs do not change. */
    method RunSeconds(pet: Pet, isWakingUp: bool, balance: Option<GameBalance>, n: nat)
      modifies this
      ensures TickActive(pet, isWakingUp, balance) ==> displayStats == SleepTicks(balance.value, old(displayStats), n)
      ensures !TickActive(pet, isWakingUp, balance) ==> displayStats == old(displayStats)
    {
      var i := 0;
      while i < n
        invariant 0 <= i <= n
        invariant TickActive(pet, isWakingUp, balance) ==> displayStats == SleepTicks(balance.value, old(displayStats), i)
        invariant !TickActive(pet, isWakingUp, balance) ==> displayStats == old(displayStats)
      {
        SecondElapsed(pet, isWakingUp, balance);
        i := i + 1;
      }
    }
  }

  // ---------------------------------------------------------------------------------------
  // Action eligibility and the buttons
  // ---------------------------------------------------------------------------------------

  /** The `isPending` flags of the six pet mutations. */
  datatype Pending = Pending(feeding: bool, playing: bool, working: bool, sleeping: bool, wakingUp: bool, levelingUp: bool)

  predicate IsAnyActionPending(p: Pending) {
    p.feeding || p.playing || p.sleeping || p.working || p.levelingUp || p.wakingUp
  }

  // The eligibility rules read the ledger's `pet.stats`, not the drifting display.

  predicate CanFeed(pet: Pet, b: GameBalance) {
    !pet.isSleeping && pet.stats.hunger < b.maxStat && pet.gameData.coins >= b.feedCoinsCost
  }

  predicate CanPlay(pet: Pet, b: GameBalance) {
    !pet.isSleeping && pet.stats.energy >= b.playEnergyLoss && pet.stats.hunger >= b.playHungerLoss
  }

  predicate CanWork(pet: Pet, b: GameBalance) {
    && !pet.isSleeping
    && pet.stats.energy >= b.workEnergyLoss
    && pet.stats.happiness >= b.workHappinessLoss
    && pet.stats.hunger >= b.workHungerLoss
  }

  /** The target shown in the header: `level * exp_per_level`. */
  function XpForNextLevel(pet: Pet, b: GameBalance): int {
    pet.gameData.level * b.expPerLevel
  }

  predicate CanLevelUp(pet: Pet, b: GameBalance) {
    !pet.isSleeping && pet.gameData.experience >= XpForNextLevel(pet, b)
  }

  /** The rest button: Sleep while awake, Wake Up while asleep. */
  datatype RestButton = SleepButton(disabled: bool) | WakeUpButton(disabled: bool)

  datatype Controls = Controls(
    levelUpDisabled: bool,
    feedDisabled: bool,
    playDisabled: bool,
    workDisabled: bool,
    rest: RestButton,
    wardrobeDisabled: bool)

  /** What the component renders: the loading screen, or the card with its header target
      and its buttons. */
  datatype Dashboard = LoadingGameRules | Ready(xpForNextLevel: int, controls: Controls)

  function RenderDashboard(pet: Pet, balance: Option<GameBalance>, isLoadingBalance: bool, pending: Pending): (d: Dashboard)
    ensures d.LoadingGameRules? <==> isLoadingBalance || balance.None?
    ensures d.Ready? ==> (d.controls.rest.WakeUpButton? <==> pet.isSleeping)
    // a pending action disables every button but Wake Up
    ensures d.Ready? && IsAnyActionPending(pending) ==>
      && d.controls.levelUpDisabled && d.controls.feedDisabled && d.controls.playDisabled
      && d.controls.workDisabled && d.controls.wardrobeDisabled
      && (d.controls.rest.SleepButton? ==> d.controls.rest.disabled)
    // Wake Up is disabled by its own mutation and nothing else
    ensures d.Ready? && d.controls.rest.WakeUpButton? ==> (d.controls.rest.disabled <==> pending.wakingUp)
    // a sleeping pet can do nothing but wake up
    ensures d.Ready? && pet.isSleeping ==>
      d.controls.levelUpDisabled && d.controls.feedDisabled && d.controls.playDisabled && d.controls.workDisabled
    // Level Up is enabled exactly when the experience reaches the target in the header
    ensures d.Ready? ==> (!d.controls.levelUpDisabled <==>
      !pet.isSleeping && !IsAnyActionPending(pending) && pet.gameData.experience >= d.xpForNextLevel)
    // the header's target is the same product Level Up compares against
    ensures d.Ready? ==> d.xpForNextLevel == pet.gameData.level * balance.value.expPerLevel
    // with nothing pending, Sleep and the wardrobe are always available
    ensures d.Ready? && !IsAnyActionPending(pending) ==>
      !d.controls.wardrobeDisabled && (d.controls.rest.SleepButton? ==> !d.controls.rest.disabled)
    ensures d.Ready? ==> (!d.controls.feedDisabled <==>
      && !pet.isSleeping && !IsAnyActionPending(pending)
      && pet.stats.hunger < balance.value.maxStat && pet.gameData.coins >= balance.value.feedCoinsCost)
  {
    if isLoadingBalance || balance.None? then LoadingGameRules
    else
      var b := balance.value;
      var busy := IsAnyActionPending(pending);
      Ready(
        XpForNextLevel(pet, b),
        Controls(
          !CanLevelUp(pet, b) || busy,
          !CanFeed(pet, b) || busy,
          !CanPlay(pet, b) || busy,
          !CanWork(pet, b) || busy,
          if pet.isSleeping then WakeUpButton(pending.wakingUp) else SleepButton(busy),
          busy))
  }

  /** Play and Work are enabled exactly when the pet is awake, nothing is pending and every
      stat the action spends covers its cost. */
  lemma PlayAndWorkEnabled(pet: Pet, b: GameBalance, isLoadingBalance: bool, pending: Pending)
    requires !isLoadingBalance
    ensures var c := RenderDashboard(pet, Some(b), isLoadingBalance, pending).controls;
      && (!c.playDisabled <==>
            (!pet.isSleeping && !IsAnyActionPending(pending)
             && pet.stats.energy >= b.playEnergyLoss && pet.stats.hunger >= b.playHungerLoss))
      && (!c.workDisabled <==>
            (!pet.isSleeping && !IsAnyActionPending(pending)
             && pet.stats.energy >= b.workEnergyLoss && pet.stats.happiness >= b.workHappinessLoss
             && pet.stats.hunger >= b.workHungerLoss))
  {
  }

  // ---------------------------------------------------------------------------------------
  // Click handlers
  // ---------------------------------------------------------------------------------------

  datatype UserAction = FeedClicked | PlayClicked | WorkClicked | SleepClicked | WakeUpClicked | LevelUpClicked | WardrobeClicked

  /** The ledger transactions the dashboard submits. */
  datatype Mutation = FeedPet | PlayWithPet | WorkForCoins | LetPetSleep | WakeUpPet | CheckAndLevelUp

  /** What a handler does, in order: a call on the selected sound set, a mutation, or
      opening the wardrobe dialog. */
  datatype Effect = PlaySound(sound: SoundEffect) | StopSound(sound: SoundEffect) | Mutate(mutation: Mutation, petId: string) | OpenWardrobe

  /** The sound set entry each handler plays. */
  function ActionSound(action: UserAction): SoundEffect {
    match action
    case FeedClicked => Feed
    case PlayClicked => Play
    case WorkClicked => Work
    case SleepClicked => Sleep
    case WakeUpClicked => WakeUp
    case LevelUpClicked => LevelUp
    case WardrobeClicked => Click
  }

  /** The transaction each handler but the wardrobe's submits. */
  function ActionMutation(action: UserAction): Mutation
    requires action != WardrobeClicked
  {
    match action
    case FeedClicked => FeedPet
    case PlayClicked => PlayWithPet
    case WorkClicked => WorkForCoins
    case SleepClicked => LetPetSleep
    case WakeUpClicked => WakeUpPet
    case LevelUpClicked => CheckAndLevelUp
  }

  /** No two buttons play the same sound, and no two submit the same transaction. */
  lemma HandlersDistinct(a: UserAction, b: UserAction)
    requires a != b
    ensures ActionSound(a) != ActionSound(b)
    ensures a != WardrobeClicked && b != WardrobeClicked ==> ActionMutation(a) != ActionMutation(b)
  {
  }

  function Handle(action: UserAction, petId: string): (effects: seq<Effect>)
    ensures |effects| == if action == WakeUpClicked then 3 else 2
    // the last step is the dispatch of the action's own transaction for this pet (or
    // opening the dialog), after every sound call
    ensures action == WardrobeClicked <==> effects[|effects| - 1] == OpenWardrobe
    ensures action != WardrobeClicked ==> effects[|effects| - 1] == Mutate(ActionMutation(action), petId)
    ensures forall i :: 0 <= i < |effects| - 1 ==> effects[i].PlaySound? || effects[i].StopSound?
    // right before it, the action's own sound
    ensures effects[|effects| - 2] == PlaySound(ActionSound(action))
    // only waking up stops a sound, and it stops the sleep loop first
    ensures forall i :: 0 <= i < |effects| && effects[i].StopSound? ==> i == 0 && action == WakeUpClicked
    ensures action == WakeUpClicked ==> effects[0] == StopSound(Sleep)
  {
    match action
    case FeedClicked => [PlaySound(Feed), Mutate(FeedPet, petId)]
    case PlayClicked => [PlaySound(Play), Mutate(PlayWithPet, petId)]
    case WorkClicked => [PlaySound(Work), Mutate(WorkForCoins, petId)]
    case SleepClicked => [PlaySound(Sleep), Mutate(LetPetSleep, petId)]
    case WakeUpClicked => [StopSound(Sleep), PlaySound(WakeUp), Mutate(WakeUpPet, petId)]
    case LevelUpClicked => [PlaySound(LevelUp), Mutate(CheckAndLevelUp, petId)]
    case WardrobeClicked => [PlaySound(Click), OpenWardrobe]
  }
}
