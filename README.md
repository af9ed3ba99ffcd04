# Tamagosui dashboard: a Dafny model

Tamagosui is a virtual-pet game whose pets, accessories and rules live on the Sui ledger.
This project models the browser-side core of its React front end. That core covers four areas.

- **The pet dashboard.** The once-a-second sleep tick moves the displayed stats, the ledger's
  stats reset them, and the game's balance rules enable or disable each action button. The
  click handlers play a sound, then submit a ledger transaction.
- **The two wardrobe views.** These are the dialog and the inline manager, together with the
  query that works out which accessories a pet wears from its dynamic fields.
- **The sound settings provider.** It holds an on/off switch and a master volume clamped to
  [0, 1].
- **The three sound hooks.** One plays recorded files. One plays simple beeps on a shared
  audio context. One builds synthesised tone tables, with a looping sleep chord. On top of
  these, a probe decides whether the recorded files can be used.

Each source file has its own module:

| source | module |
|---|---|
| `PetComponent.tsx` | `PetComponent` |
| `WardrobeModal.tsx` | `WardrobeModal` |
| `Wardrobe.tsx` | `Wardrobe` |
| `useQueryEquippedAccessories.ts` | `EquippedQuery` |
| `SoundContext.tsx` | `SoundContext` |
| `useSmartSoundEffects.ts` | `SmartSoundEffects` |
| `useEnhancedBeepSounds.ts` | `EnhancedBeepSounds` |
| `useSound.ts` | `UseSound` |
| `useBeepSound.ts` | `UseBeepSound` |

Three small modules are shared:

- `Common`: `Option`, `Math.min` and `Math.max` on reals, and subsequences.
- `SoundTypes`: the seven effect names, the waveforms and the tones.
- `WardrobeActions`: the accessory commands and the rule that locks every wardrobe button.

Some of the source is pure: render decisions, eligibility rules, option defaults and the
tone tables. It is modelled as functions with contracts and lemmas about them. State the
source changes in place is modelled as classes with methods that modify their fields:

- the displayed stats (`PetDisplay`);
- the provider (`SoundProvider`);
- the probe (`AudioAvailability`);
- each `useSound` element (`SoundHook` over `AudioElement`);
- the lazily created beep context (`BeepSoundHook`);
- the sleep loop's oscillator list and interval (`SleepLoop` over `Timers`).

Calls into the ledger, the browser and its audio stack become parameters. These are the
fetched dynamic fields and objects, whether an audio context can be built, whether `play()`
is accepted, and which probe event comes first.

Where the source disagrees with itself, the model follows the code:

- The dialog lists the hat before the glasses. The inline manager lists the glasses first.
- The dialog's Unequip sends the accessory's own `accessory_type`. The manager's sends the
  literal slot name.
- Eligibility reads the ledger's `pet.stats`, not the drifting displayed stats.
- The manager's inventory view is chosen whenever the owned list is non-empty. It shows no
  rows at all when that list holds neither glasses nor a hat.

## Model

| member | source | states |
|---|---|---|
| PetComponent.RateOf | tamagosui-ui/src/pages/home/PetComponent.tsx:61-63 | the per-second rate is finite exactly when the period is non-zero, and then rate × period = 1000; a 0 ms period is JavaScript's `Infinity` |
| PetComponent.RaiseCapped | tamagosui-ui/src/pages/home/PetComponent.tsx:66 | the raised energy never exceeds the cap; an infinite rate gives exactly the cap; otherwise the result is the sum or the cap, whichever is smaller |
| PetComponent.LowerFloored | tamagosui-ui/src/pages/home/PetComponent.tsx:67-68 | the lowered stat is never negative; an infinite rate gives 0; otherwise the result is the difference or 0 |
| PetComponent.SleepTick | tamagosui-ui/src/pages/home/PetComponent.tsx:60-69 | one tick keeps energy at most `max_stat` and hunger and happiness at least 0; energy never falls when it starts at or below `max_stat`, and hunger and happiness never rise when they start at or above 0 |
| PetComponent.SleepTicks | tamagosui-ui/src/pages/home/PetComponent.tsx:57-74 | after any number of ticks each stat stays between its start and its bound (`max_stat` for energy, 0 for the others) |
| PetComponent.SleepTickFormula | tamagosui-ui/src/pages/home/PetComponent.tsx:61-68 | with non-zero periods a tick is `min(max_stat, e + 1000/gain)` and `max(0, x - 1000/loss)` |
| PetComponent.RaiseAgain | tamagosui-ui/src/pages/home/PetComponent.tsx:66 | one more capped step after k steps equals one capped step at k+1 times the rate |
| PetComponent.LowerAgain | tamagosui-ui/src/pages/home/PetComponent.tsx:67-68 | the same for floored steps |
| PetComponent.SleepTicksClosedForm | tamagosui-ui/src/pages/home/PetComponent.tsx:57-74 | n ≥ 1 ticks equal one clamped step at n times each rate, so the clamps add no drift |
| PetComponent.SleepFillsEnergy | tamagosui-ui/src/pages/home/PetComponent.tsx:66 | once n seconds of gain cover the gap, the displayed energy is exactly `max_stat` |
| PetComponent.TickActive | tamagosui-ui/src/pages/home/PetComponent.tsx:58 | the interval runs exactly while the pet sleeps, no wake-up is pending and the balance has loaded (a definition; `SecondElapsed` applies a tick exactly under it) |
| PetComponent.PetDisplay.constructor | tamagosui-ui/src/pages/home/PetComponent.tsx:40 | the display starts at the ledger's stats |
| PetComponent.PetDisplay.LedgerStatsChanged | tamagosui-ui/src/pages/home/PetComponent.tsx:53-55 | new ledger stats replace the display |
| PetComponent.PetDisplay.SecondElapsed | tamagosui-ui/src/pages/home/PetComponent.tsx:57-74 | while the pet sleeps, no wake-up is pending and the balance has loaded, a second applies one tick; otherwise nothing changes |
| PetComponent.PetDisplay.RunSeconds | tamagosui-ui/src/pages/home/PetComponent.tsx:57-74 | n seconds with active ticks give `SleepTicks(n)`, and with no ticks the display is unchanged |
| PetComponent.IsAnyActionPending | tamagosui-ui/src/pages/home/PetComponent.tsx:85 | some mutation is pending exactly when one of the six pending flags is set (a definition; its effect on the buttons is in `RenderDashboard`) |
| PetComponent.CanFeed | tamagosui-ui/src/pages/home/PetComponent.tsx:86 | awake, hunger below `max_stat` and enough coins for `feed_coins_cost` (a definition; `RenderDashboard` ties the Feed button to it both ways) |
| PetComponent.CanPlay | tamagosui-ui/src/pages/home/PetComponent.tsx:87 | awake, with energy and hunger covering the play costs (a definition; see `PlayAndWorkEnabled`) |
| PetComponent.CanWork | tamagosui-ui/src/pages/home/PetComponent.tsx:88 | awake, with energy, happiness and hunger covering the work costs (a definition; see `PlayAndWorkEnabled`) |
| PetComponent.XpForNextLevel | tamagosui-ui/src/pages/home/PetComponent.tsx:89 | the experience the next level needs, `level * exp_per_level` (a definition; `RenderDashboard` shows it in the header) |
| PetComponent.CanLevelUp | tamagosui-ui/src/pages/home/PetComponent.tsx:89 | awake and with at least `XpForNextLevel` experience (a definition; `RenderDashboard` ties the Level Up button to it both ways) |
| PetComponent.RenderDashboard | tamagosui-ui/src/pages/home/PetComponent.tsx:76-210 | loading exactly while the balance is loading or missing; the header target is `level * exp_per_level`, the product Level Up compares against; Wake Up is shown exactly while the pet sleeps; a pending action disables every button but Wake Up; with nothing pending Sleep and the wardrobe are enabled; Wake Up is disabled exactly by its own pending mutation; a sleeping pet's four actions are disabled; Level Up and Feed are enabled exactly under their conditions |
| PetComponent.PlayAndWorkEnabled | tamagosui-ui/src/pages/home/PetComponent.tsx:85-88 | Play and Work are enabled exactly when the pet is awake, nothing is pending and each spent stat covers its cost |
| PetComponent.ActionSound | tamagosui-ui/src/pages/home/PetComponent.tsx:92-126 | the sound each handler plays (a table; see `HandlersDistinct`) |
| PetComponent.ActionMutation | tamagosui-ui/src/pages/home/PetComponent.tsx:92-126 | the transaction each handler submits (a table; see `HandlersDistinct`) |
| PetComponent.HandlersDistinct | tamagosui-ui/src/pages/home/PetComponent.tsx:92-126 | no two handlers play the same sound, and no two transaction handlers submit the same transaction |
| PetComponent.Handle | tamagosui-ui/src/pages/home/PetComponent.tsx:92-126 | Wake Up takes three steps and every other handler two; each handler plays its own sound and then submits its own transaction for the pet, except Wardrobe, which opens the dialog; only Wake Up stops a sound, and it first stops the sleep loop |
| EquippedQuery.IsSlotField | tamagosui-ui/src/hooks/useQueryEquippedAccessories.ts:34-36 | the `find` test: a `0x1::string::String` name whose value is the slot key; the hat search at lines 41-43 is the same test (a definition; see `FirstSlotIndex` and `FindSlotField`) |
| EquippedQuery.HasPetId | tamagosui-ui/src/hooks/useQueryEquippedAccessories.ts:26 | a pet id is present and non-empty, the negation of `!petId`; `enabled: !!petId` at line 85 is the same test (a definition; see `QueryEquipped`) |
| EquippedQuery.FirstSlotIndex | tamagosui-ui/src/hooks/useQueryEquippedAccessories.ts:33-44 | the index is that of the first string-typed field named by the key, or the length when there is none |
| EquippedQuery.FindSlotField | tamagosui-ui/src/hooks/useQueryEquippedAccessories.ts:33-37 | `find` returns nothing exactly when no field matches, and otherwise the first match |
| EquippedQuery.Unwrap | tamagosui-ui/src/hooks/useQueryEquippedAccessories.ts:61-63 | an accessory is produced exactly when the object, its `value` and its `fields` are all present, and it is those fields |
| EquippedQuery.QueryEquipped | tamagosui-ui/src/hooks/useQueryEquippedAccessories.ts:25-84 | `queryFn`: with no (or an empty) pet id it returns two null slots at once; otherwise each slot is its own resolved field. A query disabled by `enabled: !!petId` (line 85) never calls `queryFn`, so the views then get no data at all (`eq` is `None` in both view models), not two null slots |
| EquippedQuery.ResolveSlot | tamagosui-ui/src/hooks/useQueryEquippedAccessories.ts:50-81 | how one slot is resolved: the first matching field, fetched and unwrapped (a definition; see `ResolveSlotCases`) |
| EquippedQuery.ResolveSlotCases | tamagosui-ui/src/hooks/useQueryEquippedAccessories.ts:46-81 | a slot is null when no field names it; otherwise it is exactly what the first field naming it unwraps to |
| EquippedQuery.OtherNameTypeIgnored | tamagosui-ui/src/hooks/useQueryEquippedAccessories.ts:33-37 | inserting a field with a matching value but another name type, anywhere, changes neither the search nor the slot |
| EquippedQuery.SlotSearchIgnoresOtherKeys | tamagosui-ui/src/hooks/useQueryEquippedAccessories.ts:33-44 | inserting a field for another key, anywhere, does not change which field a slot uses |
| EquippedQuery.SlotsIndependent | tamagosui-ui/src/hooks/useQueryEquippedAccessories.ts:50-81 | a slot depends only on what is fetched for its own key, so a missing or malformed hat cannot clear the glasses |
| WardrobeActions.IsProcessingWardrobe | tamagosui-ui/src/pages/home/components/WardrobeModal.tsx:34 | `isMinting || isEquipping || isUnequipping`, written the same at Wardrobe.tsx:37 (a definition; see `WardrobeLocked`) |
| WardrobeActions.WardrobeLocked | tamagosui-ui/src/pages/home/components/WardrobeModal.tsx:54-58 | `isAnyActionPending || isProcessingWardrobe`, the `disabled` of every wardrobe button, here and at lines 111 and 118 and in Wardrobe.tsx (a definition; see both views' `RenderContent`) |
| WardrobeActions.MintButtons | tamagosui-ui/src/pages/home/components/WardrobeModal.tsx:109-122 | the two mint buttons, glasses then hat, sharing one disabled flag (a definition; see both views' `RenderContent`) |
| WardrobeModal.UnequipItem | tamagosui-ui/src/pages/home/components/WardrobeModal.tsx:53-56 | an equipped row: the accessory with an Unequip naming the accessory's own `accessory_type` (a definition; see `EquippedItems`) |
| WardrobeModal.EquipItem | tamagosui-ui/src/pages/home/components/WardrobeModal.tsx:57-60 | an inventory row: the accessory with an Equip naming its object id (a definition; see `RenderContent`) |
| WardrobeModal.SlotOccupied | tamagosui-ui/src/pages/home/components/WardrobeModal.tsx:72-73 | an accessory's slot is taken when it is a hat and a hat is worn, or glasses and glasses are worn (a definition; see `KeepUnoccupied`) |
| WardrobeModal.KeepUnoccupied | tamagosui-ui/src/pages/home/components/WardrobeModal.tsx:70-75 | exactly the owned accessories whose slot is free are kept, each as often as it is owned, in owned order |
| WardrobeModal.Unequipped | tamagosui-ui/src/pages/home/components/WardrobeModal.tsx:70-75 | with no owned list the inventory is empty |
| WardrobeModal.EquippedItems | tamagosui-ui/src/pages/home/components/WardrobeModal.tsx:82-84 | one row per filled slot, so none exactly when both slots are empty; the hat comes first and the glasses last; every row is an Unequip of its accessory |
| WardrobeModal.InventoryItems | tamagosui-ui/src/pages/home/components/WardrobeModal.tsx:90-94 | one Equip row per unequipped accessory, in order, all with the same disabled flag (a definition; see `RenderContent` and `InventoryIsExactlyTheFreeSlots`) |
| WardrobeModal.RenderContent | tamagosui-ui/src/pages/home/components/WardrobeModal.tsx:65-127 | a spinner exactly while loading; otherwise the Equipped section (one row per filled slot; the notice exactly when it is empty), the Inventory section (exactly the free-slot accessories, each with its own Equip; the notice exactly when it is empty), and two mint buttons, glasses then hat; every button is locked by an outer action or any wardrobe mutation |
| WardrobeModal.InventoryIsExactlyTheFreeSlots | tamagosui-ui/src/pages/home/components/WardrobeModal.tsx:70-75 | an accessory is offered exactly when it is owned and its slot is free, and the offer keeps the owned order |
| Wardrobe.HasAnyAccessory | tamagosui-ui/src/pages/home/components/Wardrobe.tsx:49-51 | some slot is filled (a definition; `RenderContent` shows the equipped view exactly under it) |
| Wardrobe.FirstIndexOfType | tamagosui-ui/src/pages/home/components/Wardrobe.tsx:110-111 | the index is that of the first owned accessory of the type, or the length when there is none |
| Wardrobe.FindOfType | tamagosui-ui/src/pages/home/components/Wardrobe.tsx:110-111 | nothing exactly when no accessory has the type, and otherwise the first that has it |
| Wardrobe.SlotRow | tamagosui-ui/src/pages/home/components/Wardrobe.tsx:54-106 | one row exactly for a filled slot, unequipping that slot by name |
| Wardrobe.PickRow | tamagosui-ui/src/pages/home/components/Wardrobe.tsx:109-172 | one row exactly for a found accessory, equipping it by id |
| Wardrobe.RenderContent | tamagosui-ui/src/pages/home/components/Wardrobe.tsx:40-205 | the four views in priority order (loading, equipped, inventory, mint), each exactly under its condition; equipped rows put glasses first, then hat; inventory rows are the first glasses and the first hat, and there are none exactly when the list holds neither; the mint buttons are glasses then hat, locked like every other button |
| SoundContext.ClampUnit | tamagosui-ui/src/contexts/SoundContext.tsx:24-26 | the result is in [0, 1]; a value already in range is kept, below it gives 0 and above it gives 1 |
| SoundContext.ClampUnitIdempotent | tamagosui-ui/src/contexts/SoundContext.tsx:24-26 | clamping twice is clamping once |
| SoundContext.Toggled | tamagosui-ui/src/contexts/SoundContext.tsx:20-22 | the switch flips and the volume stays |
| SoundContext.WithMasterVolume | tamagosui-ui/src/contexts/SoundContext.tsx:24-26 | the new volume is in [0, 1], the switch stays, and an in-range volume is stored as given |
| SoundContext.SettingsLaws | tamagosui-ui/src/contexts/SoundContext.tsx:17-26 | toggling twice restores the state; the last volume set wins; validity survives a toggle; the initial state (on, 0.7) is valid |
| SoundContext.SoundProvider.constructor | tamagosui-ui/src/contexts/SoundContext.tsx:17-18 | the provider starts enabled at 0.7 |
| SoundContext.SoundProvider.ToggleSound | tamagosui-ui/src/contexts/SoundContext.tsx:20-22 | the provider's value becomes the toggled one and stays valid |
| SoundContext.SoundProvider.SetMasterVolume | tamagosui-ui/src/contexts/SoundContext.tsx:24-26 | the provider's value takes the clamped volume and is valid |
| SoundContext.UseSoundContext | tamagosui-ui/src/contexts/SoundContext.tsx:42-48 | it throws, with the source's message, exactly outside a provider, and otherwise returns the provider's value |
| SmartSoundEffects.Step | tamagosui-ui/src/hooks/useSmartSoundEffects.ts:16-39 | a settled probe ignores events; the first live event settles it, ends the check and clears the timer, with files available exactly on `canplay` |
| SmartSoundEffects.Run | tamagosui-ui/src/hooks/useSmartSoundEffects.ts:16-39 | the probe after a sequence of events, one `Step` each (a definition; see the three lemmas below) |
| SmartSoundEffects.Consistent | tamagosui-ui/src/hooks/useSmartSoundEffects.ts:6-46 | checking exactly until settled, the timer pending exactly until settled, files only once settled (a definition; see `RunKeepsConsistent`) |
| SmartSoundEffects.RunKeepsConsistent | tamagosui-ui/src/hooks/useSmartSoundEffects.ts:6-46 | checking, the pending timer and unsettledness coincide, and files are reported only after settling, under any event sequence |
| SmartSoundEffects.SettledIsFinal | tamagosui-ui/src/hooks/useSmartSoundEffects.ts:16-30 | once settled, no later event changes the probe |
| SmartSoundEffects.FirstEventDecides | tamagosui-ui/src/hooks/useSmartSoundEffects.ts:16-39 | the outcome is decided by the first event alone |
| SmartSoundEffects.AudioAvailability.constructor | tamagosui-ui/src/hooks/useSmartSoundEffects.ts:7-8 | no files, checking, timer armed |
| SmartSoundEffects.AudioAvailability.Handle | tamagosui-ui/src/hooks/useSmartSoundEffects.ts:16-39 | the hook's state after an event is `Step` of its state before |
| SmartSoundEffects.SelectSoundEffects | tamagosui-ui/src/hooks/useSmartSoundEffects.ts:49-60 | files are used exactly when they are available; `hasAudioFiles` and `isChecking` are passed through from the probe; the beep fallback is flagged exactly when there are no files and the check is over; while checking, beeps are used without the flag |
| SmartSoundEffects.SelectionOverTime | tamagosui-ui/src/hooks/useSmartSoundEffects.ts:6-60 | before any event: beeps without the flag; after events: files exactly when the first was `canplay`, and the beep-fallback flag exactly otherwise |
| EnhancedBeepSounds.GenerateBeepDataUrl | tamagosui-ui/src/hooks/useEnhancedBeepSounds.ts:5-9 | always the empty string |
| EnhancedBeepSounds.PlayTone | tamagosui-ui/src/hooks/useEnhancedBeepSounds.ts:19-46 | an oscillator exists exactly when sound is on and the context can be built; it has the requested pitch, length and waveform, and peaks at volume × master volume |
| EnhancedBeepSounds.PeakWithinVolume | tamagosui-ui/src/hooks/useEnhancedBeepSounds.ts:33-35 | with a valid master volume a tone never peaks above its own volume |
| EnhancedBeepSounds.ToneTable | tamagosui-ui/src/hooks/useEnhancedBeepSounds.ts:83-144 | the `playTone` calls, with their delays, that each effect's `play` issues; Sleep's is the chord of lines 52-54 (a table; see `ToneTableOrderings`) |
| EnhancedBeepSounds.ToneTableOrderings | tamagosui-ui/src/hooks/useEnhancedBeepSounds.ts:83-144 | the sleep chord descends, the level-up fanfare ascends, every table's delays are in order, and every volume is in (0, 1] |
| EnhancedBeepSounds.TableTones | tamagosui-ui/src/hooks/useEnhancedBeepSounds.ts:83-144 | one optional oscillator per table entry, present exactly when sound is on and its context can be built, at the entry's pitch, length and waveform, peaking at the entry's volume × master volume |
| EnhancedBeepSounds.TableTonesWithinVolume | tamagosui-ui/src/hooks/useEnhancedBeepSounds.ts:33-35 | with a valid master volume no tone of a table peaks above its entry's volume |
| EnhancedBeepSounds.EffectTonesWithinVolume | tamagosui-ui/src/hooks/useEnhancedBeepSounds.ts:83-144 | every effect's tones peak in [0, 1] |
| EnhancedBeepSounds.SleepLoop.PlayEffect | tamagosui-ui/src/hooks/useEnhancedBeepSounds.ts:83-144 | an entry's `play` starts its table's tones; Sleep's also starts the loop (one chord appended, a new live interval remembered); the other six change no state |
| EnhancedBeepSounds.SleepLoop.StopEffect | tamagosui-ui/src/hooks/useEnhancedBeepSounds.ts:83-144 | Sleep's `stop` clears and forgets the interval and empties the oscillator list; the other six `stop`s change nothing |
| EnhancedBeepSounds.Present | tamagosui-ui/src/hooks/useEnhancedBeepSounds.ts:56-58 | exactly the created oscillators are kept, in the order they were created, no more than were tried |
| EnhancedBeepSounds.Timers.constructor | tamagosui-ui/src/hooks/useEnhancedBeepSounds.ts:62 | the browser starts with no live interval |
| EnhancedBeepSounds.Timers.SetInterval | tamagosui-ui/src/hooks/useEnhancedBeepSounds.ts:62 | a new interval id, not live before, is live afterwards |
| EnhancedBeepSounds.Timers.ClearInterval | tamagosui-ui/src/hooks/useEnhancedBeepSounds.ts:66-69 | the id is no longer live |
| EnhancedBeepSounds.SleepLoop.constructor | tamagosui-ui/src/hooks/useEnhancedBeepSounds.ts:16-17 | a render's scope starts with no oscillators and no interval |
| EnhancedBeepSounds.SleepLoop.PlaySleepTone | tamagosui-ui/src/hooks/useEnhancedBeepSounds.ts:51-59 | the created chord oscillators, at most three, are appended to the active list |
| EnhancedBeepSounds.SleepLoop.StartSleepLoop | tamagosui-ui/src/hooks/useEnhancedBeepSounds.ts:48-63 | with sound off nothing changes; otherwise one chord plays and a new live interval is remembered |
| EnhancedBeepSounds.SleepLoop.StopSleepLoop | tamagosui-ui/src/hooks/useEnhancedBeepSounds.ts:65-79 | the remembered interval, if any, is cleared and forgotten, and the active list is emptied |
| EnhancedBeepSounds.WakeUpInLaterRender | tamagosui-ui/src/hooks/useEnhancedBeepSounds.ts:16-17 | as written: Wake Up in a later render leaves the sleep interval live |
| EnhancedBeepSounds.WakeUpWithPersistentLoop | tamagosui-ui/src/hooks/useEnhancedBeepSounds.ts:16-17 | corrected: with the pair kept across renders, Wake Up leaves no interval live |
| UseSound.ElementVolume | tamagosui-ui/src/hooks/useSound.ts:46 | the element plays at the option volume (0.5 when none is given) times the master volume |
| UseSound.Loops | tamagosui-ui/src/hooks/useSound.ts:47 | the element loops exactly when `loop: true` was given |
| UseSound.ElementVolumeInRange | tamagosui-ui/src/hooks/useSound.ts:28 | for volumes in [0, 1] the element volume is in [0, 1] and at most the option volume |
| UseSound.AudioElement.constructor | tamagosui-ui/src/hooks/useSound.ts:27 | a new element is paused at the start, not looping |
| UseSound.SoundHook.constructor | tamagosui-ui/src/hooks/useSound.ts:21-22 | no element yet, not playing |
| UseSound.SoundHook.Render | tamagosui-ui/src/hooks/useSound.ts:26-48 | the first render creates the element with the option rate; later renders keep the same element; every render sets volume and loop from the options and the current master volume |
| UseSound.SoundHook.Play | tamagosui-ui/src/hooks/useSound.ts:50-63 | with sound off, or no element, nothing changes; otherwise a non-looping sound rewinds, and it plays (and `isPlaying` is set) exactly when the browser accepts |
| UseSound.SoundHook.Stop | tamagosui-ui/src/hooks/useSound.ts:65-70 | the element is paused at time 0 and not playing; its volume, loop flag and rate are kept |
| UseSound.SoundHook.SetVolume | tamagosui-ui/src/hooks/useSound.ts:72-76 | the element's volume is volume × master, clamped to [0, 1]; everything else about it is kept |
| UseSound.SoundHook.PlaybackEnded | tamagosui-ui/src/hooks/useSound.ts:35 | a non-looping sound that reaches its end stops playing, and nothing else about the element changes; otherwise nothing changes |
| UseSound.SoundHook.LoadFailed | tamagosui-ui/src/hooks/useSound.ts:38-41 | a load error clears `isPlaying` |
| UseSound.PlayThenStop | tamagosui-ui/src/hooks/useSound.ts:50-70 | play then stop leaves the sound paused, rewound and not playing |
| UseSound.EffectSource | tamagosui-ui/src/hooks/useSound.ts:88-94 | the file each effect plays (a table; see `EffectTableFacts`) |
| UseSound.EffectOptions | tamagosui-ui/src/hooks/useSound.ts:88-94 | the options each effect is created with (a table; see `EffectTableFacts`) |
| UseSound.EffectTableFacts | tamagosui-ui/src/hooks/useSound.ts:87-105 | only the sleep sound loops; every effect plays at normal speed, at a volume in [0, 1], from its own file |
| UseSound.UseSoundEffects | tamagosui-ui/src/hooks/useSound.ts:87-105 | seven fresh hooks, one per effect with its file and options |
| UseBeepSound.ResolveBeepOptions | tamagosui-ui/src/hooks/useBeepSound.ts:25-30 | a given option wins, and a missing one takes 800 Hz, 200 ms, 0.3 or sine |
| UseBeepSound.DefaultsLaws | tamagosui-ui/src/hooks/useBeepSound.ts:22-30 | no options give the 800 Hz / 200 ms / 0.3 sine, and full options ignore the defaults |
| UseBeepSound.BeepSoundHook.constructor | tamagosui-ui/src/hooks/useBeepSound.ts:12 | no context yet |
| UseBeepSound.BeepSoundHook.GetAudioContext | tamagosui-ui/src/hooks/useBeepSound.ts:15-20 | a stored context is returned unchanged; otherwise one is created and stored, or, if the constructor throws, nothing is stored |
| UseBeepSound.BeepSoundHook.PlayBeep | tamagosui-ui/src/hooks/useBeepSound.ts:22-52 | nothing with sound off; otherwise a beep exactly when a context exists or can be built, at the resolved pitch, length and waveform, peaking at volume × master; a missing context is created and stored when it can be built, and stays missing when it cannot |
| UseBeepSound.TwoBeepsShareContext | tamagosui-ui/src/hooks/useBeepSound.ts:15-20 | a second beep reuses the first beep's context, even when building a new one would fail |
| UseBeepSound.BeepTable | tamagosui-ui/src/hooks/useBeepSound.ts:54-67 | the `playBeep` calls, with their delays, that each beep function issues (a table; see `ResolvedTable` and `BeepTableFacts`) |
| UseBeepSound.ResolvedTable | tamagosui-ui/src/hooks/useBeepSound.ts:54-67 | each call keeps its delay and the fields it gives; a missing frequency, duration, volume or waveform takes 800 Hz, 200 ms, 0.3 or sine |
| UseBeepSound.BeepTableFacts | tamagosui-ui/src/hooks/useBeepSound.ts:54-67 | level-up is C5, E5, G5 at 0, 150 and 300 ms in sine, ascending; delays are in order; click is at 0.1 and every other beep at the default 0.3 |

## Left out

- JSX layout, styling, icons, tooltips, animations and the pet card's drag and
  pixel art: only the decisions the markup encodes are modelled (which view,
  which rows, which buttons, what each is disabled by, what each submits).
- The ledger transactions (feed, play, work, sleep, wake, level up, mint, equip, unequip) and
  the owned-accessories query are outside the modelled files. A click is modelled as the
  transaction it submits. Pending flags, query data and loading flags are inputs.
- `getDynamicFields` pagination: the model searches the one page the call returns, as the
  source does.
- Query and transaction errors, retries and cache invalidation are React Query's concerns and
  are not modelled.
- Web Audio and HTML media internals (gain envelopes after the peak, oscillator stop times,
  decoding) are represented only by the tone started or the element's flags. The `osc.stop()`
  calls in `stopSleepLoop` are modelled by emptying the list, and their caught errors are
  ignored, as in the source.
- Timer ordering: `setTimeout` delays appear in the tone tables as numbers, and time is not
  modelled beyond the one-second display tick and the probe's event order.
- Console warnings and logs are not modelled.
- Numbers are exact reals, and ledger integers are unbounded. `NaN`, and the precision of
  `Number()` on u64 values above 2^53, are not modelled.
- EnhancedBeepSounds.PlayTone: the default arguments (`'sine'`, 0.3) are not modelled,
  because every call in the source passes all four.
- EnhancedBeepSounds.SleepLoop.StartSleepLoop: the interval's later firings are not run.
  Each would be a further `PlaySleepTone` on the same scope.
- UseSound.SoundHook.Play: the `play()` promise is taken to settle at once. A stop arriving before it
  settles is not modelled.
- UseSound.SoundHook.Render: an option volume above 1 would make the browser throw. Every
  caller passes at most 0.8, so that case is not modelled.

## Findings

| source | as written | input that shows it | evidently intended | confidence | as-written member | corrected member |
|---|---|---|---|---|---|---|
| tamagosui-ui/src/hooks/useEnhancedBeepSounds.ts:16-17 | `activeSleepOscillators` and `sleepInterval` are `let`s in the hook body, so every render starts over with an empty list and a null interval; `stopSleepLoop` from a later render cannot see the interval that `startSleepLoop` set | sound on, beep fallback active: click Sleep, let the dashboard re-render (the pending mutation and the once-a-second tick both cause one), then click Wake Up; the chord keeps playing every second | Wake Up stops the loop that Sleep started (the two variables kept in a ref) | not executed | EnhancedBeepSounds.WakeUpInLaterRender | EnhancedBeepSounds.WakeUpWithPersistentLoop |
