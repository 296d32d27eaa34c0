# Lucky wheel: spin engine, game state and synthesised sound

A Dafny model of the core of a React "lucky wheel" picker. The app keeps an editable
list of one to ten options. A click on the spin button asks the wheel component to spin.
The wheel draws a winner, turns to a target rotation, samples a tick sound every 50 ms
with a chance that falls as the spin slows, and reports the winner after 5000 ms. The
app then shows the winner and plays a fanfare. An audio manager owns at most one audio
context and a mute flag, and schedules the tick and fanfare voices.

Modules, one per source file:

- `Types` (types.ts): `WheelItem`, `SpinResult`, `GameState`, and an `Option` type.
- `Strings`: JavaScript's `String.prototype.trim`, which the option editor uses.
- `AudioUtil` (utils/audio.ts): class `AudioManager`. Its optional context is a field
  `ctx: Option<AudioContext>`. Every voice it schedules is appended to the field `log`
  as a record: waveform, frequency schedule, gain schedule, start time and stop time.
- `WheelComponent` (components/Wheel.tsx): the pure spin arithmetic (`PlanSpin`), tick
  sampling (`Outcome`, `TickTimes`) and gradient layout. Class `Wheel` holds the
  component's mutable state: `rotation`, `currentRotationRef`, live tick intervals and
  pending completion timeouts.
- `AppComponent` (App.tsx): class `App`, whose fields are the React state variables.
  It has one method per handler. The list edits are specified by the functions
  `WithAdded` and `WithRemoved`, and the game-state transitions by `NextState`.

Random draws, clock readings and timer firings are inputs to the model:

- The three `Math.random()` calls of a spin form a `Draws` record.
- A firing of the tick interval is a `Sample`: the elapsed milliseconds, the draw and the
  audio clock.
- The 5000 ms timeout firing is an explicit step, `Wheel.Complete` (or `App.SpinTimeout`,
  which then runs `onSpinComplete`).
- The audio clock `currentTime` is the `now` parameter of `PlayTick` and `PlayWin`.

Known discrepancies between the code and what its comments say. The model
follows the code in each case:

- The winner is not always under the pointer. The in-slice offset is centred on the
  winner's leading edge `index * slice`, not on its centre. The accumulated rotation is
  also never reduced modulo 360. So a spin moves the wheel angle under the pointer by
  `index * slice - offset` (modulo 360), in the direction the slices are laid out, from
  wherever the last spin left it (`PointerAfterSpin`). From rest, the pointer lands
  on the winner only when the offset is not positive, and otherwise on the item before it
  (`FirstSpinLanding`). `PointerMissesWinner` gives a concrete spin over two items that
  reports item 1 while item 0 sits under the pointer.
- The comment at components/Wheel.tsx:38 says "5 to 8" extra turns. The code draws
  `5 + floor(r * 3)`, which gives 5, 6 or 7 (`ExtraSpins`, `ExtraSpinsUniform`).
- `handleSpinClick` refuses only while SPINNING or with fewer than two items. Called
  while CELEBRATING, it starts a new spin; in the UI, the modal overlay covers the button.
  So CELEBRATING is left by `closeModal`, and also by an accepted spin click
  (`NextState`).

## Model

| member | source | states |
|---|---|---|
| `Strings.TrimStart` | App.tsx:36 | dropping leading white space leaves a suffix of the input that starts with a visible character, and what was dropped is all white space |
| `Strings.TrimEnd` | App.tsx:36 | dropping trailing white space leaves a prefix of the input that ends with a visible character, and what was dropped is all white space |
| `Strings.Trim` | App.tsx:36-39 | the trimmed input is no longer than the input, and starts and ends with a visible character unless empty |
| `Strings.TrimIsInnerSlice` | App.tsx:36-39 | the trimmed input is the stretch of the input between its leading and trailing white space, and starts and ends with a visible character |
| `Strings.TrimEmptyIff` | App.tsx:36 | the trimmed input is empty exactly when the whole input is white space |
| `AudioUtil.TickVoice` | utils/audio.ts:32-46 | the tick is one triangle voice started at `t`; its frequency ramps 600 to 300 and its gain 0.1 to 0.01, both by `t + 0.05`; it stops at `t + 0.06`, after both ramps end |
| `AudioUtil.WinVoice` | utils/audio.ts:57-70 | note `i` is a sine voice at its frequency, starting at `now + 0.15 i` and lasting 0.15 s, its gain ramping from 0.1 at the start to 0 at the stop |
| `AudioUtil.WinVoices` | utils/audio.ts:51-71 | six sine notes at 523.25, 659.25, 783.99, 1046.50, 783.99, 1046.50 in order; note `i` runs from `now + 0.15 i` to `now + 0.15 (i + 1)`, its gain falling linearly from 0.1 to 0 over that span; consecutive notes abut, and the whole runs from `now` to `now + 0.9` |
| `AudioUtil.AudioManager.constructor` | utils/audio.ts:8-17 | construction never fails: without a context class, or when construction throws, the manager has no context; it starts unmuted with nothing scheduled |
| `AudioUtil.AudioManager.SetMuted` | utils/audio.ts:19-21 | writes only the mute flag |
| `AudioUtil.AudioManager.Resume` | utils/audio.ts:23-27 | a suspended context becomes running; any other context, or none, is unchanged |
| `AudioUtil.AudioManager.PlayTick` | utils/audio.ts:29-47 | appends exactly the tick voice when unmuted with a context, and nothing otherwise |
| `AudioUtil.AudioManager.PlayWin` | utils/audio.ts:49-72 | appends exactly the six fanfare voices, one per loop step, when unmuted with a context, and nothing otherwise |
| `WheelComponent.SliceAngle` | components/Wheel.tsx:27 | a slice is positive and `n` slices make a full turn |
| `WheelComponent.RandomIndex` | components/Wheel.tsx:26 | `floor(r * n)` is an index in `[0, n)` |
| `WheelComponent.RandomIndexUniform` | components/Wheel.tsx:26 | index `k` is chosen exactly by draws in `[k/n, (k+1)/n)`, a sub-interval of width `1/n` |
| `WheelComponent.ExtraSpins` | components/Wheel.tsx:38 | the extra turns lie in 5 to 7 |
| `WheelComponent.ExtraSpinsUniform` | components/Wheel.tsx:38 | 5, 6 and 7 turns are each chosen by exactly a third of the draws |
| `WheelComponent.Jitter` | components/Wheel.tsx:39 | the in-slice offset lies in `[-0.4 slice, 0.4 slice)` |
| `WheelComponent.JitterCoversRange` | components/Wheel.tsx:39 | every offset in `[-0.4 slice, 0.4 slice)` comes from some draw |
| `WheelComponent.PlanSpin` | components/Wheel.tsx:26-45 | the plan's index, turns and offset are in range, its target is `prev + turns 360 + (360 - index slice) + offset`, and the target is at least `prev + 1800 + 0.6 slice` and below `prev + 2880 + 0.4 slice` |
| `WheelComponent.TargetAngle` | components/Wheel.tsx:45 | a spin adds to the previous rotation the extra turns plus one full turn, less the step `index slice - offset` |
| `WheelComponent.TargetBounds` | components/Wheel.tsx:45 | the target exceeds the previous rotation by at least five turns and 0.6 of a slice, and by less than eight turns and 0.4 of a slice |
| `WheelComponent.PointerAfterSpin` | components/Wheel.tsx:45-47 | whatever the extra turns, a spin moves the wheel angle under the pointer by `index slice - offset` from where the previous spin left it |
| `WheelComponent.FirstSpinLanding` | components/Wheel.tsx:45 | from rest, the pointer lands in the slice of the winner when the offset is not positive, and in the slice before it otherwise |
| `WheelComponent.PointerMissesWinner` | components/Wheel.tsx:45 | one concrete first spin over two items (winner draw 0.5, offset draw 0.9) reports item 1 and stops with item 0 under the pointer |
| `WheelComponent.Progress` | components/Wheel.tsx:55-58 | the progress reaches 1 exactly when 5000 ms have elapsed, and is not negative for a non-negative elapsed time |
| `WheelComponent.TickChance` | components/Wheel.tsx:66-67 | the tick chance `0.4 (1 - p^3)` lies in `(0, 0.4]` for progress in `[0, 1)` |
| `WheelComponent.TickChanceFalls` | components/Wheel.tsx:66 | the tick chance never grows as progress grows |
| `WheelComponent.Outcome` | components/Wheel.tsx:55-69 | a sample clears the interval exactly when 5000 ms have elapsed, and ticks exactly when it is earlier and its draw is below the chance |
| `WheelComponent.TickTimes` | components/Wheel.tsx:54-70 | at most one tick per sample, each from a sample whose outcome is a tick (the converse is `TickIf`, the exact count `TickCount`) |
| `WheelComponent.TickIf` | components/Wheel.tsx:67-69 | every sample that ticks before any sample has cleared the interval emits its tick |
| `WheelComponent.TickCount` | components/Wheel.tsx:54-70 | the number of ticks emitted is exactly the number of ticking samples before the clear: one per such sample |
| `WheelComponent.NoTicksAfterClear` | components/Wheel.tsx:58-61 | once a sample has cleared the interval, later samples add no tick |
| `WheelComponent.Wheel.constructor` | components/Wheel.tsx:14-18 | the wheel starts at rotation 0 with no interval or timeout |
| `WheelComponent.Wheel.Spin` | components/Wheel.tsx:20-76 | with fewer than two items nothing changes; otherwise the context is woken, rotation and the persistent ref both become the plan's target (strictly beyond the old ref), one interval is started and one timeout capturing the items and the winner's index is queued |
| `WheelComponent.Wheel.TickStep` | components/Wheel.tsx:54-70 | a live interval's firing clears it at the end of the spin, or schedules one tick when the draw falls below the chance; a cleared interval does nothing |
| `WheelComponent.Wheel.RunInterval` | components/Wheel.tsx:54-70 | an interval firing on a run of samples clears itself iff one of them is at the end, and schedules exactly the ticks `TickTimes` gives |
| `WheelComponent.Wheel.Complete` | components/Wheel.tsx:72-75 | the oldest timeout clears its tick interval, then hands back, once, the item at the chosen index of the list captured at spin start |
| `WheelComponent.GenerateGradient` | components/Wheel.tsx:86-96 | gray for no items, the item's colour for one, otherwise one segment per item in order, segment `k` spanning `[k 360/n, (k+1) 360/n]`, each ending where the next starts, covering 0 to 360 |
| `WheelComponent.LabelAngle` | components/Wheel.tsx:120-121 | a label is drawn at the exact middle of its item's slice |
| `AppComponent.DefaultItemsOk` | App.tsx:16-25 | the eight default items are between one and ten, with distinct ids |
| `AppComponent.WithAdded` | App.tsx:35-44 | unchanged when the trimmed input is empty or the list is full; otherwise exactly one item is appended, labelled with the trimmed input and coloured `COLORS[len % 10]`, the earlier items unchanged and in order |
| `AppComponent.Without` | App.tsx:48 | the filter never lengthens the list |
| `AppComponent.WithoutMembers` | App.tsx:48 | the filter keeps exactly the items whose id differs |
| `AppComponent.WithoutAppend` | App.tsx:48 | the filter keeps the order of the items it keeps |
| `AppComponent.WithoutAbsent` | App.tsx:48 | removing an id no item has keeps the list |
| `AppComponent.WithoutDistinct` | App.tsx:48 | with distinct ids, removing item `j`'s id drops exactly that item and keeps the rest in order |
| `AppComponent.WithoutKeepsDistinct` | App.tsx:48 | the filter keeps ids distinct |
| `AppComponent.DuplicateIdsEmptyTheList` | App.tsx:48 | one concrete two-item list whose items share an id is emptied by a single removal |
| `AppComponent.WithRemoved` | App.tsx:46-49 | a list of at most one item is kept; otherwise the filter applies, which with distinct ids drops one item when the id is present and none when it is absent |
| `AppComponent.WithoutCount` | App.tsx:48 | with distinct ids the filter keeps them distinct and drops exactly one item for a present id |
| `AppComponent.EditKeepsItemsOk` | App.tsx:36-48 | one add with a fresh id, or one remove, keeps one to ten items with distinct ids |
| `AppComponent.EditsKeepItemsOk` | App.tsx:36-48 | every sequence of adds with fresh ids and removes keeps one to ten items with distinct ids |
| `AppComponent.EditsFromDefaults` | App.tsx:14-25 | from the default items, every such sequence keeps between one and ten items |
| `AppComponent.NextState` | App.tsx:51-67 | completion always celebrates; closing the modal always goes idle; a spin click is refused while spinning or with fewer than two items; CELEBRATING is left only by closing or by an accepted spin click; other handlers keep the state |
| `AppComponent.App.constructor` | App.tsx:27-33 | the app starts with the default items, empty input, IDLE, no result, no spin request and sound on; its audio manager has a context exactly when the platform supports one |
| `AppComponent.App.SetInputText` | App.tsx:138 | the input field's change handler sets the text |
| `AppComponent.App.AddItem` | App.tsx:35-44 | the items become `WithAdded` of the old items and input; the input clears exactly when an item was added; a fresh id keeps one to ten distinct items |
| `AppComponent.App.RemoveItem` | App.tsx:46-49 | the items become `WithRemoved` of the old items, and stay between one and ten with distinct ids |
| `AppComponent.App.HandleSpinClick` | App.tsx:51-56 | a no-op while spinning or with fewer than two items; otherwise SPINNING, no result, spin requested |
| `AppComponent.App.OnSpinComplete` | App.tsx:58-62 | the fanfare is scheduled, the result holds the winner and the state is CELEBRATING |
| `AppComponent.App.CloseModal` | App.tsx:64-67 | IDLE and no result |
| `AppComponent.App.ToggleSound` | App.tsx:69-72 | the UI flag is flipped and the audio manager's flag equals it, both set from the value before the toggle |
| `AppComponent.App.ShouldSpinEffect` | components/Wheel.tsx:78-83 | the request is always lowered; when it was up with two or more items, exactly one spin runs: the context is woken, rotation and ref become the plan's target, one interval starts and one timeout is queued; otherwise the wheel and the context are unchanged |
| `AppComponent.App.SpinTimeout` | components/Wheel.tsx:72-75 | with no timeout pending nothing changes; otherwise exactly the timeout's tick interval is cleared first, then `onSpinComplete` runs once with the winner captured at spin start |

## Left out

- services/geminiService.ts is not part of this model. It is a network client for a hosted language model.
- Rendering: JSX, CSS classes, the `cubic-bezier` transition, the confetti and the animation between rotations. The gradient is modelled as its list of segments, not as the CSS string built from them.
- Real time and randomness: `Date.now`, `setInterval`, `setTimeout` and `Math.random` become inputs. The event loop's interleaving of interval firings, timeouts and clicks is not modelled; each firing is a method call.
- Timeouts all have the same 5000 ms delay, so they are kept as a queue that fires oldest first; the model does not check that a timeout fires only after 5000 ms.
- Unmount cleanup: the source sets no cleanup for its interval or timeout, and the model has none either.
- Logging: the `console.error` written when the audio context cannot be created (utils/audio.ts:15) is console output; the model records only that no context exists.
- Web Audio: the sound itself, the node graph and the meaning of exponential and linear ramps. Only the scheduled parameters are recorded. `resume()` returns a promise; the model makes the context running at once.
- Floating point: angles, times and chances are `real`, without IEEE-754 rounding.
- The `aiMessage` of a result: the app never fills it in, so it stays `None`.
- New item ids come from `Date.now().toString()`; here they are a parameter of `AddItem`, and their freshness is a hypothesis of the lemmas, not proved.
- `AppComponent.WithRemoved`: the drop by exactly one item is stated only for lists with distinct ids, because id freshness is not proved.
- `AppComponent.EditsFromDefaults`: holds for edit sequences whose added ids are fresh, because id freshness is not proved.
- The Remove button is hidden when two or fewer items remain, and the Add button is disabled when the list is full; those are UI guards, and the model checks the handlers without them.
