# Prompt widget library: Timer, UIResolver and Prompt construction

This project models the bookkeeping core of a dialog/prompt widget library
for a game engine's UI layer. The model has three parts:

- **Timer** (`Timers`, `timer.dfy`). A countdown value with a fixed kind
  (Bar or Digit), a current time, a start anchor (`lastStart`), its own UI
  element and, for a Bar, the active tween.
  - `Decrement` clamps at zero. `Increment` does not clamp.
  - `Reset` and `Set` move the time and the anchor. For a Bar they cancel
    the tween first.
  - `SetPosition` applies one of six anchor/position presets. A preset that
    does not suit the kind logs a warning and changes nothing.
  - `Destroy` releases the element and the tween, and may be called again.
  - The private refresh (`UpdateUI`) either installs a new bar tween or
    keeps the current one, and writes the time into a Digit label.
- **UIResolver** (`Resolvers`, `ui_resolver.dfy`). Five role slots filled
  by chainable setters. `Validate` checks each slot's class and fails on the
  first bad slot. `ValidateStructure` checks that the four child slots are
  parented directly by the background.
- **Prompt** (`Prompts`, `prompt.dfy`).
  - Construction dispatches on the mode string. Custom needs a resolver that
    validates. Compact and Choice use the shared template.
  - `Trigger` brings the background to the front and shows it.
  - `Cancel` sets the cancelled flag and fires the cancel signal.

Everything is a pure function over immutable records. UI instances are
abstract handles (`Widgets.Widget`): an identity, a class tag, a parent
identity, a LayoutOrder and a Visible flag. Class tests compare tags exactly.
A tween is a handle with a duration and a "playing" flag. Signals are an
append-only event log (`Prompt.events`). Time is a whole number of seconds.
Raised errors are `Result.Failure` values, and the logged warning of
`SetPosition` is an `Option`.

Points of code behaviour worth knowing:

- Only `Decrement` clamps at zero (src/Timer.ts:122). A negative
  `Increment` step, a negative `Set`, or a negative start all give a
  negative time. `IncrementNegativeUnclamped` states this.
- The bar tween is created at src/Timer.ts:264 and never played. So a tween
  in this model is never playing unless the caller builds a state where it
  is, and every refresh of a Bar with positive time installs a new, unplayed
  tween.
- `ValidateStructure` reads `Parent` of each child slot in turn
  (src/UIResolver.ts:93-96). An unset child slot therefore raises once the
  chain reaches it, and the model returns `Failure(UnsetSlot(role))`.
- With the background unset, each child's parent is compared with nil. So
  parentless children pass the structure check, and the model does the same.

Optional arguments follow the code. `n || 1` and `if (!n) n = 1` treat an
omitted step or a step of 0 as 1 (`Timers.Step`). `start || 0` treats an
omitted start as 0.

## Model

| member | source | states |
|---|---|---|
| Timers.NewTimer | src/Timer.ts:78-103 | construction succeeds exactly for the Bar (0) and Digit (1) codes and raises for any other code; time and the start anchor both equal the start argument, or 0 when it is omitted; no tween; default placement, visible |
| Timers.UpdateUI | src/Timer.ts:254-277 | a Bar keeps its tween exactly when the time is not positive, the tween is playing, or an identical unplayed tween is already there; otherwise the new tween is an unplayed one lasting `time` seconds; a Digit's label shows the time; time, anchor and placement untouched |
| Timers.UpdateUIIdempotent | src/Timer.ts:254-277 | refreshing twice is the same as refreshing once |
| Timers.UpdateUIBarHasTween | src/Timer.ts:259-274 | a refreshed Bar with positive time always has a tween, and when the previous one was not playing the tween's duration equals the time |
| Timers.Increment | src/Timer.ts:110-113 | time grows by the step (omitted or 0 means 1) with no bound; then the refresh: a Digit's label shows the new time, a Bar keeps its tween exactly when the new time is not positive or the tween is playing (or already equals the one it would install) and otherwise gets an unplayed tween lasting the new time; kind, anchor, placement and visibility unchanged; the timer shape is kept |
| Timers.IncrementNegativeUnclamped | src/Timer.ts:110-112 | a negative step larger than the time drives the time below zero |
| Timers.Decrement | src/Timer.ts:119-126 | the new time (step: omitted or 0 means 1) is never negative, is at least time minus step, and is either zero or exactly time minus step; then the same refresh as Increment on the new time; kind, anchor, placement and visibility unchanged |
| Timers.DecrementToZero | src/Timer.ts:119-123 | a time no larger than the step decrements to exactly zero |
| Timers.IncrementDecrementRoundTrip | src/Timer.ts:110-126 | from a non-negative time, decrementing by the step just added (any step, including 0 and negative ones) restores the time |
| Timers.Reset | src/Timer.ts:129-140 | time becomes the start anchor, which is unchanged; placement and visibility unchanged; for a Bar the old tween is dropped and a fresh unplayed tween of that duration exists exactly when the anchor is positive; for a Digit the tween is untouched and the label shows the anchor |
| Timers.ResetIdempotent | src/Timer.ts:129-140 | resetting twice is the same as resetting once |
| Timers.Set | src/Timer.ts:146-158 | time and start anchor both become the value; placement and visibility unchanged; for a Bar the tween is replaced as in Reset; for a Digit the tween is untouched and the label shows the value |
| Timers.ResetAfterSet | src/Timer.ts:129-158 | a Reset straight after Set changes nothing at all |
| Timers.ResetAfterConstruction | src/Timer.ts:78-140 | a Reset straight after construction leaves the time at the start argument (0 when omitted) |
| Timers.SetPosition | src/Timer.ts:165-234 | a warning is logged exactly when the preset does not suit the kind (corner on a Bar, edge on a Digit), and then nothing changes; a suitable preset sets its fixed anchor/position pair, leaves the element visible, and changes nothing else |
| Timers.SetPositionIdempotent | src/Timer.ts:165-234 | applying a preset twice equals applying it once |
| Timers.Destroy | src/Timer.ts:237-247 | both the element and the tween are released; time, anchor and kind stay; the result has the timer shape |
| Timers.DestroyIdempotent | src/Timer.ts:237-247 | a second Destroy changes nothing |
| Timers.Run | src/Timer.ts:47 | no sequence of Increment, Decrement, Reset, Set and SetPosition calls changes the read-only kind or releases the element |
| Timers.RunPreservesValid | src/Timer.ts:106-234 | every sequence of mutator calls keeps the timer shape: only Bars hold tweens, tweens have positive duration, a Bar has no label text |
| Timers.RunLastStart | src/Timer.ts:129-158 | after any sequence of calls the start anchor is the value of the last Set, or the old anchor when there was none |
| Timers.ResetRestoresLastSet | src/Timer.ts:78-158 | Reset restores the time set by the most recent Set, or the construction start when Set was never called |
| Resolvers.IsOfInstance | src/UIResolver.ts:1-3 | the instance test holds only for a set slot (nil fails) |
| Resolvers.SetBG | src/UIResolver.ts:23-26 | assigns the background slot and leaves the other four unchanged |
| Resolvers.SetTitle | src/UIResolver.ts:33-36 | assigns the title slot and leaves the other four unchanged |
| Resolvers.SetContent | src/UIResolver.ts:43-46 | assigns the content slot and leaves the other four unchanged |
| Resolvers.SetAccept | src/UIResolver.ts:53-56 | assigns the accept slot and leaves the other four unchanged |
| Resolvers.SetDecline | src/UIResolver.ts:63-66 | assigns the decline slot and leaves the other four unchanged |
| Resolvers.Validate | src/UIResolver.ts:72-83 | passes exactly when every role holds a widget of an admitted class (BG a Frame, title a TextLabel, content a ScrollingFrame or Frame, buttons a TextButton or ImageButton); otherwise fails with the error of the first bad role in the order BG, title, content, accept, decline |
| Resolvers.UnsetSlotFailsValidate | src/UIResolver.ts:72-83 | any unset slot makes validation fail |
| Resolvers.BadBGReportedFirst | src/UIResolver.ts:73-74 | a bad background is the reported error whatever the other slots hold |
| Resolvers.BuiltResolverValidates | src/UIResolver.ts:23-83 | a resolver built by the five setters validates exactly when each argument has an admitted class |
| Resolvers.ValidateStructure | src/UIResolver.ts:89-98 | true exactly when title, content, accept and decline are all set and parented by the background; with all four set it never raises; it raises exactly when the chain reaches an unset child, naming that child, every earlier child having passed |
| Resolvers.ValidateIgnoresParents | src/UIResolver.ts:72-83 | re-parenting any slot's widget never changes the validation verdict |
| Resolvers.StructureIgnoresKinds | src/UIResolver.ts:89-98 | changing any slot's class never changes the structure verdict |
| Resolvers.StructureIgnoresBGParent | src/UIResolver.ts:89-98 | the background's own parent never matters to the structure verdict |
| Resolvers.MovingChildOutBreaksStructure | src/UIResolver.ts:89-98 | moving any child out of the background makes the structure check not pass |
| Resolvers.KindsWithoutStructure | src/UIResolver.ts:72-98 | some resolver passes validation while its structure check answers false |
| Resolvers.StructureWithoutKinds | src/UIResolver.ts:72-98 | some resolver fails validation while its structure check answers true |
| Prompts.CompactResolver | src/index.ts:89-94 | the Compact roles are the template's background, Title, Content, ConfirmBtn (accept) and CloseBtn (decline) |
| Prompts.ChoiceResolver | src/index.ts:100-105 | the Choice roles are the template's background, Title, Content, YBtn (accept) and NBtn (decline) |
| Prompts.Mount | src/index.ts:109 | parents the background into the overlay and leaves the four other slots as they were |
| Prompts.NewPrompt | src/index.ts:56-110 | unknown mode raises; Custom without resolver raises; Custom succeeds exactly when the resolver validates, raising its validation error otherwise, and then adopts it; Compact and Choice always succeed with their template roles; every built prompt has the title and message as given, timeout -1, not cancelled, no events, and its background under the overlay |
| Prompts.CompactPromptsShareTemplate | src/index.ts:85-94 | any two Compact prompts hold the very same widgets, whatever their text or supplied resolver |
| Prompts.ChoicePromptsShareTemplate | src/index.ts:96-105 | any two Choice prompts hold the very same widgets, whatever their text or supplied resolver |
| Prompts.CustomAdoptsResolver | src/index.ts:76-84 | a Custom prompt over a valid resolver holds exactly the supplied widgets, the background differing only in its parent |
| Prompts.BuiltPromptHasBackground | src/index.ts:75-110 | every successfully built prompt has its background set, so it can be triggered |
| Prompts.Trigger | src/index.ts:116-120 | the background's LayoutOrder becomes the overlay child count plus one and it becomes visible; its identity, class and parent and everything else about the prompt are unchanged |
| Prompts.TriggerIdempotent | src/index.ts:116-120 | triggering twice against the same overlay size leaves the same LayoutOrder and Visible as triggering once (each source call also adds click connections, which are not modelled) |
| Prompts.Cancel | src/index.ts:132-135 | sets cancelled and appends exactly one cancel event with the given reason; nothing else changes |
| Prompts.CancelKeepsUI | src/index.ts:132-135 | cancelling never touches the UI, title or message |
| Prompts.CancelAllLog | src/index.ts:132-135 | a run of cancels appends one event per call, in order, with no guard against repeats; cancelled holds after at least one call |

## Left out

- The static "Prompts" ScreenGui setup and the wait for `PlayerGui` (src/index.ts:40-54) are engine I/O with a 25-second yield. The overlay is a parameter: its identity (`Shared.overlay`) and, for `Trigger`, its current child count.
- The module-level templates come from the script's instance tree (src/index.ts:29-32). They are parameters (`Shared`).
- The Promise returned by `trigger` and its `MouseButton1Click` connections (src/index.ts:122-129) are event plumbing. They fire the fulfil signal and are not modelled. `trigger`'s unused `payloadMap` argument is not modelled either.
- Prompts.Mount: each slot holds its own copy of a widget. When one instance fills two slots (one Frame as both background and content, which Validate accepts), reparenting the background is not seen in the other slot. The caller's own resolver value is not changed either; the prompt holds an updated copy.
- Prompts.Trigger: the LayoutOrder and Visible update is applied to the background slot only. A slot holding the same instance as the background keeps its old values.
- Prompts.Trigger: the shared template instances are values here. A LayoutOrder or Visible change made through one Compact or Choice prompt is therefore not seen by another prompt that shares the same template.
- TweenService playback, easing and timing (src/Timer.ts:264-274) are not modelled. A tween is a duration and a playing flag. Cancelling a tween is modelled as dropping it.
- Colours, sizes and UDim2 layout math are not modelled. This includes the container `Size` resets in `Reset`/`Set` (src/Timer.ts:136, src/Timer.ts:154) and the duplicated background colour (src/Timer.ts:92).
- Timers.SetPosition: the Top preset's vertical position is the symbol `AboveOwnHeight`, not a number. In the code it is the negated height scale of the element, and that height changes when `Reset`/`Set` resize the element.
- Calling Timer mutators after `Destroy` is not modelled. In the code the refresh would index a nil element (src/Timer.ts:256). Every mutator requires a live timer (`Live`); `Destroy` itself does not.
- Timers.UpdateUI: the Digit label holds the time as a number. The decimal text that `tostring` produces is not modelled.
- Fractional seconds are not modelled; time is an integer. `n || 1` also maps NaN to 1, and NaN does not exist here.
- Roblox class inheritance for `IsA` is not modelled; class tests compare tags exactly. The `typeOf(obj) === 'Instance'` test always holds for a widget handle, so non-Instance values in a slot are not modelled.
- The generated declaration files (out/Timer.d.ts, out/index.d.ts, out/UIResolver.d.ts) and src/types/script.d.ts only restate types, so they have no model.
