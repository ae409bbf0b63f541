# AI-Companion behaviour engine and tools, modelled in Dafny

AI-Companion is an Electron desktop pet. A cat and its owner roam a transparent window, and
a small set of tools serves an assistant. This project models their core.

**The renderer's behaviour engine (`src/renderer.js`).** It has:

- the roam mode (FULL, BOTTOM, NONE) and how it cycles;
- the per-frame state machines of the cat and the human;
- the floor and margin policy, the sprite animator and the row selection;
- the choice of random targets;
- dragging the cat with the pointer;
- the list of floating emoji bubbles.

The script's globals are the fields of one class, `Scene.Renderer`. Each handler updates
those fields in place and is proved to perform a transition of the pure model
`Behaviour.World`. The module `Engine` states what the transitions guarantee:

- bounds and floor convergence;
- the state-machine rules and the drag rules;
- an invariant on the sprite frames and on the bubble list (identities increase, at most
  one human thought is on screen).

**The smaller cores.** Each is a module:

- `Shell`: the quoted-token tokenizer `parseCommand`, the allowlist and the working-directory
  check of `src/tools/shell.js`.
- `Paths` and `Files`: POSIX `path.resolve` as segment normalisation, the workspace
  containment test, and `handleFileAction` of `src/tools/files.js` over a file system
  modelled as a map from resolved paths to files and directories.
- `Credentials`: the precedence and migration rules of `src/services/CredentialService.js`
  over the store map and the environment map.
- `Ollama`: base-URL normalisation and chat-request construction in
  `src/services/OllamaService.js`.
- `Actions`: the `perform-action` handler and the permission allowlist of `src/main.js`.

**Supporting modules.** `JsText` holds the JavaScript string semantics these cores rely on:
`trim`'s white space, ASCII `toLowerCase`, `||` on strings that may be absent, and decimal
printing. `Wrappers` holds `Option` and `Result`.

**Boundaries.** The model takes these as parameters:

- `Math.random()` draws: records of reals in [0, 1), one field per use site.
- `Date.now()` and the `requestAnimationFrame` timestamps: reals.
- `window.innerWidth` and `window.innerHeight`: a `Viewport`.
- The trigonometry: `hypot(dx, dy)` for `Math.sqrt(dx*dx + dy*dy)`, and `heading(dx, dy)`
  for the unit vector along `(dx, dy)`. The cat computes it as `dx / dist`, `dy / dist`
  (src/renderer.js:328-332). The human computes it as the cosine and sine of
  `Math.atan2(dy, dx)` (src/renderer.js:376-383 and 404-406). On exact reals the two are the same vector.
- A `setTimeout` callback: a `Timer` record appended to `pending`. The host fires it later
  with `RunTimer`.
- The response of the HTTP exchange in `chat`, and the failure of the awaited automation
  call in `perform-action`.

## Model

| member | source | states |
|---|---|---|
| JsText.TrimStart | src/tools/shell.js:42 | the result is a suffix of the input, everything dropped is white space, and it does not start with white space |
| JsText.TrimEnd | src/tools/shell.js:42 | the result is a prefix, everything dropped is white space, and it does not end with white space |
| JsText.TrimEmptyIffAllSpace | src/tools/shell.js:42-48 | trimming leaves the empty string exactly when the input is all white space |
| JsText.TrimmedHasNoSpaceAtEnds | src/tools/files.js:7 | a non-empty trimmed string has no white space at either end |
| JsText.LowerAscii | src/tools/shell.js:55 | lowering keeps the length and maps each character by itself |
| JsText.LowerAsciiFixed | src/main.js:122 | lowering leaves a text unchanged exactly when it has no upper-case letter |
| JsText.Or | src/services/CredentialService.js:23 | JavaScript's or on two optional strings is truthy iff either is; it is `a` when `a` is truthy and `b` otherwise |
| JsText.OrElseIsOr | src/services/CredentialService.js:45 | or-ing with a literal is JavaScript's general or with a present right operand; a non-empty literal makes the result non-empty; the result is empty exactly when `a` is falsy and the literal is empty |
| JsText.NatToString | src/services/OllamaService.js:41 | the decimal form of the status is non-empty and made of digits |
| JsText.NatToStringValue | src/services/OllamaService.js:41 | reading the decimal form back gives the status code, and it has no leading zero unless the code is 0 |
| Actors.ModeCycle | src/renderer.js:101-104 | each cycle changes the mode; the three modes are all visited; three cycles return to the start; consecutive button captions differ |
| Actors.AnimatorSpec | src/renderer.js:353-355 | the animator changes only `timer` and `frame`; past the cadence, the timer becomes 0 and the frame advances modulo 4 (so it changes); otherwise the timer accumulates `dt` and the frame stays; frames stay below 4 |
| Actors.FrameCycle | src/renderer.js:355 | four advances bring the frame back to where it started |
| Actors.CadenceOrder | src/renderer.js:354 | faster motion animates faster: a running cat has the shortest frame interval, then a walking one, and a sleeping one the longest; a chasing human is quicker than in any other state; all intervals are positive |
| Actors.RowSpec | src/renderer.js:490-494 | row 1 exactly for WALK/RUN/CHASE, 2 for SLEEP/TALK, 3 for SURPRISE, 4 for DRAGGED, 0 for IDLE |
| Actors.ClampX | src/renderer.js:351 | the result never exceeds `W-50`; it is at least 0 when `W >= 50`; positions already inside are kept |
| Actors.FreeY | src/renderer.js:349 | the result never exceeds `H-50`; a `y` above the top is only raised by 5; positions inside are kept |
| Actors.SettleSpec | src/renderer.js:346-347 | a gap to the floor above 5 shrinks to 0.9 of itself; otherwise `y` becomes the floor exactly; the floor is a fixed point |
| Actors.SettleNStays | src/renderer.js:346-347 | once on the floor, any number of further ticks keep an actor there |
| Actors.SettleReachesFloor | src/renderer.js:346-347 | a gap of at most `5*(10/9)^n` reaches the floor exactly within `n+1` ticks and stays there |
| Actors.RawTargetYSpec | src/renderer.js:502-506 | the drawn vertical target is the cat floor in BOTTOM, and between `minY` and `H` otherwise |
| Actors.PickRandomTargetSpec | src/renderer.js:499-511 | only the target and the state change; the state is WALK; the target lies in `[20, W-50] x [20, H-50]` (lower ends when `W, H >= 70`); it is on the floor in BOTTOM; an in-margin draw is kept unclamped |
| Actors.StartZoomiesSpec | src/renderer.js:473-482 | the state is RUN; `targetX` is in `[0, W)`; `targetY` is the floor in BOTTOM and in `[minY, H]` otherwise |
| Actors.ZoomTargetX | src/renderer.js:475 | the zoomies x-target `random*W` lies in `[0, W)` |
| Actors.ZoomiesIgnoreMargin | src/renderer.js:475-508 | a zero draw sends zoomies to x = 0, where a picked target is moved to 20: zoomies do not clamp |
| Actors.TurnSpec | src/renderer.js:391-394 | only `facingRight` and `lastFaceChange` change; a turn happens exactly when eligible, more than 1500 ms after the last turn, and with a clear heading the actor is not facing (`cos > 0.6` or `< -0.6`); a turn stamps `now` and faces the direction of motion |
| Bubbles.SpawnLifetime | src/renderer.js:535-581 | a fresh bubble survives an update exactly when it is shorter than 2000 ms, stays at full opacity for updates up to 1000 ms, and is partly transparent (strictly between 0 and 1) after longer ones |
| Bubbles.AdvanceSpec | src/renderer.js:556-581 | a surviving bubble keeps identity, text and attachment; it loses `dt` of life and rises `dt*0.06`; an attached one sits at `actor.x+baseX`, `actor.y+baseY-offsetY`; a free one drifts up 1 px; opacity is `life/1000` once life < 1000, otherwise unchanged |
| Bubbles.Decay | src/renderer.js:554-583 | an update never lengthens the list |
| Bubbles.DecayFromSurvivors | src/renderer.js:561-565 | every element after an update is the advanced form of a surviving original |
| Bubbles.SurvivorKept | src/renderer.js:561-565 | every bubble with life left after `dt` is kept, advanced |
| Bubbles.ExpiredRemoved | src/renderer.js:561-565 | a bubble whose life reaches 0 or less is gone from the list |
| Bubbles.DecayKeepsOrder | src/renderer.js:555-563 | survivors keep their relative order: increasing identities stay increasing |
| Bubbles.DecayKeepsFlags | src/renderer.js:557-561 | each element after an update has an original with the same identity, attachment and document flag, life decreased by `dt` and positive |
| Behaviour.Choose | src/renderer.js:598 | `Math.floor(random*n)` is a valid index |
| Behaviour.Pick | src/renderer.js:597-598 | the chosen text is one of the options |
| Behaviour.HideSpec | src/renderer.js:515 | after hiding, no record with that identity is in the document; every position keeps its identity, so the order invariant survives; every other record is kept unchanged; hiding twice equals hiding once |
| Engine.InitialValid | src/renderer.js:144-175 | the start state satisfies the invariant: mode FULL, both actors IDLE, no bubbles, no pending callbacks |
| Engine.SettleKeeps | src/renderer.js:338-355 | physics, bounds and the animator keep the state, targets, sleep and idle counters and facing; `x` is clamped; `y` follows the mode's bound policy (except for a falling SURPRISE outside BOTTOM); frames stay below 4 |
| Engine.ThoughtKeeps | src/renderer.js:357-361 | the thought clock touches neither actor, the mode nor the pending callbacks; it either leaves the bubbles alone or spawns one cute thought attached to the cat |
| Engine.CatIdleFrame | src/renderer.js:307-315 | the IDLE branch changes only the cat and the meow clock, and not the frame |
| Engine.CatSleepFrame | src/renderer.js:316-325 | the SLEEP branch changes only the cat, the bubbles and the pending callbacks, and not the frame |
| Engine.CatSleepValid | src/renderer.js:316-325 | the SLEEP branch keeps the invariant |
| Engine.CatMoveFrame | src/renderer.js:326-335 | the WALK/RUN branch changes only the cat, and not its frame |
| Engine.CatDecideFrame | src/renderer.js:307-336 | the cat's state machine keeps the mode, the human, the frame and the active thought, and the invariant |
| Engine.CatTickCat | src/renderer.js:297-362 | the cat after `updateCat` is the state-machine result settled by physics, bounds and animator; mode and human are untouched |
| Engine.IdleNeverSurvives | src/renderer.js:307-312 | an IDLE cat is never IDLE after a tick; idle time grows by `dt`; SLEEP exactly when `r < 0.05` (with `sleepTime` 0 and duration in `[5000, 10000)`); RUN exactly when `0.05 <= r < 0.55`; WALK otherwise |
| Engine.IdleChoice | src/renderer.js:307-312 | the IDLE branch alone already makes the same choice |
| Engine.SleepWakes | src/renderer.js:316-325 | sleep time grows by `dt`; the cat becomes SURPRISE exactly when it exceeds the duration and stays SLEEP otherwise; waking schedules a retarget 1000 ms later with the `minY` of the moment |
| Engine.ArrivalStops | src/renderer.js:326-329 | WALK/RUN within 20 of the target becomes IDLE without moving, idle time 0; only the bounds then apply |
| Engine.DraggedOnlyBounded | src/renderer.js:336-351 | a dragged cat stays DRAGGED with idle time 0, its target unchanged, and is still clamped by the bounds code |
| Engine.CatTickBounds | src/renderer.js:343-355 | after a cat tick, `x` is in `[0, W-50]` (given `W >= 50`), `y <= H-50` outside BOTTOM, and the frame is below 4 |
| Engine.MoveOnFloor | src/renderer.js:326-335 | in BOTTOM, a level walk from the floor towards a floor target stays on the floor |
| Engine.IdleOnFloor | src/renderer.js:307-312 | in BOTTOM, any new target of an idle cat is on the floor |
| Engine.SettleOnFloor | src/renderer.js:344-347 | in BOTTOM, a cat on the floor stays there through physics and bounds |
| Engine.CatDecideOnFloor | src/renderer.js:302-336 | in BOTTOM, the state machine keeps a cat on the floor with a floor target |
| Engine.CatFloorStable | src/renderer.js:302-351 | in BOTTOM, a cat on the floor with a floor target stays on the floor after a whole tick |
| Engine.ShowHumanThoughtFrame | src/renderer.js:514-519 | showing a human thought changes only the bubbles, the identity counter and the active thought |
| Engine.ChaseStepKeeps | src/renderer.js:374-394 | a chase step sets CHASE, keeps frame and timer, never moves vertically in BOTTOM, never turns within 60 px, and never turns within 1500 ms of the last turn |
| Engine.HumanChaseFrame | src/renderer.js:374-401 | the chase branch leaves the cat, the mode, the callbacks and the human's animation counters alone (and its `y` in BOTTOM), moves the human by exactly one `ChaseStep`, and keeps the invariant |
| Engine.HumanFollowFrame | src/renderer.js:402-412 | the follow branch leaves the cat, the mode, the callbacks and the human's animation counters alone (and its `y` in BOTTOM), and keeps the invariant |
| Engine.HumanLingerFrame | src/renderer.js:413-426 | the linger branch leaves the cat, the mode, the callbacks and the human's animation counters alone (and its `y` in BOTTOM), and keeps the invariant |
| Engine.HumanDecideKeeps | src/renderer.js:371-426 | the human's state machine never touches the cat, the mode, the pending callbacks or the animator, and keeps `y` in BOTTOM |
| Engine.HumanDecideValid | src/renderer.js:371-426 | the human's state machine keeps the invariant |
| Engine.HumanBottomSettles | src/renderer.js:431-434 | in BOTTOM the human's `y` follows the floor rule with floor `H-130` |
| Engine.TeleportedHumanGlides | src/renderer.js:111-115 | cycling into BOTTOM puts both actors at `H-50`; the next tick moves the human only to `H-58`, a tenth of the way to its own floor `H-130` |
| Engine.HumanTickBounds | src/renderer.js:428-470 | after a human tick, `x` is in `[0, W-50]` (given `W >= 50`), `y <= H-50` outside BOTTOM, and the frame is below 4 |
| Engine.ChaseRules | src/renderer.js:374-394 | a running cat makes the human CHASE; within 60 px, or within 1500 ms of the last turn, the human does not turn |
| Engine.HumanTickState | src/renderer.js:364-470 | the human's state after a tick is the one its state machine chose |
| Engine.LingerStands | src/renderer.js:419-420 | without the 5% wander draw the lingering human is TALK while talking and IDLE otherwise |
| Engine.NearHumanStands | src/renderer.js:402-420 | a human within 200 px of a calm cat stands (or talks) unless the wander draw hits |
| Engine.HiddenFreezes | src/renderer.js:279-283 | in NONE a frame only moves the clock: actors, timers and bubbles are untouched |
| Engine.ChaseSameFrame | src/renderer.js:282-284 | when an idle cat starts zoomies, the human is already chasing in the same frame |
| Engine.CycleRoamSpec | src/renderer.js:101-123 | the mode steps to the next one; entering BOTTOM sets both `y` to `H-50` and changes nothing else of the actors; other modes keep the actors; both are shown exactly when the mode is not NONE; bubbles and callbacks are kept |
| Engine.ThreeCycles | src/renderer.js:101-123 | three cycles restore the mode and the visibility |
| Engine.PointerDownSpec | src/renderer.js:196-206 | a press inside the 60 px box starts a drag with offset pointer−cat and makes the cat DRAGGED, changing nothing else of it; any other press changes nothing |
| Engine.GrabZoneIsBox | src/renderer.js:199 | a press 59 px off in both axes still grabs, although it is more than 60 px away |
| Engine.PointerMoveSpec | src/renderer.js:208-213 | with no drag a move changes nothing; otherwise the cat is at pointer − captured offset exactly; the drag-sound stamp moves only after 600 ms |
| Engine.DragFollowsPointer | src/renderer.js:196-213 | after a grab, the cat moves exactly as far as the pointer does and stays DRAGGED |
| Engine.PointerUpSpec | src/renderer.js:215-217 | mouse-up ends any drag; a dragged cat becomes IDLE with `vy` 5 and nothing else changes; without a drag nothing changes |
| Engine.RetargetIgnoresState | src/renderer.js:324 | the deferred retarget sets WALK and an in-margin target without re-checking mode, state or drag, and does not move the cat |
| Engine.ClickThenStop | src/renderer.js:452-455 | a click makes the human talk and schedules the 3000 ms callback, which ends the talking and leaves the other callbacks |
| Engine.SpawnInSpec | src/renderer.js:535-551 | spawning appends one record with life 2000 and the next identity |
| Engine.AppendFresh | src/renderer.js:550 | appending a record with a fresh identity keeps identities increasing |
| Engine.SpawnInValid | src/renderer.js:521-552 | spawning a bubble that does not follow the human keeps the invariant |
| Engine.HideActive | src/renderer.js:515 | after removing the active human thought no human thought is on screen |
| Engine.ShowHumanThoughtValid | src/renderer.js:514-519 | showing a human thought keeps the invariant |
| Engine.ShowHumanThoughtSpec | src/renderer.js:514-519 | the new thought is appended at the human's position and becomes the active one; only the previous active element leaves the document; afterwards it is the only human thought on screen |
| Engine.DecayValid | src/renderer.js:554-583 | a bubble update keeps the invariant |
| Engine.CatTickValid | src/renderer.js:297-362 | a cat tick keeps the invariant |
| Engine.HumanTickValid | src/renderer.js:364-471 | a human tick keeps the invariant |
| Engine.UpdatesValid | src/renderer.js:283-286 | the three updates of a visible frame keep the invariant |
| Engine.TickValid | src/renderer.js:279-295 | every frame keeps the invariant |
| Engine.CycleRoamValid | src/renderer.js:101-124 | cycling keeps the invariant |
| Engine.PointerDownValid | src/renderer.js:196-206 | a press keeps the invariant |
| Engine.PointerMoveValid | src/renderer.js:208-213 | a move keeps the invariant |
| Engine.PointerUpValid | src/renderer.js:215-217 | a release keeps the invariant |
| Engine.HumanClickValid | src/renderer.js:452-455 | a click keeps the invariant |
| Engine.FireTimerValid | src/renderer.js:324 | firing a callback keeps the invariant |
| Scene.Renderer.constructor | src/renderer.js:140-175 | the fields start as the script's globals, which satisfy the invariant |
| Scene.Renderer.CycleRoamMode | src/renderer.js:101-124 | the fields after the call are `CycleRoam` of the fields before; the caption is the new mode's; the invariant is kept |
| Scene.Renderer.NextRoamMode | src/renderer.js:102-104 | only the mode changes, to the next one, with its caption |
| Scene.Renderer.PlaceOnFloor | src/renderer.js:111-115 | only the two actors' `y` change, to the floor |
| Scene.Renderer.ShowActors | src/renderer.js:117-123 | only the two elements' visibility changes |
| Scene.Renderer.MouseDown | src/renderer.js:196-206 | the fields after the press are `PointerDown` of the fields before; the invariant is kept |
| Scene.Renderer.Grab | src/renderer.js:200-203 | the drag starts with the given offsets and the cat becomes DRAGGED; nothing else changes |
| Scene.Renderer.MouseMove | src/renderer.js:208-213 | the fields after the move are `PointerMove` of the fields before; the invariant is kept |
| Scene.Renderer.MouseUp | src/renderer.js:215-217 | the fields after the release are `PointerUp` of the fields before; the invariant is kept |
| Scene.Renderer.HumanClicked | src/renderer.js:452-455 | the fields after the click are `HumanClick` of the fields before; the invariant is kept |
| Scene.Renderer.RunTimer | src/renderer.js:324 | running callback `k` gives `FireTimer` of the fields before; the invariant is kept |
| Scene.Renderer.SpawnFloatingEmoji | src/renderer.js:521-552 | the record is appended as `SpawnIn` says; the returned identity is the one it got |
| Scene.Renderer.ShowHumanThought | src/renderer.js:514-519 | the fields after the call are `ShowHumanThought` of the fields before |
| Scene.Renderer.ShowRandomCuteThought | src/renderer.js:596-599 | one of the cute thoughts is spawned at the cat, attached to it |
| Scene.Renderer.UpdateFloatingEmojis | src/renderer.js:554-583 | the backward splice loop leaves exactly `Decay` of the old list; nothing else changes |
| Scene.Renderer.CatIdleStep | src/renderer.js:307-315 | the fields after the IDLE branch are `CatIdle` of the fields before |
| Scene.Renderer.MeowTick | src/renderer.js:314-315 | the meow clock advances as `MeowClock` says |
| Scene.Renderer.CatSleepStep | src/renderer.js:316-325 | the fields after the SLEEP branch are `CatSleep` of the fields before |
| Scene.Renderer.DozeStep | src/renderer.js:317-318 | sleep time grows and maybe a "zzz" floats, as `Doze` says |
| Scene.Renderer.WakeStep | src/renderer.js:319-325 | past its duration the cat wakes as `WakeUp` says |
| Scene.Renderer.CatMoveStep | src/renderer.js:326-335 | the fields after the WALK/RUN branch are `CatMove` of the fields before |
| Scene.Renderer.CatDecideStep | src/renderer.js:307-336 | the fields after the state machine are `CatDecide` of the fields before |
| Scene.Renderer.CatSettleStep | src/renderer.js:338-355 | only the cat changes, to `CatSettle` of it |
| Scene.Renderer.CatThoughtStep | src/renderer.js:357-361 | the thought clock advances as `CatThought` says |
| Scene.Renderer.UpdateCat | src/renderer.js:297-362 | the fields after `updateCat(dt)` are `CatTick` of the fields before |
| Scene.Renderer.HumanChaseStep | src/renderer.js:374-401 | the fields after the chase branch are `HumanChase` of the fields before |
| Scene.Renderer.HumanChaseMove | src/renderer.js:375-394 | only the human changes, by one `ChaseStep` |
| Scene.Renderer.HumanFollowStep | src/renderer.js:402-412 | the fields after the follow branch are `HumanFollow` of the fields before |
| Scene.Renderer.HumanLingerStep | src/renderer.js:413-426 | the fields after the linger branch are `HumanLinger` of the fields before |
| Scene.Renderer.HumanDecideStep | src/renderer.js:371-426 | the fields after the human's state machine are `HumanDecide` of the fields before |
| Scene.Renderer.UpdateHuman | src/renderer.js:364-471 | the fields after `updateHuman(dt)` are `HumanTick` of the fields before |
| Scene.Renderer.GameLoop | src/renderer.js:279-295 | the fields after a frame are `Tick` of the fields before, and the invariant is kept |
| Scene.AgeBubble | src/renderer.js:556-565 | the loop body reports survival exactly when life stays positive, and then gives the advanced record |
| Scene.TurnTowards | src/renderer.js:391-394 | the facing update equals `Turn` |
| Scene.ChooseActivity | src/renderer.js:309-312 | the idle choice equals `NextActivity` |
| Scene.MoveCat | src/renderer.js:328-335 | the walking or running step equals `MoveStep` |
| Shell.SkipSpace | src/tools/shell.js:21 | the scan stops at the first non-white-space character from `i` |
| Shell.RunEnd | src/tools/shell.js:21 | `[^\s]+` ends at the first white space from `i` |
| Shell.CloseQuote | src/tools/shell.js:21 | a closing quote found past a body is a `"` |
| Shell.Exec | src/tools/shell.js:21-23 | a match lies inside the string, its text is the matched slice and it starts at a non-space; no match means only white space is left |
| Shell.ParseCommand | src/tools/shell.js:19-31 | the loop's tokens are those of the successive matches, and there are none exactly when the command is all white space |
| Shell.TokensEmptyIffBlank | src/tools/shell.js:19-31 | no token exactly when the input is all white space |
| Shell.QuoteFreeTokensAreWords | src/tools/shell.js:21-27 | without quotes the tokens are the maximal runs of non-white-space, in input order |
| Shell.UnescapeDecodes | src/tools/shell.js:25 | on a well-formed quoted body, replacing `\"` turns exactly the escaped quotes into `"` and keeps every other backslash pair |
| Shell.CloseQuoteAfterBody | src/tools/shell.js:21 | the closing quote of a well-formed body is the first `"` after it |
| Shell.ExecAtQuote | src/tools/shell.js:21-25 | a closed quote at the start is matched by the first alternative, with the inner text as group |
| Shell.QuotedToken | src/tools/shell.js:21-26 | a closed quoted token yields its inner text with `\"` turned into `"`, and scanning resumes right after the closing quote |
| Shell.QuotedMatch | src/tools/shell.js:21 | the match of a closed quoted token spans both quotes |
| Shell.NoQuoteNoClose | src/tools/shell.js:21 | without a later `"` no closing quote is found |
| Shell.ExecUnterminated | src/tools/shell.js:21-27 | an unterminated quote falls back to the `[^\s]+` alternative |
| Shell.UnterminatedQuoteKept | src/tools/shell.js:21-28 | an unterminated quote stays in its token unchanged |
| Shell.SafeCwdIsWithinRoot | src/tools/shell.js:33-39 | the cwd is accepted exactly when the root leads it (only `/` itself for a root of `/`); a refusal throws before any other check |
| Shell.NotAllowedIsNotInvalid | src/tools/shell.js:52-57 | the not-allowed reply differs from the invalid-command reply |
| Shell.TrimmedHasToken | src/tools/shell.js:46-53 | a command that is not blank after trimming has a first token |
| Shell.ShellDecision | src/tools/shell.js:41-61 | with the cwd accepted: a blank command gives the empty-command error; the invalid-command reply never occurs; the first token runs (with the rest as arguments, in the safe cwd) exactly when its lower-case form is allow-listed, and is otherwise refused by name |
| Paths.Split | src/tools/files.js:12 | splitting yields at least one part and no part holds `/` |
| Paths.SplitJoin | src/tools/files.js:12 | joining the parts back with `/` gives the string that was split, so splitting loses nothing |
| Paths.Format | src/tools/files.js:12 | a resolved path's string form starts with `/` |
| Paths.Parent | src/tools/files.js:26 | `dirname` is a leading part of the path |
| Paths.NormalizeIsNormal | src/tools/files.js:12 | normalisation leaves no empty, `.` or `..` segment |
| Paths.ResolveIsNormal | src/tools/shell.js:34 | every resolved path is normal |
| Paths.NormalizeExtends | src/tools/files.js:12 | without `..` segments normalisation only appends |
| Paths.BoundaryPrefix | src/tools/files.js:13 | the string form of `f` starts with that of `r` at a segment boundary exactly when `r` is a leading part of `f` |
| Paths.InsideIffPrefix | src/tools/files.js:13 | the test "equal to the root, or starting with the root plus a separator" holds exactly when the root is a leading part of the path (only `/` itself when the root is `/`) |
| Paths.SiblingRejected | src/tools/files.js:13 | a sibling such as `root + "x"` is rejected |
| Paths.RelativeStaysInside | src/tools/files.js:12-13 | a relative input without `..` always stays inside a non-`/` root |
| Paths.ParentEscapes | src/tools/files.js:12-13 | `..` from a root other than `/` resolves to its parent, which is rejected |
| Files.ResolveSafePathMissing | src/tools/files.js:6-10 | the path is refused as missing exactly when it is absent or blank after trimming |
| Files.ResolveSafePathSpec | src/tools/files.js:12-16 | any other path is accepted exactly when the root leads its resolved form; the accepted path is that resolved, normal form; otherwise the error is the outside-workspace one |
| Files.MakeDirsOk | src/tools/files.js:28 | recursive creation succeeds exactly when no file lies on the way, and otherwise fails with ENOTDIR |
| Files.MakeDirsResult | src/tools/files.js:28 | on success it keeps every entry, adds only directories leading to the target, makes the target a directory, and keeps the system well formed |
| Files.PutFileWellFormed | src/tools/files.js:30 | writing a file into an existing directory keeps the system well formed |
| Files.WriteReady | src/tools/files.js:26-29 | before writing, the parent exists as a directory and the target is not a directory exactly when the target is writable; creation keeps existing entries |
| Files.WriteSpec | src/tools/files.js:25-32 | a write answers `Written to` exactly when the target is writable; then the content is stored there; no other existing entry changes; the system stays well formed |
| Files.MkdirSpec | src/tools/files.js:49-55 | on an existing path `mkdir` answers that it exists and changes nothing; otherwise it creates the path exactly when no file is in the way; existing entries are kept |
| Files.ChildrenSpec | src/tools/files.js:43 | a name is listed exactly when it is an entry directly inside the directory |
| Files.Dispatch | src/tools/files.js:25-57 | once the path is resolved, the operation name alone selects write, read, list, mkdir or the unknown-operation reply |
| Files.PathCheckedFirst | src/tools/files.js:58-60 | a refused path fails with `File Operation Failed: <message>` whatever the operation, with the file system unchanged |
| Files.ReadOnlyOperations | src/tools/files.js:34-57 | read, list and unknown operations never change the file system |
| Files.MissingTargetReplies | src/tools/files.js:35-46 | read of a missing path answers `Error: File not found` and list answers `Error: Directory not found`, both without changes |
| Files.WriteThenRead | src/tools/files.js:25-37 | after a successful write, a read of the same path returns the written content, or `''` when it was absent or empty |
| Files.WrittenFileIsListed | src/tools/files.js:25-44 | a written file appears in the listing of its directory |
| Files.FileStepWellFormed | src/tools/files.js:19-61 | every operation keeps the file system well formed |
| Files.FileTool.constructor | src/tools/files.js:4 | the tool starts with the given root and file system |
| Files.FileTool.HandleFileAction | src/tools/files.js:19-61 | the new file system and the reply are those of `FileStep`; the system stays well formed |
| Credentials.ChooseGeminiKey | src/services/CredentialService.js:20-36 | the key is truthy iff a stored or env key is; it is the env key exactly when that is truthy and the stored one equals it or is falsy (`usingDefaultGemini`), otherwise the stored one; the stored copy is dropped exactly when it equals the env key |
| Credentials.Setting | src/services/CredentialService.js:45-51 | the stored value when truthy, else the env value when truthy, else the default; the result is never empty |
| Credentials.PutIfTruthy | src/services/CredentialService.js:75-78 | only that key changes, and only when the value is truthy |
| Credentials.SavedStore | src/services/CredentialService.js:72-78 | a truthy key is stored; `''` deletes it; absence keeps it; every other field is written only when truthy; no other key changes |
| Credentials.SavedEnv | src/services/CredentialService.js:81-96 | a truthy key goes to both key variables; every other truthy field goes to its variable; nothing else changes |
| Credentials.OllamaAlwaysComplete | src/services/CredentialService.js:50-58 | with provider `ollama`, the non-empty defaults make the setup always complete |
| Credentials.LoadedEnv | src/services/CredentialService.js:39-55 | a resulting key goes to both key variables; voice, provider, URL and model are always written; nothing else changes |
| Credentials.CredentialService.constructor | src/services/CredentialService.js:8-13 | the service starts over the given store and environment |
| Credentials.CredentialService.LoadGeminiKey | src/services/CredentialService.js:20-42 | the key decision is `ChooseGeminiKey` of the stored and env keys; the migration deletes the stored key exactly when it equals the env key; a truthy result is written into both env variables |
| Credentials.CredentialService.LoadCredentials | src/services/CredentialService.js:18-69 | the returned key, default flag, voice (default `Puck`), provider, URL and model follow the precedence rules; `isComplete` is `IsComplete` of the result, which holds exactly for `ollama` or a truthy key; the store and env end as stated |
| Credentials.CredentialService.SaveCredentials | src/services/CredentialService.js:71-97 | the store becomes `SavedStore` and the env `SavedEnv` |
| Credentials.CredentialService.ClearCredentials | src/services/CredentialService.js:99-107 | exactly the seven listed keys are removed; other entries and the env are untouched |
| Credentials.SavedKeyIsLoaded | src/services/CredentialService.js:72-83 | a saved key is written to the env too, so the next load treats it as the env's default and migrates the stored copy away |
| Credentials.ClearedLoadUsesEnv | src/services/CredentialService.js:23-36 | after clearing, a load uses the env key when there is one, as the default, and drops nothing |
| Ollama.StripTrailingSlashes | src/services/OllamaService.js:5 | the result is a prefix of the input, only slashes were removed, and it does not end in `/` |
| Ollama.StripIdempotent | src/services/OllamaService.js:5 | normalising twice gives the same result as once |
| Ollama.StripOnlyTrailing | src/services/OllamaService.js:5 | appending slashes to a normalised URL and stripping again gives it back |
| Ollama.OllamaService.constructor | src/services/OllamaService.js:4-7 | absent arguments take the defaults; the base URL is stripped of trailing slashes |
| Ollama.OllamaService.Chat | src/services/OllamaService.js:9-46 | the request goes to `baseUrl + "/api/chat"` with the model, `stream: false` and temperature 0.3; a system message comes first exactly when `systemPrompt` is truthy; the last message is the user's prompt (or `''` when it is falsy) with `images` equal to `[imageBase64]` exactly when that is truthy; a non-ok response is an error quoting status and text; a missing content gives `''` |
| Actions.AppCommandSpec | src/main.js:122-141 | a name whose lower-case form is an alias key gives `start <alias>`, whatever its case; any other name gives `start "" "<original name>"` |
| Actions.AsWrittenAgrees | src/main.js:136-141 | the command as written equals the intended one for every name that does not reach an inherited member, and differs from it for every name that does |
| Actions.InheritedNameMisread | src/main.js:125-137 | as written, a name lowering to `constructor` launches the text of `Object`'s constructor; the corrected command quotes the name |
| Actions.LowerConstructor | src/main.js:122 | `Constructor` lowers to `constructor` |
| Actions.EscapeQuotes | src/main.js:152 | escaping never shortens the text, never starts with a quote, and every `"` in the result is preceded by a backslash |
| Actions.EscapeQuotesRoundTrip | src/main.js:152-173 | turning each `\"` back into `"` restores the text exactly, so only quotes were changed |
| Actions.PerformActionReplies | src/main.js:105-189 | the replies `Opened `, `Searched for `, `Launching ` (running the command the source builds, inherited-member lookup included) and `Typing: ` (with the original text, whose escaped form decodes back to it); any other type gives `Unknown action` with no effect |
| Actions.PermissionSpec | src/main.js:57-64 | the `includes` test of the allowlist grants a permission exactly when it is `media` or `audioCapture`, and refuses every other request |
| Actions.IncludesIsMembership | src/main.js:59-60 | `Array.prototype.includes`, a scan from the front, finds exactly the elements of the array |

## Left out

- Voice capture, the Gemini and ElevenLabs calls, audio playback and synthesised meows, `speak`, `showBubble` and `logToScreen`: network and media I/O. `playRealMeow` and `playDragSound` leave no state behind except the `lastDragSound` stamp, which is modelled.
- Canvas drawing in `generatePixelSprites` and `drawActorOnCtx`: rendering. Only the row selection is kept (`Actors.Row`).
- The DOM: element creation and styling, `updateBubblePosition`, writing `style.left` and `top` in `gameLoop`, and the hover pass-through IPC (`setIgnoreMouseEvents`). A bubble's element is represented by its position, opacity and document flag.
- The human element exists only after the first `updateHuman` call. The model lets it be clicked from the start.
- `display: none` blocking pointer events on a hidden actor is not modelled. The pointer handlers run whatever the mode.
- `requestAnimationFrame` and real `setTimeout` scheduling: the host calls `GameLoop` and `RunTimer`.
- Floating-point numerics: coordinates are exact reals. `Math.sqrt` is the `hypot` parameter. The cat's `dx / dist`, `dy / dist` and the human's `atan2`, `cos`, `sin` step are both the `heading` parameter, so their rounding differences are not modelled. The floor lemmas assume a level heading: a step with `dy = 0` has no vertical part.
- `Scene.Renderer.UpdateFloatingEmojis`: the loop splices a local copy and assigns the field once at the end. The two actors are values, so the aliasing between `attachActor` and `actors.cat`/`actors.human` becomes an `Attach` tag read at update time.
- The mode button: `cycleRoamMode(btn)` sets the caption only when a button is passed. The model always returns it.
- `execFile` in the shell tool, and `exec` and `spawn` in `perform-action`, including what the launched process does: OS process I/O. The model returns the request it would make (a `Run` or an `Effect`).
- The automation driver, fetch and JSON transport, `electron-store` encryption and `dotenv`: foreign calls. Their results are parameters, or the store and env maps.
- `console.log` and `console.warn` output.
- Node's file-system error messages are reduced to fixed strings (`ENOTDIR`, `EISDIR`), and `JSON.stringify` of a listing is the set of names.
- `path.resolve` starts from the workspace root, which is given. `process.cwd()` and `FILE_TOOL_ROOT` are not read.
- The path model is POSIX only: `/` is the one separator. On Windows `path.resolve` also splits on `\`, so `..\x` would leave the root there, while the model reads it as a single name inside the root.
- `toLowerCase` is ASCII only, so the allowlist and alias lookups do not fold non-ASCII letters.
- The `String(...)` coercions of optional fields are modelled for values that are strings or absent. Other value types are not modelled.
- Electron window creation, IPC wiring and screenshot capture.

## Findings

| source | as written | input that shows it | evidently intended | confidence | as-written member | corrected member |
|---|---|---|---|---|---|---|
| src/main.js:136-137 | `appMap[appName]` looks the lower-cased name up on an object literal, so it also finds members inherited from `Object.prototype` | app `Constructor` (lower-cased `constructor`) gives `start function Object() { [native code] }` | only the eight listed aliases map; any other name is launched quoted, `start "" "Constructor"` | not executed | Actions.AppCommandAsWritten (Actions.InheritedNameMisread, Actions.LowerConstructor, Actions.AsWrittenAgrees) | Actions.AppCommand (Actions.AppCommandSpec) |

`Actions.PerformAction` launches the command as written, `AppCommandAsWritten`, so the handler keeps the source's behaviour for inherited names. `Actions.AppCommand` is the corrected lookup. `Actions.AsWrittenAgrees` proves that the two differ only on those names.
