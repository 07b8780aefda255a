# Asteroids application: configuration and frame orchestration

This project models the part of the MethaneAsteroids sample that configures an asteroids field and drives frame submission. The modelled parts are:

- the ten-row complexity profile table and its clamped lookup;
- `SetAsteroidsComplexity`, which changes the level and discards the field;
- `SetParallelRenderingEnabled`, which switches between parallel and serial recording and rebuilds each frame's two-element execute set;
- the render sequence of one frame;
- saving the field state when the context is released, and reusing it when the context is initialised again;
- the keyboard controller. It maps keys to actions, names the actions, and dispatches each action to a setter of the application or of the asteroids array.

GPU objects are tokens.

- A command list is named by its role and its frame index.
- The asteroids array is a value that carries the settings it was built from and its field state.
- The following GPU and display side effects append an entry to the application's event trace: waiting for the GPU, releasing the array, resetting the context, uploading uniforms, drawing, committing, executing, presenting and refreshing the parameters text. Other releases are not traced (see "Left out").

Other modelling choices:

- C++ `uint32_t` is the newtype `uint32`, and its wrap-around is written out where the controller does arithmetic.
- `float` fields are exact `real`s.

Modules:

- `Profiles` (`profiles.dfy`): the profile table, the clamp, the default level.
- `CommandLists` (`command_lists.dfy`): frames, command lists, execute sets.
- `Events` (`events.dfy`): trace entries, the trace of one frame and of one change of level, and the orderings those traces keep.
- `Outcomes` (`outcomes.dfy`): failed run-time checks (`META_CHECK_ARG_NOT_NULL`, `META_UNEXPECTED`) as `Result`/`Outcome` values.
- `App` (`asteroids_app.dfy`): the class `AsteroidsApp`. Its invariant `Valid` says:
  - the level is in the table;
  - the settings carry the level's profile row;
  - neither the array nor the saved state is stale;
  - every frame executes the set of the current mode.
- `Actions` (`actions.dfy`): the action enumerators, their names, the key table, and the level each action asks for.
- `Controller` (`controller.dfy`): the class `AsteroidsAppController` and its dispatch.

The engine drives initialisation, resets and context release. Here they are separate methods: `Init`, `SetAsteroidsComplexity` and `OnContextReleased`. Two scenario methods compose them: `ChangeComplexityAndReset` and `ReleaseAndReinit`.

## Model

| member | source | states |
|---|---|---|
| `Profiles.ClampComplexity` | App/AsteroidsApp.cpp:490 | the clamped level lies in 0..9, never exceeds the request, and is either the request or 9 |
| `Profiles.GetMutableParameters` | App/AsteroidsApp.cpp:73-77 | a level in the table reads its own row; every level above 9 reads the level-9 row (50000, 1000, 50, 0.17) |
| `Profiles.WorkloadGrowsWithLevel` | App/AsteroidsApp.cpp:49-61 | across the table, instance and unique-mesh counts strictly increase, texture counts never decrease and the scale ratio strictly decreases |
| `Profiles.ProfileEnds` | App/AsteroidsApp.cpp:50-61 | level 0 is (1000, 35, 10, 0.6); every level from 9 up is (50000, 1000, 50, 0.17) |
| `Profiles.DefaultComplexityAsWritten` | App/AsteroidsApp.cpp:63-71 | the starting level is 1 in a debug build and otherwise half the hardware thread count, rounded down, with no clamp |
| `Profiles.DefaultComplexityLeavesRange` | App/AsteroidsApp.cpp:169 | with 20 hardware threads the starting level is 10; a request for 9 then counts as a change although the profile row is the same |
| `Profiles.DefaultComplexity` | App/AsteroidsApp.cpp:169 | the corrected starting level lies in 0..9, selects the same profile row as the unclamped one, and equals it whenever that is in range |
| `CommandLists.CreateExecuteCommandListSet` | App/AsteroidsApp.cpp:563-571 | the set has two lists: first the asteroids list of the current mode, then the final list; it is tagged with the frame index |
| `CommandLists.ExecuteSetSelectsOneAsteroidsList` | App/AsteroidsApp.cpp:563-571 | the parallel list is submitted iff parallel rendering is on, the serial list iff it is off, the final list always, and the two entries differ |
| `CommandLists.ExecuteSetDeterminesMode` | App/AsteroidsApp.cpp:563-571 | two execute sets of a frame are equal iff they were built for the same mode |
| `CommandLists.RebuildMakesFramesReady` | App/AsteroidsApp.cpp:527-530 | rebuilding every frame's set keeps each frame's index and lists and makes all frames execute the set of the new mode |
| `CommandLists.RebuildForSameModeIsIdentity` | App/AsteroidsApp.cpp:522-523 | rebuilding frames for the mode they already execute changes no frame |
| `CommandLists.ToggleTwiceRestoresFrames` | App/AsteroidsApp.cpp:519-534 | switching the mode away and back restores every frame exactly |
| `Events.RenderCommitsOneAsteroidsList` | App/AsteroidsApp.cpp:441-461 | a frame commits the asteroids list of its mode once and the other one never; it commits the final list, executes and presents once each |
| `Events.RenderOrdering` | App/AsteroidsApp.cpp:441-462 | asteroids before planet, before sky-box, before overlay; the final commit before execute, before present |
| `Events.RenderCommitsBeforeExecuting` | App/AsteroidsApp.cpp:445-461 | in a frame whose set matches its mode, every executed list was committed earlier in the frame |
| `Events.RenderNoDrawAfterCommit` | App/AsteroidsApp.cpp:444-458 | in a frame whose lists exist, nothing is drawn into a list after it is committed |
| `Events.DrainBeforeRelease` | App/AsteroidsApp.cpp:494-516 | a change of level drains the GPU and resets the context iff the context is initialised, releases the array iff it existed, orders drain, release and reset in that sequence, and ends with the parameters-text refresh |
| `App.ApplyProfile` | App/AsteroidsApp.cpp:501-506 | the settings take the row's counts and scale ratios, and every field the row does not decide is unchanged |
| `App.ApplyProfileDetermined` | App/AsteroidsApp.cpp:501-506 | applying a row the settings already carry changes nothing; settings with the same row and fixed fields are equal |
| `App.AsteroidsApp.constructor` | App/AsteroidsApp.cpp:151-169 | the application starts valid, at the corrected (clamped) default level, with the initial settings of that level's row, no frames, no array, no saved state, no context and an empty trace |
| `App.AsteroidsApp.Init` | App/AsteroidsApp.cpp:298-337 | three fresh frames, each with its three lists and the execute set of the current mode; the array is built from the saved state if present; the level, settings and mode are unchanged |
| `App.AsteroidsApp.OnContextReleased` | App/AsteroidsApp.cpp:467-484 | the array's state is saved only if an array exists; the array and the frames are then gone and the context is down |
| `App.AsteroidsApp.SetAsteroidsComplexity` | App/AsteroidsApp.cpp:486-517 | the level becomes the clamped request; an unchanged level changes nothing; otherwise the settings take the new row, the array and saved state are discarded, and the trace grows by the drain, release, reset and refresh events |
| `App.AsteroidsApp.SetParallelRenderingEnabled` | App/AsteroidsApp.cpp:519-534 | the mode becomes the request; an unchanged mode changes nothing; otherwise every frame is rebuilt for the new mode and the text is refreshed; the level, settings and array are unchanged |
| `App.AsteroidsApp.GetAsteroidsArray` | App/AsteroidsApp.cpp:536-541 | the array when one exists, otherwise the failed not-null check |
| `App.AsteroidsApp.Render` | App/AsteroidsApp.cpp:429-465 | no recording if the base render fails; a failed not-null check after the uniform upload if there is no array; otherwise the frame's full event sequence |
| `App.ChangeComplexityAndReset` | App/AsteroidsApp.cpp:508-513 | a change of level followed by the context reset rebuilds the array fresh from the new row, with no restored state |
| `App.ReleaseAndReinit` | App/AsteroidsApp.cpp:298-300 | releasing and initialising the context without a change of level builds an array that reuses the old field state |
| `Actions.OrdinalRoundTrip` | App/AsteroidsAppController.cpp:93-94 | decoding an enumerator value inverts the enumeration, and exactly the values 0..15 are enumerators |
| `Actions.GetKeyboardActionName` | App/AsteroidsAppController.cpp:98-122 | an enumerator gets its name; any other value is the unexpected-value failure |
| `Actions.ActionNamesDistinct` | App/AsteroidsAppController.cpp:104-119 | no two actions share a name |
| `Actions.IncreaseComplexitySaturates` | App/AsteroidsAppController.cpp:72-74 | increasing goes up one level below 9 and changes nothing at 9 |
| `Actions.DecreaseComplexityStopsAtZero` | App/AsteroidsAppController.cpp:76-78 | the requested level never exceeds the current one and never wraps below zero; decreasing goes down one level and changes nothing at 0 |
| `Actions.IncreaseDecreaseInverse` | App/AsteroidsAppController.cpp:72-78 | below 9, decreasing undoes increasing; above 0, increasing undoes decreasing |
| `Actions.SetComplexitySelectsLevel` | App/AsteroidsAppController.cpp:80-91 | the action `SetComplexityK` asks for level K and ends at K, whatever the current level |
| `Actions.OtherActionsKeepLevel` | App/AsteroidsAppController.cpp:56-70 | exactly the mode switch and the three array actions ask for no level and keep it; only the mode switch changes the mode, and it is its own inverse |
| `Actions.TableInvertsKeyOf` | App/AsteroidsApp.cpp:85-102 | every key in the table is bound to the action whose key it is |
| `Actions.KeyOfIsBound` | App/AsteroidsApp.cpp:85-102 | every action's key is in the table and bound to that action |
| `Actions.KeyBindingsOneToOne` | App/AsteroidsApp.cpp:85-102 | every action has a key, and distinct keys are bound to distinct actions |
| `Actions.NumKeySelectsLevel` | App/AsteroidsApp.cpp:92-101 | the digit key k is bound to `SetComplexityK`, which ends at level k |
| `Controller.ArrayAfter` | App/AsteroidsAppController.cpp:60-70 | an array action keeps the array's settings, field state and origin |
| `Controller.ArrayActionsInvert` | App/AsteroidsAppController.cpp:60-70 | switching colouring twice restores it; halving then doubling the LOD threshold, in either order, restores it; halving lowers a positive threshold and doubling raises it; other actions leave the array alone |
| `Controller.AsteroidsAppController.constructor` | App/AsteroidsAppController.cpp:33-39 | the controller drives the given application |
| `Controller.AsteroidsAppController.OnKeyboardStateAction` | App/AsteroidsAppController.cpp:49-96 | an unknown value fails and changes nothing; otherwise the level and mode are those the action calls for; the mode switch rebuilds the frames; an array action updates the array or fails when there is none; a level action has the effects of `SetAsteroidsComplexity` |
| `Controller.AsteroidsAppController.ApplyArrayAction` | App/AsteroidsAppController.cpp:60-70 | the array is replaced by its updated value, or the not-null check fails and nothing changes; nothing else changes |
| `Controller.AsteroidsAppController.ApplyLevelAction` | App/AsteroidsAppController.cpp:72-91 | the level becomes the one the action calls for, from the level read before the call, with the effects of `SetAsteroidsComplexity` |
| `Controller.AsteroidsAppController.OnKeyPressed` | App/AsteroidsAppController.cpp:41-47 | every key of the modelled `Key` type is bound, which holds because that type has only the sixteen bound keys; the P key flips the mode; the digit key k ends at level k |

## Left out

- GPU resource creation in `Init` (render patterns, buffers, bindings, barriers, textures, sky-box, planet): these are engine calls. Frames carry only their index, their three lists and their execute set.
- The base application's frame creation, resizing and release, and its `Render` result: `Init` stands in for frame creation; `Render` takes the base result and the current frame index as parameters.
- Threading: `std::thread::hardware_concurrency()` is a parameter. The parallel list's worker count, parallel recording and instance partitioning are in `AsteroidsArray`, which is not part of this model.
- `AsteroidsArray` internals: field generation is the token `FieldState`. The LOD colouring flag and the LOD screen-size threshold are stored values of the array; the array's initial threshold is assumed to be the settings' `mesh_lod_min_screen_size`.
- Float rounding: scale ratios and the LOD threshold are exact reals, so halving and doubling are exact.
- The enumeration `AsteroidsAppAction` is declared in a header that is not part of this model. Its values are assumed to be 0..15 in the order of the key table; only the contiguity of `SetComplexity0`..`SetComplexity9` matters to the levels.
- Keyboard states are single keys, and `Key` has only the sixteen keys of the table; unbound keys are not modelled, and the lookup of a state in the table (the engine's action controller) is not part of this model. `OnKeyPressed` stands in for it.
- CLI option parsing, `GetParametersString`, camera setup, `Resize`, `Update`, `Animate`, the destructor's wait, timers and logging: these are I/O and engine glue. The default parallel-rendering flag is a constructor parameter.
- App.AsteroidsApp.constructor: the application starts at the clamped `DefaultComplexity`, not at the unclamped level of the source. A release build with 20 or more hardware threads starts at level 10 or above in the source; the class does not model that start (`Valid` keeps the level in 0..9). The start as written is modelled by `Profiles.DefaultComplexityAsWritten`, and its consequence by `Profiles.DefaultComplexityLeavesRange`.
- App.AsteroidsApp.OnContextReleased: releasing the planet, the sky-box, the constant buffer and the asteroids render pattern is not traced; only the array release is an event.
- `ArraySettings` leaves out `texture_dimensions`, the camera and the scene scale; no modelled operation reads or changes them.
- `Modules/Simulation/Planet.cpp` and `Modules/Simulation/Planet.h`: matrix maths and GPU state only.
- App.AsteroidsApp.SetAsteroidsComplexity: assigning the level and the settings is not a trace event, so the order of the wait and the field mutation is stated as the wait preceding the array release.

## Findings

| source | as written | input that shows it | evidently intended | confidence | as-written member | corrected member |
|---|---|---|---|---|---|---|
| App/AsteroidsApp.cpp:169 | the starting level is `hardware_concurrency() / 2` with no clamp (AsteroidsApp.cpp:69), although every other path clamps to 0..9 | 20 hardware threads in a release build give level 10. Pressing `[` then asks for 9, which is taken as a change of level, so it drains the GPU and rebuilds the field, although the profile row is the same | the starting level is clamped to 0..9, like every level passed to `SetAsteroidsComplexity` | not executed | `Profiles.DefaultComplexityLeavesRange` (on `Profiles.DefaultComplexityAsWritten`) | `Profiles.DefaultComplexity` |
