# plotplayer in Dafny

plotplayer is a small frame-animation player for Matplotlib. The user hands it a draw
callback `(frame, axes) -> None` and a frame count. The player then plays the frames on a
timer, keeps a scrubber slider in step with the frame shown, and reacts to the keyboard and
the mouse (seek, play/pause, show or hide the slider and the toolbar, save the animation).

This project models the player's core as it stands in the repository:

- the four managers (`managers/`): window, render, animation and input;
- the animation parameter record (`data_models/animation_params.py`);
- the player that wires the managers together (`plotplayer.py`);
- the three earlier drafts of the same components that are still in the tree: the
  single-class player `plotplayer/plotplayer.py`, the input handler `ui/input_handler.py`,
  and two render handlers, `ui/render_handler.py` and `ui/renderHandler.py`.

## How it is modelled

- **The toolkit.** Every call the player makes into Matplotlib or Tk is an `Effect`: start
  or cancel the frame animation, draw the canvas, move the slider, run the draw callback,
  show the slider axes or the toolbar, set the title, open the save dialog, export. An
  operation returns the effects it causes in order.
- **State.** Each manager or handler is a `class` whose fields are the ones the source
  assigns. A `Model()` function gives a value view of those fields. Each method is proved
  against a specification function on that value:
  `Step(Model(), effects, outcome) == XSpec(old(Model()), …)`.
- **Exceptions.** A Python exception the code can raise is the outcome
  `Raised(AttributeError | TypeError | ZeroDivisionError)`. These cases are modelled, not
  excluded: an animation manager used before `initialize`, a missing draw callback, a total
  of 0, a frame rate of 0, and a `None` animation name.
- **Python semantics.** `int()` on a float truncates toward zero (`Trunc`). `//` floors
  (`FloorDiv`). `range` is a sequence (`Range`). The slider clamp
  `min(max(0, int(x)), valmax)` is `SliderClamp`. Numbers are unbounded integers and exact
  reals.
- **The frame animation.** `FuncAnimation(..., frames, interval, repeat=False)` is a
  `Timer` that holds the frames still pending. One period (`TickSpec`) renders the next
  pending frame. When none is left, the timer stops itself.
- **The input managers.** They talk to the other managers through calls. These are
  returned as a sequence of `Input.Call`s. What the animation manager answers to its
  queries is a parameter (`Reported`). Which custom handlers claim an event is a parameter
  too (`claims`).
- **Re-entrant slider.** The drafts' slider notifies `render` (or `handleSliderChanged`)
  from inside `render`. This is kept: the spec functions and methods are mutually
  recursive, and their termination is shown by a rank.

### Behaviour of the code worth knowing

- `play` at the last frame rewinds to frame -1 (`animation_manager.py:102-103`), and
  `initialize` also sets the frame to -1. Playback from the start therefore delivers
  -1, 0, …, n: the first two periods both show frame 0, and after k periods frame k − 2 is
  shown.
- The timer interval is the floor quotient `1000 // frame_rate`: 33 ms at 30 frames per
  second.
- The animation manager defines `get_min_frame_num` and no `get_total_frames`, while the input
  manager calls `get_min_frame_number` ('home') and `get_total_frames` (slider changes). With
  the managers as the player wires them, both calls raise.
- With a first frame above 0, the render manager gets the frame unshifted but the total
  `max − min`, so frames above `max − min` are not drawn.
- The single-class player and both render handler drafts draw a frame twice whenever `render`
  has to move the slider: once from the slider's change notification and once on their own.
- Re-initializing the single-class player while it plays clears its playing flag but leaves
  the running animation going, and `stop` then cancels nothing.
- The draft input handler lets the armed save combo fall through to the other keys, and its
  'end' key renders the frame count itself, one past the last frame.
- `PlotPlayer.initialize` passes `animation_name=None` explicitly, so a save from the keyboard
  without a file name raises TypeError when it builds the default file name.

## Model

| member | source | states |
|---|---|---|
| Toolkit.StopPlayback | plotplayer/managers/animation_manager.py:113-121 | stop is a no-op when not playing; when playing it cancels the animation exactly once and clears the flag; afterwards nothing is playing |
| Toolkit.Trunc | plotplayer/managers/animation_manager.py:89 | `int()` of a float lies within 1 of it on the side of zero (floor for non-negatives, ceiling for negatives) |
| Toolkit.FloorDiv | plotplayer/managers/animation_manager.py:106-107 | `1000 // rate` is the floor quotient: `b*q <= a < b*q + b` for positive divisors, mirrored for negative ones |
| Toolkit.Range | plotplayer/managers/animation_manager.py:105 | `range(lo, hi)` yields `hi - lo` integers `lo, lo+1, …` and nothing when `lo >= hi` |
| Toolkit.SliderClamp | plotplayer/ui/render_handler.py:42 | the frame `render` settles on never exceeds `valmax`, is at least 0 when `valmax >= 0`, and is `int(x)` itself when that is in range |
| Toolkit.SliderClampIdempotent | plotplayer/plotplayer/plotplayer.py:78 | clamping an already clamped frame gives it back, whatever the bound |
| Toolkit.TimerStep | plotplayer/managers/animation_manager.py:105-107 | one period of the non-repeating animation delivers exactly the head of the pending frames when it runs and has frames left, and drops it; it never changes the playing flag |
| Params.NewAnimationParams | plotplayer/data_models/animation_params.py:27-65 | every constructor argument, given or defaulted, is read back unchanged by its getter; nothing is validated |
| Params.AnimationParams.GetMinFrameNum | plotplayer/data_models/animation_params.py:43-47 | reports the first frame the record was built with |
| Params.AnimationParams.GetMaxFrameNum | plotplayer/data_models/animation_params.py:49-53 | reports the last frame the record was built with |
| Params.AnimationParams.GetFrameRate | plotplayer/data_models/animation_params.py:55-59 | reports the frame rate the record was built with |
| Params.AnimationParams.GetAnimationName | plotplayer/data_models/animation_params.py:61-65 | reports the name the record was built with, None included |
| Params.OmittedArgumentsDefault | plotplayer/data_models/animation_params.py:8-28 | omitted arguments default to first frame 0, 30 frames per second and the name "PlotPlayer" |
| Params.ExplicitNoneNameKept | plotplayer/data_models/animation_params.py:27-41 | an explicit `animation_name=None` is stored as None; the default applies only to an omitted name |
| Windowing.WindowTitle | plotplayer/managers/window_manager.py:53-56 | the title set is the given one, or "PlotPlayer" for None |
| Windowing.WindowManager.constructor | plotplayer/managers/window_manager.py:32-51 | the toolbar flag starts as given (shown by default) |
| Windowing.WindowManager.GetToolbarVisible | plotplayer/managers/window_manager.py:58-62 | reports the toolbar flag the constructor or the last set or toggle stored |
| Windowing.WindowManager.SetWindowTitle | plotplayer/managers/window_manager.py:53-56 | sets exactly one title, the given one or "PlotPlayer", and changes no field |
| Windowing.WindowManager.SetToolbarVisible | plotplayer/managers/window_manager.py:58-73 | packs or forgets the toolbar once, and `get_toolbar_visible` then reports the value set |
| Windowing.WindowManager.ToggleToolbar | plotplayer/managers/window_manager.py:75-79 | the reported visibility is negated and the toolbar packed or forgotten accordingly |
| Windowing.ToggleToolbarTwiceRestores | plotplayer/managers/window_manager.py:75-79 | two toggles restore the toolbar flag |
| Rendering.SyncSlider | plotplayer/managers/render_manager.py:133-141 | the slider ends at the value, and `set_val` is called (once) exactly when it showed another value |
| Rendering.RenderView | plotplayer/managers/render_manager.py:72-85 | a frame outside `[0, total]` does nothing; a total of 0 raises ZeroDivisionError before anything happens; otherwise the slider ends at `frame / total`, and with no callback installed the call then raises TypeError; the callback and visibility never change |
| Rendering.RenderInRangeDrawsOnce | plotplayer/managers/render_manager.py:72-85 | an in-range render with a callback draws exactly once, last, with the given frame and the latest callback, after at most one `set_val` to `frame / total` |
| Rendering.RepeatedRenderSetsSliderOnce | plotplayer/managers/render_manager.py:133-141 | rendering the same frame twice calls `set_val` at most once: the second render never moves the slider |
| Rendering.RenderManager.constructor | plotplayer/managers/render_manager.py:37-61 | no callback, slider over [0, 1] at 0.0, shown unless asked otherwise |
| Rendering.RenderManager.Initialize | plotplayer/managers/render_manager.py:63-70 | later renders use the new callback; nothing else changes |
| Rendering.RenderManager.Render | plotplayer/managers/render_manager.py:72-85 | the new state, effects and outcome are those of `RenderView` |
| Rendering.RenderManager.RenderFrame | plotplayer/managers/render_manager.py:122-131 | the installed callback draws the frame once; with none installed the call raises TypeError and draws nothing |
| Rendering.RenderManager.RenderSlider | plotplayer/managers/render_manager.py:133-141 | behaves as `SyncSlider` |
| Rendering.RenderManager.SetSliderVisible | plotplayer/managers/render_manager.py:87-96 | shows or hides the slider axes, redraws the canvas, and records the flag |
| Rendering.RenderManager.ToggleSlider | plotplayer/managers/render_manager.py:98-102 | the slider flag is negated and the axes follow it |
| Rendering.ToggleSliderTwiceRestores | plotplayer/managers/render_manager.py:98-102 | two toggles leave the render manager as it was |
| Animation.ClampFrame | plotplayer/managers/animation_manager.py:82-85 | an input below the first frame becomes the first frame, one above the last becomes the last, one in between is kept |
| Animation.StoredFrame | plotplayer/managers/animation_manager.py:75-89 | the frame `render` stores: the first frame for an input below it, the last for one above it, and `int()` of an input in range |
| Animation.StoredFrameWithinRange | plotplayer/managers/animation_manager.py:82-89 | for `min <= max` the stored frame `int(clamped)` always lies in `[min, max]` |
| Animation.StoredFrameOfWhole | plotplayer/managers/animation_manager.py:82-89 | a whole-number input is stored as itself when in range and as the nearest bound otherwise |
| Animation.RenderSpec | plotplayer/managers/animation_manager.py:75-93 | before `initialize` it raises AttributeError; otherwise it stores the clamped frame, forwards it with the total `max − min` to the render manager, and clears the playing flag exactly when the frame is the last one (and the forwarded render did not raise), leaving the timer as it is |
| Animation.PlaySpec | plotplayer/managers/animation_manager.py:95-111 | while playing nothing happens and no second timer is created; the parameters are never changed |
| Animation.PlaySchedulesRemainingFrames | plotplayer/managers/animation_manager.py:95-111 | from a stopped, initialized manager, play schedules every frame from the current one (or -1 at the last frame) through the last inclusive, at `1000 // rate` ms, starting the timer before drawing the canvas |
| Animation.StopSpec | plotplayer/managers/animation_manager.py:113-121 | afterwards nothing is playing; the frame and parameters are kept; a stopped manager is unchanged; a playing one cancels its timer once |
| Animation.TogglePlaybackFlips | plotplayer/managers/animation_manager.py:123-130 | a completed toggle flips the playing flag; it raises exactly when asked to play a manager that is uninitialized or has rate 0 |
| Animation.ToggleSpec | plotplayer/managers/animation_manager.py:123-130 | while playing: one cancel and stopped afterwards; while stopped: a completed toggle starts exactly one animation and plays; the parameters never change |
| Animation.InitializeSpec | plotplayer/managers/animation_manager.py:61-73 | stops first, installs the parameters, sets the frame to -1 and leaves nothing playing |
| Animation.RenderAtMaxKeepsTimer | plotplayer/managers/animation_manager.py:92-93 | rendering the last frame while playing clears the flag but leaves the timer running, so a later `stop` cancels nothing |
| Animation.OffsetLastFrameNotDrawn | plotplayer/managers/animation_manager.py:87-90 | with a first frame above 0 the last frame falls outside the render manager's range: nothing is drawn, yet the playing flag is cleared |
| Animation.DefaultFileName | plotplayer/managers/animation_manager.py:175-180 | the default file offered is the animation name plus the format's extension; a None name raises TypeError |
| Animation.SaveSpec | plotplayer/managers/animation_manager.py:164-218 | every save stops playback first, and its effects start with the stop's |
| Animation.RangeTail | plotplayer/managers/animation_manager.py:105 | dropping the first frame of `range(a, hi)` gives `range(a + 1, hi)` |
| Animation.TicksDeliverFrames | plotplayer/managers/animation_manager.py:75-111 | over frames 0..n, k periods deliver the next k pending frames in order: the stored frame is the last one delivered (-1 stored as 0), the pending frames are the rest, and playing stays set until the last frame is delivered |
| Animation.TickDeliversNext | plotplayer/managers/animation_manager.py:75-93 | one period renders the next pending frame, drops it from the pending frames, and clears playing exactly when it is the last frame |
| Animation.TickSpec | plotplayer/managers/animation_manager.py:75-111 | one period of the animation never starts playback or changes the parameters; a stopped or exhausted animation draws nothing; a running one drops the frame it delivers from its pending frames |
| Animation.AnimationManager.constructor | plotplayer/managers/animation_manager.py:50-59 | it keeps its render manager and starts uninitialized, with no frame and nothing playing |
| Animation.AnimationManager.Initialize | plotplayer/managers/animation_manager.py:61-73 | behaves as `InitializeSpec` |
| Animation.AnimationManager.Render | plotplayer/managers/animation_manager.py:75-93 | the manager and its render manager change, and the effects and outcome are, as `RenderSpec` says |
| Animation.AnimationManager.Play | plotplayer/managers/animation_manager.py:95-111 | behaves as `PlaySpec` |
| Animation.AnimationManager.Stop | plotplayer/managers/animation_manager.py:113-121 | behaves as `StopSpec` |
| Animation.AnimationManager.TogglePlayback | plotplayer/managers/animation_manager.py:123-130 | stops when playing and plays otherwise |
| Animation.AnimationManager.Tick | plotplayer/managers/animation_manager.py:105-107 | one firing of the frame animation behaves as `TickSpec` |
| Animation.AnimationManager.Save | plotplayer/managers/animation_manager.py:164-218 | behaves as `SaveSpec`: stop, offer the default name when no file is given, then export; with no animation yet it raises AttributeError |
| Animation.AnimationManager.GetMinFrameNum | plotplayer/managers/animation_manager.py:138-142 | the first frame, or AttributeError before `initialize` |
| Animation.AnimationManager.GetMaxFrameNumber | plotplayer/managers/animation_manager.py:144-148 | the last frame, or AttributeError before `initialize` |
| Input.HandleSaveKeyCombo | plotplayer/managers/input_manager.py:50-72 | 'v', 'h' and 'j' are handled and save exactly once, in their own format; any other key is not handled and calls nothing |
| Input.HandleNavigationKeys | plotplayer/managers/input_manager.py:74-110 | handled exactly for the seek and play keys; a seek key stops, reads the frame (and the bound for 'home'/'end'), then renders its target once; the play keys toggle without stopping; the current frame is read whatever the key |
| Input.HandleVisibilityKeys | plotplayer/managers/input_manager.py:112-131 | handled exactly for 't' (toggle the slider) and 'm' (toggle the toolbar) |
| Input.SeekStopsThenRendersOnce | plotplayer/managers/input_manager.py:74-110 | for a seek key the first call stops, the last one renders, every call between is a query, and playback is never toggled |
| Input.SeekTargets | plotplayer/managers/input_manager.py:93-104 | the six targets: frame ∓ skip, frame ∓ jump, the first frame, and the last frame minus one |
| Input.SeekTarget | plotplayer/managers/input_manager.py:93-104 | a seek target is a whole frame number; skip and jump keys move from the current frame by exactly their size; 'home' goes to the first frame whatever the current one |
| Input.DispatchBuiltIn | plotplayer/managers/input_manager.py:307-332 | the save combo is armed afterwards exactly when it was armed before or the key was 'd' |
| Input.Offered | plotplayer/managers/input_manager.py:317-319 | the custom handlers are called in insertion order up to and including the first that claims the event; every earlier one declined; the event counts as claimed exactly when some handler claims it |
| Input.OfferToHandlers | plotplayer/managers/input_manager.py:317-319 | the handler loop returns exactly the claim flag and calls that `Offered` describes |
| Input.OfferedDeterminedBy | plotplayer/managers/input_manager.py:317-319 | `Offered`'s contract determines its result uniquely |
| Input.Added | plotplayer/managers/input_manager.py:214-222 | adding puts a new handler last, after the earlier ones in their order; an existing handler leaves the list as is; nothing else is added and no duplicate is created |
| Input.RemoveFirst | plotplayer/managers/input_manager.py:224-232 | removing drops one occurrence when present and keeps every other handler; from a list without duplicates the handler is gone |
| Input.FirstIndex | plotplayer/managers/input_manager.py:224-232 | the position `list.remove` looks for: an occurrence of the handler with none before it |
| Input.RemoveFirstSplices | plotplayer/managers/input_manager.py:224-232 | removing drops exactly the first occurrence, and the handlers before and after it keep their order |
| Input.KeyPressSpec | plotplayer/managers/input_manager.py:314-315 | a disabled manager does nothing and keeps the save flag |
| Input.KeyReleaseSpec | plotplayer/managers/input_manager.py:341-342 | a disabled manager does nothing and keeps the save flag |
| Input.MousePressSpec | plotplayer/managers/input_manager.py:360-361 | a disabled manager calls nothing |
| Input.SliderChangedSpec | plotplayer/managers/input_manager.py:377-378 | a disabled manager calls nothing |
| Input.ClaimedPressSkipsBuiltIn | plotplayer/managers/input_manager.py:317-319 | a claimed press calls only custom handlers, ending with the one that claimed it, and leaves the save flag alone |
| Input.ArmedSaveKeySaves | plotplayer/managers/input_manager.py:322-323 | with the combo armed and no claim, 'v', 'h' and 'j' save once in their format after the custom handlers and do nothing else; the combo stays armed |
| Input.PressArmsOnlyOnSaveKey | plotplayer/managers/input_manager.py:307-332 | after a press the combo is armed exactly when it was, or the press was an enabled, unclaimed 'd' |
| Input.ReleaseDisarmsOnlyOnSaveKey | plotplayer/managers/input_manager.py:334-351 | after a release the combo is armed exactly when it was and the release was not an enabled, unclaimed 'd' |
| Input.BuiltInFirstMatchWins | plotplayer/managers/input_manager.py:321-332 | the first built-in branch that handles a key wins: armed saves, then navigation, then visibility (after the frame query), and arming with 'd' only when nothing else handled the key |
| Input.SaveComboScenario | plotplayer/managers/input_manager.py:307-351 | 'd' then 'v' saves a video; 'd', release of 'd', then 'v' saves nothing |
| Input.HomeAndSliderQueryMissingAccessors | plotplayer/managers/input_manager.py:101-102 | 'home' asks for `get_min_frame_number` and a slider change for `get_total_frames`, which the animation manager does not offer |
| Input.SliderMapsBackWithOffset | plotplayer/managers/input_manager.py:370-384 | the slider value `frame / total` set by the render manager is rendered back as `frame + min`, not `frame` |
| Input.InputManager.constructor | plotplayer/managers/input_manager.py:174-212 | disarmed, empty handler lists without duplicates, skip 1 and jump 10 and disabled unless asked otherwise |
| Input.InputManager.AddKeyPressHandler | plotplayer/managers/input_manager.py:214-222 | the list becomes `Added(old, h)`, no duplicates, nothing else changes |
| Input.InputManager.RemoveKeyPressHandler | plotplayer/managers/input_manager.py:224-232 | the list becomes `RemoveFirst(old, h)`, no duplicates, nothing else changes |
| Input.InputManager.AddKeyReleaseHandler | plotplayer/managers/input_manager.py:234-242 | as for key-press handlers |
| Input.InputManager.RemoveKeyReleaseHandler | plotplayer/managers/input_manager.py:244-252 | as for key-press handlers |
| Input.InputManager.AddMousePressHandler | plotplayer/managers/input_manager.py:254-262 | as for key-press handlers |
| Input.InputManager.RemoveMousePressHandler | plotplayer/managers/input_manager.py:264-272 | as for key-press handlers |
| Input.InputManager.SetSkipSize | plotplayer/managers/input_manager.py:274-284 | `get_skip_size` then returns the size set; nothing else changes |
| Input.InputManager.SetJumpSize | plotplayer/managers/input_manager.py:286-296 | `get_jump_size` then returns the size set; nothing else changes |
| Input.InputManager.GetSkipSize | plotplayer/managers/input_manager.py:274-278 | reports the skip size last set (1 from the constructor) |
| Input.InputManager.GetJumpSize | plotplayer/managers/input_manager.py:286-290 | reports the jump size last set (10 from the constructor) |
| Input.InputManager.SetEnabled | plotplayer/managers/input_manager.py:298-305 | only the enabled flag changes |
| Input.InputManager.HandleKeyPress | plotplayer/managers/input_manager.py:307-332 | calls and the new save flag are those of `KeyPressSpec`; nothing else changes |
| Input.InputManager.HandleKeyRelease | plotplayer/managers/input_manager.py:334-351 | calls and the new save flag are those of `KeyReleaseSpec`; nothing else changes |
| Input.InputManager.HandleMousePress | plotplayer/managers/input_manager.py:353-368 | an enabled, unclaimed press in the slider axes stops exactly once, as the last call; a press elsewhere never stops |
| Input.InputManager.HandleSliderChanged | plotplayer/managers/input_manager.py:370-384 | when enabled it ends by rendering `value * total + min` |
| Player.PlayerParams | plotplayer/plotplayer.py:80 | the parameters are frames 0..total at 30 frames per second with the given name (None by default) |
| Player.PlayerInitializeSpec | plotplayer/plotplayer.py:67-82 | the animation manager ends with the new parameters, frame -1 and nothing playing; its only effects are the player's stop |
| Player.PlayedAnimationScenario | plotplayer/plotplayer.py:67-88 | for the animation and render managers alone: after `initialize(n, f)` and `play`, frames -1..n are scheduled at 33 ms; after k periods frame k−2 (0 for the first two) is shown, playback lasts until period n+2, and the next period stops the timer |
| Player.PlayAfterInitialize | plotplayer/plotplayer.py:67-88 | `play` right after `initialize(n, f)` starts one timer over -1..n at 33 ms and then draws the canvas |
| Player.PlotPlayer.constructor | plotplayer/plotplayer.py:35-65 | given managers are used as they are and missing ones are created fresh; it ends with the logo callback installed, input enabled, and the one-frame logo animation playing over -1, 0, 1 |
| Player.PlotPlayer.Initialize | plotplayer/plotplayer.py:67-82 | stop, install the callback, initialize the animation manager per `PlayerInitializeSpec`, enable input; nothing else in the managers changes |
| Player.PlotPlayer.Play | plotplayer/plotplayer.py:84-88 | delegated once to the animation manager's `play` |
| Player.PlotPlayer.Stop | plotplayer/plotplayer.py:90-94 | delegated once to the animation manager's `stop` |
| Player.WindowOrNew | plotplayer/plotplayer.py:46-48 | the given window manager, or a fresh one |
| Player.RendererOrNew | plotplayer/plotplayer.py:51-53 | the given render manager, or a fresh one |
| Player.AnimationOrNew | plotplayer/plotplayer.py:55-57 | the given animation manager, or a fresh one rendering through the player's render manager |
| Player.InputOrNew | plotplayer/plotplayer.py:59-62 | the given input manager, or a fresh one |
| LegacyPlayer.RenderSpec | plotplayer/plotplayer/plotplayer.py:77-80 | before `initializeAnimation` it raises; otherwise it never changes the session or toolbar, never starts playback, and keeps whether an animation exists |
| LegacyPlayer.RenderSliderSpec | plotplayer/plotplayer/plotplayer.py:87-93 | never raises, changes no session or toolbar, and only ever stops playback |
| LegacyPlayer.SetSliderSpec | plotplayer/plotplayer/plotplayer.py:65-66 | the slider's change notification is `render`: never raises once initialized, only ever stops playback |
| LegacyPlayer.RenderClosedForm | plotplayer/plotplayer/plotplayer.py:77-93 | render draws the clamped frame once when the slider shows it and twice (after one `set_val`) when it must move; the slider ends on the frame; playback stops exactly when it is the last frame |
| LegacyPlayer.StopAtEnd | plotplayer/plotplayer/plotplayer.py:92-93 | `renderSlider` cancels the animation exactly when the frame is the last one and the player is playing, and makes no call otherwise |
| LegacyPlayer.PlaySpec | plotplayer/plotplayer/plotplayer.py:106-115 | playing again is a no-op that creates no second animation |
| LegacyPlayer.PlayDoesNotRewind | plotplayer/plotplayer/plotplayer.py:106-115 | play schedules the frames from the slider's to the last one inclusive at `1000 // rate` ms; at the last frame it schedules that frame alone, without rewinding |
| LegacyPlayer.StopSpec | plotplayer/plotplayer/plotplayer.py:117-122 | afterwards nothing is playing; a stopped player is unchanged |
| LegacyPlayer.TogglePlaybackFlips | plotplayer/plotplayer/plotplayer.py:124-128 | a completed toggle flips the playing flag; it raises exactly when asked to play before initialization or with rate 0 |
| LegacyPlayer.ToggleSpec | plotplayer/plotplayer/plotplayer.py:124-128 | while playing: one cancel and stopped afterwards; while stopped: a completed toggle starts exactly one animation and plays; the session and slider never change |
| LegacyPlayer.TickSpec | plotplayer/plotplayer/plotplayer.py:106-115 | one period of the animation never starts playback or changes the session or toolbar; a stopped or exhausted animation draws nothing and leaves the slider alone |
| LegacyPlayer.SeekTarget | plotplayer/plotplayer/plotplayer.py:153-160 | the frame each seek key renders: one before or after the slider's, the last frame for 'end', 0 for 'home' |
| LegacyPlayer.HandleKeyPressSpec | plotplayer/plotplayer/plotplayer.py:144-164 | before `initializeAnimation` every key raises AttributeError; unhandled keys do nothing; a seek key stops first and leaves the player stopped; the session never changes |
| LegacyPlayer.InitializeSpec | plotplayer/plotplayer/plotplayer.py:60-75 | a slider over `[0, totalFrames − 1]` at 0.0, the callback, name and rate installed, the flag cleared without touching the animation |
| LegacyPlayer.ReinitializeOrphansTimer | plotplayer/plotplayer/plotplayer.py:72 | re-initializing while playing leaves the animation running, and `stop` no longer cancels it |
| LegacyPlayer.SetToolbarHiddenSpec | plotplayer/plotplayer/plotplayer.py:130-136 | the toolbar is forgotten or packed once and the hidden flag recorded |
| LegacyPlayer.ToggleToolbarSpec | plotplayer/plotplayer/plotplayer.py:138-142 | the hidden flag is negated |
| LegacyPlayer.SeekKeyStopsAndShows | plotplayer/plotplayer/plotplayer.py:144-160 | a seek key stops before rendering, leaves the player stopped showing the clamped target (0 for 'home', the last frame for 'end'), and draws it last |
| LegacyPlayer.NonSeekKeys | plotplayer/plotplayer/plotplayer.py:161-164 | space and enter toggle playback and 't' toggles the toolbar, without a stop first; any other non-seek key does nothing |
| LegacyPlayer.MouseButtonDownSpec | plotplayer/plotplayer/plotplayer.py:166-168 | a press in the slider axes is exactly a stop; elsewhere nothing happens |
| LegacyPlayer.LegacyPlotPlayer.constructor | plotplayer/plotplayer/plotplayer.py:37-58 | no animation, slider value 0.0, nothing playing, toolbar hidden unless asked otherwise |
| LegacyPlayer.LegacyPlotPlayer.InitializeAnimation | plotplayer/plotplayer/plotplayer.py:60-75 | behaves as `InitializeSpec` |
| LegacyPlayer.LegacyPlotPlayer.Render | plotplayer/plotplayer/plotplayer.py:77-80 | behaves as `RenderSpec` |
| LegacyPlayer.LegacyPlotPlayer.RenderImage | plotplayer/plotplayer/plotplayer.py:82-85 | the callback draws the frame once |
| LegacyPlayer.LegacyPlotPlayer.RenderSlider | plotplayer/plotplayer/plotplayer.py:87-93 | behaves as `RenderSliderSpec` |
| LegacyPlayer.LegacyPlotPlayer.SetSliderValue | plotplayer/plotplayer/plotplayer.py:65-66 | behaves as `SetSliderSpec` |
| LegacyPlayer.LegacyPlotPlayer.Play | plotplayer/plotplayer/plotplayer.py:106-115 | behaves as `PlaySpec` |
| LegacyPlayer.LegacyPlotPlayer.Stop | plotplayer/plotplayer/plotplayer.py:117-122 | behaves as `StopSpec` |
| LegacyPlayer.LegacyPlotPlayer.TogglePlayback | plotplayer/plotplayer/plotplayer.py:124-128 | stops when playing and plays otherwise |
| LegacyPlayer.LegacyPlotPlayer.Tick | plotplayer/plotplayer/plotplayer.py:110-111 | one firing of the animation renders the next pending frame |
| LegacyPlayer.LegacyPlotPlayer.HideToolbar | plotplayer/plotplayer/plotplayer.py:130-132 | forgets the toolbar and records it hidden |
| LegacyPlayer.LegacyPlotPlayer.ShowToolbar | plotplayer/plotplayer/plotplayer.py:134-136 | packs the toolbar and records it shown |
| LegacyPlayer.LegacyPlotPlayer.ToggleToolbar | plotplayer/plotplayer/plotplayer.py:138-142 | behaves as `ToggleToolbarSpec` |
| LegacyPlayer.LegacyPlotPlayer.HandleKeyPress | plotplayer/plotplayer/plotplayer.py:144-164 | behaves as `HandleKeyPressSpec` |
| LegacyPlayer.LegacyPlotPlayer.HandleMouseButtonDown | plotplayer/plotplayer/plotplayer.py:166-168 | behaves as `MouseButtonDownSpec` |
| LegacyPlayer.LegacyPlotPlayer.Save | plotplayer/plotplayer/plotplayer.py:178-187 | its own lines export without stopping (the renders the toolkit makes while exporting are left out); with no animation yet it raises AttributeError and exports nothing |
| DraftInput.HandleSaveKeyCombo | plotplayer/ui/input_handler.py:23-29 | the same key-to-format mapping as the input manager's combo |
| DraftInput.Chain | plotplayer/ui/input_handler.py:71-90 | skip and jump keys render the same targets as the input manager's; 'home' renders 0 and 'end' the frame count; 't', space/enter and 'm' make exactly their toggle call; 'd' alone arms the combo; every other key calls nothing; at most two calls; a stop key renders exactly once, last; the chain never stops |
| DraftInput.BuiltIn | plotplayer/ui/input_handler.py:64-90 | the combo is armed afterwards exactly when it was or the key was 'd'; the frame is queried for every key; stop is called exactly for the stop keys; an armed save key saves first and still reaches the chain |
| DraftInput.KeyPressSpec | plotplayer/ui/input_handler.py:55-57 | a disabled handler does nothing and keeps the save flag |
| DraftInput.KeyReleaseSpec | plotplayer/ui/input_handler.py:92-99 | an enabled 'd' release disarms the combo; anything else keeps it |
| DraftInput.MouseButtonDownSpec | plotplayer/ui/input_handler.py:101-107 | an enabled press in the slider axes stops exactly once; otherwise nothing |
| DraftInput.ClaimedPressSkipsBuiltIn | plotplayer/ui/input_handler.py:59-60 | a claimed press calls only the custom handler |
| DraftInput.ArmedSaveFallsThrough | plotplayer/ui/input_handler.py:64-70 | with the combo armed a save key saves and then falls through to the frame query; the combo stays armed |
| DraftInput.StopKeyStopsBeforeRender | plotplayer/ui/input_handler.py:64-82 | an unclaimed stop key stops first and exactly once, and renders exactly once, last |
| DraftInput.StopKeyPressCalls | plotplayer/ui/input_handler.py:64-82 | an unclaimed stop key calls stop, the frame query, and the chain's branch, in that order |
| DraftInput.PressArmsOnlyOnSaveKey | plotplayer/ui/input_handler.py:55-90 | after a press the combo is armed exactly when it was, or the press was an enabled, unclaimed 'd' |
| DraftInput.HomeAndEndTargets | plotplayer/ui/input_handler.py:79-82 | 'home' renders frame 0 and 'end' renders the frame count, each after stop and the frame query |
| DraftInput.InputHandler.constructor | plotplayer/ui/input_handler.py:41-53 | disarmed, skip 1, jump 10 and disabled unless asked otherwise |
| DraftInput.InputHandler.HandleKeyPress | plotplayer/ui/input_handler.py:55-90 | calls and new save flag are those of `KeyPressSpec`; nothing else changes |
| DraftInput.InputHandler.HandleKeyRelease | plotplayer/ui/input_handler.py:92-99 | the new save flag is that of `KeyReleaseSpec` |
| DraftInput.InputHandler.HandleMouseButtonDown | plotplayer/ui/input_handler.py:101-107 | behaves as `MouseButtonDownSpec` |
| DraftInput.InputHandler.SetEnabled | plotplayer/ui/input_handler.py:109-110 | only the enabled flag changes |
| DraftRender.RenderSpec | plotplayer/ui/render_handler.py:41-45 | raises exactly before `initializeRendering`; never changes the session or the visibility flags |
| DraftRender.RenderSliderSpec | plotplayer/ui/render_handler.py:52-55 | never raises; a slider already showing the frame is left alone and nothing happens |
| DraftRender.SliderChangedSpec | plotplayer/ui/render_handler.py:57-58 | raises exactly before `initializeRendering` |
| DraftRender.SetSliderSpec | plotplayer/ui/render_handler.py:36-37 | the change notification never raises once initialized and keeps the session and flags |
| DraftRender.RenderClosedForm | plotplayer/ui/render_handler.py:41-58 | render draws the clamped frame once when the slider shows it and twice (after one `set_val`) when it must move; the slider ends on it |
| DraftRender.RenderAgainDrawsOnce | plotplayer/ui/render_handler.py:41-58 | rendering again what was just rendered draws it exactly once and leaves the slider alone |
| DraftRender.InitializeSpec | plotplayer/ui/render_handler.py:35-39 | a slider over `[0, totalFrames − 1]` at 0.0 and the callback installed; visibility flags kept |
| DraftRender.RenderAfterInitializeDrawsInRange | plotplayer/ui/render_handler.py:35-45 | after initializing with n >= 1 frames every render ends by drawing, with the new callback, a frame in `[0, n − 1]` |
| DraftRender.RenderHandler.constructor | plotplayer/ui/render_handler.py:18-33 | no slider yet, slider shown and toolbar hidden unless asked otherwise |
| DraftRender.RenderHandler.InitializeRendering | plotplayer/ui/render_handler.py:35-39 | behaves as `InitializeSpec` |
| DraftRender.RenderHandler.Render | plotplayer/ui/render_handler.py:41-45 | behaves as `RenderSpec` |
| DraftRender.RenderHandler.RenderImage | plotplayer/ui/render_handler.py:47-50 | the callback draws the frame once |
| DraftRender.RenderHandler.RenderSlider | plotplayer/ui/render_handler.py:52-55 | behaves as `RenderSliderSpec` |
| DraftRender.RenderHandler.HandleSliderChanged | plotplayer/ui/render_handler.py:57-58 | behaves as `SliderChangedSpec` |
| DraftRender.RenderHandler.SetSliderValue | plotplayer/ui/render_handler.py:36-37 | behaves as `SetSliderSpec` |
| DraftRender.RenderHandler.SetSliderVisible | plotplayer/ui/render_handler.py:60-63 | shows or hides the slider axes, redraws, and records the flag |
| DraftRender.RenderHandler.ToggleSlider | plotplayer/ui/render_handler.py:65-66 | the slider flag is negated |
| DraftRender.RenderHandler.SetToolbarVisible | plotplayer/ui/render_handler.py:68-74 | packs or forgets the toolbar and records the flag |
| DraftRender.RenderHandler.ToggleToolbar | plotplayer/ui/render_handler.py:76-77 | the toolbar flag is negated |
| EarlyRender.RenderSpec | plotplayer/ui/renderHandler.py:41-45 | raises exactly when no callback is installed; never changes the bound, callback or visibility |
| EarlyRender.RenderClosedForm | plotplayer/ui/renderHandler.py:41-58 | the slider ends on the frame clamped into `[0, valmax]`; with a callback it is drawn once when the slider already shows it, and twice after one `set_val` otherwise; without one the slider still moves and the call raises TypeError |
| EarlyRender.RenderSliderSpec | plotplayer/ui/renderHandler.py:52-55 | raises only without a callback; a slider already showing the frame is left alone |
| EarlyRender.SliderChangedSpec | plotplayer/ui/renderHandler.py:57-58 | raises exactly when no callback is installed |
| EarlyRender.SetSliderSpec | plotplayer/ui/renderHandler.py:30-31 | the notification's exception propagates out of `set_val`, exactly when no callback is installed |
| EarlyRender.ResetSpec | plotplayer/ui/renderHandler.py:37 | a slider already at 0.0 is not touched |
| EarlyRender.InitializeSpec | plotplayer/ui/renderHandler.py:35-39 | the bound becomes `totalFrames`; the new callback is installed exactly when the reset did not raise |
| EarlyRender.InitializeResetUsesPreviousCallback | plotplayer/ui/renderHandler.py:35-39 | the reset renders frame 0 with the callback installed before; without one it raises, leaves the new callback uninstalled, and a second call succeeds |
| EarlyRender.RenderReachesOnePastLast | plotplayer/ui/renderHandler.py:36 | with the bound at `totalFrames`, rendering n after initializing with n frames draws frame n, one past the last, twice |
| EarlyRender.TildeToggleNeverHidesShownSlider | plotplayer/ui/renderHandler.py:63-64 | from a slider shown as True, toggling with `~` alternates between 1 and -2 and never hides it |
| EarlyRender.TildeToggleFromHiddenAlternates | plotplayer/ui/renderHandler.py:63-64 | from a slider hidden as False, `~` alternates between 0 and -1, so the toggle works in that case |
| EarlyRender.Invert | plotplayer/ui/renderHandler.py:63-64 | `~v` is true for every stored value but -1, and undoes itself |
| EarlyRender.Toggled | plotplayer/ui/renderHandler.py:63-64 | repeated `~` toggles only ever reach the stored value and its complement |
| EarlyRender.Negated | plotplayer/ui/renderHandler.py:63-64 | the intended toggle always flips whether the slider is shown |
| EarlyRender.RenderHandler.constructor | plotplayer/ui/renderHandler.py:16-33 | a slider over [0, 1] at 0.0, no callback, hidden unless asked otherwise |
| EarlyRender.RenderHandler.InitializeRendering | plotplayer/ui/renderHandler.py:35-39 | behaves as `InitializeSpec` |
| EarlyRender.RenderHandler.Reset | plotplayer/ui/renderHandler.py:37 | behaves as `ResetSpec` |
| EarlyRender.RenderHandler.Render | plotplayer/ui/renderHandler.py:41-45 | behaves as `RenderSpec` |
| EarlyRender.RenderHandler.RenderImage | plotplayer/ui/renderHandler.py:47-50 | the callback draws the frame once; without one it raises TypeError |
| EarlyRender.RenderHandler.RenderSlider | plotplayer/ui/renderHandler.py:52-55 | behaves as `RenderSliderSpec` |
| EarlyRender.RenderHandler.HandleSliderChanged | plotplayer/ui/renderHandler.py:57-58 | behaves as `SliderChangedSpec` |
| EarlyRender.RenderHandler.SetSliderValue | plotplayer/ui/renderHandler.py:30-31 | behaves as `SetSliderSpec` |
| EarlyRender.RenderHandler.SetSliderVisible | plotplayer/ui/renderHandler.py:60-61 | the raw value is stored and the axes shown exactly when it is true |
| EarlyRender.RenderHandler.ToggleSlider | plotplayer/ui/renderHandler.py:63-64 | as written: the stored value becomes `~v`, the axes are shown exactly when that is true, and a slider shown by any value but -1 stays shown |
| EarlyRender.RenderHandler.ToggleSliderIntended | plotplayer/ui/renderHandler.py:63-64 | as intended: whether the slider is shown always flips |

## Left out

- Matplotlib and Tk themselves: figures, axes, their rectangles and colours, the canvas
  event loop, the window size. Only the calls the player makes are kept, as effects.
- `Animation.PlaySpec`, `LegacyPlayer.PlaySpec`, `Player.PlayAfterInitialize`,
  `Player.PlotPlayer.constructor`: the first draw of a new `FuncAnimation` is not modelled.
  Matplotlib starts an animation on the figure's next `draw_event`, and `play`'s own
  `canvas.draw()` (`managers/animation_manager.py:111`, `plotplayer/plotplayer.py:112`) fires
  one, so the first pending frame is rendered before `play` returns. The state after play
  omits that render: after the player's logo `play` (`plotplayer.py:64-65`) the animation
  manager would hold the clamped frame 0, where the model keeps -1. Later frames are modelled
  one timer period at a time, from the pending frames.
- `Animation.PlaySpec`, `LegacyPlayer.PlaySpec`: the playback record holds one animation. A
  `play` while an earlier animation is still running but no longer counted as playing (the
  single-class player after a re-initialization, the manager after `render` reached the last
  frame from outside the timer) replaces it in the model. In the source the old
  `FuncAnimation` is only dereferenced: its event source keeps firing and it keeps rendering
  its pending frames beside the new one, and `stop` cancels only the new one.
- `EarlyRender.SetSliderSpec`: the TypeError raised inside the slider's change notification
  propagates out of `set_val`. This follows Matplotlib versions whose Slider calls its
  observers directly. Newer versions dispatch them through a `CallbackRegistry` that prints
  the exception instead of raising it while a GUI event loop runs; there `set_val` returns
  normally and `render` goes on to its own draw, which raises.
- Constructors do not record the toolkit calls they make (the title, packing the toolbar,
  the initial slider visibility, the `mpl_connect` and `on_changed` connections). The
  single-class player's repeated `mpl_connect` on every re-initialization is not modelled.
- The render manager's slider notification is connected to the input manager's
  `_handle_slider_changed`. The two are modelled separately: a render's `set_val` does not
  run the input manager.
- `Player.PlayedAnimationScenario`: it holds for the animation and render managers alone, not
  for the assembled player. The player enables its input manager (`plotplayer.py:82`), whose
  `_handle_slider_changed` is the slider's observer (`managers/input_manager.py:212`). Every
  render that moves the slider (`managers/render_manager.py:140-141`) therefore calls
  `get_min_frame_number` on the animation manager, which does not define it
  (`Input.HomeAndSliderQueryMissingAccessors`). With Matplotlib calling observers directly, the
  AttributeError leaves the render before its draw, so in the assembled player those periods
  draw nothing.
- The save dialog and files. `get_save_dialog_result` is the `chosen` parameter of
  `Animation.AnimationManager.Save`. The contents of the exported video, HTML or JavaScript
  (`get_html`, `get_javascript`, `to_html5_video`, `to_jshtml`) and the writer are not
  modelled, and neither is `file_helper.save_file`.
- `show` and `show_players`, the `rcParams` key-map removals, `type_validation.py`,
  `ui/AnimationHandler.py`, `ui/inputHandler.py` and `ui/uiHelper.py` are not part of this
  model.
- The window manager's `get_figure`, and the render manager's `get_animation_axes`,
  `get_slider_axes` and `get_slider`: they return toolkit objects that are not modelled.
- Exceptions raised inside a draw callback or a custom handler. Callbacks are identities
  and always return.
- Floating point. Slider values and seek targets are exact reals, so
  `Input.SliderMapsBackWithOffset` holds exactly where floats could be off by rounding.
  `Toolkit.Trunc` does not model NaN or the infinities.
- `Animation.AnimationManager.GetFrameNumber`: it is a plain read of the field, with no
  contract of its own.
- `Animation.SaveSpec`: its contract states only the stop that comes first. The dialog and
  export steps are stated by the method `Animation.AnimationManager.Save`, whose `ensures` is
  the whole function.
- `Windowing.WindowManager.constructor`: the window title argument is accepted but not
  kept, since the manager has no title field.
- `LegacyPlayer.LegacyPlotPlayer.Save`: Matplotlib's `save`, `to_html5_video` and `to_jshtml`
  draw every exported frame through the player's own `render`, which moves the slider and, at
  the last frame, stops playback. The model exports without those renders; it states only
  what the save methods' own lines do.
- `LegacyPlayer.InitializeSpec`: the argument checks of `initializeAnimation`
  (`assertIsInt`, `assertIsFunction`) are not modelled; the parameters are typed, so a wrong
  type has no counterpart. In the source a non-integer raises AssertionError, and a
  non-callable `drawFunc` raises NameError, because the failure message uses an undefined name.
- `LegacyPlayer.LegacyPlotPlayer.constructor`: the `windowTitle`, `figure` and slider colour
  arguments are not modelled. Only `hideToolbar` is kept.
- `EarlyRender.RenderHandler.constructor`: the visibility is a Python integer standing for
  the value passed (True is 1, False is 0). Other truthy objects are not modelled.

## Findings

| source | as written | input that shows it | evidently intended | confidence | as-written member | corrected member |
|---|---|---|---|---|---|---|
| plotplayer/ui/renderHandler.py:63-64 | `toggleSlider` sets the visibility to `~get_visible()`, the bitwise complement | a handler built with `sliderVisible=True`; `toggleSlider()` stores -2, which is still true, and a second toggle stores 1: the slider is never hidden | `not get_visible()`, which flips whether the slider is shown | not executed | EarlyRender.TildeToggleNeverHidesShownSlider | EarlyRender.RenderHandler.ToggleSliderIntended |
