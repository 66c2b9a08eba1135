/** The earlier, single-class player of plotplayer/plotplayer/plotplayer.py. Its slider ranges
    over the frame numbers [0, totalFrames - 1] and its change notification is the player's own
    `render`, so moving the slider from inside `render` renders again: the methods below are
    mutually recursive, exactly as the source's calls are. */
module LegacyPlayer {
  import opened Toolkit

  const DefaultAnimationName: string := "plotplayer"
  const DefaultFrameRate: int := 30

  /** What `initializeAnimation` installs: the slider's upper bound, the draw callback, the
      animation name and the frame rate. */
  datatype Session = Session(valmax: int, drawFunc: DrawFunc, animationName: string, frameRate: int)

  /** The player's fields: the session (None before `initializeAnimation`), the slider's value
      (0.0 before), the playback and whether the toolbar is hidden. */
  datatype LegacyState = LegacyState(session: Option<Session>, sliderVal: real, playback: Playback, toolbarHidden: bool)

  /** The ranks that bound the render -> set_val -> render recursion: a render whose frame the
      slider already shows goes no deeper than `renderSlider`; one that moves the slider goes
      through one `set_val` whose own render finds the slider in place. */
  function RenderRank(st: LegacyState, x: real): nat
  {
    if st.session.None? || Trunc(st.sliderVal) == SliderClamp(st.session.value.valmax, x) then 0 else 1
  }

  function SliderRank(st: LegacyState, f: int): nat
    requires st.session.Some?
  {
    if Trunc(st.sliderVal) == f then 0
    else if SliderClamp(st.session.value.valmax, f as real) == f then 1
    else 2
  }

  function SetRank(st: LegacyState, v: real): nat
    requires st.session.Some?
  {
    if Trunc(v) == SliderClamp(st.session.value.valmax, v) then 0 else 1
  }

  /** `render(frameNumber)`: clamp, update the slider, draw. */
  function RenderSpec(st: LegacyState, x: real): (r: Step<LegacyState>)
    ensures r.state.session == st.session && r.state.toolbarHidden == st.toolbarHidden
    ensures !st.playback.Playing? ==> r.state.playback == st.playback
    ensures r.state.playback.CurrentTimer().Some? == st.playback.CurrentTimer().Some?
    ensures st.session.None? <==> r.outcome.Raised?
    decreases RenderRank(st, x), 2
  {
    match st.session
    case None => Step(st, [], Raised(AttributeError))
    case Some(s) =>
      var f := SliderClamp(s.valmax, x);
      SliderClampIdempotent(s.valmax, x);
      TruncOfWhole(f);
      var synced := RenderSliderSpec(st, f);
      Step(synced.state, synced.effects + [Draw(s.drawFunc, f)], Done)
  }

  /** `renderSlider(newFrameNumber)`: `set_val` only when `int(slider.val)` differs, then stop
      when the frame is the slider's upper bound. */
  function RenderSliderSpec(st: LegacyState, f: int): (r: Step<LegacyState>)
    requires st.session.Some?
    ensures r.state.session == st.session && r.state.toolbarHidden == st.toolbarHidden
    ensures !st.playback.Playing? ==> r.state.playback == st.playback
    ensures r.state.playback.CurrentTimer().Some? == st.playback.CurrentTimer().Some?
    ensures r.outcome == Done
    decreases SliderRank(st, f), 1
  {
    var moved := if Trunc(st.sliderVal) != f then SetSliderSpec(st, f as real) else Step(st, [], Done);
    if f == st.session.value.valmax then
      var stopped := StopPlayback(moved.state.playback);
      Step(moved.state.(playback := stopped.state), moved.effects + stopped.effects, Done)
    else moved
  }

  /** The slider's `set_val(v)`: the value is stored and the change notification, `render`, runs. */
  function SetSliderSpec(st: LegacyState, v: real): (r: Step<LegacyState>)
    requires st.session.Some?
    ensures r.state.session == st.session && r.state.toolbarHidden == st.toolbarHidden
    ensures !st.playback.Playing? ==> r.state.playback == st.playback
    ensures r.state.playback.CurrentTimer().Some? == st.playback.CurrentTimer().Some?
    ensures r.outcome == Done
    decreases SetRank(st, v), 3
  {
    var rendered := RenderSpec(st.(sliderVal := v), v);
    Step(rendered.state, [SetSlider(v)] + rendered.effects, rendered.outcome)
  }

  /** The effects of the stop `renderSlider` makes at the last frame. */
  function StopAtEnd(s: Session, pb: Playback, f: int): (r: seq<Effect>)
    ensures r == [CancelTimer] <==> f == s.valmax && pb.Playing?
    ensures r == [] <==> f != s.valmax || !pb.Playing?
  {
    if f == s.valmax then StopPlayback(pb).effects else []
  }

  /** `render` in closed form. A render whose frame the slider already shows draws once. A
      render that moves the slider draws the same frame twice: once from the `set_val`
      notification and once on its own. Either way the frame is the clamped one, the slider
      ends showing it, and playback is stopped when it is the last frame. */
  lemma {:induction false} RenderClosedForm(st: LegacyState, x: real)
    requires st.session.Some?
    ensures var s := st.session.value;
            var f := SliderClamp(s.valmax, x);
            var r := RenderSpec(st, x);
            && r.outcome == Done
            && Trunc(r.state.sliderVal) == f
            && r.state.playback == (if f == s.valmax then StopPlayback(st.playback).state else st.playback)
            && r.effects ==
                 if Trunc(st.sliderVal) == f then StopAtEnd(s, st.playback, f) + [Draw(s.drawFunc, f)]
                 else [SetSlider(f as real)] + StopAtEnd(s, st.playback, f) + [Draw(s.drawFunc, f), Draw(s.drawFunc, f)]
  {
    var s := st.session.value;
    var f := SliderClamp(s.valmax, x);
    SliderClampIdempotent(s.valmax, x);
    TruncOfWhole(f);
    if Trunc(st.sliderVal) != f {
      var st1 := st.(sliderVal := f as real);
      var inner := RenderSpec(st1, f as real);
      assert RenderSliderSpec(st1, f) ==
               if f == s.valmax then
                 Step(st1.(playback := StopPlayback(st.playback).state), StopPlayback(st.playback).effects, Done)
               else Step(st1, [], Done);
      assert inner.effects == StopAtEnd(s, st.playback, f) + [Draw(s.drawFunc, f)];
      var moved := SetSliderSpec(st, f as real);
      assert moved.effects == [SetSlider(f as real)] + inner.effects;
      if f == s.valmax {
        assert StopPlayback(moved.state.playback).effects == [];
      }
    }
  }

  /** `play`. */
  function PlaySpec(st: LegacyState): (r: Step<LegacyState>)
    ensures st.playback.Playing? ==> r == Step(st, [], Done)
  {
    if st.playback.Playing? then Step(st, [], Done)
    else match st.session
      case None => Step(st, [], Raised(AttributeError))
      case Some(s) =>
        if s.frameRate == 0 then Step(st, [], Raised(ZeroDivisionError))
        else
          var frames := Range(Trunc(st.sliderVal), s.valmax + 1);
          var interval := FloorDiv(1000, s.frameRate);
          Step(st.(playback := Playing(Timer(frames, interval, true))), [StartTimer(frames, interval), RedrawCanvas], Done)
  }

  /** `play` from a stopped, initialized player schedules the frames from the one the slider
      shows to the last one inclusive, without rewinding: at the last frame it schedules that
      frame alone. */
  lemma PlayDoesNotRewind(st: LegacyState)
    requires !st.playback.Playing? && st.session.Some? && st.session.value.frameRate > 0
    ensures var r := PlaySpec(st);
            var t := r.state.playback.timer;
            var start := Trunc(st.sliderVal);
            var valmax := st.session.value.valmax;
            && r.outcome == Done && r.state.playback.Playing? && t.running
            && |t.pending| == (if start <= valmax then valmax - start + 1 else 0)
            && (forall i :: 0 <= i < |t.pending| ==> t.pending[i] == start + i)
            && st.session.value.frameRate * t.interval <= 1000 < st.session.value.frameRate * (t.interval + 1)
            && (start == valmax ==> t.pending == [valmax])
  {
  }

  /** `stop`. */
  function StopSpec(st: LegacyState): (r: Step<LegacyState>)
    ensures !r.state.playback.Playing? && r.outcome == Done
    ensures !st.playback.Playing? ==> r == Step(st, [], Done)
  {
    var stopped := StopPlayback(st.playback);
    Step(st.(playback := stopped.state), stopped.effects, Done)
  }

  /** `togglePlayback`. */
  function ToggleSpec(st: LegacyState): (r: Step<LegacyState>)
    ensures r.state.session == st.session && r.state.sliderVal == st.sliderVal
    // while playing: one cancel, and stopped afterwards
    ensures st.playback.Playing? ==> r.effects == [CancelTimer] && !r.state.playback.Playing?
    // while stopped: a completed toggle starts exactly one animation and plays it
    ensures !st.playback.Playing? && r.outcome == Done ==>
              r.state.playback.Playing? && |r.effects| == 2 && r.effects[0].StartTimer?
  {
    if st.playback.Playing? then StopSpec(st) else PlaySpec(st)
  }

  /** `togglePlayback` flips the playing state whenever it completes, and raises only when asked
      to play before `initializeAnimation` or with frame rate 0. */
  lemma TogglePlaybackFlips(st: LegacyState)
    ensures ToggleSpec(st).outcome == Done ==> (ToggleSpec(st).state.playback.Playing? <==> !st.playback.Playing?)
    ensures ToggleSpec(st).outcome.Raised? <==>
              !st.playback.Playing? && (st.session.None? || st.session.value.frameRate == 0)
  {
  }

  /** `initializeAnimation`: a new slider over [0, totalFrames - 1] at 0.0, the callback, name
      and rate installed, and the playing flag cleared without stopping the animation. */
  function InitializeSpec(st: LegacyState, totalFrames: int, drawFunc: DrawFunc, animationName: string, frameRate: int): (r: LegacyState)
    ensures r.session == Some(Session(totalFrames - 1, drawFunc, animationName, frameRate))
    ensures r.sliderVal == 0.0 && r.toolbarHidden == st.toolbarHidden
    ensures !r.playback.Playing? && r.playback.CurrentTimer() == st.playback.CurrentTimer()
  {
    LegacyState(Some(Session(totalFrames - 1, drawFunc, animationName, frameRate)), 0.0,
                st.playback.Cleared(), st.toolbarHidden)
  }

  /** Re-initializing while playing orphans the animation: its timer keeps running, and since
      the player no longer counts as playing, `stop` does not cancel it. */
  lemma ReinitializeOrphansTimer(st: LegacyState, totalFrames: int, drawFunc: DrawFunc, animationName: string, frameRate: int)
    requires st.playback.Playing? && st.playback.timer.running
    ensures var r := InitializeSpec(st, totalFrames, drawFunc, animationName, frameRate);
            && r.playback.CurrentTimer().value.running
            && StopSpec(r).effects == []
            && StopSpec(r).state.playback.CurrentTimer().value.running
  {
  }

  /** One period of the animation: the next pending frame, if any, is rendered. */
  function TickSpec(st: LegacyState): (r: Step<LegacyState>)
    ensures r.state.session == st.session && r.state.toolbarHidden == st.toolbarHidden
    // a period never starts playback
    ensures r.state.playback.Playing? ==> st.playback.Playing?
    // a stopped or exhausted animation draws nothing and leaves the slider alone
    ensures var t := st.playback.CurrentTimer();
            !(t.Some? && t.value.running && t.value.pending != []) ==>
              r.effects == [] && r.outcome == Done && r.state.sliderVal == st.sliderVal
  {
    var (pb, next) := TimerStep(st.playback);
    match next
    case None => Step(st.(playback := pb), [], Done)
    case Some(f) => RenderSpec(st.(playback := pb), f as real)
  }

  /** `hideToolbar` / `showToolbar`: the toolbar is forgotten or packed and the flag recorded. */
  function SetToolbarHiddenSpec(st: LegacyState, hidden: bool): (r: Step<LegacyState>)
    ensures r.state == st.(toolbarHidden := hidden) && r.effects == [ShowToolbar(!hidden)]
  {
    Step(st.(toolbarHidden := hidden), [ShowToolbar(!hidden)], Done)
  }

  /** `toggleToolbar`. */
  function ToggleToolbarSpec(st: LegacyState): (r: Step<LegacyState>)
    ensures r.state.toolbarHidden == !st.toolbarHidden
  {
    if st.toolbarHidden then SetToolbarHiddenSpec(st, false) else SetToolbarHiddenSpec(st, true)
  }

  const LegacyStopKeys: seq<string> := ["left", "right", "end", "home"]

  /** The frame a seek key renders: one before or after the current one, the last, or 0. */
  function SeekTarget(key: string, current: int, valmax: int): (f: int)
    ensures key == "left" ==> f == current - 1
    ensures key == "right" ==> f == current + 1
    ensures key == "end" ==> f == valmax
    ensures key == "home" ==> f == 0
  {
    if key == "left" then current - 1
    else if key == "right" then current + 1
    else if key == "end" then valmax
    else 0
  }

  /** `handleKeyPress`: the seek keys stop first, then render the frame before or after the one
      the slider shows, the last frame or frame 0; space and enter toggle playback; 't' toggles
      the toolbar. Reading the slider before `initializeAnimation` raises. */
  function HandleKeyPressSpec(st: LegacyState, key: string): (r: Step<LegacyState>)
    // the slider is read first, so before `initializeAnimation` every key raises
    ensures st.session.None? ==> r == Step(st, [], Raised(AttributeError))
    ensures r.state.session == st.session
    // keys other than the seek keys, space, enter and 't' do nothing
    ensures st.session.Some? && key !in LegacyStopKeys + [" ", "enter", "t"] ==> r == Step(st, [], Done)
    // a seek key stops before anything else and leaves the player stopped
    ensures st.session.Some? && key in LegacyStopKeys ==>
              && |StopSpec(st).effects| <= |r.effects|
              && r.effects[..|StopSpec(st).effects|] == StopSpec(st).effects
              && !r.state.playback.Playing?
  {
    match st.session
    case None => Step(st, [], Raised(AttributeError))
    case Some(s) =>
      var current := Trunc(st.sliderVal);
      var stopped := if key in LegacyStopKeys then StopSpec(st) else Step(st, [], Done);
      var handled :=
        if key in LegacyStopKeys then RenderSpec(stopped.state, SeekTarget(key, current, s.valmax) as real)
        else if key in [" ", "enter"] then ToggleSpec(stopped.state)
        else if key == "t" then ToggleToolbarSpec(stopped.state)
        else Step(stopped.state, [], Done);
      Step(handled.state, stopped.effects + handled.effects, handled.outcome)
  }

  /** A seek key stops playback before its render and leaves the player stopped, showing the
      clamped target frame: frame 0 for 'home', the last frame for 'end'. */
  lemma SeekKeyStopsAndShows(st: LegacyState, key: string)
    requires st.session.Some? && key in LegacyStopKeys
    ensures var r := HandleKeyPressSpec(st, key);
            var s := st.session.value;
            var f := SliderClamp(s.valmax, SeekTarget(key, Trunc(st.sliderVal), s.valmax) as real);
            && r.outcome == Done
            && !r.state.playback.Playing?
            && r.effects[..|StopSpec(st).effects|] == StopSpec(st).effects
            && Trunc(r.state.sliderVal) == f
            && r.effects[|r.effects| - 1] == Draw(s.drawFunc, f)
  {
    var stopped := StopSpec(st);
    var target := SeekTarget(key, Trunc(st.sliderVal), st.session.value.valmax);
    var rendered := RenderSpec(stopped.state, target as real);
    assert HandleKeyPressSpec(st, key) == Step(rendered.state, stopped.effects + rendered.effects, rendered.outcome);
    RenderClosedForm(stopped.state, target as real);
  }

  /** Space and enter toggle playback and 't' toggles the toolbar, without stopping first; every
      other key that is not a seek key does nothing. */
  lemma NonSeekKeys(st: LegacyState, key: string)
    requires st.session.Some? && key !in LegacyStopKeys
    ensures key in [" ", "enter"] ==> HandleKeyPressSpec(st, key) == ToggleSpec(st)
    ensures key == "t" ==> HandleKeyPressSpec(st, key) == ToggleToolbarSpec(st)
    ensures key !in [" ", "enter", "t"] ==> HandleKeyPressSpec(st, key) == Step(st, [], Done)
  {
    assert [] + ToggleSpec(st).effects == ToggleSpec(st).effects;
    assert [] + ToggleToolbarSpec(st).effects == ToggleToolbarSpec(st).effects;
  }

  /** `handleMouseButtonDown`: a press inside the slider axes stops playback. */
  function MouseButtonDownSpec(st: LegacyState, inSliderAxes: bool): (r: Step<LegacyState>)
    ensures inSliderAxes ==> r == StopSpec(st)
    ensures !inSliderAxes ==> r == Step(st, [], Done)
  {
    if inSliderAxes then StopSpec(st) else Step(st, [], Done)
  }

  class LegacyPlotPlayer {
    var session: Option<Session>
    var sliderVal: real
    var playback: Playback
    var toolbarHidden: bool

    function Model(): LegacyState
      reads this
    {
      LegacyState(session, sliderVal, playback, toolbarHidden)
    }

    /** The figure, axes and window title are not modelled; the toolbar is hidden unless asked
        otherwise. */
    constructor (hideToolbar: bool := true)
      ensures Model() == LegacyState(None, 0.0, Idle(None), hideToolbar)
    {
      session := None;
      sliderVal := 0.0;
      playback := Idle(None);
      toolbarHidden := hideToolbar;
    }

    method InitializeAnimation(totalFrames: int, drawFunc: DrawFunc, animationName: string := DefaultAnimationName,
                               frameRate: int := DefaultFrameRate)
      modifies this
      ensures Model() == InitializeSpec(old(Model()), totalFrames, drawFunc, animationName, frameRate)
    {
      session := Some(Session(totalFrames - 1, drawFunc, animationName, frameRate));
      sliderVal := 0.0;
      playback := Idle(playback.CurrentTimer());
    }

    method Render(x: real) returns (effects: seq<Effect>, outcome: Outcome)
      modifies this
      ensures Step(Model(), effects, outcome) == RenderSpec(old(Model()), x)
      decreases RenderRank(Model(), x), 2
    {
      if session.None? {
        return [], Raised(AttributeError);
      }
      var f := SliderClamp(session.value.valmax, x);
      SliderClampIdempotent(session.value.valmax, x);
      TruncOfWhole(f);
      effects := RenderSlider(f);
      var drawn := RenderImage(f);
      effects := effects + drawn;
      outcome := Done;
    }

    /** `renderImage`: the callback draws the frame once. */
    method RenderImage(f: int) returns (effects: seq<Effect>)
      requires session.Some?
      ensures effects == [Draw(session.value.drawFunc, f)]
    {
      effects := [Draw(session.value.drawFunc, f)];
    }

    method RenderSlider(f: int) returns (effects: seq<Effect>)
      requires session.Some?
      modifies this
      ensures Step(Model(), effects, Done) == RenderSliderSpec(old(Model()), f)
      decreases SliderRank(Model(), f), 1
    {
      effects := [];
      if Trunc(sliderVal) != f {
        TruncOfWhole(f);
        SliderClampIdempotent(session.value.valmax, f as real);
        effects := SetSliderValue(f as real);
      }
      if f == session.value.valmax {
        var stopped := Stop();
        effects := effects + stopped;
      }
    }

    /** The slider's `set_val`, which notifies `render`. */
    method SetSliderValue(v: real) returns (effects: seq<Effect>)
      requires session.Some?
      modifies this
      ensures Step(Model(), effects, Done) == SetSliderSpec(old(Model()), v)
      decreases SetRank(Model(), v), 3
    {
      sliderVal := v;
      var rendered, outcome := Render(v);
      effects := [SetSlider(v)] + rendered;
    }

    method Play() returns (effects: seq<Effect>, outcome: Outcome)
      modifies this
      ensures Step(Model(), effects, outcome) == PlaySpec(old(Model()))
    {
      if playback.Playing? {
        return [], Done;
      }
      if session.None? {
        return [], Raised(AttributeError);
      }
      if session.value.frameRate == 0 {
        return [], Raised(ZeroDivisionError);
      }
      var frames := Range(Trunc(sliderVal), session.value.valmax + 1);
      var interval := FloorDiv(1000, session.value.frameRate);
      effects := [StartTimer(frames, interval), RedrawCanvas];
      playback := Playing(Timer(frames, interval, true));
      outcome := Done;
    }

    method Stop() returns (effects: seq<Effect>)
      modifies this
      ensures Step(Model(), effects, Done) == StopSpec(old(Model()))
    {
      if !playback.Playing? {
        return [];
      }
      playback := Idle(Some(playback.timer.(running := false)));
      effects := [CancelTimer];
    }

    method TogglePlayback() returns (effects: seq<Effect>, outcome: Outcome)
      modifies this
      ensures Step(Model(), effects, outcome) == ToggleSpec(old(Model()))
    {
      if playback.Playing? {
        effects := Stop();
        outcome := Done;
      } else {
        effects, outcome := Play();
      }
    }

    /** The animation's timer firing once. */
    method Tick() returns (effects: seq<Effect>, outcome: Outcome)
      modifies this
      ensures Step(Model(), effects, outcome) == TickSpec(old(Model()))
    {
      var next;
      playback, next := TimerStep(playback).0, TimerStep(playback).1;
      if next.None? {
        return [], Done;
      }
      effects, outcome := Render(next.value as real);
    }

    method HideToolbar() returns (effects: seq<Effect>)
      modifies this
      ensures Step(Model(), effects, Done) == SetToolbarHiddenSpec(old(Model()), true)
    {
      toolbarHidden := true;
      effects := [Effect.ShowToolbar(false)];
    }

    method ShowToolbar() returns (effects: seq<Effect>)
      modifies this
      ensures Step(Model(), effects, Done) == SetToolbarHiddenSpec(old(Model()), false)
    {
      toolbarHidden := false;
      effects := [Effect.ShowToolbar(true)];
    }

    method ToggleToolbar() returns (effects: seq<Effect>)
      modifies this
      ensures Step(Model(), effects, Done) == ToggleToolbarSpec(old(Model()))
    {
      if toolbarHidden {
        effects := ShowToolbar();
      } else {
        effects := HideToolbar();
      }
    }

    method HandleKeyPress(key: string) returns (effects: seq<Effect>, outcome: Outcome)
      modifies this
      ensures Step(Model(), effects, outcome) == HandleKeyPressSpec(old(Model()), key)
    {
      if session.None? {
        return [], Raised(AttributeError);
      }
      var current := Trunc(sliderVal);
      effects := [];
      if key in LegacyStopKeys {
        effects := Stop();
      }
      var more: seq<Effect> := [];
      outcome := Done;
      if key == "left" {
        more, outcome := Render((current - 1) as real);
      } else if key == "right" {
        more, outcome := Render((current + 1) as real);
      } else if key == "end" {
        more, outcome := Render(session.value.valmax as real);
      } else if key == "home" {
        more, outcome := Render(0.0);
      } else if key in [" ", "enter"] {
        more, outcome := TogglePlayback();
      } else if key == "t" {
        more := ToggleToolbar();
      }
      effects := effects + more;
    }

    method HandleMouseButtonDown(inSliderAxes: bool) returns (effects: seq<Effect>)
      modifies this
      ensures Step(Model(), effects, Done) == MouseButtonDownSpec(old(Model()), inSliderAxes)
    {
      effects := [];
      if inSliderAxes {
        effects := Stop();
      }
    }

    /** `saveVideo` / `saveHtml` / `saveJavascript`: the animation is exported as it is, without
        stopping playback; before any `play` there is no animation and the call raises. */
    method Save(kind: SaveKind, fileName: string) returns (effects: seq<Effect>, outcome: Outcome)
      ensures playback.CurrentTimer().None? ==> effects == [] && outcome == Raised(AttributeError)
      ensures playback.CurrentTimer().Some? ==> effects == [Export(kind, fileName)] && outcome == Done
    {
      if playback.CurrentTimer().None? {
        return [], Raised(AttributeError);
      }
      return [Export(kind, fileName)], Done;
    }
  }
}
