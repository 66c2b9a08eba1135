/** The draft render handler of plotplayer/ui/render_handler.py. Its slider ranges over the frame
    numbers [0, totalFrames - 1], and its change notification is the handler's own
    `handleSliderChanged`, which renders; so, as in the earlier single-class player, moving the
    slider from inside `render` renders again, and the methods below are mutually recursive. */
module DraftRender {
  import opened Toolkit

  /** What `initializeRendering` installs: the slider's upper bound and the render callback. */
  datatype RenderSession = RenderSession(valmax: int, renderFunc: DrawFunc)

  /** The handler's fields: the session (None before `initializeRendering`), the slider's value,
      and the slider and toolbar visibility flags. */
  datatype DraftView = DraftView(session: Option<RenderSession>, sliderVal: real, sliderVisible: bool, toolbarVisible: bool)

  function RenderRank(v: DraftView, x: real): nat
  {
    if v.session.None? || Trunc(v.sliderVal) == SliderClamp(v.session.value.valmax, x) then 0 else 1
  }

  function SliderRank(v: DraftView, f: int): nat
    requires v.session.Some?
  {
    if Trunc(v.sliderVal) == f then 0
    else if SliderClamp(v.session.value.valmax, f as real) == f then 1
    else 2
  }

  /** `render(frameNumber)`: clamp into [0, valmax], update the slider, draw. */
  function RenderSpec(v: DraftView, x: real): (r: Step<DraftView>)
    ensures r.state.session == v.session
    ensures r.state.sliderVisible == v.sliderVisible && r.state.toolbarVisible == v.toolbarVisible
    ensures r.outcome.Raised? <==> v.session.None?
    decreases RenderRank(v, x), 2
  {
    match v.session
    case None => Step(v, [], Raised(AttributeError))
    case Some(s) =>
      var f := SliderClamp(s.valmax, x);
      SliderClampIdempotent(s.valmax, x);
      TruncOfWhole(f);
      var synced := RenderSliderSpec(v, f);
      Step(synced.state, synced.effects + [Draw(s.renderFunc, f)], Done)
  }

  /** `renderSlider(newSliderVal)`: `set_val` only when `int(slider.val)` differs. */
  function RenderSliderSpec(v: DraftView, f: int): (r: Step<DraftView>)
    requires v.session.Some?
    ensures r.state.session == v.session
    ensures r.state.sliderVisible == v.sliderVisible && r.state.toolbarVisible == v.toolbarVisible
    ensures r.outcome == Done
    ensures Trunc(v.sliderVal) == f ==> r == Step(v, [], Done)
    decreases SliderRank(v, f), 1
  {
    if Trunc(v.sliderVal) != f then SetSliderSpec(v, f as real) else Step(v, [], Done)
  }

  /** `handleSliderChanged(sliderValue)`: the raw value is rendered. */
  function SliderChangedSpec(v: DraftView, value: real): (r: Step<DraftView>)
    ensures r.state.session == v.session
    ensures r.state.sliderVisible == v.sliderVisible && r.state.toolbarVisible == v.toolbarVisible
    ensures r.outcome.Raised? <==> v.session.None?
    decreases RenderRank(v, value), 3
  {
    RenderSpec(v, value)
  }

  /** The slider's `set_val(value)`: the value is stored and `handleSliderChanged` notified. */
  function SetSliderSpec(v: DraftView, value: real): (r: Step<DraftView>)
    requires v.session.Some?
    ensures r.state.session == v.session
    ensures r.state.sliderVisible == v.sliderVisible && r.state.toolbarVisible == v.toolbarVisible
    ensures r.outcome == Done
    decreases RenderRank(v.(sliderVal := value), value), 4
  {
    var notified := SliderChangedSpec(v.(sliderVal := value), value);
    Step(notified.state, [SetSlider(value)] + notified.effects, notified.outcome)
  }

  /** `render` in closed form: the clamped frame is drawn once when the slider already shows it,
      and twice (after one `set_val`) when the slider has to move; the slider ends on it. */
  lemma {:induction false} RenderClosedForm(v: DraftView, x: real)
    requires v.session.Some?
    ensures var s := v.session.value;
            var f := SliderClamp(s.valmax, x);
            var r := RenderSpec(v, x);
            && r.outcome == Done
            && Trunc(r.state.sliderVal) == f
            && r.effects ==
                 if Trunc(v.sliderVal) == f then [Draw(s.renderFunc, f)]
                 else [SetSlider(f as real), Draw(s.renderFunc, f), Draw(s.renderFunc, f)]
  {
    var s := v.session.value;
    var f := SliderClamp(s.valmax, x);
    SliderClampIdempotent(s.valmax, x);
    TruncOfWhole(f);
    if Trunc(v.sliderVal) != f {
      var v1 := v.(sliderVal := f as real);
      assert RenderSliderSpec(v1, f) == Step(v1, [], Done);
      var inner := RenderSpec(v1, f as real);
      assert inner.effects == [Draw(s.renderFunc, f)];
      assert SliderChangedSpec(v1, f as real) == inner;
      var moved := SetSliderSpec(v, f as real);
      assert moved.effects == [SetSlider(f as real)] + inner.effects && moved.state == inner.state;
      assert RenderSliderSpec(v, f) == moved;
    }
  }

  /** Rendering is idempotent: rendering again what was just rendered leaves the slider alone
      and draws the frame exactly once. */
  lemma RenderAgainDrawsOnce(v: DraftView, x: real)
    requires v.session.Some?
    ensures var f := SliderClamp(v.session.value.valmax, x);
            var again := RenderSpec(RenderSpec(v, x).state, x);
            again.effects == [Draw(v.session.value.renderFunc, f)] && again.outcome == Done
  {
    RenderClosedForm(v, x);
    RenderClosedForm(RenderSpec(v, x).state, x);
  }

  /** `initializeRendering(totalFrames, renderFunc)`: a new slider over [0, totalFrames - 1]
      at 0.0 and the callback installed. */
  function InitializeSpec(v: DraftView, totalFrames: int, renderFunc: DrawFunc): (r: DraftView)
    ensures r.session == Some(RenderSession(totalFrames - 1, renderFunc)) && r.sliderVal == 0.0
    ensures r.sliderVisible == v.sliderVisible && r.toolbarVisible == v.toolbarVisible
  {
    v.(session := Some(RenderSession(totalFrames - 1, renderFunc)), sliderVal := 0.0)
  }

  /** After `initializeRendering(n, g)` with n >= 1 every render draws with g a frame in [0, n - 1]. */
  lemma RenderAfterInitializeDrawsInRange(v: DraftView, totalFrames: int, renderFunc: DrawFunc, x: real)
    requires totalFrames >= 1
    ensures var r := RenderSpec(InitializeSpec(v, totalFrames, renderFunc), x);
            && r.outcome == Done
            && r.effects[|r.effects| - 1].Draw?
            && r.effects[|r.effects| - 1].func == renderFunc
            && 0 <= r.effects[|r.effects| - 1].frame <= totalFrames - 1
  {
    RenderClosedForm(InitializeSpec(v, totalFrames, renderFunc), x);
  }

  class RenderHandler {
    var session: Option<RenderSession>
    var sliderVal: real
    var sliderVisible: bool
    var toolbarVisible: bool

    function Model(): DraftView
      reads this
    {
      DraftView(session, sliderVal, sliderVisible, toolbarVisible)
    }

    /** Slider shown and toolbar hidden unless asked otherwise; no slider yet. The toolkit calls
        the two setters make here are not recorded. */
    constructor (sliderVisible: bool := true, toolbarVisible: bool := false)
      ensures Model() == DraftView(None, 0.0, sliderVisible, toolbarVisible)
    {
      session := None;
      sliderVal := 0.0;
      this.sliderVisible := sliderVisible;
      this.toolbarVisible := toolbarVisible;
    }

    method InitializeRendering(totalFrames: int, renderFunc: DrawFunc)
      modifies this
      ensures Model() == InitializeSpec(old(Model()), totalFrames, renderFunc)
    {
      session := Some(RenderSession(totalFrames - 1, renderFunc));
      sliderVal := 0.0;
    }

    method Render(x: real) returns (effects: seq<Effect>, outcome: Outcome)
      modifies this
      ensures Step(Model(), effects, outcome) == RenderSpec(old(Model()), x)
      decreases RenderRank(Model(), x), 2
    {
      if session.None? {
        return [], Raised(AttributeError);
      }
      var f := SliderClamp(session.value.valmax, x);
      SliderClampIdempotent(session.value.valmax, x);
      TruncOfWhole(f);
      effects := RenderSlider(f);
      var drawn := RenderImage(f);
      effects := effects + drawn;
      outcome := Done;
    }

    /** `renderImage`: the callback draws the frame once. */
    method RenderImage(f: int) returns (effects: seq<Effect>)
      requires session.Some?
      ensures effects == [Draw(session.value.renderFunc, f)]
    {
      effects := [Draw(session.value.renderFunc, f)];
    }

    method RenderSlider(f: int) returns (effects: seq<Effect>)
      requires session.Some?
      modifies this
      ensures Step(Model(), effects, Done) == RenderSliderSpec(old(Model()), f)
      decreases SliderRank(Model(), f), 1
    {
      effects := [];
      if Trunc(sliderVal) != f {
        TruncOfWhole(f);
        SliderClampIdempotent(session.value.valmax, f as real);
        effects := SetSliderValue(f as real);
      }
    }

    method HandleSliderChanged(value: real) returns (effects: seq<Effect>, outcome: Outcome)
      modifies this
      ensures Step(Model(), effects, outcome) == SliderChangedSpec(old(Model()), value)
      decreases RenderRank(Model(), value), 3
    {
      effects, outcome := Render(value);
    }

    /** The slider's `set_val`, which notifies `handleSliderChanged`. */
    method SetSliderValue(value: real) returns (effects: seq<Effect>)
      requires session.Some?
      modifies this
      ensures Step(Model(), effects, Done) == SetSliderSpec(old(Model()), value)
      decreases RenderRank(Model().(sliderVal := value), value), 4
    {
      sliderVal := value;
      var notified, outcome := HandleSliderChanged(value);
      effects := [SetSlider(value)] + notified;
    }

    /** `setSliderVisible`: the axes are shown or hidden, the canvas redrawn, the flag kept. */
    method SetSliderVisible(visible: bool) returns (effects: seq<Effect>)
      modifies this
      ensures Model() == old(Model()).(sliderVisible := visible)
      ensures effects == [ShowSliderAxes(visible), RedrawCanvas]
    {
      sliderVisible := visible;
      effects := [ShowSliderAxes(visible), RedrawCanvas];
    }

    /** `toggleSlider`: the flag is negated. */
    method ToggleSlider() returns (effects: seq<Effect>)
      modifies this
      ensures Model() == old(Model()).(sliderVisible := !old(sliderVisible))
      ensures effects == [ShowSliderAxes(sliderVisible), RedrawCanvas]
    {
      effects := SetSliderVisible(!sliderVisible);
    }

    /** `setToolbarVisible`: the toolbar is packed or forgotten and the flag kept. */
    method SetToolbarVisible(visible: bool) returns (effects: seq<Effect>)
      modifies this
      ensures Model() == old(Model()).(toolbarVisible := visible)
      ensures effects == [ShowToolbar(visible)]
    {
      toolbarVisible := visible;
      effects := [ShowToolbar(visible)];
    }

    /** `toggleToolbar`: the flag is negated. */
    method ToggleToolbar() returns (effects: seq<Effect>)
      modifies this
      ensures Model() == old(Model()).(toolbarVisible := !old(toolbarVisible))
      ensures effects == [ShowToolbar(toolbarVisible)]
    {
      effects := SetToolbarVisible(!toolbarVisible);
    }
  }
}
