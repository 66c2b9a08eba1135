/** The earliest render handler, plotplayer/ui/renderHandler.py. Its slider exists from
    construction over [0, 1]; `initializeRendering` stretches it to [0, totalFrames] (one frame
    past the last) and resets it, which notifies `handleSliderChanged` with the callback that
    was installed before. The slider axes' visibility is stored as the raw Python value the
    handler passes (True is 1, False is 0), and the axes are shown when it is non-zero. */
module EarlyRender {
  import opened Toolkit

  const InitialValmax: int := 1

  /** The handler's state: the slider's bound and value, the render callback (None before
      `initializeRendering`), and the slider axes' stored visibility value. */
  datatype EarlyView = EarlyView(valmax: int, sliderVal: real, renderFunc: Option<DrawFunc>, visible: int)

  /** Python's truth value of the stored visibility. */
  predicate Shown(visible: int)
  {
    visible != 0
  }

  function RenderRank(v: EarlyView, x: real): nat
  {
    if Trunc(v.sliderVal) == SliderClamp(v.valmax, x) then 0 else 1
  }

  function SliderRank(v: EarlyView, f: int): nat
  {
    if Trunc(v.sliderVal) == f then 0
    else if SliderClamp(v.valmax, f as real) == f then 1
    else 2
  }

  /** `render(frameNumber)`: clamp into [0, valmax], update the slider, draw; before a callback is
      installed the draw raises TypeError (after the slider has moved). */
  function RenderSpec(v: EarlyView, x: real): (r: Step<EarlyView>)
    ensures r.state.valmax == v.valmax && r.state.renderFunc == v.renderFunc && r.state.visible == v.visible
    ensures r.outcome.Raised? <==> v.renderFunc.None?
    decreases RenderRank(v, x), 2
  {
    var f := SliderClamp(v.valmax, x);
    SliderClampIdempotent(v.valmax, x);
    TruncOfWhole(f);
    var synced := RenderSliderSpec(v, f);
    if synced.outcome.Raised? then synced
    else match v.renderFunc
      case None => Step(synced.state, synced.effects, Raised(TypeError))
      case Some(g) => Step(synced.state, synced.effects + [Draw(g, f)], Done)
  }

  /** `renderSlider(newSliderVal)`: `set_val` only when `int(slider.val)` differs. */
  function RenderSliderSpec(v: EarlyView, f: int): (r: Step<EarlyView>)
    ensures r.state.valmax == v.valmax && r.state.renderFunc == v.renderFunc && r.state.visible == v.visible
    ensures r.outcome.Raised? ==> v.renderFunc.None?
    ensures Trunc(v.sliderVal) == f ==> r == Step(v, [], Done)
    decreases SliderRank(v, f), 1
  {
    if Trunc(v.sliderVal) != f then SetSliderSpec(v, f as real) else Step(v, [], Done)
  }

  /** `render` in closed form: the slider ends on the frame clamped into [0, valmax]; with a
      callback the frame is drawn once when the slider already shows it, and twice (after one
      `set_val`) when the slider has to move; without one the slider still moves and the draw
      raises TypeError, inside the notification when the slider moved. */
  lemma {:induction false} RenderClosedForm(v: EarlyView, x: real)
    ensures var f := SliderClamp(v.valmax, x);
            var r := RenderSpec(v, x);
            && Trunc(r.state.sliderVal) == f
            && (v.renderFunc.Some? ==>
                  && r.outcome == Done
                  && r.effects ==
                       if Trunc(v.sliderVal) == f then [Draw(v.renderFunc.value, f)]
                       else [SetSlider(f as real), Draw(v.renderFunc.value, f), Draw(v.renderFunc.value, f)])
            && (v.renderFunc.None? ==>
                  && r.outcome == Raised(TypeError)
                  && r.effects == if Trunc(v.sliderVal) == f then [] else [SetSlider(f as real)])
  {
    var f := SliderClamp(v.valmax, x);
    SliderClampIdempotent(v.valmax, x);
    TruncOfWhole(f);
    if Trunc(v.sliderVal) != f {
      var v1 := v.(sliderVal := f as real);
      assert RenderSliderSpec(v1, f) == Step(v1, [], Done);
      var inner := RenderSpec(v1, f as real);
      assert inner.effects == (if v.renderFunc.Some? then [Draw(v.renderFunc.value, f)] else []);
      assert SliderChangedSpec(v1, f as real) == inner;
      var moved := SetSliderSpec(v, f as real);
      assert moved.effects == [SetSlider(f as real)] + inner.effects && moved.state == inner.state;
      assert RenderSliderSpec(v, f) == moved;
    }
  }

  /** `handleSliderChanged(sliderValue)`: the raw value is rendered. */
  function SliderChangedSpec(v: EarlyView, value: real): (r: Step<EarlyView>)
    ensures r.state.valmax == v.valmax && r.state.renderFunc == v.renderFunc && r.state.visible == v.visible
    ensures r.outcome.Raised? <==> v.renderFunc.None?
    decreases RenderRank(v, value), 3
  {
    RenderSpec(v, value)
  }

  /** The slider's `set_val(value)`: the value is stored and `handleSliderChanged` notified; an
      exception in the notification propagates. */
  function SetSliderSpec(v: EarlyView, value: real): (r: Step<EarlyView>)
    ensures r.state.valmax == v.valmax && r.state.renderFunc == v.renderFunc && r.state.visible == v.visible
    ensures r.outcome.Raised? <==> v.renderFunc.None?
    decreases RenderRank(v.(sliderVal := value), value), 4
  {
    var notified := SliderChangedSpec(v.(sliderVal := value), value);
    Step(notified.state, [SetSlider(value)] + notified.effects, notified.outcome)
  }

  /** The slider's `reset()`: back to the initial value 0.0 through `set_val`, if not there. */
  function ResetSpec(v: EarlyView): (r: Step<EarlyView>)
    ensures r.state.valmax == v.valmax && r.state.renderFunc == v.renderFunc && r.state.visible == v.visible
    ensures v.sliderVal == 0.0 ==> r == Step(v, [], Done)
  {
    if v.sliderVal != 0.0 then SetSliderSpec(v, 0.0) else Step(v, [], Done)
  }

  /** `initializeRendering(totalFrames, renderFunc)`: the bound becomes totalFrames, the slider is
      reset, and only then, if the reset did not raise, is the new callback installed. */
  function InitializeSpec(v: EarlyView, totalFrames: int, renderFunc: DrawFunc): (r: Step<EarlyView>)
    ensures r.state.valmax == totalFrames && r.state.visible == v.visible
    ensures r.outcome == Done ==> r.state.renderFunc == Some(renderFunc)
    ensures r.outcome.Raised? ==> r.state.renderFunc == v.renderFunc
  {
    var reset := ResetSpec(v.(valmax := totalFrames));
    if reset.outcome.Raised? then reset
    else Step(reset.state.(renderFunc := Some(renderFunc)), reset.effects, Done)
  }

  /** The reset in `initializeRendering` renders frame 0 with the callback installed before, not
      the new one; with no callback installed before, it raises and the new callback is not
      installed, though the slider is back at 0.0 so that a second call succeeds. */
  lemma InitializeResetUsesPreviousCallback(v: EarlyView, totalFrames: int, renderFunc: DrawFunc)
    requires v.sliderVal != 0.0 && totalFrames >= 0
    ensures var r := InitializeSpec(v, totalFrames, renderFunc);
            && (v.renderFunc.Some? ==>
                  r.outcome == Done && r.effects == [SetSlider(0.0), Draw(v.renderFunc.value, 0)])
            && (v.renderFunc.None? ==>
                  && r.outcome == Raised(TypeError) && r.state.renderFunc.None? && r.state.sliderVal == 0.0
                  && InitializeSpec(r.state, totalFrames, renderFunc) ==
                       Step(r.state.(valmax := totalFrames, renderFunc := Some(renderFunc)), [], Done))
  {
    var v1 := v.(valmax := totalFrames, sliderVal := 0.0);
    assert SliderClamp(totalFrames, 0.0) == 0;
    assert RenderSliderSpec(v1, 0) == Step(v1, [], Done);
    assert SliderChangedSpec(v1, 0.0) == RenderSpec(v1, 0.0);
  }

  /** Since the bound is totalFrames, the 'end' of the slider is one past the last frame: after
      `initializeRendering(n, g)` from a slider at 0.0, rendering n draws frame n. */
  lemma RenderReachesOnePastLast(v: EarlyView, totalFrames: int, renderFunc: DrawFunc)
    requires v.sliderVal == 0.0 && totalFrames >= 1
    ensures var init := InitializeSpec(v, totalFrames, renderFunc);
            var r := RenderSpec(init.state, totalFrames as real);
            && init.outcome == Done
            && r.outcome == Done
            && r.effects == [SetSlider(totalFrames as real), Draw(renderFunc, totalFrames), Draw(renderFunc, totalFrames)]
  {
    var init := InitializeSpec(v, totalFrames, renderFunc).state;
    var n := totalFrames;
    assert init == v.(valmax := n, renderFunc := Some(renderFunc));
    TruncOfWhole(0);
    TruncOfWhole(n);
    assert SliderClamp(n, n as real) == n;
    var v1 := init.(sliderVal := n as real);
    assert RenderSliderSpec(v1, n) == Step(v1, [], Done);
    var inner := RenderSpec(v1, n as real);
    assert inner.effects == [Draw(renderFunc, n)] && inner.outcome == Done;
    assert SliderChangedSpec(v1, n as real) == inner;
    var moved := SetSliderSpec(init, n as real);
    assert moved.effects == [SetSlider(n as real)] + inner.effects && moved.outcome == Done;
    assert RenderSliderSpec(init, n) == moved;
  }

  /** Python's `~v` on the stored visibility: `-v - 1`. */
  function Invert(visible: int): (r: int)
    // the complement is true for every stored value but -1, and undoes itself
    ensures Shown(r) <==> visible != -1
    ensures -r - 1 == visible
  {
    -visible - 1
  }

  /** The stored visibility after k `toggleSlider` calls as written. */
  function Toggled(visible: int, k: nat): (r: int)
    // only the stored value and its complement are ever reached
    ensures r == visible || r == Invert(visible)
    decreases k
  {
    if k == 0 then visible else Toggled(Invert(visible), k - 1)
  }

  /** From a shown slider stored as True, `~` alternates between -2 and 1, both true: however
      often it is toggled, the slider stays shown. */
  lemma {:induction false} TildeToggleNeverHidesShownSlider(k: nat)
    ensures Toggled(1, k) == (if k % 2 == 0 then 1 else -2)
    ensures Shown(Toggled(1, k))
  {
    if k >= 2 {
      TildeToggleNeverHidesShownSlider(k - 2);
      assert Toggled(1, k) == Toggled(1, k - 2);
    }
  }

  /** From a hidden slider stored as False, `~` happens to alternate between -1 and 0, so the
      toggle works for the default construction. */
  lemma {:induction false} TildeToggleFromHiddenAlternates(k: nat)
    ensures Toggled(0, k) == (if k % 2 == 0 then 0 else -1)
    ensures Shown(Toggled(0, k)) <==> k % 2 == 1
  {
    if k >= 2 {
      TildeToggleFromHiddenAlternates(k - 2);
      assert Toggled(0, k) == Toggled(0, k - 2);
    }
  }

  /** The toggle that was evidently intended, `not v`. */
  function Negated(visible: int): (r: int)
    ensures Shown(r) <==> !Shown(visible)
    ensures r == 0 || r == 1
  {
    if Shown(visible) then 0 else 1
  }

  class RenderHandler {
    var valmax: int
    var sliderVal: real
    var renderFunc: Option<DrawFunc>
    var visible: int

    function Model(): EarlyView
      reads this
    {
      EarlyView(valmax, sliderVal, renderFunc, visible)
    }

    /** A slider over [0, 1] at 0.0, no callback, and the axes hidden (False) unless asked
        otherwise. The toolkit call setting the visibility here is not recorded. */
    constructor (sliderVisible: int := 0)
      ensures Model() == EarlyView(InitialValmax, 0.0, None, sliderVisible)
    {
      valmax := InitialValmax;
      sliderVal := 0.0;
      renderFunc := None;
      visible := sliderVisible;
    }

    method InitializeRendering(totalFrames: int, renderFunc: DrawFunc) returns (effects: seq<Effect>, outcome: Outcome)
      modifies this
      ensures Step(Model(), effects, outcome) == InitializeSpec(old(Model()), totalFrames, renderFunc)
    {
      valmax := totalFrames;
      effects, outcome := Reset();
      if outcome.Raised? {
        return;
      }
      this.renderFunc := Some(renderFunc);
    }

    /** The slider's `reset()`. */
    method Reset() returns (effects: seq<Effect>, outcome: Outcome)
      modifies this
      ensures Step(Model(), effects, outcome) == ResetSpec(old(Model()))
    {
      if sliderVal != 0.0 {
        effects, outcome := SetSliderValue(0.0);
      } else {
        effects, outcome := [], Done;
      }
    }

    method Render(x: real) returns (effects: seq<Effect>, outcome: Outcome)
      modifies this
      ensures Step(Model(), effects, outcome) == RenderSpec(old(Model()), x)
      decreases RenderRank(Model(), x), 2
    {
      var f := SliderClamp(valmax, x);
      SliderClampIdempotent(valmax, x);
      TruncOfWhole(f);
      effects, outcome := RenderSlider(f);
      if outcome.Raised? {
        return;
      }
      var drawn;
      drawn, outcome := RenderImage(f);
      effects := effects + drawn;
    }

    /** `renderImage`: the callback draws the frame once, or raises TypeError when there is none. */
    method RenderImage(f: int) returns (effects: seq<Effect>, outcome: Outcome)
      ensures renderFunc.Some? ==> effects == [Draw(renderFunc.value, f)] && outcome == Done
      ensures renderFunc.None? ==> effects == [] && outcome == Raised(TypeError)
    {
      if renderFunc.None? {
        return [], Raised(TypeError);
      }
      return [Draw(renderFunc.value, f)], Done;
    }

    method RenderSlider(f: int) returns (effects: seq<Effect>, outcome: Outcome)
      modifies this
      ensures Step(Model(), effects, outcome) == RenderSliderSpec(old(Model()), f)
      decreases SliderRank(Model(), f), 1
    {
      effects, outcome := [], Done;
      if Trunc(sliderVal) != f {
        TruncOfWhole(f);
        SliderClampIdempotent(valmax, f as real);
        effects, outcome := SetSliderValue(f as real);
      }
    }

    method HandleSliderChanged(value: real) returns (effects: seq<Effect>, outcome: Outcome)
      modifies this
      ensures Step(Model(), effects, outcome) == SliderChangedSpec(old(Model()), value)
      decreases RenderRank(Model(), value), 3
    {
      effects, outcome := Render(value);
    }

    /** The slider's `set_val`, which notifies `handleSliderChanged`. */
    method SetSliderValue(value: real) returns (effects: seq<Effect>, outcome: Outcome)
      modifies this
      ensures Step(Model(), effects, outcome) == SetSliderSpec(old(Model()), value)
      decreases RenderRank(Model().(sliderVal := value), value), 4
    {
      sliderVal := value;
      var notified;
      notified, outcome := HandleSliderChanged(value);
      effects := [SetSlider(value)] + notified;
    }

    /** `setSliderVisible(visible)`: the raw value is stored on the axes. */
    method SetSliderVisible(visible: int) returns (effects: seq<Effect>)
      modifies this
      ensures Model() == old(Model()).(visible := visible)
      ensures effects == [ShowSliderAxes(Shown(visible))]
    {
      this.visible := visible;
      effects := [ShowSliderAxes(Shown(visible))];
    }

    /** `toggleSlider` as written: `~` of the stored value. */
    method ToggleSlider() returns (effects: seq<Effect>)
      modifies this
      ensures Model() == old(Model()).(visible := Invert(old(visible)))
      ensures Shown(old(visible)) && old(visible) != -1 ==> Shown(visible)
      ensures effects == [ShowSliderAxes(Shown(visible))]
    {
      effects := SetSliderVisible(-visible - 1);
    }

    /** `toggleSlider` as evidently intended: `not` of the stored value, which always flips
        whether the slider is shown. */
    method ToggleSliderIntended() returns (effects: seq<Effect>)
      modifies this
      ensures Model() == old(Model()).(visible := Negated(old(visible)))
      ensures Shown(visible) <==> !Shown(old(visible))
      ensures effects == [ShowSliderAxes(Shown(visible))]
    {
      effects := SetSliderVisible(if visible != 0 then 0 else 1);
    }
  }
}
