/** The render manager of plotplayer/managers/render_manager.py: it owns the scrubber slider
    (range [0, 1]), the slider's visibility and the external draw callback, and renders one
    frame out of a total by moving the slider to `frame / total` and calling the callback.
    The slider's change notification goes to the input manager, which is not followed here. */
module Rendering {
  import opened Toolkit

  const SliderMin: real := 0.0
  const SliderMax: real := 1.0
  const SliderInit: real := 0.0

  /** The render manager's state: the installed draw callback (None until `initialize`),
      the slider's value and whether the slider is shown. */
  datatype View = View(drawFunc: Option<DrawFunc>, sliderVal: real, sliderVisible: bool)

  /** `_render_slider`: the slider ends at `value`, and `set_val` is called only when the value
      it showed was different. */
  function SyncSlider(v: View, value: real): (r: Step<View>)
    ensures r.state == v.(sliderVal := value) && r.outcome == Done
    ensures r.effects == [] <==> v.sliderVal == value
    ensures r.effects != [] ==> r.effects == [SetSlider(value)]
  {
    if v.sliderVal == value then Step(v, [], Done)
    else Step(v.(sliderVal := value), [SetSlider(value)], Done)
  }

  /** `render(frame_num, total_frames)`. */
  function RenderView(v: View, frame: int, total: int): (r: Step<View>)
    // outside [0, total] nothing happens at all
    ensures frame < 0 || frame > total ==> r == Step(v, [], Done)
    // the callback and visibility are never changed by rendering
    ensures r.state.drawFunc == v.drawFunc && r.state.sliderVisible == v.sliderVisible
    // 0 <= frame <= total == 0: the division by the total raises before anything is done
    ensures 0 <= frame <= total && total == 0 ==> r == Step(v, [], Raised(ZeroDivisionError))
    // in range with a non-zero total: the slider ends at frame / total
    ensures 0 <= frame <= total && total != 0 ==>
              r.state.sliderVal == frame as real / total as real
    // in range with no callback installed: the slider still moves, then the call raises
    ensures 0 <= frame <= total && total != 0 && v.drawFunc.None? ==> r.outcome == Raised(TypeError)
  {
    if frame < 0 || frame > total then Step(v, [], Done)
    else if total == 0 then Step(v, [], Raised(ZeroDivisionError))
    else
      var s := SyncSlider(v, frame as real / total as real);
      match v.drawFunc
      case None => Step(s.state, s.effects, Raised(TypeError))
      case Some(f) => Step(s.state, s.effects + [Draw(f, frame)], Done)
  }

  /** An in-range render with a non-zero total and an installed callback draws exactly once,
      with the frame it was given and the latest callback, after at most one slider update. */
  lemma RenderInRangeDrawsOnce(v: View, frame: int, total: int)
    requires 0 <= frame <= total && total != 0 && v.drawFunc.Some?
    ensures var r := RenderView(v, frame, total);
            && r.outcome == Done
            && r.effects[|r.effects| - 1] == Draw(v.drawFunc.value, frame)
            && multiset(r.effects)[Draw(v.drawFunc.value, frame)] == 1
            && (r.effects[..|r.effects| - 1] == [] ||
                r.effects[..|r.effects| - 1] == [SetSlider(frame as real / total as real)])
  {
    var r := RenderView(v, frame, total);
    var s := SyncSlider(v, frame as real / total as real);
    assert r.effects == s.effects + [Draw(v.drawFunc.value, frame)];
    assert r.effects[..|r.effects| - 1] == s.effects;
  }

  /** Rendering the same frame twice moves the slider at most once: the second render finds
      the slider already at the value and does not call `set_val`. This is the guard that
      ends the slider -> render -> slider notification loop. */
  lemma RepeatedRenderSetsSliderOnce(v: View, frame: int, total: int)
    requires 0 <= frame <= total && total != 0
    ensures var second := RenderView(RenderView(v, frame, total).state, frame, total);
            forall e :: e in second.effects ==> !e.SetSlider?
  {
  }

  class RenderManager {
    var drawFunc: Option<DrawFunc>
    var sliderVal: real
    var sliderVisible: bool

    function Model(): View
      reads this
    {
      View(drawFunc, sliderVal, sliderVisible)
    }

    /** A new slider over [0, 1] at 0.0, shown unless asked otherwise; no callback yet. */
    constructor (sliderVisible: bool := true)
      ensures Model() == View(None, SliderInit, sliderVisible)
    {
      this.drawFunc := None;
      this.sliderVal := SliderInit;
      this.sliderVisible := sliderVisible;
    }

    /** `initialize(render_func)`: later renders call this callback. */
    method Initialize(f: DrawFunc)
      modifies this
      ensures Model() == old(Model()).(drawFunc := Some(f))
    {
      drawFunc := Some(f);
    }

    method Render(frame: int, total: int) returns (effects: seq<Effect>, outcome: Outcome)
      modifies this
      ensures Step(Model(), effects, outcome) == RenderView(old(Model()), frame, total)
    {
      if frame < 0 || frame > total {
        return [], Done;
      }
      if total == 0 {
        return [], Raised(ZeroDivisionError);
      }
      effects := RenderSlider(frame as real / total as real);
      var drawn;
      drawn, outcome := RenderFrame(frame);
      effects := effects + drawn;
    }

    /** `_render_frame`: the latest callback is called once with the frame; with none
        installed the call raises TypeError. */
    method RenderFrame(frame: int) returns (effects: seq<Effect>, outcome: Outcome)
      ensures drawFunc.Some? ==> effects == [Draw(drawFunc.value, frame)] && outcome == Done
      ensures drawFunc.None? ==> effects == [] && outcome == Raised(TypeError)
    {
      match drawFunc
      case None =>
        return [], Raised(TypeError);
      case Some(f) =>
        return [Draw(f, frame)], Done;
    }

    method RenderSlider(value: real) returns (effects: seq<Effect>)
      modifies this
      ensures Step(Model(), effects, Done) == SyncSlider(old(Model()), value)
    {
      effects := [];
      if sliderVal != value {
        sliderVal := value;
        effects := [SetSlider(value)];
      }
    }

    /** `set_slider_visible`: the axes are shown or hidden, the canvas redrawn, the flag kept. */
    method SetSliderVisible(visible: bool) returns (effects: seq<Effect>)
      modifies this
      ensures Model() == old(Model()).(sliderVisible := visible)
      ensures effects == [ShowSliderAxes(visible), RedrawCanvas]
    {
      sliderVisible := visible;
      effects := [ShowSliderAxes(visible), RedrawCanvas];
    }

    /** `toggle_slider`: the flag is negated, so two toggles restore it. */
    method ToggleSlider() returns (effects: seq<Effect>)
      modifies this
      ensures Model() == old(Model()).(sliderVisible := !old(sliderVisible))
      ensures effects == [ShowSliderAxes(sliderVisible), RedrawCanvas]
    {
      effects := SetSliderVisible(!sliderVisible);
    }
  }

  /** Toggling the slider twice leaves its visibility as it was. */
  method ToggleSliderTwiceRestores(m: RenderManager)
    modifies m
    ensures m.Model() == old(m.Model())
  {
    var first := m.ToggleSlider();
    var second := m.ToggleSlider();
  }
}
