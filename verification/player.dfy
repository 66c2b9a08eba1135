/** The player of plotplayer/plotplayer.py: it wires a window, render, animation and input manager
    together (creating the ones it is not given), shows a one-frame logo animation, and
    initializes the managers for a user animation in a fixed order. */
module Player {
  import opened Toolkit
  import opened Params
  import opened Rendering
  import opened Windowing
  import opened Animation
  import opened Input

  /** Identity of the player's own no-op logo draw callback. */
  const LogoDrawFunc: DrawFunc := 0

  /** The parameters `initialize(total_frames, draw_func, animation_name)` builds. */
  function PlayerParams(totalFrames: int, animationName: Option<string>): (p: AnimationParams)
    ensures p == AnimationParams(0, totalFrames, 30, animationName)
  {
    NewAnimationParams(totalFrames, animationName := animationName)
  }

  /** The animation manager after `initialize`: its own `stop` runs after the player's and so
      finds nothing playing. */
  function PlayerInitializeSpec(a: AnimState, totalFrames: int, animationName: Option<string>): (r: Step<AnimState>)
    ensures r.outcome == Done && r.effects == StopSpec(a).effects
    ensures r.state == AnimState(Some(AnimationParams(0, totalFrames, 30, animationName)), Some(-1),
                                 StopSpec(a).state.playback)
  {
    var stopped := StopSpec(a);
    var init := InitializeSpec(stopped.state, PlayerParams(totalFrames, animationName));
    Step(init.state, stopped.effects + init.effects, Done)
  }

  /** An `n`-frame animation played from the start, as the animation and render managers see
      it: after `initialize(n, f)` and `play`, the timer delivers frames -1, 0, 1, ..., n, one
      per period. After k periods the frame shown is k - 2 (0 for the first two), and it is
      playing until frame n is shown at period n + 2; the period after that finds no frame left
      and the timer stops itself. The input manager, which the slider notifies on every render
      that moves it, is not part of this scenario: in the assembled player that notification
      asks the animation manager for `get_min_frame_number`, which it does not define
      (`Input.HomeAndSliderQueryMissingAccessors`). */
  lemma {:induction false} PlayedAnimationScenario(a: AnimState, v: View, n: int, k: nat)
    requires v.drawFunc.Some? && n > 0 && 0 < k <= n + 2
    ensures var init := PlayerInitializeSpec(a, n, None).state;
            var played := PlaySpec(init);
            var s := Stage(played.state, v);
            && played.outcome == Done
            && played.effects == [StartTimer(Range(-1, n + 1), 33), RedrawCanvas]
            && Ticks(s, k).anim.frameNum == Some(if k < 2 then 0 else k - 2)
            && (Ticks(s, k).anim.playback.Playing? <==> k < n + 2)
            && TickSpec(Ticks(s, n + 2)).state.anim.playback == Idle(Some(Timer([], 33, false)))
  {
    var p := AnimationParams(0, n, 30, None);
    var t := Timer(Range(-1, n + 1), 33, true);
    PlayAfterInitialize(a, n);
    var s := Stage(AnimState(Some(p), Some(-1), Playing(t)), v);
    TicksDeliverFrames(s, p, v.drawFunc.value, t, -1, k, k - 1);
    TicksDeliverFrames(s, p, v.drawFunc.value, t, -1, n + 2, n + 1);
    assert Range(n + 1, n + 1) == [];
  }

  /** `play` right after `initialize(n, f)` rewinds nothing (the frame is already -1) and starts
      a timer over every frame from -1 to n at 1000 // 30 = 33 milliseconds. */
  lemma PlayAfterInitialize(a: AnimState, n: int)
    requires n > 0
    ensures var played := PlaySpec(PlayerInitializeSpec(a, n, None).state);
            && played.outcome == Done
            && played.effects == [StartTimer(Range(-1, n + 1), 33), RedrawCanvas]
            && played.state == AnimState(Some(AnimationParams(0, n, 30, None)), Some(-1),
                                         Playing(Timer(Range(-1, n + 1), 33, true)))
  {
  }

  class PlotPlayer {
    const window: WindowManager
    const renderer: RenderManager
    const animation: AnimationManager
    const input: InputManager

    /** Managers that are given are used as they are; only the missing ones are created, each on
        the ones before it. It ends with the one-frame logo animation initialized and playing. */
    constructor (window: WindowManager? := null, renderer: RenderManager? := null,
                 animation: AnimationManager? := null, input: InputManager? := null)
      modifies renderer, animation, input
      ensures window != null ==> this.window == window
      ensures renderer != null ==> this.renderer == renderer
      ensures animation != null ==> this.animation == animation
      ensures input != null ==> this.input == input
      ensures window == null ==> fresh(this.window)
      ensures renderer == null ==> fresh(this.renderer)
      ensures animation == null ==> fresh(this.animation) && this.animation.renderer == this.renderer
      ensures input == null ==> fresh(this.input)
      ensures this.renderer.drawFunc == Some(LogoDrawFunc) && this.input.enabled
      ensures this.animation.Model() ==
                AnimState(Some(AnimationParams(0, 1, 30, None)), Some(-1), Playing(Timer([-1, 0, 1], 33, true)))
    {
      var w := WindowOrNew(window);
      var rm := RendererOrNew(renderer);
      var am := AnimationOrNew(animation, rm);
      var im := InputOrNew(input);
      this.window := w;
      this.renderer := rm;
      this.animation := am;
      this.input := im;
      new;
      var effects, outcome := Initialize(1, LogoDrawFunc);
      ghost var logo := AnimationParams(0, 1, 30, None);
      assert this.animation.params == Some(logo) && this.animation.frameNum == Some(-1);
      assert !this.animation.playback.Playing?;
      assert Range(-1, 2) == [-1, 0, 1];
      effects, outcome := Play();
    }

    /** `initialize(total_frames, draw_func, animation_name=None)`: stop, install the draw
        callback, build the parameters, initialize the animation manager, enable input. */
    method Initialize(totalFrames: int, drawFunc: DrawFunc, animationName: Option<string> := None)
      returns (effects: seq<Effect>, outcome: Outcome)
      modifies animation, renderer, input
      ensures Step(animation.Model(), effects, outcome) ==
                PlayerInitializeSpec(old(animation.Model()), totalFrames, animationName)
      ensures renderer.Model() == old(renderer.Model()).(drawFunc := Some(drawFunc))
      ensures input.Model() == old(input.Model()).(enabled := true)
    {
      effects := Stop();
      renderer.Initialize(drawFunc);
      var params := NewAnimationParams(totalFrames, animationName := animationName);
      var more := animation.Initialize(params);
      effects := effects + more;
      input.SetEnabled(true);
      outcome := Done;
    }

    /** `play`: delegated once to the animation manager. */
    method Play() returns (effects: seq<Effect>, outcome: Outcome)
      modifies animation
      ensures Step(animation.Model(), effects, outcome) == PlaySpec(old(animation.Model()))
    {
      effects, outcome := animation.Play();
    }

    /** `stop`: delegated once to the animation manager. */
    method Stop() returns (effects: seq<Effect>)
      modifies animation
      ensures Step(animation.Model(), effects, Done) == StopSpec(old(animation.Model()))
    {
      effects := animation.Stop();
    }
  }

  /** The given window manager, or a new one with the default title and toolbar. */
  method WindowOrNew(given: WindowManager?) returns (w: WindowManager)
    ensures given != null ==> w == given
    ensures given == null ==> fresh(w)
  {
    if given == null {
      w := new WindowManager();
    } else {
      w := given;
    }
  }

  /** The given render manager, or a new one with the slider shown. */
  method RendererOrNew(given: RenderManager?) returns (rm: RenderManager)
    ensures given != null ==> rm == given
    ensures given == null ==> fresh(rm)
  {
    if given == null {
      rm := new RenderManager();
    } else {
      rm := given;
    }
  }

  /** The given animation manager, or a new one rendering through `rm`. */
  method AnimationOrNew(given: AnimationManager?, rm: RenderManager) returns (am: AnimationManager)
    ensures given != null ==> am == given
    ensures given == null ==> fresh(am) && am.renderer == rm
  {
    if given == null {
      am := new AnimationManager(rm);
    } else {
      am := given;
    }
  }

  /** The given input manager, or a new disabled one with the default sizes. */
  method InputOrNew(given: InputManager?) returns (im: InputManager)
    ensures given != null ==> im == given
    ensures given == null ==> fresh(im)
  {
    if given == null {
      im := new InputManager();
    } else {
      im := given;
    }
  }
}
