/** The animation manager of plotplayer/managers/animation_manager.py: the current frame, the
    playing flag and the frame animation, driving the render manager it was built with. */
module Animation {
  import opened Toolkit
  import opened Params
  import opened Rendering

  const VideoExtension: string := ".mp4"
  const HtmlExtension: string := ".html"
  const JavascriptExtension: string := ".js.html"

  function Extension(kind: SaveKind): string
  {
    match kind
    case Video => VideoExtension
    case Html => HtmlExtension
    case Javascript => JavascriptExtension
  }

  /** The manager's own fields: the parameters (None before `initialize`), the frame number
      (None before `initialize`, as in the source) and the playback. */
  datatype AnimState = AnimState(params: Option<AnimationParams>, frameNum: Option<int>, playback: Playback)

  /** The animation manager together with the render manager it renders through. */
  datatype Stage = Stage(anim: AnimState, view: View)

  /** The frame `render` settles on before truncation: the bound for an input outside it. */
  function ClampFrame(p: AnimationParams, x: real): (y: real)
    ensures x < p.minFrameNumber as real ==> y == p.minFrameNumber as real
    ensures p.minFrameNumber as real <= x && p.maxFrameNumber as real < x ==> y == p.maxFrameNumber as real
    ensures p.minFrameNumber as real <= x <= p.maxFrameNumber as real ==> y == x
  {
    if x < p.minFrameNumber as real then p.minFrameNumber as real
    else if x > p.maxFrameNumber as real then p.maxFrameNumber as real
    else x
  }

  /** The frame number `render` stores: `int()` of the clamped input. */
  function StoredFrame(p: AnimationParams, x: real): (f: int)
    // an input below the first frame stores the first frame, one above the last the last
    ensures x < p.minFrameNumber as real ==> f == p.minFrameNumber
    ensures x > p.maxFrameNumber as real && x >= p.minFrameNumber as real ==> f == p.maxFrameNumber
    // an input in range is truncated toward zero
    ensures p.minFrameNumber as real <= x <= p.maxFrameNumber as real ==> f == Trunc(x)
  {
    TruncOfWhole(p.minFrameNumber);
    TruncOfWhole(p.maxFrameNumber);
    Trunc(ClampFrame(p, x))
  }

  /** For a well-formed range the stored frame always lies in [min, max]. */
  lemma StoredFrameWithinRange(p: AnimationParams, x: real)
    requires p.minFrameNumber <= p.maxFrameNumber
    ensures p.minFrameNumber <= StoredFrame(p, x) <= p.maxFrameNumber
  {
    var y := ClampFrame(p, x);
    if y >= 0.0 {
      assert Trunc(y) == y.Floor;
    } else {
      assert Trunc(y) == -((-y).Floor);
    }
  }

  /** A whole-number input is stored as itself when in range and as the nearest bound when not. */
  lemma StoredFrameOfWhole(p: AnimationParams, n: int)
    ensures StoredFrame(p, n as real) ==
              if n < p.minFrameNumber then p.minFrameNumber
              else if n > p.maxFrameNumber then p.maxFrameNumber
              else n
  {
    TruncOfWhole(n);
    TruncOfWhole(p.minFrameNumber);
    TruncOfWhole(p.maxFrameNumber);
  }

  /** `render(frame_num)`. */
  function RenderSpec(s: Stage, x: real): (r: Step<Stage>)
    ensures s.anim.params.None? ==> r == Step(s, [], Raised(AttributeError))
    ensures s.anim.params.Some? ==>
              var p := s.anim.params.value;
              var f := StoredFrame(p, x);
              var forwarded := RenderView(s.view, f, p.maxFrameNumber - p.minFrameNumber);
              // the stored frame is forwarded, with the total max - min, to the render manager
              && r.state.anim.frameNum == Some(f)
              && r.state.anim.params == s.anim.params
              && Step(r.state.view, r.effects, r.outcome) == forwarded
              // the playing flag is cleared exactly when the stored frame is the last one;
              // the timer is left running either way
              && r.state.anim.playback.CurrentTimer() == s.anim.playback.CurrentTimer()
              && (r.state.anim.playback.Playing? <==>
                    s.anim.playback.Playing? && (f != p.maxFrameNumber || forwarded.outcome.Raised?))
  {
    match s.anim.params
    case None => Step(s, [], Raised(AttributeError))
    case Some(p) =>
      var f := StoredFrame(p, x);
      var v := RenderView(s.view, f, p.maxFrameNumber - p.minFrameNumber);
      var pb := if v.outcome == Done && f == p.maxFrameNumber then s.anim.playback.Cleared()
                else s.anim.playback;
      Step(Stage(AnimState(s.anim.params, Some(f), pb), v.state), v.effects, v.outcome)
  }

  /** `play`. */
  function PlaySpec(a: AnimState): (r: Step<AnimState>)
    // while playing: nothing changes and no second timer is created
    ensures a.playback.Playing? ==> r == Step(a, [], Done)
    ensures r.state.params == a.params
  {
    if a.playback.Playing? then Step(a, [], Done)
    else match a.params
      case None => Step(a, [], Raised(AttributeError))
      case Some(p) =>
        match a.frameNum
        case None => Step(a, [], Raised(TypeError))
        case Some(n) =>
          var start := if n == p.maxFrameNumber then -1 else n;
          var rewound := a.(frameNum := Some(start));
          if p.frameRate == 0 then Step(rewound, [], Raised(ZeroDivisionError))
          else
            var frames := Range(start, p.maxFrameNumber + 1);
            var interval := FloorDiv(1000, p.frameRate);
            Step(rewound.(playback := Playing(Timer(frames, interval, true))),
                 [StartTimer(frames, interval), RedrawCanvas], Done)
  }

  /** `stop`. */
  function StopSpec(a: AnimState): (r: Step<AnimState>)
    ensures r.outcome == Done && !r.state.playback.Playing?
    ensures r.state.params == a.params && r.state.frameNum == a.frameNum
    ensures !a.playback.Playing? ==> r == Step(a, [], Done)
    ensures a.playback.Playing? ==>
              r.effects == [CancelTimer] && r.state.playback == Idle(Some(a.playback.timer.(running := false)))
  {
    var st := StopPlayback(a.playback);
    Step(a.(playback := st.state), st.effects, Done)
  }

  /** `toggle_playback`. */
  function ToggleSpec(a: AnimState): (r: Step<AnimState>)
    ensures r.state.params == a.params
    // while playing: one cancel, and stopped afterwards
    ensures a.playback.Playing? ==> r.effects == [CancelTimer] && !r.state.playback.Playing?
    // while stopped: a completed toggle starts exactly one animation and plays it
    ensures !a.playback.Playing? && r.outcome == Done ==>
              r.state.playback.Playing? && |r.effects| == 2 && r.effects[0].StartTimer?
  {
    if a.playback.Playing? then StopSpec(a) else PlaySpec(a)
  }

  /** `initialize(params)`: stop, install the parameters, rewind to frame -1, not playing. */
  function InitializeSpec(a: AnimState, p: AnimationParams): (r: Step<AnimState>)
    ensures r.state.params == Some(p) && r.state.frameNum == Some(-1)
    ensures !r.state.playback.Playing? && r.outcome == Done
    ensures r.effects == StopSpec(a).effects
  {
    var st := StopSpec(a);
    Step(AnimState(Some(p), Some(-1), st.state.playback), st.effects, Done)
  }

  /** One period of the frame animation: the next pending frame, if any, is rendered. */
  function TickSpec(s: Stage): (r: Step<Stage>)
    ensures r.state.anim.params == s.anim.params
    // a period never starts playback
    ensures r.state.anim.playback.Playing? ==> s.anim.playback.Playing?
    // a stopped or exhausted animation draws nothing
    ensures var t := s.anim.playback.CurrentTimer();
            !(t.Some? && t.value.running && t.value.pending != []) ==>
              r.effects == [] && r.outcome == Done && r.state.view == s.view
    // a running one drops the frame it delivers from its pending frames
    ensures var t := s.anim.playback.CurrentTimer();
            t.Some? && t.value.running && t.value.pending != [] ==>
              r.state.anim.playback.CurrentTimer() == Some(t.value.(pending := t.value.pending[1..]))
  {
    var (pb, next) := TimerStep(s.anim.playback);
    var s1 := s.(anim := s.anim.(playback := pb));
    match next
    case None => Step(s1, [], Done)
    case Some(f) => RenderSpec(s1, f as real)
  }

  /** The stage after `k` periods of the frame animation. */
  function Ticks(s: Stage, k: nat): Stage
    decreases k
  {
    if k == 0 then s else Ticks(TickSpec(s).state, k - 1)
  }

  /** The default file name a save without a file name offers: the animation name with the
      format's extension; a None name makes the concatenation raise TypeError. */
  function DefaultFileName(p: AnimationParams, kind: SaveKind): (r: Result<string>)
    ensures p.animationName.None? ==> r == Err(TypeError)
    ensures p.animationName.Some? ==> r == Ok(p.animationName.value + Extension(kind))
  {
    match p.animationName
    case None => Err(TypeError)
    case Some(name) => Ok(name + Extension(kind))
  }

  /** `save_video` / `save_html` / `save_javascript`: stop first; then, with no file name, the
      dialog is offered the default name and `chosen` is the file it answers with; then the
      animation is exported. */
  function SaveSpec(a: AnimState, kind: SaveKind, fileName: Option<string>, chosen: string): (r: Step<AnimState>)
    ensures r.state == StopSpec(a).state
    ensures |r.effects| >= |StopSpec(a).effects| && r.effects[..|StopSpec(a).effects|] == StopSpec(a).effects
  {
    var st := StopSpec(a);
    var target: Result<string> :=
      match fileName
      case Some(f) => Ok(f)
      case None =>
        match a.params
        case None => Err(AttributeError)
        case Some(p) => DefaultFileName(p, kind);
    var asked := if fileName.None? && target.Ok? then [AskSaveFile(target.value)] else [];
    match target
    case Err(e) => Step(st.state, st.effects, Raised(e))
    case Ok(offered) =>
      var file := if fileName.Some? then fileName.value else chosen;
      match st.state.playback.CurrentTimer()
      case None => Step(st.state, st.effects + asked, Raised(AttributeError))
      case Some(_) => Step(st.state, st.effects + asked + [Export(kind, file)], Done)
  }

  /** `play` from a stopped, initialized manager with a non-zero rate schedules, in order, every
      frame from the start frame to the last one inclusive, where the start frame is the current
      one, or -1 when the current one is the last; the interval is `1000 // frame_rate`
      milliseconds, and the timer is started before the canvas is drawn. */
  lemma PlaySchedulesRemainingFrames(a: AnimState)
    requires !a.playback.Playing? && a.params.Some? && a.frameNum.Some?
    requires a.params.value.frameRate > 0
    ensures var p := a.params.value;
            var start := if a.frameNum.value == p.maxFrameNumber then -1 else a.frameNum.value;
            var r := PlaySpec(a);
            && r.outcome == Done
            && r.state.frameNum == Some(start)
            && r.state.playback.Playing?
            && var t := r.state.playback.timer;
            && t.running
            && |t.pending| == (if start <= p.maxFrameNumber then p.maxFrameNumber - start + 1 else 0)
            && (forall i :: 0 <= i < |t.pending| ==> t.pending[i] == start + i)
            && p.frameRate * t.interval <= 1000 < p.frameRate * t.interval + p.frameRate
            && r.effects == [StartTimer(t.pending, t.interval), RedrawCanvas]
  {
  }

  /** `toggle_playback`: when it completes, the playing flag is the opposite of what it was;
      it raises only when asked to play a manager that is not initialized or has rate 0. */
  lemma TogglePlaybackFlips(a: AnimState)
    ensures ToggleSpec(a).outcome == Done ==>
              (ToggleSpec(a).state.playback.Playing? <==> !a.playback.Playing?)
    ensures ToggleSpec(a).outcome.Raised? <==>
              !a.playback.Playing? &&
              (a.params.None? || a.frameNum.None? || a.params.value.frameRate == 0)
  {
  }

  /** Rendering the last frame while playing clears the playing flag but leaves the timer
      running; a `stop` after that finds nothing playing and cancels nothing. */
  lemma RenderAtMaxKeepsTimer(s: Stage)
    requires s.anim.params.Some? && s.view.drawFunc.Some? && s.anim.playback.Playing?
    requires 0 == s.anim.params.value.minFrameNumber < s.anim.params.value.maxFrameNumber
    ensures var r := RenderSpec(s, s.anim.params.value.maxFrameNumber as real);
            && r.outcome == Done
            && !r.state.anim.playback.Playing?
            && r.state.anim.playback.CurrentTimer() == Some(s.anim.playback.timer)
            && StopSpec(r.state.anim).effects == []
  {
    StoredFrameOfWhole(s.anim.params.value, s.anim.params.value.maxFrameNumber);
  }

  /** With a first frame above 0, the frame number is passed to the render manager unshifted
      while the total is `max - min`, so the last frame lies outside the render manager's range:
      rendering it draws nothing, yet still clears the playing flag. */
  lemma OffsetLastFrameNotDrawn(s: Stage)
    requires s.anim.params.Some? && 0 < s.anim.params.value.minFrameNumber <= s.anim.params.value.maxFrameNumber
    ensures var r := RenderSpec(s, s.anim.params.value.maxFrameNumber as real);
            && r.effects == [] && r.outcome == Done && r.state.view == s.view
            && !r.state.anim.playback.Playing?
  {
    StoredFrameOfWhole(s.anim.params.value, s.anim.params.value.maxFrameNumber);
  }

  /** `range(a + 1, hi)` is `range(a, hi)` without its first element. */
  lemma RangeTail(a: int, hi: int)
    requires a < hi
    ensures Range(a, hi)[1..] == Range(a + 1, hi)
  {
  }

  /** A stage of the frame animation over the parameters `p`, drawing with `g`, whose timer `t`
      still has the frames from `next` to the last one pending. */
  predicate Delivering(s: Stage, p: AnimationParams, g: DrawFunc, t: Timer, next: int)
  {
    && s.anim.params == Some(p) && s.view.drawFunc == Some(g)
    && s.anim.playback.CurrentTimer() == Some(t.(pending := Range(next, p.maxFrameNumber + 1)))
  }

  /** The frame animation over frames 0..n (n > 0), with `next` the first frame still pending:
      each of the next `k` periods renders one frame, so afterwards (`upto` being `next + k`) the
      stored frame is the last frame delivered (with -1 clamped to 0), the pending frames are
      the ones from `upto` on, and the playing flag is still set exactly when the frame
      delivered last is not the last one. */
  lemma {:induction false} TicksDeliverFrames(s: Stage, p: AnimationParams, g: DrawFunc, t: Timer, next: int, k: nat, upto: int)
    requires Delivering(s, p, g, t, next) && t.running
    requires p.minFrameNumber == 0 < p.maxFrameNumber
    requires -1 <= next && upto == next + k <= p.maxFrameNumber + 1
    ensures Delivering(Ticks(s, k), p, g, t, upto)
    ensures k > 0 ==> Ticks(s, k).anim.frameNum == Some(if upto - 1 < 0 then 0 else upto - 1)
    ensures Ticks(s, k).anim.playback.Playing? <==>
              s.anim.playback.Playing? && (k == 0 || upto - 1 < p.maxFrameNumber)
    decreases k
  {
    if k > 0 {
      var s1 := TickDeliversNext(s, p, g, t, next, k);
      TicksDeliverFrames(s1, p, g, t, next + 1, k - 1, upto);
    }
  }

  /** One period of the frame animation over frames 0..n, with `next` the first frame pending:
      it renders `next` (stored as 0 when it is -1), drops it from the pending frames, and
      clears the playing flag exactly when it is the last frame. The stage it leads to is
      returned, so that `k` periods are this one and `k - 1` more. */
  lemma TickDeliversNext(s: Stage, p: AnimationParams, g: DrawFunc, t: Timer, next: int, k: nat) returns (r: Stage)
    requires Delivering(s, p, g, t, next) && t.running
    requires p.minFrameNumber == 0 < p.maxFrameNumber
    requires -1 <= next <= p.maxFrameNumber && k > 0
    ensures Ticks(s, k) == Ticks(r, k - 1)
    ensures Delivering(r, p, g, t, next + 1)
    ensures r.anim.frameNum == Some(if next < 0 then 0 else next)
    ensures r.anim.playback.Playing? <==> s.anim.playback.Playing? && next < p.maxFrameNumber
  {
    RangeTail(next, p.maxFrameNumber + 1);
    StoredFrameOfWhole(p, next);
    r := TickSpec(s).state;
  }

  class AnimationManager {
    const renderer: RenderManager
    var params: Option<AnimationParams>
    var frameNum: Option<int>
    var playback: Playback

    function Model(): AnimState
      reads this
    {
      AnimState(params, frameNum, playback)
    }

    function StageModel(): Stage
      reads this, renderer
    {
      Stage(Model(), renderer.Model())
    }

    constructor (renderer: RenderManager)
      ensures this.renderer == renderer && Model() == AnimState(None, None, Idle(None))
    {
      this.renderer := renderer;
      this.params := None;
      this.frameNum := None;
      this.playback := Idle(None);
    }

    method Initialize(p: AnimationParams) returns (effects: seq<Effect>)
      modifies this
      ensures Step(Model(), effects, Done) == InitializeSpec(old(Model()), p)
    {
      effects := Stop();
      params := Some(p);
      frameNum := Some(-1);
      playback := Idle(playback.CurrentTimer());
    }

    method Render(x: real) returns (effects: seq<Effect>, outcome: Outcome)
      modifies this, renderer
      ensures Step(StageModel(), effects, outcome) == RenderSpec(old(StageModel()), x)
    {
      if params.None? {
        return [], Raised(AttributeError);
      }
      var p := params.value;
      var f := Trunc(ClampFrame(p, x));
      frameNum := Some(f);
      effects, outcome := renderer.Render(f, p.maxFrameNumber - p.minFrameNumber);
      if outcome == Done && f == p.maxFrameNumber {
        playback := playback.Cleared();
      }
    }

    method Play() returns (effects: seq<Effect>, outcome: Outcome)
      modifies this
      ensures Step(Model(), effects, outcome) == PlaySpec(old(Model()))
    {
      if playback.Playing? {
        return [], Done;
      }
      if params.None? {
        return [], Raised(AttributeError);
      }
      var p := params.value;
      if frameNum.None? {
        return [], Raised(TypeError);
      }
      if frameNum.value == p.maxFrameNumber {
        frameNum := Some(-1);
      }
      if p.frameRate == 0 {
        return [], Raised(ZeroDivisionError);
      }
      var frames := Range(frameNum.value, p.maxFrameNumber + 1);
      var interval := FloorDiv(1000, p.frameRate);
      playback := Playing(Timer(frames, interval, true));
      effects, outcome := [StartTimer(frames, interval), RedrawCanvas], Done;
    }

    method Stop() returns (effects: seq<Effect>)
      modifies this
      ensures Step(Model(), effects, Done) == StopSpec(old(Model()))
    {
      if !playback.Playing? {
        return [];
      }
      playback := Idle(Some(playback.timer.(running := false)));
      effects := [CancelTimer];
    }

    method TogglePlayback() returns (effects: seq<Effect>, outcome: Outcome)
      modifies this
      ensures Step(Model(), effects, outcome) == ToggleSpec(old(Model()))
    {
      if playback.Playing? {
        effects := Stop();
        outcome := Done;
      } else {
        effects, outcome := Play();
      }
    }

    /** The toolkit's timer firing once. */
    method Tick() returns (effects: seq<Effect>, outcome: Outcome)
      modifies this, renderer
      ensures Step(StageModel(), effects, outcome) == TickSpec(old(StageModel()))
    {
      var next;
      playback, next := TimerStep(playback).0, TimerStep(playback).1;
      match next
      case None =>
        return [], Done;
      case Some(f) =>
        effects, outcome := Render(f as real);
    }

    method Save(kind: SaveKind, fileName: Option<string>, chosen: string) returns (effects: seq<Effect>, outcome: Outcome)
      modifies this
      ensures Step(Model(), effects, outcome) == SaveSpec(old(Model()), kind, fileName, chosen)
    {
      effects := Stop();
      var file := chosen;
      if fileName.Some? {
        file := fileName.value;
      } else {
        if params.None? {
          return effects, Raised(AttributeError);
        }
        var name := DefaultFileName(params.value, kind);
        if name.Err? {
          return effects, Raised(name.error);
        }
        effects := effects + [AskSaveFile(name.value)];
      }
      if playback.CurrentTimer().None? {
        return effects, Raised(AttributeError);
      }
      effects, outcome := effects + [Export(kind, file)], Done;
    }

    /** `get_frame_number`: None before `initialize`. */
    function GetFrameNumber(): Option<int>
      reads this
    {
      frameNum
    }

    /** `get_min_frame_num`: raises AttributeError before `initialize`. */
    function GetMinFrameNum(): (r: Result<int>)
      reads this
      ensures params.None? ==> r == Err(AttributeError)
      ensures params.Some? ==> r == Ok(params.value.minFrameNumber)
    {
      match params
      case None => Err(AttributeError)
      case Some(p) => Ok(p.minFrameNumber)
    }

    /** `get_max_frame_number`: raises AttributeError before `initialize`. */
    function GetMaxFrameNumber(): (r: Result<int>)
      reads this
      ensures params.None? ==> r == Err(AttributeError)
      ensures params.Some? ==> r == Ok(params.value.maxFrameNumber)
    {
      match params
      case None => Err(AttributeError)
      case Some(p) => Ok(p.maxFrameNumber)
    }
  }
}
