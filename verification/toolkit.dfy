/** What the player asks of the plotting toolkit, the playback timer that stands for the
    toolkit's frame animation, and the few Python semantics (int(), //, range) that the
    player's arithmetic relies on. Every other module imports this one. */
module Toolkit {

  datatype Option<+T> = None | Some(value: T)

  /** Identity of an external per-frame draw callback `(frame, axes) -> None`. */
  type DrawFunc = nat

  datatype SaveKind = Video | Html | Javascript

  /** The Python exception classes that an operation of the player can end with. */
  datatype PyError = AttributeError | TypeError | ZeroDivisionError

  datatype Outcome = Done | Raised(error: PyError)

  /** A value read back from the player, or the exception reading it raises. */
  datatype Result<+T> = Ok(value: T) | Err(error: PyError)

  /** One call into the plotting toolkit, in the order the player makes them. */
  datatype Effect =
    | StartTimer(frames: seq<int>, interval: int)  // a non-repeating frame animation is created
    | CancelTimer                                  // the animation's event source is stopped
    | RedrawCanvas                                 // the figure canvas is drawn
    | SetSlider(value: real)                       // the slider's set_val
    | Draw(func: DrawFunc, frame: int)             // the draw callback on the animation axes, then draw_idle
    | ShowSliderAxes(visible: bool)                // the slider axes' set_visible
    | ShowToolbar(visible: bool)                   // the navigation toolbar is packed or forgotten
    | SetTitle(title: string)                      // the window title
    | AskSaveFile(defaultName: string)             // the save dialog, offering a default file name
    | Export(kind: SaveKind, file: string)         // the animation is written out

  /** A step of some state: the new state, the toolkit calls made, and how it ended. */
  datatype Step<S> = Step(state: S, effects: seq<Effect>, outcome: Outcome)

  /** The frame animation created by `play`: the frames still to deliver, the interval
      between two of them in milliseconds, and whether its event source still runs. */
  datatype Timer = Timer(pending: seq<int>, interval: int, running: bool)

  /** The pair of fields (`_playing`, `_animation`) that every player keeps. The source only
      sets the playing flag right after it creates an animation, so a playing player always
      has one; an idle player may still own a running one (the flag is cleared without
      cancelling the timer when the last frame is rendered). */
  datatype Playback = Idle(last: Option<Timer>) | Playing(timer: Timer)
  {
    function CurrentTimer(): (t: Option<Timer>)
      ensures Playing? ==> t == Some(timer)
      ensures Idle? ==> t == last
    {
      match this
      case Idle(last) => last
      case Playing(timer) => Some(timer)
    }

    /** The same playing state with its timer replaced. */
    function WithTimer(t: Timer): (pb: Playback)
      ensures pb.Playing? == Playing? && pb.CurrentTimer() == Some(t)
    {
      if Playing? then Playing(t) else Idle(Some(t))
    }

    /** The playing flag cleared, the timer left as it is. */
    function Cleared(): (pb: Playback)
      ensures !pb.Playing? && pb.CurrentTimer() == CurrentTimer()
    {
      Idle(CurrentTimer())
    }
  }

  /** `stop`: a no-op when not playing; otherwise the timer is cancelled and the flag cleared. */
  function StopPlayback(pb: Playback): (r: Step<Playback>)
    ensures r.outcome == Done && !r.state.Playing?
    ensures !pb.Playing? ==> r.state == pb && r.effects == []
    ensures pb.Playing? ==> r.effects == [CancelTimer]
                            && r.state.CurrentTimer() == Some(pb.timer.(running := false))
  {
    match pb
    case Idle(_) => Step(pb, [], Done)
    case Playing(t) => Step(Idle(Some(t.(running := false))), [CancelTimer], Done)
  }

  /** One period of the animation's timer: a running timer with frames left delivers the next
      one; a running timer with none left stops itself (the animation does not repeat);
      anything else does nothing. The delivered frame, if any, is returned beside the new
      playback state. */
  function TimerStep(pb: Playback): (r: (Playback, Option<int>))
    ensures r.0.Playing? == pb.Playing?
    ensures r.1.Some? <==> pb.CurrentTimer().Some? && pb.CurrentTimer().value.running
                                && pb.CurrentTimer().value.pending != []
    ensures r.1.Some? ==> r.1.value == pb.CurrentTimer().value.pending[0]
                          && r.0.CurrentTimer() == Some(pb.CurrentTimer().value.(pending := pb.CurrentTimer().value.pending[1..]))
  {
    match pb.CurrentTimer()
    case Some(t) =>
      if !t.running then (pb, None)
      else if t.pending == [] then (pb.WithTimer(t.(running := false)), None)
      else (pb.WithTimer(t.(pending := t.pending[1..])), Some(t.pending[0]))
    case None => (pb, None)
  }

  /** Python's int() on a float: truncation toward zero. */
  function Trunc(x: real): (n: int)
    ensures 0.0 <= x ==> n as real <= x < n as real + 1.0
    ensures x < 0.0 ==> n as real - 1.0 < x <= n as real
  {
    if x >= 0.0 then x.Floor else -((-x).Floor)
  }

  /** Python's `a // b`: the quotient rounded toward minus infinity. */
  function FloorDiv(a: int, b: int): (q: int)
    requires b != 0
    ensures b > 0 ==> b * q <= a < b * q + b
    ensures b < 0 ==> b * q + b < a <= b * q
  {
    if b > 0 then a / b else (-a) / (-b)
  }

  /** Python's `range(lo, hi)` as the sequence of the integers it yields. */
  function Range(lo: int, hi: int): (r: seq<int>)
    ensures |r| == if lo < hi then hi - lo else 0
    ensures forall i :: 0 <= i < |r| ==> r[i] == lo + i
    decreases hi - lo
  {
    if lo < hi then [lo] + Range(lo + 1, hi) else []
  }

  /** `min(max(0, int(x)), valmax)`: the frame a slider-driven `render` settles on. */
  function SliderClamp(valmax: int, x: real): (f: int)
    ensures f <= valmax
    ensures valmax >= 0 ==> 0 <= f
    ensures 0 <= Trunc(x) <= valmax ==> f == Trunc(x)
  {
    var lower := if Trunc(x) < 0 then 0 else Trunc(x);
    if lower < valmax then lower else valmax
  }

  /** A clamped frame is clamped to itself, whatever the bound, even a negative one. */
  lemma SliderClampIdempotent(valmax: int, x: real)
    ensures SliderClamp(valmax, SliderClamp(valmax, x) as real) == SliderClamp(valmax, x)
  {
    TruncOfWhole(SliderClamp(valmax, x));
  }

  /** Truncating a whole number gives it back. */
  lemma TruncOfWhole(n: int)
    ensures Trunc(n as real) == n
  {
  }
}
