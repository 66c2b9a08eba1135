/** The animation parameter record of plotplayer/data_models/animation_params.py: the frame
    range, the playback rate and the animation's name, stored without validation. */
module Params {
  import opened Toolkit

  const DefaultAnimationName: string := "PlotPlayer"
  const DefaultFrameRate: int := 30
  const DefaultMinFrameNumber: int := 0

  /** `animationName` is None when the caller passes None explicitly. */
  datatype AnimationParams = AnimationParams(
    minFrameNumber: int,
    maxFrameNumber: int,
    frameRate: int,
    animationName: Option<string>)
  {
    function GetMinFrameNum(): (n: int) ensures n == minFrameNumber { minFrameNumber }
    function GetMaxFrameNum(): (n: int) ensures n == maxFrameNumber { maxFrameNumber }
    function GetFrameRate(): (rate: int) ensures rate == frameRate { frameRate }
    function GetAnimationName(): (name: Option<string>) ensures name == animationName { animationName }
  }

  /** The constructor `AnimationParams(max_frame_number, min_frame_number=0, frame_rate=30,
      animation_name='PlotPlayer')`: every argument, given or defaulted, is kept as it is and
      read back by its getter; no range or rate is refused. */
  function NewAnimationParams(
    maxFrameNumber: int,
    minFrameNumber: int := DefaultMinFrameNumber,
    frameRate: int := DefaultFrameRate,
    animationName: Option<string> := Some(DefaultAnimationName)): (p: AnimationParams)
    ensures p.GetMaxFrameNum() == maxFrameNumber && p.GetMinFrameNum() == minFrameNumber
    ensures p.GetFrameRate() == frameRate && p.GetAnimationName() == animationName
  {
    AnimationParams(minFrameNumber, maxFrameNumber, frameRate, animationName)
  }

  /** Omitted arguments take the defaults: first frame 0, 30 frames per second, and the
      name "PlotPlayer". */
  lemma OmittedArgumentsDefault(maxFrameNumber: int)
    ensures NewAnimationParams(maxFrameNumber).GetMinFrameNum() == 0
    ensures NewAnimationParams(maxFrameNumber).GetFrameRate() == 30
    ensures NewAnimationParams(maxFrameNumber).GetAnimationName() == Some("PlotPlayer")
  {
  }

  /** An explicit None name is kept as None: the default applies only to an omitted one. */
  lemma ExplicitNoneNameKept(maxFrameNumber: int)
    ensures NewAnimationParams(maxFrameNumber, animationName := None).GetAnimationName() == None
  {
  }
}
