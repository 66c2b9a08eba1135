/** The input manager of plotplayer/managers/input_manager.py: a first-match dispatcher of key
    presses, key releases, mouse presses and slider changes. It is modelled against an abstract
    handler interface: what it asks of the animation, render and window handlers is returned as
    a sequence of `Call`s, and the answers the animation handler gives to its queries are a
    parameter. Custom handlers are identities, and which of them claim an event is a parameter. */
module Input {
  import opened Toolkit

  const SkipBackKey: string := "left"
  const SkipAheadKey: string := "right"
  const JumpBackKey: string := "down"
  const JumpAheadKey: string := "up"
  const TogglePlayKeys: seq<string> := [" ", "enter"]
  const GotoBeginningKey: string := "home"
  const GotoEndKey: string := "end"
  const ToggleSliderKey: string := "t"
  const ToggleToolbarKey: string := "m"
  const SaveKey: string := "d"
  const SaveVideoKey: string := "v"
  const SaveHtmlKey: string := "h"
  const SaveJavascriptKey: string := "j"

  const StopKeys: seq<string> := [SkipBackKey, SkipAheadKey, JumpBackKey, JumpAheadKey, GotoBeginningKey, GotoEndKey]

  const DefaultSkipSize: int := 1
  const DefaultJumpSize: int := 10

  /** Identity of a custom handler callable. */
  type Handler = nat

  /** One call the input manager makes on the handlers it was given. */
  datatype Call =
    | Custom(handler: Handler)      // a custom handler is offered the event
    | Stop                          // animation handler: stop
    | Render(frame: real)           // animation handler: render
    | TogglePlayback                // animation handler: toggle_playback
    | Save(kind: SaveKind)          // animation handler: save_video / save_html / save_javascript
    | AskFrameNumber                // animation handler: get_frame_number
    | AskMinFrameNumber             // animation handler: get_min_frame_number
    | AskMaxFrameNumber             // animation handler: get_max_frame_number
    | AskTotalFrames                // animation handler: get_total_frames
    | ToggleSlider                  // render handler: toggle_slider
    | ToggleToolbar                 // window handler: toggle_toolbar

  /** What the animation handler answers to the queries. */
  datatype Reported = Reported(frameNumber: int, minFrameNumber: int, maxFrameNumber: int, totalFrames: int)

  /** The result of one of the module-level `_handle_*` functions: whether the key was handled,
      and the calls made. */
  datatype Dispatch = Dispatch(handled: bool, calls: seq<Call>)

  /** The key that saves in a given format while the save combo is armed. */
  function SaveKeyOf(kind: SaveKind): string
  {
    match kind
    case Video => SaveVideoKey
    case Html => SaveHtmlKey
    case Javascript => SaveJavascriptKey
  }

  /** `_handle_save_key_combo`: 'v', 'h' and 'j' save exactly once, in the format that key
      stands for; any other key is not handled and calls nothing. */
  function HandleSaveKeyCombo(key: string): (d: Dispatch)
    ensures d.handled <==> key in {SaveVideoKey, SaveHtmlKey, SaveJavascriptKey}
    ensures d.handled ==> |d.calls| == 1 && d.calls[0].Save? && SaveKeyOf(d.calls[0].kind) == key
    ensures !d.handled ==> d.calls == []
  {
    if key == SaveVideoKey then Dispatch(true, [Save(Video)])
    else if key == SaveHtmlKey then Dispatch(true, [Save(Html)])
    else if key == SaveJavascriptKey then Dispatch(true, [Save(Javascript)])
    else Dispatch(false, [])
  }

  /** The frame a seek key renders: the current frame moved by the skip or jump size, the first
      frame, or the frame before the last. */
  function SeekTarget(key: string, r: Reported, skipSize: int, jumpSize: int): (t: real)
    // a whole frame number, so the animation manager stores it as it is
    ensures t == t.Floor as real
    // the skip and jump keys move away from the current frame by exactly their size
    ensures key in [SkipBackKey, SkipAheadKey] ==>
              t == (r.frameNumber - skipSize) as real || t == (r.frameNumber + skipSize) as real
    ensures key in [JumpBackKey, JumpAheadKey] ==>
              t == (r.frameNumber - jumpSize) as real || t == (r.frameNumber + jumpSize) as real
    // 'home' and 'end' do not depend on the current frame
    ensures key == GotoBeginningKey ==> t == r.minFrameNumber as real
  {
    if key == SkipBackKey then (r.frameNumber - skipSize) as real
    else if key == SkipAheadKey then (r.frameNumber + skipSize) as real
    else if key == JumpBackKey then (r.frameNumber - jumpSize) as real
    else if key == JumpAheadKey then (r.frameNumber + jumpSize) as real
    else if key == GotoBeginningKey then r.minFrameNumber as real
    else (r.maxFrameNumber - 1) as real
  }

  /** The query a seek key makes beyond the current frame number. */
  function SeekQueries(key: string): seq<Call>
  {
    if key == GotoBeginningKey then [AskMinFrameNumber]
    else if key == GotoEndKey then [AskMaxFrameNumber]
    else []
  }

  /** `_handle_navigation_keys`. The current frame number is asked for whatever the key. */
  function HandleNavigationKeys(key: string, r: Reported, skipSize: int, jumpSize: int): (d: Dispatch)
    ensures d.handled <==> key in StopKeys || key in TogglePlayKeys
    // a seek key stops first, then renders once, at the seek target
    ensures key in StopKeys ==>
              d.calls == [Stop, AskFrameNumber] + SeekQueries(key) + [Render(SeekTarget(key, r, skipSize, jumpSize))]
    // the play keys toggle playback without stopping
    ensures key in TogglePlayKeys ==> d.calls == [AskFrameNumber, TogglePlayback]
    ensures !d.handled ==> d.calls == [AskFrameNumber]
  {
    var stop := if key in StopKeys then [Stop] else [];
    var asked := stop + [AskFrameNumber];
    if key == SkipBackKey then Dispatch(true, asked + [Render((r.frameNumber - skipSize) as real)])
    else if key == SkipAheadKey then Dispatch(true, asked + [Render((r.frameNumber + skipSize) as real)])
    else if key == JumpBackKey then Dispatch(true, asked + [Render((r.frameNumber - jumpSize) as real)])
    else if key == JumpAheadKey then Dispatch(true, asked + [Render((r.frameNumber + jumpSize) as real)])
    else if key == GotoBeginningKey then Dispatch(true, asked + [AskMinFrameNumber, Render(r.minFrameNumber as real)])
    else if key == GotoEndKey then Dispatch(true, asked + [AskMaxFrameNumber, Render((r.maxFrameNumber - 1) as real)])
    else if key in TogglePlayKeys then Dispatch(true, asked + [TogglePlayback])
    else Dispatch(false, asked)
  }

  /** `_handle_visibility_keys`: 't' toggles the slider, 'm' the toolbar. */
  function HandleVisibilityKeys(key: string): (d: Dispatch)
    ensures d.handled <==> key == ToggleSliderKey || key == ToggleToolbarKey
    ensures key == ToggleSliderKey ==> d.calls == [ToggleSlider]
    ensures key == ToggleToolbarKey ==> d.calls == [ToggleToolbar]
    ensures !d.handled ==> d.calls == []
  {
    if key == ToggleSliderKey then Dispatch(true, [ToggleSlider])
    else if key == ToggleToolbarKey then Dispatch(true, [ToggleToolbar])
    else Dispatch(false, [])
  }

  /** Calls of a seek key: every call but the render is a query, so exactly one call renders
      and it comes after the stop. */
  lemma SeekStopsThenRendersOnce(key: string, r: Reported, skipSize: int, jumpSize: int)
    requires key in StopKeys
    ensures var calls := HandleNavigationKeys(key, r, skipSize, jumpSize).calls;
            && calls[0] == Stop
            && calls[|calls| - 1].Render?
            && (forall i :: 0 < i < |calls| - 1 ==> calls[i] in {AskFrameNumber, AskMinFrameNumber, AskMaxFrameNumber})
            && TogglePlayback !in calls
  {
    var calls := HandleNavigationKeys(key, r, skipSize, jumpSize).calls;
    assert forall i :: 0 < i < |calls| - 1 ==> calls[i] in [AskFrameNumber] + SeekQueries(key);
  }

  /** The seek targets of the six seek keys. */
  lemma SeekTargets(r: Reported, skipSize: int, jumpSize: int)
    ensures SeekTarget(SkipBackKey, r, skipSize, jumpSize) == (r.frameNumber - skipSize) as real
    ensures SeekTarget(SkipAheadKey, r, skipSize, jumpSize) == (r.frameNumber + skipSize) as real
    ensures SeekTarget(JumpBackKey, r, skipSize, jumpSize) == (r.frameNumber - jumpSize) as real
    ensures SeekTarget(JumpAheadKey, r, skipSize, jumpSize) == (r.frameNumber + jumpSize) as real
    ensures SeekTarget(GotoBeginningKey, r, skipSize, jumpSize) == r.minFrameNumber as real
    ensures SeekTarget(GotoEndKey, r, skipSize, jumpSize) == (r.maxFrameNumber - 1) as real
  {
  }

  /** The outcome of one event for the input manager: the save flag afterwards and the calls. */
  datatype Reaction = Reaction(saveArmed: bool, calls: seq<Call>)

  /** The built-in handling of a key press that no custom handler claimed: the armed save combo,
      then navigation, then visibility, then arming with 'd'. A branch that does not handle the
      key still makes its calls (navigation always asks for the current frame). */
  function DispatchBuiltIn(armed: bool, key: string, r: Reported, skipSize: int, jumpSize: int): (x: Reaction)
    // the save flag only ever goes from unset to set, and only for 'd'
    ensures x.saveArmed == (armed || key == SaveKey)
  {
    var save := HandleSaveKeyCombo(key);
    if armed && save.handled then Reaction(armed, save.calls)
    else
      var nav := HandleNavigationKeys(key, r, skipSize, jumpSize);
      if nav.handled then Reaction(armed, nav.calls)
      else
        var vis := HandleVisibilityKeys(key);
        if vis.handled then Reaction(armed, nav.calls + vis.calls)
        else if key == SaveKey then Reaction(true, nav.calls)
        else Reaction(armed, nav.calls)
  }

  /** Offering an event to the custom handlers in insertion order: the handlers up to and
      including the first that claims it are called, and whether one claimed it. */
  function Offered(hs: seq<Handler>, claims: Handler -> bool): (r: (bool, seq<Call>))
    ensures r.0 <==> exists i :: 0 <= i < |hs| && claims(hs[i])
    ensures |r.1| <= |hs| && forall i :: 0 <= i < |r.1| ==> r.1[i] == Custom(hs[i])
    // every handler called before the last one declined
    ensures forall i :: 0 <= i < |r.1| - 1 ==> !claims(hs[i])
    ensures r.0 ==> |r.1| > 0 && claims(hs[|r.1| - 1])
    ensures !r.0 ==> |r.1| == |hs|
  {
    if hs == [] then (false, [])
    else if claims(hs[0]) then (true, [Custom(hs[0])])
    else
      var rest := Offered(hs[1..], claims);
      assert forall i :: 1 <= i < |hs| ==> hs[1..][i - 1] == hs[i];
      (rest.0, [Custom(hs[0])] + rest.1)
  }

  /** The loop over a handler list at the top of each event handler. */
  method OfferToHandlers(hs: seq<Handler>, claims: Handler -> bool) returns (claimed: bool, calls: seq<Call>)
    ensures claimed == Offered(hs, claims).0 && calls == Offered(hs, claims).1
  {
    claimed, calls := false, [];
    var i := 0;
    while i < |hs|
      invariant 0 <= i <= |hs| && |calls| == i
      invariant forall j :: 0 <= j < i ==> calls[j] == Custom(hs[j]) && !claims(hs[j])
    {
      calls := calls + [Custom(hs[i])];
      if claims(hs[i]) {
        OfferedDeterminedBy(hs, claims, true, calls);
        return true, calls;
      }
      i := i + 1;
    }
    OfferedDeterminedBy(hs, claims, false, calls);
  }

  /** The contract of `Offered` pins its result down: any claim flag and call list that satisfy
      it are the ones `Offered` computes. */
  lemma OfferedDeterminedBy(hs: seq<Handler>, claims: Handler -> bool, claimed: bool, calls: seq<Call>)
    requires |calls| <= |hs| && forall i :: 0 <= i < |calls| ==> calls[i] == Custom(hs[i])
    requires forall i :: 0 <= i < |calls| - 1 ==> !claims(hs[i])
    requires claimed ==> |calls| > 0 && claims(hs[|calls| - 1])
    requires !claimed ==> |calls| == |hs| && forall i :: 0 <= i < |hs| ==> !claims(hs[i])
    ensures Offered(hs, claims) == (claimed, calls)
  {
    var r := Offered(hs, claims);
    assert |r.1| == |calls|;
    assert r.1 == calls;
  }

  /** No handler occurs twice in a list. */
  predicate NoDuplicates(hs: seq<Handler>)
  {
    forall i, j :: 0 <= i < j < |hs| ==> hs[i] != hs[j]
  }

  /** `add_*_handler`: append unless already present. */
  function Added(hs: seq<Handler>, h: Handler): (r: seq<Handler>)
    ensures h in r && forall x :: x in r <==> x in hs || x == h
    ensures h in hs ==> r == hs
    // a new handler goes last, after every handler added before it, whose order is kept
    ensures h !in hs ==> r == hs + [h]
    ensures NoDuplicates(hs) ==> NoDuplicates(r)
  {
    if h in hs then hs else hs + [h]
  }

  /** The position of the first occurrence of a handler in a list. */
  function FirstIndex(hs: seq<Handler>, h: Handler): (i: nat)
    requires h in hs
    ensures i < |hs| && hs[i] == h && h !in hs[..i]
  {
    if hs[0] == h then 0
    else
      var j := FirstIndex(hs[1..], h);
      assert hs[..j + 1] == [hs[0]] + hs[1..][..j];
      j + 1
  }

  /** `remove_*_handler`: `list.remove`, which drops the first occurrence, guarded by `in`. */
  function RemoveFirst(hs: seq<Handler>, h: Handler): (r: seq<Handler>)
    ensures h !in hs ==> r == hs
    ensures h in hs ==> |r| == |hs| - 1
    ensures forall x :: x in r ==> x in hs
    ensures forall x :: x in hs && x != h ==> x in r
    ensures NoDuplicates(hs) ==> NoDuplicates(r) && h !in r
  {
    if hs == [] then []
    else if hs[0] == h then hs[1..]
    else
      var rest := RemoveFirst(hs[1..], h);
      assert NoDuplicates(hs) ==> hs[0] !in hs[1..];
      [hs[0]] + rest
  }

  /** Removing drops exactly the first occurrence; the handlers before and after it keep their
      order. */
  lemma {:induction false} RemoveFirstSplices(hs: seq<Handler>, h: Handler)
    requires h in hs
    ensures RemoveFirst(hs, h) == hs[..FirstIndex(hs, h)] + hs[FirstIndex(hs, h) + 1..]
  {
    if hs[0] != h {
      RemoveFirstSplices(hs[1..], h);
      var j := FirstIndex(hs[1..], h);
      assert FirstIndex(hs, h) == j + 1;
      assert hs[..j + 1] == [hs[0]] + hs[1..][..j] && hs[j + 2..] == hs[1..][j + 1..];
    }
  }

  /** The fields of an input manager. */
  datatype InputState = InputState(
    enabled: bool,
    saveArmed: bool,
    skipSize: int,
    jumpSize: int,
    keyPressHandlers: seq<Handler>,
    keyReleaseHandlers: seq<Handler>,
    mousePressHandlers: seq<Handler>)

  /** `_handle_key_press`. */
  function KeyPressSpec(st: InputState, key: string, claims: Handler -> bool, r: Reported): (x: Reaction)
    ensures !st.enabled ==> x == Reaction(st.saveArmed, [])
  {
    if !st.enabled then Reaction(st.saveArmed, [])
    else
      var offered := Offered(st.keyPressHandlers, claims);
      if offered.0 then Reaction(st.saveArmed, offered.1)
      else
        var b := DispatchBuiltIn(st.saveArmed, key, r, st.skipSize, st.jumpSize);
        Reaction(b.saveArmed, offered.1 + b.calls)
  }

  /** `_handle_key_release`: only an unclaimed 'd' release changes anything, disarming. */
  function KeyReleaseSpec(st: InputState, key: string, claims: Handler -> bool): (x: Reaction)
    ensures !st.enabled ==> x == Reaction(st.saveArmed, [])
  {
    if !st.enabled then Reaction(st.saveArmed, [])
    else
      var offered := Offered(st.keyReleaseHandlers, claims);
      if !offered.0 && key == SaveKey then Reaction(false, offered.1)
      else Reaction(st.saveArmed, offered.1)
  }

  /** `_handle_mouse_press`: an unclaimed press inside the slider axes stops the animation. */
  function MousePressSpec(st: InputState, inSliderAxes: bool, claims: Handler -> bool): (calls: seq<Call>)
    ensures !st.enabled ==> calls == []
  {
    if !st.enabled then []
    else
      var offered := Offered(st.mousePressHandlers, claims);
      if !offered.0 && inSliderAxes then offered.1 + [Stop] else offered.1
  }

  /** `_handle_slider_changed`: the value is mapped back to a frame as `value * total + min`. */
  function SliderChangedSpec(st: InputState, value: real, r: Reported): (calls: seq<Call>)
    ensures !st.enabled ==> calls == []
  {
    if !st.enabled then []
    else [AskMinFrameNumber, AskTotalFrames, Render(value * r.totalFrames as real + r.minFrameNumber as real)]
  }

  /** A custom handler that claims a key press ends the dispatch: only the custom handlers up
      to it are called, nothing built in runs, and the save flag is left alone. */
  lemma ClaimedPressSkipsBuiltIn(st: InputState, key: string, claims: Handler -> bool, r: Reported)
    requires st.enabled && exists i :: 0 <= i < |st.keyPressHandlers| && claims(st.keyPressHandlers[i])
    ensures var x := KeyPressSpec(st, key, claims, r);
            && x.saveArmed == st.saveArmed
            && (forall c :: c in x.calls ==> c.Custom?)
            && x.calls != []
            && claims(x.calls[|x.calls| - 1].handler)
  {
  }

  /** With the save combo armed, 'v', 'h' and 'j' save once in their format, after the custom
      handlers, and nothing else; the combo stays armed. */
  lemma ArmedSaveKeySaves(st: InputState, kind: SaveKind, claims: Handler -> bool, r: Reported)
    requires st.enabled && st.saveArmed
    requires forall i :: 0 <= i < |st.keyPressHandlers| ==> !claims(st.keyPressHandlers[i])
    ensures var x := KeyPressSpec(st, SaveKeyOf(kind), claims, r);
            && x.saveArmed
            && x.calls == Offered(st.keyPressHandlers, claims).1 + [Save(kind)]
  {
  }

  /** The save flag after a press: it is set by an enabled, unclaimed 'd' press and otherwise
      kept; no press ever clears it. */
  lemma PressArmsOnlyOnSaveKey(st: InputState, key: string, claims: Handler -> bool, r: Reported)
    ensures KeyPressSpec(st, key, claims, r).saveArmed <==>
              st.saveArmed ||
              (st.enabled && key == SaveKey && forall i :: 0 <= i < |st.keyPressHandlers| ==> !claims(st.keyPressHandlers[i]))
  {
  }

  /** The save flag after a release: an enabled, unclaimed 'd' release clears it, and
      otherwise it is kept; no release ever sets it. */
  lemma ReleaseDisarmsOnlyOnSaveKey(st: InputState, key: string, claims: Handler -> bool)
    ensures KeyReleaseSpec(st, key, claims).saveArmed <==>
              st.saveArmed &&
              !(st.enabled && key == SaveKey && forall i :: 0 <= i < |st.keyReleaseHandlers| ==> !claims(st.keyReleaseHandlers[i]))
  {
  }

  /** Among built-in actions the first branch that handles the key wins: a navigation key is
      never passed on to the visibility keys or the arming, and a visibility key never arms. */
  lemma BuiltInFirstMatchWins(armed: bool, key: string, r: Reported, skipSize: int, jumpSize: int)
    ensures var x := DispatchBuiltIn(armed, key, r, skipSize, jumpSize);
            && (armed && key in {SaveVideoKey, SaveHtmlKey, SaveJavascriptKey} ==>
                  x.calls == HandleSaveKeyCombo(key).calls)
            && (HandleNavigationKeys(key, r, skipSize, jumpSize).handled ==>
                  x.calls == HandleNavigationKeys(key, r, skipSize, jumpSize).calls)
            && (HandleVisibilityKeys(key).handled ==>
                  x.calls == [AskFrameNumber] + HandleVisibilityKeys(key).calls)
            && (x.saveArmed != armed ==> x.calls == [AskFrameNumber])
  {
  }

  /** With no custom handlers: pressing 'd' and then 'v' saves a video; pressing 'd',
      releasing it and then pressing 'v' does not save at all. */
  lemma SaveComboScenario(st: InputState, claims: Handler -> bool, r: Reported)
    requires st.enabled && !st.saveArmed
    requires st.keyPressHandlers == [] && st.keyReleaseHandlers == []
    ensures var afterD := st.(saveArmed := KeyPressSpec(st, SaveKey, claims, r).saveArmed);
            && Save(Video) in KeyPressSpec(afterD, SaveVideoKey, claims, r).calls
            && var released := afterD.(saveArmed := KeyReleaseSpec(afterD, SaveKey, claims).saveArmed);
            && forall c :: c in KeyPressSpec(released, SaveVideoKey, claims, r).calls ==> !c.Save?
  {
    var afterD := st.(saveArmed := KeyPressSpec(st, SaveKey, claims, r).saveArmed);
    assert afterD.saveArmed;
    assert KeyPressSpec(afterD, SaveVideoKey, claims, r).calls == [Save(Video)];
    var released := afterD.(saveArmed := KeyReleaseSpec(afterD, SaveKey, claims).saveArmed);
    assert !released.saveArmed;
    assert KeyPressSpec(released, SaveVideoKey, claims, r).calls == [AskFrameNumber];
  }

  /** The 'home' key and the slider ask the animation handler for `get_min_frame_number` and
      `get_total_frames`; the animation manager of this system offers `get_min_frame_num` and no
      total at all, so with it these two paths end in AttributeError. */
  lemma HomeAndSliderQueryMissingAccessors(st: InputState, value: real, claims: Handler -> bool, r: Reported)
    requires st.enabled && forall i :: 0 <= i < |st.keyPressHandlers| ==> !claims(st.keyPressHandlers[i])
    ensures AskMinFrameNumber in KeyPressSpec(st, GotoBeginningKey, claims, r).calls
    ensures AskTotalFrames in SliderChangedSpec(st, value, r)
  {
    var calls := KeyPressSpec(st, GotoBeginningKey, claims, r).calls;
    var offered := Offered(st.keyPressHandlers, claims).1;
    assert calls == offered + [Stop, AskFrameNumber, AskMinFrameNumber, Render(r.minFrameNumber as real)];
    assert calls[|offered| + 2] == AskMinFrameNumber;
  }

  /** A slider value of `frame / total`, as the render manager sets it, is mapped back to the
      frame `frame + min` rather than `frame`: the two agree only when the first frame is 0. */
  lemma SliderMapsBackWithOffset(st: InputState, frame: int, r: Reported)
    requires st.enabled && r.totalFrames != 0
    ensures SliderChangedSpec(st, frame as real / r.totalFrames as real, r)[2] ==
              Render((frame + r.minFrameNumber) as real)
  {
    var v := frame as real / r.totalFrames as real;
    assert v * r.totalFrames as real == frame as real;
  }

  class InputManager {
    var enabled: bool
    var saveArmed: bool
    var skipSize: int
    var jumpSize: int
    var keyPressHandlers: seq<Handler>
    var keyReleaseHandlers: seq<Handler>
    var mousePressHandlers: seq<Handler>

    function Model(): InputState
      reads this
    {
      InputState(enabled, saveArmed, skipSize, jumpSize, keyPressHandlers, keyReleaseHandlers, mousePressHandlers)
    }

    /** Every handler list is free of duplicates. */
    predicate Valid()
      reads this
    {
      NoDuplicates(keyPressHandlers) && NoDuplicates(keyReleaseHandlers) && NoDuplicates(mousePressHandlers)
    }

    /** Disarmed, with empty handler lists; skip 1, jump 10 and disabled unless asked otherwise.
        The event connections made here are not recorded. */
    constructor (skipSize: int := DefaultSkipSize, jumpSize: int := DefaultJumpSize, enabled: bool := false)
      ensures Valid()
      ensures Model() == InputState(enabled, false, skipSize, jumpSize, [], [], [])
    {
      this.enabled := enabled;
      this.saveArmed := false;
      this.skipSize := skipSize;
      this.jumpSize := jumpSize;
      this.keyPressHandlers := [];
      this.keyReleaseHandlers := [];
      this.mousePressHandlers := [];
    }

    method AddKeyPressHandler(h: Handler)
      requires Valid()
      modifies this
      ensures Valid() && Model() == old(Model()).(keyPressHandlers := Added(old(keyPressHandlers), h))
    {
      if h !in keyPressHandlers {
        keyPressHandlers := keyPressHandlers + [h];
      }
    }

    method RemoveKeyPressHandler(h: Handler)
      requires Valid()
      modifies this
      ensures Valid() && Model() == old(Model()).(keyPressHandlers := RemoveFirst(old(keyPressHandlers), h))
    {
      if h in keyPressHandlers {
        keyPressHandlers := RemoveFirst(keyPressHandlers, h);
      }
    }

    method AddKeyReleaseHandler(h: Handler)
      requires Valid()
      modifies this
      ensures Valid() && Model() == old(Model()).(keyReleaseHandlers := Added(old(keyReleaseHandlers), h))
    {
      if h !in keyReleaseHandlers {
        keyReleaseHandlers := keyReleaseHandlers + [h];
      }
    }

    method RemoveKeyReleaseHandler(h: Handler)
      requires Valid()
      modifies this
      ensures Valid() && Model() == old(Model()).(keyReleaseHandlers := RemoveFirst(old(keyReleaseHandlers), h))
    {
      if h in keyReleaseHandlers {
        keyReleaseHandlers := RemoveFirst(keyReleaseHandlers, h);
      }
    }

    method AddMousePressHandler(h: Handler)
      requires Valid()
      modifies this
      ensures Valid() && Model() == old(Model()).(mousePressHandlers := Added(old(mousePressHandlers), h))
    {
      if h !in mousePressHandlers {
        mousePressHandlers := mousePressHandlers + [h];
      }
    }

    method RemoveMousePressHandler(h: Handler)
      requires Valid()
      modifies this
      ensures Valid() && Model() == old(Model()).(mousePressHandlers := RemoveFirst(old(mousePressHandlers), h))
    {
      if h in mousePressHandlers {
        mousePressHandlers := RemoveFirst(mousePressHandlers, h);
      }
    }

    function GetSkipSize(): (size: int)
      reads this
      ensures size == skipSize
    {
      skipSize
    }

    method SetSkipSize(size: int)
      modifies this
      ensures GetSkipSize() == size && Model() == old(Model()).(skipSize := size)
    {
      skipSize := size;
    }

    function GetJumpSize(): (size: int)
      reads this
      ensures size == jumpSize
    {
      jumpSize
    }

    method SetJumpSize(size: int)
      modifies this
      ensures GetJumpSize() == size && Model() == old(Model()).(jumpSize := size)
    {
      jumpSize := size;
    }

    method SetEnabled(enabled: bool)
      modifies this
      ensures Model() == old(Model()).(enabled := enabled)
    {
      this.enabled := enabled;
    }

    method HandleKeyPress(key: string, claims: Handler -> bool, r: Reported) returns (calls: seq<Call>)
      modifies this
      ensures Model() == old(Model()).(saveArmed := KeyPressSpec(old(Model()), key, claims, r).saveArmed)
      ensures calls == KeyPressSpec(old(Model()), key, claims, r).calls
    {
      if !enabled {
        return [];
      }
      var claimed;
      claimed, calls := OfferToHandlers(keyPressHandlers, claims);
      if claimed {
        return;
      }
      var save := HandleSaveKeyCombo(key);
      if saveArmed && save.handled {
        return calls + save.calls;
      }
      var nav := HandleNavigationKeys(key, r, skipSize, jumpSize);
      calls := calls + nav.calls;
      if nav.handled {
        return;
      }
      var vis := HandleVisibilityKeys(key);
      calls := calls + vis.calls;
      if vis.handled {
        return;
      }
      if key == SaveKey {
        saveArmed := true;
      }
    }

    method HandleKeyRelease(key: string, claims: Handler -> bool) returns (calls: seq<Call>)
      modifies this
      ensures Model() == old(Model()).(saveArmed := KeyReleaseSpec(old(Model()), key, claims).saveArmed)
      ensures calls == KeyReleaseSpec(old(Model()), key, claims).calls
    {
      if !enabled {
        return [];
      }
      var claimed;
      claimed, calls := OfferToHandlers(keyReleaseHandlers, claims);
      if claimed {
        return;
      }
      if key == SaveKey {
        saveArmed := false;
      }
    }

    method HandleMousePress(inSliderAxes: bool, claims: Handler -> bool) returns (calls: seq<Call>)
      ensures calls == MousePressSpec(Model(), inSliderAxes, claims)
      ensures enabled && inSliderAxes && !Offered(mousePressHandlers, claims).0 ==>
                calls[|calls| - 1] == Stop && multiset(calls)[Stop] == 1
      ensures !inSliderAxes ==> Stop !in calls
    {
      if !enabled {
        return [];
      }
      var claimed;
      claimed, calls := OfferToHandlers(mousePressHandlers, claims);
      if !claimed && inSliderAxes {
        calls := calls + [Stop];
      }
    }

    method HandleSliderChanged(value: real, r: Reported) returns (calls: seq<Call>)
      ensures calls == SliderChangedSpec(Model(), value, r)
      ensures enabled ==> calls[|calls| - 1] == Render(value * r.totalFrames as real + r.minFrameNumber as real)
    {
      if !enabled {
        return [];
      }
      var frame := value * r.totalFrames as real + r.minFrameNumber as real;
      calls := [AskMinFrameNumber, AskTotalFrames, Render(frame)];
      assert SliderChangedSpec(Model(), value, r)[2] == Render(frame);
    }
  }
}
