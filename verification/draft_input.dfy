/** The draft input handler of plotplayer/ui/input_handler.py. Unlike the input manager it has a
    single optional custom handler, lets the armed save combo fall through to the other keys,
    and runs one elif chain over every other key. It talks to a player object; the calls it makes
    on it are `Input.Call`s (`get_current_frame_number` is `AskFrameNumber`). */
module DraftInput {
  import opened Toolkit
  import Input

  type Call = Input.Call

  /** `handle_save_key_combo(plotplayer, key)`: the same mapping of 'v', 'h' and 'j' to the three
      save formats as the input manager's combo, with no handled flag. */
  function HandleSaveKeyCombo(key: string): (calls: seq<Call>)
    ensures calls == Input.HandleSaveKeyCombo(key).calls
  {
    if key == Input.SaveVideoKey then [Input.Save(Video)]
    else if key == Input.SaveHtmlKey then [Input.Save(Html)]
    else if key == Input.SaveJavascriptKey then [Input.Save(Javascript)]
    else []
  }

  /** The elif chain after the current frame number is read: at most one branch runs. Its
      second component says whether the 'd' branch, which arms the save combo, was taken. */
  function Chain(key: string, r: Input.Reported, skipSize: int, jumpSize: int): (x: (seq<Call>, bool))
    ensures x.1 <==> key == Input.SaveKey
    ensures x.1 ==> x.0 == []
    ensures |x.0| <= 2
    ensures key in Input.StopKeys ==> x.0 != [] && x.0[|x.0| - 1].Render?
    ensures key in Input.StopKeys ==> forall i :: 0 <= i < |x.0| - 1 ==> !x.0[i].Render?
    ensures Input.Stop !in x.0
    ensures key !in Input.StopKeys ==> forall c :: c in x.0 ==> !c.Render?
    // the skip and jump keys render the same targets as the input manager's seek keys
    ensures key in [Input.SkipBackKey, Input.SkipAheadKey, Input.JumpBackKey, Input.JumpAheadKey] ==>
              x.0 == [Input.Render(Input.SeekTarget(key, r, skipSize, jumpSize))]
    ensures key == Input.GotoBeginningKey ==> x.0 == [Input.Render(0.0)]
    ensures key == Input.GotoEndKey ==> x.0 == [Input.AskTotalFrames, Input.Render(r.totalFrames as real)]
    ensures key == Input.ToggleSliderKey ==> x.0 == [Input.ToggleSlider]
    ensures key in Input.TogglePlayKeys ==> x.0 == [Input.TogglePlayback]
    ensures key == Input.ToggleToolbarKey ==> x.0 == [Input.ToggleToolbar]
    // every other key, 'd' included, calls nothing
    ensures x.0 == [] <==> key !in Input.StopKeys + [Input.ToggleSliderKey, Input.ToggleToolbarKey] + Input.TogglePlayKeys
  {
    if key == Input.SkipBackKey then ([Input.Render((r.frameNumber - skipSize) as real)], false)
    else if key == Input.SkipAheadKey then ([Input.Render((r.frameNumber + skipSize) as real)], false)
    else if key == Input.JumpBackKey then ([Input.Render((r.frameNumber - jumpSize) as real)], false)
    else if key == Input.JumpAheadKey then ([Input.Render((r.frameNumber + jumpSize) as real)], false)
    else if key == Input.GotoBeginningKey then ([Input.Render(0.0)], false)
    else if key == Input.GotoEndKey then ([Input.AskTotalFrames, Input.Render(r.totalFrames as real)], false)
    else if key == Input.ToggleSliderKey then ([Input.ToggleSlider], false)
    else if key in Input.TogglePlayKeys then ([Input.TogglePlayback], false)
    else if key == Input.ToggleToolbarKey then ([Input.ToggleToolbar], false)
    else if key == Input.SaveKey then ([], true)
    else ([], false)
  }

  /** The fields of a draft input handler. */
  datatype DraftState = DraftState(enabled: bool, saveArmed: bool, skipSize: int, jumpSize: int,
                                   keyPressHandler: Option<Input.Handler>)

  /** The part of `handle_key_press` after the custom handler declined: the armed combo, the stop,
      the frame query and the chain, one after the other. */
  function BuiltIn(st: DraftState, key: string, r: Input.Reported): (x: Input.Reaction)
    ensures x.saveArmed <==> st.saveArmed || key == Input.SaveKey
    // the frame is queried for every key, after the stop when there is one
    ensures Input.AskFrameNumber in x.calls
    ensures Input.Stop in x.calls <==> key in Input.StopKeys
    // an armed combo saves first, and the key's own branch still follows
    ensures st.saveArmed && key in [Input.SaveVideoKey, Input.SaveHtmlKey, Input.SaveJavascriptKey] ==>
              x.calls[0].Save? && x.calls[|x.calls| - 1] == Input.AskFrameNumber
  {
    var save := if st.saveArmed then HandleSaveKeyCombo(key) else [];
    var stop := if key in Input.StopKeys then [Input.Stop] else [];
    var chain := Chain(key, r, st.skipSize, st.jumpSize);
    Input.Reaction(st.saveArmed || chain.1, save + stop + [Input.AskFrameNumber] + chain.0)
  }

  /** `handle_key_press`. */
  function KeyPressSpec(st: DraftState, key: string, claims: Input.Handler -> bool, r: Input.Reported): (x: Input.Reaction)
    ensures !st.enabled ==> x == Input.Reaction(st.saveArmed, [])
  {
    if !st.enabled then Input.Reaction(st.saveArmed, [])
    else match st.keyPressHandler
      case Some(h) =>
        if claims(h) then Input.Reaction(st.saveArmed, [Input.Custom(h)])
        else
          var b := BuiltIn(st, key, r);
          Input.Reaction(b.saveArmed, [Input.Custom(h)] + b.calls)
      case None => BuiltIn(st, key, r)
  }

  /** `handle_key_release`: 'd' disarms the save combo. */
  function KeyReleaseSpec(st: DraftState, key: string): (armed: bool)
    ensures armed <==> st.saveArmed && !(st.enabled && key == Input.SaveKey)
  {
    if st.enabled && key == Input.SaveKey then false else st.saveArmed
  }

  /** `handle_mouse_button_down`: a press inside the slider axes stops playback. */
  function MouseButtonDownSpec(st: DraftState, inSliderAxes: bool): (calls: seq<Call>)
    ensures calls == [] || calls == [Input.Stop]
    ensures calls == [Input.Stop] <==> st.enabled && inSliderAxes
  {
    if st.enabled && inSliderAxes then [Input.Stop] else []
  }

  /** A custom handler that claims the press ends it: nothing built in runs. */
  lemma ClaimedPressSkipsBuiltIn(st: DraftState, key: string, claims: Input.Handler -> bool, r: Input.Reported)
    requires st.enabled && st.keyPressHandler.Some? && claims(st.keyPressHandler.value)
    ensures KeyPressSpec(st, key, claims, r) == Input.Reaction(st.saveArmed, [Input.Custom(st.keyPressHandler.value)])
  {
  }

  /** With the combo armed a save key saves and then, unlike the input manager, falls through:
      the frame number is still read afterwards, and the combo stays armed. */
  lemma ArmedSaveFallsThrough(st: DraftState, kind: SaveKind, claims: Input.Handler -> bool, r: Input.Reported)
    requires st.enabled && st.saveArmed && st.keyPressHandler.None?
    ensures var x := KeyPressSpec(st, Input.SaveKeyOf(kind), claims, r);
            && x.saveArmed
            && x.calls == [Input.Save(kind), Input.AskFrameNumber]
  {
  }

  /** A stop key stops before its single render, and the stop comes after any save. */
  lemma StopKeyStopsBeforeRender(st: DraftState, key: string, claims: Input.Handler -> bool, r: Input.Reported)
    requires st.enabled && st.keyPressHandler.None? && key in Input.StopKeys
    ensures var calls := KeyPressSpec(st, key, claims, r).calls;
            && calls[0] == Input.Stop
            && calls[|calls| - 1].Render?
            && multiset(calls)[Input.Stop] == 1
            && forall i :: 0 <= i < |calls| - 1 ==> !calls[i].Render?
  {
    var chain := Chain(key, r, st.skipSize, st.jumpSize).0;
    StopKeyPressCalls(st, key, claims, r);
    var calls := KeyPressSpec(st, key, claims, r).calls;
    assert forall i :: 2 <= i < |calls| ==> calls[i] == chain[i - 2];
  }

  /** The calls an unclaimed stop key makes: no save (no stop key is a save key), the stop, the
      frame query, and the chain's branch for the key. */
  lemma StopKeyPressCalls(st: DraftState, key: string, claims: Input.Handler -> bool, r: Input.Reported)
    requires st.enabled && st.keyPressHandler.None? && key in Input.StopKeys
    ensures KeyPressSpec(st, key, claims, r).calls ==
              [Input.Stop, Input.AskFrameNumber] + Chain(key, r, st.skipSize, st.jumpSize).0
  {
    assert HandleSaveKeyCombo(key) == [];
  }

  /** The save combo is armed after a press exactly when it was armed or the press was an
      unclaimed 'd'. */
  lemma PressArmsOnlyOnSaveKey(st: DraftState, key: string, claims: Input.Handler -> bool, r: Input.Reported)
    ensures KeyPressSpec(st, key, claims, r).saveArmed <==>
              st.saveArmed ||
              (st.enabled && key == Input.SaveKey && (st.keyPressHandler.None? || !claims(st.keyPressHandler.value)))
  {
  }

  /** Where the draft and the input manager part ways on the same key: 'home' renders frame 0
      rather than the first frame, and 'end' renders the frame count rather than the last frame
      minus one. */
  lemma HomeAndEndTargets(st: DraftState, claims: Input.Handler -> bool, r: Input.Reported)
    requires st.enabled && !st.saveArmed && st.keyPressHandler.None?
    ensures KeyPressSpec(st, Input.GotoBeginningKey, claims, r).calls ==
              [Input.Stop, Input.AskFrameNumber, Input.Render(0.0)]
    ensures KeyPressSpec(st, Input.GotoEndKey, claims, r).calls ==
              [Input.Stop, Input.AskFrameNumber, Input.AskTotalFrames, Input.Render(r.totalFrames as real)]
  {
  }

  class InputHandler {
    var enabled: bool
    var saveArmed: bool
    var skipSize: int
    var jumpSize: int
    var keyPressHandler: Option<Input.Handler>

    function Model(): DraftState
      reads this
    {
      DraftState(enabled, saveArmed, skipSize, jumpSize, keyPressHandler)
    }

    /** Disarmed; skip 1, jump 10 and disabled unless asked otherwise. The event connections
        made here are not recorded. */
    constructor (keyPressHandler: Option<Input.Handler> := None, skipSize: int := Input.DefaultSkipSize,
                 jumpSize: int := Input.DefaultJumpSize, enabled: bool := false)
      ensures Model() == DraftState(enabled, false, skipSize, jumpSize, keyPressHandler)
    {
      this.enabled := enabled;
      this.saveArmed := false;
      this.skipSize := skipSize;
      this.jumpSize := jumpSize;
      this.keyPressHandler := keyPressHandler;
    }

    method HandleKeyPress(key: string, claims: Input.Handler -> bool, r: Input.Reported) returns (calls: seq<Call>)
      modifies this
      ensures Model() == old(Model()).(saveArmed := KeyPressSpec(old(Model()), key, claims, r).saveArmed)
      ensures calls == KeyPressSpec(old(Model()), key, claims, r).calls
    {
      if !enabled {
        return [];
      }
      var offered: seq<Call> := [];
      if keyPressHandler.Some? {
        offered := [Input.Custom(keyPressHandler.value)];
        if claims(keyPressHandler.value) {
          return offered;
        }
      }
      var save := if saveArmed then HandleSaveKeyCombo(key) else [];
      var stop := if key in Input.StopKeys then [Input.Stop] else [];
      var chain := Chain(key, r, skipSize, jumpSize);
      calls := offered + (save + stop + [Input.AskFrameNumber] + chain.0);
      if chain.1 {
        saveArmed := true;
      }
    }

    method HandleKeyRelease(key: string)
      modifies this
      ensures Model() == old(Model()).(saveArmed := KeyReleaseSpec(old(Model()), key))
    {
      if !enabled {
        return;
      }
      if key == Input.SaveKey {
        saveArmed := false;
      }
    }

    method HandleMouseButtonDown(inSliderAxes: bool) returns (calls: seq<Call>)
      ensures calls == MouseButtonDownSpec(Model(), inSliderAxes)
    {
      calls := [];
      if enabled && inSliderAxes {
        calls := [Input.Stop];
      }
    }

    method SetEnabled(enabled: bool)
      modifies this
      ensures Model() == old(Model()).(enabled := enabled)
    {
      this.enabled := enabled;
    }
  }
}
