/**
 * `CallReceiver`: the broadcast receiver for phone-state changes. Each broadcast carries the
 * telephony state extra, and `onReceive` maps it to at most one action on the platform.
 */
module CallReceiver {
  import opened Wrappers

  /** The values of `TelephonyManager.EXTRA_STATE_RINGING`, `_OFFHOOK` and `_IDLE`. */
  const Ringing := "RINGING"
  const Offhook := "OFFHOOK"
  const Idle := "IDLE"

  /** The launch flags `onReceive` adds to the popup intent. */
  datatype Flag = NewTask | SingleTop | ClearTop

  /** The intent that opens `AlertActivity`. */
  datatype PopupIntent = PopupIntent(flags: set<Flag>, extras: map<string, string>)

  /** The popup for an incoming call: a new, single-top, clear-top task with `type` = "call". */
  const CallPopup := PopupIntent({NewTask, SingleTop, ClearTop}, map["type" := "call"])

  /** What one broadcast makes the receiver do. */
  datatype Action =
    | ShowPopup(popup: PopupIntent)
    | StartService
    | StopService
    | NoAction

  /** `onReceive`: a `when` over the state extra with no `else` branch, so anything else is ignored. */
  function OnReceive(state: Option<string>): (a: Action)
    ensures a.ShowPopup? <==> state == Some(Ringing)
    ensures a.ShowPopup? ==> a.popup.extras == map["type" := "call"] && a.popup.flags == {NewTask, SingleTop, ClearTop}
    ensures a == StartService <==> state == Some(Offhook)
    ensures a == StopService <==> state == Some(Idle)
    ensures a == NoAction <==> state !in {Some(Ringing), Some(Offhook), Some(Idle)}
  {
    match state
    case Some(s) =>
      if s == Ringing then ShowPopup(CallPopup)
      else if s == Offhook then StartService
      else if s == Idle then StopService
      else NoAction
    case None => NoAction
  }

  /** The actions of a sequence of broadcasts, one per broadcast. */
  function Dispatch(states: seq<Option<string>>): (r: seq<Action>)
    ensures |r| == |states|
    decreases |states|
  {
    if states == [] then [] else Dispatch(states[..|states| - 1]) + [OnReceive(states[|states| - 1])]
  }

  /** The last service command among `actions`: `Some(true)` for a start, `Some(false)` for a stop. */
  function LastServiceCommand(actions: seq<Action>): Option<bool>
    decreases |actions|
  {
    if actions == [] then None
    else
      var a := actions[|actions| - 1];
      if a == StartService then Some(true)
      else if a == StopService then Some(false)
      else LastServiceCommand(actions[..|actions| - 1])
  }

  /** The latest call-connected or call-ended state among `states`, ignoring every other state. */
  function LatestCallState(states: seq<Option<string>>): Option<string>
    decreases |states|
  {
    if states == [] then None
    else
      var s := states[|states| - 1];
      if s == Some(Offhook) || s == Some(Idle) then s
      else LatestCallState(states[..|states| - 1])
  }

  /**
   * The service is last told to run exactly when the latest OFFHOOK/IDLE broadcast was OFFHOOK,
   * last told to stop exactly when it was IDLE, and never told anything before either.
   */
  lemma {:induction false} ServiceFollowsCallState(states: seq<Option<string>>)
    ensures LastServiceCommand(Dispatch(states)) == Some(true) <==> LatestCallState(states) == Some(Offhook)
    ensures LastServiceCommand(Dispatch(states)) == Some(false) <==> LatestCallState(states) == Some(Idle)
    ensures LastServiceCommand(Dispatch(states)) == None <==> LatestCallState(states) == None
    decreases |states|
  {
    if states != [] {
      var init := states[..|states| - 1];
      var d := Dispatch(states);
      assert d[..|d| - 1] == Dispatch(init);
      assert d[|d| - 1] == OnReceive(states[|states| - 1]);
      ServiceFollowsCallState(init);
    }
  }

  /** A RINGING broadcast, or any unrecognised one, never changes the last service command. */
  lemma RingingNeutral(states: seq<Option<string>>, s: Option<string>)
    requires s != Some(Offhook) && s != Some(Idle)
    ensures LastServiceCommand(Dispatch(states + [s])) == LastServiceCommand(Dispatch(states))
  {
    assert (states + [s])[..|states|] == states;
    var d := Dispatch(states + [s]);
    assert d[..|d| - 1] == Dispatch(states);
  }

  /** An IDLE broadcast stops the service whatever came before it. */
  lemma IdleAlwaysStops(states: seq<Option<string>>)
    ensures LastServiceCommand(Dispatch(states + [Some(Idle)])) == Some(false)
  {
    assert (states + [Some(Idle)])[..|states|] == states;
  }
}
