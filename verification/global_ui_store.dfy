/** The global loading overlay's store: a boolean flag and an optional
    message, both overwritten by every call. There is no counter: the last
    call decides whether the overlay shows. */
module GlobalUI {
  import opened Wrappers

  datatype UIState = UIState(isGlobalLoading: bool, loadingMessage: Option<string>)

  /** Not loading, no message. */
  const Initial: UIState := UIState(false, None)

  /** A call on the store: `setGlobalLoading(isLoading, message)` or
      `clearLoading()`. */
  datatype UIAction = SetGlobalLoadingCall(isLoading: bool, message: Option<string>) | ClearLoadingCall

  /** The overlay renders exactly when the flag is set. */
  predicate OverlayVisible(s: UIState) {
    s.isGlobalLoading
  }

  /** The state after one call. */
  function Apply(s: UIState, a: UIAction): (r: UIState)
    ensures OverlayVisible(r) <==> a.SetGlobalLoadingCall? && a.isLoading
    ensures a.SetGlobalLoadingCall? ==> r.loadingMessage == a.message
    ensures a.ClearLoadingCall? ==> r == Initial
  {
    match a
    case SetGlobalLoadingCall(isLoading, message) => UIState(isLoading, message)
    case ClearLoadingCall => UIState(false, None)
  }

  /** The state after a sequence of calls, oldest first. */
  function Run(s: UIState, actions: seq<UIAction>): UIState
    decreases |actions|
  {
    if actions == [] then s else Run(Apply(s, actions[0]), actions[1..])
  }

  /** Whatever came before, the state after a run is what its last call
      alone makes of it. */
  lemma {:induction false} LastCallWins(s: UIState, actions: seq<UIAction>)
    requires actions != []
    ensures Run(s, actions) == Apply(Initial, actions[|actions| - 1])
    decreases |actions|
  {
    if |actions| > 1 {
      LastCallWins(Apply(s, actions[0]), actions[1..]);
      assert actions[1..][|actions[1..]| - 1] == actions[|actions| - 1];
    }
  }

  /** However many times loading was switched on, one `clearLoading` or one
      `setGlobalLoading(false)` hides the overlay. */
  lemma NoReferenceCounting(s: UIState, actions: seq<UIAction>, message: Option<string>)
    ensures Run(s, actions + [ClearLoadingCall]) == Initial
    ensures !OverlayVisible(Run(s, actions + [SetGlobalLoadingCall(false, message)]))
  {
    LastCallWins(s, actions + [ClearLoadingCall]);
    LastCallWins(s, actions + [SetGlobalLoadingCall(false, message)]);
  }

  /** Clearing twice is clearing once. */
  lemma ClearIdempotent(s: UIState)
    ensures Apply(Apply(s, ClearLoadingCall), ClearLoadingCall) == Apply(s, ClearLoadingCall)
  {
  }

  /** The zustand store. */
  class GlobalUIStore {
    var isGlobalLoading: bool
    var loadingMessage: Option<string>

    function State(): UIState
      reads this
    {
      UIState(isGlobalLoading, loadingMessage)
    }

    constructor ()
      ensures State() == Initial
    {
      isGlobalLoading := false;
      loadingMessage := None;
    }

    /** `setGlobalLoading`: both fields take the given values, an absent
        message included. */
    method SetGlobalLoading(isLoading: bool, message: Option<string>)
      modifies this
      ensures State() == Apply(old(State()), SetGlobalLoadingCall(isLoading, message))
      ensures isGlobalLoading == isLoading && loadingMessage == message
    {
      isGlobalLoading, loadingMessage := isLoading, message;
    }

    /** `clearLoading`: back to the initial state. */
    method ClearLoading()
      modifies this
      ensures State() == Apply(old(State()), ClearLoadingCall)
      ensures State() == Initial
    {
      isGlobalLoading, loadingMessage := false, None;
    }
  }
}
