/** The front end's login reducer: a small state machine over the login status. */

module Contexts {
  import opened Primitives

  /** What the front end knows about the session; `Checking` is the state on start-up. */
  datatype LoginState =
    | LoggedOut
    | LoggedIn(username: string, userId: Int32)
    | Checking

  datatype LoginAction =
    | Login(username: string, userId: Int32)
    | Logout

  /** The reducer is created in state `Checking`, before the session is known. */
  const InitialLoginState: LoginState := Checking

  /**
   * `reduce`: the new state is decided by the action alone. A login carries its
   * user into `LoggedIn`, a logout leads to `LoggedOut`; `Checking` is never produced.
   */
  function Reduce(state: LoginState, action: LoginAction): (r: LoginState)
    ensures !r.Checking?
    ensures action.Login? ==> r == LoggedIn(action.username, action.userId)
    ensures action.Logout? ==> r == LoggedOut
    ensures r.LoggedIn? <==> action.Login?
  {
    match action
    case Login(username, userId) => LoggedIn(username, userId)
    case Logout => LoggedOut
  }

  /** The previous state plays no part in the result. */
  lemma ReduceIgnoresState(s: LoginState, t: LoginState, action: LoginAction)
    ensures Reduce(s, action) == Reduce(t, action)
  {
  }

  /** The state after dispatching `actions` in order, starting from `state`. */
  function Dispatch(state: LoginState, actions: seq<LoginAction>): LoginState
    decreases |actions|
  {
    if actions == [] then state else Dispatch(Reduce(state, actions[0]), actions[1..])
  }

  /** After at least one action, the state is what the last action alone gives. */
  lemma {:induction false} DispatchIsLastAction(state: LoginState, actions: seq<LoginAction>)
    requires |actions| > 0
    ensures Dispatch(state, actions) == Reduce(state, actions[|actions| - 1])
    decreases |actions|
  {
    if |actions| > 1 {
      DispatchIsLastAction(Reduce(state, actions[0]), actions[1..]);
      assert actions[1..][|actions[1..]| - 1] == actions[|actions| - 1];
      ReduceIgnoresState(Reduce(state, actions[0]), state, actions[|actions| - 1]);
    }
  }

  /**
   * Starting from the initial state, the reducer is `Checking` exactly as long
   * as no action has been dispatched.
   */
  lemma CheckingOnlyInitially(actions: seq<LoginAction>)
    ensures Dispatch(InitialLoginState, actions).Checking? <==> actions == []
  {
    if actions != [] {
      DispatchIsLastAction(InitialLoginState, actions);
    }
  }

  /** Logging in as Tigran, then out, then in as Emma ends logged in as Emma. */
  lemma LoginLogoutLogin()
    ensures Dispatch(InitialLoginState, [Login("Tigran", 1), Logout, Login("Emma", 2)])
      == LoggedIn("Emma", 2)
  {
    DispatchIsLastAction(InitialLoginState, [Login("Tigran", 1), Logout, Login("Emma", 2)]);
  }
}
