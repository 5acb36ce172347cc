/** The session store (src/app/contexts/authContext.tsx): the signed-in user or none plus a
    loading flag, the mount effect that fetches the profile, and the loading gate. */
module AuthContext {
  import opened Wrappers
  import opened Types
  import opened Http
  import opened Reducers

  datatype AuthState = AuthState(user: Option<User>, loading: bool)

  /** `Unrecognised` stands for any other `type` tag. */
  datatype AuthAction = SetUser(payload: User) | RemoveUser | SetLoading(flag: bool) | Unrecognised(tag: string)

  /** Until the first profile fetch settles, the session is unknown and loading. */
  const InitialState := AuthState(None, true)

  /** `authContextReducer`. */
  function Reduce(state: AuthState, action: AuthAction): (r: AuthState)
    ensures action.SetUser? ==> r.user == Some(action.payload) && !r.loading
    ensures action.RemoveUser? ==> r.user.None? && !r.loading
    ensures action.SetLoading? ==> r.user == state.user && r.loading == action.flag
    ensures action.Unrecognised? ==> r == state
  {
    match action
    case SetUser(u) => state.(user := Some(u), loading := false)
    case RemoveUser => state.(user := None, loading := false)
    case SetLoading(b) => state.(loading := b)
    case Unrecognised(_) => state
  }

  /** The state `useReducer` holds after a sequence of dispatches. */
  function ReduceAll(state: AuthState, actions: seq<AuthAction>): AuthState {
    Fold(Reduce, state, actions)
  }

  /** `fetchUser`'s dispatches: SET_LOADING(true), then SET_USER with the fetched profile or
      REMOVE_USER when the request rejected, then SET_LOADING(false) from `finally`. */
  function FetchUserActions(profile: Outcome<User>): (acts: seq<AuthAction>)
    ensures |acts| == 3 && acts[0] == SetLoading(true) && acts[2] == SetLoading(false)
    ensures profile.Success? ==> acts[1] == SetUser(profile.value)
    ensures profile.Failure? <==> acts[1] == RemoveUser
  {
    [SetLoading(true), if profile.Success? then SetUser(profile.value) else RemoveUser, SetLoading(false)]
  }

  /** After `fetchUser`, from any state: not loading, and the user is the fetched profile, or
      none when the fetch failed. */
  lemma FetchUserSettles(state: AuthState, profile: Outcome<User>)
    ensures var r := ReduceAll(state, FetchUserActions(profile));
      && !r.loading
      && r.user == (if profile.Success? then Some(profile.value) else None)
  {
    var acts := FetchUserActions(profile);
    assert acts == [acts[0], acts[1]] + [acts[2]];
    FoldAppend(Reduce, state, [acts[0], acts[1]], [acts[2]]);
    FoldPair(Reduce, state, acts[0], acts[1]);
    FoldOne(Reduce, Reduce(Reduce(state, acts[0]), acts[1]), acts[2]);
  }

  /** What the provider renders: the full-page loading screen, or its children. */
  datatype Screen = LoadingScreen | Children

  function Gate(state: AuthState): (s: Screen)
    ensures s == Children <==> !state.loading
  {
    if state.loading then LoadingScreen else Children
  }

  /** The app starts behind the loading screen, and whatever the profile fetch yields it then
      shows the children. */
  lemma GateOpensAfterFetch(profile: Outcome<User>)
    ensures Gate(InitialState) == LoadingScreen
    ensures Gate(ReduceAll(InitialState, FetchUserActions(profile))) == Children
  {
    FetchUserSettles(InitialState, profile);
  }

  /** `AuthContextProvider`: the reducer's state and everything dispatched to it. */
  class AuthProvider {
    var state: AuthState
    var dispatched: seq<AuthAction>

    ghost predicate Valid()
      reads this
    {
      state == ReduceAll(InitialState, dispatched)
    }

    constructor ()
      ensures Valid() && state == InitialState && dispatched == []
    {
      state := InitialState;
      dispatched := [];
    }

    method Dispatch(action: AuthAction)
      requires Valid()
      modifies this
      ensures Valid()
      ensures dispatched == old(dispatched) + [action]
      ensures state == Reduce(old(state), action)
    {
      FoldAppend(Reduce, InitialState, dispatched, [action]);
      FoldOne(Reduce, state, action);
      dispatched := dispatched + [action];
      state := Reduce(state, action);
    }

    /** The effect run whenever `user` changes: nothing while a user is present, otherwise
        `fetchUser`, with `profile` the settled GET /profile/me/ through the private client. */
    method OnUserChange(profile: Outcome<User>)
      requires Valid()
      modifies this
      ensures Valid()
      ensures old(state.user).Some? ==> dispatched == old(dispatched) && state == old(state)
      ensures old(state.user).None? ==> dispatched == old(dispatched) + FetchUserActions(profile)
      ensures old(state.user).None? ==> state == ReduceAll(old(state), FetchUserActions(profile))
    {
      if state.user.Some? {
        return;
      }
      ghost var s0 := state;
      Dispatch(SetLoading(true));
      if profile.Success? {
        Dispatch(SetUser(profile.value));
      } else {
        Dispatch(RemoveUser);
      }
      Dispatch(SetLoading(false));
      ghost var acts := FetchUserActions(profile);
      assert acts == [acts[0], acts[1]] + [acts[2]];
      FoldAppend(Reduce, s0, [acts[0], acts[1]], [acts[2]]);
      FoldPair(Reduce, s0, acts[0], acts[1]);
      FoldOne(Reduce, Reduce(Reduce(s0, acts[0]), acts[1]), acts[2]);
    }
  }
}
