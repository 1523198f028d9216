/**
 * The `user` slice of the Redux store: the session of the logged-in user,
 * written by two reducers, `login` and `signout`. Redux Toolkit runs each
 * reducer on a draft of the state; the stored state afterwards is the
 * draft's contents, or the reducer's return value when it returns one.
 */
module UserReducer {
  /** The user record the login response carries (its fields, such as `token`). */
  type UserData = map<string, string>

  datatype UserState = UserState(loading: bool, success: bool, data: UserData)

  /** The action payload `login` receives: the login response body. */
  datatype LoginPayload = LoginPayload(data: UserData, success: bool)

  /** `initialState`: not loading, not successful, empty `data` (`{}`). */
  const InitialState := UserState(false, false, map[])

  /** The stored state after `login(payload)`. */
  function AfterLogin(st: UserState, p: LoginPayload): UserState {
    st.(data := p.data, success := p.success)
  }

  /**
   * The stored state after `signout` as written: the reducer rebinds its
   * parameter and returns nothing, so the draft is never touched and the
   * state stays as it was.
   */
  function AfterSignout(st: UserState): UserState {
    st
  }

  /** The stored state `signout` is evidently meant to produce. */
  function AfterSignoutIntended(st: UserState): UserState {
    InitialState
  }

  /** `login` stores the payload's `data` and `success` and keeps `loading`. */
  lemma LoginStoresPayload(st: UserState, p: LoginPayload)
    ensures AfterLogin(st, p).data == p.data
    ensures AfterLogin(st, p).success == p.success
    ensures AfterLogin(st, p).loading == st.loading
  {
  }

  /** Applying the same `login` twice stores what applying it once does. */
  lemma LoginIdempotent(st: UserState, p: LoginPayload)
    ensures AfterLogin(AfterLogin(st, p), p) == AfterLogin(st, p)
  {
  }

  /** `signout` as written changes nothing: a logged-in session stays logged in. */
  lemma SignoutKeepsSession(st: UserState, p: LoginPayload)
    ensures AfterSignout(AfterLogin(st, p)) == AfterLogin(st, p)
    ensures p.success ==> AfterSignout(AfterLogin(st, p)) != InitialState
  {
  }

  /** The intended `signout` returns to the initial state from any state. */
  lemma SignoutIntendedResets(st: UserState, p: LoginPayload)
    ensures AfterSignoutIntended(st) == InitialState
    ensures AfterSignoutIntended(AfterLogin(st, p)) == InitialState
  {
  }

  /** The store's `user` slice. */
  class UserSlice {
    var loading: bool
    var success: bool
    var data: UserData

    function State(): UserState
      reads this
    {
      UserState(loading, success, data)
    }

    constructor ()
      ensures State() == InitialState
    {
      loading, success, data := false, false, map[];
    }

    /** The `login` reducer: assigns `data` and `success` of the draft. */
    method Login(p: LoginPayload)
      modifies this
      ensures State() == AfterLogin(old(State()), p)
    {
      data := p.data;
      success := p.success;
    }

    /**
     * The `signout` reducer as written: it reassigns its local `state`
     * binding only, so nothing of the slice is written.
     */
    method Signout()
      ensures State() == AfterSignout(old(State()))
    {
      var state := State();
      state := InitialState;
    }

    /** The evidently intended `signout`: every field back to `initialState`. */
    method SignoutReset()
      modifies this
      ensures State() == AfterSignoutIntended(old(State()))
    {
      loading, success, data := InitialState.loading, InitialState.success, InitialState.data;
    }
  }

  /** A login that succeeds followed by `signout` as written: the session is still marked successful. */
  method LoginThenSignout() returns (after: UserState)
    ensures after == UserState(false, true, map["token" := "t"])
  {
    var slice := new UserSlice();
    slice.Login(LoginPayload(map["token" := "t"], true));
    slice.Signout();
    after := slice.State();
  }

  /** The same session with the intended `signout`: back to the initial state. */
  method LoginThenSignoutReset() returns (after: UserState)
    ensures after == InitialState
  {
    var slice := new UserSlice();
    slice.Login(LoginPayload(map["token" := "t"], true));
    slice.SignoutReset();
    after := slice.State();
  }
}
