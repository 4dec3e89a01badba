/**
 * The session store's `user` slice: seven fields that `setUser` overwrites
 * from a payload and `clearUser` resets to the initial values.
 */
module UserSlice {
  import opened Common

  /** `UserState`; `token` may be `null`. */
  datatype UserState = UserState(
    firstName: string,
    lastName: string,
    email: string,
    dob: string,
    phone: string,
    preferences: seq<string>,
    token: Option<string>)

  /** Every string empty, no preferences, no token. */
  const InitialState := UserState("", "", "", "", "", [], None)

  datatype UserAction = SetUser(payload: UserState) | ClearUser

  /** The reducer, as a function of the previous state and the action. */
  function Reduce(state: UserState, action: UserAction): UserState
  {
    match action
    case SetUser(payload) => payload
    case ClearUser => InitialState
  }

  /** Applying actions in order. */
  function ReduceAll(state: UserState, actions: seq<UserAction>): UserState
    decreases |actions|
  {
    if actions == [] then state else ReduceAll(Reduce(state, actions[0]), actions[1..])
  }

  /** After a non-empty sequence of actions the state is decided by the last action alone. */
  lemma {:induction false} LastActionDecides(state: UserState, actions: seq<UserAction>)
    requires actions != []
    ensures ReduceAll(state, actions) == Reduce(state, actions[|actions| - 1])
    decreases |actions|
  {
    if |actions| > 1 {
      LastActionDecides(Reduce(state, actions[0]), actions[1..]);
      assert actions[1..][|actions[1..]| - 1] == actions[|actions| - 1];
    }
  }

  /**
   * `setUser` replaces all seven fields by the payload's and is
   * last-write-wins; `clearUser` returns to the initial state from anywhere
   * and is idempotent.
   */
  lemma ReducerLaws(state: UserState, a: UserState, b: UserState)
    ensures Reduce(state, SetUser(a)) == a
    ensures Reduce(state, ClearUser) == InitialState
    ensures Reduce(Reduce(state, SetUser(a)), SetUser(b)) == Reduce(state, SetUser(b))
    ensures Reduce(Reduce(state, ClearUser), ClearUser) == Reduce(state, ClearUser)
    ensures Reduce(state, ClearUser).email == "" && Reduce(state, ClearUser).token == None
  {
  }

  /** The store's `user` state object, which the reducers update field by field. */
  class UserStore {
    var firstName: string
    var lastName: string
    var email: string
    var dob: string
    var phone: string
    var preferences: seq<string>
    var token: Option<string>

    function State(): UserState
      reads this
    {
      UserState(firstName, lastName, email, dob, phone, preferences, token)
    }

    constructor ()
      ensures State() == InitialState
    {
      firstName := "";
      lastName := "";
      email := "";
      phone := "";
      token := None;
      dob := "";
      preferences := [];
    }

    /** `setUser`: the seven fields take the payload's values. */
    method SetUser(payload: UserState)
      modifies this
      ensures State() == Reduce(old(State()), UserAction.SetUser(payload))
    {
      firstName := payload.firstName;
      lastName := payload.lastName;
      email := payload.email;
      phone := payload.phone;
      dob := payload.dob;
      preferences := payload.preferences;
      token := payload.token;
    }

    /** `clearUser`: back to the initial state. */
    method ClearUser()
      modifies this
      ensures State() == Reduce(old(State()), UserAction.ClearUser)
    {
      firstName := "";
      lastName := "";
      email := "";
      phone := "";
      dob := "";
      preferences := [];
      token := None;
    }
  }
}
