/** The `auth` slice of the Redux store and the `loginUser` thunk that looks a
    warehouseman up by secret key. */
module AuthSlice {
  import opened Wrappers

  /** A record of the remote `warehousemans` collection. */
  datatype Warehouseman = Warehouseman(id: int, name: string, secretKey: string)

  /** The signed-in user: the matching warehouseman plus a session token. */
  datatype User = User(profile: Warehouseman, token: string)

  const SessionToken: string := "fake-jwt-token"
  const BadCredentials: string := "Identifiants incorrects"

  /** The first warehouseman whose secret key is `secretKey`, if any (`find`). */
  function FindBySecretKey(warehousemen: seq<Warehouseman>, secretKey: string): (r: Option<Warehouseman>)
    ensures r.None? <==> forall k :: 0 <= k < |warehousemen| ==> warehousemen[k].secretKey != secretKey
    ensures r.Some? ==> r.value.secretKey == secretKey
    ensures r.Some? ==> exists k :: (0 <= k < |warehousemen| && warehousemen[k] == r.value &&
                                     forall m :: 0 <= m < k ==> warehousemen[m].secretKey != secretKey)
  {
    if warehousemen == [] then None
    else if warehousemen[0].secretKey == secretKey then Some(warehousemen[0])
    else
      var r := FindBySecretKey(warehousemen[1..], secretKey);
      assert forall k :: 1 <= k < |warehousemen| ==> warehousemen[k] == warehousemen[1..][k - 1];
      r
  }

  /** `loginUser`: given what the request for the warehousemen returned (their
      list, or the transport's error message), the first warehouseman with the
      secret key, with the session token added, or the rejection value. */
  function LoginUser(fetched: Result<seq<Warehouseman>, string>, secretKey: string): (r: Result<User, string>)
    ensures fetched.Failure? ==> r == Failure(fetched.error)
    ensures fetched.Success? ==>
      (r.Success? <==> exists k :: 0 <= k < |fetched.value| && fetched.value[k].secretKey == secretKey)
    ensures fetched.Success? && r.Failure? ==> r.error == BadCredentials
    ensures r.Success? ==> r.value.token == SessionToken && r.value.profile.secretKey == secretKey
    ensures r.Success? ==> fetched.Success? && r.value.profile in fetched.value
    ensures fetched.Success? && FindBySecretKey(fetched.value, secretKey).Some? ==>
      r == Success(User(FindBySecretKey(fetched.value, secretKey).value, SessionToken))
  {
    match fetched
    case Failure(message) => Failure(message)
    case Success(warehousemen) =>
      match FindBySecretKey(warehousemen, secretKey)
      case Some(u) => Success(User(u, SessionToken))
      case None => Failure(BadCredentials)
  }

  class AuthState {
    var user: Option<User>
    var isAuthenticated: bool
    var loading: bool
    var error: Option<string>

    /** A user is stored exactly when the state is authenticated. */
    ghost predicate Valid()
      reads this
    {
      isAuthenticated <==> user.Some?
    }

    /** The initial state: nobody signed in, nothing loading, no error. */
    constructor ()
      ensures Valid()
      ensures user == None && !isAuthenticated && !loading && error == None
    {
      user, isAuthenticated, loading, error := None, false, false, None;
    }

    /** `logout`: signs out and clears the error; `loading` is kept. */
    method Logout()
      modifies this
      ensures Valid()
      ensures user == None && !isAuthenticated && error == None && loading == old(loading)
    {
      user := None;
      isAuthenticated := false;
      error := None;
    }

    /** `loginUser.pending`: loading, error cleared, sign-in state kept. */
    method Pending()
      requires Valid()
      modifies this
      ensures Valid()
      ensures loading && error == None
      ensures user == old(user) && isAuthenticated == old(isAuthenticated)
    {
      loading := true;
      error := None;
    }

    /** `loginUser.fulfilled`: the payload becomes the signed-in user. */
    method Fulfilled(payload: User)
      modifies this
      ensures Valid()
      ensures user == Some(payload) && isAuthenticated && !loading && error == None
    {
      user := Some(payload);
      isAuthenticated := true;
      loading := false;
      error := None;
    }

    /** `loginUser.rejected`: the payload becomes the error; the sign-in state is kept. */
    method Rejected(payload: string)
      requires Valid()
      modifies this
      ensures Valid()
      ensures error == Some(payload) && !loading
      ensures user == old(user) && isAuthenticated == old(isAuthenticated)
    {
      error := Some(payload);
      loading := false;
    }

    /** Dispatching `loginUser`: the pending transition, then the fulfilled or
        rejected one according to the lookup's outcome. */
    method Login(fetched: Result<seq<Warehouseman>, string>, secretKey: string)
      requires Valid()
      modifies this
      ensures Valid() && !loading
      ensures LoginUser(fetched, secretKey).Success? ==>
        user == Some(LoginUser(fetched, secretKey).value) && isAuthenticated && error == None
      ensures LoginUser(fetched, secretKey).Failure? ==>
        error == Some(LoginUser(fetched, secretKey).error)
        && user == old(user) && isAuthenticated == old(isAuthenticated)
    {
      Pending();
      match LoginUser(fetched, secretKey)
      case Success(u) => Fulfilled(u);
      case Failure(e) => Rejected(e);
    }
  }
}
