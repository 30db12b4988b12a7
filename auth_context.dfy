/**
 * `AuthProvider` and `useAuth`: the signed-in user and the loading flag the
 * route guards read, and the transitions on mount, sign-in, registration
 * and sign-out.
 *
 * Each request's settled outcome is a parameter; the client's token and
 * location change as `ApiClient.Client` says.
 */
module AuthContext {
  import opened Wrappers
  import Documents
  import ApiClient
  import App

  /** The provider's `value`; the functions in it are left out. */
  datatype AuthValue = AuthValue(user: Option<Documents.Doc>, loading: bool)

  /** `useAuth`: the provider's value, or the error thrown outside a
      provider (the context value is an object, so only its absence fails). */
  function UseAuth(context: Option<AuthValue>): (r: Result<AuthValue, string>)
    ensures r.Err? <==> context.None?
    ensures r.Ok? ==> r.value == context.value
    ensures r.Err? ==> r.error == "useAuth must be used within AuthProvider"
  {
    if context.None? then Err("useAuth must be used within AuthProvider") else Ok(context.value)
  }

  class AuthProvider {
    /** `user`: the profile `/api/auth/me` returned, or `null`. */
    var user: Option<Documents.Doc>
    /** `loading`. */
    var loading: bool
    /** The client whose token storage the provider reads and clears. */
    const api: ApiClient.Client

    /** The initial state: no user, loading. */
    constructor (api: ApiClient.Client)
      ensures this.api == api && user.None? && loading
    {
      this.api := api;
      user, loading := None, true;
    }

    /** The value `useAuth` returns under this provider. */
    function Value(): (v: AuthValue)
      reads this
      ensures UseAuth(Some(v)) == Ok(v)
      ensures v == AuthValue(user, loading)
    {
      AuthValue(user, loading)
    }

    /** The mount effect, given how `me()` settles when it is called: with no
        stored token nothing is fetched; otherwise the profile becomes the
        user, or, on failure, the token is removed. Loading ends either way. */
    method Mount(me: ApiClient.Outcome<Documents.Doc>)
      modifies this, api
      ensures !loading
      ensures !old(api.HasToken()) ==> user == old(user) && api.token == old(api.token) && api.href == old(api.href)
      ensures old(api.HasToken()) && me.Success? ==> user == Some(me.data) && api.token == old(api.token)
      ensures old(api.HasToken()) && me.Failure? ==> user == old(user) && api.token.None?
      ensures old(api.HasToken()) ==> api.href == if ApiClient.Unauthorized(me) then "/login" else old(api.href)
    {
      if api.HasToken() {
        var r := api.Request(me);
        if r.Success? {
          user := Some(r.data);
        } else {
          api.token := None;
        }
      }
      loading := false;
    }

    /** `login` and `register`, given how the auth request and the following
        `me()` settle: the user is set only when both succeed, and a
        failure of either is what the call rejects with. */
    method SignIn(auth: ApiClient.Outcome<ApiClient.AuthData>, me: ApiClient.Outcome<Documents.Doc>)
      returns (r: ApiClient.Outcome<ApiClient.AuthData>)
      modifies this, api
      ensures loading == old(loading)
      ensures auth.Failure? ==> r == auth && user == old(user)
      ensures auth.Success? && me.Failure? ==> r == ApiClient.Failure(me.status) && user == old(user)
      ensures auth.Success? && me.Success? ==> r == auth && user == Some(me.data)
      ensures auth.Failure? ==> api.token == ApiClient.TokenAfter(old(api.token), auth)
      ensures auth.Success? ==> api.token == ApiClient.TokenAfter(ApiClient.TokenAfterAuth(old(api.token), auth), me)
      ensures api.href == if ApiClient.Unauthorized(auth) || (auth.Success? && ApiClient.Unauthorized(me)) then "/login" else old(api.href)
    {
      r := api.Authenticate(auth);
      if r.Success? {
        var profile := api.Request(me);
        if profile.Success? {
          user := Some(profile.data);
        } else {
          r := ApiClient.Failure(profile.status);
        }
      }
    }

    /** `logout`: no user, no token, and the location is `/login`; once
        loading is over every private route now leads to `/login`. */
    method Logout()
      modifies this, api
      ensures user.None? && loading == old(loading)
      ensures api.token.None? && api.href == "/login"
      ensures !loading ==> forall i :: App.IsPrivate(i) ==> App.Render(App.Declared[i].path, user, loading) == App.Redirect("/login")
    {
      user := None;
      api.Logout();
      forall i | App.IsPrivate(i)
        ensures App.Render(App.Declared[i].path, None, false) == App.Redirect("/login")
      {
        App.SignedOutGoesToLogin(i);
      }
    }
  }
}
