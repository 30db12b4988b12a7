/**
 * The HTTP client of the front end: the stored token, the `Authorization`
 * header the request interceptor adds, the 401 handler of the response
 * interceptor, and the token writes of `register`, `login` and `logout`.
 *
 * A request is not sent: its settled outcome is a parameter, and a method
 * models what the client does with it.
 */
module ApiClient {
  import opened Wrappers

  /** How a request settled: the response's `data`, or the rejection with the
      response status (`None` when there was no response at all). */
  datatype Outcome<T> = Success(data: T) | Failure(status: Option<nat>)

  /** The body of a register or login response; only `access_token` is read. */
  datatype AuthData = AuthData(accessToken: Option<string>)

  /** The body of an upload response. */
  datatype UploadData = UploadData(fileUrl: string)

  /** `error.response?.status === 401`. */
  predicate Unauthorized<T>(o: Outcome<T>) {
    o.Failure? && o.status == Some(401)
  }

  /** `res.data.access_token` is truthy: present and not empty. */
  predicate StoresToken(o: Outcome<AuthData>) {
    o.Success? && o.data.accessToken.Some? && o.data.accessToken.value != ""
  }

  /** The stored token after a request settles through the response
      interceptor. */
  function TokenAfter<T>(token: Option<string>, o: Outcome<T>): Option<string> {
    if Unauthorized(o) then None else token
  }

  /** The stored token after `register` or `login`. */
  function TokenAfterAuth(token: Option<string>, o: Outcome<AuthData>): Option<string> {
    if StoresToken(o) then o.data.accessToken else TokenAfter(token, o)
  }

  /** A request clears the token on a 401 and otherwise leaves it alone: it
      never stores one. */
  lemma TokenAfterOnlyClears<T>(token: Option<string>, o: Outcome<T>)
    ensures TokenAfter(token, o) == token || TokenAfter(token, o).None?
    ensures TokenAfter(token, o).None? <==> token.None? || Unauthorized(o)
  {
  }

  /** `register` and `login` store exactly a non-empty `access_token`, and a
      stored token survives a response without one. */
  lemma TokenAfterAuthSpec(token: Option<string>, o: Outcome<AuthData>)
    ensures StoresToken(o) ==> TokenAfterAuth(token, o) == o.data.accessToken
    ensures o.Success? && !StoresToken(o) ==> TokenAfterAuth(token, o) == token
    ensures Unauthorized(o) ==> TokenAfterAuth(token, o).None?
    ensures TokenAfterAuth(token, o) != Some("") || token == Some("")
  {
  }

  /** `Bearer ${token}`, the header of section 2.1 of RFC 6750. */
  function BearerHeader(token: string): string {
    "Bearer " + token
  }

  /** The token a `BearerHeader` carries. */
  function BearerToken(header: string): (r: Option<string>)
    ensures r.Some? ==> BearerHeader(r.value) == header
  {
    if |header| >= 7 && header[..7] == "Bearer " then Some(header[7..]) else None
  }

  lemma BearerRoundTrip(token: string)
    ensures BearerToken(BearerHeader(token)) == Some(token)
  {
    assert BearerHeader(token)[..7] == "Bearer ";
    assert BearerHeader(token)[7..] == token;
  }

  class Client {
    /** `localStorage.getItem('token')`. */
    var token: Option<string>
    /** `window.location.href`. */
    var href: string
    /** `API_URL`. */
    const apiUrl: string

    constructor (apiUrl: string, stored: Option<string>, href: string)
      ensures this.apiUrl == apiUrl && token == stored && this.href == href
    {
      this.apiUrl, token, this.href := apiUrl, stored, href;
    }

    /** `if (token)`: a token is stored and is not empty. */
    predicate HasToken()
      reads this
    {
      token.Some? && token.value != ""
    }

    /** The `Authorization` header the request interceptor sets: present
        exactly when a token is stored, and carrying that token. */
    function Authorization(): (h: Option<string>)
      reads this
      ensures h.Some? <==> HasToken()
      ensures h.Some? ==> BearerToken(h.value) == token
    {
      if HasToken() then
        BearerRoundTrip(token.value);
        Some(BearerHeader(token.value))
      else None
    }

    /** The response interceptor: a 401 removes the token and navigates to
        `/login`; the outcome is passed on unchanged either way, so a
        rejection is still a rejection. */
    method Settle<T>(o: Outcome<T>) returns (r: Outcome<T>)
      modifies this
      ensures r == o
      ensures token == TokenAfter(old(token), o)
      ensures href == if Unauthorized(o) then "/login" else old(href)
    {
      r := o;
      if Unauthorized(o) {
        token := None;
        href := "/login";
      }
    }

    /** Any request whose method only returns `res.data`: `me`,
        `updateMe`, the entity calls and `upload`. */
    method Request<T>(o: Outcome<T>) returns (r: Outcome<T>)
      modifies this
      ensures r == o
      ensures token == TokenAfter(old(token), o)
      ensures href == if Unauthorized(o) then "/login" else old(href)
    {
      r := Settle(o);
    }

    /** `register` and `login`: store the `access_token` of a successful
        response that has a non-empty one. */
    method Authenticate(o: Outcome<AuthData>) returns (r: Outcome<AuthData>)
      modifies this
      ensures r == o
      ensures token == TokenAfterAuth(old(token), o)
      ensures href == if Unauthorized(o) then "/login" else old(href)
    {
      r := Settle(o);
      if StoresToken(r) {
        token := r.data.accessToken;
      }
    }

    /** `logout`. */
    method Logout()
      modifies this
      ensures token.None? && href == "/login"
    {
      token := None;
      href := "/login";
    }

    /** `integrations.Core.UploadFile`: unlike `upload`, which hands back the
        server's `file_url` as is, it prefixes `API_URL`. */
    method UploadFile(o: Outcome<UploadData>) returns (r: Outcome<UploadData>)
      modifies this
      ensures o.Failure? ==> r == o
      ensures o.Success? ==> r == Success(UploadData(apiUrl + o.data.fileUrl))
      ensures token == TokenAfter(old(token), o)
      ensures href == if Unauthorized(o) then "/login" else old(href)
    {
      var res := Settle(o);
      if res.Success? {
        r := Success(UploadData(apiUrl + res.data.fileUrl));
      } else {
        r := res;
      }
    }
  }
}
