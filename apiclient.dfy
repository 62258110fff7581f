/** The dashboard's HTTP client: a request interceptor that reads the stored session and, when it
    holds a token, sets the `Authorization` header to the Bearer form that the server's middleware
    parses (the `Authorization: Bearer` scheme of section 2.1 of RFC 6750, read back by
    splitting on single spaces). */
module ApiClient {
  import opened Common
  import opened Session
  import opened Roles
  import opened Users
  import opened Auth
  import opened Middleware

  const AuthorizationHeader: string := "Authorization"

  /** `Bearer ${token}`. */
  function BearerHeader(token: string): (h: string)
    ensures |h| == 7 + |token| && h[..7] == "Bearer " && h[7..] == token
  {
    "Bearer " + token
  }

  /** `authData ? JSON.parse(authData).token : null`. */
  function StoredToken(items: map<string, AuthData>): (t: Option<string>)
    ensures AuthKey !in items ==> t.None?
    ensures AuthKey in items ==> t == items[AuthKey].token
  {
    if AuthKey in items then items[AuthKey].token else None
  }

  /** The request configuration the interceptor receives and returns. */
  class RequestConfig {
    var url: string
    var headers: map<string, string>

    constructor (url: string, headers: map<string, string>)
      ensures this.url == url && this.headers == headers
    {
      this.url := url;
      this.headers := headers;
    }

    /** The request interceptor: sets the Authorization header exactly when a truthy token is
        stored; changes no other header and not the URL. */
    method AttachToken(storage: Storage)
      modifies this
      ensures url == old(url)
      ensures Present(StoredToken(storage.items))
              ==> headers == old(headers)[AuthorizationHeader := BearerHeader(StoredToken(storage.items).value)]
      ensures !Present(StoredToken(storage.items)) ==> headers == old(headers)
    {
      var token: Option<string> := None;
      if AuthKey in storage.items {
        token := storage.items[AuthKey].token;
      }
      if token.Some? && token.value != "" {
        headers := headers[AuthorizationHeader := "Bearer " + token.value];
      }
    }
  }

  /** The middleware's `split(' ')[1]` recovers exactly the token the interceptor attached,
      provided the token holds no space. */
  lemma {:induction false} BearerRoundTrip(token: string)
    requires token != "" && ' ' !in token
    ensures ExtractToken(Some(BearerHeader(token))) == Some(token)
  {
    var parts := ["Bearer", token];
    assert ' ' !in parts[0];
    assert Join(parts, ' ') == BearerHeader(token) by {
      assert Join(parts[1..], ' ') == token;
    }
    SplitJoin(parts, ' ');
  }

  /** Login, the interceptor and the middleware together: the token a successful login returns,
      sent back in the Bearer header, admits the user who logged in, with the role name the login
      reported. This holds when the verifier gives back the claims a token was signed with and
      the token holds no space. */
  lemma {:induction false} LoginTokenAdmits(users: map<Id, User>, roles: map<Id, Role>, email: Option<string>,
                                            password: Option<string>, hash: string -> string,
                                            sign: (Claims, string) -> string, expiresEnv: Option<string>,
                                            verify: string -> Option<Claims>)
    requires EmailsUnique(users)
    requires Login(users, roles, email, password, hash, sign, expiresEnv).Done?
    requires forall c :: verify(sign(c, ExpiresIn(expiresEnv))) == Some(c)
    requires var token := Login(users, roles, email, password, hash, sign, expiresEnv).value.token;
             token != "" && ' ' !in token
    ensures var data := Login(users, roles, email, password, hash, sign, expiresEnv).value;
            var d := Decide(Some(BearerHeader(data.token)), verify, users, roles);
            && d == Admit(Attach(data.user.id, users[data.user.id], roles))
            && d.user.name == data.user.name && d.user.email == data.user.email && d.user.role == data.user.role
  {
    var data := Login(users, roles, email, password, hash, sign, expiresEnv).value;
    BearerRoundTrip(data.token);
  }

  /** A token holding a space is cut at the space: the middleware sees only its first word. */
  lemma {:induction false} SpacedTokenIsCut(w: string, rest: string)
    requires w != "" && ' ' !in w
    ensures ExtractToken(Some(BearerHeader(w + " " + rest))) == Some(w)
  {
    var tail := [' '] + rest;
    assert BearerHeader(w + " " + rest) == "Bearer" + ([' '] + (w + tail));
    SplitCons("Bearer", [' '] + (w + tail), ' ');
    assert ([' '] + (w + tail))[1..] == w + tail;
    SplitCons(w, tail, ' ');
    var s := Split(w + tail, ' ');
    assert s == [w + Split(tail, ' ')[0]] + Split(tail, ' ')[1..];
    assert Split(tail, ' ')[0] == "";
    assert w + "" == w;
  }

  /** End to end: a stored token reaches the middleware unchanged. */
  method SendAuthenticated(storage: Storage, config: RequestConfig) returns (seen: Option<string>)
    requires Present(StoredToken(storage.items)) && ' ' !in StoredToken(storage.items).value
    modifies config
    ensures seen == StoredToken(storage.items)
  {
    config.AttachToken(storage);
    var header := config.headers[AuthorizationHeader];
    BearerRoundTrip(StoredToken(storage.items).value);
    seen := ExtractToken(Some(header));
  }
}
