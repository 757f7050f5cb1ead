/** The session held by the authentication context: rehydration from the saved cookie
    on mount, `login` and `logout`. The cookie store is a map from cookie name to value;
    `jwtDecode` is a parameter (a partial function from token to claims; `None` is a
    thrown decode error); the clock reading `Date.now()` is a parameter in milliseconds. */
module AuthContext {
  import opened Common

  const CookieName: string := "hoop_token"
  const Admin: string := "ADMIN"

  /** The claims of a decoded token; `exp` is a NumericDate in seconds (section 4.1.4 of
      RFC 7519) and may be missing. */
  datatype Claims = Claims(id: string, email: string, role: string, exp: Option<int>)

  /** The session user the context exposes. */
  datatype User = User(id: string, email: string, role: string)

  function UserFromClaims(c: Claims): (u: User)
    ensures u.id == c.id && u.email == c.email && u.role == c.role
  {
    User(c.id, c.email, c.role)
  }

  /** `decoded.exp * 1000 > Date.now()`; a missing `exp` is NaN and never compares greater. */
  predicate NotExpired(c: Claims, now: int) {
    c.exp.Some? && c.exp.value * 1000 > now
  }

  /** What the mount effect decides about the saved cookie. */
  datatype Rehydration =
    | NoSavedToken             // no cookie, or an empty one
    | Accept(token: string, user: User)
    | Discard                  // expired or undecodable: remove the cookie

  function Rehydrate(saved: Option<string>, decode: string -> Option<Claims>, now: int): (r: Rehydration)
    ensures r == NoSavedToken <==> !Truthy(saved)
    ensures r.Accept? <==> Truthy(saved) && decode(saved.value).Some? && NotExpired(decode(saved.value).value, now)
    ensures r.Accept? ==> r.token == saved.value && r.user == UserFromClaims(decode(saved.value).value)
  {
    if !Truthy(saved) then NoSavedToken
    else match decode(saved.value)
      case None => Discard
      case Some(c) => if NotExpired(c, now) then Accept(saved.value, UserFromClaims(c)) else Discard
  }

  /** The expiry comparison is strict: a token read exactly at its expiry instant is
      discarded, one millisecond earlier it is accepted. */
  lemma ExpiryIsStrict(t: string, c: Claims, decode: string -> Option<Claims>)
    requires t != "" && decode(t) == Some(c) && c.exp.Some?
    ensures Rehydrate(Some(t), decode, c.exp.value * 1000) == Discard
    ensures Rehydrate(Some(t), decode, c.exp.value * 1000 - 1).Accept?
  {
  }

  /** The context's state: the two state cells, the loading flag and the cookie store. */
  datatype Session = Session(user: Option<User>, token: Option<string>, loading: bool,
                             cookies: map<string, string>)

  /** `user` is set exactly when `token` is. */
  predicate Consistent(s: Session) {
    s.user.Some? <==> s.token.Some?
  }

  function InitialSession(cookies: map<string, string>): (s: Session)
    ensures Consistent(s) && s.loading
    ensures s.user.None? && s.token.None? && s.cookies == cookies
  {
    Session(None, None, true, cookies)
  }

  function SavedToken(cookies: map<string, string>): Option<string> {
    if CookieName in cookies then Some(cookies[CookieName]) else None
  }

  /** The mount effect. */
  function RehydrateStep(s: Session, decode: string -> Option<Claims>, now: int): (r: Session)
    ensures !r.loading
    ensures Consistent(s) ==> Consistent(r)
    ensures Rehydrate(SavedToken(s.cookies), decode, now).Discard? ==>
      r.cookies == s.cookies - {CookieName} && r.user == s.user && r.token == s.token
    ensures var d := Rehydrate(SavedToken(s.cookies), decode, now);
      d.Accept? ==> r.token == Some(d.token) && r.user == Some(d.user) && r.cookies == s.cookies
    ensures Rehydrate(SavedToken(s.cookies), decode, now).NoSavedToken? ==> r == s.(loading := false)
  {
    match Rehydrate(SavedToken(s.cookies), decode, now)
    case NoSavedToken => s.(loading := false)
    case Accept(t, u) => s.(token := Some(t), user := Some(u), loading := false)
    case Discard => s.(cookies := s.cookies - {CookieName}, loading := false)
  }

  /** `login(t)`: store the cookie, then decode; a decode error escapes to the caller
      after the cookie is written, with both state cells untouched. */
  function LoginStep(s: Session, t: string, decode: string -> Option<Claims>): (r: Session)
    ensures r.cookies == s.cookies[CookieName := t]
    ensures decode(t).Some? ==> r.token == Some(t) && r.user == Some(UserFromClaims(decode(t).value))
    ensures decode(t).None? ==> r.token == s.token && r.user == s.user
    ensures Consistent(s) ==> Consistent(r)
  {
    var s1 := s.(cookies := s.cookies[CookieName := t]);
    match decode(t)
    case None => s1
    case Some(c) => s1.(token := Some(t), user := Some(UserFromClaims(c)))
  }

  /** `logout()` */
  function LogoutStep(s: Session): (r: Session)
    ensures r.token.None? && r.user.None? && CookieName !in r.cookies
    ensures r.loading == s.loading
    ensures r.cookies == s.cookies - {CookieName}
  {
    s.(cookies := s.cookies - {CookieName}, token := None, user := None)
  }

  lemma LogoutIdempotent(s: Session)
    ensures LogoutStep(LogoutStep(s)) == LogoutStep(s)
  {
  }

  /** A session rehydrated from a cookie written by login is the session login made, as
      long as the token has not expired. */
  lemma LoginThenRehydrate(s: Session, t: string, decode: string -> Option<Claims>, now: int)
    requires t != "" && decode(t).Some? && NotExpired(decode(t).value, now)
    ensures var after := LoginStep(s, t, decode);
      var reloaded := RehydrateStep(InitialSession(after.cookies), decode, now);
      reloaded.user == after.user && reloaded.token == after.token
  {
  }

  /** The provider component. */
  class AuthProvider {
    var user: Option<User>
    var token: Option<string>
    var loading: bool
    var cookies: map<string, string>

    function State(): Session
      reads this
    {
      Session(user, token, loading, cookies)
    }

    ghost predicate Valid()
      reads this
    {
      Consistent(State())
    }

    constructor (browserCookies: map<string, string>)
      ensures Valid() && State() == InitialSession(browserCookies)
    {
      user, token, loading, cookies := None, None, true, browserCookies;
    }

    method OnMount(decode: string -> Option<Claims>, now: int)
      requires Valid()
      modifies this
      ensures Valid() && State() == RehydrateStep(old(State()), decode, now)
    {
      var saved := SavedToken(cookies);
      if Truthy(saved) {
        match decode(saved.value)
        case None =>
          cookies := cookies - {CookieName};
        case Some(c) =>
          if c.exp.Some? && c.exp.value * 1000 > now {
            token := saved;
            user := Some(UserFromClaims(c));
          } else {
            cookies := cookies - {CookieName};
          }
      }
      loading := false;
    }

    /** Returns false when decoding threw, after the cookie was already written. */
    method Login(t: string, decode: string -> Option<Claims>) returns (ok: bool)
      requires Valid()
      modifies this
      ensures Valid() && State() == LoginStep(old(State()), t, decode)
      ensures ok <==> decode(t).Some?
    {
      cookies := cookies[CookieName := t];
      var decoded := decode(t);
      ok := decoded.Some?;
      if ok {
        token := Some(t);
        user := Some(UserFromClaims(decoded.value));
      }
    }

    method Logout()
      requires Valid()
      modifies this
      ensures Valid() && State() == LogoutStep(old(State()))
    {
      cookies := cookies - {CookieName};
      token := None;
      user := None;
    }
  }
}
