/** The authentication provider (src/providers/AuthProvider.tsx): the default route of a role,
    the session state, and the two storage slots ("auth_token", "auth_user") it writes, clears
    and restores from. The authentication service's replies, the decoding of the token and the
    clock are parameters. */
module AuthProvider {
  import opened Wrappers
  import opened Types

  const TokenKey: string := "auth_token"
  const UserKey: string := "auth_user"

  const HomeRoute: string := "/"
  const DeliveryRoute: string := "/delivery/dashboard"
  const RestaurantRoute: string := "/restaurant/dashboard"

  /** `getDefaultRouteForUser`. */
  function DefaultRouteForUser(user: Option<AuthUser>): (route: string)
    ensures user.Some? && user.value.role == Some(ROLE_DELIVERY) ==> route == DeliveryRoute
    ensures user.Some? && user.value.role == Some(ROLE_RESTAURANT) ==> route == RestaurantRoute
    ensures user.None? || user.value.role !in {Some(ROLE_DELIVERY), Some(ROLE_RESTAURANT)} ==> route == HomeRoute
  {
    match user
    case None => HomeRoute
    case Some(u) =>
      if u.role == Some(ROLE_DELIVERY) then DeliveryRoute
      else if u.role == Some(ROLE_RESTAURANT) then RestaurantRoute
      else HomeRoute
  }

  /** The three routes are different, so the route tells the role apart. */
  lemma RoutesSeparateRoles(u: AuthUser)
    ensures DefaultRouteForUser(Some(u)) == DeliveryRoute <==> u.role == Some(ROLE_DELIVERY)
    ensures DefaultRouteForUser(Some(u)) == RestaurantRoute <==> u.role == Some(ROLE_RESTAURANT)
  {
    assert DeliveryRoute[1] != RestaurantRoute[1];
    assert |HomeRoute| == 1;
  }

  /** `decoded?.userId || response.user.id`: the token's subject when it has a non-empty one. */
  function UserIdFor(subject: Option<string>, responseId: string): (id: string)
    ensures subject.Some? && subject.value != "" ==> id == subject.value
    ensures subject.None? || subject.value == "" ==> id == responseId
  {
    if subject.Some? && subject.value != "" then subject.value else responseId
  }

  /** What the token's payload gives when decoded: nothing readable, or an expiry that may be
      missing. */
  datatype Payload = Unreadable | Readable(exp: Option<int>)

  /** `isTokenExpired` at clock reading `now` (milliseconds). An unreadable token counts as
      expired. A payload without `exp` compares `now` with NaN, which is false, so such a
      token never expires. */
  function IsTokenExpired(payload: Payload, now: int): (expired: bool)
    ensures payload.Unreadable? ==> expired
    ensures payload.Readable? && payload.exp.None? ==> !expired
    ensures payload.Readable? && payload.exp.Some? ==> (expired <==> now >= payload.exp.value * 1000)
  {
    match payload
    case Unreadable => true
    case Readable(exp) =>
      match exp
      case None => false
      case Some(e) => now >= e * 1000
  }

  /** The text in the user slot: what `JSON.stringify` wrote, or text that does not parse. */
  datatype UserText = Serialized(user: AuthUser) | Corrupt(text: string)

  predicate TruthyText(t: Option<string>)
  {
    t.Some? && t.value != ""
  }

  predicate TruthyUser(u: Option<UserText>)
  {
    u.Some? && (u.value.Serialized? || u.value.text != "")
  }

  /** The three ends of `loadStoredAuth`. */
  datatype Restore = Resume(user: AuthUser, token: string) | ClearStorage | ParseFailed

  function Restored(storedToken: Option<string>, storedUser: Option<UserText>, payload: Payload, now: int): (r: Restore)
    ensures r.Resume? <==>
      TruthyText(storedToken) && TruthyUser(storedUser) && !IsTokenExpired(payload, now) && storedUser.value.Serialized?
    ensures r.ClearStorage? <==> !(TruthyText(storedToken) && TruthyUser(storedUser) && !IsTokenExpired(payload, now))
    ensures r.Resume? ==> r.token == storedToken.value && r.user == storedUser.value.user
  {
    if TruthyText(storedToken) && TruthyUser(storedUser) && !IsTokenExpired(payload, now) then
      match storedUser.value
      case Serialized(u) => Resume(u, storedToken.value)
      case Corrupt(_) => ParseFailed
    else ClearStorage
  }

  /** A session is only resumed from a readable token whose expiry, if it has one, lies after
      the clock. */
  lemma ResumeNeedsLiveToken(storedToken: Option<string>, storedUser: Option<UserText>, payload: Payload, now: int)
    requires Restored(storedToken, storedUser, payload, now).Resume?
    ensures payload.Readable?
    ensures payload.exp.Some? ==> now < payload.exp.value * 1000
    ensures storedToken.Some? && storedToken.value != ""
  {
  }

  /** What a login writes is resumed on the next start while its token is live; nothing is
      resumed after a logout. */
  lemma LoginSurvivesReload(u: AuthUser, token: string, payload: Payload, now: int)
    requires token != "" && !IsTokenExpired(payload, now)
    ensures Restored(Some(token), Some(Serialized(u)), payload, now) == Resume(u, token)
    ensures Restored(None, None, payload, now) == ClearStorage
  {
  }

  /** A successful reply of the authentication service: the user and the token. */
  datatype Session = Session(user: AuthUser, token: string)

  class Auth {
    var user: Option<AuthUser>
    var token: Option<string>
    var isLoading: bool
    var isAuthenticated: bool
    var storedToken: Option<string>
    var storedUser: Option<UserText>

    /** The provider starts loading, with whatever the storage held. */
    constructor (savedToken: Option<string>, savedUser: Option<UserText>)
      ensures user.None? && token.None? && isLoading && !isAuthenticated
      ensures storedToken == savedToken && storedUser == savedUser
    {
      user := None;
      token := None;
      isLoading := true;
      isAuthenticated := false;
      storedToken := savedToken;
      storedUser := savedUser;
    }

    /** `loadStoredAuth` at start-up; `payload` is the decoding of the stored token. A parse
        failure of the stored user ends loading and leaves the storage as it is. */
    method LoadStoredAuth(payload: Payload, now: int)
      modifies this
      ensures !isLoading
      ensures Restored(old(storedToken), old(storedUser), payload, now).Resume? ==>
        user == Some(Restored(old(storedToken), old(storedUser), payload, now).user) &&
        token == old(storedToken) && isAuthenticated &&
        storedToken == old(storedToken) && storedUser == old(storedUser)
      ensures Restored(old(storedToken), old(storedUser), payload, now).ClearStorage? ==>
        storedToken.None? && storedUser.None? &&
        user == old(user) && token == old(token) && isAuthenticated == old(isAuthenticated)
      ensures Restored(old(storedToken), old(storedUser), payload, now).ParseFailed? ==>
        storedToken == old(storedToken) && storedUser == old(storedUser) &&
        user == old(user) && token == old(token) && isAuthenticated == old(isAuthenticated)
    {
      var r := Restored(storedToken, storedUser, payload, now);
      match r {
        case Resume(u, t) =>
          user := Some(u);
          token := Some(t);
          isAuthenticated := true;
        case ClearStorage =>
          storedToken := None;
          storedUser := None;
        case ParseFailed =>
      }
      isLoading := false;
    }

    /** `login`; `reply` is the service's answer and `subject` the subject decoded from the
        returned token. On success the session is stored and the user carries the subject as
        id; on failure loading ends, the error is passed on in `raised`, and nothing else
        changes. */
    method Login(reply: Result<Session, Thrown>, subject: Option<string>) returns (raised: Option<Thrown>)
      modifies this
      ensures !isLoading
      ensures reply.Ok? ==>
        raised.None? && isAuthenticated &&
        user == Some(reply.value.user.(id := UserIdFor(subject, reply.value.user.id))) &&
        token == Some(reply.value.token) &&
        storedToken == token && storedUser == Some(Serialized(user.value))
      ensures reply.Err? ==>
        raised == Some(reply.error) && user == old(user) && token == old(token) &&
        isAuthenticated == old(isAuthenticated) &&
        storedToken == old(storedToken) && storedUser == old(storedUser)
    {
      isLoading := true;
      match reply {
        case Ok(session) =>
          var withId := session.user.(id := UserIdFor(subject, session.user.id));
          storedToken := Some(session.token);
          storedUser := Some(Serialized(withId));
          user := Some(withId);
          token := Some(session.token);
          isLoading := false;
          isAuthenticated := true;
          raised := None;
        case Err(e) =>
          isLoading := false;
          raised := Some(e);
      }
    }

    /** `register` goes through the same steps as `login` with the registration reply. */
    method Register(reply: Result<Session, Thrown>, subject: Option<string>) returns (raised: Option<Thrown>)
      modifies this
      ensures !isLoading
      ensures reply.Ok? ==>
        raised.None? && isAuthenticated &&
        user == Some(reply.value.user.(id := UserIdFor(subject, reply.value.user.id))) &&
        token == Some(reply.value.token) &&
        storedToken == token && storedUser == Some(Serialized(user.value))
      ensures reply.Err? ==>
        raised == Some(reply.error) && user == old(user) && token == old(token) &&
        isAuthenticated == old(isAuthenticated) &&
        storedToken == old(storedToken) && storedUser == old(storedUser)
    {
      raised := Login(reply, subject);
    }

    /** `logout`: whatever the service answers, both slots are cleared and the state is
        signed out. */
    method Logout(answer: Outcome<Thrown>)
      modifies this
      ensures user.None? && token.None? && !isLoading && !isAuthenticated
      ensures storedToken.None? && storedUser.None?
    {
      storedToken := None;
      storedUser := None;
      user := None;
      token := None;
      isLoading := false;
      isAuthenticated := false;
    }

    /** `updateProfile`: refused without a user and a token; otherwise the returned profile
        replaces the user in the state and in storage, and a failure only ends loading.
        A token counts only when it is non-empty. */
    method UpdateProfile(reply: Result<AuthUser, Thrown>) returns (raised: Option<Thrown>)
      modifies this
      ensures old(user).None? || !TruthyText(old(token)) ==>
        raised == Some(ErrorObject("Utilisateur non connecté")) &&
        user == old(user) && token == old(token) && isLoading == old(isLoading) &&
        isAuthenticated == old(isAuthenticated) &&
        storedToken == old(storedToken) && storedUser == old(storedUser)
      ensures old(user).Some? && TruthyText(old(token)) ==>
        !isLoading && token == old(token) && isAuthenticated == old(isAuthenticated) &&
        storedToken == old(storedToken) &&
        (reply.Ok? ==> raised.None? && user == Some(reply.value) && storedUser == Some(Serialized(reply.value))) &&
        (reply.Err? ==> raised == Some(reply.error) && user == old(user) && storedUser == old(storedUser))
    {
      if user.None? || !TruthyText(token) {
        return Some(ErrorObject("Utilisateur non connecté"));
      }
      isLoading := true;
      match reply {
        case Ok(u) =>
          storedUser := Some(Serialized(u));
          user := Some(u);
          isLoading := false;
          raised := None;
        case Err(e) =>
          isLoading := false;
          raised := Some(e);
      }
    }
  }
}
