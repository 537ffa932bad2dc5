/**
 * Authentication sessions: the `auth_sessions` table with its repository,
 * and the auth services over it (`TokenSessionMaker.make`,
 * `TokenSessionRefresher.refresh`, `UserAuthenticator.authenticate`,
 * `close_session`, `revoke_access_tokens`).
 *
 * Times are whole seconds given by the caller (`now`); the repository's
 * encoder, the JWT signer and every fresh `uuid4()` are parameters.
 */
module Auth {
  import opened Wrappers
  import opened Domain
  import opened Users

  /** `SESSION_LIFETIME = {"days": 30}`, in seconds. */
  const SessionLifetime := 30 * 24 * 60 * 60

  /** `ACCESS_TOKEN_LIFETIME = {"minutes": 10}`, in seconds. */
  const AccessTokenLifetime := 10 * 60

  /** The optional device description a session keeps. */
  datatype Device = Device(deviceType: Option<string>, deviceName: Option<string>, deviceOs: Option<string>, ip: Option<string>)

  /** A row of `auth_sessions`: `token` holds the hash of the refresh token. */
  datatype SessionRow = SessionRow(
    token: string,
    userId: string,
    deviceId: string,
    device: Device,
    userAgent: Option<string>,
    created: int,
    expiresIn: Option<int>,
    deleted: Option<int>)

  /** The filter every session query shares: `expires_in > now` (false when NULL) and not deleted. */
  predicate Active(row: SessionRow, now: int)
  {
    row.expiresIn.Some? && row.expiresIn.value > now && row.deleted.None?
  }

  predicate ByToken(hash: string, now: int, row: SessionRow)
  {
    row.token == hash && Active(row, now)
  }

  predicate ByUserDevice(userId: string, deviceId: string, now: int, row: SessionRow)
  {
    row.userId == userId && row.deviceId == deviceId && Active(row, now)
  }

  predicate ByUser(userId: string, now: int, row: SessionRow)
  {
    row.userId == userId && Active(row, now)
  }

  function ByTokenFilter(hash: string, now: int): SessionRow -> bool
  {
    row => ByToken(hash, now, row)
  }

  function ByUserDeviceFilter(userId: string, deviceId: string, now: int): SessionRow -> bool
  {
    row => ByUserDevice(userId, deviceId, now, row)
  }

  function ByUserFilter(userId: string, now: int): SessionRow -> bool
  {
    row => ByUser(userId, now, row)
  }

  /** `get`: the one active session whose stored hash is `hash`. */
  function SessionByToken(rows: seq<SessionRow>, hash: string, now: int): (r: Result<Option<nat>, ServiceError>)
    ensures r.Ok? && r.value.Some? ==> r.value.value < |rows| && ByToken(hash, now, rows[r.value.value])
    ensures r == Ok(None) <==> forall i :: 0 <= i < |rows| ==> !ByToken(hash, now, rows[i])
    ensures r.Ok? && r.value.Some? ==> forall i :: 0 <= i < |rows| && i != r.value.value ==> !ByToken(hash, now, rows[i])
  {
    Lookup(rows, ByTokenFilter(hash, now))
  }

  /** `get_by_user_device`: the one active session of that user on that device. */
  function SessionByUserDevice(rows: seq<SessionRow>, userId: string, deviceId: string, now: int): (r: Result<Option<nat>, ServiceError>)
    ensures r.Ok? && r.value.Some? ==> r.value.value < |rows| && Active(rows[r.value.value], now)
    ensures r.Ok? && r.value.Some? ==> rows[r.value.value].userId == userId && rows[r.value.value].deviceId == deviceId
    ensures r == Ok(None) <==> forall i :: 0 <= i < |rows| ==> !ByUserDevice(userId, deviceId, now, rows[i])
  {
    Lookup(rows, ByUserDeviceFilter(userId, deviceId, now))
  }

  /**
   * The rows after every session satisfying `p` is stamped deleted at `now`:
   * those are no longer active at any time, and nothing else changes.
   */
  function SoftDeleteWhere(rows: seq<SessionRow>, p: SessionRow -> bool, now: int): (r: seq<SessionRow>)
    ensures |r| == |rows|
    ensures forall i :: 0 <= i < |rows| && !p(rows[i]) ==> r[i] == rows[i]
    ensures forall i :: 0 <= i < |rows| ==> r[i] == rows[i].(deleted := r[i].deleted)
    ensures forall i, t :: 0 <= i < |rows| && p(rows[i]) ==> !Active(r[i], t) && r[i].deleted == Some(now)
  {
    seq(|rows|, i requires 0 <= i < |rows| => if p(rows[i]) then rows[i].(deleted := Some(now)) else rows[i])
  }

  /** The loop state of a soft delete: rows before `i` are stamped where `p` holds, the rest are untouched. */
  predicate StampedUpTo(before: seq<SessionRow>, after: seq<SessionRow>, p: SessionRow -> bool, now: int, i: nat)
  {
    && |after| == |before| && i <= |before|
    && (forall j :: 0 <= j < i ==> after[j] == if p(before[j]) then before[j].(deleted := Some(now)) else before[j])
    && (forall j :: i <= j < |before| ==> after[j] == before[j])
  }

  lemma StampedAll(before: seq<SessionRow>, after: seq<SessionRow>, p: SessionRow -> bool, now: int)
    requires StampedUpTo(before, after, p, now, |before|)
    ensures after == SoftDeleteWhere(before, p, now)
  {
  }

  /** The rows after `remove`: the session `get` finds is deleted outright; otherwise nothing changes. */
  function AfterRemove(rows: seq<SessionRow>, hash: string, now: int): (r: seq<SessionRow>)
    ensures SessionByToken(rows, hash, now).Ok? && SessionByToken(rows, hash, now).value.Some?
            ==> var i := SessionByToken(rows, hash, now).value.value;
                |r| == |rows| - 1 && forall j :: 0 <= j < |rows| && j != i ==> rows[j] in r
    ensures !(SessionByToken(rows, hash, now).Ok? && SessionByToken(rows, hash, now).value.Some?) ==> r == rows
    ensures SessionByToken(rows, hash, now).Ok? ==> forall t :: t >= now ==> SessionByToken(r, hash, t) == Ok(None)
  {
    match SessionByToken(rows, hash, now)
    case Ok(Some(i)) =>
      var r := rows[..i] + rows[i + 1..];
      RemoveAtIndex(rows, i);
      NoneLeftAfterRemove(rows, hash, now, i, r);
      forall j | 0 <= j < |rows| && j != i
        ensures rows[j] in r
      {
        assert r[if j < i then j else j - 1] == rows[j];
      }
      r
    case _ => rows
  }

  /** Once the one matching session is gone, no session of the rest matches the hash then or later. */
  lemma NoneLeftAfterRemove(rows: seq<SessionRow>, hash: string, now: int, i: nat, r: seq<SessionRow>)
    requires SessionByToken(rows, hash, now) == Ok(Some(i))
    requires r == rows[..i] + rows[i + 1..]
    ensures forall t :: t >= now ==> SessionByToken(r, hash, t) == Ok(None)
  {
    RemoveAtIndex(rows, i);
    forall t | t >= now
      ensures SessionByToken(r, hash, t) == Ok(None)
    {
      forall j | 0 <= j < |r|
        ensures !ByToken(hash, t, r[j])
      {
        var k := if j < i then j else j + 1;
        assert r[j] == rows[k] && k != i;
        assert !ByToken(hash, now, rows[k]);
      }
    }
  }

  /** The sessions repository over the rows its database session sees. */
  class AuthSessionsRepo {
    var rows: seq<SessionRow>
    /** The repository's `encoder.encode`. */
    const encode: string -> string

    constructor (rows: seq<SessionRow>, encode: string -> string)
      ensures this.rows == rows && this.encode == encode
    {
      this.rows := rows;
      this.encode := encode;
    }

    method Get(token: string, now: int) returns (r: Result<Option<nat>, ServiceError>)
      ensures r == SessionByToken(rows, encode(token), now)
    {
      r := FindOne(rows, ByTokenFilter(encode(token), now));
    }

    method Add(session: SessionRow)
      modifies this
      ensures rows == old(rows) + [session]
    {
      rows := rows + [session];
    }

    /** `remove`: the session `get` returns is deleted and returned. */
    method Remove(token: string, now: int) returns (r: Result<Option<SessionRow>, ServiceError>)
      modifies this
      ensures var found := SessionByToken(old(rows), encode(token), now);
              && (found.Err? ==> r == Err(found.error))
              && (found == Ok(None) ==> r == Ok(None))
              && (found.Ok? && found.value.Some? ==> r == Ok(Some(old(rows)[found.value.value])))
      ensures rows == AfterRemove(old(rows), encode(token), now)
    {
      var found := Get(token, now);
      if found.Err? {
        return Err(found.error);
      }
      if found.value.None? {
        return Ok(None);
      }
      var i := found.value.value;
      r := Ok(Some(rows[i]));
      rows := rows[..i] + rows[i + 1..];
    }

    method GetByUserDevice(userId: string, deviceId: string, now: int) returns (r: Result<Option<nat>, ServiceError>)
      ensures r == SessionByUserDevice(rows, userId, deviceId, now)
    {
      r := FindOne(rows, ByUserDeviceFilter(userId, deviceId, now));
    }

    /** `remove_by_user_device`: every active session of the pair is soft-deleted; the first is returned. */
    method RemoveByUserDevice(userId: string, deviceId: string, now: int) returns (r: Option<SessionRow>)
      modifies this
      ensures rows == SoftDeleteWhere(old(rows), ByUserDeviceFilter(userId, deviceId, now), now)
      ensures r.None? <==> forall i :: 0 <= i < |rows| ==> !ByUserDevice(userId, deviceId, now, old(rows)[i])
      ensures r.Some? ==> exists i :: 0 <= i < |rows| && ByUserDevice(userId, deviceId, now, old(rows)[i]) && r.value == rows[i]
                             && forall j :: 0 <= j < i ==> !ByUserDevice(userId, deviceId, now, old(rows)[j])
    {
      var p := ByUserDeviceFilter(userId, deviceId, now);
      var first: Option<nat> := None;
      var i := 0;
      while i < |rows|
        invariant 0 <= i <= |rows| == |old(rows)|
        invariant StampedUpTo(old(rows), rows, p, now, i)
        invariant first.None? <==> forall j :: 0 <= j < i ==> !p(old(rows)[j])
        invariant first.Some? ==> first.value < i && p(old(rows)[first.value])
                                  && forall j :: 0 <= j < first.value ==> !p(old(rows)[j])
      {
        if p(rows[i]) {
          rows := rows[i := rows[i].(deleted := Some(now))];
          if first.None? {
            first := Some(i);
          }
        }
        i := i + 1;
      }
      StampedAll(old(rows), rows, p, now);
      if first.Some? {
        r := Some(rows[first.value]);
        assert ByUserDevice(userId, deviceId, now, old(rows)[first.value]);
      } else {
        r := None;
      }
    }

    /** `remove_all_by_user`: every active session of the user is soft-deleted, and nothing else changes. */
    method RemoveAllByUser(userId: string, now: int)
      modifies this
      ensures rows == SoftDeleteWhere(old(rows), ByUserFilter(userId, now), now)
    {
      var p := ByUserFilter(userId, now);
      var i := 0;
      while i < |rows|
        invariant 0 <= i <= |rows| == |old(rows)|
        invariant StampedUpTo(old(rows), rows, p, now, i)
      {
        if p(rows[i]) {
          rows := rows[i := rows[i].(deleted := Some(now))];
        }
        i := i + 1;
      }
      StampedAll(old(rows), rows, p, now);
    }
  }

  /** `AuthSessionInput`. Its `user_agent` is a class attribute, not a field, so it is always `None`. */
  datatype SessionInput = SessionInput(userId: string, deviceId: string, credentialVersion: string, device: Device)

  /** The JWT claims: `object_id`, `credential_version`, `created`, `exp`. */
  datatype AccessPayload = AccessPayload(objectId: string, credentialVersion: string, created: int, exp: int)

  datatype TokenSession = TokenSession(accessToken: string, refreshToken: string)

  /** The claims of an access token issued at `now`. */
  function Claims(userId: string, credentialVersion: string, now: int): AccessPayload
  {
    AccessPayload(userId, credentialVersion, now, now + AccessTokenLifetime)
  }

  /** The session `make` stores: the refresh token's hash, expiring one lifetime after `now`. */
  function NewSession(input: SessionInput, hash: string, now: int): (r: SessionRow)
    ensures forall t :: now <= t < now + SessionLifetime ==> ByToken(hash, t, r) && ByUserDevice(input.userId, input.deviceId, t, r)
    ensures !Active(r, now + SessionLifetime)
  {
    SessionRow(hash, input.userId, input.deviceId, input.device, None, now, Some(now + SessionLifetime), None)
  }

  /**
   * After `make` at `now`, until the new session expires, the new session is
   * the only active one of its user and device.
   */
  lemma MakeLeavesOneActive(rows: seq<SessionRow>, input: SessionInput, hash: string, now: int, t: int)
    requires now <= t < now + SessionLifetime
    ensures var after := SoftDeleteWhere(rows, ByUserDeviceFilter(input.userId, input.deviceId, now), now) + [NewSession(input, hash, now)];
            forall i :: 0 <= i < |after| ==> (ByUserDevice(input.userId, input.deviceId, t, after[i]) <==> i == |after| - 1)
  {
    var p := ByUserDeviceFilter(input.userId, input.deviceId, now);
    var after := SoftDeleteWhere(rows, p, now) + [NewSession(input, hash, now)];
    forall i | 0 <= i < |rows|
      ensures !ByUserDevice(input.userId, input.deviceId, t, after[i])
    {
      if !p(rows[i]) {
        assert after[i] == rows[i];
      }
    }
  }

  /** A fresh refresh token that no stored session hashes to resolves to the session `make` stored, until it expires. */
  lemma MadeSessionResolves(rows: seq<SessionRow>, input: SessionInput, hash: string, now: int, t: int)
    requires now <= t < now + SessionLifetime
    requires forall i :: 0 <= i < |rows| ==> rows[i].token != hash
    ensures var after := SoftDeleteWhere(rows, ByUserDeviceFilter(input.userId, input.deviceId, now), now) + [NewSession(input, hash, now)];
            SessionByToken(after, hash, t) == Ok(Some(|after| - 1))
  {
    var after := SoftDeleteWhere(rows, ByUserDeviceFilter(input.userId, input.deviceId, now), now) + [NewSession(input, hash, now)];
    forall j | 0 <= j < |after| - 1
      ensures !ByToken(hash, t, after[j])
    {
      assert after[j].token == rows[j].token;
    }
    OnlyMatch(after, ByTokenFilter(hash, t), |after| - 1);
  }

  /** `TokenSessionMaker`. */
  class TokenSessionMaker {
    const sessions: AuthSessionsRepo

    constructor (sessions: AuthSessionsRepo)
      ensures this.sessions == sessions
    {
      this.sessions := sessions;
    }

    /** `make`, with the fresh refresh token `uuid4()` as `refreshToken` and the JWT signer as `sign`. */
    method Make(input: SessionInput, now: int, refreshToken: string, sign: AccessPayload -> string) returns (t: TokenSession)
      modifies sessions
      ensures sessions.rows == SoftDeleteWhere(old(sessions.rows), ByUserDeviceFilter(input.userId, input.deviceId, now), now)
                               + [NewSession(input, sessions.encode(refreshToken), now)]
      ensures t == TokenSession(sign(Claims(input.userId, input.credentialVersion, now)), refreshToken)
    {
      var accessToken := sign(Claims(input.userId, input.credentialVersion, now));
      var session := NewSession(input, sessions.encode(refreshToken), now);
      var _ := sessions.RemoveByUserDevice(input.userId, input.deviceId, now);
      sessions.Add(session);
      t := TokenSession(accessToken, refreshToken);
    }
  }

  /** `RefreshSessionInput`: the raw refresh token and the device asking. */
  datatype RefreshInput = RefreshInput(uuid: string, deviceId: string)

  /** What a successful refresh leaves: the session rows and the tokens handed out. */
  datatype Refreshed = Refreshed(rows: seq<SessionRow>, tokens: TokenSession)

  /**
   * `refresh` on the two tables: an unknown or inactive session, another
   * device, or a missing user is an `AuthSessionRefreshError`; otherwise the
   * session is rotated in place to the new token's hash and a new expiry.
   */
  function RefreshSession(rows: seq<SessionRow>, users: seq<UserRow>, encode: string -> string, input: RefreshInput, now: int,
                   newToken: string, sign: AccessPayload -> string): (r: Result<Refreshed, ServiceError>)
    ensures SessionByToken(rows, encode(input.uuid), now) == Ok(None) ==> r == Err(AuthSessionRefreshError)
    ensures r.Ok? ==> SessionByToken(rows, encode(input.uuid), now).Ok? && SessionByToken(rows, encode(input.uuid), now).value.Some?
    ensures r.Ok? ==> var i := SessionByToken(rows, encode(input.uuid), now).value.value;
                      && i < |rows| && rows[i].deviceId == input.deviceId
                      && r.value.rows == rows[i := rows[i].(token := encode(newToken), expiresIn := Some(now + SessionLifetime))]
                      && UserById(users, rows[i].userId, false).Ok? && UserById(users, rows[i].userId, false).value.Some?
                      && var u := UserById(users, rows[i].userId, false).value.value;
                         r.value.tokens == TokenSession(sign(Claims(users[u].id, users[u].credentialVersion, now)), newToken)
    ensures var found := SessionByToken(rows, encode(input.uuid), now);
            found.Ok? && found.value.Some? && rows[found.value.value].deviceId != input.deviceId
            ==> r == Err(AuthSessionRefreshError)
    ensures var found := SessionByToken(rows, encode(input.uuid), now);
            found.Ok? && found.value.Some? && UserById(users, rows[found.value.value].userId, false) == Ok(None)
            ==> r == Err(AuthSessionRefreshError)
    ensures var found := SessionByToken(rows, encode(input.uuid), now);
            found.Ok? && found.value.Some? && rows[found.value.value].deviceId == input.deviceId
            && UserById(users, rows[found.value.value].userId, false).Ok? && UserById(users, rows[found.value.value].userId, false).value.Some?
            ==> r.Ok?
    ensures SessionByToken(rows, encode(input.uuid), now).Err? ==> r == Err(MultipleResultsFound)
  {
    match SessionByToken(rows, encode(input.uuid), now)
    case Err(e) => Err(e)
    case Ok(None) => Err(AuthSessionRefreshError)
    case Ok(Some(i)) =>
      var session := rows[i];
      if session.deviceId != input.deviceId then Err(AuthSessionRefreshError)
      else
        match UserById(users, session.userId, false)
        case Err(e) => Err(e)
        case Ok(None) => Err(AuthSessionRefreshError)
        case Ok(Some(u)) =>
          var rotated := session.(token := encode(newToken), expiresIn := Some(now + SessionLifetime));
          Ok(Refreshed(rows[i := rotated], TokenSession(sign(Claims(users[u].id, users[u].credentialVersion, now)), newToken)))
  }

  /**
   * After a refresh the old refresh token no longer resolves, and the new one
   * resolves to a session of the same user and device until it expires
   * (given that the two tokens hash differently and no other session holds
   * the new hash).
   */
  lemma RefreshRotates(rows: seq<SessionRow>, users: seq<UserRow>, encode: string -> string, input: RefreshInput, now: int,
                       newToken: string, sign: AccessPayload -> string, t: int)
    requires RefreshSession(rows, users, encode, input, now, newToken, sign).Ok?
    requires encode(newToken) != encode(input.uuid)
    requires forall i :: 0 <= i < |rows| ==> rows[i].token != encode(newToken)
    requires now <= t < now + SessionLifetime
    ensures var after := RefreshSession(rows, users, encode, input, now, newToken, sign).value.rows;
            && SessionByToken(after, encode(input.uuid), t) == Ok(None)
            && var found := SessionByToken(after, encode(newToken), t);
               && found.Ok? && found.value.Some?
               && after[found.value.value].userId == rows[SessionByToken(rows, encode(input.uuid), now).value.value].userId
               && after[found.value.value].deviceId == input.deviceId
  {
    var i := SessionByToken(rows, encode(input.uuid), now).value.value;
    var after := RefreshSession(rows, users, encode, input, now, newToken, sign).value.rows;
    forall j | 0 <= j < |after|
      ensures !ByToken(encode(input.uuid), t, after[j])
    {
      if j != i {
        assert after[j] == rows[j] && !ByToken(encode(input.uuid), now, rows[j]);
      }
    }
    forall j | 0 <= j < |after| && j != i
      ensures !ByToken(encode(newToken), t, after[j])
    {
      assert after[j] == rows[j];
    }
    OnlyMatch(after, ByTokenFilter(encode(newToken), t), i);
  }

  /** `TokenSessionRefresher`. */
  class TokenSessionRefresher {
    const sessions: AuthSessionsRepo
    const users: UsersRepo

    constructor (sessions: AuthSessionsRepo, users: UsersRepo)
      ensures this.sessions == sessions && this.users == users
    {
      this.sessions := sessions;
      this.users := users;
    }

    /** `refresh`, with the fresh refresh token `uuid4()` as `newToken`. */
    method Refresh(input: RefreshInput, now: int, newToken: string, sign: AccessPayload -> string) returns (r: Result<TokenSession, ServiceError>)
      modifies sessions
      ensures var spec := RefreshSession(old(sessions.rows), users.rows, sessions.encode, input, now, newToken, sign);
              && (spec.Ok? ==> r == Ok(spec.value.tokens) && sessions.rows == spec.value.rows)
              && (spec.Err? ==> r == Err(spec.error) && sessions.rows == old(sessions.rows))
    {
      var found := sessions.Get(input.uuid, now);
      if found.Err? {
        return Err(found.error);
      }
      if found.value.None? {
        return Err(AuthSessionRefreshError);
      }
      var i := found.value.value;
      var session := sessions.rows[i];
      if session.deviceId != input.deviceId {
        return Err(AuthSessionRefreshError);
      }
      var user := users.Get(session.userId, false);
      if user.Err? {
        return Err(user.error);
      }
      if user.value.None? {
        return Err(AuthSessionRefreshError);
      }
      var u := user.value.value;
      sessions.rows := sessions.rows[i := session.(token := sessions.encode(newToken), expiresIn := Some(now + SessionLifetime))];
      var accessToken := sign(Claims(users.rows[u].id, users.rows[u].credentialVersion, now));
      r := Ok(TokenSession(accessToken, newToken));
    }
  }

  /**
   * `authenticate`: the live user with that email whose stored hash accepts
   * the password, or `None`. A user without a password cannot be checked
   * (`None.encode` raises).
   */
  function Authenticated(users: seq<UserRow>, enc: PasswordEncoder, email: string, password: string): (r: Result<Option<nat>, ServiceError>)
    ensures r.Ok? && r.value.Some? ==> var u := r.value.value;
              && u < |users| && users[u].email == email && users[u].deleted.None?
              && users[u].password.Some? && enc.check(password, users[u].password.value)
    ensures (forall i :: 0 <= i < |users| ==> !ByEmail(email, false, users[i])) ==> r == Ok(None)
    ensures UserByEmail(users, email, false).Ok? && UserByEmail(users, email, false).value.Some?
            && users[UserByEmail(users, email, false).value.value].password.Some?
            && !enc.check(password, users[UserByEmail(users, email, false).value.value].password.value)
            ==> r == Ok(None)
    ensures var found := UserByEmail(users, email, false);
            found.Ok? && found.value.Some? && users[found.value.value].password.Some?
            && enc.check(password, users[found.value.value].password.value)
            ==> r == Ok(Some(found.value.value))
    ensures var found := UserByEmail(users, email, false);
            found.Ok? && found.value.Some? && users[found.value.value].password.None? ==> r == Err(AttributeError)
    ensures UserByEmail(users, email, false).Err? ==> r == Err(MultipleResultsFound)
  {
    match UserByEmail(users, email, false)
    case Err(e) => Err(e)
    case Ok(None) => Ok(None)
    case Ok(Some(u)) =>
      if users[u].password.None? then Err(AttributeError)
      else if enc.check(password, users[u].password.value) then Ok(Some(u))
      else Ok(None)
  }

  /**
   * A live user whose password was just hashed from `password` authenticates
   * with it, whatever else the update set (emails are unique).
   */
  lemma RehashedUserAuthenticates(users: seq<UserRow>, u: nat, enc: PasswordEncoder, password: string, salt: string, version: string)
    requires u < |users| && UniqueEmails(users) && users[u].deleted.None?
    requires Recognises(enc, password, salt)
    ensures Authenticated(users[u := users[u].(password := Some(enc.hash(password, salt)), credentialVersion := version)],
                          enc, users[u].email, password) == Ok(Some(u))
  {
    var after := users[u := users[u].(password := Some(enc.hash(password, salt)), credentialVersion := version)];
    forall j | 0 <= j < |after| && j != u
      ensures !ByEmail(users[u].email, false, after[j])
    {
      assert after[j] == users[j];
      if j < u {
        assert users[j].email != users[u].email;
      } else {
        assert users[u].email != users[j].email;
      }
    }
    OnlyMatch(after, ByEmailFilter(users[u].email, false), u);
  }

  /** `UserAuthenticator`. */
  class UserAuthenticator {
    const enc: PasswordEncoder
    const users: UsersRepo

    constructor (enc: PasswordEncoder, users: UsersRepo)
      ensures this.enc == enc && this.users == users
    {
      this.enc := enc;
      this.users := users;
    }

    method Authenticate(email: string, password: string) returns (r: Result<Option<nat>, ServiceError>)
      ensures r == Authenticated(users.rows, enc, email, password)
    {
      var user := users.GetByEmail(email, false);
      if user.Err? {
        return Err(user.error);
      }
      if user.value.None? {
        return Ok(None);
      }
      var u := user.value.value;
      if users.rows[u].password.None? {
        return Err(AttributeError);
      }
      var valid := enc.check(password, users.rows[u].password.value);
      if valid {
        return Ok(Some(u));
      }
      r := Ok(None);
    }
  }

  /** `close_session`: the repository's `remove` of that token. */
  method CloseSession(sessionUuid: string, sessions: AuthSessionsRepo, now: int) returns (r: Result<(), ServiceError>)
    modifies sessions
    ensures sessions.rows == AfterRemove(old(sessions.rows), sessions.encode(sessionUuid), now)
    ensures r.Err? <==> SessionByToken(old(sessions.rows), sessions.encode(sessionUuid), now).Err?
  {
    var removed := sessions.Remove(sessionUuid, now);
    r := if removed.Err? then Err(removed.error) else Ok(());
  }

  /** `revoke_access_tokens`: the user gets the fresh credential version `version`, and nothing else changes. */
  method RevokeAccessTokens(users: UsersRepo, u: nat, version: string)
    requires u < |users.rows|
    modifies users
    ensures users.rows == old(users.rows)[u := old(users.rows)[u].(credentialVersion := version)]
  {
    users.rows := users.rows[u := users.rows[u].(credentialVersion := version)];
  }
}
