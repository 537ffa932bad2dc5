/**
 * Password change: single-use tokens sent by email (`PasswordChangeTokenCreator`,
 * `SAPasswordChangeTokensRepo`) and the two ways of setting a new password
 * (`PasswordChanger`). The raw token from `token_hex(32)` and the fresh
 * `uuid4()` values are parameters; the repository stores the token encoder's
 * hash of the raw token.
 */
module PasswordChange {
  import opened Wrappers
  import opened Domain
  import opened Users
  import opened Auth

  /** `TOKEN_LIFETIME`: two hours, in seconds. */
  const TokenLifetime := 2 * 60 * 60

  /** A row of `password_change_tokens`: `token` holds the hash, `used` and `deleted` are times. */
  datatype TokenRow = TokenRow(
    id: string,
    token: string,
    userId: string,
    email: string,
    created: int,
    expiresIn: Option<int>,
    used: Option<int>,
    deleted: Option<int>)

  /** Neither spent nor superseded. */
  predicate Unspent(row: TokenRow)
  {
    row.deleted.None? && row.used.None?
  }

  /** The rows `add` supersedes for a user. */
  predicate OfUserUnspent(userId: string, row: TokenRow)
  {
    row.userId == userId && Unspent(row)
  }

  /** The rows `get` may return: that hash, `expires_in > now` (false when NULL), unspent. */
  predicate Redeemable(hash: string, now: int, row: TokenRow)
  {
    row.token == hash && row.expiresIn.Some? && row.expiresIn.value > now && Unspent(row)
  }

  function OfUserUnspentFilter(userId: string): TokenRow -> bool
  {
    row => OfUserUnspent(userId, row)
  }

  function RedeemableFilter(hash: string, now: int): TokenRow -> bool
  {
    row => Redeemable(hash, now, row)
  }

  /** `get`: the position of the one redeemable token with that hash. */
  function TokenByHash(rows: seq<TokenRow>, hash: string, now: int): (r: Result<Option<nat>, ServiceError>)
    ensures r.Ok? && r.value.Some? ==> r.value.value < |rows| && Redeemable(hash, now, rows[r.value.value])
    ensures r.Ok? && r.value.Some? ==> forall i :: 0 <= i < |rows| && i != r.value.value ==> !Redeemable(hash, now, rows[i])
    ensures r == Ok(None) <==> forall i :: 0 <= i < |rows| ==> !Redeemable(hash, now, rows[i])
  {
    Lookup(rows, RedeemableFilter(hash, now))
  }

  /** The rows after `add` marks every unspent token of the user deleted at `now`; only `deleted` changes. */
  function Superseded(rows: seq<TokenRow>, userId: string, now: int): (r: seq<TokenRow>)
    ensures |r| == |rows|
    ensures forall i :: 0 <= i < |rows| ==> r[i] == rows[i].(deleted := r[i].deleted)
    ensures forall i :: 0 <= i < |rows| && !OfUserUnspent(userId, rows[i]) ==> r[i] == rows[i]
    ensures forall i :: 0 <= i < |rows| && OfUserUnspent(userId, rows[i]) ==> r[i].deleted == Some(now)
    ensures forall i :: 0 <= i < |rows| ==> !OfUserUnspent(userId, r[i])
  {
    seq(|rows|, i requires 0 <= i < |rows| => if OfUserUnspent(userId, rows[i]) then rows[i].(deleted := Some(now)) else rows[i])
  }

  /** The loop state of `add`: rows before `i` are superseded where they belong to the user, the rest untouched. */
  predicate SupersededUpTo(before: seq<TokenRow>, after: seq<TokenRow>, userId: string, now: int, i: nat)
  {
    && |after| == |before| && i <= |before|
    && (forall j :: 0 <= j < i ==> after[j] == if OfUserUnspent(userId, before[j]) then before[j].(deleted := Some(now)) else before[j])
    && (forall j :: i <= j < |before| ==> after[j] == before[j])
  }

  lemma SupersededAll(before: seq<TokenRow>, after: seq<TokenRow>, userId: string, now: int)
    requires SupersededUpTo(before, after, userId, now, |before|)
    ensures after == Superseded(before, userId, now)
  {
  }

  /** The token repository over the rows its session sees; `encode` is the token encoder. */
  class PasswordChangeTokensRepo {
    var rows: seq<TokenRow>
    const encode: string -> string

    constructor (rows: seq<TokenRow>, encode: string -> string)
      ensures this.rows == rows && this.encode == encode
    {
      this.rows := rows;
      this.encode := encode;
    }

    /** `add`: supersedes the user's other tokens, then stores the new one. `removeOthers` is ignored, as in the source. */
    method Add(model: TokenRow, removeOthers: bool, now: int)
      modifies this
      ensures rows == Superseded(old(rows), model.userId, now) + [model]
    {
      var i := 0;
      while i < |rows|
        invariant 0 <= i <= |rows| == |old(rows)|
        invariant SupersededUpTo(old(rows), rows, model.userId, now, i)
      {
        if OfUserUnspent(model.userId, rows[i]) {
          rows := rows[i := rows[i].(deleted := Some(now))];
        }
        i := i + 1;
      }
      SupersededAll(old(rows), rows, model.userId, now);
      rows := rows + [model];
    }

    /** `get` of a raw token at time `now`. */
    method Get(token: string, now: int) returns (r: Result<Option<nat>, ServiceError>)
      ensures r == TokenByHash(rows, encode(token), now)
    {
      r := FindOne(rows, RedeemableFilter(encode(token), now));
    }
  }

  /** The row `make` stores for a user: hashed token, expiry two hours from now, unspent. */
  function NewToken(id: string, hash: string, user: UserRow, now: int): (r: TokenRow)
    ensures forall t :: now <= t < now + TokenLifetime ==> Redeemable(hash, t, r)
    ensures OfUserUnspent(user.id, r) && r.email == user.email
    ensures !Redeemable(hash, now + TokenLifetime, r)
  {
    TokenRow(id, hash, user.id, user.email, now, Some(now + TokenLifetime), None, None)
  }

  /**
   * A freshly made token whose hash no stored row has resolves to the new
   * row until it expires, and no other token of the user resolves any more.
   */
  lemma MadeTokenResolves(rows: seq<TokenRow>, id: string, hash: string, user: UserRow, now: int, t: int)
    requires now <= t < now + TokenLifetime
    requires forall i :: 0 <= i < |rows| ==> rows[i].token != hash
    ensures var after := Superseded(rows, user.id, now) + [NewToken(id, hash, user, now)];
            && TokenByHash(after, hash, t) == Ok(Some(|after| - 1))
            && forall i :: 0 <= i < |after| - 1 ==> !OfUserUnspent(user.id, after[i])
  {
    var after := Superseded(rows, user.id, now) + [NewToken(id, hash, user, now)];
    forall j | 0 <= j < |after| - 1
      ensures !Redeemable(hash, t, after[j])
    {
      assert after[j].token == rows[j].token;
    }
    OnlyMatch(after, RedeemableFilter(hash, t), |after| - 1);
  }

  /** `PasswordChangeTokenCreator`: its events are the `PasswordChangeRequestCreated` events of its calls. */
  class PasswordChangeTokenCreator {
    const tokens: PasswordChangeTokensRepo
    var events: seq<Event>

    constructor (tokens: PasswordChangeTokensRepo)
      ensures this.tokens == tokens && events == []
    {
      this.tokens := tokens;
      events := [];
    }

    /** `make`: `raw` is the fresh `token_hex(32)`, `tokenId` the fresh `uuid4()`; the raw token goes back to the caller. */
    method Make(user: UserRow, raw: string, tokenId: string, now: int) returns (token: string)
      modifies this, tokens
      ensures token == raw
      ensures tokens.rows == Superseded(old(tokens.rows), user.id, now) + [NewToken(tokenId, tokens.encode(raw), user, now)]
      ensures events == old(events) + [PasswordChangeRequestCreated(user.id, tokenId, raw, user.email)]
    {
      var model := NewToken(tokenId, tokens.encode(raw), user, now);
      tokens.Add(model, true, now);
      events := events + [PasswordChangeRequestCreated(user.id, model.id, raw, user.email)];
      token := raw;
    }
  }

  /** The state after a password change by token. */
  datatype ChangedState = ChangedState(tokens: seq<TokenRow>, users: seq<UserRow>, sessions: seq<SessionRow>, event: Event)

  /** The user row with a new password hash and a fresh credential version. */
  function Rehashed(user: UserRow, enc: PasswordEncoder, password: string, salt: string, version: string): (r: UserRow)
    ensures Recognises(enc, password, salt) ==> r.password.Some? && enc.check(password, r.password.value)
    ensures r.id == user.id && r.email == user.email && r.deleted == user.deleted && r.credentialVersion == version
  {
    user.(password := Some(enc.hash(password, salt)), credentialVersion := version)
  }

  /**
   * `change_by_token` on the rows the repositories see: `salt` is the fresh
   * bcrypt salt, `version` the fresh credential version of
   * `revoke_access_tokens`.
   */
  function ChangedByToken(tokens: seq<TokenRow>, users: seq<UserRow>, sessions: seq<SessionRow>, encode: string -> string,
                          raw: string, password: string, enc: PasswordEncoder, salt: string, version: string, now: int)
    : (r: Result<ChangedState, ServiceError>)
    ensures TokenByHash(tokens, encode(raw), now) == Ok(None) ==> r == Err(ChangePasswordError("Wrong password change token"))
    ensures r.Ok? ==> TokenByHash(tokens, encode(raw), now).Ok? && TokenByHash(tokens, encode(raw), now).value.Some?
    ensures r.Ok? ==> var k := TokenByHash(tokens, encode(raw), now).value.value;
              && UserById(users, tokens[k].userId, false).Ok? && UserById(users, tokens[k].userId, false).value.Some?
              && var u := UserById(users, tokens[k].userId, false).value.value;
                 && r.value.tokens == tokens[k := tokens[k].(used := Some(now))]
                 && r.value.users == users[u := Rehashed(users[u], enc, password, salt, version)]
                 && r.value.sessions == SoftDeleteWhere(sessions, ByUserFilter(tokens[k].userId, now), now)
                 && r.value.event == UserPasswordChanged(users[u].email, tokens[k].userId)
    ensures TokenByHash(tokens, encode(raw), now).Ok? && TokenByHash(tokens, encode(raw), now).value.Some?
            && UserById(users, tokens[TokenByHash(tokens, encode(raw), now).value.value].userId, false) == Ok(None)
            ==> r == Err(ChangePasswordError("User not found"))
    ensures var found := TokenByHash(tokens, encode(raw), now);
            found.Ok? && found.value.Some?
            && UserById(users, tokens[found.value.value].userId, false).Ok? && UserById(users, tokens[found.value.value].userId, false).value.Some?
            ==> r.Ok?
    ensures TokenByHash(tokens, encode(raw), now).Err? ==> r == Err(MultipleResultsFound)
  {
    match TokenByHash(tokens, encode(raw), now)
    case Err(e) => Err(e)
    case Ok(None) => Err(ChangePasswordError("Wrong password change token"))
    case Ok(Some(k)) =>
      match UserById(users, tokens[k].userId, false)
      case Err(e) => Err(e)
      case Ok(None) => Err(ChangePasswordError("User not found"))
      case Ok(Some(u)) =>
        Ok(ChangedState(tokens[k := tokens[k].(used := Some(now))],
                        users[u := Rehashed(users[u], enc, password, salt, version)],
                        SoftDeleteWhere(sessions, ByUserFilter(users[u].id, now), now),
                        UserPasswordChanged(users[u].email, users[u].id)))
  }

  /** A token works once: after a change by token, the same raw token never resolves again. */
  lemma TokenSingleUse(tokens: seq<TokenRow>, users: seq<UserRow>, sessions: seq<SessionRow>, encode: string -> string,
                       raw: string, password: string, enc: PasswordEncoder, salt: string, version: string, now: int, t: int)
    requires ChangedByToken(tokens, users, sessions, encode, raw, password, enc, salt, version, now).Ok?
    requires t >= now
    ensures TokenByHash(ChangedByToken(tokens, users, sessions, encode, raw, password, enc, salt, version, now).value.tokens,
                        encode(raw), t) == Ok(None)
  {
    var k := TokenByHash(tokens, encode(raw), now).value.value;
    var after := ChangedByToken(tokens, users, sessions, encode, raw, password, enc, salt, version, now).value.tokens;
    forall j | 0 <= j < |after|
      ensures !Redeemable(encode(raw), t, after[j])
    {
      if j != k {
        assert after[j] == tokens[j] && !Redeemable(encode(raw), now, tokens[j]);
      }
    }
  }

  /** After a change by token the user has no active session, now or later. */
  lemma NoSessionSurvivesChange(tokens: seq<TokenRow>, users: seq<UserRow>, sessions: seq<SessionRow>, encode: string -> string,
                                raw: string, password: string, enc: PasswordEncoder, salt: string, version: string, now: int, t: int)
    requires ChangedByToken(tokens, users, sessions, encode, raw, password, enc, salt, version, now).Ok?
    requires t >= now
    ensures var k := TokenByHash(tokens, encode(raw), now).value.value;
            var after := ChangedByToken(tokens, users, sessions, encode, raw, password, enc, salt, version, now).value.sessions;
            forall j :: 0 <= j < |after| ==> !ByUser(tokens[k].userId, t, after[j])
  {
    var k := TokenByHash(tokens, encode(raw), now).value.value;
    var after := ChangedByToken(tokens, users, sessions, encode, raw, password, enc, salt, version, now).value.sessions;
    forall j | 0 <= j < |after|
      ensures !ByUser(tokens[k].userId, t, after[j])
    {
      if !ByUser(tokens[k].userId, now, sessions[j]) {
        assert after[j] == sessions[j];
      }
    }
  }

  /** After a change by token the owner logs in with the new password and carries the new credential version. */
  lemma NewPasswordAuthenticates(tokens: seq<TokenRow>, users: seq<UserRow>, sessions: seq<SessionRow>, encode: string -> string,
                                 raw: string, password: string, enc: PasswordEncoder, salt: string, version: string, now: int)
    requires ChangedByToken(tokens, users, sessions, encode, raw, password, enc, salt, version, now).Ok?
    requires UniqueEmails(users) && Recognises(enc, password, salt)
    ensures var k := TokenByHash(tokens, encode(raw), now).value.value;
            var u := UserById(users, tokens[k].userId, false).value.value;
            var after := ChangedByToken(tokens, users, sessions, encode, raw, password, enc, salt, version, now).value.users;
            && Authenticated(after, enc, users[u].email, password) == Ok(Some(u))
            && after[u].credentialVersion == version
  {
    var k := TokenByHash(tokens, encode(raw), now).value.value;
    var u := UserById(users, tokens[k].userId, false).value.value;
    RehashedUserAuthenticates(users, u, enc, password, salt, version);
  }

  /**
   * `change_by_password` for the user at position `u`: the current password
   * must check against the stored hash (a user without one raises on
   * `None.encode`); the credential version and the sessions stay as they are.
   */
  function ChangedByPassword(users: seq<UserRow>, u: nat, current: string, newPassword: string, enc: PasswordEncoder, salt: string)
    : (r: Result<(seq<UserRow>, Event), ServiceError>)
    requires u < |users|
    ensures r.Ok? <==> users[u].password.Some? && enc.check(current, users[u].password.value)
    ensures users[u].password.None? ==> r == Err(AttributeError)
    ensures users[u].password.Some? && !enc.check(current, users[u].password.value)
            ==> r == Err(ChangePasswordError("Wrong current password"))
    ensures r.Ok? ==> && |r.value.0| == |users|
                      && r.value.0[u] == Rehashed(users[u], enc, newPassword, salt, users[u].credentialVersion)
                      && (forall i :: 0 <= i < |users| && i != u ==> r.value.0[i] == users[i])
                      && r.value.1 == UserPasswordChanged(users[u].email, users[u].id)
  {
    if users[u].password.None? then Err(AttributeError)
    else if !enc.check(current, users[u].password.value) then Err(ChangePasswordError("Wrong current password"))
    else Ok((users[u := users[u].(password := Some(enc.hash(newPassword, salt)))], UserPasswordChanged(users[u].email, users[u].id)))
  }

  /** After a change by password a live user logs in with the new password. */
  lemma ChangedPasswordAuthenticates(users: seq<UserRow>, u: nat, current: string, newPassword: string, enc: PasswordEncoder, salt: string)
    requires u < |users| && ChangedByPassword(users, u, current, newPassword, enc, salt).Ok?
    requires UniqueEmails(users) && users[u].deleted.None? && Recognises(enc, newPassword, salt)
    ensures Authenticated(ChangedByPassword(users, u, current, newPassword, enc, salt).value.0, enc, users[u].email, newPassword)
            == Ok(Some(u))
  {
    RehashedUserAuthenticates(users, u, enc, newPassword, salt, users[u].credentialVersion);
    assert ChangedByPassword(users, u, current, newPassword, enc, salt).value.0
           == users[u := Rehashed(users[u], enc, newPassword, salt, users[u].credentialVersion)];
  }

  /** `PasswordChanger`: its events are the `UserPasswordChanged` events of its successful calls. */
  class PasswordChanger {
    const tokens: PasswordChangeTokensRepo
    const users: UsersRepo
    const sessions: AuthSessionsRepo
    var events: seq<Event>

    constructor (tokens: PasswordChangeTokensRepo, users: UsersRepo, sessions: AuthSessionsRepo)
      ensures this.tokens == tokens && this.users == users && this.sessions == sessions && events == []
    {
      this.tokens := tokens;
      this.users := users;
      this.sessions := sessions;
      events := [];
    }

    method ChangeByToken(raw: string, password: string, enc: PasswordEncoder, salt: string, version: string, now: int)
      returns (r: Result<(), ServiceError>)
      modifies this, tokens, users, sessions
      ensures var spec := ChangedByToken(old(tokens.rows), old(users.rows), old(sessions.rows), tokens.encode,
                                         raw, password, enc, salt, version, now);
              && (r.Ok? <==> spec.Ok?)
              && (spec.Ok? ==> && tokens.rows == spec.value.tokens && users.rows == spec.value.users
                               && sessions.rows == spec.value.sessions && events == old(events) + [spec.value.event])
              && (spec.Err? ==> && r == Err(spec.error) && tokens.rows == old(tokens.rows) && users.rows == old(users.rows)
                                && sessions.rows == old(sessions.rows) && events == old(events))
    {
      var token := tokens.Get(raw, now);
      if token.Err? {
        return Err(token.error);
      }
      if token.value.None? {
        return Err(ChangePasswordError("Wrong password change token"));
      }
      var k := token.value.value;
      var user := users.Get(tokens.rows[k].userId, false);
      if user.Err? {
        return Err(user.error);
      }
      if user.value.None? {
        return Err(ChangePasswordError("User not found"));
      }
      var u := user.value.value;
      users.rows := users.rows[u := users.rows[u].(password := Some(enc.hash(password, salt)))];
      RevokeAccessTokens(users, u, version);
      tokens.rows := tokens.rows[k := tokens.rows[k].(used := Some(now))];
      sessions.RemoveAllByUser(users.rows[u].id, now);
      events := events + [UserPasswordChanged(users.rows[u].email, users.rows[u].id)];
      r := Ok(());
    }

    /** `change_by_password` for the user at position `u` of the repository. */
    method ChangeByPassword(u: nat, current: string, newPassword: string, enc: PasswordEncoder, salt: string)
      returns (r: Result<(), ServiceError>)
      requires u < |users.rows|
      modifies this, users
      ensures var spec := ChangedByPassword(old(users.rows), u, current, newPassword, enc, salt);
              && (r.Ok? <==> spec.Ok?)
              && (spec.Ok? ==> users.rows == spec.value.0 && events == old(events) + [spec.value.1])
              && (spec.Err? ==> r == Err(spec.error) && users.rows == old(users.rows) && events == old(events))
    {
      if users.rows[u].password.None? {
        return Err(AttributeError);
      }
      var valid := enc.check(current, users.rows[u].password.value);
      if !valid {
        return Err(ChangePasswordError("Wrong current password"));
      }
      users.rows := users.rows[u := users.rows[u].(password := Some(enc.hash(newPassword, salt)))];
      events := events + [UserPasswordChanged(users.rows[u].email, users.rows[u].id)];
      r := Ok(());
    }
  }
}
