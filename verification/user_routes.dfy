/**
 * The account and activation-token lifecycle of the user routes: register
 * an inactive account with a one-day activation token, reuse or reissue
 * that token, activate the account by consuming it, log in, change the
 * password and log out. The two stores are the users (with a unique email
 * index) and the activation tokens; the token denylist is a set of keys.
 */
module UserRoutes {
  import opened Wrappers
  import opened Documents
  import opened Helpers
  import opened UserSchemas

  /** One day, the lifetime of an activation token, in microseconds. */
  const ONE_DAY: int := 86_400_000_000

  /** Thirty minutes, the lifetime of an access token, in microseconds. */
  const ACCESS_TOKEN_LIFETIME: int := 1_800_000_000

  /** The key under which a revoked bearer token is written to the denylist. */
  function DenylistKey(token: string): (k: string)
    ensures |k| == |token| + 3 && k[..3] == "bl_" && k[3..] == token
  {
    "bl_" + token
  }

  /** Two bearer tokens share a denylist key only when they are the same token. */
  lemma DenylistKeyInjective(a: string, b: string)
    requires DenylistKey(a) == DenylistKey(b)
    ensures a == b
  {
    assert a == DenylistKey(a)[3..];
  }

  /**
   * Whether the denylist write goes through: the token expiry setting must
   * be present, and the key-value store refuses an expiry of zero seconds
   * or less.
   */
  predicate DenylistExpiryAccepted(expiryMinutes: Option<int>) {
    expiryMinutes.Some? && expiryMinutes.value > 0
  }

  /** Activation refuses a token whose expiry lies strictly before `now`. */
  predicate ExpiredForActivation(t: ActivationToken, now: Timestamp) {
    t.expiresAt < now
  }

  /** Reissue hands back a stored token only while its expiry lies strictly after `now`. */
  predicate ReusableForReissue(t: ActivationToken, now: Timestamp) {
    t.expiresAt > now
  }

  /**
   * At the very instant of expiry the two handlers disagree: activation
   * still accepts the token, while reissue already replaces it. At any
   * other instant they agree on whether the token has expired.
   */
  lemma ExpiryBoundary(t: ActivationToken, now: Timestamp)
    ensures t.expiresAt == now ==> !ExpiredForActivation(t, now) && !ReusableForReissue(t, now)
    ensures t.expiresAt != now ==> (ExpiredForActivation(t, now) <==> !ReusableForReissue(t, now))
  {
  }

  /**
   * A token stored for `now + ONE_DAY` expires up to a millisecond early:
   * activation refuses it exactly after its stored expiry, which lies less
   * than a millisecond before the full day.
   */
  lemma StoredExpiryIsAlmostOneDay(token: string, userId: ObjectId, now: Timestamp, later: Timestamp)
    ensures var stored := ActivationToken(token, userId, StoredTime(now + ONE_DAY));
            && now + ONE_DAY - MICROSECONDS_PER_MILLISECOND < stored.expiresAt <= now + ONE_DAY
            && (ExpiredForActivation(stored, later) <==> later > stored.expiresAt)
  {
  }

  /** The envelope every user route raises on a rejected request. */
  function BadRequest(message: string): (r: Reply)
    ensures r.status == HTTP_400_BAD_REQUEST
    ensures Get(r.body, "detail") == Some(ErrorResponse(HTTP_400_BAD_REQUEST, JStr(message)).detail)
  {
    Raise(ErrorResponse(HTTP_400_BAD_REQUEST, JStr(message)))
  }

  /** The envelope every user route returns on success. */
  function Succeeded(message: Json, statusCode: int): (r: Reply)
    ensures r.status == statusCode
    ensures Get(r.body, "detail") == Some(message)
  {
    Send(SuccessResponse(message, statusCode))
  }

  /**
   * What the client receives from the two envelopes: a raised error sits
   * nested under `detail`, with no `status` at the top level, while a
   * returned success is the body itself, its `status` at the top level.
   */
  lemma ClientSeesEnvelopes(message: string, payload: Json, statusCode: int)
    ensures Get(BadRequest(message).body, "status") == None
    ensures Get(BadRequest(message).body, "detail").Some?
    ensures Get(Get(BadRequest(message).body, "detail").value, "status") == Some(JStr("error"))
    ensures Get(Get(BadRequest(message).body, "detail").value, "message") == Some(JStr(message))
    ensures Get(Succeeded(payload, statusCode).body, "status") == Some(JStr("success"))
    ensures Get(Succeeded(payload, statusCode).body, "detail") == Some(payload)
  {
  }

  /** The body `{"token": token}` that carries an activation token. */
  function TokenJson(token: string): Json {
    JObj([("token", JStr(token))])
  }

  /** The body `{"access_token": ..., "token_type": "bearer"}` of a login. */
  function AccessTokenJson(accessToken: string): Json {
    JObj([("access_token", JStr(accessToken)), ("token_type", JStr("bearer"))])
  }

  /** The one thing assumed of password hashing: a password checks against its own hash. */
  ghost predicate Sound(hashPassword: string -> string, verifyPassword: (string, string) -> bool) {
    forall p :: verifyPassword(p, hashPassword(p))
  }

  /** Users are stored under their ids, all below `nextId`, and no two share an email. */
  ghost predicate UsersIndexed(users: map<ObjectId, User>, nextId: ObjectId) {
    && (forall id :: id in users ==> users[id].id == id && id < nextId)
    && (forall i, j :: i in users && j in users && users[i].email == users[j].email ==> i == j)
  }

  /** Tokens are stored under their strings, belong to stored users, and no user holds two. */
  ghost predicate TokensIndexed(tokens: map<string, ActivationToken>, users: map<ObjectId, User>) {
    && (forall t :: t in tokens ==> tokens[t].activationToken == t && tokens[t].userId in users)
    && (forall s, t :: s in tokens && t in tokens && tokens[s].userId == tokens[t].userId ==> s == t)
  }

  /** The id of the user registered under `email`, if any. */
  ghost function UserWithEmail(users: map<ObjectId, User>, email: string): (r: Option<ObjectId>)
    ensures r.None? <==> forall id :: id in users ==> users[id].email != email
    ensures r.Some? ==> r.value in users && users[r.value].email == email
  {
    if exists id :: id in users && users[id].email == email then
      Some(var id :| id in users && users[id].email == email; id)
    else None
  }

  /** The activation token held by the user `userId`, if any. */
  ghost function TokenHeldBy(tokens: map<string, ActivationToken>, userId: ObjectId): (r: Option<string>)
    ensures r.None? <==> forall t :: t in tokens ==> tokens[t].userId != userId
    ensures r.Some? ==> r.value in tokens && tokens[r.value].userId == userId
  {
    if exists t :: t in tokens && tokens[t].userId == userId then
      Some(var t :| t in tokens && tokens[t].userId == userId; t)
    else None
  }

  /** A user who holds no token and is then given one holds exactly that token. */
  lemma TokenHeldAfterInsert(tokens: map<string, ActivationToken>, t: string, token: ActivationToken)
    requires TokenHeldBy(tokens, token.userId).None?
    ensures TokenHeldBy(tokens[t := token], token.userId) == Some(t)
  {
    var held := tokens[t := token];
    assert t in held && held[t].userId == token.userId;
  }

  /** Deleting the one token a user holds leaves the user with none. */
  lemma NoTokenAfterDelete(tokens: map<string, ActivationToken>, users: map<ObjectId, User>, userId: ObjectId)
    requires TokensIndexed(tokens, users) && TokenHeldBy(tokens, userId).Some?
    ensures TokenHeldBy(tokens - {TokenHeldBy(tokens, userId).value}, userId).None?
  {
  }

  /** Deleting a token keeps the token store indexed. */
  lemma DeleteKeepsIndexed(tokens: map<string, ActivationToken>, users: map<ObjectId, User>, t: string)
    requires TokensIndexed(tokens, users)
    ensures TokensIndexed(tokens - {t}, users)
  {
  }

  /** Registering a fresh user with a fresh token keeps both stores indexed. */
  lemma RegisterKeepsIndexed(users: map<ObjectId, User>, tokens: map<string, ActivationToken>, nextId: ObjectId,
                             user: User, t: string, token: ActivationToken)
    requires UsersIndexed(users, nextId) && TokensIndexed(tokens, users)
    requires user.id == nextId && UserWithEmail(users, user.email).None?
    requires t !in tokens && token.activationToken == t && token.userId == nextId
    ensures UsersIndexed(users[nextId := user], nextId + 1)
    ensures TokensIndexed(tokens[t := token], users[nextId := user])
    ensures TokenHeldBy(tokens[t := token], nextId) == Some(t)
  {
    assert TokenHeldBy(tokens, nextId).None?;
    TokenHeldAfterInsert(tokens, t, token);
  }

  /** Replacing a user's token by a fresh one keeps the token store indexed. */
  lemma ReissueKeepsIndexed(tokens: map<string, ActivationToken>, users: map<ObjectId, User>,
                            t: string, token: ActivationToken)
    requires TokensIndexed(tokens, users) && TokenHeldBy(tokens, token.userId).None?
    requires t !in tokens && token.activationToken == t && token.userId in users
    ensures TokensIndexed(tokens[t := token], users)
    ensures TokenHeldBy(tokens[t := token], token.userId) == Some(t)
  {
    TokenHeldAfterInsert(tokens, t, token);
  }

  /** Changing a stored user's flags or hash, but not their id or email, keeps both stores indexed. */
  lemma UpdateUserKeepsIndexed(users: map<ObjectId, User>, tokens: map<string, ActivationToken>, nextId: ObjectId,
                               id: ObjectId, user: User)
    requires UsersIndexed(users, nextId) && TokensIndexed(tokens, users)
    requires id in users && user.id == id && user.email == users[id].email
    ensures UsersIndexed(users[id := user], nextId) && TokensIndexed(tokens, users[id := user])
  {
  }

  /**
   * The account store. Password hashing, password checking, access-token
   * encoding and the configured token expiry are fixed when the store is
   * made; the only thing assumed of hashing is that a password checks
   * against its own hash.
   */
  class AccountStore {
    var users: map<ObjectId, User>
    var tokens: map<string, ActivationToken>
    var denylist: set<string>
    var nextId: ObjectId
    const hashPassword: string -> string
    const verifyPassword: (string, string) -> bool
    const createAccessToken: (string, Timestamp) -> string
    const jwtExpiryMinutes: Option<int>

    /**
     * Users are stored under their ids, below `nextId`, with pairwise
     * distinct emails; tokens are stored under their strings and belong to
     * stored users, at most one per user.
     */
    ghost predicate Valid()
      reads this
    {
      && UsersIndexed(users, nextId)
      && TokensIndexed(tokens, users)
      && Sound(hashPassword, verifyPassword)
    }

    constructor(hashPassword: string -> string, verifyPassword: (string, string) -> bool,
                createAccessToken: (string, Timestamp) -> string, jwtExpiryMinutes: Option<int>)
      requires Sound(hashPassword, verifyPassword)
      ensures Valid()
      ensures users == map[] && tokens == map[] && denylist == {}
      ensures this.hashPassword == hashPassword && this.verifyPassword == verifyPassword
      ensures this.createAccessToken == createAccessToken && this.jwtExpiryMinutes == jwtExpiryMinutes
    {
      users := map[];
      tokens := map[];
      denylist := {};
      nextId := 0;
      this.hashPassword := hashPassword;
      this.verifyPassword := verifyPassword;
      this.createAccessToken := createAccessToken;
      this.jwtExpiryMinutes := jwtExpiryMinutes;
    }

    /** Looks a user up through the unique email index. */
    method GetUserByEmail(email: string) returns (r: Option<ObjectId>)
      requires Valid()
      ensures r == UserWithEmail(users, email)
      ensures r.Some? ==> r.value in users && users[r.value].email == email
    {
      if id :| id in users && users[id].email == email {
        return Some(id);
      }
      return None;
    }

    /** Looks up the activation token of a user; there is at most one. */
    method GetTokenForUser(userId: ObjectId) returns (r: Option<string>)
      requires Valid()
      ensures r == TokenHeldBy(tokens, userId)
      ensures r.None? <==> forall t :: t in tokens ==> tokens[t].userId != userId
    {
      if t :| t in tokens && tokens[t].userId == userId {
        return Some(t);
      }
      return None;
    }

    /** The user registered under `email`, provided the password checks against the stored hash. */
    method Authenticate(email: string, password: string) returns (r: Option<ObjectId>)
      requires Valid()
      ensures r.Some? <==> UserWithEmail(users, email).Some? && verifyPassword(password, users[UserWithEmail(users, email).value].hashedPassword)
      ensures r.Some? ==> r == UserWithEmail(users, email)
    {
      var found := GetUserByEmail(email);
      if found.Some? && verifyPassword(password, users[found.value].hashedPassword) {
        return found;
      }
      return None;
    }

    /**
     * Registers a new account. An email already in use gives 400 and
     * changes nothing; otherwise an inactive user with the hashed password
     * is stored together with one activation token that expires one day
     * later, and the reply is 201. Both times are stored to the millisecond.
     */
    method Register(email: string, password: string, confirmPassword: string, now: Timestamp, freshToken: string)
      returns (reply: Reply)
      requires Valid() && freshToken !in tokens
      modifies this
      ensures Valid()
      ensures denylist == old(denylist)
      ensures ParseCreateUser(email, password, confirmPassword).Failure? ==>
                && reply == Unprocessable(ParseCreateUser(email, password, confirmPassword).error)
                && users == old(users) && tokens == old(tokens) && nextId == old(nextId)
      ensures ParseCreateUser(email, password, confirmPassword).Success? && UserWithEmail(old(users), email).Some? ==>
                && reply == BadRequest("User with email " + email + " already exists.")
                && users == old(users) && tokens == old(tokens) && nextId == old(nextId)
      ensures ParseCreateUser(email, password, confirmPassword).Success? && UserWithEmail(old(users), email).None? ==>
                var id := old(nextId);
                && reply == Succeeded(JStr("User created successfully."), HTTP_201_CREATED)
                && id !in old(users) && nextId == id + 1
                && users == old(users)[id := User(id, email, hashPassword(password), false, StoredTime(now))]
                && tokens == old(tokens)[freshToken := ActivationToken(freshToken, id, StoredTime(now + ONE_DAY))]
                && TokenHeldBy(tokens, id) == Some(freshToken)
    {
      var parsed := ParseCreateUser(email, password, confirmPassword);
      if parsed.Failure? {
        return Unprocessable(parsed.error);
      }
      var existing := GetUserByEmail(email);
      if existing.Some? {
        return BadRequest("User with email " + users[existing.value].email + " already exists.");
      }
      var id := nextId;
      var user := User(id, email, hashPassword(password), false, StoredTime(now));
      var token := ActivationToken(freshToken, id, StoredTime(now + ONE_DAY));
      RegisterKeepsIndexed(users, tokens, nextId, user, freshToken, token);
      users := users[id := user];
      nextId := nextId + 1;
      tokens := tokens[freshToken := token];
      reply := Succeeded(JStr("User created successfully."), HTTP_201_CREATED);
    }

    /**
     * Hands out an activation token. A stored token that has not expired is
     * returned as it is (200); otherwise any stored token is deleted and a
     * new one expiring one day later, to the millisecond, is stored (201), so that the user then
     * holds exactly that token. For an unknown email the error branch fails
     * and the reply is 500.
     */
    method GetActivationToken(email: string, now: Timestamp, freshToken: string) returns (reply: Reply)
      requires Valid() && freshToken !in tokens
      modifies this
      ensures Valid()
      ensures users == old(users) && denylist == old(denylist) && nextId == old(nextId)
      ensures UserWithEmail(old(users), email).None? ==> reply == InternalServerError && tokens == old(tokens)
      ensures UserWithEmail(old(users), email).Some? ==>
                var id := UserWithEmail(old(users), email).value;
                var held := TokenHeldBy(old(tokens), id);
                if held.Some? && ReusableForReissue(old(tokens)[held.value], now) then
                  && reply == Succeeded(TokenJson(held.value), HTTP_200_OK)
                  && tokens == old(tokens)
                else
                  && reply == Succeeded(TokenJson(freshToken), HTTP_201_CREATED)
                  && tokens == (if held.Some? then old(tokens) - {held.value} else old(tokens))
                                 [freshToken := ActivationToken(freshToken, id, StoredTime(now + ONE_DAY))]
                  && TokenHeldBy(tokens, id) == Some(freshToken)
    {
      var userExists := GetUserByEmail(email);
      if userExists.None? {
        return InternalServerError;
      }
      var id := userExists.value;
      var existing := GetTokenForUser(id);
      if existing.Some? {
        if tokens[existing.value].expiresAt > now {
          return Succeeded(TokenJson(existing.value), HTTP_200_OK);
        }
        NoTokenAfterDelete(tokens, users, id);
        DeleteKeepsIndexed(tokens, users, existing.value);
        tokens := tokens - {existing.value};
      }
      var token := ActivationToken(freshToken, id, StoredTime(now + ONE_DAY));
      ReissueKeepsIndexed(tokens, users, freshToken, token);
      tokens := tokens[freshToken := token];
      reply := Succeeded(TokenJson(freshToken), HTTP_201_CREATED);
    }

    /**
     * Activates the account a token belongs to. An unknown token gives 400
     * and changes nothing; an expired one is deleted and gives 400; any
     * other is deleted after its user has been made active (200). Either
     * way the token is gone afterwards.
     */
    method ActivateUser(token: string, now: Timestamp) returns (reply: Reply)
      requires Valid()
      modifies this
      ensures Valid()
      ensures denylist == old(denylist) && nextId == old(nextId)
      ensures token !in tokens
      ensures token !in old(tokens) ==>
                reply == BadRequest("Invalid token.") && users == old(users) && tokens == old(tokens)
      ensures token in old(tokens) && ExpiredForActivation(old(tokens)[token], now) ==>
                && reply == BadRequest("Token has expired.")
                && users == old(users) && tokens == old(tokens) - {token}
      ensures token in old(tokens) && !ExpiredForActivation(old(tokens)[token], now) ==>
                var id := old(tokens)[token].userId;
                && reply == Succeeded(JStr("User activated."), HTTP_200_OK)
                && id in old(users)
                && users == old(users)[id := old(users)[id].(isActive := true)]
                && tokens == old(tokens) - {token}
    {
      if token !in tokens {
        return BadRequest("Invalid token.");
      }
      var existing := tokens[token];
      DeleteKeepsIndexed(tokens, users, token);
      if existing.expiresAt < now {
        tokens := tokens - {token};
        return BadRequest("Token has expired.");
      }
      var user := users[existing.userId];
      UpdateUserKeepsIndexed(users, tokens - {token}, nextId, existing.userId, user.(isActive := true));
      users := users[existing.userId := user.(isActive := true)];
      tokens := tokens - {token};
      reply := Succeeded(JStr("User activated."), HTTP_200_OK);
    }

    /**
     * Logs in: wrong credentials give 400, an inactive account gives 400,
     * and an active account receives a bearer token for its email that
     * expires thirty minutes later. Nothing is stored.
     */
    method GetAccessToken(username: string, password: string, now: Timestamp) returns (reply: Reply)
      requires Valid()
      ensures UserWithEmail(users, username).None? || !verifyPassword(password, users[UserWithEmail(users, username).value].hashedPassword) ==>
                reply == BadRequest("Invalid credentials.")
      ensures UserWithEmail(users, username).Some? && verifyPassword(password, users[UserWithEmail(users, username).value].hashedPassword) ==>
                if users[UserWithEmail(users, username).value].isActive then
                  reply == Reply(HTTP_200_OK, AccessTokenJson(createAccessToken(username, now + ACCESS_TOKEN_LIFETIME)))
                else
                  reply == BadRequest("Inactive user. Please activate your account first.")
    {
      var user := Authenticate(username, password);
      if user.None? {
        return BadRequest("Invalid credentials.");
      }
      if !users[user.value].isActive {
        return BadRequest("Inactive user. Please activate your account first.");
      }
      var token := createAccessToken(users[user.value].email, now + ACCESS_TOKEN_LIFETIME);
      reply := Reply(HTTP_200_OK, AccessTokenJson(token));
    }

    /**
     * Changes the caller's password. The old password is checked before the
     * two are compared; either failure gives 400 and changes nothing. The
     * bearer token is then written to the denylist (which needs a positive
     * token expiry setting, and fails with 500 without one) and the new hash
     * is stored (200).
     */
    method ChangePassword(userId: ObjectId, bearerToken: string, oldPassword: string, newPassword: string)
      returns (reply: Reply)
      requires Valid() && userId in users
      modifies this
      ensures Valid()
      ensures tokens == old(tokens) && nextId == old(nextId)
      ensures ParseChangePassword(oldPassword, newPassword).Failure? ==>
                && reply == Unprocessable(ParseChangePassword(oldPassword, newPassword).error)
                && users == old(users) && denylist == old(denylist)
      ensures ParseChangePassword(oldPassword, newPassword).Success? && !verifyPassword(oldPassword, old(users)[userId].hashedPassword) ==>
                && reply == BadRequest("Please enter your current password correctly.")
                && users == old(users) && denylist == old(denylist)
      ensures ParseChangePassword(oldPassword, newPassword).Success? && verifyPassword(oldPassword, old(users)[userId].hashedPassword) ==>
                if oldPassword == newPassword then
                  && reply == BadRequest("Your new password cannot be similar to the old password")
                  && users == old(users) && denylist == old(denylist)
                else if !DenylistExpiryAccepted(jwtExpiryMinutes) then
                  reply == InternalServerError && users == old(users) && denylist == old(denylist)
                else
                  && reply == Succeeded(JStr("Password changed successfully."), HTTP_200_OK)
                  && denylist == old(denylist) + {DenylistKey(bearerToken)}
                  && users == old(users)[userId := old(users)[userId].(hashedPassword := hashPassword(newPassword))]
    {
      var parsed := ParseChangePassword(oldPassword, newPassword);
      if parsed.Failure? {
        reply := Unprocessable(parsed.error);
      } else if !verifyPassword(oldPassword, users[userId].hashedPassword) {
        reply := BadRequest("Please enter your current password correctly.");
      } else if oldPassword == newPassword {
        reply := BadRequest("Your new password cannot be similar to the old password");
      } else if !DenylistExpiryAccepted(jwtExpiryMinutes) {
        reply := InternalServerError;
      } else {
        var user := users[userId].(hashedPassword := hashPassword(newPassword));
        UpdateUserKeepsIndexed(users, tokens, nextId, userId, user);
        denylist := denylist + {DenylistKey(bearerToken)};
        users := users[userId := user];
        reply := Succeeded(JStr("Password changed successfully."), HTTP_200_OK);
      }
    }

    /**
     * Logs out by writing the bearer token to the denylist (200), which
     * fails with 500 when the token expiry setting is missing or not positive.
     */
    method Logout(bearerToken: string) returns (reply: Reply)
      requires Valid()
      modifies this
      ensures Valid()
      ensures users == old(users) && tokens == old(tokens) && nextId == old(nextId)
      ensures !DenylistExpiryAccepted(jwtExpiryMinutes) ==> reply == InternalServerError && denylist == old(denylist)
      ensures DenylistExpiryAccepted(jwtExpiryMinutes) ==>
                && reply == Succeeded(JStr("Logged out successfully."), HTTP_200_OK)
                && denylist == old(denylist) + {DenylistKey(bearerToken)}
    {
      if !DenylistExpiryAccepted(jwtExpiryMinutes) {
        return InternalServerError;
      }
      denylist := denylist + {DenylistKey(bearerToken)};
      reply := Succeeded(JStr("Logged out successfully."), HTTP_200_OK);
    }
  }
}
