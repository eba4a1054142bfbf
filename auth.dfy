/**
 * Authentication: the user table loaded from the `AUTH_USERS` JSON object,
 * login (`authenticate`) as an ordered chain of checks, password
 * verification, token creation and token validation against the table.
 *
 * bcrypt and JWT are not modelled: their operations are fields of a
 * `Crypto` value, and `CryptoLaws` states what the model relies on
 * (a password verifies against its own hash; a token decodes to its payload
 * from the second it was issued in until the second it expires in, and at
 * no other time). `json.loads` is a parameter as well.
 */
module Auth {
  import opened Wrappers
  import opened Json

  /** `TOKEN_EXPIRE_DAYS`. */
  const TokenExpireDays: int := 60

  /** The token lifetime in microseconds, the unit of the clock. */
  const TokenLifetime: int := TokenExpireDays * 24 * 60 * 60 * 1000000

  // ---------------------------------------------------------------------
  // Inputs: configuration, the cryptographic libraries, the JSON parser
  // ---------------------------------------------------------------------

  /** The configuration values the module reads: `AUTH_ENABLED`, `JWT_SECRET` and `AUTH_USERS`. */
  datatype AuthConfig = AuthConfig(enabled: bool, jwtSecret: Option<string>, authUsers: Option<string>)

  /** `config.JWT_SECRET` is truthy: set and not empty. */
  predicate SecretSet(cfg: AuthConfig) {
    cfg.jwtSecret.Some? && cfg.jwtSecret.value != ""
  }

  /** `config.AUTH_USERS or "{}"`. */
  function UsersText(cfg: AuthConfig): string {
    if cfg.authUsers.Some? && cfg.authUsers.value != "" then cfg.authUsers.value else "{}"
  }

  /** The claims of a token: `sub`, and `iat` and `exp` in whole seconds, as PyJWT stores a `datetime`. */
  datatype Payload = Payload(sub: Option<Json>, iat: int, exp: int)

  /** The microseconds in a second: the clock counts microseconds, a token's claims count seconds. */
  const Second: int := 1000000

  /** The whole second a time on the microsecond clock falls in, as PyJWT truncates a `datetime` claim. */
  function Seconds(t: nat): nat {
    t / Second
  }

  /**
   * The libraries: whether bcrypt and PyJWT are installed, `hashpw` (with
   * the salt folded in; `None` when it raises, as bcrypt 5 does for a
   * password longer than 72 bytes), `checkpw` (`None` when it raises),
   * `jwt.encode` with a secret, and `jwt.decode` with a secret at a time on
   * the microsecond clock (`None` when it raises: bad signature, malformed
   * token, expired, issued in the future).
   */
  datatype Crypto = Crypto(
    hasBcrypt: bool,
    hasJwt: bool,
    hashpw: string -> Option<string>,
    checkpw: (string, string) -> Option<bool>,
    encode: (Payload, string) -> string,
    decode: (string, string, int) -> Option<Payload>)

  /** What the model assumes of bcrypt and PyJWT. */
  ghost predicate CryptoLaws(c: Crypto) {
    && (forall p :: c.hashpw(p).Some? ==> c.checkpw(p, c.hashpw(p).value) == Some(true))
    && (forall claims: Payload, key, now :: claims.iat * Second <= now < claims.exp * Second ==>
          c.decode(c.encode(claims, key), key, now) == Some(claims))
    && (forall claims: Payload, key, now :: now < claims.iat * Second || claims.exp * Second <= now ==>
          c.decode(c.encode(claims, key), key, now) == None)
  }

  /** One member of the parsed `AUTH_USERS` object, in the order of the text. */
  datatype Entry = Entry(username: string, password: Json)

  /** What `json.loads` gives: a decode error, a value that is not an object, or an object's members. */
  datatype Document = Malformed | NotObject | Object(entries: seq<Entry>)

  /** The members of a parsed object have different names. */
  predicate DistinctNames(entries: seq<Entry>) {
    forall i, j :: 0 <= i < j < |entries| ==> entries[i].username != entries[j].username
  }

  /** What the model assumes of `json.loads`: `{}` is the empty object, and an object's names are distinct. */
  ghost predicate ParserLaws(loads: string -> Document) {
    && loads("{}") == Object([])
    && forall s :: loads(s).Object? ==> DistinctNames(loads(s).entries)
  }

  // ---------------------------------------------------------------------
  // The user table (`USERS`)
  // ---------------------------------------------------------------------

  /** `{"password_hash": ..., "name": ...}`. */
  datatype UserRecord = UserRecord(passwordHash: string, name: string)

  /** The contents of `USERS`: its keys in insertion order and the record of each. */
  datatype Users = Users(keys: seq<string>, records: map<string, UserRecord>)

  const NoUsers: Users := Users([], map[])

  /** The keys are distinct and are exactly the names that have a record. */
  ghost predicate WellFormed(u: Users) {
    && (forall i, j :: 0 <= i < j < |u.keys| ==> u.keys[i] != u.keys[j])
    && (forall k :: k in u.keys <==> k in u.records)
  }

  /** `USERS[name] = record`: a new name goes to the end, an existing one keeps its place. */
  function PutUser(u: Users, name: string, record: UserRecord): Users {
    Users(if name in u.records then u.keys else u.keys + [name], u.records[name := record])
  }

  lemma PutUserSpec(u: Users, name: string, record: UserRecord)
    requires WellFormed(u)
    ensures WellFormed(PutUser(u, name, record))
    ensures PutUser(u, name, record).records[name] == record
    ensures forall k :: k != name ==>
      (k in PutUser(u, name, record).records <==> k in u.records) &&
      (k in u.records ==> PutUser(u, name, record).records[k] == u.records[k])
    ensures name !in u.records ==> PutUser(u, name, record).keys == u.keys + [name]
  {
    var v := PutUser(u, name, record);
    if name !in u.records {
      forall i, j | 0 <= i < j < |v.keys| ensures v.keys[i] != v.keys[j] {
        if j == |u.keys| { assert v.keys[i] == u.keys[i]; assert u.keys[i] in u.keys; }
      }
    }
  }

  /** The outcome of loading: the table, and whether an exception escaped. */
  datatype LoadResult = LoadResult(users: Users, raised: bool)

  /** A member that is loaded: a non-empty name and a truthy string password. */
  predicate Accepted(e: Entry) {
    e.username != "" && Truthy(e.password) && e.password.JStr?
  }

  /**
   * The record stored for a member: its password hashed and its name, or
   * `None` when hashing raises (`password.encode()` on a value that is not
   * a string, or `hashpw` itself).
   */
  function RecordFor(e: Entry, hashpw: string -> Option<string>): Option<UserRecord> {
    if e.password.JStr? && hashpw(e.password.s).Some? then Some(UserRecord(hashpw(e.password.s).value, e.username))
    else None
  }

  /** A member on which the loop raises: a non-empty name and a truthy password that cannot be hashed. */
  predicate Bad(e: Entry, hashpw: string -> Option<string>) {
    e.username != "" && Truthy(e.password) && RecordFor(e, hashpw).None?
  }

  /**
   * One iteration of the loading loop; an exception propagates, since the
   * loop's `try` catches only `json.JSONDecodeError`.
   */
  function AddEntry(u: Users, e: Entry, hashpw: string -> Option<string>): LoadResult {
    if e.username == "" || !Truthy(e.password) then LoadResult(u, false)
    else
      match RecordFor(e, hashpw)
      case None => LoadResult(u, true)
      case Some(record) => LoadResult(PutUser(u, e.username, record), false)
  }

  /** The loading loop over the members in order; an exception stops it and keeps what was added. */
  function AddEntries(u: Users, entries: seq<Entry>, hashpw: string -> Option<string>): LoadResult
    decreases |entries|
  {
    if entries == [] then LoadResult(u, false)
    else
      var before := AddEntries(u, entries[..|entries| - 1], hashpw);
      if before.raised then before else AddEntry(before.users, entries[|entries| - 1], hashpw)
  }

  /**
   * `_init_users_from_env` on a table `u`: nothing when authentication is
   * disabled or bcrypt is missing, nothing when the text is not a JSON
   * object, otherwise the loading loop.
   */
  function InitUsers(u: Users, cfg: AuthConfig, crypto: Crypto, loads: string -> Document): LoadResult {
    if !cfg.enabled || !crypto.hasBcrypt then LoadResult(u, false)
    else
      match loads(UsersText(cfg))
      case Malformed => LoadResult(u, false)
      case NotObject => LoadResult(u, false)
      case Object(entries) => AddEntries(u, entries, crypto.hashpw)
  }

  /** The names of the accepted members, in order. */
  function AcceptedNames(entries: seq<Entry>): seq<string>
    decreases |entries|
  {
    if entries == [] then []
    else
      var last := entries[|entries| - 1];
      AcceptedNames(entries[..|entries| - 1]) + (if Accepted(last) then [last.username] else [])
  }

  // ---------------------------------------------------------------------
  // Properties of loading
  // ---------------------------------------------------------------------

  /** Loading raises exactly when some member is bad. */
  lemma {:induction false} AddEntriesRaised(u: Users, entries: seq<Entry>, hashpw: string -> Option<string>)
    ensures AddEntries(u, entries, hashpw).raised <==> exists i :: 0 <= i < |entries| && Bad(entries[i], hashpw)
    decreases |entries|
  {
    if entries != [] {
      var init := entries[..|entries| - 1];
      AddEntriesRaised(u, init, hashpw);
      PrefixBad(entries, init, hashpw);
    }
  }

  /** Loading keeps the table well formed. */
  lemma {:induction false} AddEntriesWellFormed(u: Users, entries: seq<Entry>, hashpw: string -> Option<string>)
    requires WellFormed(u)
    ensures WellFormed(AddEntries(u, entries, hashpw).users)
    decreases |entries|
  {
    if entries != [] {
      var init, last := entries[..|entries| - 1], entries[|entries| - 1];
      AddEntriesWellFormed(u, init, hashpw);
      var before := AddEntries(u, init, hashpw);
      if !before.raised && Accepted(last) && RecordFor(last, hashpw).Some? {
        PutUserSpec(before.users, last.username, RecordFor(last, hashpw).value);
      }
    }
  }

  lemma PrefixBad(entries: seq<Entry>, init: seq<Entry>, hashpw: string -> Option<string>)
    requires entries != [] && init == entries[..|entries| - 1]
    ensures (exists i :: 0 <= i < |entries| && Bad(entries[i], hashpw)) <==>
      (exists i :: 0 <= i < |init| && Bad(init[i], hashpw)) || Bad(entries[|entries| - 1], hashpw)
  {
    if exists i :: 0 <= i < |entries| && Bad(entries[i], hashpw) {
      var i :| 0 <= i < |entries| && Bad(entries[i], hashpw);
      if i < |entries| - 1 { assert init[i] == entries[i]; }
    }
    if exists i :: 0 <= i < |init| && Bad(init[i], hashpw) {
      var i :| 0 <= i < |init| && Bad(init[i], hashpw);
      assert entries[i] == init[i];
    }
  }

  /**
   * Without an exception, a name has a record afterwards exactly when it
   * had one before or some accepted member carries it.
   */
  lemma {:induction false} AddEntriesNames(u: Users, entries: seq<Entry>, hashpw: string -> Option<string>)
    requires WellFormed(u)
    ensures var r := AddEntries(u, entries, hashpw);
      !r.raised ==> forall k :: k in r.users.records <==>
        k in u.records || exists i :: 0 <= i < |entries| && Accepted(entries[i]) && entries[i].username == k
    decreases |entries|
  {
    if entries != [] {
      var init, last := entries[..|entries| - 1], entries[|entries| - 1];
      AddEntriesNames(u, init, hashpw);
      AddEntriesWellFormed(u, init, hashpw);
      var before := AddEntries(u, init, hashpw);
      if !before.raised && Accepted(last) && RecordFor(last, hashpw).Some? {
        PutUserSpec(before.users, last.username, RecordFor(last, hashpw).value);
      }
      var r := AddEntries(u, entries, hashpw);
      if !r.raised {
        forall k ensures k in r.users.records <==>
          k in u.records || exists i :: 0 <= i < |entries| && Accepted(entries[i]) && entries[i].username == k
        {
          AcceptedPrefix(entries, init, k);
        }
      }
    }
  }

  lemma AcceptedPrefix(entries: seq<Entry>, init: seq<Entry>, k: string)
    requires entries != [] && init == entries[..|entries| - 1]
    ensures (exists i :: 0 <= i < |entries| && Accepted(entries[i]) && entries[i].username == k) <==>
      (exists i :: 0 <= i < |init| && Accepted(init[i]) && init[i].username == k) ||
      (Accepted(entries[|entries| - 1]) && entries[|entries| - 1].username == k)
  {
    if exists i :: 0 <= i < |entries| && Accepted(entries[i]) && entries[i].username == k {
      var i :| 0 <= i < |entries| && Accepted(entries[i]) && entries[i].username == k;
      if i < |entries| - 1 { assert init[i] == entries[i]; }
    }
    if exists i :: 0 <= i < |init| && Accepted(init[i]) && init[i].username == k {
      var i :| 0 <= i < |init| && Accepted(init[i]) && init[i].username == k;
      assert entries[i] == init[i];
    }
  }

  /**
   * Without an exception, each accepted member's name holds
   * `{password_hash: hashpw(password), name: username}` (the names of a
   * parsed object being distinct).
   */
  lemma {:induction false} AddEntriesRecords(u: Users, entries: seq<Entry>, hashpw: string -> Option<string>)
    requires WellFormed(u) && DistinctNames(entries)
    ensures var r := AddEntries(u, entries, hashpw);
      !r.raised ==> forall i :: 0 <= i < |entries| && Accepted(entries[i]) ==>
        entries[i].username in r.users.records && Some(r.users.records[entries[i].username]) == RecordFor(entries[i], hashpw)
    decreases |entries|
  {
    if entries != [] {
      var init, last := entries[..|entries| - 1], entries[|entries| - 1];
      assert DistinctNames(init) by {
        forall i, j | 0 <= i < j < |init| ensures init[i].username != init[j].username {
          assert init[i] == entries[i] && init[j] == entries[j];
        }
      }
      AddEntriesRecords(u, init, hashpw);
      AddEntriesWellFormed(u, init, hashpw);
      var before := AddEntries(u, init, hashpw);
      var r := AddEntries(u, entries, hashpw);
      if !r.raised {
        if Accepted(last) && RecordFor(last, hashpw).Some? {
          PutUserSpec(before.users, last.username, RecordFor(last, hashpw).value);
        }
        forall i | 0 <= i < |entries| && Accepted(entries[i])
          ensures entries[i].username in r.users.records && Some(r.users.records[entries[i].username]) == RecordFor(entries[i], hashpw)
        {
          if i < |entries| - 1 {
            assert init[i] == entries[i];
            assert entries[i].username != last.username;
          }
        }
      }
    }
  }

  /** Loading into an empty table without an exception orders the keys as the accepted members. */
  lemma {:induction false} AddEntriesOrder(entries: seq<Entry>, hashpw: string -> Option<string>)
    requires DistinctNames(entries)
    ensures var r := AddEntries(NoUsers, entries, hashpw);
      !r.raised ==> r.users.keys == AcceptedNames(entries)
    decreases |entries|
  {
    if entries != [] {
      var init, last := entries[..|entries| - 1], entries[|entries| - 1];
      assert DistinctNames(init) by {
        forall i, j | 0 <= i < j < |init| ensures init[i].username != init[j].username {
          assert init[i] == entries[i] && init[j] == entries[j];
        }
      }
      AddEntriesOrder(init, hashpw);
      AddEntriesWellFormed(NoUsers, init, hashpw);
      AddEntriesNames(NoUsers, init, hashpw);
      var before := AddEntries(NoUsers, init, hashpw);
      if !before.raised && Accepted(last) && RecordFor(last, hashpw).Some? {
        PutUserSpec(before.users, last.username, RecordFor(last, hashpw).value);
      }
    }
  }

  /** A bad member stops the loop: the members before it stay loaded, none after it is looked at. */
  lemma {:induction false} AddEntriesStops(u: Users, entries: seq<Entry>, k: nat, hashpw: string -> Option<string>)
    requires k < |entries| && Bad(entries[k], hashpw) && forall i :: 0 <= i < k ==> !Bad(entries[i], hashpw)
    ensures AddEntries(u, entries, hashpw) == LoadResult(AddEntries(u, entries[..k], hashpw).users, true)
    decreases |entries|
  {
    var init := entries[..|entries| - 1];
    if k == |entries| - 1 {
      assert init == entries[..k];
      NoBadNoRaise(u, init, hashpw);
    } else {
      assert init[k] == entries[k];
      assert init[..k] == entries[..k];
      forall i | 0 <= i < k ensures !Bad(init[i], hashpw) { assert init[i] == entries[i]; }
      AddEntriesStops(u, init, k, hashpw);
    }
  }

  lemma {:induction false} NoBadNoRaise(u: Users, entries: seq<Entry>, hashpw: string -> Option<string>)
    requires forall i :: 0 <= i < |entries| ==> !Bad(entries[i], hashpw)
    ensures !AddEntries(u, entries, hashpw).raised
    decreases |entries|
  {
    if entries != [] {
      var init := entries[..|entries| - 1];
      forall i | 0 <= i < |init| ensures !Bad(init[i], hashpw) { assert init[i] == entries[i]; }
      NoBadNoRaise(u, init, hashpw);
    }
  }

  /** Loading does nothing when authentication is disabled, bcrypt is missing, or the text is not a JSON object. */
  lemma InitUsersNoOp(u: Users, cfg: AuthConfig, crypto: Crypto, loads: string -> Document)
    requires !cfg.enabled || !crypto.hasBcrypt || !loads(UsersText(cfg)).Object?
    ensures InitUsers(u, cfg, crypto, loads) == LoadResult(u, false)
  {
  }

  /** Unset or empty `AUTH_USERS` loads no user. */
  lemma InitUsersUnset(u: Users, cfg: AuthConfig, crypto: Crypto, loads: string -> Document)
    requires ParserLaws(loads)
    requires cfg.authUsers == None || cfg.authUsers == Some("")
    ensures InitUsers(u, cfg, crypto, loads) == LoadResult(u, false)
  {
  }

  /**
   * Reloading from an empty table holds exactly the configured users: each
   * accepted member under its name, in the object's order, with its hashed
   * password; a bad member raises after the members before it are loaded.
   */
  lemma ReloadSpec(cfg: AuthConfig, crypto: Crypto, loads: string -> Document)
    requires ParserLaws(loads) && cfg.enabled && crypto.hasBcrypt && loads(UsersText(cfg)).Object?
    ensures var entries, r := loads(UsersText(cfg)).entries, InitUsers(NoUsers, cfg, crypto, loads);
      && WellFormed(r.users)
      && (r.raised <==> exists i :: 0 <= i < |entries| && Bad(entries[i], crypto.hashpw))
      && (!r.raised ==> r.users.keys == AcceptedNames(entries))
      && (!r.raised ==> forall k :: k in r.users.records <==>
            exists i :: 0 <= i < |entries| && Accepted(entries[i]) && entries[i].username == k)
      && (!r.raised ==> forall i :: 0 <= i < |entries| && Accepted(entries[i]) ==>
            Some(r.users.records[entries[i].username]) == RecordFor(entries[i], crypto.hashpw))
  {
    var entries := loads(UsersText(cfg)).entries;
    assert DistinctNames(entries);
    AddEntriesRaised(NoUsers, entries, crypto.hashpw);
    AddEntriesWellFormed(NoUsers, entries, crypto.hashpw);
    AddEntriesNames(NoUsers, entries, crypto.hashpw);
    AddEntriesRecords(NoUsers, entries, crypto.hashpw);
    AddEntriesOrder(entries, crypto.hashpw);
  }

  // ---------------------------------------------------------------------
  // Passwords and tokens
  // ---------------------------------------------------------------------

  /** `verify_password`: false without bcrypt or when `checkpw` raises. */
  function VerifyPassword(crypto: Crypto, password: string, hash: string): bool {
    if !crypto.hasBcrypt then false
    else
      match crypto.checkpw(password, hash)
      case None => false
      case Some(ok) => ok
  }

  lemma VerifyPasswordSpec(crypto: Crypto, password: string, hash: string)
    ensures VerifyPassword(crypto, password, hash) <==> crypto.hasBcrypt && crypto.checkpw(password, hash) == Some(true)
    ensures CryptoLaws(crypto) && crypto.hasBcrypt && crypto.hashpw(password).Some? ==>
      VerifyPassword(crypto, password, crypto.hashpw(password).value)
  {
  }

  datatype TokenError = JwtMissing | SecretMissing

  /** A signed token and its expiry in milliseconds. */
  datatype Token = Token(text: string, expiresAtMs: int)

  /** The claims of a token issued to `username` at `now`: the second it is issued in and the second 60 days later. */
  function Claims(username: string, now: nat): Payload {
    Payload(Some(JStr(username)), Seconds(now), Seconds(now + TokenLifetime))
  }

  /** `create_token`: a token for `username` that expires 60 days after `now` (microseconds). */
  function CreateToken(cfg: AuthConfig, crypto: Crypto, username: string, now: nat): Result<Token, TokenError> {
    if !crypto.hasJwt then Err(JwtMissing)
    else if !SecretSet(cfg) then Err(SecretMissing)
    else Ok(Token(crypto.encode(Claims(username, now), cfg.jwtSecret.value), (now + TokenLifetime) / 1000))
  }

  /** `validate_token`: the subject of a token that decodes, when it is a non-empty name in the table. */
  function ValidateToken(cfg: AuthConfig, crypto: Crypto, users: Users, token: string, now: int): (r: Option<string>) {
    if !crypto.hasJwt || !SecretSet(cfg) then None
    else
      match crypto.decode(token, cfg.jwtSecret.value, now)
      case None => None
      case Some(claims) =>
        match claims.sub
        case Some(JStr(name)) => if name != "" && name in users.records then Some(name) else None
        case _ => None
  }

  lemma CreateTokenSpec(cfg: AuthConfig, crypto: Crypto, username: string, now: nat)
    ensures CreateToken(cfg, crypto, username, now).Err? <==> !crypto.hasJwt || !SecretSet(cfg)
    ensures !crypto.hasJwt ==> CreateToken(cfg, crypto, username, now) == Err(JwtMissing)
    ensures CreateToken(cfg, crypto, username, now).Ok? ==>
      CreateToken(cfg, crypto, username, now).value.expiresAtMs == now / 1000 + 5184000000
  {
    assert TokenLifetime == 5184000000 * 1000;
  }

  /**
   * The times at which a token issued at `now` decodes: from the start of
   * the second it was issued in up to the start of the second its expiry
   * falls in. Since PyJWT stores whole seconds, the token lives between
   * 60 days less one second and 60 days.
   */
  predicate Live(now: nat, later: int) {
    Seconds(now) * Second <= later < Seconds(now + TokenLifetime) * Second
  }

  lemma LiveBounds(now: nat, later: int)
    ensures now <= later < now + TokenLifetime - Second ==> Live(now, later)
    ensures Live(now, later) ==> now - Second < later < now + TokenLifetime
  {
  }

  /**
   * A token issued to a user validates exactly while it is live and the
   * user is in the table, and then to that user.
   */
  lemma TokenRoundTrip(cfg: AuthConfig, crypto: Crypto, users: Users, username: string, now: nat, later: int)
    requires CryptoLaws(crypto) && CreateToken(cfg, crypto, username, now).Ok?
    ensures var t := CreateToken(cfg, crypto, username, now).value.text;
      && (ValidateToken(cfg, crypto, users, t, later).Some? <==>
            Live(now, later) && username != "" && username in users.records)
      && (ValidateToken(cfg, crypto, users, t, later).Some? ==> ValidateToken(cfg, crypto, users, t, later) == Some(username))
  {
    var claims := Claims(username, now);
    assert claims.iat * Second == Seconds(now) * Second && claims.exp * Second == Seconds(now + TokenLifetime) * Second;
  }

  lemma ValidateTokenSpec(cfg: AuthConfig, crypto: Crypto, users: Users, token: string, now: int)
    ensures var r := ValidateToken(cfg, crypto, users, token, now);
      && (r.Some? <==>
            (&& crypto.hasJwt && SecretSet(cfg) && crypto.decode(token, cfg.jwtSecret.value, now).Some?
             && exists name :: crypto.decode(token, cfg.jwtSecret.value, now).value.sub == Some(JStr(name)) &&
                  name != "" && name in users.records))
      && (r.Some? ==> crypto.decode(token, cfg.jwtSecret.value, now).value.sub == Some(JStr(r.value)))
  {
    var r := ValidateToken(cfg, crypto, users, token, now);
    if r.Some? {
      assert crypto.decode(token, cfg.jwtSecret.value, now).value.sub == Some(JStr(r.value));
    }
  }

  // ---------------------------------------------------------------------
  // Login and token validation responses
  // ---------------------------------------------------------------------

  datatype LoginResponse = LoginResponse(
    success: bool,
    user: Option<map<string, string>>,
    token: Option<string>,
    expiresAt: Option<int>,
    error: Option<string>)

  function LoginFailure(msg: string): LoginResponse {
    LoginResponse(false, None, None, None, Some(msg))
  }

  const InvalidCredentials: string := "Invalid username or password"

  /**
   * `authenticate`: the first failing check decides the response. `Err` is
   * the `RuntimeError` that escapes when PyJWT is missing.
   */
  function Authenticate(cfg: AuthConfig, crypto: Crypto, users: Users, username: string, password: string, now: nat)
    : Result<LoginResponse, string>
  {
    if !cfg.enabled then Ok(LoginFailure("Authentication is disabled"))
    else if username == "" || password == "" then Ok(LoginFailure("Username and password are required"))
    else if !SecretSet(cfg) then Ok(LoginFailure("Authentication system not configured"))
    else if username !in users.records then Ok(LoginFailure(InvalidCredentials))
    else if !VerifyPassword(crypto, password, users.records[username].passwordHash) then Ok(LoginFailure(InvalidCredentials))
    else
      match CreateToken(cfg, crypto, username, now)
      case Err(JwtMissing) => Err("PyJWT is required for token creation; install PyJWT to enable authentication.")
      case Err(SecretMissing) => Ok(LoginFailure("Authentication system error"))
      case Ok(t) => Ok(LoginResponse(true, Some(map["username" := username]), Some(t.text), Some(t.expiresAtMs), None))
  }

  /** The checks of `authenticate`, in order: each applies only when all before it pass. */
  lemma AuthenticateOrder(cfg: AuthConfig, crypto: Crypto, users: Users, username: string, password: string, now: nat)
    ensures var r := Authenticate(cfg, crypto, users, username, password, now);
      && (!cfg.enabled ==> r == Ok(LoginFailure("Authentication is disabled")))
      && (cfg.enabled && (username == "" || password == "") ==> r == Ok(LoginFailure("Username and password are required")))
      && (cfg.enabled && username != "" && password != "" && !SecretSet(cfg) ==>
            r == Ok(LoginFailure("Authentication system not configured")))
      && (cfg.enabled && username != "" && password != "" && SecretSet(cfg) && username !in users.records ==>
            r == Ok(LoginFailure("Invalid username or password")))
      && (cfg.enabled && username != "" && password != "" && SecretSet(cfg) && username in users.records &&
          !VerifyPassword(crypto, password, users.records[username].passwordHash) ==>
            r == Ok(LoginFailure("Invalid username or password")))
      && ((cfg.enabled && username != "" && password != "" && SecretSet(cfg) && username in users.records &&
           VerifyPassword(crypto, password, users.records[username].passwordHash) && !crypto.hasJwt) ==> r.Err?)
  {
  }

  /**
   * A login succeeds exactly when every check passes; it then names the
   * user, carries a token issued now, and expires 60 days later.
   */
  lemma AuthenticateSuccess(cfg: AuthConfig, crypto: Crypto, users: Users, username: string, password: string, now: nat)
    ensures var r := Authenticate(cfg, crypto, users, username, password, now);
      && (r.Ok? && r.value.success <==>
            cfg.enabled && username != "" && password != "" && SecretSet(cfg) && username in users.records &&
            VerifyPassword(crypto, password, users.records[username].passwordHash) && crypto.hasJwt)
      && (r.Ok? && r.value.success ==>
            && r.value.user == Some(map["username" := username])
            && r.value.token == Some(crypto.encode(Claims(username, now), cfg.jwtSecret.value))
            && r.value.expiresAt == Some((now + TokenLifetime) / 1000)
            && r.value.error == None)
      && (r.Ok? && !r.value.success ==> r.value.user == None && r.value.token == None && r.value.error.Some?)
  {
  }

  /** An unknown name and a wrong password get the same response. */
  lemma SameResponseForUnknownAndWrong(
    cfg: AuthConfig, crypto: Crypto, users: Users, unknown: string, known: string, password: string, wrong: string, now: nat)
    requires cfg.enabled && SecretSet(cfg) && unknown != "" && known != "" && password != "" && wrong != ""
    requires unknown !in users.records && known in users.records
    requires !VerifyPassword(crypto, wrong, users.records[known].passwordHash)
    ensures Authenticate(cfg, crypto, users, unknown, password, now) == Authenticate(cfg, crypto, users, known, wrong, now)
  {
  }

  datatype ValidateResponse = ValidateResponse(success: bool, user: Option<map<string, string>>, error: Option<string>)

  /** `validate_auth_token`. */
  function ValidateAuthToken(cfg: AuthConfig, crypto: Crypto, users: Users, token: string, now: int): ValidateResponse {
    if token == "" then ValidateResponse(false, None, Some("Token is required"))
    else
      match ValidateToken(cfg, crypto, users, token, now)
      case None => ValidateResponse(false, None, Some("Invalid or expired token"))
      case Some(name) => ValidateResponse(true, Some(map["username" := name]), None)
  }

  lemma ValidateAuthTokenSpec(cfg: AuthConfig, crypto: Crypto, users: Users, token: string, now: int)
    ensures var r := ValidateAuthToken(cfg, crypto, users, token, now);
      && (token == "" ==> r == ValidateResponse(false, None, Some("Token is required")))
      && (token != "" && ValidateToken(cfg, crypto, users, token, now).None? ==>
            r == ValidateResponse(false, None, Some("Invalid or expired token")))
      && (r.success <==> token != "" && ValidateToken(cfg, crypto, users, token, now).Some?)
      && (r.success ==> exists name :: name in users.records && r.user == Some(map["username" := name]))
  {
    var r := ValidateAuthToken(cfg, crypto, users, token, now);
    if r.success {
      var name := ValidateToken(cfg, crypto, users, token, now).value;
      assert name in users.records && r.user == Some(map["username" := name]);
    }
  }

  /**
   * End to end: after a reload, a configured user logs in with their
   * password, and the token they get validates to them exactly while it
   * is live.
   */
  lemma LoginAfterReload(cfg: AuthConfig, crypto: Crypto, loads: string -> Document, i: nat, now: nat, later: int)
    requires CryptoLaws(crypto) && ParserLaws(loads)
    requires cfg.enabled && SecretSet(cfg) && crypto.hasBcrypt && crypto.hasJwt
    requires loads(UsersText(cfg)).Object?
    requires var entries := loads(UsersText(cfg)).entries;
      i < |entries| && Accepted(entries[i]) && forall j :: 0 <= j < |entries| ==> !Bad(entries[j], crypto.hashpw)
    ensures var e, users := loads(UsersText(cfg)).entries[i], InitUsers(NoUsers, cfg, crypto, loads).users;
      var r := Authenticate(cfg, crypto, users, e.username, e.password.s, now);
      && r.Ok? && r.value.success
      && ValidateToken(cfg, crypto, users, r.value.token.value, later) == if Live(now, later) then Some(e.username) else None
  {
    var entries := loads(UsersText(cfg)).entries;
    var e, users := entries[i], InitUsers(NoUsers, cfg, crypto, loads).users;
    ReloadSpec(cfg, crypto, loads);
    NoBadNoRaise(NoUsers, entries, crypto.hashpw);
    assert Some(users.records[e.username]) == RecordFor(e, crypto.hashpw);
    VerifyPasswordSpec(crypto, e.password.s, users.records[e.username].passwordHash);
    TokenRoundTrip(cfg, crypto, users, e.username, now, later);
  }

  // ---------------------------------------------------------------------
  // The module state
  // ---------------------------------------------------------------------

  /** The `USERS` dictionary, updated in place. */
  class UserTable {
    var keys: seq<string>
    var records: map<string, UserRecord>

    constructor()
      ensures keys == [] && records == map[]
    {
      keys := [];
      records := map[];
    }

    function Contents(): Users
      reads this
    {
      Users(keys, records)
    }

    /** `get_usernames`: every user once, in insertion order. */
    function Usernames(): (r: seq<string>)
      reads this
      requires WellFormed(Contents())
      ensures forall k :: k in r <==> k in records
      ensures forall i, j :: 0 <= i < j < |r| ==> r[i] != r[j]
    {
      keys
    }

    /** `USERS[name] = record`. */
    method Put(name: string, record: UserRecord)
      modifies this
      ensures Contents() == PutUser(old(Contents()), name, record)
    {
      if name !in records {
        keys := keys + [name];
      }
      records := records[name := record];
    }

    /** `USERS.clear()`. */
    method Clear()
      modifies this
      ensures Contents() == NoUsers
    {
      keys := [];
      records := map[];
    }

    /**
     * `_init_users_from_env`; `raised` reports the exception that escapes
     * when a password cannot be hashed (the `AttributeError` of a non-string,
     * or a `ValueError` of `hashpw`).
     */
    method InitFromEnv(cfg: AuthConfig, crypto: Crypto, loads: string -> Document) returns (raised: bool)
      modifies this
      ensures LoadResult(Contents(), raised) == InitUsers(old(Contents()), cfg, crypto, loads)
    {
      raised := false;
      if !cfg.enabled || !crypto.hasBcrypt {
        return;
      }
      var doc := loads(UsersText(cfg));
      if !doc.Object? {
        return;
      }
      var entries := doc.entries;
      var i := 0;
      while i < |entries|
        invariant 0 <= i <= |entries|
        invariant AddEntries(old(Contents()), entries[..i], crypto.hashpw) == LoadResult(Contents(), false)
      {
        var e := entries[i];
        assert entries[..i + 1][..i] == entries[..i];
        if e.username == "" || !Truthy(e.password) {
          i := i + 1;
          continue;
        }
        var record := RecordFor(e, crypto.hashpw);
        if record.None? {
          raised := true;
          assert entries[..i + 1] == entries[..i] + [e];
          AddEntriesStops(old(Contents()), entries, i, crypto.hashpw) by {
            PrefixNoBad(old(Contents()), entries, i, crypto.hashpw);
          }
          return;
        }
        Put(e.username, record.value);
        i := i + 1;
      }
      assert entries[..i] == entries;
    }

    /** `reload_auth`: clear the table, then load the configured users. */
    method Reload(cfg: AuthConfig, crypto: Crypto, loads: string -> Document) returns (raised: bool)
      modifies this
      ensures LoadResult(Contents(), raised) == InitUsers(NoUsers, cfg, crypto, loads)
    {
      Clear();
      raised := InitFromEnv(cfg, crypto, loads);
    }
  }

  /** When the loop has gone through `k` members without raising, none of them was bad. */
  lemma PrefixNoBad(u: Users, entries: seq<Entry>, k: nat, hashpw: string -> Option<string>)
    requires k <= |entries| && !AddEntries(u, entries[..k], hashpw).raised
    ensures forall i :: 0 <= i < k ==> !Bad(entries[i], hashpw)
  {
    AddEntriesRaised(u, entries[..k], hashpw);
    forall i | 0 <= i < k ensures !Bad(entries[i], hashpw) {
      assert entries[..k][i] == entries[i];
    }
  }
}
