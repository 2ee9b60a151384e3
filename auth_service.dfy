/**
 * The authentication service: password hashing and JWT signing as abstract
 * function pairs, access- and email-token claim construction, token
 * checking, and `get_current_user`, which resolves a bearer token to a
 * user through a cache-aside read of the key-value store.
 */
module AuthService {
  import opened Wrappers
  import opened Errors
  import opened Models
  import opened UserRepo

  // ------------------------------------------------------------ crypto

  /** bcrypt through passlib: `hash` makes a salted digest, `verify` checks a password against one. */
  datatype Hasher = Hasher(hash: string -> string, verify: (string, string) -> bool)

  /** What the service relies on: a password verifies against its own hash. */
  ghost predicate SoundHasher(h: Hasher)
  {
    forall p :: h.verify(p, h.hash(p))
  }

  /** The `sub` claim of a decoded payload: absent, JSON null, or a string. */
  datatype Subject = NoSub | NullSub | Sub(name: string)

  /** A JWT claim set: `sub`, and `iat` and `exp` as seconds since the epoch. */
  datatype Claims = Claims(sub: Subject, iat: Option<int>, exp: Option<int>)

  /**
   * JWT signing with the configured secret and algorithm: `decode` returns
   * None when the signature, algorithm or format does not check.
   */
  datatype TokenCodec = TokenCodec(encode: Claims -> string, decode: string -> Option<Claims>)

  /** What the service relies on: a token it signed decodes to its claims. */
  ghost predicate SoundCodec(c: TokenCodec)
  {
    forall cl :: c.decode(c.encode(cl)) == Some(cl)
  }

  /** `settings.JWT_EXPIRATION_SECONDS` (its default). */
  const JwtExpirationSeconds: int := 3600
  /** `timedelta(days=7)` in seconds. */
  const EmailTokenSeconds: int := 7 * 24 * 60 * 60
  /** The TTL of a cached user snapshot, in seconds. */
  const CacheTtlSeconds: nat := 900

  /**
   * `jwt.decode(token, secret, algorithms=[alg])` at time `now`: the
   * signature check, then the default claim checks: `exp`, which rejects a
   * token only when `exp < now`, and `sub`, which rejects a subject that is
   * present but not a string.
   */
  function DecodeToken(c: TokenCodec, token: string, now: int): (r: Option<Claims>)
    ensures r.Some? <==> c.decode(token).Some? && (c.decode(token).value.exp.Some? ==> now <= c.decode(token).value.exp.value)
                         && !c.decode(token).value.sub.NullSub?
    ensures r.Some? ==> r == c.decode(token)
    ensures r.Some? ==> !r.value.sub.NullSub?
  {
    match c.decode(token)
    case None => None
    case Some(cl) =>
      if cl.exp.Some? && cl.exp.value < now then None
      else if cl.sub.NullSub? then None
      else Some(cl)
  }

  // ---------------------------------------------------------- issuance

  /** The claims of `create_access_token(data, expires_delta)`: a missing or zero delta means the default lifetime. */
  function AccessClaims(data: Claims, expiresDelta: Option<int>, now: int): (r: Claims)
    ensures r.sub == data.sub && r.iat == data.iat
    ensures r.exp.Some?
    ensures expiresDelta.None? || expiresDelta == Some(0) ==> r.exp.value == now + JwtExpirationSeconds
    ensures expiresDelta.Some? && expiresDelta != Some(0) ==> r.exp.value == now + expiresDelta.value
  {
    var lifetime := if expiresDelta.Some? && expiresDelta.value != 0 then expiresDelta.value else JwtExpirationSeconds;
    data.(exp := Some(now + lifetime))
  }

  /** `create_access_token`: a signed token carrying the access claims. */
  function CreateAccessToken(c: TokenCodec, data: Claims, expiresDelta: Option<int>, now: int): (t: string)
    ensures SoundCodec(c) ==> c.decode(t) == Some(AccessClaims(data, expiresDelta, now))
  {
    c.encode(AccessClaims(data, expiresDelta, now))
  }

  /**
   * An access token decodes to its claims until its expiry instant, and not
   * after it; one with a null subject never decodes.
   */
  lemma AccessTokenLifetime(c: TokenCodec, data: Claims, expiresDelta: Option<int>, issued: int, now: int)
    requires SoundCodec(c)
    ensures var cl := AccessClaims(data, expiresDelta, issued);
      DecodeToken(c, CreateAccessToken(c, data, expiresDelta, issued), now)
        == if now <= cl.exp.value && !data.sub.NullSub? then Some(cl) else None
  {
    assert c.decode(c.encode(AccessClaims(data, expiresDelta, issued))) == Some(AccessClaims(data, expiresDelta, issued));
  }

  /** The claims of `create_email_token(data)`: issued now, valid for seven days. */
  function EmailClaims(data: Claims, now: int): (r: Claims)
    ensures r.sub == data.sub && r.iat == Some(now) && r.exp == Some(now + EmailTokenSeconds)
  {
    data.(iat := Some(now), exp := Some(now + EmailTokenSeconds))
  }

  /** `create_email_token`: a signed token carrying the email claims. */
  function CreateEmailToken(c: TokenCodec, data: Claims, now: int): (t: string)
    ensures SoundCodec(c) ==> c.decode(t) == Some(EmailClaims(data, now))
  {
    c.encode(EmailClaims(data, now))
  }

  /**
   * `get_email_from_token(token)`: a token that does not decode (a null
   * `sub` included) is a 422; a payload without `sub` is an uncaught
   * KeyError; otherwise the address is the `sub` string.
   */
  function GetEmailFromToken(c: TokenCodec, token: string, now: int): (r: Result<string, Error>)
    ensures DecodeToken(c, token, now).None? <==> r == Err(Http(422, "Invalid email verification token"))
    ensures c.decode(token).Some? && c.decode(token).value.sub.NullSub? ==>
      r == Err(Http(422, "Invalid email verification token"))
    ensures r.Ok? ==> DecodeToken(c, token, now) == Some(Claims(Sub(r.value),
              DecodeToken(c, token, now).value.iat, DecodeToken(c, token, now).value.exp))
    ensures DecodeToken(c, token, now).Some? ==>
      var sub := DecodeToken(c, token, now).value.sub;
      && (sub.NoSub? ==> r == Err(InternalFault(KeyError)))
      && (sub.Sub? ==> r == Ok(sub.name))
  {
    match DecodeToken(c, token, now)
    case None => Err(Http(422, "Invalid email verification token"))
    case Some(cl) => if cl.sub.NoSub? then Err(InternalFault(KeyError)) else Ok(cl.sub.name)
  }

  /** An email token gives back its address for seven days after issue and is a 422 afterwards. */
  lemma EmailTokenRoundTrip(c: TokenCodec, email: string, issued: int, now: int)
    requires SoundCodec(c) && issued <= now
    ensures var token := CreateEmailToken(c, Claims(Sub(email), None, None), issued);
      GetEmailFromToken(c, token, now) ==
        if now <= issued + EmailTokenSeconds then Ok(email)
        else Err(Http(422, "Invalid email verification token"))
  {
    var cl := EmailClaims(Claims(Sub(email), None, None), issued);
    assert c.decode(c.encode(cl)) == Some(cl);
  }

  // ------------------------------------------------------- token check

  /** The `credentials_exception` of `get_current_user` (section 3 of RFC 6750). */
  function CredentialsError(): (e: Error)
    ensures e.HttpError? && e.status == 401 && e.headers == map["WWW-Authenticate" := "Bearer"]
    ensures e.detail == "Could not validate credentials"
  {
    HttpError(401, "Could not validate credentials", map["WWW-Authenticate" := "Bearer"])
  }

  /**
   * The first block of `get_current_user`: decode, then `payload["sub"]`.
   * A JWTError gives the 401 (a null subject is one: the decoder rejects it
   * before the `is None` test is reached); a missing `sub` raises a
   * KeyError, which the `except JWTError` does not catch.
   */
  function TokenSubject(c: TokenCodec, token: string, now: int): (r: Result<string, Error>)
    ensures r.Ok? <==> DecodeToken(c, token, now).Some? && DecodeToken(c, token, now).value.sub.Sub?
    ensures r.Ok? ==> r.value == DecodeToken(c, token, now).value.sub.name
    ensures r.Err? ==> r.error == CredentialsError() || r.error == InternalFault(KeyError)
    ensures DecodeToken(c, token, now).None? ==> r == Err(CredentialsError())
    ensures DecodeToken(c, token, now).Some? && DecodeToken(c, token, now).value.sub.NoSub? ==>
      r == Err(InternalFault(KeyError))
    ensures c.decode(token).Some? && c.decode(token).value.sub.NullSub? ==> r == Err(CredentialsError())
  {
    match DecodeToken(c, token, now)
    case None => Err(CredentialsError())
    case Some(cl) =>
      match cl.sub
      case NoSub => Err(InternalFault(KeyError))
      case NullSub => Err(CredentialsError())
      case Sub(name) => Ok(name)
  }

  // ------------------------------------------------------ cache store

  /**
   * What `r.get` can return, as `get_current_user` reads it: empty bytes
   * (falsy), bytes that are not JSON, JSON that is not an object, or an
   * object whose `id` (None when absent or null) and snapshot fields are given.
   */
  datatype CacheValue =
    | EmptyBytes
    | NotJson
    | NotObject
    | JsonObject(id: Option<int>, userName: Option<string>, email: Option<string>, avatar: Option<string>)

  /** `json.dumps({"id", "user_name", "email", "avatar"})` of a user. */
  function SnapshotOf(u: User): (v: CacheValue)
    ensures v.JsonObject? && v.id == Some(u.id)
    ensures v.userName == Some(u.userName) && v.email == Some(u.email) && v.avatar == u.avatar
  {
    JsonObject(Some(u.id), Some(u.userName), Some(u.email), u.avatar)
  }

  function CacheKey(userName: string): string
  {
    "user:" + userName
  }

  /** The cache key names the user: different names never share a key. */
  lemma CacheKeyInjective(a: string, b: string)
    ensures CacheKey(a) == CacheKey(b) ==> a == b
  {
    if CacheKey(a) == CacheKey(b) {
      assert a == CacheKey(a)[5..] && b == CacheKey(b)[5..];
    }
  }

  /** A store command as it was issued, whether or not it reached the server. */
  datatype StoreOp = OpGet(key: string) | OpSet(key: string, value: CacheValue) | OpExpire(key: string, seconds: nat)

  datatype StoreFault = ConnectionFault

  /** Which store calls raise during one request. */
  datatype CacheFaults = CacheFaults(onGet: bool, onSet: bool, onExpire: bool)

  /** The Redis client `r`: stored values, remaining TTLs, and the commands sent. */
  class KeyValueStore {
    var values: map<string, CacheValue>
    var ttl: map<string, nat>
    var log: seq<StoreOp>

    ghost predicate Valid()
      reads this
    {
      ttl.Keys <= values.Keys
    }

    constructor ()
      ensures Valid() && values == map[] && ttl == map[] && log == []
    {
      values, ttl, log := map[], map[], [];
    }

    /** GET: the stored value or None; raises when `fail`. */
    method Get(key: string, fail: bool) returns (r: Result<Option<CacheValue>, StoreFault>)
      modifies this
      ensures values == old(values) && ttl == old(ttl) && log == old(log) + [OpGet(key)]
      ensures fail <==> r.Err?
      ensures r.Ok? ==> r.value == if key in values then Some(values[key]) else None
    {
      log := log + [OpGet(key)];
      if fail {
        return Err(ConnectionFault);
      }
      r := Ok(if key in values then Some(values[key]) else None);
    }

    /** SET without options: stores the value and discards any TTL the key had; raises when `fail`. */
    method Set(key: string, v: CacheValue, fail: bool) returns (r: Result<(), StoreFault>)
      requires Valid()
      modifies this
      ensures Valid() && log == old(log) + [OpSet(key, v)]
      ensures fail <==> r.Err?
      ensures r.Ok? ==> values == old(values)[key := v] && ttl == old(ttl) - {key}
      ensures r.Err? ==> values == old(values) && ttl == old(ttl)
    {
      log := log + [OpSet(key, v)];
      if fail {
        return Err(ConnectionFault);
      }
      values := values[key := v];
      ttl := ttl - {key};
      r := Ok(());
    }

    /** EXPIRE: sets the TTL of an existing key (a missing key is left alone); raises when `fail`. */
    method Expire(key: string, seconds: nat, fail: bool) returns (r: Result<bool, StoreFault>)
      requires Valid()
      modifies this
      ensures Valid() && values == old(values) && log == old(log) + [OpExpire(key, seconds)]
      ensures fail <==> r.Err?
      ensures r.Ok? ==> r.value == (key in values)
      ensures r == Ok(true) ==> ttl == old(ttl)[key := seconds]
      ensures r != Ok(true) ==> ttl == old(ttl)
    {
      log := log + [OpExpire(key, seconds)];
      if fail {
        return Err(ConnectionFault);
      }
      if key !in values {
        return Ok(false);
      }
      ttl := ttl[key := seconds];
      r := Ok(true);
    }
  }

  // ---------------------------------------------------------- resolver

  /** What one `get_current_user` call answers, leaves in the store, and sends to it. */
  datatype Resolution = Resolution(outcome: Result<User, Error>, values: map<string, CacheValue>,
                                   ttl: map<string, nat>, ops: seq<StoreOp>)

  /** `cached` after the guarded `r.get`: a raising GET reads as None. */
  function CacheRead(values: map<string, CacheValue>, key: string, getFault: bool): (r: Option<CacheValue>)
    ensures r.Some? <==> !getFault && key in values
    ensures r.Some? ==> r.value == values[key]
  {
    if getFault || key !in values then None else Some(values[key])
  }

  /** `if cached:` is false for None and for empty bytes. */
  predicate IsMiss(cached: Option<CacheValue>)
  {
    cached.None? || cached.value == EmptyBytes
  }

  /**
   * The hit branch: undecodable or non-object data ends in `user = None`;
   * an object without a truthy `id` leaves `user` unbound; otherwise the
   * user is loaded by id, with no fallback to the name.
   */
  function HitOutcome(users: seq<User>, v: CacheValue): (r: Result<User, Error>)
    ensures r.Ok? ==> r.value in users && v.JsonObject? && v.id == Some(r.value.id)
    ensures r == Err(InternalFault(UnboundLocal)) <==> v.JsonObject? && (v.id.None? || v.id == Some(0))
    ensures r.Err? ==> r.error in {CredentialsError(), InternalFault(UnboundLocal)}
  {
    match v
    case EmptyBytes => Err(CredentialsError())
    case NotJson => Err(CredentialsError())
    case NotObject => Err(CredentialsError())
    case JsonObject(id, _, _, _) =>
      if id.None? || id.value == 0 then Err(InternalFault(UnboundLocal))
      else match FindUser(users, ById(id.value))
        case None => Err(CredentialsError())
        case Some(u) => Ok(u)
  }

  /**
   * The miss branch for a found user: SET the snapshot, then EXPIRE it; a
   * raising SET skips the EXPIRE. (For a missing user `safe_data` is unbound,
   * so `json.dumps` raises before any command is sent.)
   */
  function MissWrites(values: map<string, CacheValue>, ttl: map<string, nat>, key: string, u: User,
                      f: CacheFaults): (r: Resolution)
    ensures r.outcome == Ok(u)
    ensures |r.ops| >= 1 && r.ops[0] == OpSet(key, SnapshotOf(u))
    ensures f.onSet ==> r.values == values && r.ttl == ttl && |r.ops| == 1
    ensures !f.onSet ==> r.values == values[key := SnapshotOf(u)] && r.ops[1..] == [OpExpire(key, CacheTtlSeconds)]
    ensures !f.onSet && f.onExpire ==> key !in r.ttl
    ensures !f.onSet && !f.onExpire ==> r.ttl == ttl[key := CacheTtlSeconds]
  {
    var snap := SnapshotOf(u);
    if f.onSet then Resolution(Ok(u), values, ttl, [OpSet(key, snap)])
    else if f.onExpire then Resolution(Ok(u), values[key := snap], ttl - {key}, [OpSet(key, snap), OpExpire(key, CacheTtlSeconds)])
    else Resolution(Ok(u), values[key := snap], ttl[key := CacheTtlSeconds],
                    [OpSet(key, snap), OpExpire(key, CacheTtlSeconds)])
  }

  /** `get_current_user` after the token check, for the subject `name`. */
  function ResolveSubject(users: seq<User>, values: map<string, CacheValue>, ttl: map<string, nat>,
                          name: string, f: CacheFaults): (r: Resolution)
    ensures r.outcome.Ok? ==> r.outcome.value in users
    ensures r.outcome.Err? ==> r.outcome.error in {CredentialsError(), InternalFault(UnboundLocal)}
    ensures |r.ops| >= 1 && r.ops[0] == OpGet(CacheKey(name))
  {
    var key := CacheKey(name);
    var cached := CacheRead(values, key, f.onGet);
    if !IsMiss(cached) then
      Resolution(HitOutcome(users, cached.value), values, ttl, [OpGet(key)])
    else
      match FindUser(users, ByName(name))
      case None => Resolution(Err(CredentialsError()), values, ttl, [OpGet(key)])
      case Some(u) =>
        var w := MissWrites(values, ttl, key, u, f);
        w.(ops := [OpGet(key)] + w.ops)
  }

  /** The whole of `get_current_user(token)` at time `now`. */
  function Resolve(c: TokenCodec, token: string, now: int, users: seq<User>, values: map<string, CacheValue>,
                   ttl: map<string, nat>, f: CacheFaults): (r: Resolution)
    ensures r.ops == [] <==> TokenSubject(c, token, now).Err?
    ensures r.ops == [] ==> r.values == values && r.ttl == ttl && r.outcome == Err(TokenSubject(c, token, now).error)
    ensures r.outcome.Ok? ==> r.outcome.value in users
    ensures r.outcome.Err? ==>
      r.outcome.error in {CredentialsError(), InternalFault(UnboundLocal), InternalFault(KeyError)}
  {
    match TokenSubject(c, token, now)
    case Err(e) => Resolution(Err(e), values, ttl, [])
    case Ok(name) => ResolveSubject(users, values, ttl, name, f)
  }

  /** The miss branch's writes: SET the snapshot and, when the SET went through, EXPIRE it. */
  method WriteBack(store: KeyValueStore, key: string, u: User, f: CacheFaults)
    requires store.Valid()
    modifies store
    ensures store.Valid()
    ensures var w := MissWrites(old(store.values), old(store.ttl), key, u, f);
      store.values == w.values && store.ttl == w.ttl && store.log == old(store.log) + w.ops
  {
    var written := store.Set(key, SnapshotOf(u), f.onSet);
    if written.Ok? {
      var _ := store.Expire(key, CacheTtlSeconds, f.onExpire);
    }
  }

  /**
   * `get_current_user(token)`: check the token, read the cache under
   * "user:<name>", load the user by cached id on a hit or by name on a miss
   * (writing the snapshot back), and fail with the 401 when nothing is found.
   */
  method GetCurrentUser(c: TokenCodec, token: string, now: int, store: KeyValueStore, repo: UserRepository,
                        f: CacheFaults) returns (r: Result<User, Error>)
    requires repo.db.Valid() && store.Valid()
    modifies store
    ensures store.Valid()
    ensures var res := Resolve(c, token, now, repo.db.users, old(store.values), old(store.ttl), f);
      && r == res.outcome && store.values == res.values && store.ttl == res.ttl
      && store.log == old(store.log) + res.ops
  {
    var subject := TokenSubject(c, token, now);
    if subject.Err? {
      return Err(subject.error);
    }
    var name := subject.value;
    var key := CacheKey(name);
    var got := store.Get(key, f.onGet);
    var cached := if got.Err? then None else got.value;
    var bound := false;
    var user: Option<User> := None;
    if !IsMiss(cached) {
      match cached.value
      case JsonObject(id, _, _, _) =>
        if id.Some? && id.value != 0 {
          user := repo.GetUserById(id.value);
          bound := true;
        }
      case _ =>
        bound := true;
    } else {
      user := repo.GetUserByUserName(name);
      bound := true;
      if user.Some? {
        WriteBack(store, key, user.value, f);
      }
    }
    if !bound {
      return Err(InternalFault(UnboundLocal));
    }
    if user.None? {
      return Err(CredentialsError());
    }
    r := Ok(user.value);
  }

  // ------------------------------------------------- resolver properties

  /** A token that does not verify is the 401, and the store is never contacted. */
  lemma BadTokenTouchesNothing(c: TokenCodec, token: string, now: int, users: seq<User>,
                               values: map<string, CacheValue>, ttl: map<string, nat>, f: CacheFaults)
    requires DecodeToken(c, token, now).None? || (c.decode(token).Some? && c.decode(token).value.sub.NullSub?)
    ensures Resolve(c, token, now, users, values, ttl, f) == Resolution(Err(CredentialsError()), values, ttl, [])
  {
  }

  /** A GET that raises is handled exactly like a miss: same answer, same commands after it. */
  lemma GetFaultActsAsMiss(users: seq<User>, values: map<string, CacheValue>, ttl: map<string, nat>,
                           name: string, f: CacheFaults)
    requires f.onGet
    ensures var faulty := ResolveSubject(users, values, ttl, name, f);
      var miss := ResolveSubject(users, values - {CacheKey(name)}, ttl, name, f.(onGet := false));
      faulty.outcome == miss.outcome && faulty.ops == miss.ops
  {
  }

  /** On a hit with a usable id the answer is the stored user with that id; nothing is written. */
  lemma HitLoadsById(users: seq<User>, values: map<string, CacheValue>, ttl: map<string, nat>,
                     name: string, f: CacheFaults)
    requires UniqueUsers(users) && !f.onGet
    requires CacheKey(name) in values && values[CacheKey(name)].JsonObject?
    requires values[CacheKey(name)].id.Some? && values[CacheKey(name)].id.value != 0
    ensures var r := ResolveSubject(users, values, ttl, name, f);
      var id := values[CacheKey(name)].id.value;
      && r.values == values && r.ttl == ttl && r.ops == [OpGet(CacheKey(name))]
      && (forall u :: u in users && u.id == id ==> r.outcome == Ok(u))
      && ((forall u :: u in users ==> u.id != id) ==> r.outcome == Err(CredentialsError()))
  {
    FindUserUnique(users, ById(values[CacheKey(name)].id.value));
  }

  /**
   * On a miss for an existing user the cache afterwards holds that user's
   * snapshot under "user:<name>" with TTL 900; faults on the writes do not
   * change the answer.
   */
  lemma MissPopulatesCache(users: seq<User>, values: map<string, CacheValue>, ttl: map<string, nat>,
                           name: string, f: CacheFaults, u: User)
    requires UniqueUsers(users) && u in users && u.userName == name
    requires IsMiss(CacheRead(values, CacheKey(name), f.onGet))
    ensures var r := ResolveSubject(users, values, ttl, name, f);
      && r.outcome == Ok(u)
      && (!f.onSet && !f.onExpire ==>
            r.values == values[CacheKey(name) := SnapshotOf(u)] && r.ttl == ttl[CacheKey(name) := CacheTtlSeconds])
      && (f.onSet ==> r.values == values && r.ttl == ttl)
  {
    FindUserUnique(users, ByName(name));
  }

  /** A miss for an unknown name is the 401 and writes nothing. */
  lemma MissForUnknownNameWritesNothing(users: seq<User>, values: map<string, CacheValue>, ttl: map<string, nat>,
                                        name: string, f: CacheFaults)
    requires forall u :: u in users ==> u.userName != name
    requires IsMiss(CacheRead(values, CacheKey(name), f.onGet))
    ensures ResolveSubject(users, values, ttl, name, f) ==
      Resolution(Err(CredentialsError()), values, ttl, [OpGet(CacheKey(name))])
  {
  }

  /**
   * A cache hit whose id names no user ends in the 401 even though a user
   * with the token's name exists: there is no fallback to the name lookup.
   */
  lemma StaleHitHasNoFallback()
    ensures var ann := User(1, "ann", "ann@example.com", "h", None, true);
      var values := map[CacheKey("ann") := JsonObject(Some(2), Some("ann"), None, None)];
      ResolveSubject([ann], values, map[], "ann", CacheFaults(false, false, false)).outcome == Err(CredentialsError())
  {
    var ann := User(1, "ann", "ann@example.com", "h", None, true);
    assert FindUser([ann], ById(2)).None?;
  }

  /** A cached object whose id is absent or 0 leaves `user` unbound: an uncaught error, not a 401. */
  lemma FalsyCachedIdIsUnbound(users: seq<User>, values: map<string, CacheValue>, ttl: map<string, nat>,
                               name: string, f: CacheFaults)
    requires !f.onGet && CacheKey(name) in values && values[CacheKey(name)].JsonObject?
    requires values[CacheKey(name)].id.None? || values[CacheKey(name)].id == Some(0)
    ensures ResolveSubject(users, values, ttl, name, f).outcome == Err(InternalFault(UnboundLocal))
  {
  }

  /** Every cache entry is an object whose id is that of the stored user the key names. */
  ghost predicate Coherent(values: map<string, CacheValue>, users: seq<User>)
  {
    forall key :: key in values ==>
      values[key].JsonObject? && values[key].id.Some?
      && exists u :: u in users && u.id == values[key].id.value && key == CacheKey(u.userName)
  }

  /** Over a coherent cache the resolver answers what a cold cache would: the user by name. */
  lemma {:induction false} CoherentCacheIsTransparent(users: seq<User>, values: map<string, CacheValue>,
                                                     ttl: map<string, nat>, name: string, f: CacheFaults)
    requires UniqueUsers(users) && Coherent(values, users)
    requires forall u :: u in users ==> u.id != 0
    ensures ResolveSubject(users, values, ttl, name, f).outcome ==
      match FindUser(users, ByName(name))
      case None => Err(CredentialsError())
      case Some(u) => Ok(u)
  {
    var key := CacheKey(name);
    var cached := CacheRead(values, key, f.onGet);
    if !IsMiss(cached) {
      var v := values[key];
      var u :| u in users && u.id == v.id.value && key == CacheKey(u.userName);
      CacheKeyInjective(u.userName, name);
      FindUserUnique(users, ById(u.id));
      FindUserUnique(users, ByName(name));
    }
  }

  /** Resolving keeps a coherent cache coherent. */
  lemma {:induction false} ResolveKeepsCoherent(users: seq<User>, values: map<string, CacheValue>,
                                               ttl: map<string, nat>, name: string, f: CacheFaults)
    requires Coherent(values, users)
    ensures Coherent(ResolveSubject(users, values, ttl, name, f).values, users)
  {
    var key := CacheKey(name);
    var after := ResolveSubject(users, values, ttl, name, f).values;
    if after != values {
      var u := FindUser(users, ByName(name)).value;
      assert after == values[key := SnapshotOf(u)];
      forall k | k in after
        ensures after[k].JsonObject? && after[k].id.Some?
        ensures exists w :: w in users && w.id == after[k].id.value && k == CacheKey(w.userName)
      {
        if k == key {
          assert u in users && u.id == after[k].id.value && k == CacheKey(u.userName);
        }
      }
    }
  }

  /** Confirming an email or changing an avatar keeps a coherent cache coherent: ids and names stay put. */
  lemma {:induction false} UserUpdatesKeepCoherent(users: seq<User>, values: map<string, CacheValue>,
                                                  email: string, url: string)
    requires Coherent(values, users)
    ensures Coherent(values, Confirmed(users, email)) && Coherent(values, WithAvatar(users, email, url))
  {
    var c, a := Confirmed(users, email), WithAvatar(users, email, url);
    forall key | key in values
      ensures exists w :: w in c && w.id == values[key].id.value && key == CacheKey(w.userName)
      ensures exists w :: w in a && w.id == values[key].id.value && key == CacheKey(w.userName)
    {
      var u :| u in users && u.id == values[key].id.value && key == CacheKey(u.userName);
      var i :| 0 <= i < |users| && users[i] == u;
      assert c[i] in c && c[i].id == u.id && c[i].userName == u.userName;
      assert a[i] in a && a[i].id == u.id && a[i].userName == u.userName;
    }
  }

  /** Adding a user keeps a coherent cache coherent. */
  lemma {:induction false} NewUserKeepsCoherent(users: seq<User>, values: map<string, CacheValue>, u: User)
    requires Coherent(values, users)
    ensures Coherent(values, users + [u])
  {
    forall key | key in values
      ensures exists w :: w in users + [u] && w.id == values[key].id.value && key == CacheKey(w.userName)
    {
      var w :| w in users && w.id == values[key].id.value && key == CacheKey(w.userName);
      assert w in users + [u];
    }
  }
}
