/**
 * The authentication endpoints: registration, the OAuth2 password login,
 * email confirmation by token, and the request to re-send the confirmation
 * email. Outgoing mail is a queue of background tasks.
 */
module AuthApi {
  import opened Wrappers
  import opened Errors
  import opened Models
  import opened Schemas
  import opened UserRepo
  import opened AuthService

  /** `send_email(user_email, user_name, base_url)` queued for after the response. */
  datatype EmailTask = ConfirmationEmail(to: string, userName: string)

  /** FastAPI's `BackgroundTasks` of one request. */
  class BackgroundTasks {
    var tasks: seq<EmailTask>

    constructor ()
      ensures tasks == []
    {
      tasks := [];
    }

    method AddTask(t: EmailTask)
      modifies this
      ensures tasks == old(tasks) + [t]
    {
      tasks := tasks + [t];
    }
  }

  /** The `{"access_token", "token_type"}` body of a successful login. */
  datatype TokenResponse = TokenResponse(accessToken: string, tokenType: string)

  const AlreadyConfirmed: string := "Your email has already been confirmed."

  // ------------------------------------------------------------ register

  /** The two uniqueness checks of `register_user`, email first. */
  function RegisterCheck(users: seq<User>, body: UserCreate): (r: Option<Error>)
    ensures r.None? <==> forall u :: u in users ==> u.email != body.userEmail && u.userName != body.userName
    ensures (exists u :: u in users && u.email == body.userEmail) ==>
      r == Some(Http(409, "User with such email already exists"))
    ensures (forall u :: u in users ==> u.email != body.userEmail) && (exists u :: u in users && u.userName == body.userName) ==>
      r == Some(Http(409, "User with this name already exists"))
  {
    if FindUser(users, ByEmail(body.userEmail)).Some? then Some(Http(409, "User with such email already exists"))
    else if FindUser(users, ByName(body.userName)).Some? then Some(Http(409, "User with this name already exists"))
    else None
  }

  /**
   * `register_user(user_data)`: reject a taken email, then a taken name;
   * otherwise hash the password, insert the user (with the avatar the
   * Gravatar lookup gave) and queue one confirmation email.
   */
  method RegisterUser(body: UserCreate, h: Hasher, avatar: Option<string>, repo: UserRepository,
                      background: BackgroundTasks) returns (r: Result<User, Error>)
    requires repo.db.Valid() && !repo.db.needsRollback
    modifies repo.db, background
    ensures repo.db.Valid() && !repo.db.needsRollback
    ensures r.Err? <==> RegisterCheck(old(repo.db.users), body).Some?
    ensures r.Err? ==>
      && r.error == RegisterCheck(old(repo.db.users), body).value
      && repo.db.users == old(repo.db.users) && repo.db.nextUserId == old(repo.db.nextUserId)
      && background.tasks == old(background.tasks)
    ensures r.Ok? ==> repo.db.nextUserId == old(repo.db.nextUserId) + 1
    ensures repo.db.commits == old(repo.db.commits) + (if r.Ok? then 1 else 0)
    ensures repo.db.rollbacks == old(repo.db.rollbacks) && repo.db.nextContactId == old(repo.db.nextContactId)
    ensures r.Ok? ==>
      && r.value == NewUser(old(repo.db.nextUserId), body.(password := h.hash(body.password)), avatar)
      && repo.db.users == old(repo.db.users) + [r.value]
      && background.tasks == old(background.tasks) + [ConfirmationEmail(body.userEmail, body.userName)]
    ensures r.Ok? ==> r.value.hashedPassword == h.hash(body.password) && !r.value.confirmed
    ensures repo.db.contacts == old(repo.db.contacts)
  {
    var clash := RegisterCheck(repo.db.users, body);
    if clash.Some? {
      return Err(clash.value);
    }
    var hashed := body.(password := h.hash(body.password));
    var created := repo.CreateUser(hashed, avatar);
    assert created.Ok?;
    background.AddTask(ConfirmationEmail(created.value.email, created.value.userName));
    r := Ok(created.value);
  }

  // --------------------------------------------------------------- login

  /** The login failure shared by an unknown name and a wrong password. */
  function BadLogin(): (e: Error)
    ensures e.HttpError? && e.status == 401 && e.headers == map["WWW-Authenticate" := "Bearer"]
    ensures e.detail == "Incorrect login or password"
  {
    HttpError(401, "Incorrect login or password", map["WWW-Authenticate" := "Bearer"])
  }

  /**
   * `login_user(form)`: the password grant of section 4.3 of RFC 6749. An
   * unknown name and a wrong password fail alike; the confirmation check
   * comes only after the credentials pass.
   */
  function LoginUser(users: seq<User>, h: Hasher, c: TokenCodec, userName: string, password: string, now: int)
    : (r: Result<TokenResponse, Error>)
    requires UniqueUsers(users)
    ensures r == Err(BadLogin()) <==>
      forall u :: u in users && u.userName == userName ==> !h.verify(password, u.hashedPassword)
    ensures r == Err(Http(401, "Email address not confirmed")) <==>
      exists u :: u in users && u.userName == userName && h.verify(password, u.hashedPassword) && !u.confirmed
    ensures r.Ok? <==>
      exists u :: u in users && u.userName == userName && h.verify(password, u.hashedPassword) && u.confirmed
    ensures r.Ok? ==> r.value.tokenType == "bearer"
  {
    FindUserUnique(users, ByName(userName));
    match FindUser(users, ByName(userName))
    case None => Err(BadLogin())
    case Some(u) =>
      if !h.verify(password, u.hashedPassword) then Err(BadLogin())
      else if !u.confirmed then Err(Http(401, "Email address not confirmed"))
      else Ok(TokenResponse(CreateAccessToken(c, Claims(Sub(u.userName), None, None), None, now), "bearer"))
  }

  /** A login token names the user in `sub` and stays valid for the default lifetime. */
  lemma {:induction false} LoginTokenNamesUser(users: seq<User>, h: Hasher, c: TokenCodec, userName: string,
                                              password: string, issued: int, now: int)
    requires UniqueUsers(users) && SoundCodec(c)
    requires LoginUser(users, h, c, userName, password, issued).Ok?
    requires issued <= now <= issued + JwtExpirationSeconds
    ensures TokenSubject(c, LoginUser(users, h, c, userName, password, issued).value.accessToken, now) == Ok(userName)
  {
    FindUserUnique(users, ByName(userName));
    var u := FindUser(users, ByName(userName)).value;
    AccessTokenLifetime(c, Claims(Sub(u.userName), None, None), None, issued, now);
  }

  /**
   * Within its lifetime a login token resolves, through a coherent cache, to
   * the very user who logged in.
   */
  lemma {:induction false} LoginThenResolve(users: seq<User>, h: Hasher, c: TokenCodec, userName: string,
                                           password: string, issued: int, now: int,
                                           values: map<string, CacheValue>, ttl: map<string, nat>, f: CacheFaults)
    requires UniqueUsers(users) && SoundCodec(c) && Coherent(values, users)
    requires forall u :: u in users ==> u.id != 0
    requires LoginUser(users, h, c, userName, password, issued).Ok?
    requires issued <= now <= issued + JwtExpirationSeconds
    ensures var token := LoginUser(users, h, c, userName, password, issued).value.accessToken;
      var outcome := Resolve(c, token, now, users, values, ttl, f).outcome;
      outcome.Ok? && outcome.value in users && outcome.value.userName == userName
      && h.verify(password, outcome.value.hashedPassword) && outcome.value.confirmed
  {
    LoginTokenNamesUser(users, h, c, userName, password, issued, now);
    CoherentCacheIsTransparent(users, values, ttl, userName, f);
    FindUserUnique(users, ByName(userName));
  }

  // -------------------------------------------------------- confirmation

  /**
   * `confirmed_email(token)`: a bad token is the error of
   * `get_email_from_token`; an unknown email is 400 "Verification error";
   * a confirmed user is told so and nothing changes; otherwise the user
   * becomes confirmed.
   */
  method ConfirmedEmail(c: TokenCodec, token: string, now: int, repo: UserRepository) returns (r: Result<string, Error>)
    requires repo.db.Valid() && !repo.db.needsRollback
    modifies repo.db
    ensures repo.db.Valid() && !repo.db.needsRollback
    ensures GetEmailFromToken(c, token, now).Err? ==> r == Err(GetEmailFromToken(c, token, now).error)
    ensures r == Ok("Email confirmed") <==>
      var e := GetEmailFromToken(c, token, now);
      e.Ok? && exists u :: u in old(repo.db.users) && u.email == e.value && !u.confirmed
    ensures r == Ok("Email confirmed") ==>
      repo.db.users == Confirmed(old(repo.db.users), GetEmailFromToken(c, token, now).value)
    ensures r != Ok("Email confirmed") ==> repo.db.users == old(repo.db.users)
    ensures r.Err? && GetEmailFromToken(c, token, now).Ok? ==> r.error == Http(400, "Verification error")
    ensures r == Ok(AlreadyConfirmed) <==>
      var e := GetEmailFromToken(c, token, now);
      e.Ok? && exists u :: u in old(repo.db.users) && u.email == e.value && u.confirmed
    ensures r == Err(Http(400, "Verification error")) <==>
      var e := GetEmailFromToken(c, token, now);
      e.Ok? && forall u :: u in old(repo.db.users) ==> u.email != e.value
    ensures r.Ok? ==> r.value in {"Email confirmed", AlreadyConfirmed}
    ensures r.Ok? ==>
      var address := GetEmailFromToken(c, token, now).value;
      forall u :: u in repo.db.users && u.email == address ==> u.confirmed
    ensures repo.db.commits == old(repo.db.commits) + (if r == Ok("Email confirmed") then 1 else 0)
    ensures repo.db.rollbacks == old(repo.db.rollbacks)
    ensures repo.db.nextUserId == old(repo.db.nextUserId) && repo.db.nextContactId == old(repo.db.nextContactId)
    ensures repo.db.contacts == old(repo.db.contacts)
  {
    var email := GetEmailFromToken(c, token, now);
    if email.Err? {
      return Err(email.error);
    }
    var address := email.value;
    var user := repo.GetUserByUserEmail(address);
    if user.None? {
      return Err(Http(400, "Verification error"));
    }
    if user.value.confirmed {
      return Ok(AlreadyConfirmed);
    }
    var done := repo.ConfirmedUserEmail(address);
    ConfirmationIsWriteOnce(old(repo.db.users), address);
    r := Ok("Email confirmed");
  }

  /**
   * After a confirmation every user with that address is confirmed, and
   * confirming the same address again changes nothing.
   */
  lemma {:induction false} ConfirmationIsWriteOnce(users: seq<User>, email: string)
    requires UniqueUsers(users)
    ensures forall u :: u in Confirmed(users, email) && u.email == email ==> u.confirmed
    ensures Confirmed(Confirmed(users, email), email) == Confirmed(users, email)
  {
    ConfirmIdempotent(users, email);
    var c := Confirmed(users, email);
    forall u | u in c && u.email == email ensures u.confirmed {
      var i :| 0 <= i < |c| && c[i] == u;
      assert c[i] == (if users[i].email == email then users[i].(confirmed := true) else users[i]);
    }
  }

  /**
   * `request_email(body)`: `user.confirmed` is read before the None check,
   * so an unknown email is an uncaught attribute error; a confirmed user is
   * told so; otherwise one confirmation email is queued.
   */
  method RequestEmail(email: string, repo: UserRepository, background: BackgroundTasks) returns (r: Result<string, Error>)
    requires repo.db.Valid()
    modifies background
    ensures r == Err(InternalFault(NoneAttribute)) <==> forall u :: u in repo.db.users ==> u.email != email
    ensures r == Ok(AlreadyConfirmed) <==> exists u :: u in repo.db.users && u.email == email && u.confirmed
    ensures r == Ok("Check your email for confirmation.") <==>
      exists u :: u in repo.db.users && u.email == email && !u.confirmed
    ensures r == Ok("Check your email for confirmation.") ==>
      var u := repo.GetUserByUserEmail(email).value;
      background.tasks == old(background.tasks) + [ConfirmationEmail(u.email, u.userName)]
    ensures r != Ok("Check your email for confirmation.") ==> background.tasks == old(background.tasks)
  {
    var user := repo.GetUserByUserEmail(email);
    if user.None? {
      return Err(InternalFault(NoneAttribute));
    }
    if user.value.confirmed {
      return Ok(AlreadyConfirmed);
    }
    background.AddTask(ConfirmationEmail(user.value.email, user.value.userName));
    r := Ok("Check your email for confirmation.");
  }

  /**
   * A freshly registered user cannot log in until the email is confirmed,
   * and can log in with the registered password afterwards.
   */
  lemma {:induction false} RegisterConfirmLogin(users: seq<User>, id: int, body: UserCreate, h: Hasher,
                                               avatar: Option<string>, c: TokenCodec, now: int)
    requires SoundHasher(h) && UniqueUsers(users) && RegisterCheck(users, body).None?
    requires forall u :: u in users ==> u.id != id
    ensures var joined := NewUser(id, body.(password := h.hash(body.password)), avatar);
      && UniqueUsers(users + [joined])
      && LoginUser(users + [joined], h, c, body.userName, body.password, now) == Err(Http(401, "Email address not confirmed"))
      && UniqueUsers(Confirmed(users + [joined], body.userEmail))
      && LoginUser(Confirmed(users + [joined], body.userEmail), h, c, body.userName, body.password, now).Ok?
  {
    var joined := NewUser(id, body.(password := h.hash(body.password)), avatar);
    var all := users + [joined];
    assert h.verify(body.password, joined.hashedPassword);
    forall i, j | 0 <= i < |all| && 0 <= j < |all| && i != j
      ensures all[i].id != all[j].id && all[i].userName != all[j].userName && all[i].email != all[j].email
    {
      if i < |users| { assert all[i] in users; }
      if j < |users| { assert all[j] in users; }
    }
    assert joined in all && !joined.confirmed;
    FindUserUnique(all, ByName(body.userName));
    var confirmed := Confirmed(all, body.userEmail);
    var k := |users|;
    assert all[k] == joined;
    assert confirmed[k] == joined.(confirmed := true);
    UpdatesKeepKeys(all, body.userEmail, "", 0);
    assert confirmed[k] in confirmed;
  }
}
