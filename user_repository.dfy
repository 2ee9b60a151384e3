/**
 * The user repository: lookups by id, user name and email, insertion of a
 * new user, and the two in-place updates (email confirmation, avatar URL).
 */
module UserRepo {
  import opened Wrappers
  import opened Errors
  import opened Models
  import opened Schemas

  /** The row `create_user` inserts: the body's password goes in as given, unconfirmed. */
  function NewUser(id: int, body: UserCreate, avatar: Option<string>): (u: User)
    ensures u.id == id && u.userName == body.userName && u.email == body.userEmail
    ensures u.hashedPassword == body.password && u.avatar == avatar && !u.confirmed
  {
    User(id, body.userName, body.userEmail, body.password, avatar, false)
  }

  /** What the INSERT of `create_user` does to `users`: the new row, or the violated index. */
  function CreateUserOutcome(users: seq<User>, nextId: int, body: UserCreate, avatar: Option<string>)
    : (r: Result<User, IntegrityError>)
    ensures r.Ok? <==> forall u :: u in users ==> u.userName != body.userName && u.email != body.userEmail
    ensures r.Ok? ==> r.value == NewUser(nextId, body, avatar)
  {
    if FindUser(users, ByName(body.userName)).Some? then Err(UniqueViolation("users_user_name_key"))
    else if FindUser(users, ByEmail(body.userEmail)).Some? then Err(UniqueViolation("users_user_email_key"))
    else Ok(NewUser(nextId, body, avatar))
  }

  /** The user table after `confirmed_user_email(email)`. */
  function Confirmed(users: seq<User>, email: string): (r: seq<User>)
    ensures |r| == |users|
    ensures forall i :: 0 <= i < |users| ==>
      r[i] == if users[i].email == email then users[i].(confirmed := true) else users[i]
  {
    seq(|users|, i requires 0 <= i < |users| =>
      if users[i].email == email then users[i].(confirmed := true) else users[i])
  }

  /** The user table after `update_avatar_url(email, url)`. */
  function WithAvatar(users: seq<User>, email: string, url: string): (r: seq<User>)
    ensures |r| == |users|
    ensures forall i :: 0 <= i < |users| ==>
      r[i] == if users[i].email == email then users[i].(avatar := Some(url)) else users[i]
  {
    seq(|users|, i requires 0 <= i < |users| =>
      if users[i].email == email then users[i].(avatar := Some(url)) else users[i])
  }

  /** Confirming is idempotent: a second confirmation changes nothing. */
  lemma {:induction false} ConfirmIdempotent(users: seq<User>, email: string)
    ensures Confirmed(Confirmed(users, email), email) == Confirmed(users, email)
  {
    var once := Confirmed(users, email);
    forall i | 0 <= i < |users|
      ensures Confirmed(once, email)[i] == once[i]
    {
      assert once[i].email == users[i].email;
    }
  }

  /** Confirming an email sets `confirmed` on that user and leaves every other field and user alone. */
  lemma ConfirmOnlyTouchesConfirmed(users: seq<User>, email: string, k: nat)
    requires k < |users|
    ensures var c := Confirmed(users, email)[k];
      c.id == users[k].id && c.userName == users[k].userName && c.email == users[k].email
      && c.hashedPassword == users[k].hashedPassword && c.avatar == users[k].avatar
      && c.confirmed == (users[k].confirmed || users[k].email == email)
  {
  }

  lemma {:induction false} UpdatesKeepKeys(users: seq<User>, email: string, url: string, next: int)
    requires UniqueUsers(users)
    ensures UniqueUsers(Confirmed(users, email)) && UniqueUsers(WithAvatar(users, email, url))
    ensures (forall i :: 0 <= i < |users| ==> 1 <= users[i].id < next) ==>
      && (forall i :: 0 <= i < |users| ==> 1 <= Confirmed(users, email)[i].id < next)
      && (forall i :: 0 <= i < |users| ==> 1 <= WithAvatar(users, email, url)[i].id < next)
  {
    var c, a := Confirmed(users, email), WithAvatar(users, email, url);
    forall i, j | 0 <= i < |users| && 0 <= j < |users| && i != j
      ensures c[i].id != c[j].id && c[i].userName != c[j].userName && c[i].email != c[j].email
      ensures a[i].id != a[j].id && a[i].userName != a[j].userName && a[i].email != a[j].email
    {
      assert c[i].id == users[i].id && c[i].userName == users[i].userName && c[i].email == users[i].email;
      assert c[j].id == users[j].id && c[j].userName == users[j].userName && c[j].email == users[j].email;
      assert a[i].id == users[i].id && a[i].userName == users[i].userName && a[i].email == users[i].email;
      assert a[j].id == users[j].id && a[j].userName == users[j].userName && a[j].email == users[j].email;
    }
  }

  class UserRepository {
    const db: Session

    constructor (session: Session)
      ensures db == session
    {
      db := session;
    }

    /** `get_user_by_id`: the unique user with that id, or None. */
    function GetUserById(userId: int): (r: Option<User>)
      reads db
      requires db.Valid()
      ensures r.Some? ==> r.value in db.users && r.value.id == userId
      ensures r.None? <==> forall u :: u in db.users ==> u.id != userId
      ensures forall u :: u in db.users && u.id == userId ==> r == Some(u)
    {
      FindUserUnique(db.users, ById(userId));
      FindUser(db.users, ById(userId))
    }

    /** `get_user_by_user_name`: the unique user with that name, or None. */
    function GetUserByUserName(userName: string): (r: Option<User>)
      reads db
      requires db.Valid()
      ensures r.Some? ==> r.value in db.users && r.value.userName == userName
      ensures r.None? <==> forall u :: u in db.users ==> u.userName != userName
      ensures forall u :: u in db.users && u.userName == userName ==> r == Some(u)
    {
      FindUserUnique(db.users, ByName(userName));
      FindUser(db.users, ByName(userName))
    }

    /** `get_user_by_user_email`: the unique user with that email, or None. */
    function GetUserByUserEmail(email: string): (r: Option<User>)
      reads db
      requires db.Valid()
      ensures r.Some? ==> r.value in db.users && r.value.email == email
      ensures r.None? <==> forall u :: u in db.users ==> u.email != email
      ensures forall u :: u in db.users && u.email == email ==> r == Some(u)
    {
      FindUserUnique(db.users, ByEmail(email));
      FindUser(db.users, ByEmail(email))
    }

    /**
     * `create_user(body, avatar)`: inserts `body.password` as the hashed
     * password (the caller hashes it first) and commits. The id serial
     * advances even when a unique index rejects the row.
     */
    method CreateUser(body: UserCreate, avatar: Option<string>) returns (r: Result<User, IntegrityError>)
      requires db.Valid() && !db.needsRollback
      modifies db
      ensures db.Valid()
      ensures r == CreateUserOutcome(old(db.users), old(db.nextUserId), body, avatar)
      ensures db.nextUserId == old(db.nextUserId) + 1
      ensures db.contacts == old(db.contacts) && db.nextContactId == old(db.nextContactId)
      ensures db.rollbacks == old(db.rollbacks)
      ensures r.Ok? ==> db.users == old(db.users) + [r.value] && db.commits == old(db.commits) + 1
                        && !db.needsRollback
      ensures r.Err? ==> db.users == old(db.users) && db.commits == old(db.commits) && db.needsRollback
    {
      var id := db.nextUserId;
      db.nextUserId := db.nextUserId + 1;
      r := CreateUserOutcome(db.users, id, body, avatar);
      if r.Ok? {
        db.users := db.users + [r.value];
        db.commits := db.commits + 1;
      } else {
        db.needsRollback := true;
      }
    }

    /**
     * `confirmed_user_email(email)`: sets `confirmed` on the user with that
     * email and commits. An unknown email is an attribute access on None.
     */
    method ConfirmedUserEmail(email: string) returns (r: Result<(), Fault>)
      requires db.Valid() && !db.needsRollback
      modifies db
      ensures db.Valid() && !db.needsRollback
      ensures r.Err? <==> old(GetUserByUserEmail(email)).None?
      ensures r.Err? ==> r.error == NoneAttribute && db.users == old(db.users) && db.commits == old(db.commits)
      ensures r.Ok? ==> db.users == Confirmed(old(db.users), email) && db.commits == old(db.commits) + 1
      ensures db.contacts == old(db.contacts) && db.rollbacks == old(db.rollbacks)
      ensures db.nextUserId == old(db.nextUserId) && db.nextContactId == old(db.nextContactId)
    {
      if GetUserByUserEmail(email).None? {
        return Err(NoneAttribute);
      }
      UpdatesKeepKeys(db.users, email, "", db.nextUserId);
      db.users := Confirmed(db.users, email);
      db.commits := db.commits + 1;
      r := Ok(());
    }

    /**
     * `update_avatar_url(email, url)`: sets `avatar` on the user with that
     * email, commits, and returns that user. An unknown email is an
     * attribute access on None.
     */
    method UpdateAvatarUrl(email: string, url: string) returns (r: Result<User, Fault>)
      requires db.Valid() && !db.needsRollback
      modifies db
      ensures db.Valid() && !db.needsRollback
      ensures r.Err? <==> old(GetUserByUserEmail(email)).None?
      ensures r.Err? ==> r.error == NoneAttribute && db.users == old(db.users) && db.commits == old(db.commits)
      ensures r.Ok? ==> r.value == old(GetUserByUserEmail(email)).value.(avatar := Some(url))
      ensures r.Ok? ==> db.users == WithAvatar(old(db.users), email, url) && db.commits == old(db.commits) + 1
      ensures db.contacts == old(db.contacts) && db.rollbacks == old(db.rollbacks)
      ensures db.nextUserId == old(db.nextUserId) && db.nextContactId == old(db.nextContactId)
    {
      var found := GetUserByUserEmail(email);
      if found.None? {
        return Err(NoneAttribute);
      }
      UpdatesKeepKeys(db.users, email, url, db.nextUserId);
      db.users := WithAvatar(db.users, email, url);
      db.commits := db.commits + 1;
      r := Ok(found.value.(avatar := Some(url)));
    }
  }
}
