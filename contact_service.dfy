/**
 * The contact service: forwards to the contact repository and turns a
 * database IntegrityError into an HTTP error after rolling the session back.
 */
module ContactServices {
  import opened Wrappers
  import opened Strings
  import opened Errors
  import opened Models
  import opened Schemas
  import opened ContactRepo

  /** `_handle_integrity_error`: 409 when the message names the contact email index, 400 otherwise. */
  function HandleIntegrityError(e: IntegrityError): (r: Error)
    ensures r.HttpError? && r.headers == map[]
    ensures r.status == 409 <==> Contains(e.orig, "contacts_email_key")
    ensures r.status == 409 || r.status == 400
    ensures r.status == 409 ==> r.detail == "A contact with this email already exists."
    ensures r.status == 400 ==> r.detail == "Data integrity error."
  {
    if Contains(e.orig, "contacts_email_key") then Http(409, "A contact with this email already exists.")
    else Http(400, "Data integrity error.")
  }

  /** The service's answer for a repository outcome. */
  function Translate<T>(r: Result<T, IntegrityError>): (s: Result<T, Error>)
    ensures s.Ok? <==> r.Ok?
    ensures r.Ok? ==> s.value == r.value
    ensures r.Err? ==> s.error == HandleIntegrityError(r.error)
  {
    match r
    case Ok(v) => Ok(v)
    case Err(e) => Err(HandleIntegrityError(e))
  }

  /** The integrity errors a write to `contacts` can raise: its two unique indexes and its five NOT NULL columns. */
  predicate ContactWriteError(e: IntegrityError)
  {
    || e == UniqueViolation("contacts_pkey")
    || e == UniqueViolation("contacts_email_key")
    || e == NotNullViolation("contacts", "name")
    || e == NotNullViolation("contacts", "surname")
    || e == NotNullViolation("contacts", "email")
    || e == NotNullViolation("contacts", "phone")
    || e == NotNullViolation("contacts", "birth_date")
  }

  lemma CreateErrorsAreContactWriteErrors(rows: seq<Contact>, nextId: int, body: ContactCreate, userId: int)
    ensures CreateOutcome(rows, nextId, body, userId).Err? ==>
      ContactWriteError(CreateOutcome(rows, nextId, body, userId).error)
  {
  }

  lemma UpdateErrorsAreContactWriteErrors(rows: seq<Contact>, contactId: int, userId: int, items: seq<Assignment>)
    ensures UpdateOutcome(rows, contactId, userId, items).Err? ==>
      ContactWriteError(UpdateOutcome(rows, contactId, userId, items).error)
  {
  }

  /** Helper for UniqueHeadLacksM: each word of the unique-violation text lacks 'm'. */
  lemma UniqueHeadWordsLackM()
    ensures 'm' !in "duplicate " && 'm' !in "key value " && 'm' !in "violates "
    ensures 'm' !in "unique " && 'm' !in "constraint \""
  {
  }

  /** Helper for PkeyMessageOmitsEmailIndex: the fixed head of a unique-violation message has no 'm'. */
  lemma UniqueHeadLacksM()
    ensures 'm' !in "duplicate key value violates unique constraint \""
  {
    UniqueHeadWordsLackM();
    var head := "duplicate " + "key value " + "violates " + "unique " + "constraint \"";
    assert 'm' !in head;
    assert head == "duplicate key value violates unique constraint \"";
  }

  lemma PkeyMessageOmitsEmailIndex()
    ensures !Contains(UniqueViolation("contacts_pkey").orig, "contacts_email_key")
  {
    var head := "duplicate key value violates unique constraint \"";
    var msg := head + "contacts_pkey" + "\"";
    assert msg == UniqueViolation("contacts_pkey").orig;
    UniqueHeadLacksM();
    assert 'm' !in "contacts_pkey";
    assert 'm' !in msg;
    assert 'm' in "contacts_email_key";
    MissingCharNotContained(msg, "contacts_email_key", 'm');
  }

  /** Helper for NotNullMessageOmitsEmailIndex: the tail of a not-null message has no 'k' besides the relation's. */
  lemma NotNullTailLacksK(relation: string)
    requires 'k' !in relation
    ensures 'k' !in "\" of relation \"" + relation + "\" violates not-null constraint"
  {
    assert 'k' !in "\" of relation \"";
    assert "\" violates not-null constraint" == "\" violates " + "not-null " + "constraint";
    assert 'k' !in "\" violates " && 'k' !in "not-null " && 'k' !in "constraint";
  }

  lemma NotNullMessageOmitsEmailIndex(column: string)
    requires 'k' !in column
    ensures !Contains(NotNullViolation("contacts", column).orig, "contacts_email_key")
  {
    var msg := NotNullViolation("contacts", column).orig;
    assert 'k' !in "contacts";
    NotNullTailLacksK("contacts");
    assert 'k' !in "null value in column \"";
    assert 'k' !in msg;
    assert 'k' in "contacts_email_key";
    MissingCharNotContained(msg, "contacts_email_key", 'k');
  }

  /** Of the errors a contact write raises, exactly the email-index violation becomes 409; the rest become 400. */
  lemma {:induction false} ConflictOnlyForDuplicateEmail(e: IntegrityError)
    requires ContactWriteError(e)
    ensures HandleIntegrityError(e).status == 409 <==> e == UniqueViolation("contacts_email_key")
  {
    if e == UniqueViolation("contacts_email_key") {
    } else if e == UniqueViolation("contacts_pkey") {
      PkeyMessageOmitsEmailIndex();
    } else if e == NotNullViolation("contacts", "name") {
      NotNullMessageOmitsEmailIndex("name");
    } else if e == NotNullViolation("contacts", "surname") {
      NotNullMessageOmitsEmailIndex("surname");
    } else if e == NotNullViolation("contacts", "email") {
      NotNullMessageOmitsEmailIndex("email");
    } else if e == NotNullViolation("contacts", "phone") {
      NotNullMessageOmitsEmailIndex("phone");
    } else {
      NotNullMessageOmitsEmailIndex("birth_date");
    }
  }

  /** Creating a contact answers 409 exactly when the email is taken and the next serial id is free. */
  lemma CreateConflictIffEmailTaken(rows: seq<Contact>, nextId: int, body: ContactCreate, userId: int)
    ensures var s := Translate(CreateOutcome(rows, nextId, body, userId));
      s.Err? && s.error.status == 409 <==>
        (forall c :: c in rows ==> c.id != nextId) && exists c :: c in rows && c.email == body.email
  {
    var r := CreateOutcome(rows, nextId, body, userId);
    if r.Err? {
      CreateErrorsAreContactWriteErrors(rows, nextId, body, userId);
      ConflictOnlyForDuplicateEmail(r.error);
    }
  }

  class ContactService {
    const repository: ContactRepository

    constructor (db: Session)
      ensures repository.db == db
    {
      repository := new ContactRepository(db);
    }

    /** The session is consistent and usable: no failed transaction waits for a rollback. */
    ghost predicate Ready()
      reads this, repository, repository.db
    {
      repository.db.Valid() && !repository.db.needsRollback
    }

    /** `create_contact`: on an IntegrityError, roll back once and answer with the translated error. */
    method CreateContact(body: ContactCreate, user: User) returns (r: Result<Contact, Error>)
      requires Ready()
      modifies repository.db
      ensures Ready()
      ensures r == Translate(CreateOutcome(old(repository.db.contacts), old(repository.db.nextContactId), body, user.id))
      ensures repository.db.rollbacks == old(repository.db.rollbacks) + (if r.Err? then 1 else 0)
      ensures r.Ok? ==> repository.db.contacts == old(repository.db.contacts) + [r.value]
      ensures r.Err? ==> repository.db.contacts == old(repository.db.contacts)
      ensures repository.db.commits == old(repository.db.commits) + (if r.Ok? then 1 else 0)
      ensures repository.db.nextContactId == old(repository.db.nextContactId) + 1
      ensures repository.db.users == old(repository.db.users) && repository.db.nextUserId == old(repository.db.nextUserId)
    {
      var db := repository.db;
      var res := repository.CreateContact(body, user);
      if res.Err? {
        db.Rollback();
      }
      r := Translate(res);
    }

    /** `get_contacts(skip, limit, name, surname, email, user)`: the repository takes the owner first. */
    function GetContacts(skip: nat, limit: nat, name: Option<string>, surname: Option<string>,
                         email: Option<string>, user: User): (r: seq<Contact>)
      reads this, repository, repository.db
      ensures r == repository.GetContacts(user, skip, limit, name, surname, email)
      ensures |r| <= limit
      ensures forall c :: c in r ==> c in repository.db.contacts && MatchesQuery(c, user.id, name, surname, email)
    {
      repository.GetContacts(user, skip, limit, name, surname, email)
    }

    /** `get_contacts_upcoming_birthdays(user)` */
    function GetContactsUpcomingBirthdays(user: User, w: BirthdayWindow): (r: seq<Contact>)
      reads this, repository, repository.db
      ensures r == repository.GetContactsForBirthdays(user, w)
      ensures forall c :: c in r <==> c in repository.db.contacts && c.userId == user.id && InBirthdayWindow(w, c.birthDate)
    {
      repository.GetContactsForBirthdays(user, w)
    }

    /** `get_contact(contact_id, user)` */
    function GetContact(contactId: int, user: User): (r: Option<Contact>)
      reads this, repository, repository.db
      ensures r == repository.GetContactById(contactId, user)
      ensures r.Some? ==> r.value in repository.db.contacts && r.value.id == contactId && r.value.userId == user.id
      ensures r.None? <==> forall c :: c in repository.db.contacts ==> !(c.id == contactId && c.userId == user.id)
    {
      repository.GetContactById(contactId, user)
    }

    /** `put_contact`: on an IntegrityError, roll back once and answer with the translated error. */
    method PutContact(contactId: int, body: ContactPut, user: User) returns (r: Result<Option<Contact>, Error>)
      requires Ready()
      modifies repository.db
      ensures Ready()
      ensures r == Translate(UpdateOutcome(old(repository.db.contacts), contactId, user.id, PutItems(body)))
      ensures repository.db.rollbacks == old(repository.db.rollbacks) + (if r.Err? then 1 else 0)
      ensures r.Ok? && r.value.Some? ==>
        (var old_rows := old(repository.db.contacts);
         repository.db.contacts == old_rows[ContactIndex(old_rows, contactId, user.id).value := r.value.value])
      ensures (r.Err? || r == Ok(None)) ==> repository.db.contacts == old(repository.db.contacts)
      ensures repository.db.commits == old(repository.db.commits) + (if r.Ok? && r.value.Some? then 1 else 0)
      ensures repository.db.nextContactId == old(repository.db.nextContactId)
      ensures repository.db.users == old(repository.db.users) && repository.db.nextUserId == old(repository.db.nextUserId)
    {
      var db := repository.db;
      var res := repository.PutContact(contactId, body, user);
      if res.Err? {
        db.Rollback();
      }
      r := Translate(res);
      assert r.Ok? <==> res.Ok?;
      assert r.Ok? ==> r.value == res.value;
    }

    /** `patch_contact`: on an IntegrityError, roll back once and answer with the translated error. */
    method PatchContact(contactId: int, body: ContactPatch, user: User) returns (r: Result<Option<Contact>, Error>)
      requires Ready()
      modifies repository.db
      ensures Ready()
      ensures r == Translate(UpdateOutcome(old(repository.db.contacts), contactId, user.id, PatchItems(body)))
      ensures repository.db.rollbacks == old(repository.db.rollbacks) + (if r.Err? then 1 else 0)
      ensures r.Ok? && r.value.Some? ==>
        (var old_rows := old(repository.db.contacts);
         repository.db.contacts == old_rows[ContactIndex(old_rows, contactId, user.id).value := r.value.value])
      ensures (r.Err? || r == Ok(None)) ==> repository.db.contacts == old(repository.db.contacts)
      ensures repository.db.commits == old(repository.db.commits) + (if r.Ok? && r.value.Some? then 1 else 0)
      ensures repository.db.nextContactId == old(repository.db.nextContactId)
      ensures repository.db.users == old(repository.db.users) && repository.db.nextUserId == old(repository.db.nextUserId)
    {
      var db := repository.db;
      var res := repository.PatchContact(contactId, body, user);
      if res.Err? {
        db.Rollback();
      }
      r := Translate(res);
      assert r.Ok? <==> res.Ok?;
      assert r.Ok? ==> r.value == res.value;
    }

    /** `delete_contact(contact_id, user)` */
    method DeleteContact(contactId: int, user: User) returns (r: Option<Contact>)
      requires Ready()
      modifies repository.db
      ensures Ready()
      ensures r == old(GetContact(contactId, user))
      ensures r.None? ==> repository.db.contacts == old(repository.db.contacts)
      ensures r.Some? ==>
        (var old_rows := old(repository.db.contacts);
         repository.db.contacts == Without(old_rows, ContactIndex(old_rows, contactId, user.id).value))
      ensures r.Some? ==> r.value !in repository.db.contacts
      ensures repository.db.commits == old(repository.db.commits) + (if r.Some? then 1 else 0)
      ensures repository.db.rollbacks == old(repository.db.rollbacks)
      ensures repository.db.nextContactId == old(repository.db.nextContactId)
      ensures repository.db.users == old(repository.db.users) && repository.db.nextUserId == old(repository.db.nextUserId)
    {
      r := repository.DeleteContact(contactId, user);
    }
  }

  /** A PATCH sending null for the name of an existing contact is answered 400, not 409. */
  lemma PatchNullNameIsBadRequest(rows: seq<Contact>, contactId: int, userId: int, p: ContactPatch)
    requires ContactIndex(rows, contactId, userId).Some? && p.name == Null
    ensures Translate(UpdateOutcome(rows, contactId, userId, PatchItems(p))) == Err(Http(400, "Data integrity error."))
  {
    PatchNullNameFails(rows, contactId, userId, p);
    ConflictOnlyForDuplicateEmail(NotNullViolation("contacts", "name"));
  }
}
