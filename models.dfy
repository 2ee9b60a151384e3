/**
 * The two tables of the relational store (users, contacts), their unique
 * and not-null constraints, and the database session that the repositories
 * share: its tables, its serial counters and its transaction state.
 */
module Models {
  import opened Wrappers
  import opened Strings

  datatype Date = Date(year: int, month: int, day: int)

  /** A row of `users`; `avatar` is nullable, `confirmed` defaults to false. */
  datatype User = User(
    id: int,
    userName: string,
    email: string,
    hashedPassword: string,
    avatar: Option<string>,
    confirmed: bool)

  /** A row of `contacts`; only `extra_info` is nullable. */
  datatype Contact = Contact(
    id: int,
    name: string,
    surname: string,
    email: string,
    phone: string,
    birthDate: Date,
    extraInfo: Option<string>,
    userId: int)

  /** The text of a database integrity violation (`str(e.orig)`). */
  datatype IntegrityError = IntegrityError(orig: string)

  /** The message of a unique-index violation; it names the violated index. */
  function UniqueViolation(constraint: string): (e: IntegrityError)
    ensures Contains(e.orig, constraint)
  {
    var head := "duplicate key value violates unique constraint \"";
    ContainsInfix(head, constraint, "\"");
    IntegrityError(head + constraint + "\"")
  }

  /** The message of a not-null violation; it names the column that was null. */
  function NotNullViolation(relation: string, column: string): (e: IntegrityError)
    ensures Contains(e.orig, column)
  {
    var head := "null value in column \"";
    var tail := "\" of relation \"" + relation + "\" violates not-null constraint";
    ContainsInfix(head, column, tail);
    IntegrityError(head + column + tail)
  }

  // ---------------------------------------------------------------- users

  /** The three single-column lookups of the user repository. */
  datatype UserKey = ById(id: int) | ByName(name: string) | ByEmail(email: string)

  predicate HasKey(u: User, k: UserKey)
  {
    match k
    case ById(i) => u.id == i
    case ByName(n) => u.userName == n
    case ByEmail(e) => u.email == e
  }

  /** Position of the first row with key `k`, if any. */
  function UserIndex(users: seq<User>, k: UserKey): (r: Option<nat>)
    ensures r.Some? ==> r.value < |users| && HasKey(users[r.value], k)
    ensures r.None? <==> forall i :: 0 <= i < |users| ==> !HasKey(users[i], k)
  {
    if users == [] then None
    else if HasKey(users[0], k) then Some(0)
    else match UserIndex(users[1..], k)
      case None => None
      case Some(j) => Some(j + 1)
  }

  /** `select(User).where(<key column> == value)`, then `scalar_one_or_none()`. */
  function FindUser(users: seq<User>, k: UserKey): (r: Option<User>)
    ensures r.Some? ==> r.value in users && HasKey(r.value, k)
    ensures r.None? <==> forall u :: u in users ==> !HasKey(u, k)
  {
    match UserIndex(users, k)
    case None => None
    case Some(i) => Some(users[i])
  }

  /** The primary key and the unique columns `user_name` and `user_email`. */
  ghost predicate UniqueUsers(users: seq<User>)
  {
    forall i, j :: 0 <= i < |users| && 0 <= j < |users| && i != j ==>
      users[i].id != users[j].id && users[i].userName != users[j].userName
      && users[i].email != users[j].email
  }

  /** Under the unique constraints a lookup returns THE matching user. */
  lemma FindUserUnique(users: seq<User>, k: UserKey)
    requires UniqueUsers(users)
    ensures forall u :: u in users && HasKey(u, k) ==> FindUser(users, k) == Some(u)
  {
    forall u | u in users && HasKey(u, k) ensures FindUser(users, k) == Some(u) {
      var w := FindUser(users, k).value;
      var i :| 0 <= i < |users| && users[i] == u;
      var j :| 0 <= j < |users| && users[j] == w;
      assert i == j;
    }
  }

  // ------------------------------------------------------------- contacts

  /** `select(Contact).where(Contact.id == contact_id, Contact.user == user)`. */
  function ContactIndex(rows: seq<Contact>, contactId: int, userId: int): (r: Option<nat>)
    ensures r.Some? ==> r.value < |rows| && rows[r.value].id == contactId && rows[r.value].userId == userId
    ensures r.None? <==> forall i :: 0 <= i < |rows| ==> !(rows[i].id == contactId && rows[i].userId == userId)
  {
    if rows == [] then None
    else if rows[0].id == contactId && rows[0].userId == userId then Some(0)
    else match ContactIndex(rows[1..], contactId, userId)
      case None => None
      case Some(j) => Some(j + 1)
  }

  /** The primary key and the unique column `email` (index `contacts_email_key`). */
  ghost predicate UniqueContacts(rows: seq<Contact>)
  {
    forall i, j :: 0 <= i < |rows| && 0 <= j < |rows| && i != j ==>
      rows[i].id != rows[j].id && rows[i].email != rows[j].email
  }

  /** The rows other than the one at position `k`. */
  function Without(rows: seq<Contact>, k: nat): (r: seq<Contact>)
    requires k < |rows|
    ensures |r| == |rows| - 1
    ensures forall i :: 0 <= i < k ==> r[i] == rows[i]
    ensures forall i :: k <= i < |r| ==> r[i] == rows[i + 1]
  {
    rows[..k] + rows[k + 1..]
  }

  /**
   * The unique-index check for `row` against the `others` rows, in the order
   * the indexes exist: the primary key `contacts_pkey`, then `contacts_email_key`.
   */
  function ContactConflict(row: Contact, others: seq<Contact>): (r: Option<IntegrityError>)
    ensures r.None? <==> forall c :: c in others ==> c.id != row.id && c.email != row.email
    ensures r == Some(UniqueViolation("contacts_pkey")) <==> exists c :: c in others && c.id == row.id
    ensures r == Some(UniqueViolation("contacts_email_key"))
        <==> (forall c :: c in others ==> c.id != row.id) && exists c :: c in others && c.email == row.email
  {
    if exists c :: c in others && c.id == row.id then Some(UniqueViolation("contacts_pkey"))
    else if exists c :: c in others && c.email == row.email then Some(UniqueViolation("contacts_email_key"))
    else None
  }

  /**
   * A contact object as the ORM holds it in memory: `setattr` may store None
   * in a column the table declares NOT NULL; that surfaces only at commit.
   */
  datatype ContactDraft = ContactDraft(
    id: int,
    name: Option<string>,
    surname: Option<string>,
    email: Option<string>,
    phone: Option<string>,
    birthDate: Option<Date>,
    extraInfo: Option<string>,
    userId: int)

  /** A stored row as the ORM loads it: every NOT NULL column present. */
  function DraftOf(c: Contact): (d: ContactDraft)
    ensures d.id == c.id && d.userId == c.userId && d.extraInfo == c.extraInfo
    ensures d.name.Some? && d.surname.Some? && d.email.Some? && d.phone.Some? && d.birthDate.Some?
  {
    ContactDraft(c.id, Some(c.name), Some(c.surname), Some(c.email), Some(c.phone),
                 Some(c.birthDate), c.extraInfo, c.userId)
  }

  /** The NOT NULL checks of `contacts`, in column order. */
  function RowOf(d: ContactDraft): (r: Result<Contact, IntegrityError>)
    ensures r.Ok? <==> d.name.Some? && d.surname.Some? && d.email.Some? && d.phone.Some? && d.birthDate.Some?
    ensures r.Ok? ==> DraftOf(r.value) == d
  {
    if d.name.None? then Err(NotNullViolation("contacts", "name"))
    else if d.surname.None? then Err(NotNullViolation("contacts", "surname"))
    else if d.email.None? then Err(NotNullViolation("contacts", "email"))
    else if d.phone.None? then Err(NotNullViolation("contacts", "phone"))
    else if d.birthDate.None? then Err(NotNullViolation("contacts", "birth_date"))
    else Ok(Contact(d.id, d.name.value, d.surname.value, d.email.value, d.phone.value,
                    d.birthDate.value, d.extraInfo, d.userId))
  }

  /** A loaded row passes the not-null checks unchanged. */
  lemma LoadedRowStoresBack(c: Contact)
    ensures RowOf(DraftOf(c)) == Ok(c)
  {
  }

  /**
   * An UPDATE of the row at position `k` to the object `d`, as the commit
   * sees it: the not-null checks, then the unique indexes against the other rows.
   */
  function CommitUpdate(rows: seq<Contact>, k: nat, d: ContactDraft): (r: Result<Contact, IntegrityError>)
    requires k < |rows|
    ensures r.Ok? ==> DraftOf(r.value) == d && ContactConflict(r.value, Without(rows, k)).None?
  {
    match RowOf(d)
    case Err(e) => Err(e)
    case Ok(row) =>
      match ContactConflict(row, Without(rows, k))
      case Some(e) => Err(e)
      case None => Ok(row)
  }

  /** Replacing one row by a row that clashes with no other keeps the table's keys unique. */
  lemma {:induction false} ReplaceKeepsUnique(rows: seq<Contact>, k: nat, row: Contact)
    requires UniqueContacts(rows) && k < |rows|
    requires ContactConflict(row, Without(rows, k)).None?
    ensures UniqueContacts(rows[k := row])
  {
    var others := Without(rows, k);
    forall i | 0 <= i < |rows| && i != k ensures rows[i] in others {
      if i < k { assert others[i] == rows[i]; } else { assert others[i - 1] == rows[i]; }
    }
  }

  /** Removing a row keeps the table's keys unique. */
  lemma {:induction false} RemoveKeepsUnique(rows: seq<Contact>, k: nat)
    requires UniqueContacts(rows) && k < |rows|
    ensures UniqueContacts(Without(rows, k))
  {
    var r := Without(rows, k);
    forall i, j | 0 <= i < |r| && 0 <= j < |r| && i != j
      ensures r[i].id != r[j].id && r[i].email != r[j].email
    {
      var i' := if i < k then i else i + 1;
      var j' := if j < k then j else j + 1;
      assert r[i] == rows[i'] && r[j] == rows[j'];
    }
  }

  // -------------------------------------------------------------- session

  /**
   * The database behind one AsyncSession: both tables in row order, the
   * next values of the two id serials, how many commits and rollbacks were
   * issued, and whether a failed commit left the transaction to be rolled back.
   */
  class Session {
    var users: seq<User>
    var contacts: seq<Contact>
    var nextUserId: int
    var nextContactId: int
    var commits: nat
    var rollbacks: nat
    var needsRollback: bool

    ghost predicate Valid()
      reads this
    {
      && UniqueUsers(users)
      && UniqueContacts(contacts)
      && 1 <= nextUserId
      && (forall i :: 0 <= i < |users| ==> 1 <= users[i].id < nextUserId)
    }

    constructor ()
      ensures Valid() && !needsRollback
      ensures users == [] && contacts == [] && nextUserId == 1 && nextContactId == 1
      ensures commits == 0 && rollbacks == 0
    {
      users, contacts := [], [];
      nextUserId, nextContactId := 1, 1;
      commits, rollbacks := 0, 0;
      needsRollback := false;
    }

    /** `session.rollback()`: ends the failed transaction; no table changes. */
    method Rollback()
      modifies this
      ensures !needsRollback && rollbacks == old(rollbacks) + 1
      ensures users == old(users) && contacts == old(contacts) && commits == old(commits)
      ensures nextUserId == old(nextUserId) && nextContactId == old(nextContactId)
    {
      rollbacks := rollbacks + 1;
      needsRollback := false;
    }
  }
}
