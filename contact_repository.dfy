/**
 * The contact repository over the `contacts` table: the owner-scoped
 * filtered listing with offset and limit, the upcoming-birthday query,
 * lookup by id and owner, create, full (PUT) and partial (PATCH) update,
 * and delete.
 */
module ContactRepo {
  import opened Wrappers
  import opened Strings
  import opened Models
  import opened Schemas

  // ------------------------------------------------------------ listing

  /** The rows `keep` admits, in table order (a WHERE clause without ORDER BY). */
  function Select(rows: seq<Contact>, keep: Contact -> bool): (r: seq<Contact>)
    ensures |r| <= |rows|
    ensures forall c :: c in r <==> c in rows && keep(c)
  {
    if rows == [] then []
    else (if keep(rows[0]) then [rows[0]] else []) + Select(rows[1..], keep)
  }

  function Min(a: int, b: int): int { if a <= b then a else b }

  /** `.offset(skip).limit(limit)` */
  function Page(m: seq<Contact>, skip: nat, limit: nat): (r: seq<Contact>)
    ensures |r| == if skip >= |m| then 0 else Min(limit, |m| - skip)
    ensures forall i :: 0 <= i < |r| ==> r[i] == m[skip + i]
  {
    if skip >= |m| then [] else m[skip..skip + Min(limit, |m| - skip)]
  }

  /** `if name: stmt = stmt.where(column.ilike(f"%{name}%"))`: None and "" add no condition. */
  predicate TextFilter(filter: Option<string>, column: string)
  {
    filter.None? || filter.value == "" || ILike(column, "%" + filter.value + "%")
  }

  /** The WHERE clause of `get_contacts`. */
  predicate MatchesQuery(c: Contact, userId: int, name: Option<string>, surname: Option<string>,
                         email: Option<string>)
  {
    c.userId == userId && TextFilter(name, c.name) && TextFilter(surname, c.surname)
    && TextFilter(email, c.email)
  }

  /** A filter without LIKE metacharacters is a case-insensitive substring test; an empty one admits all. */
  lemma TextFilterIsSubstring(q: string, column: string)
    requires Literal(q)
    ensures TextFilter(Some(q), column) <==> Contains(Lower(column), Lower(q))
  {
    ILikeIsCaseInsensitiveContains(column, q);
    if q == [] {
      assert Lower(q) <= Lower(column);
    }
  }

  /** `"_"` is a wildcard in a LIKE pattern: the filter "a_c" admits the name "abc". */
  lemma UnderscoreFilterIsWildcard()
    ensures TextFilter(Some("a_c"), "abc") && !Contains("abc", "a_c")
  {
    assert LowerChar('a') == 'a' && LowerChar('b') == 'b' && LowerChar('c') == 'c';
    assert LowerChar('%') == '%' && LowerChar('_') == '_';
    assert Lower("abc") == "abc";
    assert Lower("%a_c%") == "%a_c%";
    assert Like([], "%") by { assert "%"[1..] == []; }
    assert Like("c", "c%") by { assert "c%"[1..] == "%" && "c"[1..] == []; }
    assert Like("bc", "_c%") by { assert "_c%"[1..] == "c%" && "bc"[1..] == "c"; }
    assert Like("abc", "a_c%") by { assert "a_c%"[1..] == "_c%" && "abc"[1..] == "bc"; }
    assert Like("abc", "%a_c%") by { assert "%a_c%"[1..] == "a_c%"; }
    assert "%" + "a_c" + "%" == "%a_c%";
    MissingCharNotContained("abc", "a_c", '_');
  }

  /** The (month, day) window of `get_contacts_for_birthdays`, from today and today + days_limit. */
  datatype BirthdayWindow = BirthdayWindow(startMonth: int, startDay: int, endMonth: int, endDay: int)

  /** The birthday condition: one month, or the tail of the start month and the head of the end month. */
  predicate InBirthdayWindow(w: BirthdayWindow, b: Date)
  {
    if w.startMonth == w.endMonth then
      b.month == w.startMonth && w.startDay <= b.day <= w.endDay
    else
      (b.month == w.startMonth && b.day >= w.startDay) || (b.month == w.endMonth && b.day <= w.endDay)
  }

  /** (m1, d1) does not come after (m2, d2) within a calendar year. */
  predicate NotAfter(m1: int, d1: int, m2: int, d2: int)
  {
    m1 < m2 || (m1 == m2 && d1 <= d2)
  }

  /** Reference: (month, day) of `b` lies on the yearly arc from the start day to the end day, wrapping at New Year. */
  predicate OnYearlyArc(w: BirthdayWindow, b: Date)
  {
    if NotAfter(w.startMonth, w.startDay, w.endMonth, w.endDay) then
      NotAfter(w.startMonth, w.startDay, b.month, b.day) && NotAfter(b.month, b.day, w.endMonth, w.endDay)
    else
      NotAfter(w.startMonth, w.startDay, b.month, b.day) || NotAfter(b.month, b.day, w.endMonth, w.endDay)
  }

  /** A window of fewer than 28 days: one month, or a month and the next one (December then January). */
  predicate ShortWindow(w: BirthdayWindow)
  {
    && 1 <= w.startMonth <= 12 && 1 <= w.endMonth <= 12
    && ((w.startMonth == w.endMonth && w.startDay <= w.endDay) || w.endMonth == w.startMonth % 12 + 1)
  }

  /** For short windows, including the December-to-January one, the query condition is the yearly arc. */
  lemma BirthdayWindowIsArc(w: BirthdayWindow, b: Date)
    requires ShortWindow(w) && 1 <= b.month <= 12
    ensures InBirthdayWindow(w, b) <==> OnYearlyArc(w, b)
  {
  }

  // ----------------------------------------------------------- updating

  /** One `setattr(contact, key, value)` of a dumped body. */
  datatype Assignment =
    | SetId(id: int)
    | SetName(name: Option<string>)
    | SetSurname(surname: Option<string>)
    | SetEmail(email: Option<string>)
    | SetPhone(phone: Option<string>)
    | SetBirthDate(birthDate: Option<Date>)
    | SetExtraInfo(extraInfo: Option<string>)

  /** The assigned column takes the value; every other column, and the owner, keep theirs. */
  function SetAttr(d: ContactDraft, a: Assignment): (r: ContactDraft)
    ensures r.userId == d.userId
    ensures r.id == (if a.SetId? then a.id else d.id)
    ensures r.name == (if a.SetName? then a.name else d.name)
    ensures r.surname == (if a.SetSurname? then a.surname else d.surname)
    ensures r.email == (if a.SetEmail? then a.email else d.email)
    ensures r.phone == (if a.SetPhone? then a.phone else d.phone)
    ensures r.birthDate == (if a.SetBirthDate? then a.birthDate else d.birthDate)
    ensures r.extraInfo == (if a.SetExtraInfo? then a.extraInfo else d.extraInfo)
  {
    match a
    case SetId(v) => d.(id := v)
    case SetName(v) => d.(name := v)
    case SetSurname(v) => d.(surname := v)
    case SetEmail(v) => d.(email := v)
    case SetPhone(v) => d.(phone := v)
    case SetBirthDate(v) => d.(birthDate := v)
    case SetExtraInfo(v) => d.(extraInfo := v)
  }

  /** The object after the assignments, applied in order. */
  function ApplyAll(d: ContactDraft, items: seq<Assignment>): (r: ContactDraft)
    ensures r.userId == d.userId
    ensures (forall i :: 0 <= i < |items| ==> !items[i].SetId?) ==> r.id == d.id
    decreases |items|
  {
    if items == [] then d else SetAttr(ApplyAll(d, items[..|items| - 1]), items[|items| - 1])
  }

  lemma {:induction false} ApplyAllAppend(d: ContactDraft, a: seq<Assignment>, b: seq<Assignment>)
    ensures ApplyAll(d, a + b) == ApplyAll(ApplyAll(d, a), b)
    decreases |b|
  {
    if b == [] {
      assert a + b == a;
    } else {
      assert (a + b)[..|a + b| - 1] == a + b[..|b| - 1];
      assert (a + b)[|a + b| - 1] == b[|b| - 1];
      ApplyAllAppend(d, a, b[..|b| - 1]);
    }
  }

  /** `body.model_dump().items()` of a PUT body: every field, `id` last. */
  function PutItems(b: ContactPut): (r: seq<Assignment>)
    ensures |r| == 7 && r[6] == SetId(b.id)
    ensures forall i :: 0 <= i < 6 ==> !r[i].SetId?
  {
    [SetName(Some(b.fields.name)), SetSurname(Some(b.fields.surname)), SetEmail(Some(b.fields.email)),
     SetPhone(Some(b.fields.phone)), SetBirthDate(Some(b.fields.birthDate)),
     SetExtraInfo(b.fields.extraInfo), SetId(b.id)]
  }

  /** The dumped items of one PATCH field: none when unset, its value (None for null) when set. */
  function FieldItem<T>(f: Field<T>, assign: Option<T> -> Assignment): (r: seq<Assignment>)
    ensures f.Missing? <==> r == []
    ensures !f.Missing? ==> r == [assign(OptionalOf(f))]
  {
    match f
    case Missing => []
    case Null => [assign(None)]
    case Given(v) => [assign(Some(v))]
  }

  /** `body.model_dump(exclude_unset=True).items()` of a PATCH body. */
  function PatchItems(p: ContactPatch): (r: seq<Assignment>)
    ensures |r| <= 6
    ensures forall i :: 0 <= i < |r| ==> !r[i].SetId?
  {
    FieldItem(p.name, v => SetName(v)) + FieldItem(p.surname, v => SetSurname(v))
    + FieldItem(p.email, v => SetEmail(v)) + FieldItem(p.phone, v => SetPhone(v))
    + FieldItem(p.birthDate, v => SetBirthDate(v)) + FieldItem(p.extraInfo, v => SetExtraInfo(v))
  }

  /** What PATCH does to one column: keep it when unset, otherwise take the sent value or null. */
  function Patched<T>(f: Field<T>, current: Option<T>): (r: Option<T>)
    ensures f.Missing? ==> r == current
    ensures !f.Missing? ==> r == OptionalOf(f)
  {
    match f
    case Missing => current
    case Null => None
    case Given(v) => Some(v)
  }

  /** A PUT replaces every column the body carries, `id` included; only the owner stays. */
  lemma PutOverwritesAll(d: ContactDraft, b: ContactPut)
    ensures ApplyAll(d, PutItems(b)) == ContactDraft(b.id, Some(b.fields.name), Some(b.fields.surname),
              Some(b.fields.email), Some(b.fields.phone), Some(b.fields.birthDate), b.fields.extraInfo, d.userId)
  {
    var items := PutItems(b);
    ApplyAllSteps(d, items);
  }

  /** Unfolds `ApplyAll` over a seven-item list into seven single assignments. */
  lemma ApplyAllSteps(d: ContactDraft, items: seq<Assignment>)
    requires |items| == 7
    ensures ApplyAll(d, items) == SetAttr(SetAttr(SetAttr(SetAttr(SetAttr(SetAttr(SetAttr(
              d, items[0]), items[1]), items[2]), items[3]), items[4]), items[5]), items[6])
  {
    assert ApplyAll(d, items[..1]) == SetAttr(d, items[0]) by { assert items[..1][..0] == []; }
    assert ApplyAll(d, items[..2]) == SetAttr(ApplyAll(d, items[..1]), items[1]) by {
      assert items[..2][..1] == items[..1];
    }
    assert ApplyAll(d, items[..3]) == SetAttr(ApplyAll(d, items[..2]), items[2]) by {
      assert items[..3][..2] == items[..2];
    }
    assert ApplyAll(d, items[..4]) == SetAttr(ApplyAll(d, items[..3]), items[3]) by {
      assert items[..4][..3] == items[..3];
    }
    assert ApplyAll(d, items[..5]) == SetAttr(ApplyAll(d, items[..4]), items[4]) by {
      assert items[..5][..4] == items[..4];
    }
    assert ApplyAll(d, items[..6]) == SetAttr(ApplyAll(d, items[..5]), items[5]) by {
      assert items[..6][..5] == items[..5];
    }
    assert items[..7] == items;
  }

  lemma FieldItemApplies<T>(d: ContactDraft, f: Field<T>, assign: Option<T> -> Assignment)
    ensures ApplyAll(d, FieldItem(f, assign)) == if f.Missing? then d else SetAttr(d, assign(Patched(f, None)))
  {
    match f
    case Missing =>
    case Null => assert [assign(None)][..0] == [];
    case Given(v) => assert [assign(Some(v))][..0] == [];
  }

  /** A PATCH changes exactly the columns the body sets; unset columns keep their values. */
  lemma {:induction false} PatchChangesOnlySetFields(d: ContactDraft, p: ContactPatch)
    ensures ApplyAll(d, PatchItems(p)) == d.(
              name := Patched(p.name, d.name), surname := Patched(p.surname, d.surname),
              email := Patched(p.email, d.email), phone := Patched(p.phone, d.phone),
              birthDate := Patched(p.birthDate, d.birthDate), extraInfo := Patched(p.extraInfo, d.extraInfo))
  {
    var i1 := FieldItem(p.name, v => SetName(v));
    var i2 := FieldItem(p.surname, v => SetSurname(v));
    var i3 := FieldItem(p.email, v => SetEmail(v));
    var i4 := FieldItem(p.phone, v => SetPhone(v));
    var i5 := FieldItem(p.birthDate, v => SetBirthDate(v));
    var i6 := FieldItem(p.extraInfo, v => SetExtraInfo(v));
    assert PatchItems(p) == i1 + i2 + i3 + i4 + i5 + i6;
    var d1 := ApplyAll(d, i1);
    assert d1 == d.(name := Patched(p.name, d.name)) by {
      FieldItemApplies(d, p.name, v => SetName(v));
    }
    var d2 := ApplyAll(d1, i2);
    assert d2 == d1.(surname := Patched(p.surname, d.surname)) by {
      FieldItemApplies(d1, p.surname, v => SetSurname(v));
    }
    var d3 := ApplyAll(d2, i3);
    assert d3 == d2.(email := Patched(p.email, d.email)) by {
      FieldItemApplies(d2, p.email, v => SetEmail(v));
    }
    var d4 := ApplyAll(d3, i4);
    assert d4 == d3.(phone := Patched(p.phone, d.phone)) by {
      FieldItemApplies(d3, p.phone, v => SetPhone(v));
    }
    var d5 := ApplyAll(d4, i5);
    assert d5 == d4.(birthDate := Patched(p.birthDate, d.birthDate)) by {
      FieldItemApplies(d4, p.birthDate, v => SetBirthDate(v));
    }
    var d6 := ApplyAll(d5, i6);
    assert d6 == d5.(extraInfo := Patched(p.extraInfo, d.extraInfo)) by {
      FieldItemApplies(d5, p.extraInfo, v => SetExtraInfo(v));
    }
    assert ApplyAll(d, i1 + i2) == d2 by { ApplyAllAppend(d, i1, i2); }
    assert ApplyAll(d, i1 + i2 + i3) == d3 by { ApplyAllAppend(d, i1 + i2, i3); }
    assert ApplyAll(d, i1 + i2 + i3 + i4) == d4 by { ApplyAllAppend(d, i1 + i2 + i3, i4); }
    assert ApplyAll(d, i1 + i2 + i3 + i4 + i5) == d5 by { ApplyAllAppend(d, i1 + i2 + i3 + i4, i5); }
    assert ApplyAll(d, i1 + i2 + i3 + i4 + i5 + i6) == d6 by { ApplyAllAppend(d, i1 + i2 + i3 + i4 + i5, i6); }
  }

  // ------------------------------------------------------ write outcomes

  /** The object `Contact(**body.model_dump(exclude_unset=True), user=user)` with the serial's id. */
  function NewContact(id: int, body: ContactCreate, userId: int): Contact
  {
    Contact(id, body.name, body.surname, body.email, body.phone, body.birthDate, body.extraInfo, userId)
  }

  /** What the INSERT of `create_contact` does: the new row, or the violated unique index. */
  function CreateOutcome(rows: seq<Contact>, nextId: int, body: ContactCreate, userId: int)
    : (r: Result<Contact, IntegrityError>)
    ensures r.Ok? <==> forall c :: c in rows ==> c.id != nextId && c.email != body.email
    ensures r.Ok? ==> r.value == NewContact(nextId, body, userId)
  {
    var row := NewContact(nextId, body, userId);
    match ContactConflict(row, rows)
    case Some(e) => Err(e)
    case None => Ok(row)
  }

  /**
   * What `put_contact` / `patch_contact` do: None when the owner has no such
   * contact; otherwise the assignments applied to it and the commit's verdict.
   */
  function UpdateOutcome(rows: seq<Contact>, contactId: int, userId: int, items: seq<Assignment>)
    : (r: Result<Option<Contact>, IntegrityError>)
    ensures r == Ok(None) <==> ContactIndex(rows, contactId, userId).None?
  {
    match ContactIndex(rows, contactId, userId)
    case None => Ok(None)
    case Some(k) =>
      match CommitUpdate(rows, k, ApplyAll(DraftOf(rows[k]), items))
      case Err(e) => Err(e)
      case Ok(row) => Ok(Some(row))
  }

  /** A successful PUT stores exactly the body's fields and id under the same owner. */
  lemma PutStoresBody(rows: seq<Contact>, contactId: int, userId: int, b: ContactPut)
    requires UpdateOutcome(rows, contactId, userId, PutItems(b)).Ok?
    ensures UpdateOutcome(rows, contactId, userId, PutItems(b)).value.Some? ==>
      UpdateOutcome(rows, contactId, userId, PutItems(b)).value.value
        == NewContact(b.id, b.fields, userId)
  {
    match ContactIndex(rows, contactId, userId)
    case None =>
    case Some(k) =>
      PutOverwritesAll(DraftOf(rows[k]), b);
  }

  /** A found contact is rejected by a PUT only for a unique-index clash (its id or its email). */
  lemma PutRejectsOnlyClashes(rows: seq<Contact>, contactId: int, userId: int, b: ContactPut)
    requires ContactIndex(rows, contactId, userId).Some?
    ensures var k := ContactIndex(rows, contactId, userId).value;
      UpdateOutcome(rows, contactId, userId, PutItems(b)).Err? <==>
        ContactConflict(NewContact(b.id, b.fields, userId), Without(rows, k)).Some?
  {
    var k := ContactIndex(rows, contactId, userId).value;
    PutOverwritesAll(DraftOf(rows[k]), b);
    assert RowOf(ApplyAll(DraftOf(rows[k]), PutItems(b))) == Ok(NewContact(b.id, b.fields, userId));
  }

  /** A successful PATCH keeps every unset column and takes every set one. */
  lemma PatchStoresSetFields(rows: seq<Contact>, contactId: int, userId: int, p: ContactPatch)
    requires UpdateOutcome(rows, contactId, userId, PatchItems(p)).Ok?
    requires UpdateOutcome(rows, contactId, userId, PatchItems(p)).value.Some?
    ensures var k := ContactIndex(rows, contactId, userId).value;
      var row := UpdateOutcome(rows, contactId, userId, PatchItems(p)).value.value;
      DraftOf(row) == DraftOf(rows[k]).(
        name := Patched(p.name, Some(rows[k].name)), surname := Patched(p.surname, Some(rows[k].surname)),
        email := Patched(p.email, Some(rows[k].email)), phone := Patched(p.phone, Some(rows[k].phone)),
        birthDate := Patched(p.birthDate, Some(rows[k].birthDate)),
        extraInfo := Patched(p.extraInfo, rows[k].extraInfo))
  {
    var k := ContactIndex(rows, contactId, userId).value;
    PatchChangesOnlySetFields(DraftOf(rows[k]), p);
  }

  /** A PATCH that sends null for `name` on an existing contact fails the not-null constraint. */
  lemma PatchNullNameFails(rows: seq<Contact>, contactId: int, userId: int, p: ContactPatch)
    requires ContactIndex(rows, contactId, userId).Some? && p.name == Null
    ensures UpdateOutcome(rows, contactId, userId, PatchItems(p)) == Err(NotNullViolation("contacts", "name"))
  {
    var k := ContactIndex(rows, contactId, userId).value;
    PatchChangesOnlySetFields(DraftOf(rows[k]), p);
  }

  // ---------------------------------------------------------- repository

  class ContactRepository {
    const db: Session

    constructor (session: Session)
      ensures db == session
    {
      db := session;
    }

    /** `get_contacts(user, skip, limit, name, surname, email)` */
    function GetContacts(user: User, skip: nat, limit: nat, name: Option<string>, surname: Option<string>,
                         email: Option<string>): (r: seq<Contact>)
      reads db
      ensures |r| <= limit
      ensures forall c :: c in r ==> c in db.contacts && c.userId == user.id
      ensures forall c :: c in r ==> MatchesQuery(c, user.id, name, surname, email)
      ensures var m := Select(db.contacts, (c: Contact) => MatchesQuery(c, user.id, name, surname, email));
        && |r| == (if skip >= |m| then 0 else Min(limit, |m| - skip))
        && forall i :: 0 <= i < |r| ==> r[i] == m[skip + i]
    {
      var m := Select(db.contacts, (c: Contact) => MatchesQuery(c, user.id, name, surname, email));
      var r := Page(m, skip, limit);
      assert forall c :: c in r ==> c in m by {
        forall c | c in r ensures c in m {
          var i :| 0 <= i < |r| && r[i] == c;
          assert m[skip + i] == c;
        }
      }
      r
    }

    /** `get_contacts_for_birthdays(user)` for the window computed from today. */
    function GetContactsForBirthdays(user: User, w: BirthdayWindow): (r: seq<Contact>)
      reads db
      ensures forall c :: c in r <==> c in db.contacts && c.userId == user.id && InBirthdayWindow(w, c.birthDate)
    {
      Select(db.contacts, (c: Contact) => c.userId == user.id && InBirthdayWindow(w, c.birthDate))
    }

    /** `get_contact_by_id(contact_id, user)`: the contact only if both its id and its owner match. */
    function GetContactById(contactId: int, user: User): (r: Option<Contact>)
      reads db
      ensures r.Some? ==> r.value in db.contacts && r.value.id == contactId && r.value.userId == user.id
      ensures r.None? <==> forall c :: c in db.contacts ==> !(c.id == contactId && c.userId == user.id)
    {
      match ContactIndex(db.contacts, contactId, user.id)
      case None => None
      case Some(k) => Some(db.contacts[k])
    }

    /** `create_contact(body, user)`: insert, commit; the id serial advances even when the insert fails. */
    method CreateContact(body: ContactCreate, user: User) returns (r: Result<Contact, IntegrityError>)
      requires db.Valid() && !db.needsRollback
      modifies db
      ensures db.Valid()
      ensures r == CreateOutcome(old(db.contacts), old(db.nextContactId), body, user.id)
      ensures db.nextContactId == old(db.nextContactId) + 1
      ensures db.users == old(db.users) && db.nextUserId == old(db.nextUserId) && db.rollbacks == old(db.rollbacks)
      ensures r.Ok? ==> db.contacts == old(db.contacts) + [r.value] && db.commits == old(db.commits) + 1
                        && !db.needsRollback
      ensures r.Err? ==> db.contacts == old(db.contacts) && db.commits == old(db.commits) && db.needsRollback
    {
      var id := db.nextContactId;
      db.nextContactId := db.nextContactId + 1;
      r := CreateOutcome(db.contacts, id, body, user.id);
      if r.Ok? {
        assert ContactConflict(r.value, db.contacts).None?;
        db.contacts := db.contacts + [r.value];
        db.commits := db.commits + 1;
      } else {
        db.needsRollback := true;
      }
    }

    /** The shared shape of PUT and PATCH: look up, `setattr` each dumped item in turn, commit. */
    method UpdateContact(contactId: int, items: seq<Assignment>, user: User)
      returns (r: Result<Option<Contact>, IntegrityError>)
      requires db.Valid() && !db.needsRollback
      modifies db
      ensures db.Valid()
      ensures r == UpdateOutcome(old(db.contacts), contactId, user.id, items)
      ensures db.users == old(db.users) && db.rollbacks == old(db.rollbacks)
      ensures db.nextUserId == old(db.nextUserId) && db.nextContactId == old(db.nextContactId)
      ensures r == Ok(None) ==> db.contacts == old(db.contacts) && db.commits == old(db.commits) && !db.needsRollback
      ensures r.Ok? && r.value.Some? ==>
        db.contacts == old(db.contacts)[ContactIndex(old(db.contacts), contactId, user.id).value := r.value.value]
        && db.commits == old(db.commits) + 1 && !db.needsRollback
      ensures r.Err? ==> db.contacts == old(db.contacts) && db.commits == old(db.commits) && db.needsRollback
    {
      var found := ContactIndex(db.contacts, contactId, user.id);
      if found.None? {
        return Ok(None);
      }
      var k := found.value;
      var start := DraftOf(db.contacts[k]);
      var obj := start;
      for i := 0 to |items|
        invariant obj == ApplyAll(start, items[..i])
      {
        assert items[..i + 1][..i] == items[..i];
        obj := SetAttr(obj, items[i]);
      }
      assert items[..|items|] == items;
      var saved := CommitUpdate(db.contacts, k, obj);
      if saved.Err? {
        db.needsRollback := true;
        return Err(saved.error);
      }
      ReplaceKeepsUnique(db.contacts, k, saved.value);
      db.contacts := db.contacts[k := saved.value];
      db.commits := db.commits + 1;
      r := Ok(Some(saved.value));
    }

    /** `put_contact(contact_id, body, user)`: overwrite every field of the body, `id` included. */
    method PutContact(contactId: int, body: ContactPut, user: User) returns (r: Result<Option<Contact>, IntegrityError>)
      requires db.Valid() && !db.needsRollback
      modifies db
      ensures db.Valid()
      ensures r == UpdateOutcome(old(db.contacts), contactId, user.id, PutItems(body))
      ensures db.users == old(db.users) && db.rollbacks == old(db.rollbacks)
      ensures db.nextUserId == old(db.nextUserId) && db.nextContactId == old(db.nextContactId)
      ensures r == Ok(None) ==> db.contacts == old(db.contacts) && db.commits == old(db.commits) && !db.needsRollback
      ensures r.Ok? && r.value.Some? ==>
        db.contacts == old(db.contacts)[ContactIndex(old(db.contacts), contactId, user.id).value := r.value.value]
        && db.commits == old(db.commits) + 1 && !db.needsRollback
      ensures r.Err? ==> db.contacts == old(db.contacts) && db.commits == old(db.commits) && db.needsRollback
    {
      r := UpdateContact(contactId, PutItems(body), user);
    }

    /** `patch_contact(contact_id, body, user)`: overwrite only the fields the body sets. */
    method PatchContact(contactId: int, body: ContactPatch, user: User)
      returns (r: Result<Option<Contact>, IntegrityError>)
      requires db.Valid() && !db.needsRollback
      modifies db
      ensures db.Valid()
      ensures r == UpdateOutcome(old(db.contacts), contactId, user.id, PatchItems(body))
      ensures db.users == old(db.users) && db.rollbacks == old(db.rollbacks)
      ensures db.nextUserId == old(db.nextUserId) && db.nextContactId == old(db.nextContactId)
      ensures r == Ok(None) ==> db.contacts == old(db.contacts) && db.commits == old(db.commits) && !db.needsRollback
      ensures r.Ok? && r.value.Some? ==>
        db.contacts == old(db.contacts)[ContactIndex(old(db.contacts), contactId, user.id).value := r.value.value]
        && db.commits == old(db.commits) + 1 && !db.needsRollback
      ensures r.Err? ==> db.contacts == old(db.contacts) && db.commits == old(db.commits) && db.needsRollback
    {
      r := UpdateContact(contactId, PatchItems(body), user);
    }

    /** `delete_contact(contact_id, user)`: remove and return the contact, or return None and delete nothing. */
    method DeleteContact(contactId: int, user: User) returns (r: Option<Contact>)
      requires db.Valid() && !db.needsRollback
      modifies db
      ensures db.Valid() && !db.needsRollback
      ensures r == old(GetContactById(contactId, user))
      ensures r.None? ==> db.contacts == old(db.contacts) && db.commits == old(db.commits)
      ensures r.Some? ==>
        db.contacts == Without(old(db.contacts), ContactIndex(old(db.contacts), contactId, user.id).value)
        && db.commits == old(db.commits) + 1
      ensures r.Some? ==> r.value !in db.contacts
      ensures db.users == old(db.users) && db.rollbacks == old(db.rollbacks)
      ensures db.nextUserId == old(db.nextUserId) && db.nextContactId == old(db.nextContactId)
    {
      var found := ContactIndex(db.contacts, contactId, user.id);
      if found.None? {
        return None;
      }
      var k := found.value;
      r := Some(db.contacts[k]);
      RemoveKeepsUnique(db.contacts, k);
      var rest := Without(db.contacts, k);
      forall c | c in rest ensures c.id != db.contacts[k].id {
        var i :| 0 <= i < |rest| && rest[i] == c;
        if i < k { assert rest[i] == db.contacts[i]; } else { assert rest[i] == db.contacts[i + 1]; }
      }
      db.contacts := rest;
      db.commits := db.commits + 1;
    }
  }
}
