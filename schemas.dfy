/**
 * The request bodies of the contact and registration endpoints and the
 * pydantic field constraints that admit them. A raw body records, per field,
 * whether the JSON left it out, sent null, or sent a value; parsing yields
 * the typed model or rejects the body (HTTP 422).
 * `isEmail` stands for the EmailStr syntax check of the email validator.
 */
module Schemas {
  import opened Wrappers
  import opened Models

  /** A JSON member: absent, explicitly null, or present with a value. */
  datatype Field<T> = Missing | Null | Given(value: T)

  datatype RawContact = RawContact(
    name: Field<string>,
    surname: Field<string>,
    email: Field<string>,
    phone: Field<string>,
    birthDate: Field<Date>,
    extraInfo: Field<string>,
    id: Field<int>)

  datatype ContactCreate = ContactCreate(
    name: string,
    surname: string,
    email: string,
    phone: string,
    birthDate: Date,
    extraInfo: Option<string>)

  /** A PUT body: every create field plus the required `id`. */
  datatype ContactPut = ContactPut(fields: ContactCreate, id: int)

  /** A PATCH body: `Missing` is a field the client did not set. */
  datatype ContactPatch = ContactPatch(
    name: Field<string>,
    surname: Field<string>,
    email: Field<string>,
    phone: Field<string>,
    birthDate: Field<Date>,
    extraInfo: Field<string>)

  datatype RawUserCreate = RawUserCreate(
    userName: Field<string>,
    userEmail: Field<string>,
    password: Field<string>)

  datatype UserCreate = UserCreate(userName: string, userEmail: string, password: string)

  /** `name` and `surname`: 1 to 50 characters. */
  predicate NameOk(s: string) { 1 <= |s| <= 50 }

  /** `phone`: 7 to 50 characters. */
  predicate PhoneOk(s: string) { 7 <= |s| <= 50 }

  /** `extra_info`: at most 255 characters. */
  predicate ExtraInfoOk(s: string) { |s| <= 255 }

  predicate ValidCreate(b: ContactCreate, isEmail: string -> bool)
  {
    && NameOk(b.name) && NameOk(b.surname) && isEmail(b.email) && PhoneOk(b.phone)
    && (b.extraInfo.Some? ==> ExtraInfoOk(b.extraInfo.value))
  }

  /** A present PATCH field obeys the create bound; null and absent always pass. */
  predicate FieldOk<T>(f: Field<T>, ok: T -> bool)
  {
    f.Given? ==> ok(f.value)
  }

  predicate ValidPatch(p: ContactPatch, isEmail: string -> bool)
  {
    && FieldOk(p.name, NameOk) && FieldOk(p.surname, NameOk) && FieldOk(p.email, isEmail)
    && FieldOk(p.phone, PhoneOk) && FieldOk(p.extraInfo, ExtraInfoOk)
  }

  /** `Optional[str] = Field(None, ...)`: absent and null both read as None. */
  function OptionalOf<T>(f: Field<T>): Option<T>
  {
    match f
    case Given(v) => Some(v)
    case _ => None
  }

  /** Validation of a `ContactCreateModel` body; unknown members such as `id` are ignored. */
  function ParseContactCreate(raw: RawContact, isEmail: string -> bool): (r: Option<ContactCreate>)
    ensures r.Some? ==> ValidCreate(r.value, isEmail)
    ensures r.Some? ==> raw.name.Given? && raw.surname.Given? && raw.email.Given?
                        && raw.phone.Given? && raw.birthDate.Given?
    ensures r.Some? ==> r.value.name == raw.name.value && r.value.surname == raw.surname.value
                        && r.value.email == raw.email.value && r.value.phone == raw.phone.value
                        && r.value.birthDate == raw.birthDate.value
                        && r.value.extraInfo == OptionalOf(raw.extraInfo)
    ensures && raw.name.Given? && raw.surname.Given? && raw.email.Given? && raw.phone.Given? && raw.birthDate.Given?
            && ValidCreate(ContactCreate(raw.name.value, raw.surname.value, raw.email.value, raw.phone.value,
                                         raw.birthDate.value, OptionalOf(raw.extraInfo)), isEmail)
            ==> r.Some?
  {
    if && raw.name.Given? && raw.surname.Given? && raw.email.Given?
       && raw.phone.Given? && raw.birthDate.Given?
    then
      var b := ContactCreate(raw.name.value, raw.surname.value, raw.email.value,
                             raw.phone.value, raw.birthDate.value, OptionalOf(raw.extraInfo));
      if ValidCreate(b, isEmail) then Some(b) else None
    else None
  }

  /** Validation of a `ContactPutModel` body. */
  function ParseContactPut(raw: RawContact, isEmail: string -> bool): (r: Option<ContactPut>)
    ensures r.Some? <==> ParseContactCreate(raw, isEmail).Some? && raw.id.Given?
    ensures r.Some? ==> r.value.fields == ParseContactCreate(raw, isEmail).value && r.value.id == raw.id.value
  {
    match ParseContactCreate(raw, isEmail)
    case None => None
    case Some(b) => if raw.id.Given? then Some(ContactPut(b, raw.id.value)) else None
  }

  /** Validation of a `ContactPatchModel` body; `id` is not one of its fields. */
  function ParseContactPatch(raw: RawContact, isEmail: string -> bool): (r: Option<ContactPatch>)
    ensures r.Some? ==> ValidPatch(r.value, isEmail)
    ensures r.Some? <==> ValidPatch(ContactPatch(raw.name, raw.surname, raw.email, raw.phone,
                                                 raw.birthDate, raw.extraInfo), isEmail)
    ensures r.Some? ==> r.value == ContactPatch(raw.name, raw.surname, raw.email, raw.phone,
                                                raw.birthDate, raw.extraInfo)
  {
    var p := ContactPatch(raw.name, raw.surname, raw.email, raw.phone, raw.birthDate, raw.extraInfo);
    if ValidPatch(p, isEmail) then Some(p) else None
  }

  /** Validation of a `UserCreate` body: all three members are required. */
  function ParseUserCreate(raw: RawUserCreate, isEmail: string -> bool): (r: Option<UserCreate>)
    ensures r.Some? <==> raw.userName.Given? && raw.userEmail.Given? && raw.password.Given?
                         && isEmail(raw.userEmail.value)
    ensures r.Some? ==> r.value == UserCreate(raw.userName.value, raw.userEmail.value, raw.password.value)
  {
    if raw.userName.Given? && raw.userEmail.Given? && raw.password.Given? && isEmail(raw.userEmail.value)
    then Some(UserCreate(raw.userName.value, raw.userEmail.value, raw.password.value))
    else None
  }

  /** The JSON a client sends for a create body (`model_dump`), with `id` absent. */
  function RawOfCreate(b: ContactCreate): RawContact
  {
    RawContact(Given(b.name), Given(b.surname), Given(b.email), Given(b.phone), Given(b.birthDate),
               if b.extraInfo.Some? then Given(b.extraInfo.value) else Null, Missing)
  }

  /** Every valid create body survives a dump-and-parse round trip, and only valid ones do. */
  lemma CreateRoundTrip(b: ContactCreate, isEmail: string -> bool)
    ensures ParseContactCreate(RawOfCreate(b), isEmail) == (if ValidCreate(b, isEmail) then Some(b) else None)
  {
  }

  /** A PUT body is a create body plus an id; without the id it is rejected. */
  lemma PutIsCreatePlusId(b: ContactCreate, id: int, isEmail: string -> bool)
    ensures ParseContactPut(RawOfCreate(b).(id := Given(id)), isEmail)
            == (if ValidCreate(b, isEmail) then Some(ContactPut(b, id)) else None)
    ensures ParseContactPut(RawOfCreate(b), isEmail) == None
  {
    CreateRoundTrip(b, isEmail);
    assert ParseContactCreate(RawOfCreate(b).(id := Given(id)), isEmail)
        == ParseContactCreate(RawOfCreate(b), isEmail);
  }

  /** A body that is acceptable to create is acceptable to PATCH, with every field set. */
  lemma CreateBodyIsPatchBody(raw: RawContact, isEmail: string -> bool)
    requires ParseContactCreate(raw, isEmail).Some?
    ensures ParseContactPatch(raw, isEmail).Some?
  {
  }

  /** A PATCH body of nulls only, and one with no fields at all, are both accepted. */
  lemma PatchAcceptsNulls(isEmail: string -> bool)
    ensures ParseContactPatch(RawContact(Null, Null, Null, Null, Null, Null, Missing), isEmail).Some?
    ensures ParseContactPatch(RawContact(Missing, Missing, Missing, Missing, Missing, Missing, Missing), isEmail).Some?
  {
  }
}
