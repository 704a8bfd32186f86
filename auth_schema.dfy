/**
 * The user registry's schema: the enumerations of roles and genders, the
 * row of the `users` table, and the three validators a request body passes
 * through (login, registration, update) with the typed inputs read from a
 * body that passes.
 */
module AuthSchema {
  import opened Wrappers
  import opened Time
  import opened Text
  import opened Zod
  import opened Api

  datatype Role = Administrator | Manager | Salesperson | Finance

  function RoleLabel(r: Role): string {
    match r
    case Administrator => "Administrador"
    case Manager => "Gerente"
    case Salesperson => "Vendedor"
    case Finance => "Financeiro"
  }

  datatype Gender = Male | Female | Other

  function GenderLabel(g: Gender): string {
    match g
    case Male => "Masculino"
    case Female => "Feminino"
    case Other => "Outro"
  }

  /** `USER_ROLES` and `USER_GENDERS`, in declaration order. */
  const RoleOptions: seq<string> := ["Administrador", "Gerente", "Vendedor", "Financeiro"]
  const GenderOptions: seq<string> := ["Masculino", "Feminino", "Outro"]

  function ParseRole(text: string): (r: Option<Role>)
    ensures r.Some? ==> RoleLabel(r.value) == text
    ensures r.Some? <==> text in RoleOptions
  {
    if text == "Administrador" then Some(Administrator)
    else if text == "Gerente" then Some(Manager)
    else if text == "Vendedor" then Some(Salesperson)
    else if text == "Financeiro" then Some(Finance)
    else None
  }

  function ParseGender(text: string): (r: Option<Gender>)
    ensures r.Some? ==> GenderLabel(r.value) == text
    ensures r.Some? <==> text in GenderOptions
  {
    if text == "Masculino" then Some(Male)
    else if text == "Feminino" then Some(Female)
    else if text == "Outro" then Some(Other)
    else None
  }

  /** The option lists are exactly the labels: four roles and three genders, each listed once. */
  lemma EnumerationsAreLabels(r: Role, g: Gender)
    ensures RoleLabel(r) in RoleOptions && ParseRole(RoleLabel(r)) == Some(r)
    ensures GenderLabel(g) in GenderOptions && ParseGender(GenderLabel(g)) == Some(g)
    ensures |RoleOptions| == 4 && forall i, j :: 0 <= i < j < |RoleOptions| ==> RoleOptions[i] != RoleOptions[j]
    ensures |GenderOptions| == 3 && forall i, j :: 0 <= i < j < |GenderOptions| ==> GenderOptions[i] != GenderOptions[j]
  {
  }

  // ---- the users table ----

  /**
   * A row of `users`. `username` and `cpf` are unique columns; `password`
   * holds the hash; `gender` and `role` hold labels of the enumerations.
   */
  datatype User = User(
    id: int, username: string, password: string, firstName: string, lastName: Option<string>,
    phone: string, cpf: string, gender: Gender, role: Role, profileImageUrl: Option<string>,
    createdAt: Instant, updatedAt: Instant)

  /** A user as every response sends it: `const { password: _, ...rest } = user`. */
  datatype PublicUser = PublicUser(
    id: int, username: string, firstName: string, lastName: Option<string>,
    phone: string, cpf: string, gender: Gender, role: Role, profileImageUrl: Option<string>,
    createdAt: Instant, updatedAt: Instant)

  function WithoutPassword(u: User): PublicUser {
    PublicUser(u.id, u.username, u.firstName, u.lastName, u.phone, u.cpf, u.gender, u.role,
      u.profileImageUrl, u.createdAt, u.updatedAt)
  }

  /** What a response shows does not depend on the password, and it shows every other column. */
  lemma WithoutPasswordHidesOnlyPassword(a: User, b: User)
    ensures WithoutPassword(a) == WithoutPassword(b) <==> a.(password := b.password) == b
  {
  }

  /**
   * What an insert supplies: the columns of `insertUserSchema`, which leaves
   * out id, createdAt, updatedAt and profileImageUrl.
   */
  datatype InsertUser = InsertUser(
    username: string, password: string, firstName: string, lastName: Option<string>,
    phone: string, cpf: string, gender: Gender, role: Role)

  /** The row an insert creates: the next serial id, no profile image, both timestamps `now`. */
  function NewUser(id: int, ins: InsertUser, now: Instant): (u: User)
    ensures u.id == id && u.profileImageUrl.None? && u.createdAt == now && u.updatedAt == now
    ensures u.username == ins.username && u.password == ins.password && u.cpf == ins.cpf && u.role == ins.role
    ensures u.firstName == ins.firstName && u.lastName == ins.lastName && u.phone == ins.phone && u.gender == ins.gender
  {
    User(id, ins.username, ins.password, ins.firstName, ins.lastName, ins.phone, ins.cpf,
      ins.gender, ins.role, None, now, now)
  }

  /** The columns an update may set; `Keep` for a key absent from the data. */
  datatype UserPatch = UserPatch(
    firstName: Patch<string>, lastName: Patch<Option<string>>, phone: Patch<string>, cpf: Patch<string>,
    gender: Patch<Gender>, role: Patch<Role>, password: Patch<string>, profileImageUrl: Patch<Option<string>>)

  const NoUserChanges: UserPatch := UserPatch(Keep, Keep, Keep, Keep, Keep, Keep, Keep, Keep)

  /**
   * `set({ ...data, updatedAt: now })`: each supplied column takes the
   * supplied value, every column left out keeps its value, and `updatedAt` is
   * stamped; id, username and createdAt are never among the columns set.
   */
  function ApplyUserPatch(u: User, p: UserPatch, now: Instant): (r: User)
    ensures r.id == u.id && r.username == u.username && r.createdAt == u.createdAt && r.updatedAt == now
    ensures (p.firstName.Keep? ==> r.firstName == u.firstName) && (p.firstName.Put? ==> r.firstName == p.firstName.value)
    ensures (p.lastName.Keep? ==> r.lastName == u.lastName) && (p.lastName.Put? ==> r.lastName == p.lastName.value)
    ensures (p.phone.Keep? ==> r.phone == u.phone) && (p.phone.Put? ==> r.phone == p.phone.value)
    ensures (p.cpf.Keep? ==> r.cpf == u.cpf) && (p.cpf.Put? ==> r.cpf == p.cpf.value)
    ensures (p.gender.Keep? ==> r.gender == u.gender) && (p.gender.Put? ==> r.gender == p.gender.value)
    ensures (p.role.Keep? ==> r.role == u.role) && (p.role.Put? ==> r.role == p.role.value)
    ensures (p.password.Keep? ==> r.password == u.password) && (p.password.Put? ==> r.password == p.password.value)
    ensures (p.profileImageUrl.Keep? ==> r.profileImageUrl == u.profileImageUrl) && (p.profileImageUrl.Put? ==> r.profileImageUrl == p.profileImageUrl.value)
  {
    u.(firstName := p.firstName.ApplyTo(u.firstName), lastName := p.lastName.ApplyTo(u.lastName),
       phone := p.phone.ApplyTo(u.phone), cpf := p.cpf.ApplyTo(u.cpf),
       gender := p.gender.ApplyTo(u.gender), role := p.role.ApplyTo(u.role),
       password := p.password.ApplyTo(u.password),
       profileImageUrl := p.profileImageUrl.ApplyTo(u.profileImageUrl), updatedAt := now)
  }

  /** An update that supplies nothing changes the row only in its `updatedAt`. */
  lemma EmptyPatchStampsOnly(u: User, now: Instant)
    ensures ApplyUserPatch(u, NoUserChanges, now) == u.(updatedAt := now)
  {
  }


  // ---- validators ----

  const UsernameRule: Rule := Str(3, "Usuário deve ter no mínimo 3 caracteres")
  const PasswordRule: Rule := Str(6, "Senha deve ter no mínimo 6 caracteres")
  const FirstNameRule: Rule := Str(2, "Nome é obrigatório")
  const PhoneRule: Rule := Str(10, "Telefone inválido")
  const CpfRule: Rule := Str(11, "CPF inválido")

  /** `loginSchema`. */
  const LoginRule: Rule := Object([Field("username", UsernameRule), Field("password", PasswordRule)])

  /**
   * `registerSchema`: the insert schema's keys in column order, with the
   * overridden keys keeping their place.
   */
  const RegisterRule: Rule := Object([
    Field("username", UsernameRule),
    Field("password", PasswordRule),
    Field("firstName", FirstNameRule),
    Field("lastName", Optional(Nullable(Str(0, "")))),
    Field("phone", PhoneRule),
    Field("cpf", CpfRule),
    Field("gender", Enum(GenderOptions, Some("Sexo é obrigatório"))),
    Field("role", Enum(RoleOptions, Some("Cargo é obrigatório")))])

  /** `updateUserSchema`: every key optional; `lastName` may also be null. */
  const UpdateUserRule: Rule := Object([
    Field("firstName", Optional(FirstNameRule)),
    Field("lastName", Nullable(Optional(Str(0, "")))),
    Field("phone", Optional(PhoneRule)),
    Field("cpf", Optional(CpfRule)),
    Field("gender", Optional(Enum(GenderOptions, None))),
    Field("role", Optional(Enum(RoleOptions, None))),
    Field("password", Optional(PasswordRule))])

  datatype LoginInput = LoginInput(username: string, password: string)

  datatype RegisterInput = RegisterInput(
    username: string, password: string, firstName: string, lastName: Option<string>,
    phone: string, cpf: string, gender: Gender, role: Role)

  /** The parsed update: an `Optional` field is `None` when its key is absent. */
  datatype UpdateUserInput = UpdateUserInput(
    firstName: Option<string>, lastName: Patch<Option<string>>, phone: Option<string>, cpf: Option<string>,
    gender: Option<Gender>, role: Option<Role>, password: Option<string>)

  /** A string under `key` when there is one. */
  function OptionalStringAt(m: map<string, Json>, key: string): (r: Option<string>)
    ensures r.Some? <==> key in m && m[key].JStr?
    ensures r.Some? ==> m[key] == JStr(r.value)
  {
    if key in m && m[key].JStr? then Some(m[key].s) else None
  }

  /** `loginSchema.parse(body)`, reporting the first issue as a validation error. */
  function ParseLogin(body: Json): (r: Result<LoginInput, ErrorBody>)
    ensures r.Ok? <==> Conforms(Some(body), LoginRule)
    ensures r.Err? ==> Check(Some(body), LoginRule).Some? && r.error == ValidationError(Check(Some(body), LoginRule).value)
    ensures r.Ok? ==>
      (body.JObj?
       && "username" in body.fields && body.fields["username"] == JStr(r.value.username)
       && "password" in body.fields && body.fields["password"] == JStr(r.value.password))
  {
    CheckIff(Some(body), LoginRule);
    match Check(Some(body), LoginRule)
    case Some(issue) => Err(ValidationError(issue))
    case None =>
      assert FieldConforms(body.fields, LoginRule.fields[0]) && FieldConforms(body.fields, LoginRule.fields[1]);
      Ok(LoginInput(StringAt(body.fields, "username"), StringAt(body.fields, "password")))
  }

  /** A login body is accepted exactly when it has a username of at least 3 and a password of at least 6 characters. */
  lemma LoginAcceptsIff(body: Json)
    ensures ParseLogin(body).Ok? <==>
      body.JObj? && OptionalStringAt(body.fields, "username").Some? && OptionalStringAt(body.fields, "password").Some?
      && Utf16Length(body.fields["username"].s) >= 3 && Utf16Length(body.fields["password"].s) >= 6
  {
    if body.JObj? {
      assert FieldConforms(body.fields, LoginRule.fields[0]) == Conforms(Lookup(body.fields, "username"), UsernameRule);
      assert FieldConforms(body.fields, LoginRule.fields[1]) == Conforms(Lookup(body.fields, "password"), PasswordRule);
      assert Conforms(Some(body), LoginRule) <==>
        FieldConforms(body.fields, LoginRule.fields[0]) && FieldConforms(body.fields, LoginRule.fields[1]);
    }
  }

  /** `registerSchema.parse(body)`, reporting the first issue as a validation error. */
  function ParseRegister(body: Json): (r: Result<RegisterInput, ErrorBody>)
    ensures r.Ok? <==> Conforms(Some(body), RegisterRule)
    ensures r.Err? ==> Check(Some(body), RegisterRule).Some? && r.error == ValidationError(Check(Some(body), RegisterRule).value)
    ensures r.Ok? ==> body.JObj? && RegisterRead(body.fields, r.value)
  {
    CheckIff(Some(body), RegisterRule);
    match Check(Some(body), RegisterRule)
    case Some(issue) => Err(ValidationError(issue))
    case None => ReadRegisterRead(body.fields); Ok(ReadRegister(body.fields))
  }

  /** The typed input read from a body every key of which conforms. */
  function ReadRegister(m: map<string, Json>): RegisterInput
    requires forall j :: 0 <= j < |RegisterRule.fields| ==> FieldConforms(m, RegisterRule.fields[j])
  {
    assert FieldConforms(m, RegisterRule.fields[6]) && FieldConforms(m, RegisterRule.fields[7]);
    var gender := ParseGender(StringAt(m, "gender"));
    var role := ParseRole(StringAt(m, "role"));
    RegisterInput(StringAt(m, "username"), StringAt(m, "password"), StringAt(m, "firstName"),
      NullableStringAt(m, "lastName"), StringAt(m, "phone"), StringAt(m, "cpf"), gender.value, role.value)
  }

  lemma ReadRegisterRead(m: map<string, Json>)
    requires forall j :: 0 <= j < |RegisterRule.fields| ==> FieldConforms(m, RegisterRule.fields[j])
    ensures RegisterRead(m, ReadRegister(m))
  {
    assert FieldConforms(m, RegisterRule.fields[0]) && FieldConforms(m, RegisterRule.fields[1]);
    assert FieldConforms(m, RegisterRule.fields[2]) && FieldConforms(m, RegisterRule.fields[4]);
    assert FieldConforms(m, RegisterRule.fields[5]) && FieldConforms(m, RegisterRule.fields[6]);
    assert FieldConforms(m, RegisterRule.fields[7]);
  }

  /** `x` is what the body `m` says, key by key. */
  predicate RegisterRead(m: map<string, Json>, x: RegisterInput) {
    OptionalStringAt(m, "username") == Some(x.username) && OptionalStringAt(m, "password") == Some(x.password)
    && OptionalStringAt(m, "firstName") == Some(x.firstName) && x.lastName == NullableStringAt(m, "lastName")
    && OptionalStringAt(m, "phone") == Some(x.phone) && OptionalStringAt(m, "cpf") == Some(x.cpf)
    && OptionalStringAt(m, "gender") == Some(GenderLabel(x.gender)) && OptionalStringAt(m, "role") == Some(RoleLabel(x.role))
  }

  /**
   * An accepted registration has a username of at least 3, a password of at
   * least 6, a first name of at least 2, a phone of at least 10 and a cpf of
   * at least 11 characters.
   */
  lemma RegisterMinimums(body: Json)
    requires ParseRegister(body).Ok?
    ensures var x := ParseRegister(body).value;
      Utf16Length(x.username) >= 3 && Utf16Length(x.password) >= 6 && Utf16Length(x.firstName) >= 2
      && Utf16Length(x.phone) >= 10 && Utf16Length(x.cpf) >= 11
  {
    var m := body.fields;
    assert forall j :: 0 <= j < 8 ==> FieldConforms(m, RegisterRule.fields[j]);
    assert FieldConforms(m, RegisterRule.fields[0]) && FieldConforms(m, RegisterRule.fields[1]);
    assert FieldConforms(m, RegisterRule.fields[2]) && FieldConforms(m, RegisterRule.fields[4]);
    assert FieldConforms(m, RegisterRule.fields[5]);
  }

  /** Conversely, every body meeting those minimums, with a gender and a role of the enumerations, is accepted. */
  lemma RegisterAccepts(m: map<string, Json>, x: RegisterInput)
    requires RegisterRead(m, x)
    requires Utf16Length(x.username) >= 3 && Utf16Length(x.password) >= 6 && Utf16Length(x.firstName) >= 2
    requires Utf16Length(x.phone) >= 10 && Utf16Length(x.cpf) >= 11
    requires "lastName" in m ==> m["lastName"] == JNull || m["lastName"].JStr?
    ensures ParseRegister(JObj(m)) == Ok(x)
  {
    EnumerationsAreLabels(x.role, x.gender);
    forall j | 0 <= j < |RegisterRule.fields| ensures FieldConforms(m, RegisterRule.fields[j]) {
    }
  }

  /**
   * The error of a refused registration is that of the first key, in the
   * order username, password, firstName, lastName, phone, cpf, gender, role,
   * that does not conform, and it names that key.
   */
  lemma RegisterReportsFirstFailure(m: map<string, Json>, k: nat)
    requires k < |RegisterRule.fields|
    requires forall j :: 0 <= j < k ==> FieldConforms(m, RegisterRule.fields[j])
    requires !FieldConforms(m, RegisterRule.fields[k])
    ensures ParseRegister(JObj(m)).Err?
    ensures ParseRegister(JObj(m)).error.field == Some(RegisterRule.fields[k].key)
  {
    FirstFailingKey(m, RegisterRule, k);
  }

  /** A missing gender, after valid earlier keys, is reported with the schema's own message. */
  lemma MissingGenderMessage(m: map<string, Json>)
    requires forall j :: 0 <= j < 6 ==> FieldConforms(m, RegisterRule.fields[j])
    requires "gender" !in m
    ensures ParseRegister(JObj(m)) == Err(ErrorBody("Sexo é obrigatório", Some("gender")))
  {
    FirstFailingKey(m, RegisterRule, 6);
  }

  /** A role outside the enumeration, after valid earlier keys, is refused on `role`. */
  lemma UnknownRoleRefused(m: map<string, Json>, role: string)
    requires forall j :: 0 <= j < 7 ==> FieldConforms(m, RegisterRule.fields[j])
    requires "role" in m && m["role"] == JStr(role) && role !in RoleOptions
    ensures ParseRegister(JObj(m)) == Err(ErrorBody(EnumMessage(RoleOptions, role), Some("role")))
  {
    FirstFailingKey(m, RegisterRule, 7);
  }

  /** Two bodies that agree on every declared key read as the same input. */
  lemma ReadRegisterOnKeys(m: map<string, Json>, n: map<string, Json>)
    requires forall j :: 0 <= j < |RegisterRule.fields| ==> FieldConforms(m, RegisterRule.fields[j])
    requires forall j :: 0 <= j < |RegisterRule.fields| ==> FieldConforms(n, RegisterRule.fields[j])
    requires forall j :: 0 <= j < |RegisterRule.fields| ==>
      Lookup(m, RegisterRule.fields[j].key) == Lookup(n, RegisterRule.fields[j].key)
    ensures ReadRegister(m) == ReadRegister(n)
  {
    assert Lookup(m, RegisterRule.fields[0].key) == Lookup(n, RegisterRule.fields[0].key);
    assert Lookup(m, RegisterRule.fields[1].key) == Lookup(n, RegisterRule.fields[1].key);
    assert Lookup(m, RegisterRule.fields[2].key) == Lookup(n, RegisterRule.fields[2].key);
    assert Lookup(m, RegisterRule.fields[3].key) == Lookup(n, RegisterRule.fields[3].key);
    assert Lookup(m, RegisterRule.fields[4].key) == Lookup(n, RegisterRule.fields[4].key);
    assert Lookup(m, RegisterRule.fields[5].key) == Lookup(n, RegisterRule.fields[5].key);
    assert Lookup(m, RegisterRule.fields[6].key) == Lookup(n, RegisterRule.fields[6].key);
    assert Lookup(m, RegisterRule.fields[7].key) == Lookup(n, RegisterRule.fields[7].key);
  }

  /** Keys the schema omits, such as `id`, `createdAt` or `profileImageUrl`, are stripped: they change nothing. */
  lemma RegisterIgnoresUndeclaredKey(m: map<string, Json>, key: string, v: Json)
    requires NotAKey(RegisterRule, key)
    ensures ParseRegister(JObj(m[key := v])) == ParseRegister(JObj(m))
  {
    var n := m[key := v];
    UnknownKeyIgnored(m, RegisterRule, 0, key, v);
    assert Check(Some(JObj(n)), RegisterRule) == Check(Some(JObj(m)), RegisterRule);
    if Check(Some(JObj(m)), RegisterRule).None? {
      CheckIff(Some(JObj(m)), RegisterRule);
      CheckIff(Some(JObj(n)), RegisterRule);
      forall j | 0 <= j < |RegisterRule.fields|
        ensures Lookup(m, RegisterRule.fields[j].key) == Lookup(n, RegisterRule.fields[j].key)
      {
        assert RegisterRule.fields[j].key != key;
      }
      ReadRegisterOnKeys(m, n);
    }
  }

  /** `updateUserSchema.parse(body)`, reporting the first issue as a validation error. */
  function ParseUpdateUser(body: Json): (r: Result<UpdateUserInput, ErrorBody>)
    ensures r.Ok? <==> Conforms(Some(body), UpdateUserRule)
    ensures r.Err? ==> Check(Some(body), UpdateUserRule).Some? && r.error == ValidationError(Check(Some(body), UpdateUserRule).value)
    ensures r.Ok? ==> body.JObj? && UpdateRead(body.fields, r.value)
  {
    CheckIff(Some(body), UpdateUserRule);
    match Check(Some(body), UpdateUserRule)
    case Some(issue) => Err(ValidationError(issue))
    case None => ReadUpdateRead(body.fields); Ok(ReadUpdate(body.fields))
  }

  /** The typed update read from a body: absent keys give `None`, or `Keep` for `lastName`. */
  function ReadUpdate(m: map<string, Json>): UpdateUserInput {
    var gender := match OptionalStringAt(m, "gender") case Some(s) => ParseGender(s) case None => None;
    var role := match OptionalStringAt(m, "role") case Some(s) => ParseRole(s) case None => None;
    var lastName := if "lastName" !in m then Keep else Put(NullableStringAt(m, "lastName"));
    UpdateUserInput(OptionalStringAt(m, "firstName"), lastName, OptionalStringAt(m, "phone"),
      OptionalStringAt(m, "cpf"), gender, role, OptionalStringAt(m, "password"))
  }

  /** What a conforming update body holds under each key that is present. */
  lemma UpdateKeysConform(m: map<string, Json>)
    requires forall j :: 0 <= j < |UpdateUserRule.fields| ==> FieldConforms(m, UpdateUserRule.fields[j])
    ensures "firstName" in m ==> m["firstName"].JStr? && Utf16Length(m["firstName"].s) >= 2
    ensures "phone" in m ==> m["phone"].JStr? && Utf16Length(m["phone"].s) >= 10
    ensures "cpf" in m ==> m["cpf"].JStr? && Utf16Length(m["cpf"].s) >= 11
    ensures "password" in m ==> m["password"].JStr? && Utf16Length(m["password"].s) >= 6
    ensures "gender" in m ==> m["gender"].JStr? && m["gender"].s in GenderOptions
    ensures "role" in m ==> m["role"].JStr? && m["role"].s in RoleOptions
  {
    var fs := UpdateUserRule.fields;
    OptionalStrField(m, fs[0]);
    OptionalStrField(m, fs[2]);
    OptionalStrField(m, fs[3]);
    OptionalStrField(m, fs[6]);
    OptionalEnumField(m, fs[4]);
    OptionalEnumField(m, fs[5]);
  }

  /** A present key of an optional string field is a string of at least the field's minimum length. */
  lemma OptionalStrField(m: map<string, Json>, f: Field)
    requires f.rule.Optional? && f.rule.inner.Str? && FieldConforms(m, f)
    ensures f.key in m ==> m[f.key].JStr? && Utf16Length(m[f.key].s) >= f.rule.inner.min
  {
    if f.key in m {
      assert Lookup(m, f.key) == Some(m[f.key]);
      assert Conforms(Lookup(m, f.key), f.rule.inner);
    }
  }

  /** A present key of an optional enum field is one of the field's options. */
  lemma OptionalEnumField(m: map<string, Json>, f: Field)
    requires f.rule.Optional? && f.rule.inner.Enum? && FieldConforms(m, f)
    ensures f.key in m ==> m[f.key].JStr? && m[f.key].s in f.rule.inner.options
  {
    if f.key in m {
      assert Lookup(m, f.key) == Some(m[f.key]);
      assert Conforms(Lookup(m, f.key), f.rule.inner);
    }
  }

  lemma ReadUpdateRead(m: map<string, Json>)
    requires forall j :: 0 <= j < |UpdateUserRule.fields| ==> FieldConforms(m, UpdateUserRule.fields[j])
    ensures UpdateRead(m, ReadUpdate(m))
  {
    UpdateKeysConform(m);
  }

  /** `x` is what the body `m` says: each field present exactly when its key is, `lastName` possibly null. */
  predicate UpdateRead(m: map<string, Json>, x: UpdateUserInput) {
    x.firstName == OptionalStringAt(m, "firstName") && (x.firstName.Some? <==> "firstName" in m)
    && x.phone == OptionalStringAt(m, "phone") && (x.phone.Some? <==> "phone" in m)
    && x.cpf == OptionalStringAt(m, "cpf") && (x.cpf.Some? <==> "cpf" in m)
    && x.password == OptionalStringAt(m, "password") && (x.password.Some? <==> "password" in m)
    && (x.gender.Some? <==> "gender" in m) && (x.gender.Some? ==> m["gender"] == JStr(GenderLabel(x.gender.value)))
    && (x.role.Some? <==> "role" in m) && (x.role.Some? ==> m["role"] == JStr(RoleLabel(x.role.value)))
    && (x.lastName.Keep? <==> "lastName" !in m)
    && (x.lastName.Put? ==> x.lastName.value == NullableStringAt(m, "lastName"))
  }

  /** Every key of an update is optional: the empty body is accepted and supplies nothing. */
  lemma EmptyUpdateAccepted()
    ensures ParseUpdateUser(JObj(map[])) == Ok(UpdateUserInput(None, Keep, None, None, None, None, None))
  {
    forall j | 0 <= j < |UpdateUserRule.fields| ensures FieldConforms(map[], UpdateUserRule.fields[j]) { }
    assert Conforms(Some(JObj(map[])), UpdateUserRule);
  }

  /** Any key that is present obeys the same minimum lengths as at registration. */
  lemma UpdateMinimums(body: Json)
    requires ParseUpdateUser(body).Ok?
    ensures var x := ParseUpdateUser(body).value;
      (x.firstName.Some? ==> Utf16Length(x.firstName.value) >= 2)
      && (x.phone.Some? ==> Utf16Length(x.phone.value) >= 10)
      && (x.cpf.Some? ==> Utf16Length(x.cpf.value) >= 11)
      && (x.password.Some? ==> Utf16Length(x.password.value) >= 6)
  {
    UpdateKeysConform(body.fields);
  }

  /** A present key that is too short is refused once the keys before it are valid, and the error names it. */
  lemma UpdateShortPasswordRefused(m: map<string, Json>, password: string)
    requires forall j :: 0 <= j < 6 ==> FieldConforms(m, UpdateUserRule.fields[j])
    requires "password" in m && m["password"] == JStr(password) && Utf16Length(password) < 6
    ensures ParseUpdateUser(JObj(m)) == Err(ErrorBody("Senha deve ter no mínimo 6 caracteres", Some("password")))
  {
    FirstFailingKey(m, UpdateUserRule, 6);
  }
}
