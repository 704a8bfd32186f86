/**
 * Registration, login, the two gates in front of protected routes, the
 * profile routes and the administrators' user management. The password
 * hash is a parameter `hash`, and checking a password against a stored hash
 * is a parameter `verify`.
 */
module AuthRoutes {
  import opened Wrappers
  import opened Time
  import opened Tables
  import opened Text
  import opened Storage
  import opened Zod
  import opened Api
  import opened Routes
  import opened AuthSchema
  import opened AuthStore

  const UsernameTakenMessage: string := "Nome de usuário já existe"
  const CpfTakenMessage: string := "CPF já cadastrado"
  const BadCredentials: string := "Usuário ou senha inválidos"
  const UserNotFound: string := "Usuário não encontrado"
  const OwnAccountMessage: string := "Você não pode excluir sua própria conta"
  const AdminsOnly: string := "Acesso negado. Apenas administradores."

  /** The visitor's session; `userId` is set once they register or log in. */
  class Session {
    var userId: Option<int>

    constructor ()
      ensures userId.None?
    {
      userId := None;
    }
  }

  /** What a gate decides: let the request through, or answer it. */
  datatype Gate = Pass | Deny(status: int, error: ErrorBody)

  /** `isAuthenticated`: a request passes exactly when its session holds a user id. */
  function IsAuthenticated(session: Session): (g: Gate)
    reads session
    ensures g.Pass? <==> TruthyId(session.userId)
    ensures g.Deny? ==> g == Deny(401, Message("Unauthorized"))
  {
    if !TruthyId(session.userId) then Deny(401, Message("Unauthorized")) else Pass
  }

  /**
   * `isAdmin`: 401 without a session; 403 unless the session's user exists
   * and is an administrator.
   */
  function IsAdmin(db: AuthStorage, session: Session): (g: Gate)
    reads db, session
    ensures g.Pass? <==>
      TruthyId(session.userId) && session.userId.value in db.users && db.users[session.userId.value].role == Administrator
    ensures !TruthyId(session.userId) ==> g == Deny(401, Message("Unauthorized"))
    ensures TruthyId(session.userId) && g.Deny? ==> g == Deny(403, Message(AdminsOnly))
  {
    if !TruthyId(session.userId) then Deny(401, Message("Unauthorized"))
    else
      var user := db.GetUser(session.userId.value);
      if user.None? || user.value.role != Administrator then Deny(403, Message(AdminsOnly))
      else Pass
  }

  /** An administrator's session always passes the authentication gate too. */
  lemma AdminIsAuthenticated(db: AuthStorage, session: Session)
    requires IsAdmin(db, session).Pass?
    ensures IsAuthenticated(session).Pass?
  {
  }

  /** The rows in the order given, each without its password. */
  function Public(s: seq<User>): (r: seq<PublicUser>)
    ensures |r| == |s| && forall i :: 0 <= i < |s| ==> r[i] == WithoutPassword(s[i])
  {
    seq(|s|, i requires 0 <= i < |s| => WithoutPassword(s[i]))
  }

  // ---- registration and login ----

  /** The insert a registration makes: the hashed password, and the role forced to "Vendedor". */
  function SelfRegistration(input: RegisterInput, hash: string -> string): (ins: InsertUser)
    ensures ins.role == Salesperson && ins.password == hash(input.password)
    ensures ins.username == input.username && ins.cpf == input.cpf
  {
    InsertUser(input.username, hash(input.password), input.firstName, input.lastName,
      input.phone, input.cpf, input.gender, Salesperson)
  }

  /** The insert an administrator's creation makes: the hashed password and the role as given. */
  function AdminCreation(input: RegisterInput, hash: string -> string): (ins: InsertUser)
    ensures ins.role == input.role && ins.password == hash(input.password)
    ensures ins.username == input.username && ins.cpf == input.cpf
  {
    InsertUser(input.username, hash(input.password), input.firstName, input.lastName,
      input.phone, input.cpf, input.gender, input.role)
  }

  /** The two registrations differ only in the role: whatever role is asked for, self-registration stores "Vendedor". */
  lemma RoleForcedOnRegistration(input: RegisterInput, hash: string -> string, asked: Role)
    ensures SelfRegistration(input.(role := asked), hash) == AdminCreation(input.(role := Salesperson), hash)
  {
  }

  /** The registration page's role field starts at "Vendedor". */
  const RegisterFormDefaultRole: string := "Vendedor"

  /** The page's default is the role the server stores for every self-registration anyway. */
  lemma DefaultRoleIsForcedRole(input: RegisterInput, hash: string -> string)
    ensures ParseRole(RegisterFormDefaultRole) == Some(SelfRegistration(input, hash).role)
  {
  }

  /**
   * The part of registration the public route and the administrators' route
   * share: validate, refuse a taken username, then a taken cpf, then insert.
   */
  method CreateChecked(db: AuthStorage, body: Json, now: Instant, hash: string -> string, selfService: bool)
    returns (reply: Reply<User>)
    requires db.Valid()
    modifies db
    ensures db.Valid()
    ensures ParseRegister(body).Err? ==> reply == Failure(400, ParseRegister(body).error) && db.users == old(db.users)
    ensures ParseRegister(body).Ok? && old(db.UsernameTaken(ParseRegister(body).value.username)) ==>
      reply == Failure(400, ErrorBody(UsernameTakenMessage, Some("username"))) && db.users == old(db.users)
    ensures (ParseRegister(body).Ok? && !old(db.UsernameTaken(ParseRegister(body).value.username))
             && old(db.CpfTaken(ParseRegister(body).value.cpf, 0))) ==>
      reply == Failure(400, ErrorBody(CpfTakenMessage, Some("cpf"))) && db.users == old(db.users)
    ensures (ParseRegister(body).Ok? && !old(db.UsernameTaken(ParseRegister(body).value.username))
             && !old(db.CpfTaken(ParseRegister(body).value.cpf, 0))) ==>
      var ins := if selfService then SelfRegistration(ParseRegister(body).value, hash)
                 else AdminCreation(ParseRegister(body).value, hash);
      reply == Success(201, NewUser(old(db.nextUserId), ins, now)) && db.users == old(db.users)[reply.body.id := reply.body]
    ensures reply.Success? || reply.Failure?
  {
    var parsed := ParseRegister(body);
    if parsed.Err? {
      return Failure(400, parsed.error);
    }
    var input := parsed.value;
    var existingUsername := db.GetUserByUsername(input.username);
    if existingUsername.Some? {
      return Failure(400, ErrorBody(UsernameTakenMessage, Some("username")));
    }
    var existingCpf := db.GetUserByCpf(input.cpf);
    if existingCpf.Some? {
      return Failure(400, ErrorBody(CpfTakenMessage, Some("cpf")));
    }
    var ins := if selfService then SelfRegistration(input, hash) else AdminCreation(input, hash);
    var created := db.CreateUser(ins, now);
    assert created.Ok?;
    return Success(201, created.value);
  }

  /** `POST /api/register`: the new user is logged in and sent back without the password. */
  method Register(db: AuthStorage, session: Session, body: Json, now: Instant, hash: string -> string)
    returns (reply: Reply<PublicUser>)
    requires db.Valid()
    modifies db, session
    ensures db.Valid()
    ensures ParseRegister(body).Err? ==> reply == Failure(400, ParseRegister(body).error)
    ensures reply.Failure? ==> db.users == old(db.users) && session.userId == old(session.userId)
    ensures reply.Success? <==>
      ParseRegister(body).Ok? && !old(db.UsernameTaken(ParseRegister(body).value.username))
      && !old(db.CpfTaken(ParseRegister(body).value.cpf, 0))
    ensures reply.Success? ==>
      reply.status == 201 && session.userId == Some(old(db.nextUserId)) && reply.body.id == old(db.nextUserId)
      && old(db.nextUserId) in db.users && db.users[old(db.nextUserId)].role == Salesperson
      && reply.body == WithoutPassword(db.users[old(db.nextUserId)])
      && db.users[old(db.nextUserId)].password == hash(ParseRegister(body).value.password)
  {
    var created := CreateChecked(db, body, now, hash, true);
    if created.Failure? {
      return Failure(created.status, created.error);
    }
    session.userId := Some(created.body.id);
    return Success(201, WithoutPassword(created.body));
  }

  /**
   * `POST /api/login`: an unknown username and a wrong password get the
   * same 401 answer; a match logs the user in.
   */
  method Login(db: AuthStorage, session: Session, body: Json, verify: (string, string) -> bool)
    returns (reply: Reply<PublicUser>)
    requires db.Valid()
    modifies session
    ensures ParseLogin(body).Err? ==> reply == Failure(400, ParseLogin(body).error)
    ensures ParseLogin(body).Ok? && !db.UsernameTaken(ParseLogin(body).value.username) ==>
      reply == Failure(401, Message(BadCredentials))
    ensures reply.Success? <==>
      ParseLogin(body).Ok?
      && exists k :: k in db.users && db.users[k].username == ParseLogin(body).value.username
                     && verify(ParseLogin(body).value.password, db.users[k].password)
    ensures reply.Success? ==>
      reply.status == 200 && session.userId == Some(reply.body.id) && reply.body.id in db.users
      && reply.body == WithoutPassword(db.users[reply.body.id])
      && db.users[reply.body.id].username == ParseLogin(body).value.username
    ensures ParseLogin(body).Ok? && !reply.Success? ==> reply == Failure(401, Message(BadCredentials))
    ensures !reply.Success? ==> session.userId == old(session.userId)
  {
    var parsed := ParseLogin(body);
    if parsed.Err? {
      return Failure(400, parsed.error);
    }
    var input := parsed.value;
    var user := db.GetUserByUsername(input.username);
    if user.None? {
      return Failure(401, Message(BadCredentials));
    }
    if !verify(input.password, user.value.password) {
      return Failure(401, Message(BadCredentials));
    }
    session.userId := Some(user.value.id);
    return Success(200, WithoutPassword(user.value));
  }

  /** `POST /api/logout`: the session is destroyed. */
  method Logout(session: Session) returns (reply: Reply<string>)
    modifies session
    ensures session.userId.None? && reply == Success(200, "Logout realizado com sucesso")
  {
    session.userId := None;
    return Success(200, "Logout realizado com sucesso");
  }

  // ---- the signed-in user's own profile ----

  /** `GET /api/auth/user`. */
  function CurrentUser(db: AuthStorage, session: Session): (reply: Reply<PublicUser>)
    reads db, session
    ensures IsAuthenticated(session).Deny? ==> reply == Failure(401, Message("Unauthorized"))
    ensures reply.Success? <==> TruthyId(session.userId) && session.userId.value in db.users
    ensures reply.Success? ==> reply == Success(200, WithoutPassword(db.users[session.userId.value]))
    ensures TruthyId(session.userId) && !reply.Success? ==> reply == Failure(401, Message("User not found"))
  {
    var gate := IsAuthenticated(session);
    if gate.Deny? then Failure(gate.status, gate.error)
    else
      var user := db.GetUser(session.userId.value);
      if user.None? then Failure(401, Message("User not found"))
      else Success(200, WithoutPassword(user.value))
  }

  const MaxProfileImageBytes: int := 5 * 1024 * 1024

  /** The profile upload's filter: an image extension and at most 5 MiB. */
  predicate ProfileImageAccepted(file: Option<Upload>) {
    file.None? || (AllowedImage(file.value.originalName) && file.value.size <= MaxProfileImageBytes)
  }

  /**
   * The record the profile handler builds from the form: a truthy first
   * name; a last name whenever the field is sent, the empty one as null;
   * the image path whenever a file came with the request. Nothing else.
   */
  function ProfilePatch(firstName: Option<string>, lastName: Option<string>, file: Option<Upload>): (p: UserPatch)
    ensures p.firstName.Put? <==> TruthyText(firstName)
    ensures p.firstName.Put? ==> p.firstName.value == firstName.value
    ensures p.lastName.Keep? <==> lastName.None?
    ensures lastName == Some("") ==> p.lastName == Put(None)
    ensures TruthyText(lastName) ==> p.lastName == Put(lastName)
    ensures p.profileImageUrl.Put? <==> file.Some?
    ensures file.Some? ==> p.profileImageUrl == Put(Some("/uploads/profiles/" + file.value.storedName))
    ensures p.phone.Keep? && p.cpf.Keep? && p.gender.Keep? && p.role.Keep? && p.password.Keep?
  {
    UserPatch(
      if TruthyText(firstName) then Put(firstName.value) else Keep,
      if lastName.None? then Keep else if lastName.value == "" then Put(None) else Put(Some(lastName.value)),
      Keep, Keep, Keep, Keep, Keep,
      if file.Some? then Put(Some("/uploads/profiles/" + file.value.storedName)) else Keep)
  }

  /**
   * `PUT /api/auth/profile`, with the form's text fields and the stored
   * upload. A form that changes nothing returns the user as stored, without
   * writing; otherwise the built record is written and `updatedAt` stamped.
   */
  method UpdateProfile(db: AuthStorage, session: Session, firstName: Option<string>, lastName: Option<string>,
                       file: Option<Upload>, now: Instant)
    returns (reply: Reply<PublicUser>)
    requires db.Valid()
    modifies db
    ensures db.Valid()
    ensures IsAuthenticated(session).Deny? ==> reply == Failure(401, Message("Unauthorized"))
    ensures IsAuthenticated(session).Pass? && !ProfileImageAccepted(file) ==> reply == Unhandled
    ensures IsAuthenticated(session).Pass? && ProfileImageAccepted(file) && session.userId.value !in old(db.users) ==>
      reply == Failure(404, Message(UserNotFound))
    ensures !reply.Success? || ProfilePatch(firstName, lastName, file) == NoUserChanges ==> db.users == old(db.users)
    ensures reply.Success? ==> TruthyId(session.userId) && session.userId.value in old(db.users)
    ensures reply.Success? && ProfilePatch(firstName, lastName, file) == NoUserChanges ==>
      reply == Success(200, WithoutPassword(old(db.users)[session.userId.value]))
    ensures reply.Success? && ProfilePatch(firstName, lastName, file) != NoUserChanges ==>
      var id := session.userId.value;
      db.users == old(db.users)[id := ApplyUserPatch(old(db.users)[id], ProfilePatch(firstName, lastName, file), now)]
      && reply == Success(200, WithoutPassword(db.users[id]))
    ensures IsAuthenticated(session).Pass? && ProfileImageAccepted(file) && session.userId.value in old(db.users) ==>
      reply.Success?
  {
    var gate := IsAuthenticated(session);
    if gate.Deny? {
      return Failure(gate.status, gate.error);
    }
    if !ProfileImageAccepted(file) {
      return Unhandled;
    }
    var userId := session.userId.value;
    var user := db.GetUser(userId);
    if user.None? {
      return Failure(404, Message(UserNotFound));
    }
    var patch := ProfilePatch(firstName, lastName, file);
    if patch == NoUserChanges {
      return Success(200, WithoutPassword(user.value));
    }
    var updated := db.UpdateUser(userId, patch, now);
    assert updated == Ok(Some(db.users[userId]));
    return Success(200, WithoutPassword(updated.value.value));
  }

  /** `DELETE /api/auth/profile-image`: the image path becomes null, whether or not there was one. */
  method DeleteProfileImage(db: AuthStorage, session: Session, now: Instant) returns (reply: Reply<PublicUser>)
    requires db.Valid()
    modifies db
    ensures db.Valid()
    ensures IsAuthenticated(session).Deny? ==> reply == Failure(401, Message("Unauthorized")) && db.users == old(db.users)
    ensures IsAuthenticated(session).Pass? && session.userId.value !in old(db.users) ==>
      reply == Failure(404, Message(UserNotFound)) && db.users == old(db.users)
    ensures IsAuthenticated(session).Pass? && session.userId.value in old(db.users) ==>
      var id := session.userId.value;
      db.users == old(db.users)[id := old(db.users)[id].(profileImageUrl := None, updatedAt := now)]
      && reply == Success(200, WithoutPassword(db.users[id]))
  {
    var gate := IsAuthenticated(session);
    if gate.Deny? {
      return Failure(gate.status, gate.error);
    }
    var userId := session.userId.value;
    var user := db.GetUser(userId);
    if user.None? {
      return Failure(404, Message(UserNotFound));
    }
    var updated := db.UpdateUser(userId, NoUserChanges.(profileImageUrl := Put(None)), now);
    assert updated == Ok(Some(db.users[userId]));
    return Success(200, WithoutPassword(updated.value.value));
  }

  // ---- user management, for administrators ----

  /** `GET /api/users`: every user, newest first, none with a password. */
  function ListUsers(db: AuthStorage, session: Session): (reply: Reply<seq<PublicUser>>)
    reads db, session
    requires db.Valid()
    ensures IsAdmin(db, session).Deny? ==> reply == Failure(IsAdmin(db, session).status, IsAdmin(db, session).error)
    ensures IsAdmin(db, session).Pass? ==> reply == Success(200, Public(db.GetAllUsers()))
    ensures reply.Success? ==>
      (|reply.body| == |db.users|
       && forall i :: 0 <= i < |reply.body| ==> exists k :: k in db.users && reply.body[i] == WithoutPassword(db.users[k]))
  {
    var gate := IsAdmin(db, session);
    if gate.Deny? then Failure(gate.status, gate.error)
    else
      var all := db.GetAllUsers();
      assert forall i :: 0 <= i < |all| ==> Stored(db.users, all[i]);
      Success(200, Public(all))
  }

  /** `POST /api/users`: as registration, but the role is the one given and no one is logged in. */
  method AdminCreateUser(db: AuthStorage, session: Session, body: Json, now: Instant, hash: string -> string)
    returns (reply: Reply<PublicUser>)
    requires db.Valid()
    modifies db
    ensures db.Valid()
    ensures old(IsAdmin(db, session)).Deny? ==> reply.Failure? && db.users == old(db.users)
    ensures reply.Failure? ==> db.users == old(db.users)
    ensures reply.Success? <==>
      old(IsAdmin(db, session)).Pass? && ParseRegister(body).Ok?
      && !old(db.UsernameTaken(ParseRegister(body).value.username))
      && !old(db.CpfTaken(ParseRegister(body).value.cpf, 0))
    ensures reply.Success? ==>
      var ins := AdminCreation(ParseRegister(body).value, hash);
      reply == Success(201, WithoutPassword(NewUser(old(db.nextUserId), ins, now)))
      && db.users == old(db.users)[old(db.nextUserId) := NewUser(old(db.nextUserId), ins, now)]
  {
    var gate := IsAdmin(db, session);
    if gate.Deny? {
      return Failure(gate.status, gate.error);
    }
    var created := CreateChecked(db, body, now, hash, false);
    if created.Failure? {
      return Failure(created.status, created.error);
    }
    return Success(201, WithoutPassword(created.body));
  }

  /**
   * The record the administrators' update writes: the parsed keys as they
   * are, except that a truthy password is replaced by its hash and any other
   * password key is dropped.
   */
  function AdminPatch(input: UpdateUserInput, hash: string -> string): (p: UserPatch)
    ensures p.password.Put? <==> TruthyText(input.password)
    ensures p.password.Put? ==> p.password.value == hash(input.password.value)
    ensures p.cpf.Put? <==> input.cpf.Some?
    ensures p.role.Put? <==> input.role.Some?
    ensures p.lastName == input.lastName && p.profileImageUrl.Keep?
  {
    UserPatch(
      if input.firstName.Some? then Put(input.firstName.value) else Keep,
      input.lastName,
      if input.phone.Some? then Put(input.phone.value) else Keep,
      if input.cpf.Some? then Put(input.cpf.value) else Keep,
      if input.gender.Some? then Put(input.gender.value) else Keep,
      if input.role.Some? then Put(input.role.value) else Keep,
      if TruthyText(input.password) then Put(hash(input.password.value)) else Keep,
      Keep)
  }

  /** An update that does not send a password keeps the stored hash. */
  lemma UnsentPasswordKept(u: User, input: UpdateUserInput, hash: string -> string, now: Instant)
    requires input.password.None?
    ensures ApplyUserPatch(u, AdminPatch(input, hash), now).password == u.password
  {
  }

  /** The cpf check the update handler makes: only a truthy cpf different from the current one is looked up. */
  predicate CpfNeedsCheck(input: UpdateUserInput, current: User) {
    TruthyText(input.cpf) && input.cpf.value != current.cpf
  }

  /**
   * `PUT /api/users/:id`: validate, 404 for an unknown id, 400 on `cpf` when
   * a new cpf belongs to someone else, then write the built record.
   */
  method AdminUpdateUser(db: AuthStorage, session: Session, userId: int, body: Json, now: Instant,
                         hash: string -> string)
    returns (reply: Reply<PublicUser>)
    requires db.Valid()
    modifies db
    ensures db.Valid()
    ensures !reply.Success? ==> db.users == old(db.users)
    ensures old(IsAdmin(db, session)).Pass? && ParseUpdateUser(body).Err? ==>
      reply == Failure(400, ParseUpdateUser(body).error)
    ensures old(IsAdmin(db, session)).Pass? && ParseUpdateUser(body).Ok? && userId !in old(db.users) ==>
      reply == Failure(404, Message(UserNotFound))
    ensures old(IsAdmin(db, session)).Pass? && ParseUpdateUser(body).Ok? && userId in old(db.users) ==>
      var input := ParseUpdateUser(body).value;
      if CpfNeedsCheck(input, old(db.users)[userId]) && old(db.CpfTaken(input.cpf.value, 0)) then
        reply == Failure(400, ErrorBody(CpfTakenMessage, Some("cpf")))
      else
        db.users == old(db.users)[userId := ApplyUserPatch(old(db.users)[userId], AdminPatch(input, hash), now)]
        && reply == Success(200, WithoutPassword(db.users[userId]))
    ensures reply.Success? ==> old(IsAdmin(db, session)).Pass?
  {
    var gate := IsAdmin(db, session);
    if gate.Deny? {
      return Failure(gate.status, gate.error);
    }
    var parsed := ParseUpdateUser(body);
    if parsed.Err? {
      return Failure(400, parsed.error);
    }
    var input := parsed.value;
    var existing := db.GetUser(userId);
    if existing.None? {
      return Failure(404, Message(UserNotFound));
    }
    if TruthyText(input.cpf) && input.cpf.value != existing.value.cpf {
      var holder := db.GetUserByCpf(input.cpf.value);
      if holder.Some? {
        return Failure(400, ErrorBody(CpfTakenMessage, Some("cpf")));
      }
    }
    UpdateMinimums(body);
    assert input.cpf.Some? ==> input.cpf.value != "" by {
      if input.cpf.Some? {
        assert Utf16Length(input.cpf.value) >= 11;
      }
    }
    var patch := AdminPatch(input, hash);
    assert !(patch.cpf.Put? && db.CpfTaken(patch.cpf.value, userId));
    var updated := db.UpdateUser(userId, patch, now);
    assert updated == Ok(Some(db.users[userId]));
    return Success(200, WithoutPassword(updated.value.value));
  }

  /** `DELETE /api/users/:id`: never the caller's own account, never an unknown id. */
  method AdminDeleteUser(db: AuthStorage, session: Session, userId: int) returns (reply: Reply<()>)
    requires db.Valid()
    modifies db
    ensures db.Valid()
    ensures old(IsAdmin(db, session)).Pass? && Some(userId) == session.userId ==>
      reply == Failure(400, Message(OwnAccountMessage))
    ensures old(IsAdmin(db, session)).Pass? && Some(userId) != session.userId && userId !in old(db.users) ==>
      reply == Failure(404, Message(UserNotFound))
    ensures reply.Success? <==>
      old(IsAdmin(db, session)).Pass? && Some(userId) != session.userId && userId in old(db.users)
    ensures reply.Success? ==> reply.status == 204 && db.users == old(db.users) - {userId}
    ensures !reply.Success? ==> db.users == old(db.users)
  {
    var gate := IsAdmin(db, session);
    if gate.Deny? {
      return Failure(gate.status, gate.error);
    }
    if Some(userId) == session.userId {
      return Failure(400, Message(OwnAccountMessage));
    }
    var user := db.GetUser(userId);
    if user.None? {
      return Failure(404, Message(UserNotFound));
    }
    db.DeleteUser(userId);
    return Success(204, ());
  }
}
