/** The backend's authentication routes: the two login endpoints, the
    profile update and sign-up. Password hashing and verification and token
    creation are calls into libraries; they are taken as given functions (a
    `Security` value), and the users table is a sequence of rows. */
module Auth {
  import opened Util
  import opened Text

  datatype HttpError = HttpError(status: int, detail: string)

  /** A route's result: its response body, or the HTTP error it raises. */
  datatype Outcome<T> = Ok(value: T) | Fail(error: HttpError)

  const IncorrectCredentials: HttpError := HttpError(400, "Incorrect email or password")
  const InvalidPayload: HttpError := HttpError(422, "Invalid login payload. Provide email and password.")
  const InternalServerError: HttpError := HttpError(500, "Internal Server Error")
  const InvalidToken: HttpError := HttpError(401, "Invalid token")
  const UserNotFound: HttpError := HttpError(404, "User not found")
  const EmailInUse: HttpError := HttpError(400, "Email already in use")
  const NewPasswordRequired: HttpError := HttpError(400, "New password required")
  const CurrentPasswordRequired: HttpError := HttpError(400, "Current password required")
  const IncorrectCurrentPassword: HttpError := HttpError(400, "Incorrect current password")
  const UserAlreadyExists: HttpError := HttpError(400, "The user with this username already exists in the system")

  /** The password hasher's `verify` and `hash` and the token issuer. */
  datatype Security = Security(verifyPassword: (string, string) -> bool,
                               hashPassword: string -> string,
                               createAccessToken: int -> string)

  datatype User = User(id: int, email: string, name: Option<string>, hashedPassword: string)
  datatype Token = Token(accessToken: string, tokenType: string)
  datatype LoginRequest = LoginRequest(email: string, password: string)

  const Bearer: string := "bearer"

  /** `.filter(User.email == email).first()`. */
  function FirstUserByEmail(users: seq<User>, email: string): (r: Option<User>)
    ensures r.None? <==> forall u :: u in users ==> u.email != email
    ensures r.Some? ==> r.value in users && r.value.email == email
  {
    var k := FirstIndex(users, (u: User) => u.email == email);
    if k >= 0 then Some(users[k]) else None
  }

  /** The position of `.filter(User.id == id).first()`, or -1. */
  function UserIndexById(users: seq<User>, id: int): (k: int)
    ensures -1 <= k < |users|
    ensures k >= 0 ==> users[k].id == id
    ensures k == -1 <==> forall u :: u in users ==> u.id != id
  {
    FirstIndex(users, (u: User) => u.id == id)
  }

  /** Shared by both login routes: look the user up by email, verify the
      password, issue a bearer token for the user's id. */
  function Authenticate(users: seq<User>, login: LoginRequest, sec: Security): Outcome<Token> {
    var user := FirstUserByEmail(users, login.email);
    if user.None? then Fail(IncorrectCredentials)
    else if !sec.verifyPassword(login.password, user.value.hashedPassword) then Fail(IncorrectCredentials)
    else Ok(Token(sec.createAccessToken(user.value.id), Bearer))
  }

  /** A login fails with one and the same 400 error whether the email is
      unknown or the password wrong, and succeeds exactly when a user with
      that email exists and the password verifies against the first such
      user's hash, with a bearer token for that user. */
  lemma AuthenticateSpec(users: seq<User>, login: LoginRequest, sec: Security)
    ensures Authenticate(users, login, sec).Fail? ==> Authenticate(users, login, sec).error == IncorrectCredentials
    ensures (forall u :: u in users ==> u.email != login.email) ==> Authenticate(users, login, sec).Fail?
    ensures Authenticate(users, login, sec).Ok? <==>
      && FirstUserByEmail(users, login.email).Some?
      && sec.verifyPassword(login.password, FirstUserByEmail(users, login.email).value.hashedPassword)
    ensures Authenticate(users, login, sec).Ok? ==>
      var u := FirstUserByEmail(users, login.email).value;
      u in users && u.email == login.email
      && Authenticate(users, login, sec).value == Token(sec.createAccessToken(u.id), Bearer)
  {
  }

  /** The request body as each parser would read it. */
  datatype JsonBody = JsonObject(fields: map<string, string>) | JsonNotObject | JsonInvalid

  datatype Request = Request(contentType: string, json: JsonBody, form: map<string, string>)

  function Get(m: map<string, string>, key: string): Option<string> {
    if key in m then Some(m[key]) else None
  }

  /** Building a `LoginRequest`: both fields must be present. */
  function MakeLoginRequest(email: Option<string>, password: Option<string>): Option<LoginRequest> {
    if email.Some? && password.Some? then Some(LoginRequest(email.value, password.value)) else None
  }

  predicate IsJsonContent(contentType: string) {
    Contains(contentType, "application/json")
  }

  predicate IsFormContent(contentType: string) {
    Contains(contentType, "application/x-www-form-urlencoded") || Contains(contentType, "multipart/form-data")
  }

  /** `form.get("email") or form.get("username")`. */
  function FormEmail(form: map<string, string>): Option<string> {
    if Truthy(Get(form, "email")) then Get(form, "email") else Get(form, "username")
  }

  /** The payload handling of `login_access_token` as written: a JSON body
      that is not an object reaches `LoginRequest(**payload)`, which raises a
      `TypeError` the handler does not catch, so the request ends in a 500. */
  function ParseLoginPayloadAsWritten(req: Request): Outcome<LoginRequest> {
    if IsJsonContent(req.contentType) && req.json.JsonNotObject? then Fail(InternalServerError)
    else ParseLoginPayload(req)
  }

  /** The payload handling of `login_access_token`, with every unusable JSON
      body rejected as the route intends: JSON content is read as a JSON
      object, form content from its fields with `email` falling back to
      `username`, anything else rejected with 422. */
  function ParseLoginPayload(req: Request): Outcome<LoginRequest> {
    var login :=
      if IsJsonContent(req.contentType) then
        (if req.json.JsonObject? then MakeLoginRequest(Get(req.json.fields, "email"), Get(req.json.fields, "password"))
         else None)
      else if IsFormContent(req.contentType) then MakeLoginRequest(FormEmail(req.form), Get(req.form, "password"))
      else None;
    if login.Some? then Ok(login.value) else Fail(InvalidPayload)
  }

  /** What the payload parser accepts and what it reads. */
  lemma ParseLoginPayloadSpec(req: Request)
    ensures ParseLoginPayload(req).Fail? ==> ParseLoginPayload(req).error == InvalidPayload
    ensures IsJsonContent(req.contentType) ==>
      (ParseLoginPayload(req).Ok? <==>
        req.json.JsonObject? && "email" in req.json.fields && "password" in req.json.fields)
    ensures IsJsonContent(req.contentType) && ParseLoginPayload(req).Ok? ==>
      ParseLoginPayload(req).value == LoginRequest(req.json.fields["email"], req.json.fields["password"])
    ensures !IsJsonContent(req.contentType) && IsFormContent(req.contentType) ==>
      (ParseLoginPayload(req).Ok? <==>
        "password" in req.form && ("email" in req.form || "username" in req.form)
        && (Truthy(Get(req.form, "email")) || "username" in req.form))
    ensures !IsJsonContent(req.contentType) && IsFormContent(req.contentType) && ParseLoginPayload(req).Ok? ==>
      && ParseLoginPayload(req).value.password == req.form["password"]
      && ParseLoginPayload(req).value.email
         == if Truthy(Get(req.form, "email")) then req.form["email"] else req.form["username"]
    ensures !IsJsonContent(req.contentType) && !IsFormContent(req.contentType) ==>
      ParseLoginPayload(req) == Fail(InvalidPayload)
  {
  }

  /** The as-written handler crashes on a JSON array or scalar where the
      intended one answers 422; on every other request the two agree. */
  lemma NonObjectJsonCrashes(req: Request)
    ensures IsJsonContent(req.contentType) && req.json.JsonNotObject? ==>
      ParseLoginPayloadAsWritten(req).error.status == 500 && ParseLoginPayload(req).error.status == 422
    ensures !(IsJsonContent(req.contentType) && req.json.JsonNotObject?) ==>
      ParseLoginPayloadAsWritten(req) == ParseLoginPayload(req)
  {
  }

  /** The frontend's login call sends a multipart form carrying the email
      under `username`, and the parser reads it as that email and password. */
  lemma FrontendLoginFormAccepted(contentType: string, email: string, password: string)
    requires IsFormContent(contentType) && !IsJsonContent(contentType)
    ensures ParseLoginPayload(Request(contentType, JsonInvalid, map["username" := email, "password" := password]))
      == Ok(LoginRequest(email, password))
  {
    var form := map["username" := email, "password" := password];
    assert "email" !in form;
  }

  /** `login_access_token` with the corrected parser: parse the payload,
      then authenticate. */
  function LoginAccessToken(users: seq<User>, req: Request, sec: Security): Outcome<Token> {
    match ParseLoginPayload(req)
    case Fail(e) => Fail(e)
    case Ok(login) => Authenticate(users, login, sec)
  }

  /** The corrected token endpoint fails only with 422 or the credentials
      error, and issues a token only for a parsed payload whose credentials
      verify. */
  lemma LoginAccessTokenSpec(users: seq<User>, req: Request, sec: Security)
    ensures LoginAccessToken(users, req, sec).Fail? ==>
      LoginAccessToken(users, req, sec).error in {InvalidPayload, IncorrectCredentials}
    ensures LoginAccessToken(users, req, sec).Ok? <==>
      ParseLoginPayload(req).Ok? && Authenticate(users, ParseLoginPayload(req).value, sec).Ok?
  {
    if ParseLoginPayload(req).Ok? {
      AuthenticateSpec(users, ParseLoginPayload(req).value, sec);
    } else {
      ParseLoginPayloadSpec(req);
    }
  }

  /** `login_access_token` as written: the payload parser that lets a JSON
      array or scalar escape as a server error. */
  function LoginAccessTokenAsWritten(users: seq<User>, req: Request, sec: Security): Outcome<Token> {
    match ParseLoginPayloadAsWritten(req)
    case Fail(e) => Fail(e)
    case Ok(login) => Authenticate(users, login, sec)
  }

  /** The token route as written fails only with 422, the credentials error
      or 500; it answers 500 exactly for a JSON body that is not an object,
      and on every other request it agrees with the corrected route. */
  lemma LoginAccessTokenAsWrittenSpec(users: seq<User>, req: Request, sec: Security)
    ensures LoginAccessTokenAsWritten(users, req, sec).Fail? ==>
      LoginAccessTokenAsWritten(users, req, sec).error in {InvalidPayload, IncorrectCredentials, InternalServerError}
    ensures LoginAccessTokenAsWritten(users, req, sec) == Fail(InternalServerError) <==>
      IsJsonContent(req.contentType) && req.json.JsonNotObject?
    ensures !(IsJsonContent(req.contentType) && req.json.JsonNotObject?) ==>
      LoginAccessTokenAsWritten(users, req, sec) == LoginAccessToken(users, req, sec)
  {
    NonObjectJsonCrashes(req);
    LoginAccessTokenSpec(users, req, sec);
  }

  /** What the bearer token's `sub` claim decodes to. */
  datatype Subject = Undecodable | NoSubject | Malformed | SubjectId(id: int)

  /** The body of `PUT /users/me`; every field optional. */
  datatype UserUpdate = UserUpdate(email: Option<string>, name: Option<string>,
                                   currentPassword: Option<string>, newPassword: Option<string>)

  /** The body of `POST /signup`. */
  datatype UserCreate = UserCreate(email: string, name: Option<string>, password: string)

  /** The checks of `update_current_user` on the user found, in source order,
      and the updated row when they all pass. */
  function ApplyUpdate(users: seq<User>, user: User, change: UserUpdate, sec: Security): Outcome<User> {
    var newEmail := Truthy(change.email) && change.email.value != user.email;
    if newEmail && FirstUserByEmail(users, change.email.value).Some? then Fail(EmailInUse)
    else if Truthy(change.currentPassword) && !Truthy(change.newPassword) then Fail(NewPasswordRequired)
    else if Truthy(change.newPassword) && !Truthy(change.currentPassword) then Fail(CurrentPasswordRequired)
    else if Truthy(change.newPassword) && !sec.verifyPassword(change.currentPassword.value, user.hashedPassword) then
      Fail(IncorrectCurrentPassword)
    else
      Ok(User(user.id,
              if newEmail then change.email.value else user.email,
              if Truthy(change.name) then change.name else user.name,
              if Truthy(change.newPassword) then sec.hashPassword(change.newPassword.value) else user.hashedPassword))
  }

  /** The result of `update_current_user` on a table. */
  function UpdateOutcome(users: seq<User>, subject: Subject, change: UserUpdate, sec: Security): Outcome<User> {
    if !subject.SubjectId? then Fail(InvalidToken)
    else
      var k := UserIndexById(users, subject.id);
      if k < 0 then Fail(UserNotFound) else ApplyUpdate(users, users[k], change, sec)
  }

  /** A profile update keeps the user's id; it takes the new email only when
      one is given, differs and no user holds it; it takes the new name only
      when a non-empty one is given; and it replaces the password hash only
      with the hash of the new password, after the current password has
      verified against the old hash. */
  lemma ApplyUpdateSpec(users: seq<User>, user: User, change: UserUpdate, sec: Security)
    ensures var r := ApplyUpdate(users, user, change, sec);
      && (r.Ok? ==> r.value.id == user.id)
      && (r.Ok? && r.value.email != user.email ==>
            Truthy(change.email) && r.value.email == change.email.value
            && forall u :: u in users ==> u.email != r.value.email)
      && (r.Ok? ==> r.value.name == if Truthy(change.name) then change.name else user.name)
      && (r.Ok? && r.value.hashedPassword != user.hashedPassword ==>
            Truthy(change.newPassword) && Truthy(change.currentPassword)
            && sec.verifyPassword(change.currentPassword.value, user.hashedPassword)
            && r.value.hashedPassword == sec.hashPassword(change.newPassword.value))
      && (r.Ok? && Truthy(change.email) ==> r.value.email == change.email.value)
      && (r.Ok? && Truthy(change.newPassword) ==> r.value.hashedPassword == sec.hashPassword(change.newPassword.value))
  {
  }

  /** The password checks: a current password without a new one, a new one
      without the current one and a wrong current password each fail with
      400; an email that is unchanged is never reported as in use. */
  lemma ApplyUpdateRejections(users: seq<User>, user: User, change: UserUpdate, sec: Security)
    ensures var r := ApplyUpdate(users, user, change, sec);
      && (Truthy(change.currentPassword) && !Truthy(change.newPassword) ==> r.Fail? && r.error.status == 400)
      && (Truthy(change.newPassword) && !Truthy(change.currentPassword) ==> r.Fail? && r.error.status == 400)
      && ((Truthy(change.newPassword) && Truthy(change.currentPassword)
           && !sec.verifyPassword(change.currentPassword.value, user.hashedPassword)) ==> r.Fail? && r.error.status == 400)
      && (change.email == Some(user.email) ==> r != Fail(EmailInUse))
      && ((Truthy(change.email) && change.email.value != user.email
           && exists u :: u in users && u.email == change.email.value) ==> r == Fail(EmailInUse))
  {
  }

  /** Ids are unique in the users table. */
  predicate UniqueIds(users: seq<User>) {
    forall i, j :: 0 <= i < j < |users| ==> users[i].id != users[j].id
  }

  /** Emails are unique in the users table. */
  predicate UniqueEmails(users: seq<User>) {
    forall i, j :: 0 <= i < j < |users| ==> users[i].email != users[j].email
  }

  /** A successful update keeps ids and emails unique. */
  lemma UpdateKeepsUnique(users: seq<User>, k: int, change: UserUpdate, sec: Security)
    requires 0 <= k < |users| && UniqueIds(users) && UniqueEmails(users)
    requires ApplyUpdate(users, users[k], change, sec).Ok?
    ensures UniqueIds(users[k := ApplyUpdate(users, users[k], change, sec).value])
    ensures UniqueEmails(users[k := ApplyUpdate(users, users[k], change, sec).value])
  {
    var u := ApplyUpdate(users, users[k], change, sec).value;
    ApplyUpdateSpec(users, users[k], change, sec);
    if u.email != users[k].email {
      forall j | 0 <= j < |users| ensures users[j].email != u.email {
        assert users[j] in users;
      }
    }
  }

  /** An id above every id in the table, standing in for the database's
      auto-increment. */
  function NextId(users: seq<User>): (n: int)
    ensures forall u :: u in users ==> u.id < n
  {
    if users == [] then 1
    else
      var rest := NextId(users[..|users| - 1]);
      assert forall u :: u in users ==> u in users[..|users| - 1] || u == users[|users| - 1];
      if users[|users| - 1].id + 1 > rest then users[|users| - 1].id + 1 else rest
  }

  class UserTable {
    var users: seq<User>

    ghost predicate Valid()
      reads this
    {
      UniqueIds(users) && UniqueEmails(users)
    }

    constructor ()
      ensures users == [] && Valid()
    {
      users := [];
    }

    /** `update_current_user`: check the token, find the user, change the
        fields step by step, and commit only when every check has passed; a
        failing path leaves the table as it was. */
    method UpdateCurrentUser(subject: Subject, change: UserUpdate, sec: Security) returns (out: Outcome<User>)
      requires Valid()
      modifies this
      ensures Valid()
      ensures out == UpdateOutcome(old(users), subject, change, sec)
      ensures out.Fail? ==> users == old(users)
      ensures out.Ok? ==> subject.SubjectId? && users == old(users)[UserIndexById(old(users), subject.id) := out.value]
    {
      if !subject.SubjectId? {
        return Fail(InvalidToken);
      }
      var k := UserIndexById(users, subject.id);
      if k < 0 {
        return Fail(UserNotFound);
      }
      var user := users[k];
      if Truthy(change.email) && change.email.value != user.email {
        if FirstUserByEmail(users, change.email.value).Some? {
          return Fail(EmailInUse);
        }
        user := user.(email := change.email.value);
      }
      if Truthy(change.name) {
        user := user.(name := change.name);
      }
      if Truthy(change.currentPassword) && !Truthy(change.newPassword) {
        return Fail(NewPasswordRequired);
      }
      if Truthy(change.newPassword) {
        if !Truthy(change.currentPassword) {
          return Fail(CurrentPasswordRequired);
        }
        if !sec.verifyPassword(change.currentPassword.value, user.hashedPassword) {
          return Fail(IncorrectCurrentPassword);
        }
        user := user.(hashedPassword := sec.hashPassword(change.newPassword.value));
      }
      UpdateKeepsUnique(users, k, change, sec);
      users := users[k := user];
      out := Ok(user);
    }

    /** `create_user`: an email already in the table is refused with 400 and
        nothing is added; otherwise exactly one row is appended, with the
        given email and name, the hash of the given password and a fresh id. */
    method CreateUser(newUser: UserCreate, sec: Security) returns (out: Outcome<User>)
      requires Valid()
      modifies this
      ensures Valid()
      ensures out.Fail? <==> exists u :: u in old(users) && u.email == newUser.email
      ensures out.Fail? ==> out.error == UserAlreadyExists && users == old(users)
      ensures out.Ok? ==>
        && users == old(users) + [out.value]
        && out.value.email == newUser.email && out.value.name == newUser.name
        && out.value.hashedPassword == sec.hashPassword(newUser.password)
        && forall u :: u in old(users) ==> u.id != out.value.id
    {
      if FirstUserByEmail(users, newUser.email).Some? {
        return Fail(UserAlreadyExists);
      }
      var created := User(NextId(users), newUser.email, newUser.name, sec.hashPassword(newUser.password));
      assert forall i :: 0 <= i < |users| ==> users[i] in users;
      users := users + [created];
      out := Ok(created);
    }
  }
}
