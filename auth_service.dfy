/** `AuthService`: registration checks its request field by field, in a fixed
    order, before inserting the user; login looks the user up before the
    password is checked. Password hashing, token signing and the
    authentication manager are oracles held by the service. Fields of a
    request may be missing (Java's null). */
module AuthService {
  import opened Wrappers
  import opened Strings
  import opened JavaText
  import opened Entities
  import opened Repositories

  const NameRequired: string := "Full name is required"
  const EmailRequired: string := "Email is required"
  const PasswordTooShort: string := "Password must be at least 8 characters long"
  const EmailRegistered: string := "Email already registered, please login"
  const UnknownUser: string := "User not found, please register first"
  const InvalidPassword: string := "Invalid password, please try again"

  datatype AuthRequest = AuthRequest(email: Option<string>, password: Option<string>, fullName: Option<string>)

  datatype AuthResponse = AuthResponse(userId: int, token: string, email: string)

  /** The checks of `register`, in the order the source makes them.
      `password.length()` counts UTF-16 code units. */
  function RegisterCheck(rows: seq<User>, req: AuthRequest): Result<()> {
    if req.fullName.None? || IsBlank(req.fullName.value) then Err(NameRequired)
    else if req.email.None? || IsBlank(req.email.value) then Err(EmailRequired)
    else if req.password.None? || Utf16Length(req.password.value) < 8 then Err(PasswordTooShort)
    else if EmailTaken(rows, req.email.value) then Err(EmailRegistered)
    else Ok(())
  }

  /** A request passes exactly when every field is acceptable and the e-mail
      is new; a failure names the first check that fails. */
  lemma RegisterCheckFirstFailure(rows: seq<User>, req: AuthRequest)
    ensures RegisterCheck(rows, req).Ok? <==>
              req.fullName.Some? && !IsBlank(req.fullName.value) && req.email.Some? && !IsBlank(req.email.value)
              && req.password.Some? && Utf16Length(req.password.value) >= 8 && !EmailTaken(rows, req.email.value)
    ensures RegisterCheck(rows, req) == Err(NameRequired) <==> req.fullName.None? || IsBlank(req.fullName.value)
    ensures RegisterCheck(rows, req) == Err(EmailRegistered) <==>
              req.fullName.Some? && !IsBlank(req.fullName.value) && req.email.Some? && !IsBlank(req.email.value)
              && req.password.Some? && Utf16Length(req.password.value) >= 8 && EmailTaken(rows, req.email.value)
  {
    assert NameRequired[0] == 'F' && EmailRequired[0] == 'E' && PasswordTooShort[0] == 'P' && EmailRegistered[0] == 'E';
    assert EmailRequired[6] != EmailRegistered[6];
  }

  /** The user `register` inserts: the e-mail as given, the name trimmed. */
  function NewUser(req: AuthRequest, encode: string -> string): User
    requires req.email.Some? && req.password.Some? && req.fullName.Some?
  {
    User(0, req.email.value, encode(req.password.value), Trim(req.fullName.value))
  }

  /** Once a request has registered, the same request is refused as a
      duplicate. */
  lemma RegisterTwiceRefused(rows: seq<User>, req: AuthRequest, saved: User)
    requires RegisterCheck(rows, req).Ok? && saved.email == req.email.value
    ensures RegisterCheck(rows + [saved], req) == Err(EmailRegistered)
  {
    assert (rows + [saved])[|rows|] == saved;
  }

  /** The user registered under a new e-mail is the one login finds. */
  lemma {:induction false} RegisteredUserFound(rows: seq<User>, saved: User)
    requires !EmailTaken(rows, saved.email)
    ensures UserByEmail(rows + [saved], saved.email) == Some(saved)
  {
    if rows != [] {
      assert (rows + [saved])[1..] == rows[1..] + [saved];
      assert !EmailTaken(rows[1..], saved.email) by {
        forall i | 0 <= i < |rows[1..]| ensures rows[1..][i].email != saved.email {
          assert rows[1..][i] == rows[i + 1];
        }
      }
      RegisteredUserFound(rows[1..], saved);
    }
  }

  class AuthService {
    const users: UserRepository
    /** `passwordEncoder.encode`. */
    const encode: string -> string
    /** `jwtUtil.generateToken(email, id)`. */
    const token: (string, int) -> string
    /** Whether `authenticationManager.authenticate` accepts the e-mail and password. */
    const authenticate: (string, Option<string>) -> bool
    /** Bean Validation of the `User` constraints (`@Email`, `@NotBlank`,
        `@Size`) when the row is persisted: the violation message, or `None`
        when the row passes or no validation provider is present. */
    const validate: User -> Option<string>

    constructor (users: UserRepository, encode: string -> string, token: (string, int) -> string,
                 authenticate: (string, Option<string>) -> bool, validate: User -> Option<string>)
      ensures this.users == users && this.encode == encode && this.token == token && this.authenticate == authenticate
      ensures this.validate == validate
    {
      this.users := users;
      this.encode := encode;
      this.token := token;
      this.authenticate := authenticate;
      this.validate := validate;
    }

    /** `register`. */
    method Register(req: AuthRequest) returns (r: Result<AuthResponse>)
      requires UserIds(users.rows)
      modifies users
      ensures UserIds(users.rows)
      ensures RegisterCheck(old(users.rows), req).Err? ==>
                r == Err(RegisterCheck(old(users.rows), req).msg) && users.rows == old(users.rows)
      ensures RegisterCheck(old(users.rows), req).Ok? && validate(NewUser(req, encode)).Some? ==>
                r == Err(validate(NewUser(req, encode)).value) && users.rows == old(users.rows)
      ensures RegisterCheck(old(users.rows), req).Ok? && validate(NewUser(req, encode)).None? ==>
                var saved := NewUser(req, encode).(id := |old(users.rows)| + 1);
                users.rows == old(users.rows) + [saved]
                && r == Ok(AuthResponse(saved.id, token(saved.email, saved.id), saved.email))
    {
      if req.fullName.None? || IsBlank(req.fullName.value) {
        return Err(NameRequired);
      }
      if req.email.None? || IsBlank(req.email.value) {
        return Err(EmailRequired);
      }
      if req.password.None? || Utf16Length(req.password.value) < 8 {
        return Err(PasswordTooShort);
      }
      if EmailTaken(users.rows, req.email.value) {
        return Err(EmailRegistered);
      }
      var violation := validate(NewUser(req, encode));
      if violation.Some? {
        return Err(violation.value);
      }
      var saved := users.Insert(NewUser(req, encode));
      r := Ok(AuthResponse(saved.id, token(saved.email, saved.id), saved.email));
    }

    /** `login`: an unknown e-mail is reported before the password is looked at. */
    method Login(req: AuthRequest) returns (r: Result<AuthResponse>)
      ensures var found := if req.email.None? then None else UserByEmail(users.rows, req.email.value);
              r == if found.None? then Err(UnknownUser)
                   else if !authenticate(req.email.value, req.password) then Err(InvalidPassword)
                   else Ok(AuthResponse(found.value.id, token(found.value.email, found.value.id), found.value.email))
    {
      if req.email.None? {
        return Err(UnknownUser);
      }
      var found := UserByEmail(users.rows, req.email.value);
      if found.None? {
        return Err(UnknownUser);
      }
      if !authenticate(req.email.value, req.password) {
        return Err(InvalidPassword);
      }
      var u := found.value;
      r := Ok(AuthResponse(u.id, token(u.email, u.id), u.email));
    }

    /** A fresh registration whose row passes validation, followed by a login
        with an accepted password, answers for the new user; a row that fails
        validation is refused and saves nothing. */
    method RegisterThenLogin(req: AuthRequest) returns (r1: Result<AuthResponse>, r2: Result<AuthResponse>)
      requires UserIds(users.rows) && RegisterCheck(users.rows, req).Ok?
      requires authenticate(req.email.value, req.password)
      modifies users
      ensures validate(NewUser(req, encode)).None? ==> r1.Ok? && r2 == r1
      ensures validate(NewUser(req, encode)).Some? ==> r1 == Err(validate(NewUser(req, encode)).value) && users.rows == old(users.rows)
    {
      ghost var before := users.rows;
      r1 := Register(req);
      RegisteredUserFound(before, NewUser(req, encode).(id := |before| + 1));
      r2 := Login(req);
    }
  }
}
