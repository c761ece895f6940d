/**
 * The records of the service: the stored user, its JSON form, the
 * create/update request bodies with their binding-tag constraints, and the
 * login request, response and history records.
 */
module Models {
  import opened GoStrconv

  const RoleAdmin := "ADMIN"
  const RoleUser := "USER"

  /** A stored user. The creation and update timestamps are not modelled. */
  datatype User = User(id: Int64, username: string, email: string, password: string, role: string)

  /** Go's zero value of `User`. */
  const ZeroUser := User(0, "", "", "", "")

  /** The JSON form of a `User`: the password field is tagged `json:"-"` and never appears. */
  datatype UserJson = UserJson(id: Int64, username: string, email: string, role: string)

  function ToJson(u: User): UserJson {
    UserJson(u.id, u.username, u.email, u.role)
  }

  /** The password has no influence on the JSON form. */
  lemma PasswordNotSerialised(u: User, password: string)
    ensures ToJson(u.(password := password)) == ToJson(u)
  {
  }

  /** Two users with the same JSON form differ at most in their passwords. */
  lemma JsonDeterminesAllButPassword(u: User, v: User)
    requires ToJson(u) == ToJson(v)
    ensures u == v.(password := u.password)
  {
  }

  datatype CreateUserRequest = CreateUserRequest(username: string, email: string, password: string, role: string)

  datatype UpdateUserRequest = UpdateUserRequest(username: string, email: string, password: string, role: string)

  /** `oneof=USER ADMIN` */
  predicate ValidRole(role: string) {
    role == RoleUser || role == RoleAdmin
  }

  /** `min=3,max=50` on the user name (lengths count runes). */
  predicate ValidUsername(name: string) {
    3 <= |name| <= 50
  }

  /** `email,max=100`; the format check of the validator is the opaque `isEmail`. */
  predicate ValidEmail(email: string, isEmail: string -> bool) {
    isEmail(email) && |email| <= 100
  }

  /** `min=6,max=255` on the password. */
  predicate ValidPassword(password: string) {
    6 <= |password| <= 255
  }

  /** The binding tags of `CreateUserRequest`: every field `required` (non-empty) and bounded. */
  predicate ValidCreateRequest(req: CreateUserRequest, isEmail: string -> bool)
    ensures ValidCreateRequest(req, isEmail) ==>
      && 3 <= |req.username| <= 50
      && isEmail(req.email) && 1 <= |req.email| <= 100
      && 6 <= |req.password| <= 255
      && (req.role == "USER" || req.role == "ADMIN")
  {
    && req.username != "" && ValidUsername(req.username)
    && req.email != "" && ValidEmail(req.email, isEmail)
    && req.password != "" && ValidPassword(req.password)
    && req.role != "" && ValidRole(req.role)
  }

  /** The binding tags of `UpdateUserRequest`: each field `omitempty`, else bounded as on create. */
  predicate ValidUpdateRequest(req: UpdateUserRequest, isEmail: string -> bool)
    ensures req == UpdateUserRequest("", "", "", "") ==> ValidUpdateRequest(req, isEmail)
    ensures ValidUpdateRequest(req, isEmail) ==>
      && (req.username != "" ==> 3 <= |req.username| <= 50)
      && (req.email != "" ==> isEmail(req.email) && |req.email| <= 100)
      && (req.password != "" ==> 6 <= |req.password| <= 255)
      && (req.role != "" ==> req.role == "USER" || req.role == "ADMIN")
  {
    && (req.username == "" || ValidUsername(req.username))
    && (req.email == "" || ValidEmail(req.email, isEmail))
    && (req.password == "" || ValidPassword(req.password))
    && (req.role == "" || ValidRole(req.role))
  }

  /** The fields of a stored user read as a create body. */
  function AsCreateRequest(u: User): CreateUserRequest {
    CreateUserRequest(u.username, u.email, u.password, u.role)
  }

  /** A valid create body, read as an update body, is a valid update body with every field set. */
  lemma CreateRequestIsUpdateRequest(req: CreateUserRequest, isEmail: string -> bool)
    requires ValidCreateRequest(req, isEmail)
    ensures ValidUpdateRequest(UpdateUserRequest(req.username, req.email, req.password, req.role), isEmail)
    ensures req.username != "" && req.email != "" && req.password != "" && req.role != ""
  {
  }

  /** `LoginRequest`: both fields `required`. */
  datatype LoginRequest = LoginRequest(username: string, password: string)

  predicate ValidLoginRequest(req: LoginRequest) {
    req.username != "" && req.password != ""
  }

  /** The body of a successful login; it has no password field. */
  datatype LoginResponse = LoginResponse(id: Int64, username: string, email: string, role: string, token: string)

  /**
   * One login attempt as handed to the login-history sink. `loginTime` is the
   * clock reading taken when the attempt was adjudicated.
   */
  datatype LoginHistory = LoginHistory(ipAddress: string, loginTime: int, success: bool, userAgent: string, userId: Int64)
}
