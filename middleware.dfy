/**
 * Bearer-token authentication and the admin role gate. The request context
 * is an object holding the `Authorization` header, a key/value store, the
 * JSON responses written so far and the abort flag.
 */
module Middleware {
  import opened Wrappers
  import opened GoStrings
  import opened GoStrconv
  import opened Models
  import opened Http

  /** Context key under which the authenticated user is stored. */
  const AuthUserKey := "auth_user"

  const AdminToken := "admin-token"
  const UserTokenPrefix := "user-token-"
  const BearerPrefix := "Bearer "

  const MsgAuthRequired := "인증이 필요합니다"
  const MsgBadAuthFormat := "잘못된 인증 형식입니다"
  const MsgMalformedToken := "잘못된 토큰입니다"
  const MsgInvalidToken := "유효하지 않은 토큰입니다"
  const MsgUserInfoFailed := "사용자 정보 처리 중 오류가 발생했습니다"
  const MsgAdminRequired := "관리자 권한이 필요합니다"

  /** Why a middleware aborted the request: the status and the error message it wrote. */
  datatype Rejection = Rejection(status: int, message: string)

  /** A value stored in the request context: a `User`, or a value of some other type. */
  datatype CtxValue = UserValue(user: User) | OtherValue(text: string)

  /** The identity the admin token stands for. */
  const AdminIdentity := User(1, "admin", "admin@example.com", "", RoleAdmin)

  /** The identity a `user-token-<idText>` token stands for; the name uses the raw suffix. */
  function UserIdentity(id: Int64, idText: string): User {
    User(id, "user" + idText, "user" + idText + "@example.com", "", RoleUser)
  }

  /** `Bearer ` followed by a token that holds no further space. */
  predicate IsBearerHeader(header: string) {
    HasPrefix(header, BearerPrefix) && ' ' !in header[|BearerPrefix|..]
  }

  /** Splitting on single spaces gives exactly `["Bearer", token]` iff the header is `Bearer <token>`. */
  lemma BearerSplit(header: string)
    ensures var parts := Split(header, ' ');
      (|parts| == 2 && parts[0] == "Bearer") <==> IsBearerHeader(header)
    ensures IsBearerHeader(header) ==> Split(header, ' ') == ["Bearer", header[|BearerPrefix|..]]
  {
    var parts := Split(header, ' ');
    JoinSplit(header, ' ');
    SplitPartsHaveNoSep(header, ' ');
    if |parts| == 2 && parts[0] == "Bearer" {
      assert parts[1] in parts;
      assert header == "Bearer" + [' '] + parts[1];
      assert header[..|BearerPrefix|] == BearerPrefix;
      assert header[|BearerPrefix|..] == parts[1];
    }
    if IsBearerHeader(header) {
      var token := header[|BearerPrefix|..];
      assert header == "Bearer" + [' '] + token;
      SplitAtFirstSep("Bearer", ' ', token);
      SplitWithoutSep(token, ' ');
    }
  }

  /**
   * Decodes a bearer token: the admin literal, or the user prefix followed by
   * a base-10 int64 (a sign is allowed); everything else is rejected.
   */
  function DecodeToken(token: string): (r: Result<User, Rejection>)
    ensures token == AdminToken ==> r == Ok(AdminIdentity)
    ensures HasPrefix(token, UserTokenPrefix) ==>
      var suffix := token[|UserTokenPrefix|..];
      r == match ParseInt64(suffix)
        case Some(id) => Ok(UserIdentity(id, suffix))
        case None => Err(Rejection(StatusUnauthorized, MsgMalformedToken))
    ensures token != AdminToken && !HasPrefix(token, UserTokenPrefix) ==>
      r == Err(Rejection(StatusUnauthorized, MsgInvalidToken))
  {
    assert AdminToken[..|UserTokenPrefix|][0] != UserTokenPrefix[0];
    if token == AdminToken then Ok(AdminIdentity)
    else if HasPrefix(token, UserTokenPrefix) then
      var idText := TrimPrefix(token, UserTokenPrefix);
      match ParseInt64(idText)
      case None => Err(Rejection(StatusUnauthorized, MsgMalformedToken))
      case Some(id) => Ok(UserIdentity(id, idText))
    else Err(Rejection(StatusUnauthorized, MsgInvalidToken))
  }

  /** The ADMIN role comes from the admin literal and from no other token. */
  lemma AdminRoleOnlyFromAdminToken(token: string)
    ensures (DecodeToken(token).Ok? && DecodeToken(token).value.role == RoleAdmin) <==> token == AdminToken
  {
  }

  /**
   * What `RequireAuth` decides from the `Authorization` header alone: the
   * identity to store, or the 401 it answers with.
   */
  function Authenticate(header: string): (r: Result<User, Rejection>)
    ensures header == "" ==> r == Err(Rejection(StatusUnauthorized, MsgAuthRequired))
    ensures header != "" && !IsBearerHeader(header) ==> r == Err(Rejection(StatusUnauthorized, MsgBadAuthFormat))
    ensures IsBearerHeader(header) ==> r == DecodeToken(header[|BearerPrefix|..])
    ensures r.Err? ==> r.error.status == StatusUnauthorized
  {
    if header == "" then Err(Rejection(StatusUnauthorized, MsgAuthRequired))
    else
      var parts := Split(header, ' ');
      BearerSplit(header);
      if |parts| != 2 || parts[0] != "Bearer" then Err(Rejection(StatusUnauthorized, MsgBadAuthFormat))
      else DecodeToken(parts[1])
  }

  /** A request authenticates as an ADMIN exactly when it carries `Bearer admin-token`. */
  lemma AdminOnlyFromAdminHeader(header: string)
    ensures (Authenticate(header).Ok? && Authenticate(header).value.role == RoleAdmin)
      <==> header == BearerPrefix + AdminToken
  {
    var h := BearerPrefix + AdminToken;
    assert h[..|BearerPrefix|] == BearerPrefix && h[|BearerPrefix|..] == AdminToken;
    assert IsBearerHeader(h);
    if IsBearerHeader(header) {
      AdminRoleOnlyFromAdminToken(header[|BearerPrefix|..]);
      assert header == header[..|BearerPrefix|] + header[|BearerPrefix|..];
    }
  }

  /**
   * What `RequireAdmin` decides from the value stored under `AuthUserKey`:
   * `None` to continue, or the rejection it answers with.
   */
  function AdminGate(stored: Option<CtxValue>): (r: Option<Rejection>)
    ensures r.None? <==> stored.Some? && stored.value.UserValue? && stored.value.user.role == RoleAdmin
    ensures stored.None? ==> r == Some(Rejection(StatusUnauthorized, MsgAuthRequired))
    ensures stored.Some? && stored.value.OtherValue? ==> r == Some(Rejection(StatusInternalServerError, MsgUserInfoFailed))
    ensures stored.Some? && stored.value.UserValue? && stored.value.user.role != RoleAdmin ==>
      r == Some(Rejection(StatusForbidden, MsgAdminRequired))
  {
    match stored
    case None => Some(Rejection(StatusUnauthorized, MsgAuthRequired))
    case Some(OtherValue(_)) => Some(Rejection(StatusInternalServerError, MsgUserInfoFailed))
    case Some(UserValue(user)) =>
      if user.role != RoleAdmin then Some(Rejection(StatusForbidden, MsgAdminRequired)) else None
  }

  /** The per-request context the middleware reads and writes. */
  class Context {
    const header: string
    var keys: map<string, CtxValue>
    var responses: seq<Response>
    var aborted: bool

    constructor (header: string)
      ensures this.header == header && keys == map[] && responses == [] && !aborted
    {
      this.header := header;
      keys := map[];
      responses := [];
      aborted := false;
    }

    function Get(key: string): (r: Option<CtxValue>)
      reads this
      ensures r.Some? <==> key in keys
      ensures r.Some? ==> r.value == keys[key]
    {
      if key in keys then Some(keys[key]) else None
    }

    /** The stored user and `true`, or the zero user and `false` when none is stored or it is not a `User`. */
    function GetAuthUser(): (r: (User, bool))
      reads this
      ensures r.1 <==> AuthUserKey in keys && keys[AuthUserKey].UserValue?
      ensures r.1 ==> r.0 == keys[AuthUserKey].user
      ensures !r.1 ==> r.0 == ZeroUser
    {
      match Get(AuthUserKey)
      case Some(UserValue(user)) => (user, true)
      case _ => (ZeroUser, false)
    }

    /**
     * `RequireAuth`: on success the identity is stored and the chain goes on;
     * otherwise one 401 is written, the request is aborted and nothing is stored.
     */
    method RequireAuth() returns (next: bool)
      modifies this
      ensures next <==> Authenticate(header).Ok?
      ensures next ==> (keys == old(keys)[AuthUserKey := UserValue(Authenticate(header).value)]
                        && responses == old(responses) && aborted == old(aborted))
      ensures !next ==> (keys == old(keys) && aborted
                         && responses == old(responses) + [Error(StatusUnauthorized, Authenticate(header).error.message)])
    {
      match Authenticate(header)
      case Ok(user) =>
        keys := keys[AuthUserKey := UserValue(user)];
        next := true;
      case Err(rejection) =>
        responses := responses + [Error(rejection.status, rejection.message)];
        aborted := true;
        next := false;
    }

    /**
     * `RequireAdmin`: the chain goes on only for a stored `User` whose role is
     * ADMIN; otherwise one error is written and the request is aborted.
     */
    method RequireAdmin() returns (next: bool)
      modifies this
      ensures keys == old(keys)
      ensures next <==> AdminGate(old(Get(AuthUserKey))).None?
      ensures next ==> responses == old(responses) && aborted == old(aborted)
      ensures !next ==> aborted && var rejection := AdminGate(old(Get(AuthUserKey))).value;
        responses == old(responses) + [Error(rejection.status, rejection.message)]
    {
      match AdminGate(Get(AuthUserKey))
      case None =>
        next := true;
      case Some(rejection) =>
        responses := responses + [Error(rejection.status, rejection.message)];
        aborted := true;
        next := false;
    }
  }
}
