/**
 * POST /login: credential check, token minting and the login-history
 * record. The password check (bcrypt) is the opaque `verify(hash, password)`,
 * the clock reading is `now`, and the client address and agent string are
 * taken from the request.
 */
module AuthApi {
  import opened Wrappers
  import opened GoStrings
  import opened GoStrconv
  import opened Models
  import opened Http
  import opened Middleware
  import opened Repository

  const MsgBadCredentials := "사용자명 또는 비밀번호가 올바르지 않습니다"

  /** The token handed out at login: the admin literal for admins, else the user prefix and the decimal id. */
  function MintToken(u: User): (token: string)
    ensures u.role == RoleAdmin ==> token == AdminToken
    ensures u.role != RoleAdmin ==>
      HasPrefix(token, UserTokenPrefix) && ParseInt64(token[|UserTokenPrefix|..]) == Some(u.id)
    ensures ' ' !in token
  {
    if u.role == RoleAdmin then AdminToken
    else
      var token := UserTokenPrefix + FormatInt(u.id);
      assert token[|UserTokenPrefix|..] == FormatInt(u.id);
      ParseFormat(u.id);
      FormatHasNoSpace(u.id);
      token
  }

  lemma FormatHasNoSpace(n: int)
    ensures ' ' !in FormatInt(n)
  {
    var s := FormatInt(n);
    if n < 0 {
      assert forall i | 1 <= i < |s| :: s[i] == NatDigits(-n)[i - 1];
    }
  }

  /**
   * A minted token decodes to the identity the middleware derives from it:
   * a non-admin's keeps its id and gets role USER, an admin's is always id 1.
   */
  lemma MintDecodeRoundTrip(u: User)
    ensures DecodeToken(MintToken(u)) ==
      Ok(if u.role == RoleAdmin then AdminIdentity else UserIdentity(u.id, FormatInt(u.id)))
  {
    if u.role != RoleAdmin {
      assert MintToken(u)[|UserTokenPrefix|..] == FormatInt(u.id);
    }
  }

  /** The decoded id is the user's own id exactly for non-admins and for the admin whose id is 1. */
  lemma MintedIdentityKeepsId(u: User)
    ensures DecodeToken(MintToken(u)).Ok?
    ensures DecodeToken(MintToken(u)).value.id == u.id <==> (u.role != RoleAdmin || u.id == 1)
    ensures DecodeToken(MintToken(u)).value.role == (if u.role == RoleAdmin then RoleAdmin else RoleUser)
  {
    MintDecodeRoundTrip(u);
  }

  /** Sent back as `Bearer <token>`, a minted token authenticates as its decoded identity. */
  lemma MintedTokenAuthenticates(u: User)
    ensures Authenticate(BearerPrefix + MintToken(u)) == DecodeToken(MintToken(u))
    ensures Authenticate(BearerPrefix + MintToken(u)).Ok?
  {
    var h := BearerPrefix + MintToken(u);
    assert h[..|BearerPrefix|] == BearerPrefix && h[|BearerPrefix|..] == MintToken(u);
    MintDecodeRoundTrip(u);
  }

  /** The login decision: who the attempt is recorded against, whether it succeeded, and the answer. */
  datatype Adjudication = Adjudication(subject: Int64, success: bool, response: Response)

  function Adjudicate(found: Lookup<User>, password: string, verify: (string, string) -> bool): (a: Adjudication)
    ensures a.success <==> found.Found? && verify(found.value.password, password)
    ensures a.subject == (if found.Found? then found.value.id else 0)
    ensures !a.success ==> a.response == Error(StatusUnauthorized, MsgBadCredentials)
    ensures a.success ==> var u := found.value;
      a.response == Response(StatusOK, LoginBody(LoginResponse(u.id, u.username, u.email, u.role, MintToken(u))))
  {
    match found
    case Found(user) =>
      if !verify(user.password, password) then
        Adjudication(user.id, false, Error(StatusUnauthorized, MsgBadCredentials))
      else
        Adjudication(user.id, true,
          Response(StatusOK, LoginBody(LoginResponse(user.id, user.username, user.email, user.role, MintToken(user)))))
    case _ =>
      Adjudication(0, false, Error(StatusUnauthorized, MsgBadCredentials))
  }

  /** An unknown user name and a wrong password get the very same answer. */
  lemma NoUsernameOracle(u: User, password: string, verify: (string, string) -> bool)
    requires !verify(u.password, password)
    ensures Adjudicate(NotFound, password, verify).response == Adjudicate(Found(u), password, verify).response
    ensures Adjudicate(DbError, password, verify).response == Adjudicate(Found(u), password, verify).response
  {
  }

  /**
   * `recordLoginAttempt`: the record is built from values copied out of the
   * request and handed to the sink; whatever the sink then does is not
   * observed by the login response.
   */
  method RecordLoginAttempt(log: LoginLog, clientIP: string, userAgent: string, now: int, userId: Int64, success: bool)
    modifies log
    ensures log.records == old(log.records) + [LoginHistory(clientIP, now, success, userAgent, userId)]
  {
    var history := LoginHistory(clientIP, now, success, userAgent, userId);
    log.Append(history);
  }

  /** POST /login */
  method Login(store: UserStore, log: LoginLog, body: Result<LoginRequest, string>,
               verify: (string, string) -> bool, clientIP: string, userAgent: string, now: int)
    returns (resp: Response)
    requires store.Valid()
    requires body.Ok? ==> ValidLoginRequest(body.value)
    modifies log
    ensures body.Err? ==> resp == Error(StatusBadRequest, MsgBadRequest + body.error) && log.records == old(log.records)
    ensures body.Ok? ==>
      && |log.records| == |old(log.records)| + 1
      && log.records[..|old(log.records)|] == old(log.records)
      && var record := log.records[|old(log.records)|];
      && record.ipAddress == clientIP && record.userAgent == userAgent && record.loginTime == now
      && record.success == (resp.status == StatusOK)
    ensures body.Ok? && (FindByUsernameOp in store.failing || !UsernameTaken(store.users, body.value.username)) ==>
      && resp == Error(StatusUnauthorized, MsgBadCredentials)
      && log.records == old(log.records) + [LoginHistory(clientIP, now, false, userAgent, 0)]
    ensures body.Ok? && FindByUsernameOp !in store.failing ==>
      forall id | id in store.users && store.users[id].username == body.value.username ::
        var a := Adjudicate(Found(store.users[id]), body.value.password, verify);
        && resp == a.response
        && log.records == old(log.records) + [LoginHistory(clientIP, now, a.success, userAgent, id)]
  {
    if body.Err? {
      return Error(StatusBadRequest, MsgBadRequest + body.error);
    }
    var req := body.value;
    var found := store.FindByUsername(req.username);
    var decision := Adjudicate(found, req.password, verify);
    RecordLoginAttempt(log, clientIP, userAgent, now, decision.subject, decision.success);
    resp := decision.response;
  }
}
