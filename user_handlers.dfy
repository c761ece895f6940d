/**
 * The user endpoints: list, read, create, update and delete, with the
 * ownership gate and the rules on what an update may change.
 *
 * `body` is the outcome of JSON binding: the decoded request, which then
 * meets its binding tags, or the binder's error text.
 */
module UserApi {
  import opened Wrappers
  import opened GoStrconv
  import opened Models
  import opened Http
  import opened Middleware
  import opened Repository

  const MsgListFailed := "사용자 목록을 가져오는 중 오류가 발생했습니다"
  const MsgBadUserId := "잘못된 사용자 ID 형식입니다"
  const MsgNoReadPermission := "다른 사용자의 정보에 접근할 권한이 없습니다"
  const MsgNoUpdatePermission := "다른 사용자의 정보를 수정할 권한이 없습니다"
  const MsgUserNotFound := "사용자를 찾을 수 없습니다"
  const MsgUsernameTaken := "이미 사용 중인 사용자명입니다"
  const MsgUserCheckFailed := "사용자 확인 중 오류가 발생했습니다"
  const MsgCreateFailed := "사용자 생성 중 오류가 발생했습니다"
  const MsgNoRoleChange := "역할을 변경할 권한이 없습니다"
  const MsgUpdateFailed := "사용자 업데이트 중 오류가 발생했습니다"
  const MsgDeleteFailed := "사용자 삭제 중 오류가 발생했습니다"
  const MsgDeleted := "사용자가 성공적으로 삭제되었습니다"

  /** The ownership gate: an admin may act on any user, anyone else only on themself. */
  predicate CanAccess(caller: User, target: Int64)
    ensures caller.role == RoleAdmin ==> CanAccess(caller, target)
    ensures caller.role != RoleAdmin ==> (CanAccess(caller, target) <==> target == caller.id)
  {
    caller.role == RoleAdmin || caller.id == target
  }

  /** Without a stored identity the caller is the zero user, who passes only for target 0. */
  lemma AnonymousCallerAccess(target: Int64)
    ensures CanAccess(ZeroUser, target) <==> target == 0
  {
  }

  /** The anonymous caller never reaches a stored user: stored ids start at 1. */
  lemma AnonymousCallerSeesNoStoredUser(store: UserStore, target: Int64)
    requires store.Valid()
    ensures CanAccess(ZeroUser, target) ==> target !in store.users
  {
  }

  /**
   * A non-admin asking for a role other than the stored one: exactly the
   * requests whose outcome the role filter of the merge would change.
   */
  predicate RoleChangeForbidden(caller: User, req: UpdateUserRequest, stored: User)
    ensures RoleChangeForbidden(caller, req, stored) ==> caller.role != RoleAdmin
    ensures RoleChangeForbidden(caller, req, stored)
      <==> Merge(stored, req, caller.role == RoleAdmin) != Merge(stored, req, true)
  {
    caller.role != RoleAdmin && req.role != "" && req.role != stored.role
  }

  /** The request renames the user. */
  predicate RenameRequested(req: UpdateUserRequest, stored: User) {
    req.username != "" && req.username != stored.username
  }

  /**
   * The record an update writes: non-empty fields of the request overwrite,
   * the role only when the caller is an admin, everything else is kept.
   */
  function Merge(stored: User, req: UpdateUserRequest, callerIsAdmin: bool): (r: User)
    ensures r.id == stored.id
    ensures req.username != "" ==> r.username == req.username
    ensures req.email != "" ==> r.email == req.email
    ensures req.password != "" ==> r.password == req.password
    ensures callerIsAdmin && req.role != "" ==> r.role == req.role
    ensures req.username == "" ==> r.username == stored.username
    ensures req.email == "" ==> r.email == stored.email
    ensures req.password == "" ==> r.password == stored.password
    ensures !callerIsAdmin || req.role == "" ==> r.role == stored.role
  {
    User(
      stored.id,
      if req.username != "" then req.username else stored.username,
      if req.email != "" then req.email else stored.email,
      if req.password != "" then req.password else stored.password,
      if req.role != "" && callerIsAdmin then req.role else stored.role)
  }

  /** An update never changes the id, and a non-admin's update never changes the role. */
  lemma MergeKeepsIdentity(stored: User, req: UpdateUserRequest, callerIsAdmin: bool)
    ensures Merge(stored, req, callerIsAdmin).id == stored.id
    ensures !callerIsAdmin ==> Merge(stored, req, callerIsAdmin).role == stored.role
  {
  }

  /** An empty request writes the stored record back unchanged, and merging twice is merging once. */
  lemma MergeEmptyAndIdempotent(stored: User, req: UpdateUserRequest, callerIsAdmin: bool)
    ensures Merge(stored, UpdateUserRequest("", "", "", ""), callerIsAdmin) == stored
    ensures Merge(Merge(stored, req, callerIsAdmin), req, callerIsAdmin) == Merge(stored, req, callerIsAdmin)
  {
  }

  /** Merging a request that meets the update tags into a record that meets the create tags keeps them met. */
  lemma MergeKeepsTagsMet(stored: User, req: UpdateUserRequest, callerIsAdmin: bool, isEmail: string -> bool)
    requires ValidCreateRequest(AsCreateRequest(stored), isEmail)
    requires ValidUpdateRequest(req, isEmail)
    ensures ValidCreateRequest(AsCreateRequest(Merge(stored, req, callerIsAdmin)), isEmail)
  {
  }

  /** The caller as the handlers see it: the stored identity or the zero user. */
  function CallerOf(ctx: Context): User
    reads ctx
  {
    ctx.GetAuthUser().0
  }

  /** GET /users */
  method GetUsers(store: UserStore) returns (resp: Response)
    requires store.Valid()
    ensures ListOp in store.failing ==> resp == Error(StatusInternalServerError, MsgListFailed)
    ensures ListOp !in store.failing ==> resp.status == StatusOK && resp.body.UsersBody?
    ensures resp.body.UsersBody? ==>
      && |resp.body.users| == |store.users|
      && (forall j | j in resp.body.users :: j.id in store.users && ToJson(store.users[j.id]) == j)
      && (forall id | id in store.users :: ToJson(store.users[id]) in resp.body.users)
  {
    var all := store.ListAll();
    if all.None? {
      return Error(StatusInternalServerError, MsgListFailed);
    }
    var users := all.value;
    var json := seq(|users|, i requires 0 <= i < |users| => ToJson(users[i]));
    forall id | id in store.users ensures ToJson(store.users[id]) in json {
      var i :| 0 <= i < |users| && users[i] == store.users[id];
      assert json[i] == ToJson(store.users[id]);
    }
    resp := Response(StatusOK, UsersBody(json));
  }

  /** GET /user/:id */
  method GetUser(ctx: Context, store: UserStore, idParam: string) returns (resp: Response)
    ensures ParseInt64(idParam).None? ==> resp == Error(StatusBadRequest, MsgBadUserId)
    ensures ParseInt64(idParam).Some? && !CanAccess(CallerOf(ctx), ParseInt64(idParam).value) ==>
      resp == Error(StatusForbidden, MsgNoReadPermission)
    ensures ParseInt64(idParam).Some? && CanAccess(CallerOf(ctx), ParseInt64(idParam).value) ==>
      var id := ParseInt64(idParam).value;
      resp == if FindByIdOp !in store.failing && id in store.users
              then Response(StatusOK, UserBody(ToJson(store.users[id])))
              else Error(StatusNotFound, MsgUserNotFound)
  {
    var parsed := ParseInt64(idParam);
    if parsed.None? {
      return Error(StatusBadRequest, MsgBadUserId);
    }
    var id := parsed.value;
    var (caller, _) := ctx.GetAuthUser();
    if !CanAccess(caller, id) {
      return Error(StatusForbidden, MsgNoReadPermission);
    }
    var found := store.FindById(id);
    if !found.Found? {
      return Error(StatusNotFound, MsgUserNotFound);
    }
    resp := Response(StatusOK, UserBody(ToJson(found.value)));
  }

  /** POST /user */
  method CreateUser(store: UserStore, body: Result<CreateUserRequest, string>, isEmail: string -> bool)
    returns (resp: Response)
    requires store.Valid()
    requires body.Ok? ==> ValidCreateRequest(body.value, isEmail)
    modifies store
    ensures store.Valid() && store.failing == old(store.failing)
    ensures resp.status != StatusCreated ==> store.users == old(store.users)
    ensures body.Err? ==> resp == Error(StatusBadRequest, MsgBadRequest + body.error)
    ensures body.Ok? && FindByUsernameOp !in store.failing && UsernameTaken(old(store.users), body.value.username) ==>
      resp == Error(StatusConflict, MsgUsernameTaken)
    ensures body.Ok? && FindByUsernameOp in store.failing ==> resp == Error(StatusInternalServerError, MsgUserCheckFailed)
    ensures body.Ok? && FindByUsernameOp !in store.failing && !UsernameTaken(old(store.users), body.value.username)
            && (CreateOp in store.failing || old(store.nextId) > MaxInt64) ==>
      resp == Error(StatusInternalServerError, MsgCreateFailed)
    ensures resp.status == StatusCreated <==>
      (body.Ok? && FindByUsernameOp !in store.failing && CreateOp !in store.failing
       && !UsernameTaken(old(store.users), body.value.username) && old(store.nextId) <= MaxInt64)
    ensures resp.status == StatusCreated ==>
      var req := body.value;
      var u := User(old(store.nextId), req.username, req.email, req.password, req.role);
      && old(store.nextId) !in old(store.users)
      && store.users == old(store.users)[u.id := u]
      && resp.body == UserBody(ToJson(u))
      && ValidRole(u.role) && ValidUsername(u.username) && ValidPassword(u.password)
  {
    if body.Err? {
      return Error(StatusBadRequest, MsgBadRequest + body.error);
    }
    var req := body.value;
    var existing := store.FindByUsername(req.username);
    if existing.Found? {
      return Error(StatusConflict, MsgUsernameTaken);
    } else if existing.DbError? {
      return Error(StatusInternalServerError, MsgUserCheckFailed);
    }
    var user := User(0, req.username, req.email, req.password, req.role);
    var created := store.Create(user);
    if created.None? {
      return Error(StatusInternalServerError, MsgCreateFailed);
    }
    resp := Response(StatusCreated, UserBody(ToJson(created.value)));
  }

  /** PUT /user/:id */
  method UpdateUser(ctx: Context, store: UserStore, idParam: string, body: Result<UpdateUserRequest, string>,
                    isEmail: string -> bool)
    returns (resp: Response)
    requires store.Valid()
    requires body.Ok? ==> ValidUpdateRequest(body.value, isEmail)
    modifies store
    ensures store.Valid() && store.failing == old(store.failing) && store.nextId == old(store.nextId)
    ensures resp.status != StatusOK ==> store.users == old(store.users)
    ensures ParseInt64(idParam).None? ==> resp == Error(StatusBadRequest, MsgBadUserId)
    ensures ParseInt64(idParam).Some? && !CanAccess(CallerOf(ctx), ParseInt64(idParam).value) ==>
      resp == Error(StatusForbidden, MsgNoUpdatePermission)
    ensures ParseInt64(idParam).Some? && CanAccess(CallerOf(ctx), ParseInt64(idParam).value) ==>
      var id := ParseInt64(idParam).value;
      if FindByIdOp in store.failing || id !in old(store.users) then
        resp == Error(StatusNotFound, MsgUserNotFound)
      else
        var stored := old(store.users)[id];
        if body.Err? then resp == Error(StatusBadRequest, MsgBadRequest + body.error)
        else if RoleChangeForbidden(CallerOf(ctx), body.value, stored) then
          resp == Error(StatusForbidden, MsgNoRoleChange)
        else if RenameRequested(body.value, stored) && FindByUsernameOp in store.failing then
          resp == Error(StatusInternalServerError, MsgUserCheckFailed)
        else if RenameRequested(body.value, stored) && UsernameTaken(old(store.users), body.value.username) then
          resp == Error(StatusConflict, MsgUsernameTaken)
        else if SaveOp in store.failing then
          resp == Error(StatusInternalServerError, MsgUpdateFailed)
        else
          var updated := Merge(stored, body.value, CallerOf(ctx).role == RoleAdmin);
          && resp == Response(StatusOK, UserBody(ToJson(updated)))
          && store.users == old(store.users)[id := updated]
          && (ValidRole(stored.role) ==> ValidRole(updated.role))
  {
    var parsed := ParseInt64(idParam);
    if parsed.None? {
      return Error(StatusBadRequest, MsgBadUserId);
    }
    var id := parsed.value;
    var (caller, _) := ctx.GetAuthUser();
    if !CanAccess(caller, id) {
      return Error(StatusForbidden, MsgNoUpdatePermission);
    }
    var found := store.FindById(id);
    if !found.Found? {
      return Error(StatusNotFound, MsgUserNotFound);
    }
    var user := found.value;
    if body.Err? {
      return Error(StatusBadRequest, MsgBadRequest + body.error);
    }
    var req := body.value;
    if caller.role != RoleAdmin && req.role != "" && req.role != user.role {
      return Error(StatusForbidden, MsgNoRoleChange);
    }
    if req.username != "" && req.username != user.username {
      var existing := store.FindByUsername(req.username);
      if existing.Found? {
        return Error(StatusConflict, MsgUsernameTaken);
      } else if existing.DbError? {
        return Error(StatusInternalServerError, MsgUserCheckFailed);
      }
      user := user.(username := req.username);
    }
    if req.email != "" {
      user := user.(email := req.email);
    }
    if req.password != "" {
      user := user.(password := req.password);
    }
    if req.role != "" && caller.role == RoleAdmin {
      user := user.(role := req.role);
    }
    var ok := store.Save(user);
    if !ok {
      return Error(StatusInternalServerError, MsgUpdateFailed);
    }
    resp := Response(StatusOK, UserBody(ToJson(user)));
  }

  /** DELETE /user/:id */
  method DeleteUser(store: UserStore, idParam: string) returns (resp: Response)
    requires store.Valid()
    modifies store
    ensures store.Valid() && store.failing == old(store.failing) && store.nextId == old(store.nextId)
    ensures resp.status != StatusOK ==> store.users == old(store.users)
    ensures ParseInt64(idParam).None? ==> resp == Error(StatusBadRequest, MsgBadUserId)
    ensures ParseInt64(idParam).Some? ==>
      var id := ParseInt64(idParam).value;
      if FindByIdOp in store.failing || id !in old(store.users) then resp == Error(StatusNotFound, MsgUserNotFound)
      else if DeleteOp in store.failing then resp == Error(StatusInternalServerError, MsgDeleteFailed)
      else resp == Response(StatusOK, MessageBody(MsgDeleted)) && store.users == old(store.users) - {id}
  {
    var parsed := ParseInt64(idParam);
    if parsed.None? {
      return Error(StatusBadRequest, MsgBadUserId);
    }
    var id := parsed.value;
    var found := store.FindById(id);
    if !found.Found? {
      return Error(StatusNotFound, MsgUserNotFound);
    }
    var ok := store.Delete(id);
    if !ok {
      return Error(StatusInternalServerError, MsgDeleteFailed);
    }
    resp := Response(StatusOK, MessageBody(MsgDeleted));
  }
}
