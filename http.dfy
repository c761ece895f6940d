/** HTTP status codes used by the handlers and the JSON bodies they write. */
module Http {
  import opened Models

  const StatusOK := 200
  const StatusCreated := 201
  const StatusBadRequest := 400
  const StatusUnauthorized := 401
  const StatusForbidden := 403
  const StatusNotFound := 404
  const StatusConflict := 409
  const StatusInternalServerError := 500

  /** The start of the 400 answer to a body that does not bind; the binder's error text follows it. */
  const MsgBadRequest := "잘못된 요청 형식입니다: "

  /** `{"error": ...}`, `{"message": ...}`, a user, a list of users, or a login response. */
  datatype Body =
    | ErrorBody(error: string)
    | MessageBody(message: string)
    | UserBody(user: UserJson)
    | UsersBody(users: seq<UserJson>)
    | LoginBody(login: LoginResponse)

  datatype Response = Response(status: int, body: Body)

  function Error(status: int, message: string): Response {
    Response(status, ErrorBody(message))
  }
}
