/**
 * The route table of the server: which middleware guards each route, and
 * what running that chain on a fresh request context decides.
 */
module Server {
  import opened Models
  import opened Middleware

  datatype Route =
    | LoginRoute        // POST /login
    | GetUserRoute      // GET /user/:id
    | UpdateUserRoute   // PUT /user/:id
    | ListUsersRoute    // GET /users
    | CreateUserRoute   // POST /user
    | DeleteUserRoute   // DELETE /user/:id

  datatype Gate = Authenticated | AdminOnly

  /** The middleware each route runs before its handler, in order. */
  function Gates(route: Route): seq<Gate> {
    match route
    case LoginRoute => []
    case GetUserRoute | UpdateUserRoute => [Authenticated]
    case ListUsersRoute | CreateUserRoute | DeleteUserRoute => [Authenticated, AdminOnly]
  }

  /**
   * Runs the route's middleware on a fresh context until one aborts. The
   * public route always proceeds; an authenticated route proceeds exactly
   * when the header authenticates; an admin route exactly when the header is
   * `Bearer admin-token`. A refusal writes exactly one response.
   */
  method Admit(ctx: Context, route: Route) returns (proceed: bool)
    requires ctx.keys == map[] && ctx.responses == [] && !ctx.aborted
    modifies ctx
    ensures Gates(route) == [] ==> proceed && ctx.keys == map[]
    ensures Gates(route) == [Authenticated] ==> (proceed <==> Authenticate(ctx.header).Ok?)
    ensures AdminOnly in Gates(route) ==> (proceed <==> ctx.header == BearerPrefix + AdminToken)
    ensures proceed ==> ctx.responses == [] && !ctx.aborted
    ensures !proceed ==> ctx.aborted && |ctx.responses| == 1
    ensures proceed && Gates(route) != [] ==>
      ctx.keys == map[AuthUserKey := UserValue(Authenticate(ctx.header).value)]
  {
    var gates := Gates(route);
    var i := 0;
    proceed := true;
    while i < |gates| && proceed
      invariant 0 <= i <= |gates|
      invariant proceed ==> ctx.responses == [] && !ctx.aborted
      invariant !proceed ==> ctx.aborted && |ctx.responses| == 1
      invariant i == 0 ==> proceed && ctx.keys == map[]
      invariant i >= 1 && proceed ==>
        && Authenticate(ctx.header).Ok?
        && ctx.keys == map[AuthUserKey := UserValue(Authenticate(ctx.header).value)]
      invariant i >= 1 && !proceed ==>
        || (i == 1 && Authenticate(ctx.header).Err?)
        || (i == 2 && Authenticate(ctx.header).Ok? && Authenticate(ctx.header).value.role != RoleAdmin)
      invariant i == 2 && proceed ==> Authenticate(ctx.header).value.role == RoleAdmin
    {
      match gates[i] {
        case Authenticated =>
          proceed := ctx.RequireAuth();
        case AdminOnly =>
          proceed := ctx.RequireAdmin();
      }
      i := i + 1;
    }
    AdminOnlyFromAdminHeader(ctx.header);
  }
}
