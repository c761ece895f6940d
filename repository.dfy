/**
 * The user store and the login-history sink, reduced to what the handlers
 * rely on: a map from ids to users with lookups that tell "not found" apart
 * from other database errors, and an append-only list of login records.
 */
module Repository {
  import opened Wrappers
  import opened GoStrconv
  import opened Models

  /** A lookup's outcome: found, `gorm.ErrRecordNotFound`, or any other database error. */
  datatype Lookup<T> = Found(value: T) | NotFound | DbError

  /** The store operations; the database may fail any of them. */
  datatype StoreOp = FindByIdOp | FindByUsernameOp | CreateOp | SaveOp | DeleteOp | ListOp

  predicate UsernameTaken(users: map<Int64, User>, name: string) {
    exists id | id in users :: users[id].username == name
  }

  /** The `unique` index on the user name. */
  ghost predicate UniqueUsernames(users: map<Int64, User>) {
    forall a, b | a in users && b in users && users[a].username == users[b].username :: a == b
  }

  class UserStore {
    var users: map<Int64, User>
    /** The next value of the auto-increment primary key. */
    var nextId: int
    /** The operations the database fails with an error other than "not found". */
    var failing: set<StoreOp>

    ghost predicate Valid()
      reads this
    {
      && 1 <= nextId
      && (forall id | id in users :: users[id].id == id && 1 <= id < nextId)
      && UniqueUsernames(users)
    }

    constructor (failing: set<StoreOp>)
      ensures Valid() && users == map[] && nextId == 1 && this.failing == failing
    {
      users := map[];
      nextId := 1;
      this.failing := failing;
    }

    /** `GetUserByID` */
    method FindById(id: Int64) returns (r: Lookup<User>)
      ensures FindByIdOp in failing ==> r == DbError
      ensures FindByIdOp !in failing && id in users ==> r == Found(users[id])
      ensures FindByIdOp !in failing && id !in users ==> r == NotFound
    {
      if FindByIdOp in failing {
        r := DbError;
      } else if id in users {
        r := Found(users[id]);
      } else {
        r := NotFound;
      }
    }

    /** `GetUserByUsername` */
    method FindByUsername(name: string) returns (r: Lookup<User>)
      requires Valid()
      ensures FindByUsernameOp in failing ==> r == DbError
      ensures FindByUsernameOp !in failing && !UsernameTaken(users, name) ==> r == NotFound
      ensures FindByUsernameOp !in failing && UsernameTaken(users, name) ==>
        r.Found? && r.value.id in users && users[r.value.id] == r.value && r.value.username == name
    {
      if FindByUsernameOp in failing {
        r := DbError;
      } else if UsernameTaken(users, name) {
        var id :| id in users && users[id].username == name;
        r := Found(users[id]);
      } else {
        r := NotFound;
      }
    }

    /**
     * `CreateUser`: inserts `u` under the next auto-increment id. The database
     * refuses a duplicate user name and an exhausted int64 key.
     */
    method Create(u: User) returns (created: Option<User>)
      requires Valid()
      modifies this
      ensures Valid() && failing == old(failing)
      ensures created.None? <==>
        (CreateOp in old(failing) || UsernameTaken(old(users), u.username) || old(nextId) > MaxInt64)
      ensures created.None? ==> users == old(users) && nextId == old(nextId)
      ensures created.Some? ==>
        && old(nextId) !in old(users)
        && created.value == u.(id := old(nextId))
        && users == old(users)[old(nextId) := created.value]
    {
      if CreateOp in failing || UsernameTaken(users, u.username) || nextId > MaxInt64 {
        created := None;
      } else {
        var stored := u.(id := nextId);
        users := users[nextId := stored];
        nextId := nextId + 1;
        created := Some(stored);
      }
    }

    /** `UpdateUser` (GORM `Save`) of a record read from the store. */
    method Save(u: User) returns (ok: bool)
      requires Valid()
      requires u.id in users
      modifies this
      ensures Valid() && failing == old(failing) && nextId == old(nextId)
      ensures ok <==> (SaveOp !in old(failing)
                       && forall id | id in old(users) && id != u.id :: old(users)[id].username != u.username)
      ensures ok ==> users == old(users)[u.id := u]
      ensures !ok ==> users == old(users)
    {
      if SaveOp in failing || exists id | id in users && id != u.id :: users[id].username == u.username {
        ok := false;
      } else {
        users := users[u.id := u];
        ok := true;
      }
    }

    /** `DeleteUser`: removing an absent id is not an error. */
    method Delete(id: Int64) returns (ok: bool)
      requires Valid()
      modifies this
      ensures Valid() && failing == old(failing) && nextId == old(nextId)
      ensures ok <==> DeleteOp !in old(failing)
      ensures ok ==> users == old(users) - {id}
      ensures !ok ==> users == old(users)
    {
      if DeleteOp in failing {
        ok := false;
      } else {
        users := users - {id};
        ok := true;
      }
    }

    /** `GetAllUsers`: every stored user exactly once, in no particular order. */
    method ListAll() returns (r: Option<seq<User>>)
      requires Valid()
      ensures ListOp in failing <==> r.None?
      ensures r.Some? ==> |r.value| == |users|
      ensures r.Some? ==> forall u | u in r.value :: u.id in users && users[u.id] == u
      ensures r.Some? ==> forall id | id in users :: users[id] in r.value
    {
      if ListOp in failing {
        return None;
      }
      var list: seq<User> := [];
      var pending := users.Keys;
      while pending != {}
        invariant pending <= users.Keys
        invariant |list| + |pending| == |users|
        invariant forall u | u in list :: u.id in users && users[u.id] == u && u.id !in pending
        invariant forall id | id in users && id !in pending :: users[id] in list
        decreases |pending|
      {
        var id :| id in pending;
        list := list + [users[id]];
        pending := pending - {id};
      }
      r := Some(list);
    }
  }

  /** The login-history sink: records are only ever appended. */
  class LoginLog {
    var records: seq<LoginHistory>

    constructor ()
      ensures records == []
    {
      records := [];
    }

    /** `CreateLoginHistory` */
    method Append(h: LoginHistory)
      modifies this
      ensures records == old(records) + [h]
    {
      records := records + [h];
    }
  }
}
