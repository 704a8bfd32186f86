/**
 * The `users` table behind the authentication routes: serial ids, a unique
 * username and a unique cpf, and the seven operations the routes call.
 */
module AuthStore {
  import opened Wrappers
  import opened Time
  import opened Tables
  import opened Storage
  import opened AuthSchema

  function UserCreatedAt(u: User): Instant { u.createdAt }

  class AuthStorage {
    var users: map<int, User>
    var nextUserId: int

    /** Ids are serial and keyed; no two rows share a username or a cpf. */
    ghost predicate Valid()
      reads this
    {
      1 <= nextUserId && KeysIn(users, nextUserId)
      && (forall k :: k in users ==> users[k].id == k)
      && (forall a, b :: a in users && b in users && users[a].username == users[b].username ==> a == b)
      && (forall a, b :: a in users && b in users && users[a].cpf == users[b].cpf ==> a == b)
    }

    constructor ()
      ensures Valid() && users == map[]
    {
      users := map[];
      nextUserId := 1;
    }

    predicate UsernameTaken(username: string)
      reads this
    {
      exists k :: k in users && users[k].username == username
    }

    /** Some row other than `except` has this cpf. */
    predicate CpfTaken(cpf: string, except: int)
      reads this
    {
      exists k :: k in users && k != except && users[k].cpf == cpf
    }

    /** `getUser`: the row with this id, if any. */
    function GetUser(id: int): (r: Option<User>)
      reads this
      ensures r.Some? <==> id in users
      ensures r.Some? ==> r.value == users[id]
    {
      if id in users then Some(users[id]) else None
    }

    /** `getUserByUsername`: the row whose username equals this one exactly; there is at most one. */
    method GetUserByUsername(username: string) returns (r: Option<User>)
      requires Valid()
      ensures r.Some? ==> r.value.id in users && users[r.value.id] == r.value && r.value.username == username
      ensures r.Some? ==> forall k :: k in users && users[k].username == username ==> k == r.value.id
      ensures r.None? <==> !UsernameTaken(username)
    {
      var id := 1;
      while id < nextUserId
        invariant 1 <= id <= nextUserId
        invariant forall k :: k in users && k < id ==> users[k].username != username
      {
        if id in users && users[id].username == username {
          return Some(users[id]);
        }
        id := id + 1;
      }
      return None;
    }

    /** `getUserByCpf`: the row whose cpf equals this one exactly; there is at most one. */
    method GetUserByCpf(cpf: string) returns (r: Option<User>)
      requires Valid()
      ensures r.Some? ==> r.value.id in users && users[r.value.id] == r.value && r.value.cpf == cpf
      ensures r.Some? ==> forall k :: k in users && users[k].cpf == cpf ==> k == r.value.id
      ensures r.None? <==> !CpfTaken(cpf, 0)
    {
      var id := 1;
      while id < nextUserId
        invariant 1 <= id <= nextUserId
        invariant forall k :: k in users && k < id ==> users[k].cpf != cpf
      {
        if id in users && users[id].cpf == cpf {
          return Some(users[id]);
        }
        id := id + 1;
      }
      return None;
    }

    /**
     * `createUser`: the row gets the next serial id and both timestamps
     * `now`. A username or cpf already present is refused by the unique
     * constraint; the id is consumed either way.
     */
    method CreateUser(ins: InsertUser, now: Instant) returns (r: Result<User, StoreError>)
      requires Valid()
      modifies this
      ensures Valid() && nextUserId == old(nextUserId) + 1
      ensures r.Ok? <==> !old(UsernameTaken(ins.username)) && !old(CpfTaken(ins.cpf, 0))
      ensures r.Ok? ==> r.value == NewUser(old(nextUserId), ins, now) && users == old(users)[r.value.id := r.value]
      ensures r.Err? ==> users == old(users)
    {
      var id := nextUserId;
      nextUserId := nextUserId + 1;
      if UsernameTaken(ins.username) {
        return Err(UniqueViolation("username"));
      }
      if CpfTaken(ins.cpf, 0) {
        return Err(UniqueViolation("cpf"));
      }
      var u := NewUser(id, ins, now);
      users := users[id := u];
      return Ok(u);
    }

    /** `getAllUsers`: every row once, ordered by `createdAt` descending. */
    function GetAllUsers(): (r: seq<User>)
      reads this
      requires Valid()
      ensures |r| == |users|
      ensures forall u :: u in r <==> Stored(users, u)
      ensures NewestFirst(r, UserCreatedAt)
    {
      RowsValues(users, nextUserId);
      RowsLength(users, 1, nextUserId);
      var sorted := SortNewestFirst(Rows(users, 1, nextUserId), UserCreatedAt);
      assert forall u :: u in sorted <==> u in multiset(sorted);
      sorted
    }

    /**
     * `updateUser`: the supplied columns and `updatedAt` are written to the
     * row with this id. An unknown id updates nothing and returns no row; a
     * cpf held by another row is refused by the unique constraint.
     */
    method UpdateUser(id: int, p: UserPatch, now: Instant) returns (r: Result<Option<User>, StoreError>)
      requires Valid()
      modifies this
      ensures Valid() && nextUserId == old(nextUserId)
      ensures id !in old(users) ==> r == Ok(None) && users == old(users)
      ensures id in old(users) && p.cpf.Put? && old(CpfTaken(p.cpf.value, id)) ==>
        r == Err(UniqueViolation("cpf")) && users == old(users)
      ensures id in old(users) && !(p.cpf.Put? && old(CpfTaken(p.cpf.value, id))) ==>
        r == Ok(Some(ApplyUserPatch(old(users)[id], p, now))) && users == old(users)[id := r.value.value]
    {
      if id !in users {
        return Ok(None);
      }
      if p.cpf.Put? && CpfTaken(p.cpf.value, id) {
        return Err(UniqueViolation("cpf"));
      }
      var u := ApplyUserPatch(users[id], p, now);
      users := users[id := u];
      return Ok(Some(u));
    }

    /** `deleteUser`: removes exactly the row with this id, if there is one. */
    method DeleteUser(id: int)
      requires Valid()
      modifies this
      ensures Valid() && users == old(users) - {id} && nextUserId == old(nextUserId)
    {
      users := users - {id};
    }
  }
}
