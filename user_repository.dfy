/** The `users` table that `UserRepository` reads and writes, keyed by
    primary id, with `email` as a unique column. */
module Users {
  import opened Text
  import opened UserEntity

  class UserRepository {
    var users: map<string, User>

    ghost predicate Valid()
      reads this
    {
      && (forall id :: id in users ==> users[id].id == id)
      && (forall i, j :: i in users && j in users && users[i].email == users[j].email ==> i == j)
    }

    constructor ()
      ensures Valid() && users == map[]
    {
      users := map[];
    }

    function FindById(id: string): (r: Option<User>)
      reads this
      ensures r.Some? <==> id in users
      ensures r.Some? ==> r.value == users[id]
    {
      if id in users then Some(users[id]) else None
    }

    /** The one user with that email, if any. */
    function FindByEmail(email: string): (r: Option<User>)
      reads this
      requires Valid()
      ensures r.Some? <==> exists id :: id in users && users[id].email == email
      ensures r.Some? ==> r.value.id in users && users[r.value.id] == r.value && r.value.email == email
    {
      if exists id :: id in users && users[id].email == email then
        var id :| id in users && users[id].email == email;
        Some(users[id])
      else None
    }

    /** Saves a new user row under a fresh id; the email must not be taken
        (the unique column). */
    method Create(u: User)
      requires Valid()
      requires u.id !in users
      requires forall i :: i in users ==> users[i].email != u.email
      modifies this
      ensures Valid()
      ensures users == old(users)[u.id := u]
    {
      users := users[u.id := u];
    }

    /** Replaces the stored hash of one user; an unknown id changes nothing. */
    method UpdatePassword(id: string, hash: PasswordHash)
      requires Valid()
      modifies this
      ensures Valid()
      ensures id in old(users) ==> users == old(users)[id := old(users)[id].(password := hash)]
      ensures id !in old(users) ==> users == old(users)
    {
      if id in users {
        users := users[id := users[id].(password := hash)];
      }
    }
  }
}
