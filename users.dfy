/** The user documents that the artisan directory and the admin console read and change.
    The User schema itself is not part of this model: a user is the record of the fields
    those handlers filter on, sort by or set. */
module Users {
  import opened Common

  datatype Location = Location(city: Option<string>, state: Option<string>,
                               country: Option<string>, zipCode: Option<string>)

  datatype User = User(
    id: Id,
    name: string,
    email: string,
    phone: Option<string>,
    role: Role,
    isActive: bool,
    isVerified: bool,
    skills: seq<string>,
    bio: Option<string>,
    location: Option<Location>,
    experience: Option<int>,
    rating: int,
    createdAt: nat)

  predicate KeyedById(m: map<Id, User>) {
    forall k :: k in m ==> m[k].id == k
  }

  /** The user collection. Registration and login are not part of this model, so the
      collection starts from any set of users keyed by their ids. */
  class UserTable {
    var users: map<Id, User>

    ghost predicate Valid()
      reads this
    {
      KeyedById(users)
    }

    constructor (initial: map<Id, User>)
      requires KeyedById(initial)
      ensures Valid() && users == initial
    {
      users := initial;
    }

    /** Replaces the stored user under its own id (`user.save()`). */
    method Put(u: User)
      requires Valid() && u.id in users
      modifies this
      ensures Valid() && users == old(users)[u.id := u]
    {
      users := users[u.id := u];
    }

    /** `user.deleteOne()`. */
    method Remove(id: Id)
      requires Valid()
      modifies this
      ensures Valid() && users == old(users) - {id}
    {
      users := users - {id};
    }
  }
}
