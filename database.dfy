/** The MongoDB collections the routes read and write, held in memory. */
module Database {
  import opened Base
  import opened Users
  import opened Accommodations
  import opened Bookings

  /** The schema's `unique` index on `email`. */
  predicate UniqueEmails(users: seq<User>) {
    forall i, j :: 0 <= i < j < |users| ==> users[i].email != users[j].email
  }

  predicate UniqueIds(users: seq<User>) {
    forall i, j :: 0 <= i < j < |users| ==> users[i].id != users[j].id
  }

  /** What the user collection keeps true: unique emails and ids, ids below
      the next one to hand out, and every document valid against the schema. */
  predicate UsersValid(users: seq<User>, nextId: Id) {
    && UniqueEmails(users)
    && UniqueIds(users)
    && (forall i :: 0 <= i < |users| ==> users[i].id < nextId && SchemaHolds(users[i]))
  }

  class Store {
    var users: seq<User>
    var accommodations: seq<Accommodation>
    var bookings: seq<Booking>
    /** The next ObjectId to hand out; every stored id is below it. */
    var nextId: Id

    ghost predicate Valid()
      reads this
    {
      && UsersValid(users, nextId)
      && (forall i :: 0 <= i < |accommodations| ==> accommodations[i].id < nextId)
      && (forall i :: 0 <= i < |bookings| ==> bookings[i].id < nextId)
    }

    constructor ()
      ensures Valid()
      ensures users == [] && accommodations == [] && bookings == [] && nextId == 0
    {
      users, accommodations, bookings, nextId := [], [], [], 0;
    }
  }
}
