/**
 * The document store the handlers talk to: the `complaints` and `users`
 * collections as two keyed tables, and the primitive writes the handlers
 * issue (create, update by id, delete). Reads are plain look-ups in the maps.
 */
module Db {
  import opened Js
  import opened ComplaintSchema

  /**
   * A user document, with the fields the handlers read and write. The user
   * schema itself is not part of this model, so every field that comes
   * straight from a request body may be undefined.
   */
  datatype User = User(name: Option<string>, email: Option<string>, password: Option<string>, role: string)

  /** No two users share an email (an absent email counts as one value). */
  predicate UniqueEmails(users: map<Id, User>)
  {
    forall a, b :: a in users && b in users && users[a].email == users[b].email ==> a == b
  }

  /** `User.findOne({ email })` finds something. */
  predicate EmailTaken(users: map<Id, User>, email: Option<string>)
    ensures users == map[] ==> !EmailTaken(users, email)
    ensures UniqueEmails(users) && EmailTaken(users, email) ==>
      exists id :: id in users && users[id].email == email && forall j :: j in users && users[j].email == email ==> j == id
  {
    exists id :: id in users && users[id].email == email
  }

  /** The id `protect` gives the built-in administrator. It is not an ObjectId. */
  const AdminId := "admin-id"

  /**
   * Whether `id` can be cast to an ObjectId when it is put in a complaint's
   * `user` field or in a query on it. Every id the store mints is one (see
   * `FreshId`); the built-in administrator's "admin-id" is not, so such a
   * query or write fails with a cast error (500).
   */
  predicate Castable(id: Id)
  {
    id != AdminId
  }

  /** A fresh identifier for a new document: one character longer than every key in use, and an ObjectId. */
  method FreshId<V>(table: map<Id, V>) returns (id: Id)
    ensures id !in table
    ensures Castable(id)
  {
    var longest: nat := 0;
    var rest := table.Keys;
    while rest != {}
      invariant rest <= table.Keys
      invariant forall k :: k in table.Keys - rest ==> |k| <= longest
      decreases rest
    {
      var k :| k in rest;
      if |k| > longest {
        longest := |k|;
      }
      rest := rest - {k};
    }
    id := seq(longest + 1, _ => 'o');
    assert forall k :: k in table ==> |k| < |id|;
    assert id[0] != AdminId[0];
  }

  class Store {
    var complaints: map<Id, Complaint>
    var users: map<Id, User>

    /** An empty database. */
    constructor ()
      ensures complaints == map[] && users == map[]
    {
      complaints := map[];
      users := map[];
    }

    /** Inserts a new complaint under a fresh id. */
    method InsertComplaint(c: Complaint) returns (id: Id)
      modifies this
      ensures id !in old(complaints) && Castable(id)
      ensures complaints == old(complaints)[id := c] && users == old(users)
    {
      id := FreshId(complaints);
      complaints := complaints[id := c];
    }

    /** Overwrites the complaint stored under `id`. */
    method ReplaceComplaint(id: Id, c: Complaint)
      requires id in complaints
      modifies this
      ensures complaints == old(complaints)[id := c] && users == old(users)
    {
      complaints := complaints[id := c];
    }

    /** Deletes the complaint stored under `id`. */
    method RemoveComplaint(id: Id)
      modifies this
      ensures complaints == old(complaints) - {id} && users == old(users)
    {
      complaints := complaints - {id};
    }

    /** Inserts a new user under a fresh id. */
    method InsertUser(u: User) returns (id: Id)
      modifies this
      ensures id !in old(users) && Castable(id)
      ensures users == old(users)[id := u] && complaints == old(complaints)
    {
      id := FreshId(users);
      users := users[id := u];
    }
  }
}
