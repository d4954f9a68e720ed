/**
 * The per-user record and the document store that holds one per uid. The store helpers
 * themselves live outside the modelled files; they are modelled only as far as their call sites
 * use them: get-or-create is an upsert of a record whose initial contents the caller supplies,
 * increment adds one to `usageCount`, and setting the status assigns `isSubscribed`.
 */
module Users {
  import opened Wrappers

  /** The number of free analyses a non-subscribed user is granted. */
  const FreeAnalyses: nat := 5

  /** The fields of a user document that the core reads or writes. */
  datatype UserRecord = UserRecord(email: Option<string>, usageCount: nat, isSubscribed: bool)

  /** The store after a get-or-create: an existing record is kept, an unknown uid gets `newUser`. */
  function Upsert(users: map<string, UserRecord>, uid: string, newUser: UserRecord): (r: map<string, UserRecord>)
    ensures r.Keys == users.Keys + {uid}
    ensures r[uid] == if uid in users then users[uid] else newUser
    ensures forall v :: v in users ==> r[v] == users[v]
  {
    if uid in users then users else users[uid := newUser]
  }

  /** The store after incrementing the usage of `uid` by one; every other record is untouched. */
  function Incremented(users: map<string, UserRecord>, uid: string): (r: map<string, UserRecord>)
    ensures r.Keys == users.Keys
    ensures uid in users ==> r[uid] == users[uid].(usageCount := users[uid].usageCount + 1)
    ensures forall v :: v in users && v != uid ==> r[v] == users[v]
  {
    if uid in users then users[uid := users[uid].(usageCount := users[uid].usageCount + 1)] else users
  }

  /** The store after setting the subscription flag of `uid`; every other field and record is untouched. */
  function WithSubscription(users: map<string, UserRecord>, uid: string, subscribed: bool): (r: map<string, UserRecord>)
    ensures r.Keys == users.Keys
    ensures uid in users ==> r[uid] == users[uid].(isSubscribed := subscribed)
    ensures forall v :: v in users && v != uid ==> r[v] == users[v]
  {
    if uid in users then users[uid := users[uid].(isSubscribed := subscribed)] else users
  }

  /** The user collection, shared by the server actions, the webhook and the dashboard. */
  class Store {
    var users: map<string, UserRecord>

    constructor (initial: map<string, UserRecord>)
      ensures users == initial
    {
      users := initial;
    }

    /** Reads the record of `uid`, creating it from `newUser` when it does not exist yet. */
    method GetOrCreate(uid: string, newUser: UserRecord) returns (user: UserRecord)
      modifies this
      ensures users == Upsert(old(users), uid, newUser)
      ensures uid in users && user == users[uid]
    {
      if uid !in users {
        users := users[uid := newUser];
      }
      user := users[uid];
    }

    /** Adds one to the usage count of `uid`. */
    method IncrementUsage(uid: string)
      modifies this
      ensures users == Incremented(old(users), uid)
    {
      if uid in users {
        users := users[uid := users[uid].(usageCount := users[uid].usageCount + 1)];
      }
    }

    /** Assigns the subscription flag of `uid`. */
    method SetSubscriptionStatus(uid: string, subscribed: bool)
      modifies this
      ensures users == WithSubscription(old(users), uid, subscribed)
    {
      if uid in users {
        users := users[uid := users[uid].(isSubscribed := subscribed)];
      }
    }
  }
}
