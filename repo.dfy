/** An in-memory account store standing for the repository interface the
    service talks to: accounts keyed by id, an index from provider-assigned
    user ids to account ids, an index from e-mail addresses to account ids,
    and, per operation, an optional failure the store reports instead of
    doing its work. */
module Repo {
  import opened Models

  /** The store operations that can fail. */
  datatype Op = OpGetByID | OpGetByProviderID | OpGetByEmail | OpCreateUser | OpAddProvider

  datatype Db = Db(
    users: map<string, User>,
    byProvider: map<string, string>,
    byEmail: map<string, string>,
    faults: map<Op, string>)

  /** The store's consistency: accounts are keyed by their own id, every index
      entry names an existing account, the e-mail index agrees with the
      accounts and covers every account's address. */
  ghost predicate Valid(db: Db) {
    && (forall id :: id in db.users ==> db.users[id].id == id)
    && (forall p :: p in db.byProvider ==> db.byProvider[p] in db.users)
    && (forall e :: e in db.byEmail ==> db.byEmail[e] in db.users && db.users[db.byEmail[e]].email == e)
    && (forall id :: id in db.users ==> db.users[id].email in db.byEmail)
  }

  /** The failure the store reports for `op`, if any. */
  function Fault(db: Db, op: Op): (f: Option<Error>)
    ensures f.Some? <==> op in db.faults
    ensures f.Some? ==> f.value == Opaque(db.faults[op]) && f.value != NotFound
  {
    if op in db.faults then Some(Opaque(db.faults[op])) else None
  }

  function FindByID(db: Db, id: string): (r: Result<User>)
    ensures OpGetByID in db.faults ==> r == Failure(Opaque(db.faults[OpGetByID]))
    ensures OpGetByID !in db.faults ==>
      (r.Success? <==> id in db.users) &&
      (r.Success? ==> r.value == db.users[id]) &&
      (r.Failure? ==> r.error == NotFound)
  {
    if OpGetByID in db.faults then Failure(Opaque(db.faults[OpGetByID]))
    else if id in db.users then Success(db.users[id])
    else Failure(NotFound)
  }

  /** Looks an account up by the provider-assigned user id alone. */
  function FindByProviderID(db: Db, pid: string): (r: Result<User>)
    ensures OpGetByProviderID in db.faults ==> r == Failure(Opaque(db.faults[OpGetByProviderID]))
    ensures OpGetByProviderID !in db.faults ==>
      (r.Success? <==> pid in db.byProvider && db.byProvider[pid] in db.users) &&
      (r.Success? ==> r.value == db.users[db.byProvider[pid]]) &&
      (r.Failure? ==> r.error == NotFound)
  {
    if OpGetByProviderID in db.faults then Failure(Opaque(db.faults[OpGetByProviderID]))
    else if pid in db.byProvider && db.byProvider[pid] in db.users then Success(db.users[db.byProvider[pid]])
    else Failure(NotFound)
  }

  function FindByEmail(db: Db, email: string): (r: Result<User>)
    ensures OpGetByEmail in db.faults ==> r == Failure(Opaque(db.faults[OpGetByEmail]))
    ensures OpGetByEmail !in db.faults ==>
      (r.Success? <==> email in db.byEmail && db.byEmail[email] in db.users) &&
      (r.Success? ==> r.value == db.users[db.byEmail[email]]) &&
      (r.Failure? ==> r.error == NotFound)
  {
    if OpGetByEmail in db.faults then Failure(Opaque(db.faults[OpGetByEmail]))
    else if email in db.byEmail && db.byEmail[email] in db.users then Success(db.users[db.byEmail[email]])
    else Failure(NotFound)
  }

  /** The store after linking provider user id `pid` to account `id`. */
  function WithLink(db: Db, pid: string, id: string): (r: Db)
    ensures r.users == db.users && r.byEmail == db.byEmail && r.faults == db.faults
    ensures r.byProvider.Keys == db.byProvider.Keys + {pid} && r.byProvider[pid] == id
    ensures forall p :: p in db.byProvider && p != pid ==> r.byProvider[p] == db.byProvider[p]
  {
    db.(byProvider := db.byProvider[pid := id])
  }

  /** The store after inserting account `u`, indexing its e-mail address
      unless another account already holds that index entry, and linking
      provider user id `link` to it when one is given. */
  function WithUser(db: Db, u: User, link: Option<string>): (r: Db)
    ensures r.users == db.users[u.id := u] && r.faults == db.faults
    ensures u.email in r.byEmail && r.byEmail.Keys == db.byEmail.Keys + {u.email}
    ensures forall e :: e in db.byEmail ==> r.byEmail[e] == db.byEmail[e]
    ensures link.None? ==> r.byProvider == db.byProvider
    ensures link.Some? ==> r.byProvider == db.byProvider[link.value := u.id]
  {
    var indexed := db.(users := db.users[u.id := u],
                       byEmail := if u.email in db.byEmail then db.byEmail else db.byEmail[u.email := u.id]);
    if link.Some? then WithLink(indexed, link.value, u.id) else indexed
  }

  /** Linking keeps the store consistent when the account exists. */
  lemma WithLinkValid(db: Db, pid: string, id: string)
    requires Valid(db) && id in db.users
    ensures Valid(WithLink(db, pid, id))
  {
  }

  /** Inserting an account under a fresh id keeps the store consistent. */
  lemma WithUserValid(db: Db, u: User, link: Option<string>)
    requires Valid(db) && u.id !in db.users
    ensures Valid(WithUser(db, u, link))
  {
    var r := WithUser(db, u, link);
    forall e | e in r.byEmail
      ensures r.byEmail[e] in r.users && r.users[r.byEmail[e]].email == e
    {
      if e in db.byEmail {
        assert db.byEmail[e] != u.id;
      }
    }
  }

  /** The account store object: the same maps as `Db`, updated in place. */
  class Store {
    var users: map<string, User>
    var byProvider: map<string, string>
    var byEmail: map<string, string>
    var faults: map<Op, string>

    constructor (faults: map<Op, string>)
      ensures Snapshot() == Db(map[], map[], map[], faults)
    {
      users, byProvider, byEmail := map[], map[], map[];
      this.faults := faults;
    }

    /** The store's current contents as a value. */
    function Snapshot(): Db
      reads this
    {
      Db(users, byProvider, byEmail, faults)
    }

    /** Stores a new account, linking provider user id `link` to it when
        one is given; nothing changes when the store reports a failure. */
    method CreateUser(u: User, link: Option<string>) returns (err: Option<Error>)
      modifies this
      ensures err == Fault(old(Snapshot()), OpCreateUser)
      ensures Snapshot() == if err.None? then WithUser(old(Snapshot()), u, link) else old(Snapshot())
    {
      err := Fault(Snapshot(), OpCreateUser);
      if err.None? {
        var r := WithUser(Snapshot(), u, link);
        users, byProvider, byEmail := r.users, r.byProvider, r.byEmail;
      }
    }

    /** Links provider user id `pid` to account `id`; nothing changes when the
        store reports a failure. */
    method AddProvider(pid: string, id: string) returns (err: Option<Error>)
      modifies this
      ensures err == Fault(old(Snapshot()), OpAddProvider)
      ensures Snapshot() == if err.None? then WithLink(old(Snapshot()), pid, id) else old(Snapshot())
    {
      err := Fault(Snapshot(), OpAddProvider);
      if err.None? {
        byProvider := byProvider[pid := id];
      }
    }
  }
}
