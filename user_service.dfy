/** The user service: creates accounts with a fresh id and the default role,
    and passes account lookups through to the store. */
module Users {
  import opened Models
  import opened Repo

  /** The account as `Create` stores it: the caller's record with its id
      replaced by the fresh id and its role by the default role, whatever
      they held before. */
  function Stamped(u: User, freshId: string): (r: User)
    ensures r.id == freshId && r.role == RoleUser
    ensures r.name == u.name && r.email == u.email
  {
    u.(id := freshId, role := RoleUser)
  }

  /** Whatever id and role the caller supplies, the stored account is the
      same: only the name and e-mail address of the input survive. */
  lemma StampedIgnoresIdAndRole(u: User, v: User, freshId: string)
    requires u.name == v.name && u.email == v.email
    ensures Stamped(u, freshId) == Stamped(v, freshId)
  {
  }

  class Service {
    const repo: Store

    constructor (repo: Store)
      ensures this.repo == repo
    {
      this.repo := repo;
    }

    /** Stamps `u` with `freshId` and the default role and stores it.
        `stamped` is what the caller's record holds afterwards, on failure
        too; `r` is the stored account, or the store's failure unchanged.
        `link` is the provider user id to link to the new account, if any. */
    method Create(u: User, freshId: string, link: Option<string>) returns (stamped: User, r: Result<User>)
      requires freshId !in repo.users
      modifies repo
      ensures stamped == Stamped(u, freshId)
      ensures Fault(old(repo.Snapshot()), OpCreateUser).Some? ==>
        r == Failure(Fault(old(repo.Snapshot()), OpCreateUser).value) && repo.Snapshot() == old(repo.Snapshot())
      ensures Fault(old(repo.Snapshot()), OpCreateUser).None? ==>
        r == Success(stamped) && repo.Snapshot() == WithUser(old(repo.Snapshot()), stamped, link)
      ensures r.Success? ==> freshId in repo.users && repo.users[freshId] == r.value
    {
      stamped := Stamped(u, freshId);
      var err := repo.CreateUser(stamped, link);
      if err.Some? {
        return stamped, Failure(err.value);
      }
      r := Success(stamped);
    }

    /** The store's account with id `id`, or the store's error, unchanged. */
    function GetByID(id: string): (r: Result<User>)
      reads repo
      ensures r == FindByID(repo.Snapshot(), id)
    {
      FindByID(repo.Snapshot(), id)
    }

    /** The store's account linked to provider user id `pid`, or the store's
        error, unchanged. */
    function GetByProviderID(pid: string): (r: Result<User>)
      reads repo
      ensures r == FindByProviderID(repo.Snapshot(), pid)
    {
      FindByProviderID(repo.Snapshot(), pid)
    }
  }

  /** In a consistent store, a successful lookup by id returns the account
      with exactly that id. */
  lemma GetByIDReturnsThatAccount(s: Service, id: string)
    requires Valid(s.repo.Snapshot())
    ensures s.GetByID(id).Success? ==> s.GetByID(id).value.id == id
  {
  }
}
