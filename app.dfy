/** The application layer: token operations delegated to the token engine,
    and account lookups guarded by the claims attached to the request. */
module Application {
  import opened Models
  import opened Repo
  import opened Users

  datatype App = App(auth: Authorizer, users: Service)

  const Unauthorized := Opaque("unauthorized")
  const Forbidden := Opaque("forbidden")

  /** The token engine's public key, as the engine holds it. */
  function PublicKey(app: App): (r: seq<bv8>)
    ensures r == app.auth.publicKey
  {
    app.auth.publicKey
  }

  /** Signs a token for `u`; the engine's result or failure, unchanged. */
  function CreateToken(app: App, u: User): (r: Result<string>)
    ensures r == app.auth.createToken(u)
  {
    app.auth.createToken(u)
  }

  /** Decodes `token`; the engine's claims or failure, unchanged. */
  function DecodeToken(app: App, token: string): (r: Result<Claims>)
    ensures r == app.auth.decode(token)
  {
    app.auth.decode(token)
  }

  /** The account `id`, readable only by the caller whose claims name it. */
  function GetUserByID(app: App, claims: Option<Claims>, id: string): (r: Result<User>)
    reads app.users.repo
    ensures claims.None? ==> r == Failure(Unauthorized)
    ensures claims.Some? && claims.value.userID != id ==> r == Failure(Forbidden)
    ensures claims.Some? && claims.value.userID == id ==> r == FindByID(app.users.repo.Snapshot(), id)
    ensures r.Success? ==> claims.Some? && claims.value.userID == id
  {
    if claims.None? then Failure(Unauthorized)
    else if claims.value.userID != id then Failure(Forbidden)
    else app.users.GetByID(id)
  }

  /** The account linked to provider user id `pid`, readable by admins only. */
  function GetUserByProviderID(app: App, claims: Option<Claims>, pid: string): (r: Result<User>)
    reads app.users.repo
    ensures claims.None? ==> r == Failure(Unauthorized)
    ensures claims.Some? && claims.value.role != RoleAdmin ==> r == Failure(Forbidden)
    ensures claims.Some? && claims.value.role == RoleAdmin ==> r == FindByProviderID(app.users.repo.Snapshot(), pid)
    ensures r.Success? ==> claims.Some? && claims.value.role == RoleAdmin
  {
    if claims.None? then Failure(Unauthorized)
    else if claims.value.role != RoleAdmin then Failure(Forbidden)
    else app.users.GetByProviderID(pid)
  }

  /** The account named by `token`, returned only to a caller whose own
      claims name the same account. */
  function WhoAmI(app: App, claims: Option<Claims>, token: string): (r: Result<User>)
    reads app.users.repo
    ensures app.auth.decode(token).Failure? ==> r == Failure(app.auth.decode(token).error)
    ensures r.Success? <==>
      && app.auth.decode(token).Success?
      && claims.Some?
      && claims.value.userID == app.auth.decode(token).value.userID
      && FindByID(app.users.repo.Snapshot(), claims.value.userID).Success?
    ensures app.auth.decode(token).Success? ==> r == GetUserByID(app, claims, app.auth.decode(token).value.userID)
    ensures r.Success? && Valid(app.users.repo.Snapshot()) ==>
      r.value.id == app.auth.decode(token).value.userID == claims.value.userID
  {
    var t := app.auth.decode(token);
    if t.Failure? then Failure(t.error)
    else GetUserByID(app, claims, t.value.userID)
  }

  /** A caller holding no claims is refused before any lookup, whatever the
      store holds and whatever is asked for. */
  lemma NoClaimsNoLookup(app: App, id: string, pid: string, token: string)
    ensures GetUserByID(app, None, id) == Failure(Unauthorized)
    ensures GetUserByProviderID(app, None, pid) == Failure(Unauthorized)
    ensures app.auth.decode(token).Success? ==> WhoAmI(app, None, token) == Failure(Unauthorized)
  {
  }

  /** Creates an account with no authorization check of any kind, and
      forwards the service's account or failure. */
  method CreateUser(app: App, u: User, freshId: string) returns (r: Result<User>)
    requires freshId !in app.users.repo.users
    modifies app.users.repo
    ensures Fault(old(app.users.repo.Snapshot()), OpCreateUser).Some? ==>
      r == Failure(Fault(old(app.users.repo.Snapshot()), OpCreateUser).value) &&
      app.users.repo.Snapshot() == old(app.users.repo.Snapshot())
    ensures Fault(old(app.users.repo.Snapshot()), OpCreateUser).None? ==>
      r == Success(Stamped(u, freshId)) &&
      app.users.repo.Snapshot() == WithUser(old(app.users.repo.Snapshot()), Stamped(u, freshId), None)
  {
    var _, res := app.users.Create(u, freshId, None);
    r := res;
  }
}
