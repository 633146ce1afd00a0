/** The OAuth login flow: validation of the caller's return address against
    an allow-list, the login handler that stores a CSRF state in the
    session, the callback handler that checks it, reconciles the provider's
    identity with a local account and sets the session cookie. */
module OAuth {
  import opened Models
  import opened Repo
  import opened Users

  /** A provider as the handlers use it: its kind and name, and the two
      operations its client implements (building the login URL from a state
      and a callback URL, and exchanging a code for the user's identity). */
  datatype Provider = Provider(
    kind: string,
    name: string,
    buildLoginUrl: (string, string) -> string,
    getUser: string -> Result<(User, UserProvider)>)

  /** A session value: a string, or a value of some other type. */
  datatype Value = Str(s: string) | NonString

  type Values = map<string, Value>

  // ---------------------------------------------------------------------
  // Return address validation

  const SchemeMissing := Coded("invalid return url: scheme is missing", StatusBadRequest)
  const SchemeNotAllowed := Coded("invalid return url: scheme is not allowed", StatusBadRequest)
  const HostNotAllowed := Coded("invalid return url: host is not allowed", StatusBadRequest)

  /** `allowed[i]` is the first allow-list entry with host `host`. */
  ghost predicate FirstHostMatch(allowed: seq<Url>, host: string, i: int) {
    && 0 <= i < |allowed|
    && allowed[i].host == host
    && forall j :: 0 <= j < i ==> allowed[j].host != host
  }

  /** The allow-list search from entry `from` on: the first entry with the
      URL's host decides, accepting only when its scheme is the URL's. */
  function MatchAllowed(allowed: seq<Url>, from: nat, u: Url, returnTo: string): (r: Result<string>)
    requires from <= |allowed|
    requires forall j :: 0 <= j < from ==> allowed[j].host != u.host
    ensures r.Success? <==> exists i :: FirstHostMatch(allowed, u.host, i) && allowed[i].scheme == u.scheme
    ensures r.Success? ==> r.value == returnTo
    ensures r == Failure(SchemeNotAllowed) <==>
      exists i :: FirstHostMatch(allowed, u.host, i) && allowed[i].scheme != u.scheme
    ensures r == Failure(HostNotAllowed) <==> forall i :: 0 <= i < |allowed| ==> allowed[i].host != u.host
    ensures r.Failure? ==> r.error == SchemeNotAllowed || r.error == HostNotAllowed
    decreases |allowed| - from
  {
    if from == |allowed| then Failure(HostNotAllowed)
    else if allowed[from].host == u.host then
      assert FirstHostMatch(allowed, u.host, from);
      if allowed[from].scheme != u.scheme then Failure(SchemeNotAllowed) else Success(returnTo)
    else MatchAllowed(allowed, from + 1, u, returnTo)
  }

  /** `t` parses, has a scheme, and the first allow-list entry with its host
      has its scheme. */
  ghost predicate AllowedTarget(allowed: seq<Url>, parse: string -> Result<Url>, t: string) {
    && parse(t).Success?
    && parse(t).value.scheme != ""
    && exists i :: FirstHostMatch(allowed, parse(t).value.host, i) && allowed[i].scheme == parse(t).value.scheme
  }

  /** Validates the `return` form value: empty means no return address;
      otherwise it must parse, carry a scheme and pass the allow-list, and is
      then returned as given. `parse` stands for the URL parser. */
  function ParseReturnTo(allowed: seq<Url>, parse: string -> Result<Url>, returnTo: string): (r: Result<string>)
    ensures returnTo == "" ==> r == Success("")
    ensures returnTo != "" ==> (r.Success? <==> AllowedTarget(allowed, parse, returnTo))
    ensures r.Success? ==> r.value == returnTo
    ensures returnTo != "" && parse(returnTo).Failure? ==>
      r == Failure(Wrapped(parse(returnTo).error, "failed to parse return url", StatusBadRequest))
    ensures returnTo != "" && parse(returnTo).Success? && parse(returnTo).value.scheme == "" ==>
      r == Failure(SchemeMissing)
    ensures
      && returnTo != "" && parse(returnTo).Success? && parse(returnTo).value.scheme != ""
      && (forall i :: 0 <= i < |allowed| ==> allowed[i].host != parse(returnTo).value.host)
      ==> r == Failure(HostNotAllowed)
    ensures r.Failure? ==> HasStatus(r.error, StatusBadRequest)
  {
    if returnTo == "" then Success("")
    else match parse(returnTo)
      case Failure(e) => Failure(Wrapped(e, "failed to parse return url", StatusBadRequest))
      case Success(u) =>
        if u.scheme == "" then Failure(SchemeMissing)
        else MatchAllowed(allowed, 0, u, returnTo)
  }

  /** An entry whose host matches shadows every later entry with that host:
      with `(http, h)` listed before `(https, h)`, an https address on `h` is
      refused although the second entry matches it exactly. */
  lemma FirstEntryShadowsLaterOnes(h: string, t: string)
    ensures
      var allowed := [Url("http", h, "http://" + h), Url("https", h, "https://" + h)];
      var parse := (s: string) => Success(Url("https", h, s));
      ParseReturnTo(allowed, parse, "https://" + h + t) == Failure(SchemeNotAllowed)
  {
    var allowed := [Url("http", h, "http://" + h), Url("https", h, "https://" + h)];
    assert FirstHostMatch(allowed, h, 0);
  }

  // ---------------------------------------------------------------------
  // Session contents shared by login and callback

  /** The session a successful login leaves: the state, and the return
      address only when one was given. */
  function LoginValues(state: string, returnTo: string): (v: Values)
    ensures "state" in v && v["state"] == Str(state)
    ensures "return" in v <==> returnTo != ""
    ensures "return" in v ==> v["return"] == Str(returnTo)
    ensures v.Keys <= {"state", "return"}
  {
    if returnTo == "" then map["state" := Str(state)]
    else map["state" := Str(state), "return" := Str(returnTo)]
  }

  /** The stored return address: the `return` value when it is a string,
      the empty string otherwise. */
  function StoredReturn(values: Values): (s: string)
    ensures "return" in values && values["return"].Str? ==> s == values["return"].s
    ensures !("return" in values && values["return"].Str?) ==> s == ""
  {
    if "return" in values && values["return"].Str? then values["return"].s else ""
  }

  /** Where the callback redirects: the stored return address, or the root
      path when there is none. */
  function RedirectTarget(values: Values): (t: string)
    ensures t != ""
    ensures StoredReturn(values) != "" ==> t == StoredReturn(values)
    ensures StoredReturn(values) == "" ==> t == "/"
  {
    var ret := StoredReturn(values);
    if ret == "" then "/" else ret
  }

  /** The session cookie the callback sets: HTTP-only, same-site lax, for
      path `/`, with the stored return address (not its host) as domain,
      and secure unless the application URL's scheme is `http`. */
  function SessionCookie(name: string, appUrl: Url, values: Values, token: string): (c: Cookie)
    ensures c.name == name && c.value == token
    ensures c.path == "/" && c.httpOnly && c.sameSite == SameSiteLax
    ensures c.secure <==> appUrl.scheme != "http"
    ensures c.domain == StoredReturn(values)
  {
    Cookie(name, StoredReturn(values), token, "/", SameSiteLax, true, !(appUrl.scheme == "http"))
  }

  /** The callback redirects to the address the login stored, or to the root
      path when none was given, and scopes the cookie to that same string. */
  lemma CallbackTargetsLoginReturn(state: string, returnTo: string, name: string, appUrl: Url, token: string)
    ensures RedirectTarget(LoginValues(state, returnTo)) == if returnTo == "" then "/" else returnTo
    ensures SessionCookie(name, appUrl, LoginValues(state, returnTo), token).domain == returnTo
  {
  }

  /** Open-redirect defence: after a successful login and its callback, the
      redirect goes to the root path or to an allow-listed address. */
  lemma RedirectIsAllowListed(allowed: seq<Url>, parse: string -> Result<Url>, state: string, param: string)
    requires ParseReturnTo(allowed, parse, param).Success?
    ensures
      var t := RedirectTarget(LoginValues(state, ParseReturnTo(allowed, parse, param).value));
      t == "/" || AllowedTarget(allowed, parse, t)
  {
    var ret := ParseReturnTo(allowed, parse, param).value;
    CallbackTargetsLoginReturn(state, ret, "", Url("", "", ""), "");
  }

  /** The URL the provider is told to send the browser back to. */
  function CallbackUrl(appUrl: Url, p: Provider): (u: string)
    ensures u == appUrl.text + "/oauth/callback/" + p.kind + "/" + p.name
  {
    appUrl.text + "/oauth/callback/" + p.kind + "/" + p.name
  }

  // ---------------------------------------------------------------------
  // Callback checks

  /** The session holds the string `state` under key `state`. */
  predicate StateMatches(values: Values, state: string) {
    "state" in values && values["state"] == Str(state)
  }

  /** The callback's checks, in order: the form parses, the provider reported
      no error, a state was sent, the session loads, its state is the one
      sent, a code was sent. Gives the code, or the first failure. */
  function CheckCallback(formFault: Option<Error>, form: map<string, string>, session: Result<Values>): (r: Result<string>)
    ensures r.Success? <==>
      && formFault.None?
      && FormValue(form, "error") == ""
      && FormValue(form, "state") != ""
      && session.Success?
      && StateMatches(session.value, FormValue(form, "state"))
      && FormValue(form, "code") != ""
    ensures r.Success? ==> r.value == FormValue(form, "code")
    ensures r.Failure? ==> HasStatus(r.error, StatusBadRequest)
    // The first check that fails, in the order above, gives the error.
    ensures formFault.Some? ==> r == Failure(Wrapped(formFault.value, "failed to parse form", StatusBadRequest))
    ensures formFault.None? && FormValue(form, "error") != "" ==>
      r == Failure(Coded(FormValue(form, "error"), StatusBadRequest))
    ensures formFault.None? && FormValue(form, "error") == "" && FormValue(form, "state") == "" ==>
      r == Failure(Coded("state not found", StatusBadRequest))
    ensures
      && formFault.None? && FormValue(form, "error") == "" && FormValue(form, "state") != ""
      && session.Failure?
      ==> r == Failure(Wrapped(session.error, "failed to get session", StatusBadRequest))
    ensures
      && formFault.None? && FormValue(form, "error") == "" && FormValue(form, "state") != ""
      && session.Success? && !StateMatches(session.value, FormValue(form, "state"))
      ==> r == Failure(Coded("state mismatch", StatusBadRequest))
    ensures
      && formFault.None? && FormValue(form, "error") == "" && FormValue(form, "state") != ""
      && session.Success? && StateMatches(session.value, FormValue(form, "state"))
      && FormValue(form, "code") == ""
      ==> r == Failure(Coded("code not found", StatusBadRequest))
  {
    if formFault.Some? then Failure(Wrapped(formFault.value, "failed to parse form", StatusBadRequest))
    else if FormValue(form, "error") != "" then Failure(Coded(FormValue(form, "error"), StatusBadRequest))
    else if FormValue(form, "state") == "" then Failure(Coded("state not found", StatusBadRequest))
    else if session.Failure? then Failure(Wrapped(session.error, "failed to get session", StatusBadRequest))
    else if !StateMatches(session.value, FormValue(form, "state")) then Failure(Coded("state mismatch", StatusBadRequest))
    else if FormValue(form, "code") == "" then Failure(Coded("code not found", StatusBadRequest))
    else Success(FormValue(form, "code"))
  }

  /** A callback carrying the state its login stored, and a code, passes the
      checks. */
  lemma CallbackAcceptsLoginState(state: string, returnTo: string, form: map<string, string>)
    requires FormValue(form, "error") == "" && FormValue(form, "code") != ""
    requires state != "" && FormValue(form, "state") == state
    ensures CheckCallback(None, form, Success(LoginValues(state, returnTo))) == Success(FormValue(form, "code"))
  {
  }

  /** A callback carrying any other state is refused as a state mismatch,
      whether or not it has a code. */
  lemma CallbackRejectsForeignState(state: string, returnTo: string, form: map<string, string>)
    requires FormValue(form, "error") == ""
    requires FormValue(form, "state") != "" && FormValue(form, "state") != state
    ensures CheckCallback(None, form, Success(LoginValues(state, returnTo))) == Failure(Coded("state mismatch", StatusBadRequest))
  {
  }

  /** A session no login has written holds no state and matches nothing. */
  lemma CallbackRejectsEmptySession(form: map<string, string>, formFault: Option<Error>)
    ensures CheckCallback(formFault, form, Success(map[])).Failure?
  {
  }

  // ---------------------------------------------------------------------
  // Account reconciliation

  const GetUserFailed := "failed to get user"
  const AddProviderFailed := "failed to add user provider"
  const CreateUserFailed := "failed to create user"

  /** Finds or creates the account for a provider identity: by provider user
      id, then by e-mail address (linking the provider to the account found),
      then by creating the account. Only a NotFound miss moves on to the
      next step; any other failure, and a failed link or creation, ends the
      chain with an internal error and leaves the store as it was. Gives the
      account and the store afterwards. */
  function Reconcile(db: Db, ident: User, link: UserProvider, freshId: string): (out: (Result<User>, Db))
    ensures out.0.Failure? ==> out.1 == db && HasStatus(out.0.error, StatusInternalServerError)
    ensures out.1.faults == db.faults
    ensures db.faults == map[] ==> out.0.Success?
    ensures FindByProviderID(db, link.userID).Success? ==> out == (FindByProviderID(db, link.userID), db)
    ensures Valid(db) && freshId !in db.users && out.0.Success? ==>
      && link.userID in out.1.byProvider
      && out.1.byProvider[link.userID] == out.0.value.id
      && out.0.value.id in out.1.users
      && out.1.users[out.0.value.id] == out.0.value
    ensures freshId !in db.users ==>
      forall id :: id in db.users ==> id in out.1.users && out.1.users[id] == db.users[id]
    // Each step that fails in any way other than NotFound ends the chain.
    ensures var found := FindByProviderID(db, link.userID);
      found.Failure? && found.error != NotFound ==>
        out == (Failure(Wrapped(found.error, GetUserFailed, StatusInternalServerError)), db)
    ensures var byEmail := FindByEmail(db, ident.email);
      && FindByProviderID(db, link.userID) == Failure(NotFound)
      && byEmail.Failure? && byEmail.error != NotFound
      ==> out == (Failure(Wrapped(byEmail.error, GetUserFailed, StatusInternalServerError)), db)
    ensures var f := Fault(db, OpAddProvider);
      && FindByProviderID(db, link.userID) == Failure(NotFound)
      && FindByEmail(db, ident.email).Success? && f.Some?
      ==> out == (Failure(Wrapped(f.value, AddProviderFailed, StatusInternalServerError)), db)
    ensures var f := Fault(db, OpCreateUser);
      && FindByProviderID(db, link.userID) == Failure(NotFound)
      && FindByEmail(db, ident.email) == Failure(NotFound) && f.Some?
      ==> out == (Failure(Wrapped(f.value, CreateUserFailed, StatusInternalServerError)), db)
  {
    var found := FindByProviderID(db, link.userID);
    if found.Success? then (found, db)
    else if found.error != NotFound then (Failure(Wrapped(found.error, GetUserFailed, StatusInternalServerError)), db)
    else
      var byEmail := FindByEmail(db, ident.email);
      if byEmail.Success? then
        var f := Fault(db, OpAddProvider);
        if f.Some? then (Failure(Wrapped(f.value, AddProviderFailed, StatusInternalServerError)), db)
        else (byEmail, WithLink(db, link.userID, byEmail.value.id))
      else if byEmail.error != NotFound then (Failure(Wrapped(byEmail.error, GetUserFailed, StatusInternalServerError)), db)
      else
        var f := Fault(db, OpCreateUser);
        if f.Some? then (Failure(Wrapped(f.value, CreateUserFailed, StatusInternalServerError)), db)
        else (Success(Stamped(ident, freshId)), WithUser(db, Stamped(ident, freshId), Some(link.userID)))
  }

  /** Reconciliation keeps the store consistent. */
  lemma ReconcileKeepsValid(db: Db, ident: User, link: UserProvider, freshId: string)
    requires Valid(db) && freshId !in db.users
    ensures Valid(Reconcile(db, ident, link, freshId).1)
  {
    var found := FindByProviderID(db, link.userID);
    if found.Failure? && found.error == NotFound {
      var byEmail := FindByEmail(db, ident.email);
      if byEmail.Success? {
        WithLinkValid(db, link.userID, byEmail.value.id);
      } else if byEmail.error == NotFound {
        WithUserValid(db, Stamped(ident, freshId), Some(link.userID));
      }
    }
  }

  /** The store changes only after a NotFound miss by provider id, and gains
      an account only after a NotFound miss by e-mail address as well. */
  lemma ReconcileFallsThroughOnlyOnNotFound(db: Db, ident: User, link: UserProvider, freshId: string)
    ensures
      var out := Reconcile(db, ident, link, freshId);
      && (out.1 != db ==> FindByProviderID(db, link.userID) == Failure(NotFound))
      && (out.1.users != db.users ==>
            FindByProviderID(db, link.userID) == Failure(NotFound) &&
            FindByEmail(db, ident.email) == Failure(NotFound))
  {
  }

  /** Reconciling the same provider identity again gives the same account and
      changes nothing: no second account and no second link. */
  lemma ReconcileIdempotent(db: Db, ident: User, again: User, link: UserProvider, freshId: string, freshId2: string)
    requires Valid(db) && freshId !in db.users
    requires OpGetByProviderID !in db.faults
    requires Reconcile(db, ident, link, freshId).0.Success?
    ensures
      var first := Reconcile(db, ident, link, freshId);
      Reconcile(first.1, again, link, freshId2) == first
  {
    var first := Reconcile(db, ident, link, freshId);
    assert FindByProviderID(first.1, link.userID) == first.0;
  }

  /** A new provider identity whose e-mail address belongs to an account is
      linked to that account: no account is added, and the provider user id
      now leads to it. */
  lemma ReconcileLinksByEmail(db: Db, ident: User, link: UserProvider, freshId: string)
    requires FindByProviderID(db, link.userID) == Failure(NotFound)
    requires FindByEmail(db, ident.email).Success?
    requires OpAddProvider !in db.faults
    ensures
      var out := Reconcile(db, ident, link, freshId);
      var existing := FindByEmail(db, ident.email).value;
      && out.0 == Success(existing)
      && out.1.users == db.users
      && out.1.byProvider == db.byProvider[link.userID := existing.id]
  {
  }

  /** An identity unknown by provider id and by e-mail address gets a new
      account: the provider's record with a fresh id and the default role,
      linked to the provider user id. */
  lemma ReconcileCreatesOnDoubleMiss(db: Db, ident: User, link: UserProvider, freshId: string)
    requires FindByProviderID(db, link.userID) == Failure(NotFound)
    requires FindByEmail(db, ident.email) == Failure(NotFound)
    requires OpCreateUser !in db.faults
    requires freshId !in db.users
    ensures
      var out := Reconcile(db, ident, link, freshId);
      && out.0 == Success(Stamped(ident, freshId))
      && out.1.users == db.users[freshId := Stamped(ident, freshId)]
      && |out.1.users| == |db.users| + 1
      && out.1.byProvider == db.byProvider[link.userID := freshId]
  {
  }

  // ---------------------------------------------------------------------
  // Objects: the session and the handler

  /** The session bound to the caller's browser: `values` is the in-memory
      copy a handler works on, `stored` what the session store last saved. */
  class Session {
    var values: Values
    var stored: Values

    constructor (stored: Values)
      ensures values == map[] && this.stored == stored
    {
      values := map[];
      this.stored := stored;
    }

    /** Saves the values; `fault` is the store's failure, if any. */
    method Save(fault: Option<Error>) returns (err: Option<Error>)
      modifies this
      ensures err == fault && values == old(values)
      ensures stored == if fault.None? then values else old(stored)
    {
      err := fault;
      if fault.None? {
        stored := values;
      }
    }

    /** Loads the saved values; `fault` is the store's failure, if any. */
    method Load(fault: Option<Error>) returns (err: Option<Error>)
      modifies this
      ensures err == fault && stored == old(stored)
      ensures values == if fault.None? then stored else old(values)
    {
      err := fault;
      if fault.None? {
        values := stored;
      }
    }
  }

  /** The external calls the callback makes. */
  datatype ExternalCall = ExchangeCode(providerID: string, code: string) | IssueToken(user: User)

  class OAuthHandler {
    const providers: map<string, Provider>
    const appUrl: Url
    const allowedReturns: seq<Url>
    const parseUrl: string -> Result<Url>
    const cookieName: string
    const userService: Service
    const auth: Authorizer
    /** The provider exchanges and token issues made so far. */
    ghost var calls: seq<ExternalCall>

    constructor (providers: map<string, Provider>, appUrl: Url, allowedReturns: seq<Url>,
                 parseUrl: string -> Result<Url>, cookieName: string, userService: Service, auth: Authorizer)
      ensures this.providers == providers && this.appUrl == appUrl && this.allowedReturns == allowedReturns
      ensures this.parseUrl == parseUrl && this.cookieName == cookieName
      ensures this.userService == userService && this.auth == auth && calls == []
    {
      this.providers, this.appUrl, this.allowedReturns := providers, appUrl, allowedReturns;
      this.parseUrl, this.cookieName := parseUrl, cookieName;
      this.userService, this.auth := userService, auth;
      calls := [];
    }

    /** Starts a login: resets the session, stores the state (`generated`
        stands for the random state generator) and, when given and valid, the
        return address, then redirects to the provider's login page. The
        `save` faults are the session store's failures on its two saves. */
    method ServeLogin(session: Session, w: Writer, providerID: string, req: Request,
                      generated: Result<string>, saveStateFault: Option<Error>, saveReturnFault: Option<Error>)
      returns (err: Option<Error>)
      modifies session, w, w.header
      ensures err.Some? ==> unchanged(w, w.header)
      ensures err.None? ==> w.status == StatusFound
      ensures providerID !in providers ==>
        err == Some(Wrapped(NoSuchProvider(providerID), "failed to get provider", StatusBadRequest)) &&
        unchanged(session)
      ensures providerID in providers && generated.Failure? ==>
        err == Some(Wrapped(generated.error, "failed to generate a state", StatusInternalServerError)) &&
        session.values == map[] && session.stored == old(session.stored)
      ensures providerID in providers && generated.Success? && saveStateFault.Some? ==>
        err == Some(Wrapped(saveStateFault.value, "failed to save the state", StatusInternalServerError)) &&
        session.values == LoginValues(generated.value, "") && session.stored == old(session.stored)
      ensures providerID in providers && generated.Success? && saveStateFault.None? ==>
        var state := generated.value;
        var ret := ParseReturnTo(allowedReturns, parseUrl, FormValue(req.form, "return"));
        && (ret.Failure? ==>
              err == Some(ret.error) && session.stored == session.values == LoginValues(state, ""))
        && (ret.Success? && ret.value != "" && saveReturnFault.Some? ==>
              err == Some(Wrapped(saveReturnFault.value, "failed to save the return url", StatusInternalServerError)) &&
              session.values == LoginValues(state, ret.value) && session.stored == LoginValues(state, ""))
        && (ret.Success? && (ret.value == "" || saveReturnFault.None?) ==>
              && err.None?
              && session.stored == session.values == LoginValues(state, ret.value)
              && w.header.entries == old(w.header.entries)["Location" :=
                   [providers[providerID].buildLoginUrl(state, CallbackUrl(appUrl, providers[providerID]))]]
              && w.cookies == old(w.cookies))
    {
      if providerID !in providers {
        return Some(Wrapped(NoSuchProvider(providerID), "failed to get provider", StatusBadRequest));
      }
      var provider := providers[providerID];
      session.values := map[];
      if generated.Failure? {
        return Some(Wrapped(generated.error, "failed to generate a state", StatusInternalServerError));
      }
      var state := generated.value;
      session.values := session.values["state" := Str(state)];
      var saved := session.Save(saveStateFault);
      if saved.Some? {
        return Some(Wrapped(saved.value, "failed to save the state", StatusInternalServerError));
      }
      var ret := ParseReturnTo(allowedReturns, parseUrl, FormValue(req.form, "return"));
      if ret.Failure? {
        return Some(ret.error);
      }
      var returnTo := ret.value;
      if returnTo != "" {
        session.values := session.values["return" := Str(returnTo)];
        saved := session.Save(saveReturnFault);
        if saved.Some? {
          return Some(Wrapped(saved.value, "failed to save the return url", StatusInternalServerError));
        }
      }
      var redirectUrl := CallbackUrl(appUrl, provider);
      var loginUrl := provider.buildLoginUrl(state, redirectUrl);
      w.header.Set("Location", loginUrl);
      w.WriteHeader(StatusFound);
      err := None;
    }

    /** Finds or creates the account for the provider identity `ident` with
        link `link`, in the user store. */
    method ConstructUser(ident: User, link: UserProvider, freshId: string) returns (r: Result<User>)
      requires freshId !in userService.repo.users
      modifies userService.repo
      ensures (r, userService.repo.Snapshot()) == Reconcile(old(userService.repo.Snapshot()), ident, link, freshId)
    {
      var found := userService.GetByProviderID(link.userID);
      if found.Success? {
        return found;
      }
      if found.error != NotFound {
        return Failure(Wrapped(found.error, GetUserFailed, StatusInternalServerError));
      }
      var byEmail := FindByEmail(userService.repo.Snapshot(), ident.email);
      if byEmail.Success? {
        var err := userService.repo.AddProvider(link.userID, byEmail.value.id);
        if err.Some? {
          return Failure(Wrapped(err.value, AddProviderFailed, StatusInternalServerError));
        }
        return byEmail;
      }
      if byEmail.error != NotFound {
        return Failure(Wrapped(byEmail.error, GetUserFailed, StatusInternalServerError));
      }
      var _, created := userService.Create(ident, freshId, Some(link.userID));
      if created.Failure? {
        return Failure(Wrapped(created.error, CreateUserFailed, StatusInternalServerError));
      }
      r := created;
    }

    /** Completes a login: checks the callback against the session, exchanges
        the code, reconciles the account, issues a token and redirects with
        the session cookie. `formFault` and `loadFault` are the failures of
        form parsing and of loading the session, if any. The session is left
        as it was. */
    method ServeCallback(session: Session, w: Writer, providerID: string, req: Request,
                         formFault: Option<Error>, loadFault: Option<Error>, freshId: string)
      returns (err: Option<Error>)
      requires freshId !in userService.repo.users
      modifies this, session, w, w.header, userService.repo
      ensures session.stored == old(session.stored)
      ensures err.Some? ==> unchanged(w, w.header)
      ensures providerID !in providers ==>
        err == Some(Wrapped(NoSuchProvider(providerID), "failed to get provider", StatusBadRequest)) &&
        calls == old(calls) && unchanged(userService.repo)
      ensures providerID in providers ==>
        var loaded := if loadFault.Some? then Failure(loadFault.value) else Success(old(session.stored));
        var gate := CheckCallback(formFault, req.form, loaded);
        && (gate.Failure? ==>
              err == Some(gate.error) && calls == old(calls) && unchanged(userService.repo))
        && (gate.Success? ==>
              var exchanged := providers[providerID].getUser(gate.value);
              && (exchanged.Failure? ==>
                    err == Some(Wrapped(exchanged.error, "failed to get user from provider", StatusInternalServerError)) &&
                    calls == old(calls) + [ExchangeCode(providerID, gate.value)] && unchanged(userService.repo))
              && (exchanged.Success? ==>
                    var rec := Reconcile(old(userService.repo.Snapshot()), exchanged.value.0, exchanged.value.1, freshId);
                    && userService.repo.Snapshot() == rec.1
                    && (rec.0.Failure? ==>
                          err == Some(rec.0.error) && calls == old(calls) + [ExchangeCode(providerID, gate.value)])
                    && (rec.0.Success? ==>
                          var token := auth.createToken(rec.0.value);
                          && calls == old(calls) + [ExchangeCode(providerID, gate.value), IssueToken(rec.0.value)]
                          && (token.Failure? ==>
                                err == Some(Wrapped(token.error, "failed to create token", StatusInternalServerError)))
                          && (token.Success? ==>
                                && err.None?
                                && w.cookies == old(w.cookies) + [SessionCookie(cookieName, appUrl, old(session.stored), token.value)]
                                && w.header.entries == old(w.header.entries)["Location" := [RedirectTarget(old(session.stored))]]
                                && w.status == StatusFound
                                && w.body == old(w.body)))))
    {
      if providerID !in providers {
        return Some(Wrapped(NoSuchProvider(providerID), "failed to get provider", StatusBadRequest));
      }
      var provider := providers[providerID];
      if formFault.Some? {
        return Some(Wrapped(formFault.value, "failed to parse form", StatusBadRequest));
      }
      var formError := FormValue(req.form, "error");
      if formError != "" {
        return Some(Coded(formError, StatusBadRequest));
      }
      var state := FormValue(req.form, "state");
      if state == "" {
        return Some(Coded("state not found", StatusBadRequest));
      }
      var loadErr := session.Load(loadFault);
      if loadErr.Some? {
        return Some(Wrapped(loadErr.value, "failed to get session", StatusBadRequest));
      }
      if !StateMatches(session.values, state) {
        return Some(Coded("state mismatch", StatusBadRequest));
      }
      var code := FormValue(req.form, "code");
      if code == "" {
        return Some(Coded("code not found", StatusBadRequest));
      }
      calls := calls + [ExchangeCode(providerID, code)];
      var exchanged := provider.getUser(code);
      if exchanged.Failure? {
        return Some(Wrapped(exchanged.error, "failed to get user from provider", StatusInternalServerError));
      }
      var (ident, link) := exchanged.value;
      var u := ConstructUser(ident, link, freshId);
      if u.Failure? {
        return Some(u.error);
      }
      calls := calls + [IssueToken(u.value)];
      var token := auth.createToken(u.value);
      if token.Failure? {
        return Some(Wrapped(token.error, "failed to create token", StatusInternalServerError));
      }
      var cookie := SessionCookie(cookieName, appUrl, session.values, token.value);
      var returnTo := RedirectTarget(session.values);
      w.SetCookie(cookie);
      w.header.Set("Location", returnTo);
      w.WriteHeader(StatusFound);
      err := None;
    }
  }

  /** One browser's login and callback with no return address, against a
      store that reports no failures: the login redirects to the provider's
      login URL built from the generated state, the callback accepts that
      state, finds or creates the account, and redirects to the root path
      with a cookie holding the token issued for that account. */
  method LoginThenCallback(h: OAuthHandler, providerID: string, state: string, code: string, freshId: string)
    returns (loginW: Writer, callbackW: Writer, account: User)
    requires providerID in h.providers && state != "" && code != ""
    requires h.providers[providerID].getUser(code).Success?
    requires h.userService.repo.faults == map[]
    requires Valid(h.userService.repo.Snapshot()) && freshId !in h.userService.repo.users
    requires forall u :: h.auth.createToken(u).Success?
    modifies h, h.userService.repo
    ensures loginW.status == StatusFound
    ensures loginW.header.entries == map["Location" :=
      [h.providers[providerID].buildLoginUrl(state, CallbackUrl(h.appUrl, h.providers[providerID]))]]
    ensures callbackW.status == StatusFound && callbackW.header.entries == map["Location" := ["/"]]
    ensures |callbackW.cookies| == 1
    ensures callbackW.cookies[0].value == h.auth.createToken(account).value && callbackW.cookies[0].domain == ""
    ensures account.id in h.userService.repo.users && h.userService.repo.users[account.id] == account
    ensures
      var pid := h.providers[providerID].getUser(code).value.1.userID;
      pid in h.userService.repo.byProvider && h.userService.repo.byProvider[pid] == account.id
  {
    var session := new Session(map[]);
    var loginHeader := new HeaderMap(map[]);
    loginW := new Writer(loginHeader);
    var loginErr := h.ServeLogin(session, loginW, providerID, Request(map[], None), Success(state), None, None);
    assert session.stored == LoginValues(state, "");

    var identity := h.providers[providerID].getUser(code).value;
    account := Reconcile(h.userService.repo.Snapshot(), identity.0, identity.1, freshId).0.value;

    var callbackHeader := new HeaderMap(map[]);
    callbackW := new Writer(callbackHeader);
    var form := map["state" := state, "code" := code];
    CallbackAcceptsLoginState(state, "", form);
    var callbackErr := h.ServeCallback(session, callbackW, providerID, Request(form, None), None, None, freshId);
  }
}
