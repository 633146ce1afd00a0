/** Records shared by the packages of the login service: accounts and their
    provider links, token claims, URLs, requests and responses, and the error
    values that travel between the packages. */
module Models {

  datatype Option<+T> = None | Some(value: T)

  datatype Result<+T> = Success(value: T) | Failure(error: Error)

  /** The error values of the service. `Coded` and `Wrapped` are the two
      constructors of the status-carrying error type; the others are plain
      error values produced by collaborators. */
  datatype Error =
    | NotFound                                        // the store's distinguished miss
    | Opaque(msg: string)                             // any other error value, known only by its message
    | NoSuchProvider(id: string)                      // the provider registry has no such identifier
    | Coded(msg: string, status: int)                 // a new error with an HTTP status
    | Wrapped(cause: Error, msg: string, status: int) // a cause wrapped with a message and an HTTP status

  /** True when `e` carries the HTTP status `status`. */
  predicate HasStatus(e: Error, status: int) {
    (e.Coded? || e.Wrapped?) && e.status == status
  }

  const StatusFound := 302
  const StatusBadRequest := 400
  const StatusInternalServerError := 500

  /** The role every newly created account receives. */
  const RoleUser := "user"
  /** The only role allowed to look accounts up by provider id. */
  const RoleAdmin := "admin"

  datatype User = User(id: string, name: string, email: string, role: string)

  /** The identity a provider reports: which kind of provider, and the id the
      provider assigned to the person. */
  datatype UserProvider = UserProvider(providerType: string, userID: string)

  /** The claims a session token carries (its expiry is left to the signer). */
  datatype Claims = Claims(issuer: string, userID: string, role: string)

  /** A parsed URL: the scheme and host the allow-list compares, and the
      URL's text as it prints. */
  datatype Url = Url(scheme: string, host: string, text: string)

  /** The token engine as the rest of the service uses it: the raw public
      key, and signing and decoding, which are abstract and can fail. */
  datatype Authorizer = Authorizer(
    publicKey: seq<bv8>,
    createToken: User -> Result<string>,
    decode: string -> Result<Claims>)

  /** A request: its form values and the claims attached to its context. */
  datatype Request = Request(form: map<string, string>, claims: Option<Claims>)

  /** The value of a form field; an absent field reads as the empty string. */
  function FormValue(form: map<string, string>, key: string): (v: string)
    ensures key in form ==> v == form[key]
    ensures key !in form ==> v == ""
  {
    if key in form then form[key] else ""
  }

  type Header = map<string, seq<string>>

  datatype Response = Response(status: int, header: Header, body: string)

  datatype SameSite = SameSiteDefault | SameSiteLax | SameSiteStrict | SameSiteNone

  datatype Cookie = Cookie(
    name: string, domain: string, value: string, path: string,
    sameSite: SameSite, httpOnly: bool, secure: bool)

  /** A header map that writers share with the code that fills them. */
  class HeaderMap {
    var entries: Header

    constructor (entries: Header)
      ensures this.entries == entries
    {
      this.entries := entries;
    }

    /** Replaces the values of `key` by the single value `v`. */
    method Set(key: string, v: string)
      modifies this
      ensures entries == old(entries)[key := [v]]
    {
      entries := entries[key := [v]];
    }
  }

  /** A response writer: its header map, the status once written (0 before),
      the cookies set on it and the body written to it. */
  class Writer {
    const header: HeaderMap
    var status: int
    var cookies: seq<Cookie>
    var body: string

    constructor (header: HeaderMap)
      ensures this.header == header && status == 0 && cookies == [] && body == ""
    {
      this.header := header;
      status, cookies, body := 0, [], "";
    }

    method WriteHeader(code: int)
      modifies this
      ensures status == code && cookies == old(cookies) && body == old(body)
    {
      status := code;
    }

    method SetCookie(c: Cookie)
      modifies this
      ensures cookies == old(cookies) + [c] && status == old(status) && body == old(body)
    {
      cookies := cookies + [c];
    }
  }
}
