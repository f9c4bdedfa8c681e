/**
 * The two static entry points that produce customers from the remote
 * service: `resolve` (look a customer up by email, username or plain
 * identifier) and `authenticate` (have the service check credentials, then
 * retrieve the authenticated customer).
 *
 * The HTTP client and `Retrievable::retrieve` are stood in for by `Remote`,
 * whose answers are fixed when it is built and which records every call.
 */
module CustomerProtocol {
  import opened PhpValues
  import opened Customers

  const ResolvePrefix: string := "relations/customers/customer/resolve/"
  const AuthPath: string := "relations/customers/auth"

  // ---------------------------------------------------------------------------
  // Credential selection

  /** What `resolve` accepts: a plain identifier or an array of credentials. */
  datatype Credentials = CStr(s: string) | CMap(m: map<string, Value>)

  /** The credentials as a PHP value. */
  function AsValue(credentials: Credentials): Value {
    match credentials
    case CStr(s) => Str(s)
    case CMap(m) => Arr(m)
  }

  /**
   * `$credentials[key] ?? fallback`, for a non-numeric offset such as
   * `email` or `username`: on a string such an offset is never set, so the
   * fallback is taken.
   */
  function OffsetOr(credentials: Credentials, key: string, fallback: Value): (r: Value)
    ensures credentials.CStr? ==> r == fallback
    ensures credentials.CMap? && IsSet(credentials.m, key) ==> r == credentials.m[key]
    ensures credentials.CMap? && !IsSet(credentials.m, key) ==> r == fallback
  {
    match credentials
    case CStr(_) => fallback
    case CMap(m) => Coalesce(m, key, fallback)
  }

  /**
   * The lookup key of `resolve`: the `email` entry if set and not null, else
   * the `username` entry if set and not null, else the input itself.
   */
  function ResolveKey(credentials: Credentials): (key: Value)
    ensures credentials.CStr? ==> key == Str(credentials.s)
    ensures credentials.CMap? && IsSet(credentials.m, "email") ==> key == credentials.m["email"]
    ensures credentials.CMap? && !IsSet(credentials.m, "email") && IsSet(credentials.m, "username") ==>
              key == credentials.m["username"]
    ensures credentials.CMap? && !IsSet(credentials.m, "email") && !IsSet(credentials.m, "username") ==>
              key == Arr(credentials.m)
  {
    OffsetOr(credentials, "email", OffsetOr(credentials, "username", AsValue(credentials)))
  }

  /** The path `resolve` reads: the prefix followed by the key as PHP spells it. */
  function ResolvePath(credentials: Credentials): (path: string)
    ensures |path| >= |ResolvePrefix| && path[..|ResolvePrefix|] == ResolvePrefix
    ensures credentials.CStr? ==> path == ResolvePrefix + credentials.s
  {
    ResolvePrefix + ToStr(ResolveKey(credentials))
  }

  /** When both are set, the email wins over the username. */
  lemma ResolvePrefersEmail(email: string, username: string)
    ensures ResolvePath(CMap(map["email" := Str(email), "username" := Str(username)])) == ResolvePrefix + email
  {
  }

  /** An integer key is spelt canonically in the path, and reads back as the same integer. */
  lemma ResolveByIntegerKey(m: map<string, Value>, id: PhpInt)
    requires "email" in m && m["email"] == Int(id)
    ensures var path := ResolvePath(CMap(m));
      && SpellsInt(path[|ResolvePrefix|..], id)
      && IsCanonicalDecimal(path[|ResolvePrefix|..])
      && ToInt(Str(path[|ResolvePrefix|..])) == id
  {
    var path := ResolvePath(CMap(m));
    assert path[|ResolvePrefix|..] == IntToDecimal(id);
    IntStringRoundTrip(id);
    IntToDecimalCanonical(id);
    IntToDecimalSpells(id);
  }

  /** The `username` sent by `authenticate`: email, else username, else null. */
  function AuthUsername(credentials: map<string, Value>): (username: Value)
    ensures IsSet(credentials, "email") ==> username == credentials["email"]
    ensures !IsSet(credentials, "email") && IsSet(credentials, "username") ==> username == credentials["username"]
    ensures !IsSet(credentials, "email") && !IsSet(credentials, "username") ==> username == Null
  {
    Coalesce(credentials, "email", Coalesce(credentials, "username", Null))
  }

  /**
   * The `field` sent by `authenticate`, chosen by key presence alone:
   * "mail" when an `email` key exists (whatever its value), else "username"
   * when a `username` key exists, else null.
   */
  function AuthField(credentials: map<string, Value>): (field: Value)
    ensures field == Str("mail") <==> "email" in credentials
    ensures field == Str("username") <==> "email" !in credentials && "username" in credentials
    ensures field == Null <==> "email" !in credentials && "username" !in credentials
  {
    if "email" in credentials then Str("mail")
    else if "username" in credentials then Str("username")
    else Null
  }

  /** `$credentials[key] ?? null`: the entry when there is one, else null. */
  function EntryOrNull(credentials: map<string, Value>, key: string): (v: Value)
    ensures v == if key in credentials then credentials[key] else Null
  {
    Coalesce(credentials, key, Null)
  }

  /** The body `authenticate` posts. */
  function AuthBody(credentials: map<string, Value>): (body: map<string, Value>)
    ensures body.Keys == {"username", "password", "field", "group"}
    ensures body["username"] == AuthUsername(credentials)
    ensures body["field"] == AuthField(credentials)
    ensures body["password"] == if "password" in credentials then credentials["password"] else Null
    ensures body["group"] == if "group" in credentials then credentials["group"] else Null
  {
    map[
      "username" := AuthUsername(credentials),
      "password" := EntryOrNull(credentials, "password"),
      "field" := AuthField(credentials),
      "group" := EntryOrNull(credentials, "group")
    ]
  }

  /** The posted `field` names the entry the posted `username` was taken from. */
  predicate FieldMatchesUsername(credentials: map<string, Value>) {
    var username := AuthUsername(credentials);
    match AuthField(credentials)
    case Str(f) => (f == "mail" && username == credentials["email"]) || (f == "username" && username == credentials["username"])
    case _ => username == Null
  }

  /**
   * Field and username disagree exactly when an `email` key is present with
   * a null value while a username is set: the username is then sent as the
   * identifier but the field says "mail".
   */
  lemma FieldDisagreement(credentials: map<string, Value>)
    ensures !FieldMatchesUsername(credentials) <==>
              "email" in credentials && credentials["email"] == Null && IsSet(credentials, "username")
  {
  }

  /** `{email: null, username: "bob"}` authenticates "bob" against the mail field. */
  lemma NullEmailExample()
    ensures var credentials := map["email" := Null, "username" := Str("bob")];
      AuthBody(credentials)["username"] == Str("bob") && AuthBody(credentials)["field"] == Str("mail")
  {
  }

  // ---------------------------------------------------------------------------
  // The remote side

  /** The decoded answer of the auth endpoint. */
  datatype AuthResponse = AuthResponse(authenticated: Value, passed: map<string, Value>)

  /** `$response->passed->customer_id`, null when the service sent none. */
  function PassedCustomerId(response: AuthResponse): (id: Value)
    ensures "customer_id" in response.passed ==> id == response.passed["customer_id"]
    ensures "customer_id" !in response.passed ==> id == Null
  {
    if "customer_id" in response.passed then response.passed["customer_id"] else Null
  }

  /** How a payload becomes the attributes of a new customer: an array's entries, else none. */
  function Hydration(payload: Value): (attributes: map<string, Value>)
    ensures payload.Arr? ==> attributes == payload.entries
    ensures !payload.Arr? ==> attributes == map[]
    ensures payload.Arr? && ToBool(payload) ==> |attributes| > 0
  {
    if payload.Arr? then payload.entries else map[]
  }

  datatype Call =
    | GetCall(path: string)
    | PostCall(path: string, body: map<string, Value>)
    | RetrieveCall(id: Value)

  /**
   * The API client together with `retrieve`: its answers are functions of
   * the request, and `calls` is the log of every request made.
   */
  class Remote {
    const answerGet: string -> Value
    const answerPost: (string, map<string, Value>) -> AuthResponse
    const answerRetrieve: Value -> Option<map<string, Value>>
    var calls: seq<Call>

    constructor (answerGet: string -> Value,
                 answerPost: (string, map<string, Value>) -> AuthResponse,
                 answerRetrieve: Value -> Option<map<string, Value>>)
      ensures this.answerGet == answerGet
      ensures this.answerPost == answerPost
      ensures this.answerRetrieve == answerRetrieve
      ensures calls == []
    {
      this.answerGet := answerGet;
      this.answerPost := answerPost;
      this.answerRetrieve := answerRetrieve;
      calls := [];
    }

    method Get(path: string) returns (response: Value)
      modifies this
      ensures calls == old(calls) + [GetCall(path)]
      ensures response == answerGet(path)
    {
      calls := calls + [GetCall(path)];
      response := answerGet(path);
    }

    method Post(path: string, body: map<string, Value>) returns (response: AuthResponse)
      modifies this
      ensures calls == old(calls) + [PostCall(path, body)]
      ensures response == answerPost(path, body)
    {
      calls := calls + [PostCall(path, body)];
      response := answerPost(path, body);
    }

    /** `Customer::retrieve($id)`: a fresh customer when the service knows `id`, else null. */
    method Retrieve(id: Value) returns (customer: Customer?)
      modifies this
      ensures calls == old(calls) + [RetrieveCall(id)]
      ensures customer == null <==> answerRetrieve(id).None?
      ensures customer != null ==> fresh(customer) && customer.attributes == answerRetrieve(id).value
    {
      calls := calls + [RetrieveCall(id)];
      match answerRetrieve(id)
      case Some(attributes) =>
        customer := new Customer(attributes);
      case None =>
        customer := null;
    }
  }

  // ---------------------------------------------------------------------------
  // The protocol

  /**
   * `Customer::resolve`: one read of the resolve path; a new customer holding
   * the returned attributes when they are truthy, null otherwise.
   */
  method Resolve(api: Remote, credentials: Credentials) returns (customer: Customer?)
    modifies api
    ensures api.calls == old(api.calls) + [GetCall(ResolvePath(credentials))]
    ensures customer != null <==> ToBool(api.answerGet(ResolvePath(credentials)))
    ensures customer != null ==>
              fresh(customer) && customer.attributes == Hydration(api.answerGet(ResolvePath(credentials)))
  {
    // The first assignment of the source is overwritten before it is read.
    var emailOrUsername := if credentials.CStr? then Str(credentials.s) else Arr(map[]);
    emailOrUsername := OffsetOr(credentials, "email", OffsetOr(credentials, "username", AsValue(credentials)));
    var attributes := api.Get(ResolvePrefix + ToStr(emailOrUsername));
    if ToBool(attributes) {
      customer := new Customer(Hydration(attributes));
    } else {
      customer := null;
    }
  }

  /**
   * `Customer::authenticate`: one post of the credentials to the auth
   * endpoint; when the answer says authenticated, one retrieval of the
   * customer it names, whose result is returned; otherwise null and no
   * second call.
   */
  method Authenticate(api: Remote, credentials: map<string, Value>) returns (customer: Customer?)
    modifies api
    ensures var response := api.answerPost(AuthPath, AuthBody(credentials));
      if ToBool(response.authenticated) then
        && api.calls == old(api.calls) + [PostCall(AuthPath, AuthBody(credentials)), RetrieveCall(PassedCustomerId(response))]
        && (customer == null <==> api.answerRetrieve(PassedCustomerId(response)).None?)
        && (customer != null ==>
              fresh(customer) && customer.attributes == api.answerRetrieve(PassedCustomerId(response)).value)
      else
        api.calls == old(api.calls) + [PostCall(AuthPath, AuthBody(credentials))] && customer == null
  {
    var emailOrUsername := AuthUsername(credentials);
    var field := AuthField(credentials);
    var group := EntryOrNull(credentials, "group");
    var response := api.Post(AuthPath, map[
      "username" := emailOrUsername,
      "password" := EntryOrNull(credentials, "password"),
      "field" := field,
      "group" := group
    ]);
    if ToBool(response.authenticated) {
      customer := api.Retrieve(PassedCustomerId(response));
    } else {
      customer := null;
    }
  }
}
