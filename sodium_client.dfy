/**
 * The Sodium API client: configuration and the shared instance, query
 * flattening into URL parameters, request shaping, response classification,
 * the binary (PDF) download, and the tenant-scoped route of every resource
 * method with the unwrapping of list envelopes.
 *
 * `fetch` is not modelled: a request method returns the request it would
 * send together with the outcome for a given reply, which is a parameter.
 */
module SodiumClient {
  import opened Wrappers
  import Text
  import Js
  import Json
  import Errors
  import Base64

  // ---------------------------------------------------------------------
  // Configuration and the shared instance
  // ---------------------------------------------------------------------

  const DefaultBaseUrl := "https://api.sodiumhq.com"
  const MissingKeyMessage := "SODIUM_API_KEY environment variable is required"
  const MissingTenantMessage := "SODIUM_TENANT environment variable is required"

  /** The three environment variables the client reads. */
  datatype Env = Env(apiUrl: Option<string>, apiKey: Option<string>, tenant: Option<string>)

  datatype Config = Config(apiKey: string, tenant: string, baseUrl: string)

  /** An absent or empty `SODIUM_API_URL` falls back to the public endpoint. */
  function BaseUrl(env: Env): (r: string)
    ensures Js.Truthy(env.apiUrl) ==> r == env.apiUrl.value
    ensures !Js.Truthy(env.apiUrl) ==> r == DefaultBaseUrl
  {
    Js.Or(env.apiUrl, Some(DefaultBaseUrl)).value
  }

  /** The constructor: the key is checked before the tenant; both must be non-empty. */
  function Construct(env: Env): (r: Errors.Outcome<Config>)
    ensures r.Returned? <==> Js.Truthy(env.apiKey) && Js.Truthy(env.tenant)
    ensures !Js.Truthy(env.apiKey) ==> r == Errors.Threw(Errors.ErrorObject(MissingKeyMessage))
    ensures Js.Truthy(env.apiKey) && !Js.Truthy(env.tenant) ==>
      r == Errors.Threw(Errors.ErrorObject(MissingTenantMessage))
    ensures r.Returned? ==>
      r.value == Config(env.apiKey.value, env.tenant.value, BaseUrl(env))
  {
    if !Js.Truthy(env.apiKey) then Errors.Threw(Errors.ErrorObject(MissingKeyMessage))
    else if !Js.Truthy(env.tenant) then Errors.Threw(Errors.ErrorObject(MissingTenantMessage))
    else Errors.Returned(Config(env.apiKey.value, env.tenant.value, BaseUrl(env)))
  }

  /** The class-level `instance` slot of `SodiumClient` and `getInstance`. */
  class Shared {
    const env: Env
    var instance: Option<Config>
    /** How many instances the constructor has produced so far. */
    ghost var constructed: nat

    ghost predicate Valid()
      reads this
    {
      constructed == (if instance.Some? then 1 else 0)
      && (instance.Some? ==> Construct(env) == Errors.Returned(instance.value))
    }

    constructor(env: Env)
      ensures Valid() && this.env == env && instance == None && constructed == 0
    {
      this.env := env;
      instance := None;
      constructed := 0;
    }

    /**
     * Returns the stored instance, constructing it on the first call that
     * succeeds; a failed construction leaves the slot empty.
     */
    method GetInstance() returns (r: Errors.Outcome<Config>)
      requires Valid()
      modifies this
      ensures Valid() && constructed <= 1
      ensures r == Construct(env)
      ensures old(instance).Some? ==> instance == old(instance) && constructed == old(constructed)
      ensures old(instance).None? && r.Returned? ==> instance == Some(r.value) && constructed == 1
      ensures old(instance).None? && r.Threw? ==> instance == None && constructed == 0
    {
      if instance.None? {
        var made := Construct(env);
        if made.Returned? {
          instance := Some(made.value);
          constructed := constructed + 1;
        }
        r := made;
      } else {
        r := Errors.Returned(instance.value);
      }
    }

    /** `getTenant`. */
    function Tenant(): (t: Option<string>)
      requires Valid()
      reads this
      ensures t.Some? <==> instance.Some?
      ensures t.Some? ==> t.value == env.tenant.value && t.value != ""
    {
      if instance.Some? then Some(instance.value.tenant) else None
    }
  }

  /** Two successive calls hand out the same instance, and only one is ever built. */
  method TwoCalls(s: Shared) returns (first: Errors.Outcome<Config>, second: Errors.Outcome<Config>)
    requires s.Valid() && s.instance.None?
    modifies s
    ensures s.Valid() && s.constructed <= 1
    ensures first == second
    ensures first.Returned? <==> s.constructed == 1
  {
    first := s.GetInstance();
    second := s.GetInstance();
  }

  // ---------------------------------------------------------------------
  // Query flattening (`buildUrl`)
  // ---------------------------------------------------------------------

  /** The value types a query record may hold. */
  datatype QueryValue =
    | Undefined
    | Str(s: string)
    | Num(x: real)
    | Bool(b: bool)
    | Strings(items: seq<string>)

  /** A query record, in `Object.entries` order. */
  type Query = seq<(string, QueryValue)>

  function QString(o: Option<string>): (v: QueryValue)
    ensures o.None? <==> v.Undefined?
    ensures o.Some? ==> v == Str(o.value)
  {
    if o.Some? then Str(o.value) else Undefined
  }

  function QNumber(o: Option<real>): (v: QueryValue)
    ensures o.None? <==> v.Undefined?
    ensures o.Some? ==> v == Num(o.value)
  {
    if o.Some? then Num(o.value) else Undefined
  }

  function QBool(o: Option<bool>): (v: QueryValue)
    ensures o.None? <==> v.Undefined?
    ensures o.Some? ==> v == Bool(o.value)
  {
    if o.Some? then Bool(o.value) else Undefined
  }

  function QStrings(o: Option<seq<string>>): (v: QueryValue)
    ensures o.None? <==> v.Undefined?
    ensures o.Some? ==> v == Strings(o.value)
  {
    if o.Some? then Strings(o.value) else Undefined
  }

  /** The texts appended for one value: none, one per array element, or `String(value)`. */
  function ValueTexts(rt: Js.Runtime, v: QueryValue): (r: seq<string>)
    ensures v.Undefined? ==> r == []
    ensures v.Strings? ==> r == v.items
    ensures v.Str? ==> r == [v.s]
    ensures v.Num? ==> r == [Js.NumberToString(rt, v.x)]
    ensures v.Bool? ==> r == [if v.b then "true" else "false"]
  {
    match v
    case Undefined => []
    case Str(s) => [s]
    case Num(x) => [Js.NumberToString(rt, x)]
    case Bool(b) => [if b then "true" else "false"]
    case Strings(items) => items
  }

  function EntryPairs(rt: Js.Runtime, key: string, v: QueryValue): (r: seq<(string, string)>)
    ensures |r| == |ValueTexts(rt, v)|
    ensures forall i :: 0 <= i < |r| ==> r[i] == (key, ValueTexts(rt, v)[i])
  {
    var texts := ValueTexts(rt, v);
    seq(|texts|, i requires 0 <= i < |texts| => (key, texts[i]))
  }

  /** All parameters of a query record, entry after entry. */
  function Flatten(rt: Js.Runtime, q: Query): seq<(string, string)>
  {
    if |q| == 0 then [] else EntryPairs(rt, q[0].0, q[0].1) + Flatten(rt, q[1..])
  }

  /** An absent query record adds no parameters. */
  function QueryPairs(rt: Js.Runtime, q: Option<Query>): (r: seq<(string, string)>)
    ensures q.None? ==> r == []
  {
    match q
    case None => []
    case Some(entries) => Flatten(rt, entries)
  }

  lemma {:induction false} FlattenAppend(rt: Js.Runtime, a: Query, b: Query)
    ensures Flatten(rt, a + b) == Flatten(rt, a) + Flatten(rt, b)
  {
    if |a| > 0 {
      assert (a + b)[1..] == a[1..] + b;
      FlattenAppend(rt, a[1..], b);
    } else {
      assert a + b == b;
    }
  }

  /**
   * A parameter `(k, t)` is produced exactly when some entry has key `k` and
   * `t` is among the texts of its value.
   */
  lemma {:induction false} FlattenMembership(rt: Js.Runtime, q: Query, k: string, t: string)
    ensures (k, t) in Flatten(rt, q) <==>
      exists i :: 0 <= i < |q| && q[i].0 == k && t in ValueTexts(rt, q[i].1)
  {
    if |q| > 0 {
      FlattenMembership(rt, q[1..], k, t);
      var head := EntryPairs(rt, q[0].0, q[0].1);
      assert Flatten(rt, q) == head + Flatten(rt, q[1..]);
      assert (k, t) in head <==> q[0].0 == k && t in ValueTexts(rt, q[0].1) by {
        if (k, t) in head {
          var j :| 0 <= j < |head| && head[j] == (k, t);
        }
        if q[0].0 == k && t in ValueTexts(rt, q[0].1) {
          var j :| 0 <= j < |ValueTexts(rt, q[0].1)| && ValueTexts(rt, q[0].1)[j] == t;
          assert head[j] == (k, t);
        }
      }
      if exists i :: 0 <= i < |q| && q[i].0 == k && t in ValueTexts(rt, q[i].1) {
        var i :| 0 <= i < |q| && q[i].0 == k && t in ValueTexts(rt, q[i].1);
        if i > 0 {
          assert q[1..][i - 1] == q[i];
        }
      }
      if exists i :: 0 <= i < |q[1..]| && q[1..][i].0 == k && t in ValueTexts(rt, q[1..][i].1) {
        var i :| 0 <= i < |q[1..]| && q[1..][i].0 == k && t in ValueTexts(rt, q[1..][i].1);
        assert q[i + 1] == q[1..][i];
      }
    }
  }

  /** The URL `buildUrl` produces: the path against the base, then the parameters in order. */
  datatype Url = Url(base: string, path: string, params: seq<(string, string)>)

  method BuildUrl(rt: Js.Runtime, baseUrl: string, path: string, query: Option<Query>) returns (url: Url)
    ensures url == Url(baseUrl, path, QueryPairs(rt, query))
  {
    var params: seq<(string, string)> := [];
    if query.Some? {
      var entries := query.value;
      var i := 0;
      while i < |entries|
        invariant 0 <= i <= |entries|
        invariant params == Flatten(rt, entries[..i])
      {
        var key := entries[i].0;
        var value := entries[i].1;
        ghost var before := params;
        if value.Strings? {
          var j := 0;
          while j < |value.items|
            invariant 0 <= j <= |value.items|
            invariant params == before + EntryPairs(rt, key, Strings(value.items[..j]))
          {
            params := params + [(key, value.items[j])];
            j := j + 1;
            assert EntryPairs(rt, key, Strings(value.items[..j]))
              == EntryPairs(rt, key, Strings(value.items[..j - 1])) + [(key, value.items[j - 1])];
          }
          assert value.items[..j] == value.items;
        } else if value.Str? {
          params := params + [(key, value.s)];
        } else if value.Num? {
          params := params + [(key, Js.NumberToString(rt, value.x))];
        } else if value.Bool? {
          params := params + [(key, if value.b then "true" else "false")];
        }
        assert params == before + EntryPairs(rt, key, value);
        FlattenAppend(rt, entries[..i], [entries[i]]);
        assert entries[..i + 1] == entries[..i] + [entries[i]];
        assert Flatten(rt, [entries[i]]) == EntryPairs(rt, key, value) by {
          assert [entries[i]][1..] == [];
        }
        i := i + 1;
      }
      assert entries[..i] == entries;
    }
    url := Url(baseUrl, path, params);
  }

  // ---------------------------------------------------------------------
  // Requests (`request`, `binaryRequest`)
  // ---------------------------------------------------------------------

  datatype Verb = GET | POST | PUT | DELETE

  datatype RequestOptions = RequestOptions(
    verb: Verb,
    path: string,
    body: Option<Json.JsObject>,
    query: Option<Query>)

  /** What goes to `fetch`: the URL, the method, the headers in order and the serialised body. */
  datatype HttpRequest = HttpRequest(
    verb: Verb,
    url: Url,
    headers: seq<(string, string)>,
    body: Option<string>)

  function JsonHeaders(cfg: Config): (r: seq<(string, string)>)
    ensures |r| == 3 && r[0] == ("x-api-key", cfg.apiKey)
    ensures r[1] == ("Content-Type", "application/json") && r[2] == ("Accept", "application/json")
  {
    [("x-api-key", cfg.apiKey), ("Content-Type", "application/json"), ("Accept", "application/json")]
  }

  function PdfHeaders(cfg: Config): (r: seq<(string, string)>)
    ensures |r| == 2 && r[0] == ("x-api-key", cfg.apiKey)
    ensures r[1] == ("Accept", "application/pdf")
  {
    [("x-api-key", cfg.apiKey), ("Accept", "application/pdf")]
  }

  /** The request `request` sends for the given options. */
  function Prepare(rt: Js.Runtime, cfg: Config, opts: RequestOptions): (r: HttpRequest)
    ensures r.verb == opts.verb
    ensures r.url == Url(cfg.baseUrl, opts.path, QueryPairs(rt, opts.query))
    ensures r.headers == JsonHeaders(cfg)
    ensures r.body.Some? <==> opts.body.Some? && (opts.verb == POST || opts.verb == PUT)
    ensures r.body.Some? ==> r.body.value == Json.StringifyObject(rt, opts.body.value)
  {
    HttpRequest(
      opts.verb,
      Url(cfg.baseUrl, opts.path, QueryPairs(rt, opts.query)),
      JsonHeaders(cfg),
      if opts.body.Some? && (opts.verb == POST || opts.verb == PUT)
      then Some(Json.StringifyObject(rt, opts.body.value)) else None)
  }

  /** The request `binaryRequest` sends: no body, and a PDF `Accept` header. */
  function PrepareBinary(rt: Js.Runtime, cfg: Config, verb: Verb, path: string, query: Option<Query>): (r: HttpRequest)
    ensures r.body.None? && r.headers == PdfHeaders(cfg)
    ensures r.url == Url(cfg.baseUrl, path, QueryPairs(rt, query))
  {
    HttpRequest(verb, Url(cfg.baseUrl, path, QueryPairs(rt, query)), PdfHeaders(cfg), None)
  }

  /** What `response.json()` yields: a value, or a parse failure with the engine's message. */
  datatype Payload = Parsed(value: Json.JsonValue) | Malformed(reason: string)

  datatype Response = Response(status: int, statusText: string, json: Payload, bytes: seq<Base64.byte>)

  /** A reply to `fetch`: a response, or a rejection (for instance a network failure). */
  datatype Reply = Answered(response: Response) | Rejected(error: Errors.Thrown)

  predicate Ok(r: Response)
  {
    200 <= r.status <= 299
  }

  function StatusLine(r: Response): (s: string)
    ensures Text.StartsWith(s, "HTTP " + Text.IntToString(r.status) + ": ")
    ensures Text.EndsWith(s, r.statusText)
    ensures |s| == 5 + |Text.IntToString(r.status)| + 2 + |r.statusText|
  {
    "HTTP " + Text.IntToString(r.status) + ": " + r.statusText
  }

  /**
   * The message of a failed response: the body's `message` when the body
   * parses to an object whose `message` is truthy, otherwise the status line.
   * A `null` body makes the property read throw, which is caught, so it too
   * falls back.
   */
  function ErrorMessage(r: Response): (m: Json.JsonValue)
    ensures Json.Truthy(m)
    ensures (r.json.Parsed? && r.json.value.JObject?
             && Json.Member(r.json.value.members, "message").Some?
             && Json.Truthy(Json.Member(r.json.value.members, "message").value))
      ==> m == Json.Member(r.json.value.members, "message").value
    ensures !(r.json.Parsed? && r.json.value.JObject?
              && Json.Member(r.json.value.members, "message").Some?
              && Json.Truthy(Json.Member(r.json.value.members, "message").value))
      ==> m == Json.JString(StatusLine(r))
  {
    match r.json
    case Parsed(JObject(members)) =>
      (match Json.Member(members, "message")
       case Some(m) => if Json.Truthy(m) then m else Json.JString(StatusLine(r))
       case None => Json.JString(StatusLine(r)))
    case _ => Json.JString(StatusLine(r))
  }

  /** The `ApiError` object thrown for a failed response. */
  function ApiError(message: Json.JsonValue, statusCode: int): (e: Errors.Thrown)
    ensures e.ObjectValue?
    ensures Json.Field(e.members, "message") == Some(Some(message))
    ensures Json.Field(e.members, "statusCode") == Some(Some(Json.JNumber(statusCode as real)))
  {
    Errors.ObjectValue([("message", Some(message)), ("statusCode", Some(Json.JNumber(statusCode as real)))])
  }

  /** The outcome of `request` for a reply. */
  function Classify(reply: Reply): (r: Errors.Outcome<Json.JsonValue>)
    ensures reply.Rejected? ==> r == Errors.Threw(reply.error)
    ensures reply.Answered? && !Ok(reply.response) ==>
      r == Errors.Threw(ApiError(ErrorMessage(reply.response), reply.response.status))
    ensures reply.Answered? && Ok(reply.response) && reply.response.status == 204 ==>
      r == Errors.Returned(Json.JObject([]))
    ensures reply.Answered? && Ok(reply.response) && reply.response.status != 204 ==>
      match reply.response.json
      case Parsed(v) => r == Errors.Returned(v)
      case Malformed(reason) => r == Errors.Threw(Errors.ErrorObject(reason))
  {
    match reply
    case Rejected(e) => Errors.Threw(e)
    case Answered(resp) =>
      if !Ok(resp) then Errors.Threw(ApiError(ErrorMessage(resp), resp.status))
      else if resp.status == 204 then Errors.Returned(Json.JObject([]))
      else
        match resp.json
        case Parsed(v) => Errors.Returned(v)
        case Malformed(reason) => Errors.Threw(Errors.ErrorObject(reason))
  }

  /** The outcome of `binaryRequest`: the base 64 text of the body bytes on success. */
  function ClassifyBinary(reply: Reply): (r: Errors.Outcome<string>)
    ensures reply.Rejected? ==> r == Errors.Threw(reply.error)
    ensures reply.Answered? && !Ok(reply.response) ==>
      r == Errors.Threw(ApiError(ErrorMessage(reply.response), reply.response.status))
    ensures reply.Answered? && Ok(reply.response) ==>
      r == Errors.Returned(Base64.Encode(reply.response.bytes))
  {
    match reply
    case Rejected(e) => Errors.Threw(e)
    case Answered(resp) =>
      if !Ok(resp) then Errors.Threw(ApiError(ErrorMessage(resp), resp.status))
      else Errors.Returned(Base64.Encode(resp.bytes))
  }

  /** `request`: builds the URL, the headers and the body, then classifies the reply. */
  method Request(rt: Js.Runtime, cfg: Config, opts: RequestOptions, reply: Reply)
    returns (sent: HttpRequest, result: Errors.Outcome<Json.JsonValue>)
    ensures sent == Prepare(rt, cfg, opts)
    ensures result == Classify(reply)
  {
    var url := BuildUrl(rt, cfg.baseUrl, opts.path, opts.query);
    var headers := JsonHeaders(cfg);
    var body: Option<string> := None;
    if opts.body.Some? && (opts.verb == POST || opts.verb == PUT) {
      body := Some(Json.StringifyObject(rt, opts.body.value));
    }
    sent := HttpRequest(opts.verb, url, headers, body);
    if reply.Rejected? {
      return sent, Errors.Threw(reply.error);
    }
    var response := reply.response;
    if !Ok(response) {
      var errorMessage := Json.JString(StatusLine(response));
      if response.json.Parsed? && response.json.value.JObject? {
        var m := Json.Member(response.json.value.members, "message");
        if m.Some? && Json.Truthy(m.value) {
          errorMessage := m.value;
        }
      }
      return sent, Errors.Threw(ApiError(errorMessage, response.status));
    }
    if response.status == 204 {
      return sent, Errors.Returned(Json.JObject([]));
    }
    match response.json
    case Parsed(v) => result := Errors.Returned(v);
    case Malformed(reason) => result := Errors.Threw(Errors.ErrorObject(reason));
  }

  /** `binaryRequest`. */
  method BinaryRequest(rt: Js.Runtime, cfg: Config, verb: Verb, path: string, query: Option<Query>, reply: Reply)
    returns (sent: HttpRequest, result: Errors.Outcome<string>)
    ensures sent == PrepareBinary(rt, cfg, verb, path, query)
    ensures result == ClassifyBinary(reply)
  {
    var url := BuildUrl(rt, cfg.baseUrl, path, query);
    sent := HttpRequest(verb, url, PdfHeaders(cfg), None);
    if reply.Rejected? {
      return sent, Errors.Threw(reply.error);
    }
    var response := reply.response;
    if !Ok(response) {
      var errorMessage := Json.JString(StatusLine(response));
      if response.json.Parsed? && response.json.value.JObject? {
        var m := Json.Member(response.json.value.members, "message");
        if m.Some? && Json.Truthy(m.value) {
          errorMessage := m.value;
        }
      }
      return sent, Errors.Threw(ApiError(errorMessage, response.status));
    }
    result := Errors.Returned(Base64.Encode(response.bytes));
  }

  /** A successful download decodes back to exactly the bytes received. */
  lemma DownloadRoundTrip(reply: Reply)
    requires reply.Answered? && Ok(reply.response)
    ensures ClassifyBinary(reply).Returned?
    ensures Base64.Decode(ClassifyBinary(reply).value) == Some(reply.response.bytes)
  {
    Base64.DecodeEncode(reply.response.bytes);
  }

  /** The text a tool's catch clause reports for a failed response. */
  lemma FailedResponseMessage(rt: Js.Runtime, resp: Response)
    requires !Ok(resp)
    ensures Classify(Answered(resp)).Threw?
    ensures ErrorMessage(resp).JString? ==>
      Errors.MessageOf(rt, Classify(Answered(resp)).error) == ErrorMessage(resp).s
    ensures !ErrorMessage(resp).JString? ==>
      Errors.MessageOf(rt, Classify(Answered(resp)).error)
        == Json.Stringify(rt, Json.JObject([("message", ErrorMessage(resp)),
                                             ("statusCode", Json.JNumber(resp.status as real))]))
  {
    var e := ApiError(ErrorMessage(resp), resp.status);
    assert Json.Defined(e.members) == [("message", ErrorMessage(resp)), ("statusCode", Json.JNumber(resp.status as real))] by {
      assert e.members[1..][1..] == [];
    }
  }

  // ---------------------------------------------------------------------
  // Resource methods
  // ---------------------------------------------------------------------

  /** One public method of the client, with its arguments. */
  datatype Operation =
    | ListClients(query: Option<Query>)
    | GetClient(code: string)
    | CreateClient(data: Json.JsObject)
    | UpdateClient(code: string, data: Json.JsObject)
    | DeleteClient(code: string)
    | ListClientContacts(clientCode: string)
    | GetClientContact(clientCode: string, code: string)
    | CreateClientContact(clientCode: string, data: Json.JsObject)
    | UpdateClientContact(clientCode: string, code: string, data: Json.JsObject)
    | DeleteClientContact(clientCode: string, code: string)
    | ListClientNotes(clientCode: string)
    | GetClientNote(clientCode: string, code: string)
    | CreateClientNote(clientCode: string, data: Json.JsObject)
    | UpdateClientNote(clientCode: string, code: string, data: Json.JsObject)
    | DeleteClientNote(clientCode: string, code: string)
    | ListTasks(query: Option<Query>)
    | GetTask(code: string)
    | CreateTask(data: Json.JsObject)
    | UpdateTask(code: string, data: Json.JsObject)
    | DeleteTask(code: string)
    | ListClientServices(clientCode: string)
    | GetClientService(clientCode: string, code: string)
    | CreateClientService(clientCode: string, data: Json.JsObject)
    | UpdateClientService(clientCode: string, code: string, data: Json.JsObject)
    | ListEngagements(query: Option<Query>)
    | GetEngagement(code: string)
    | CreateEngagement(data: Json.JsObject)
    | UpdateEngagement(code: string, data: Json.JsObject)
    | DeleteEngagement(code: string)
    | SendEngagementEmail(code: string)
    | GetEngagementEmails(code: string)
    | UploadEngagementProposalPdf(code: string, pdfContent: string)
    | UploadEngagementLoePdf(code: string, pdfContent: string)
    | ListServices(query: Option<Query>)
    | GetService(code: string)
    | ListDocumentTemplates(query: Option<Query>)
    | GetDocumentTemplate(code: string)
    | GetEngagementSettings
    | ListServicePackages(query: Option<Query>)
    | GetServicePackage(code: string)

  /** The two PDF downloads, which go through `binaryRequest`. */
  datatype Download = DownloadProposalPdf(code: string) | DownloadLoePdf(code: string)

  /** `tenantPath`. */
  function TenantPath(cfg: Config, path: string): (r: string)
    ensures Text.StartsWith(r, "/tenants/" + cfg.tenant)
    ensures Text.EndsWith(r, path)
    ensures |r| == |"/tenants/"| + |cfg.tenant| + |path|
  {
    "/tenants/" + cfg.tenant + path
  }

  /** The path below the tenant prefix for each operation. */
  function Resource(op: Operation): (r: string)
    ensures |r| > 0 && r[0] == '/'
  {
    match op
    case ListClients(_) => "/clients"
    case GetClient(code) => "/clients/" + code
    case CreateClient(_) => "/clients"
    case UpdateClient(code, _) => "/clients/" + code
    case DeleteClient(code) => "/clients/" + code
    case ListClientContacts(cc) => "/clients/" + cc + "/clientcontact"
    case GetClientContact(cc, code) => "/clients/" + cc + "/clientcontact/" + code
    case CreateClientContact(cc, _) => "/clients/" + cc + "/clientcontact"
    case UpdateClientContact(cc, code, _) => "/clients/" + cc + "/clientcontact/" + code
    case DeleteClientContact(cc, code) => "/clients/" + cc + "/clientcontact/" + code
    case ListClientNotes(cc) => "/clients/" + cc + "/clientnote"
    case GetClientNote(cc, code) => "/clients/" + cc + "/clientnote/" + code
    case CreateClientNote(cc, _) => "/clients/" + cc + "/clientnote"
    case UpdateClientNote(cc, code, _) => "/clients/" + cc + "/clientnote/" + code
    case DeleteClientNote(cc, code) => "/clients/" + cc + "/clientnote/" + code
    case ListTasks(_) => "/tasks"
    case GetTask(code) => "/tasks/" + code
    case CreateTask(_) => "/tasks"
    case UpdateTask(code, _) => "/tasks/" + code
    case DeleteTask(code) => "/tasks/" + code
    case ListClientServices(cc) => "/clients/" + cc + "/services/clientbillableservice"
    case GetClientService(cc, code) => "/clients/" + cc + "/services/clientbillableservice/" + code
    case CreateClientService(cc, _) => "/clients/" + cc + "/services/clientbillableservice"
    case UpdateClientService(cc, code, _) => "/clients/" + cc + "/services/clientbillableservice/" + code
    case ListEngagements(_) => "/engagements"
    case GetEngagement(code) => "/engagements/" + code
    case CreateEngagement(_) => "/engagements"
    case UpdateEngagement(code, _) => "/engagements/" + code
    case DeleteEngagement(code) => "/engagements/" + code
    case SendEngagementEmail(code) => "/engagements/" + code + "/email"
    case GetEngagementEmails(code) => "/engagements/" + code + "/email"
    case UploadEngagementProposalPdf(code, _) => "/engagements/" + code + "/pdf/proposal"
    case UploadEngagementLoePdf(code, _) => "/engagements/" + code + "/pdf/letter-of-engagement"
    case ListServices(_) => "/services"
    case GetService(code) => "/services/" + code
    case ListDocumentTemplates(_) => "/document-templates"
    case GetDocumentTemplate(code) => "/document-templates/" + code
    case GetEngagementSettings => "/practice/engagement-settings"
    case ListServicePackages(_) => "/service-packages"
    case GetServicePackage(code) => "/service-packages/" + code
  }

  function VerbOf(op: Operation): Verb
  {
    match op
    case CreateClient(_) => POST
    case CreateClientContact(_, _) => POST
    case CreateClientNote(_, _) => POST
    case CreateTask(_) => POST
    case CreateClientService(_, _) => POST
    case CreateEngagement(_) => POST
    case SendEngagementEmail(_) => POST
    case UploadEngagementProposalPdf(_, _) => POST
    case UploadEngagementLoePdf(_, _) => POST
    case UpdateClient(_, _) => PUT
    case UpdateClientContact(_, _, _) => PUT
    case UpdateClientNote(_, _, _) => PUT
    case UpdateTask(_, _) => PUT
    case UpdateClientService(_, _, _) => PUT
    case UpdateEngagement(_, _) => PUT
    case DeleteClient(_) => DELETE
    case DeleteClientContact(_, _) => DELETE
    case DeleteClientNote(_, _) => DELETE
    case DeleteTask(_) => DELETE
    case DeleteEngagement(_) => DELETE
    case _ => GET
  }

  /** The body an operation passes to `request`. */
  function BodyOf(op: Operation): Option<Json.JsObject>
  {
    match op
    case CreateClient(data) => Some(data)
    case UpdateClient(_, data) => Some(data)
    case CreateClientContact(_, data) => Some(data)
    case UpdateClientContact(_, _, data) => Some(data)
    case CreateClientNote(_, data) => Some(data)
    case UpdateClientNote(_, _, data) => Some(data)
    case CreateTask(data) => Some(data)
    case UpdateTask(_, data) => Some(data)
    case CreateClientService(_, data) => Some(data)
    case UpdateClientService(_, _, data) => Some(data)
    case CreateEngagement(data) => Some(data)
    case UpdateEngagement(_, data) => Some(data)
    case UploadEngagementProposalPdf(_, pdf) => Some([("pdfContent", Some(Json.JString(pdf)))])
    case UploadEngagementLoePdf(_, pdf) => Some([("pdfContent", Some(Json.JString(pdf)))])
    case _ => None
  }

  function QueryOf(op: Operation): Option<Query>
  {
    match op
    case ListClients(q) => q
    case ListTasks(q) => q
    case ListEngagements(q) => q
    case ListServices(q) => q
    case ListDocumentTemplates(q) => q
    case ListServicePackages(q) => q
    case _ => None
  }

  /** The paginated list methods, which return only the envelope's `data`. */
  predicate IsList(op: Operation)
  {
    op.ListClients? || op.ListClientContacts? || op.ListClientNotes? || op.ListTasks?
    || op.ListClientServices? || op.ListEngagements? || op.ListServices?
    || op.ListDocumentTemplates? || op.ListServicePackages?
  }

  /** The options each resource method passes to `request`. */
  function Route(cfg: Config, op: Operation): (r: RequestOptions)
    ensures r.path == TenantPath(cfg, Resource(op))
    ensures r.verb == VerbOf(op) && r.body == BodyOf(op) && r.query == QueryOf(op)
  {
    RequestOptions(VerbOf(op), TenantPath(cfg, Resource(op)), BodyOf(op), QueryOf(op))
  }

  /** Every resource path lies below the configured tenant. */
  lemma RoutesAreTenantScoped(cfg: Config, op: Operation)
    ensures Text.StartsWith(Route(cfg, op).path, "/tenants/" + cfg.tenant + "/")
  {
    var p := Route(cfg, op).path;
    var r := Resource(op);
    assert p == ("/tenants/" + cfg.tenant) + r;
    assert p[..|"/tenants/" + cfg.tenant + "/"|] == "/tenants/" + cfg.tenant + "/" by {
      assert p[|"/tenants/" + cfg.tenant|] == r[0];
    }
  }

  /** A query record is only sent by the six list methods that accept a filter. */
  lemma OnlyListsCarryQueries(cfg: Config, op: Operation)
    ensures Route(cfg, op).query.Some? ==> IsList(op)
    ensures Route(cfg, op).body.Some? ==> Route(cfg, op).verb == POST || Route(cfg, op).verb == PUT
  {
  }

  const NullDataMessage := "Cannot read properties of null (reading 'data')"

  /**
   * `response.data`: `undefined` (here `None`) unless the value is an object
   * with a `data` member; reading it from `null` throws.
   */
  function DataOf(v: Json.JsonValue): (r: Errors.Outcome<Option<Json.JsonValue>>)
    ensures v.JNull? <==> r.Threw?
    ensures v.JObject? ==> r == Errors.Returned(Json.Member(v.members, "data"))
    ensures !v.JObject? && !v.JNull? ==> r == Errors.Returned(None)
  {
    match v
    case JNull => Errors.Threw(Errors.ErrorObject(NullDataMessage))
    case JObject(members) => Errors.Returned(Json.Member(members, "data"))
    case _ => Errors.Returned(None)
  }

  /** What a resource method returns for the outcome of its `request`. */
  function Unwrap(op: Operation, r: Errors.Outcome<Json.JsonValue>): (out: Errors.Outcome<Option<Json.JsonValue>>)
    ensures r.Threw? ==> out == Errors.Threw(r.error)
    ensures r.Returned? && IsList(op) ==> out == DataOf(r.value)
    ensures r.Returned? && !IsList(op) ==> out == Errors.Returned(Some(r.value))
  {
    match r
    case Threw(e) => Errors.Threw(e)
    case Returned(v) => if IsList(op) then DataOf(v) else Errors.Returned(Some(v))
  }

  /** A resource method: the request it sends and what it returns for the reply. */
  method Call(rt: Js.Runtime, cfg: Config, op: Operation, reply: Reply)
    returns (sent: HttpRequest, result: Errors.Outcome<Option<Json.JsonValue>>)
    ensures sent == Prepare(rt, cfg, Route(cfg, op))
    ensures result == Unwrap(op, Classify(reply))
  {
    var raw;
    sent, raw := Request(rt, cfg, Route(cfg, op), reply);
    result := Unwrap(op, raw);
  }

  /** A PDF download method. */
  method Fetch(rt: Js.Runtime, cfg: Config, d: Download, reply: Reply)
    returns (sent: HttpRequest, result: Errors.Outcome<string>)
    ensures sent == PrepareBinary(rt, cfg, GET, DownloadPath(cfg, d), None)
    ensures result == ClassifyBinary(reply)
  {
    sent, result := BinaryRequest(rt, cfg, GET, DownloadPath(cfg, d), None, reply);
  }

  function DownloadPath(cfg: Config, d: Download): (r: string)
    ensures Text.StartsWith(r, "/tenants/" + cfg.tenant + "/engagements/")
  {
    match d
    case DownloadProposalPdf(code) => TenantPath(cfg, "/engagements/" + code + "/pdf/proposal")
    case DownloadLoePdf(code) => TenantPath(cfg, "/engagements/" + code + "/pdf/letter-of-engagement")
  }

  /** A list served with a 204 reply yields `undefined`, not a list. */
  lemma EmptyReplyListIsUndefined(op: Operation, resp: Response)
    requires IsList(op) && resp.status == 204
    ensures Unwrap(op, Classify(Answered(resp))) == Errors.Returned(None)
  {
  }

  /** The email history is returned as received, without unwrapping. */
  lemma EmailHistoryNotUnwrapped(code: string, v: Json.JsonValue)
    ensures Unwrap(GetEngagementEmails(code), Errors.Returned(v)) == Errors.Returned(Some(v))
  {
  }

  /** A 404 whose body carries a message reaches a tool as exactly that message. */
  lemma NotFoundMessage(rt: Js.Runtime, cfg: Config, code: string, text: string)
    requires text != ""
    ensures
      var resp := Response(404, "Not Found", Parsed(Json.JObject([("message", Json.JString(text))])), []);
      var out := Unwrap(GetEngagement(code), Classify(Answered(resp)));
      out.Threw? && Errors.MessageOf(rt, out.error) == text
  {
  }
}
