/**
 * The four client tools: list-clients, get-client, create-client and
 * update-client.
 */
module ClientTools {
  import opened Wrappers
  import Text
  import Js
  import Json
  import Errors
  import Api = SodiumClient
  import opened Records
  import opened Report

  /** `Manager: name || code`, shown when the reference is present. */
  function RefName(r: Option<Ref>): (s: Option<string>)
    ensures r.None? <==> s.None?
    ensures r.Some? && r.value.name != "" ==> s == Some(r.value.name)
    ensures r.Some? && r.value.name == "" ==> s == Some(r.value.code)
  {
    match r
    case None => None
    case Some(ref) => Js.Or(Some(ref.name), Some(ref.code))
  }

  // ----- list-clients: formatClient -----

  /** The lines of a client block in list-clients, in push order. */
  function ListedLines(c: Client): seq<Line>
  {
    [Line(0, Name, c.name), Line(0, Code, c.code)]
    + When(Js.Truthy(c.kind), Line(0, Kind, Js.Show(c.kind)))
    + When(Js.Truthy(c.status), Line(0, Status, Js.Show(c.status)))
    + When(c.manager.Some?, Line(0, Manager, Js.Show(RefName(c.manager))))
    + When(c.partner.Some?, Line(0, Partner, Js.Show(RefName(c.partner))))
    + When(Js.Truthy(c.createdDate), Line(0, Created, Js.Show(c.createdDate)))
  }

  method FormatListed(c: Client) returns (text: string)
    ensures text == Block(ListedLines(c))
  {
    var lines := [Line(0, Name, c.name), Line(0, Code, c.code)];
    lines := PushWhen(lines, Js.Truthy(c.kind), Line(0, Kind, Js.Show(c.kind)));
    lines := PushWhen(lines, Js.Truthy(c.status), Line(0, Status, Js.Show(c.status)));
    lines := PushWhen(lines, c.manager.Some?, Line(0, Manager, Js.Show(RefName(c.manager))));
    lines := PushWhen(lines, c.partner.Some?, Line(0, Partner, Js.Show(RefName(c.partner))));
    lines := PushWhen(lines, Js.Truthy(c.createdDate), Line(0, Created, Js.Show(c.createdDate)));
    assert lines == ListedLines(c);
    text := Block(lines);
  }

  /**
   * What a client block should show under each label, read off the record:
   * name and code always, the optional strings only when non-empty, a
   * reference whenever it is present. Updated never appears in a list block.
   */
  function ListedField(c: Client, t: Label): Option<string>
  {
    match t
    case Name => Some(c.name)
    case Code => Some(c.code)
    case Kind => Shown(c.kind)
    case Status => Shown(c.status)
    case Manager => RefName(c.manager)
    case Partner => RefName(c.partner)
    case Created => Shown(c.createdDate)
    case _ => None
  }

  /** Name then Code open every block, and nothing but those seven labels can follow. */
  lemma ListedHead(c: Client)
    ensures 2 <= |ListedLines(c)| <= 7
    ensures ListedLines(c)[..2] == [Line(0, Name, c.name), Line(0, Code, c.code)]
  {
  }

  /** Each label of a list block shows exactly the value its field calls for. */
  lemma ListedShows(c: Client, t: Label)
    ensures ShowsAs(ListedLines(c), t, ListedField(c, t))
  {
  }

  // ----- get-client: formatClient -----

  /** The lines of a client block in get-client, in push order. */
  function DetailLines(c: Client): seq<Line>
  {
    [Line(0, Name, c.name), Line(0, Code, c.code)]
    + When(Js.Truthy(c.kind), Line(0, Kind, Js.Show(c.kind)))
    + When(Js.Truthy(c.status), Line(0, Status, Js.Show(c.status)))
    + When(c.manager.Some?, Line(0, Manager, Js.Show(RefName(c.manager))))
    + When(c.partner.Some?, Line(0, Partner, Js.Show(RefName(c.partner))))
    + When(Js.Truthy(c.createdDate), Line(0, Created, Js.Show(c.createdDate)))
    + When(Js.Truthy(c.updatedDate), Line(0, Updated, Js.Show(c.updatedDate)))
  }

  method FormatDetail(c: Client) returns (text: string)
    ensures text == Block(DetailLines(c))
  {
    var lines := [Line(0, Name, c.name), Line(0, Code, c.code)];
    lines := PushWhen(lines, Js.Truthy(c.kind), Line(0, Kind, Js.Show(c.kind)));
    lines := PushWhen(lines, Js.Truthy(c.status), Line(0, Status, Js.Show(c.status)));
    lines := PushWhen(lines, c.manager.Some?, Line(0, Manager, Js.Show(RefName(c.manager))));
    lines := PushWhen(lines, c.partner.Some?, Line(0, Partner, Js.Show(RefName(c.partner))));
    lines := PushWhen(lines, Js.Truthy(c.createdDate), Line(0, Created, Js.Show(c.createdDate)));
    lines := PushWhen(lines, Js.Truthy(c.updatedDate), Line(0, Updated, Js.Show(c.updatedDate)));
    assert lines == DetailLines(c);
    text := Block(lines);
  }

  /** The detail block is the list block with an optional trailing Updated line. */
  lemma DetailExtendsListed(c: Client)
    ensures DetailLines(c) == ListedLines(c) + When(Js.Truthy(c.updatedDate), Line(0, Updated, Js.Show(c.updatedDate)))
  {
  }

  /** Each label of a detail block shows what the list block shows, and Updated when it is set. */
  lemma DetailShows(c: Client, t: Label)
    ensures ShowsAs(DetailLines(c), t, if t == Updated then Shown(c.updatedDate) else ListedField(c, t))
  {
  }

  // ----- list-clients handler -----

  datatype ListArgs = ListArgs(offset: Option<real>, limit: Option<real>, search: Option<string>)

  /** The handler forwards exactly offset, limit and search. */
  function ListCall(a: ListArgs): (op: Api.Operation)
    ensures op.ListClients? && op.query.Some?
    ensures op.query.value == [("offset", Api.QNumber(a.offset)), ("limit", Api.QNumber(a.limit)),
                               ("search", Api.QString(a.search))]
  {
    Api.ListClients(Some([("offset", Api.QNumber(a.offset)), ("limit", Api.QNumber(a.limit)),
                             ("search", Api.QString(a.search))]))
  }

  function ListText(rt: Js.Runtime, out: Errors.Outcome<Option<seq<Client>>>): (text: string)
    ensures out.Threw? ==> text == ErrorText(rt, "Error listing clients", out.error)
    ensures out.Returned? && (out.value.None? || |out.value.value| == 0) ==> text == "No clients found."
    ensures out.Returned? && out.value.Some? && |out.value.value| > 0 ==>
      var cs := out.value.value;
      text == FoundHeader(|cs|, "client", "") + "\n\n"
              + Text.Join(seq(|cs|, i requires 0 <= i < |cs| => Block(ListedLines(cs[i]))), Separator)
  {
    match out
    case Threw(e) => ErrorText(rt, "Error listing clients", e)
    case Returned(None) => "No clients found."
    case Returned(Some(cs)) =>
      Listing("No clients found.", FoundHeader(|cs|, "client", ""),
              seq(|cs|, i requires 0 <= i < |cs| => Block(ListedLines(cs[i]))), Separator)
  }

  // ----- get-client handler -----

  function GetCall(code: string): (op: Api.Operation)
    ensures op == Api.GetClient(code)
  {
    Api.GetClient(code)
  }

  function GetText(rt: Js.Runtime, out: Errors.Outcome<Client>): (text: string)
    ensures out.Returned? ==> text == "Client Details:\n\n" + Block(DetailLines(out.value))
    ensures out.Threw? ==> text == ErrorText(rt, "Error getting client", out.error)
  {
    match out
    case Returned(c) => "Client Details:\n\n" + Block(DetailLines(c))
    case Threw(e) => ErrorText(rt, "Error getting client", e)
  }

  // ----- create-client -----

  datatype CreateArgs = CreateArgs(name: string, kind: Option<string>)

  /** The create body is exactly `{ name, type }` from the arguments. */
  function CreateCall(a: CreateArgs): (op: Api.Operation)
    ensures op.CreateClient?
    ensures Json.Defined(op.data) == [("name", Json.JString(a.name))]
      + (if a.kind.Some? then [("type", Json.JString(a.kind.value))] else [])
  {
    var data := [("name", Some(Json.JString(a.name))), ("type", Json.OptString(a.kind))];
    assert data[1..][1..] == [];
    Api.CreateClient(data)
  }

  /** The lines create-client prints for the created record, in push order. */
  function CreatedLines(c: Client): seq<Line>
  {
    [Raw("Client created successfully!"), Raw(""), Line(0, Code, c.code), Line(0, Name, c.name)]
    + When(Js.Truthy(c.kind), Line(0, Kind, Js.Show(c.kind)))
    + When(Js.Truthy(c.status), Line(0, Status, Js.Show(c.status)))
  }

  method FormatCreated(c: Client) returns (text: string)
    ensures text == Block(CreatedLines(c))
  {
    var lines := [Raw("Client created successfully!"), Raw(""), Line(0, Code, c.code), Line(0, Name, c.name)];
    lines := PushWhen(lines, Js.Truthy(c.kind), Line(0, Kind, Js.Show(c.kind)));
    lines := PushWhen(lines, Js.Truthy(c.status), Line(0, Status, Js.Show(c.status)));
    assert lines == CreatedLines(c);
    text := Block(lines);
  }

  /** The report opens with the banner, a blank line, Code and Name. */
  lemma CreatedHead(c: Client)
    ensures 4 <= |CreatedLines(c)| <= 6
    ensures CreatedLines(c)[..4] == [Raw("Client created successfully!"), Raw(""), Line(0, Code, c.code), Line(0, Name, c.name)]
  {
  }

  /** Only Code, Name, Type and Status can be shown, the last two when set; manager, partner and dates never. */
  lemma CreatedShows(c: Client, t: Label)
    ensures ShowsAs(CreatedLines(c), t, if t in {Code, Name, Kind, Status} then ListedField(c, t) else None)
  {
  }

  function CreateText(rt: Js.Runtime, out: Errors.Outcome<Client>): (text: string)
    ensures out.Returned? ==> text == Block(CreatedLines(out.value))
    ensures out.Threw? ==> text == ErrorText(rt, "Error creating client", out.error)
  {
    match out
    case Returned(c) => Block(CreatedLines(c))
    case Threw(e) => ErrorText(rt, "Error creating client", e)
  }

  /** The response C001 / Acme Ltd / PrivateLimitedCompany renders as four fixed lines and a Type line. */
  lemma CreatedExample()
    ensures
      var c := Client("C001", "Acme Ltd", Some("PrivateLimitedCompany"), None, None, None, None, None);
      CreatedLines(c) == [Raw("Client created successfully!"), Raw(""), Line(0, Code, "C001"),
                          Line(0, Name, "Acme Ltd"), Line(0, Kind, "PrivateLimitedCompany")]
  {
  }

  // ----- update-client -----

  datatype UpdateArgs = UpdateArgs(code: string, name: Option<string>, kind: Option<string>, status: Option<string>)

  /** The update sends `{ name, type, status }` under the given code. */
  function UpdateCall(a: UpdateArgs): (op: Api.Operation)
    ensures op.UpdateClient? && op.code == a.code
    ensures op.data == [("name", Json.OptString(a.name)), ("type", Json.OptString(a.kind)),
                        ("status", Json.OptString(a.status))]
  {
    Api.UpdateClient(a.code, [("name", Json.OptString(a.name)), ("type", Json.OptString(a.kind)),
                                 ("status", Json.OptString(a.status))])
  }

  /** The lines update-client prints for the updated record, in push order. */
  function UpdatedLines(c: Client): seq<Line>
  {
    [Raw("Client updated successfully!"), Raw(""), Line(0, Code, c.code), Line(0, Name, c.name)]
    + When(Js.Truthy(c.kind), Line(0, Kind, Js.Show(c.kind)))
    + When(Js.Truthy(c.status), Line(0, Status, Js.Show(c.status)))
  }

  method FormatUpdated(c: Client) returns (text: string)
    ensures text == Block(UpdatedLines(c))
  {
    var lines := [Raw("Client updated successfully!"), Raw(""), Line(0, Code, c.code), Line(0, Name, c.name)];
    lines := PushWhen(lines, Js.Truthy(c.kind), Line(0, Kind, Js.Show(c.kind)));
    lines := PushWhen(lines, Js.Truthy(c.status), Line(0, Status, Js.Show(c.status)));
    assert lines == UpdatedLines(c);
    text := Block(lines);
  }

  /** The update report differs from the create report only in its banner. */
  lemma UpdatedMatchesCreated(c: Client)
    ensures UpdatedLines(c)[0] == Raw("Client updated successfully!")
    ensures UpdatedLines(c)[1..] == CreatedLines(c)[1..]
  {
  }

  function UpdateText(rt: Js.Runtime, out: Errors.Outcome<Client>): (text: string)
    ensures out.Returned? ==> text == Block(UpdatedLines(out.value))
    ensures out.Threw? ==> text == ErrorText(rt, "Error updating client", out.error)
  {
    match out
    case Returned(c) => Block(UpdatedLines(c))
    case Threw(e) => ErrorText(rt, "Error updating client", e)
  }

  /** Without an API key every client tool reports the configuration error. */
  lemma MissingKeyReported(rt: Js.Runtime, env: Api.Env)
    requires !Js.Truthy(env.apiKey)
    ensures Api.Construct(env).Threw?
    ensures ListText(rt, Errors.Threw(Api.Construct(env).error))
      == "Error listing clients: " + Api.MissingKeyMessage
  {
  }
}
