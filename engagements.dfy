/**
 * The four engagement tools: list-engagements, get-engagement,
 * create-engagement and update-engagement.
 */
module EngagementTools {
  import opened Wrappers
  import Text
  import Js
  import Json
  import Errors
  import Api = SodiumClient
  import opened Records
  import opened Report

  /** `Client: <name> (<code>)`. */
  function RefWithCode(r: Ref): (s: string)
    ensures Text.StartsWith(s, r.name + " (") && Text.EndsWith(s, r.code + ")")
    ensures |s| == |r.name| + 2 + |r.code| + 1
  {
    r.name + " (" + r.code + ")"
  }

  /** `[recipientFirstName, recipientLastName].filter(Boolean).join(" ")`. */
  function RecipientName(e: Engagement): string
  {
    Js.JoinTruthy([e.recipientFirstName, e.recipientLastName], " ")
  }

  /** The recipient is the non-empty names joined by a space, and empty exactly when both names are. */
  lemma RecipientNameCases(e: Engagement)
    ensures Js.Truthy(e.recipientFirstName) && Js.Truthy(e.recipientLastName) ==>
      RecipientName(e) == e.recipientFirstName.value + " " + e.recipientLastName.value
    ensures Js.Truthy(e.recipientFirstName) && !Js.Truthy(e.recipientLastName) ==>
      RecipientName(e) == e.recipientFirstName.value
    ensures !Js.Truthy(e.recipientFirstName) && Js.Truthy(e.recipientLastName) ==>
      RecipientName(e) == e.recipientLastName.value
    ensures RecipientName(e) == "" <==> !Js.Truthy(e.recipientFirstName) && !Js.Truthy(e.recipientLastName)
  {
    Js.JoinTwoTruthy(e.recipientFirstName, e.recipientLastName, " ");
  }

  /** `engagement.acceptance?.acceptedDate`. */
  function AcceptedDate(e: Engagement): Option<string>
  {
    if e.acceptance.Some? then e.acceptance.value.acceptedDate else None
  }

  /** The text of the Client line; only read when a client is present. */
  function ClientText(e: Engagement): string
  {
    if e.client.Some? then RefWithCode(e.client.value) else ""
  }

  /** The name of an optional template reference; only read when it is present. */
  function TemplateName(r: Option<Ref>): string
  {
    if r.Some? then r.value.name else ""
  }

  /** The `Annual Value: £…` text; only read when the value is defined. */
  function ValueText(rt: Js.Runtime, e: Engagement): string
  {
    "£" + Js.Money(rt, e.annualValue.GetOr(0.0))
  }

  /** The `Services: …` text; only read when the count is defined. */
  function ServicesText(rt: Js.Runtime, e: Engagement): string
  {
    Js.NumberToString(rt, e.numberOfServices.GetOr(0.0))
  }

  /** Recipient and Email, shared by the block and the create report. */
  function RecipientLines(e: Engagement): seq<Line>
  {
    When(RecipientName(e) != "", Line(0, Recipient, RecipientName(e)))
    + When(Js.Truthy(e.recipientEmail), Line(0, Email, Js.Show(e.recipientEmail)))
  }

  // ----- list-engagements and get-engagement: formatEngagement -----

  /** Code, Client, Status, Type and Date. */
  function HeadLines(e: Engagement): seq<Line>
  {
    [Line(0, Code, e.code)]
    + When(e.client.Some?, Line(0, ForClient, ClientText(e)))
    + When(Js.Truthy(e.status), Line(0, Status, Js.Show(e.status)))
    + When(Js.Truthy(e.typeName), Line(0, Kind, Js.Show(e.typeName)))
    + When(Js.Truthy(e.date), Line(0, Date, Js.Show(e.date)))
  }

  /** Recipient, Email, Annual Value and Services. */
  function MiddleLines(rt: Js.Runtime, e: Engagement): seq<Line>
  {
    RecipientLines(e)
    + When(e.annualValue.Some?, Line(0, AnnualValue, ValueText(rt, e)))
    + When(e.numberOfServices.Some?, Line(0, Services, ServicesText(rt, e)))
  }

  /** The two templates, Last Viewed, Accepted and Link. */
  function TailLines(e: Engagement): seq<Line>
  {
    When(e.proposalTemplate.Some?, Line(0, ProposalTemplate, TemplateName(e.proposalTemplate)))
    + When(e.lofETemplate.Some?, Line(0, LetterTemplate, TemplateName(e.lofETemplate)))
    + When(Js.Truthy(e.lastViewed), Line(0, LastViewed, Js.Show(e.lastViewed)))
    + When(Js.Truthy(AcceptedDate(e)), Line(0, Accepted, Js.Show(AcceptedDate(e))))
    + When(Js.Truthy(e.link), Line(0, Link, Js.Show(e.link)))
  }

  /**
   * The lines of an engagement block, in push order. list-engagements and
   * get-engagement each define this formatter with the same body.
   */
  function EngagementLines(rt: Js.Runtime, e: Engagement): seq<Line>
  {
    HeadLines(e) + MiddleLines(rt, e) + TailLines(e)
  }

  /** The pushes of Code, Client, Status, Type and Date. */
  method PushHead(e: Engagement) returns (lines: seq<Line>)
    ensures lines == HeadLines(e)
  {
    lines := [Line(0, Code, e.code)];
    lines := PushWhen(lines, e.client.Some?, Line(0, ForClient, ClientText(e)));
    lines := PushWhen(lines, Js.Truthy(e.status), Line(0, Status, Js.Show(e.status)));
    lines := PushWhen(lines, Js.Truthy(e.typeName), Line(0, Kind, Js.Show(e.typeName)));
    lines := PushWhen(lines, Js.Truthy(e.date), Line(0, Date, Js.Show(e.date)));
  }

  /** The recipient and financial pushes. */
  method PushMiddle(rt: Js.Runtime, e: Engagement, before: seq<Line>) returns (lines: seq<Line>)
    ensures lines == before + MiddleLines(rt, e)
  {
    var recipient := RecipientName(e);
    var w1 := When(recipient != "", Line(0, Recipient, recipient));
    var w2 := When(Js.Truthy(e.recipientEmail), Line(0, Email, Js.Show(e.recipientEmail)));
    var w3 := When(e.annualValue.Some?, Line(0, AnnualValue, ValueText(rt, e)));
    var w4 := When(e.numberOfServices.Some?, Line(0, Services, ServicesText(rt, e)));
    lines := PushWhen(before, recipient != "", Line(0, Recipient, recipient));
    lines := PushWhen(lines, Js.Truthy(e.recipientEmail), Line(0, Email, Js.Show(e.recipientEmail)));
    PushAfter(before, w1, w2);
    lines := PushWhen(lines, e.annualValue.Some?, Line(0, AnnualValue, ValueText(rt, e)));
    PushAfter(before, w1 + w2, w3);
    lines := PushWhen(lines, e.numberOfServices.Some?, Line(0, Services, ServicesText(rt, e)));
    PushAfter(before, w1 + w2 + w3, w4);
  }

  /** The template, status-detail and link pushes. */
  method PushTail(e: Engagement, before: seq<Line>) returns (lines: seq<Line>)
    ensures lines == before + TailLines(e)
  {
    var w1 := When(e.proposalTemplate.Some?, Line(0, ProposalTemplate, TemplateName(e.proposalTemplate)));
    var w2 := When(e.lofETemplate.Some?, Line(0, LetterTemplate, TemplateName(e.lofETemplate)));
    var w3 := When(Js.Truthy(e.lastViewed), Line(0, LastViewed, Js.Show(e.lastViewed)));
    var w4 := When(Js.Truthy(AcceptedDate(e)), Line(0, Accepted, Js.Show(AcceptedDate(e))));
    var w5 := When(Js.Truthy(e.link), Line(0, Link, Js.Show(e.link)));
    lines := PushWhen(before, e.proposalTemplate.Some?, Line(0, ProposalTemplate, TemplateName(e.proposalTemplate)));
    lines := PushWhen(lines, e.lofETemplate.Some?, Line(0, LetterTemplate, TemplateName(e.lofETemplate)));
    PushAfter(before, w1, w2);
    lines := PushWhen(lines, Js.Truthy(e.lastViewed), Line(0, LastViewed, Js.Show(e.lastViewed)));
    PushAfter(before, w1 + w2, w3);
    lines := PushWhen(lines, Js.Truthy(AcceptedDate(e)), Line(0, Accepted, Js.Show(AcceptedDate(e))));
    PushAfter(before, w1 + w2 + w3, w4);
    lines := PushWhen(lines, Js.Truthy(e.link), Line(0, Link, Js.Show(e.link)));
    PushAfter(before, w1 + w2 + w3 + w4, w5);
  }

  method FormatEngagement(rt: Js.Runtime, e: Engagement) returns (text: string)
    ensures text == Block(EngagementLines(rt, e))
  {
    var lines := PushHead(e);
    lines := PushMiddle(rt, e, lines);
    lines := PushTail(e, lines);
    text := Block(lines);
  }

  /**
   * What an engagement block shows under each label. Type comes from
   * typeName alone; the two numbers show whenever they are defined, zero
   * included; a template shows its name whenever it is present.
   */
  function EngagementField(rt: Js.Runtime, e: Engagement, t: Label): Option<string>
  {
    match t
    case Code => Some(e.code)
    case ForClient => if e.client.Some? then Some(RefWithCode(e.client.value)) else None
    case Status => Shown(e.status)
    case Kind => Shown(e.typeName)
    case Date => Shown(e.date)
    case Recipient => if RecipientName(e) != "" then Some(RecipientName(e)) else None
    case Email => Shown(e.recipientEmail)
    case AnnualValue => if e.annualValue.Some? then Some("£" + Js.Money(rt, e.annualValue.value)) else None
    case Services => if e.numberOfServices.Some? then Some(Js.NumberToString(rt, e.numberOfServices.value)) else None
    case ProposalTemplate => if e.proposalTemplate.Some? then Some(e.proposalTemplate.value.name) else None
    case LetterTemplate => if e.lofETemplate.Some? then Some(e.lofETemplate.value.name) else None
    case LastViewed => Shown(e.lastViewed)
    case Accepted => Shown(AcceptedDate(e))
    case Link => Shown(e.link)
    case _ => None
  }

  lemma EngagementHead(rt: Js.Runtime, e: Engagement)
    ensures 1 <= |EngagementLines(rt, e)| <= 14
    ensures EngagementLines(rt, e)[0] == Line(0, Code, e.code)
  {
    assert |HeadLines(e)| <= 5 && |MiddleLines(rt, e)| <= 4 && |TailLines(e)| <= 5;
  }

  lemma HeadShows(rt: Js.Runtime, e: Engagement, t: Label)
    ensures ShowsAs(HeadLines(e), t, if t in {Code, ForClient, Status, Kind, Date} then EngagementField(rt, e, t) else None)
  {
  }

  lemma RecipientShows(rt: Js.Runtime, e: Engagement, t: Label)
    ensures ShowsAs(RecipientLines(e), t, if t in {Recipient, Email} then EngagementField(rt, e, t) else None)
  {
  }

  lemma MiddleShows(rt: Js.Runtime, e: Engagement, t: Label)
    ensures ShowsAs(MiddleLines(rt, e), t,
      if t in {Recipient, Email, AnnualValue, Services} then EngagementField(rt, e, t) else None)
  {
    RecipientShows(rt, e, t);
    var values := When(e.annualValue.Some?, Line(0, AnnualValue, ValueText(rt, e)))
      + When(e.numberOfServices.Some?, Line(0, Services, ServicesText(rt, e)));
    assert ShowsAs(values, t, if t in {AnnualValue, Services} then EngagementField(rt, e, t) else None);
    assert MiddleLines(rt, e) == RecipientLines(e) + values;
    ShowsJoin(RecipientLines(e), values, t,
      if t in {Recipient, Email} then EngagementField(rt, e, t) else None,
      if t in {AnnualValue, Services} then EngagementField(rt, e, t) else None);
  }

  lemma TailShows(rt: Js.Runtime, e: Engagement, t: Label)
    ensures ShowsAs(TailLines(e), t,
      if t in {ProposalTemplate, LetterTemplate, LastViewed, Accepted, Link} then EngagementField(rt, e, t) else None)
  {
    var p, l, a := e.proposalTemplate, e.lofETemplate, AcceptedDate(e);
    var x := if t in {ProposalTemplate, LetterTemplate, LastViewed, Accepted, Link} then EngagementField(rt, e, t) else None;
    ShowsFive(TailLines(e), t, x,
      p.Some?, ProposalTemplate, TemplateName(p), l.Some?, LetterTemplate, TemplateName(l),
      Js.Truthy(e.lastViewed), LastViewed, Js.Show(e.lastViewed), Js.Truthy(a), Accepted, Js.Show(a),
      Js.Truthy(e.link), Link, Js.Show(e.link));
  }

  /** Each label of an engagement block shows exactly the value its field calls for. */
  lemma EngagementShows(rt: Js.Runtime, e: Engagement, t: Label)
    ensures ShowsAs(EngagementLines(rt, e), t, EngagementField(rt, e, t))
  {
    HeadShows(rt, e, t);
    MiddleShows(rt, e, t);
    TailShows(rt, e, t);
    var x := if t in {Code, ForClient, Status, Kind, Date} then EngagementField(rt, e, t) else None;
    var y := if t in {Recipient, Email, AnnualValue, Services} then EngagementField(rt, e, t) else None;
    var z := if t in {ProposalTemplate, LetterTemplate, LastViewed, Accepted, Link} then EngagementField(rt, e, t) else None;
    ShowsJoin(HeadLines(e), MiddleLines(rt, e), t, x, y);
    ShowsJoin(HeadLines(e) + MiddleLines(rt, e), TailLines(e), t, if x.Some? then x else y, z);
  }

  /** A type without a typeName prints no Type line at all. */
  lemma TypeOnlyFromTypeName(rt: Js.Runtime, e: Engagement)
    requires !Js.Truthy(e.typeName)
    ensures Lacks(EngagementLines(rt, e), Kind)
  {
    EngagementShows(rt, e, Kind);
  }

  /** A zero annual value and a zero service count are still printed. */
  lemma ZeroValuesShown(rt: Js.Runtime, e: Engagement)
    requires e.annualValue == Some(0.0) && e.numberOfServices == Some(0.0)
    ensures Line(0, AnnualValue, "£" + rt.toFixed(0.0, 2)) in EngagementLines(rt, e)
    ensures Line(0, Services, "0") in EngagementLines(rt, e)
  {
    EngagementShows(rt, e, AnnualValue);
    EngagementShows(rt, e, Services);
    assert Js.NumberToString(rt, 0.0) == "0";
  }

  // ----- list-engagements handler -----

  datatype ListArgs = ListArgs(offset: Option<real>, limit: Option<real>)

  /** The handler forwards only offset and limit. */
  function ListCall(a: ListArgs): (op: Api.Operation)
    ensures op.ListEngagements? && op.query.Some?
    ensures op.query.value == [("offset", Api.QNumber(a.offset)), ("limit", Api.QNumber(a.limit))]
  {
    Api.ListEngagements(Some([("offset", Api.QNumber(a.offset)), ("limit", Api.QNumber(a.limit))]))
  }

  function ListText(rt: Js.Runtime, out: Errors.Outcome<Option<seq<Engagement>>>): (text: string)
    ensures out.Threw? ==> text == ErrorText(rt, "Error listing engagements", out.error)
    ensures out.Returned? && (out.value.None? || |out.value.value| == 0) ==> text == "No engagements found."
    ensures out.Returned? && out.value.Some? && |out.value.value| > 0 ==>
      var es := out.value.value;
      text == FoundHeader(|es|, "engagement", "") + "\n\n"
              + Text.Join(seq(|es|, i requires 0 <= i < |es| => Block(EngagementLines(rt, es[i]))), Separator)
  {
    match out
    case Threw(e) => ErrorText(rt, "Error listing engagements", e)
    case Returned(None) => "No engagements found."
    case Returned(Some(es)) =>
      Listing("No engagements found.", FoundHeader(|es|, "engagement", ""),
              seq(|es|, i requires 0 <= i < |es| => Block(EngagementLines(rt, es[i]))), Separator)
  }

  // ----- get-engagement handler -----

  function GetCall(code: string): (op: Api.Operation)
    ensures op.GetEngagement? && op.code == code
  {
    Api.GetEngagement(code)
  }

  function GetText(rt: Js.Runtime, out: Errors.Outcome<Engagement>): (text: string)
    ensures out.Returned? ==> text == "Engagement Details:\n\n" + Block(EngagementLines(rt, out.value))
    ensures out.Threw? ==> text == ErrorText(rt, "Error getting engagement", out.error)
  {
    match out
    case Returned(e) => "Engagement Details:\n\n" + Block(EngagementLines(rt, e))
    case Threw(err) => ErrorText(rt, "Error getting engagement", err)
  }

  /**
   * A 404 whose body carries the message "Engagement not found" reaches the
   * handler as a thrown API error, and the tool prints exactly
   * `Error getting engagement: Engagement not found`.
   */
  lemma NotFoundText(rt: Js.Runtime, cfg: Api.Config, code: string)
    ensures
      var resp := Api.Response(404, "Not Found",
                               Api.Parsed(Json.JObject([("message", Json.JString("Engagement not found"))])), []);
      var out := Api.Unwrap(Api.GetEngagement(code), Api.Classify(Api.Answered(resp)));
      out.Threw?
      && GetText(rt, Errors.Threw(out.error)) == "Error getting engagement" + ": " + "Engagement not found"
  {
    Api.NotFoundMessage(rt, cfg, code, "Engagement not found");
  }

  // ----- create-engagement -----

  /** The two engagement types the create tool accepts. */
  datatype EngagementKind = ProposalAndEngagementLetter | EngagementLetter

  function KindName(k: EngagementKind): string
  {
    match k
    case ProposalAndEngagementLetter => "ProposalAndEngagementLetter"
    case EngagementLetter => "EngagementLetter"
  }

  /** The enumeration check on the `type` argument: any other string is refused. */
  function ParseKind(s: string): (k: Option<EngagementKind>)
    ensures k.Some? <==> s == "ProposalAndEngagementLetter" || s == "EngagementLetter"
  {
    if s == "ProposalAndEngagementLetter" then Some(ProposalAndEngagementLetter)
    else if s == "EngagementLetter" then Some(EngagementLetter)
    else None
  }

  lemma KindRoundTrip(k: EngagementKind, s: string)
    ensures ParseKind(KindName(k)) == Some(k)
    ensures ParseKind(s).Some? ==> KindName(ParseKind(s).value) == s
  {
  }

  datatype CreateArgs = CreateArgs(
    clientCode: string,
    date: string,
    kind: EngagementKind,
    recipientFirstName: Option<string>,
    recipientLastName: Option<string>,
    recipientEmail: Option<string>,
    proposalTemplateCode: Option<string>,
    lofETemplateCode: Option<string>,
    clientBillableServiceCodes: Option<seq<string>>)

  /** The nine request fields, in the handler's order. */
  function CreateBody(a: CreateArgs): (data: Json.JsObject)
    ensures Json.Keys(data) == ["clientCode", "date", "type", "recipientFirstName", "recipientLastName",
                                "recipientEmail", "proposalTemplateCode", "lofETemplateCode",
                                "clientBillableServiceCodes"]
    ensures Json.Distinct(Json.Keys(data))
  {
    var data := [("clientCode", Some(Json.JString(a.clientCode))), ("date", Some(Json.JString(a.date))),
                 ("type", Some(Json.JString(KindName(a.kind)))),
                 ("recipientFirstName", Json.OptString(a.recipientFirstName)),
                 ("recipientLastName", Json.OptString(a.recipientLastName)),
                 ("recipientEmail", Json.OptString(a.recipientEmail)),
                 ("proposalTemplateCode", Json.OptString(a.proposalTemplateCode)),
                 ("lofETemplateCode", Json.OptString(a.lofETemplateCode)),
                 ("clientBillableServiceCodes", Json.OptStrings(a.clientBillableServiceCodes))];
    assert Json.Keys(data) == ["clientCode", "date", "type", "recipientFirstName", "recipientLastName",
                               "recipientEmail", "proposalTemplateCode", "lofETemplateCode",
                               "clientBillableServiceCodes"];
    assert Json.Distinct(["clientCode", "date", "type", "recipientFirstName", "recipientLastName", "recipientEmail", "proposalTemplateCode", "lofETemplateCode", "clientBillableServiceCodes"]);
    data
  }

  /** Each argument is forwarded unchanged under its own key. */
  lemma CreateForwards(a: CreateArgs)
    ensures Json.Field(CreateBody(a), "clientCode") == Some(Some(Json.JString(a.clientCode)))
    ensures Json.Field(CreateBody(a), "date") == Some(Some(Json.JString(a.date)))
    ensures Json.Field(CreateBody(a), "type") == Some(Some(Json.JString(KindName(a.kind))))
    ensures Json.Field(CreateBody(a), "recipientFirstName") == Some(Json.OptString(a.recipientFirstName))
    ensures Json.Field(CreateBody(a), "recipientLastName") == Some(Json.OptString(a.recipientLastName))
    ensures Json.Field(CreateBody(a), "recipientEmail") == Some(Json.OptString(a.recipientEmail))
    ensures Json.Field(CreateBody(a), "proposalTemplateCode") == Some(Json.OptString(a.proposalTemplateCode))
    ensures Json.Field(CreateBody(a), "lofETemplateCode") == Some(Json.OptString(a.lofETemplateCode))
    ensures Json.Field(CreateBody(a), "clientBillableServiceCodes") == Some(Json.OptStrings(a.clientBillableServiceCodes))
  {
    var data := CreateBody(a);
    Json.FieldAt(data, 0);
    Json.FieldAt(data, 1);
    Json.FieldAt(data, 2);
    Json.FieldAt(data, 3);
    Json.FieldAt(data, 4);
    Json.FieldAt(data, 5);
    Json.FieldAt(data, 6);
    Json.FieldAt(data, 7);
    Json.FieldAt(data, 8);
    assert data[0].0 == "clientCode" && data[1].0 == "date" && data[2].0 == "type";
    assert data[3].0 == "recipientFirstName" && data[4].0 == "recipientLastName" && data[5].0 == "recipientEmail";
    assert data[6].0 == "proposalTemplateCode" && data[7].0 == "lofETemplateCode";
    assert data[8].0 == "clientBillableServiceCodes";
  }

  function CreateCall(a: CreateArgs): (op: Api.Operation)
    ensures op.CreateEngagement? && op.data == CreateBody(a)
  {
    Api.CreateEngagement(CreateBody(a))
  }

  /** `typeName ?? type`, printed only when `type` is set. */
  function CreatedKind(e: Engagement): string
  {
    Js.Show(if e.typeName.Some? then e.typeName else e.kind)
  }

  /** The banner, Code, Client, Status, the create report's Type line and Date. */
  function CreatedHeadLines(e: Engagement): seq<Line>
  {
    [Raw("Engagement created successfully!"), Raw(""), Line(0, Code, e.code)]
    + When(e.client.Some?, Line(0, ForClient, ClientText(e)))
    + When(Js.Truthy(e.status), Line(0, Status, Js.Show(e.status)))
    + When(Js.Truthy(e.kind), Line(0, Kind, CreatedKind(e)))
    + When(Js.Truthy(e.date), Line(0, Date, Js.Show(e.date)))
  }

  /** Services, then Annual Value: the reverse of the block's order. */
  function CreatedValueLines(rt: Js.Runtime, e: Engagement): seq<Line>
  {
    When(e.numberOfServices.Some?, Line(0, Services, ServicesText(rt, e)))
    + When(e.annualValue.Some?, Line(0, AnnualValue, ValueText(rt, e)))
  }

  /** The lines create-engagement prints, in push order. */
  function CreatedLines(rt: Js.Runtime, e: Engagement): seq<Line>
  {
    CreatedHeadLines(e) + RecipientLines(e) + CreatedValueLines(rt, e)
    + When(Js.Truthy(e.link), Line(0, Link, Js.Show(e.link)))
  }

  method FormatCreated(rt: Js.Runtime, e: Engagement) returns (text: string)
    ensures text == Block(CreatedLines(rt, e))
  {
    var lines := [Raw("Engagement created successfully!"), Raw(""), Line(0, Code, e.code)];
    lines := PushWhen(lines, e.client.Some?, Line(0, ForClient, ClientText(e)));
    lines := PushWhen(lines, Js.Truthy(e.status), Line(0, Status, Js.Show(e.status)));
    lines := PushWhen(lines, Js.Truthy(e.kind), Line(0, Kind, CreatedKind(e)));
    lines := PushWhen(lines, Js.Truthy(e.date), Line(0, Date, Js.Show(e.date)));
    assert lines == CreatedHeadLines(e);
    var recipient := RecipientName(e);
    lines := PushWhen(lines, recipient != "", Line(0, Recipient, recipient));
    lines := PushWhen(lines, Js.Truthy(e.recipientEmail), Line(0, Email, Js.Show(e.recipientEmail)));
    PushAfter(CreatedHeadLines(e), When(recipient != "", Line(0, Recipient, recipient)),
              When(Js.Truthy(e.recipientEmail), Line(0, Email, Js.Show(e.recipientEmail))));
    lines := PushWhen(lines, e.numberOfServices.Some?, Line(0, Services, ServicesText(rt, e)));
    lines := PushWhen(lines, e.annualValue.Some?, Line(0, AnnualValue, ValueText(rt, e)));
    PushAfter(CreatedHeadLines(e) + RecipientLines(e), When(e.numberOfServices.Some?, Line(0, Services, ServicesText(rt, e))),
              When(e.annualValue.Some?, Line(0, AnnualValue, ValueText(rt, e))));
    lines := PushWhen(lines, Js.Truthy(e.link), Line(0, Link, Js.Show(e.link)));
    text := Block(lines);
  }

  lemma CreatedHead(rt: Js.Runtime, e: Engagement)
    ensures 3 <= |CreatedLines(rt, e)| <= 12
    ensures CreatedLines(rt, e)[..3] == [Raw("Engagement created successfully!"), Raw(""), Line(0, Code, e.code)]
  {
    var head := CreatedHeadLines(e);
    var rest := RecipientLines(e) + CreatedValueLines(rt, e) + When(Js.Truthy(e.link), Line(0, Link, Js.Show(e.link)));
    assert 3 <= |head| <= 7 && |rest| <= 5;
    assert head[..3] == [Raw("Engagement created successfully!"), Raw(""), Line(0, Code, e.code)];
    assert CreatedLines(rt, e) == head + rest;
    assert (head + rest)[..3] == head[..3];
  }

  /** The Type line of the create report: guarded by `type`, showing typeName and falling back to type. */
  function CreatedKindField(e: Engagement): Option<string>
  {
    if Js.Truthy(e.kind) then Some(CreatedKind(e)) else None
  }

  lemma CreatedHeadShows(rt: Js.Runtime, e: Engagement, t: Label)
    ensures ShowsAs(CreatedHeadLines(e), t,
      if t == Kind then CreatedKindField(e)
      else if t in {Code, ForClient, Status, Date} then EngagementField(rt, e, t) else None)
  {
  }

  lemma CreatedValueShows(rt: Js.Runtime, e: Engagement, t: Label)
    ensures ShowsAs(CreatedValueLines(rt, e), t, if t in {Services, AnnualValue} then EngagementField(rt, e, t) else None)
  {
  }

  /**
   * The create report shows the block's Client, Status, Date, Recipient,
   * Email, Services, Annual Value and Link, its own Type line, and never the
   * templates, Last Viewed or Accepted.
   */
  lemma CreatedShows(rt: Js.Runtime, e: Engagement, t: Label)
    ensures ShowsAs(CreatedLines(rt, e), t,
      if t == Kind then CreatedKindField(e)
      else if t in {ProposalTemplate, LetterTemplate, LastViewed, Accepted} then None
      else EngagementField(rt, e, t))
  {
    var x := if t == Kind then CreatedKindField(e)
      else if t in {Code, ForClient, Status, Date} then EngagementField(rt, e, t) else None;
    var y := if t in {Recipient, Email} then EngagementField(rt, e, t) else None;
    var z := if t in {Services, AnnualValue} then EngagementField(rt, e, t) else None;
    var w := if t == Link then EngagementField(rt, e, t) else None;
    var link := When(Js.Truthy(e.link), Line(0, Link, Js.Show(e.link)));
    CreatedHeadShows(rt, e, t);
    RecipientShows(rt, e, t);
    CreatedValueShows(rt, e, t);
    assert ShowsAs(link, t, w);
    ShowsJoin(CreatedHeadLines(e), RecipientLines(e), t, x, y);
    var xy := if x.Some? then x else y;
    ShowsJoin(CreatedHeadLines(e) + RecipientLines(e), CreatedValueLines(rt, e), t, xy, z);
    var xyz := if xy.Some? then xy else z;
    ShowsJoin(CreatedHeadLines(e) + RecipientLines(e) + CreatedValueLines(rt, e), link, t, xyz, w);
    CreatedFieldParts(rt, e, t);
  }

  /** The create report's field for a label is the one of its four runs that shows it. */
  lemma CreatedFieldParts(rt: Js.Runtime, e: Engagement, t: Label)
    ensures (if t == Kind then CreatedKindField(e)
             else if t in {ProposalTemplate, LetterTemplate, LastViewed, Accepted} then None
             else EngagementField(rt, e, t))
         == (if t == Kind then CreatedKindField(e)
             else if t in {Code, ForClient, Status, Date, Recipient, Email, Services, AnnualValue, Link}
             then EngagementField(rt, e, t) else None)
  {
    if t !in {Kind, ProposalTemplate, LetterTemplate, LastViewed, Accepted, Code, ForClient, Status,
              Date, Recipient, Email, Services, AnnualValue, Link} {
      assert EngagementField(rt, e, t).None?;
    }
  }


  /** Services directly precedes Annual Value in the create report when both are set. */
  lemma CreatedServicesFirst(rt: Js.Runtime, e: Engagement)
    requires e.numberOfServices.Some? && e.annualValue.Some?
    ensures var lines := CreatedLines(rt, e);
      exists i :: 0 <= i < |lines| - 1
        && lines[i] == Line(0, Services, Js.NumberToString(rt, e.numberOfServices.value))
        && lines[i + 1] == Line(0, AnnualValue, "£" + Js.Money(rt, e.annualValue.value))
  {
    var lines := CreatedLines(rt, e);
    var i := |CreatedHeadLines(e) + RecipientLines(e)|;
    assert CreatedValueLines(rt, e) == [Line(0, Services, ServicesText(rt, e)), Line(0, AnnualValue, ValueText(rt, e))];
    assert lines[i] == Line(0, Services, ServicesText(rt, e));
    assert lines[i + 1] == Line(0, AnnualValue, ValueText(rt, e));
  }

  function CreateText(rt: Js.Runtime, out: Errors.Outcome<Engagement>): (text: string)
    ensures out.Returned? ==> text == Block(CreatedLines(rt, out.value))
    ensures out.Threw? ==> text == ErrorText(rt, "Error creating engagement", out.error)
  {
    match out
    case Returned(e) => Block(CreatedLines(rt, e))
    case Threw(err) => ErrorText(rt, "Error creating engagement", err)
  }

  // ----- update-engagement -----

  /** The update body holds only `status`. */
  function UpdateCall(code: string, status: Option<string>): (op: Api.Operation)
    ensures op.UpdateEngagement? && op.code == code
    ensures Json.Keys(op.data) == ["status"] && Json.Field(op.data, "status") == Some(Json.OptString(status))
  {
    Api.UpdateEngagement(code, [("status", Json.OptString(status))])
  }

  /** The lines update-engagement prints, in push order. */
  function UpdatedLines(e: Engagement): seq<Line>
  {
    [Raw("Engagement updated successfully!"), Raw(""), Line(0, Code, e.code)]
    + When(e.client.Some?, Line(0, ForClient, ClientText(e)))
    + When(Js.Truthy(e.status), Line(0, Status, Js.Show(e.status)))
  }

  method FormatUpdated(e: Engagement) returns (text: string)
    ensures text == Block(UpdatedLines(e))
  {
    var lines := [Raw("Engagement updated successfully!"), Raw(""), Line(0, Code, e.code)];
    lines := PushWhen(lines, e.client.Some?, Line(0, ForClient, ClientText(e)));
    lines := PushWhen(lines, Js.Truthy(e.status), Line(0, Status, Js.Show(e.status)));
    assert lines == UpdatedLines(e);
    text := Block(lines);
  }

  /** Code, then the Client line when a client is present, then Status last when set. */
  lemma UpdatedShape(e: Engagement)
    ensures UpdatedLines(e)[..3] == [Raw("Engagement updated successfully!"), Raw(""), Line(0, Code, e.code)]
    ensures |UpdatedLines(e)| == 3 + (if e.client.Some? then 1 else 0) + (if Js.Truthy(e.status) then 1 else 0)
    ensures Js.Truthy(e.status) ==> UpdatedLines(e)[|UpdatedLines(e)| - 1] == Line(0, Status, e.status.value)
  {
  }

  function UpdateText(rt: Js.Runtime, out: Errors.Outcome<Engagement>): (text: string)
    ensures out.Returned? ==> text == Block(UpdatedLines(out.value))
    ensures out.Threw? ==> text == ErrorText(rt, "Error updating engagement", out.error)
  {
    match out
    case Returned(e) => Block(UpdatedLines(e))
    case Threw(err) => ErrorText(rt, "Error updating engagement", err)
  }
}
