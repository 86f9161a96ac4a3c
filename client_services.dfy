/**
 * The three client-service tools: list-client-services, create-client-service
 * and update-client-service. A client service is a billable service from the
 * tenant's catalogue assigned to one client.
 */
module ClientServiceTools {
  import opened Wrappers
  import Text
  import Js
  import Json
  import Errors
  import Api = SodiumClient
  import opened Records
  import opened Report

  /** `billableService?.name ?? code ?? "?"`. */
  function ServiceName(svc: ClientBillableService): string
  {
    if svc.billableService.Some? then svc.billableService.value.name else Js.Coalesce(svc.code, "?")
  }

  /** The catalogue name wins even when empty; then the code, even when empty; "?" only when both are absent. */
  lemma ServiceNameCases(svc: ClientBillableService)
    ensures svc.billableService.Some? ==> ServiceName(svc) == svc.billableService.value.name
    ensures svc.billableService.None? && svc.code.Some? ==> ServiceName(svc) == svc.code.value
    ensures svc.billableService.None? && svc.code.None? ==> ServiceName(svc) == "?"
  {
  }

  /** `<name> (code: <code>)`, the first line of every client-service block. */
  function TitleLine(svc: ClientBillableService): (l: Line)
    ensures l.Raw? && Text.StartsWith(l.text, ServiceName(svc) + " (code: ")
    ensures Text.EndsWith(l.text, Js.Show(svc.code) + ")")
    ensures |l.text| == |ServiceName(svc)| + 8 + |Js.Show(svc.code)| + 1
  {
    Raw(ServiceName(svc) + " (code: " + Js.Show(svc.code) + ")")
  }

  /** `£<calculatedPrice.toFixed(2)>`; only read when the price is defined. */
  function PriceText(rt: Js.Runtime, svc: ClientBillableService): string
  {
    "£" + Js.Money(rt, svc.calculatedPrice.GetOr(0.0))
  }

  /** `<priceAdjustmentPercentage>%`; only read when the percentage is non-zero. */
  function AdjustmentText(rt: Js.Runtime, svc: ClientBillableService): string
  {
    Js.NumberToString(rt, svc.priceAdjustmentPercentage.GetOr(0.0)) + "%"
  }

  // ----- list-client-services: formatClientService -----

  const AnswersHeader := "  Pricing answers:"

  /** `    <question>: <answer>`. */
  function AnswerLine(entry: (string, string)): (l: Line)
    ensures l.Raw? && Text.StartsWith(l.text, "    " + entry.0 + ": ")
    ensures Text.EndsWith(l.text, entry.1) && |l.text| == 6 + |entry.0| + |entry.1|
  {
    Raw("    " + entry.0 + ": " + entry.1)
  }

  /** One line per pricing answer, in `Object.entries` order. */
  function AnswerLines(answers: Answers): (r: seq<Line>)
    ensures |r| == |answers|
    ensures forall i :: 0 <= i < |answers| ==> r[i] == AnswerLine(answers[i])
  {
    seq(|answers|, i requires 0 <= i < |answers| => AnswerLine(answers[i]))
  }

  /** The pricing-answers section: a header and the answers, only for a non-empty map. */
  function AnswersSection(o: Option<Answers>): seq<Line>
  {
    if o.Some? && |o.value| > 0 then [Raw(AnswersHeader)] + AnswerLines(o.value) else []
  }

  /** The name line, then Billing, Price and Adjustment. */
  function ListedHeadLines(rt: Js.Runtime, svc: ClientBillableService): seq<Line>
  {
    [TitleLine(svc)]
    + When(Js.Truthy(svc.billingFrequency), Line(2, Billing, Js.Show(svc.billingFrequency)))
    + When(svc.calculatedPrice.Some?, Line(2, Price, PriceText(rt, svc)))
    + When(Js.NonZero(svc.priceAdjustmentPercentage), Line(2, Adjustment, AdjustmentText(rt, svc)))
  }

  /** Start, End and Status. */
  function ListedDateLines(svc: ClientBillableService): seq<Line>
  {
    When(Js.Truthy(svc.startDate), Line(2, Start, Js.Show(svc.startDate)))
    + When(Js.Truthy(svc.endDate), Line(2, End, Js.Show(svc.endDate)))
    + When(Js.Truthy(svc.status), Line(2, Status, Js.Show(svc.status)))
  }

  /** The lines of a client-service block in the list, in push order. */
  function ListedLines(rt: Js.Runtime, svc: ClientBillableService): seq<Line>
  {
    ListedHeadLines(rt, svc) + ListedDateLines(svc) + AnswersSection(svc.pricingAnswers)
  }

  /** The `for (const [q, a] of Object.entries(...))` loop. */
  method PushAnswers(answers: Answers, before: seq<Line>) returns (lines: seq<Line>)
    ensures lines == before + AnswerLines(answers)
  {
    lines := before;
    var i := 0;
    while i < |answers|
      invariant 0 <= i <= |answers|
      invariant lines == before + AnswerLines(answers[..i])
    {
      assert AnswerLines(answers[..i + 1]) == AnswerLines(answers[..i]) + [AnswerLine(answers[i])];
      lines := lines + [AnswerLine(answers[i])];
      i := i + 1;
    }
    assert answers[..i] == answers;
  }

  method FormatListed(rt: Js.Runtime, svc: ClientBillableService) returns (text: string)
    ensures text == Block(ListedLines(rt, svc))
  {
    var lines := [TitleLine(svc)];
    lines := PushWhen(lines, Js.Truthy(svc.billingFrequency), Line(2, Billing, Js.Show(svc.billingFrequency)));
    lines := PushWhen(lines, svc.calculatedPrice.Some?, Line(2, Price, PriceText(rt, svc)));
    lines := PushWhen(lines, Js.NonZero(svc.priceAdjustmentPercentage), Line(2, Adjustment, AdjustmentText(rt, svc)));
    ghost var head := lines;
    assert head == ListedHeadLines(rt, svc);
    var w1 := When(Js.Truthy(svc.startDate), Line(2, Start, Js.Show(svc.startDate)));
    var w2 := When(Js.Truthy(svc.endDate), Line(2, End, Js.Show(svc.endDate)));
    var w3 := When(Js.Truthy(svc.status), Line(2, Status, Js.Show(svc.status)));
    lines := PushWhen(lines, Js.Truthy(svc.startDate), Line(2, Start, Js.Show(svc.startDate)));
    lines := PushWhen(lines, Js.Truthy(svc.endDate), Line(2, End, Js.Show(svc.endDate)));
    PushAfter(head, w1, w2);
    lines := PushWhen(lines, Js.Truthy(svc.status), Line(2, Status, Js.Show(svc.status)));
    PushAfter(head, w1 + w2, w3);
    ghost var dated := lines;
    assert dated == ListedHeadLines(rt, svc) + ListedDateLines(svc);
    if svc.pricingAnswers.Some? && |svc.pricingAnswers.value| > 0 {
      lines := lines + [Raw(AnswersHeader)];
      lines := PushAnswers(svc.pricingAnswers.value, lines);
      PushAfter(dated, [Raw(AnswersHeader)], AnswerLines(svc.pricingAnswers.value));
    } else {
      assert lines == dated + [];
    }
    text := Block(lines);
  }

  /** What an indented line of a listed block shows under each label. */
  function ListedField(rt: Js.Runtime, svc: ClientBillableService, t: Label): Option<string>
  {
    match t
    case Billing => Shown(svc.billingFrequency)
    case Price => if svc.calculatedPrice.Some? then Some("£" + Js.Money(rt, svc.calculatedPrice.value)) else None
    case Adjustment =>
      if Js.NonZero(svc.priceAdjustmentPercentage)
      then Some(Js.NumberToString(rt, svc.priceAdjustmentPercentage.value) + "%") else None
    case Start => Shown(svc.startDate)
    case End => Shown(svc.endDate)
    case Status => Shown(svc.status)
    case _ => None
  }

  lemma ListedHeadShows(rt: Js.Runtime, svc: ClientBillableService, t: Label)
    ensures ShowsAt(ListedHeadLines(rt, svc), 2, t, if t in {Billing, Price, Adjustment} then ListedField(rt, svc, t) else None)
  {
    ShowsAtThree(ListedHeadLines(rt, svc), 2, t,
      if t in {Billing, Price, Adjustment} then ListedField(rt, svc, t) else None, [TitleLine(svc)],
      Js.Truthy(svc.billingFrequency), Billing, Js.Show(svc.billingFrequency),
      svc.calculatedPrice.Some?, Price, PriceText(rt, svc),
      Js.NonZero(svc.priceAdjustmentPercentage), Adjustment, AdjustmentText(rt, svc));
  }

  lemma ListedDateShows(rt: Js.Runtime, svc: ClientBillableService, t: Label)
    ensures ShowsAt(ListedDateLines(svc), 2, t, if t in {Start, End, Status} then ListedField(rt, svc, t) else None)
  {
    ShowsAtThree(ListedDateLines(svc), 2, t,
      if t in {Start, End, Status} then ListedField(rt, svc, t) else None, [],
      Js.Truthy(svc.startDate), Start, Js.Show(svc.startDate), Js.Truthy(svc.endDate), End, Js.Show(svc.endDate),
      Js.Truthy(svc.status), Status, Js.Show(svc.status));
  }

  /** The answers section holds no labelled line. */
  lemma AnswersUnlabelled(o: Option<Answers>, indent: nat, t: Label)
    ensures ShowsAt(AnswersSection(o), indent, t, None)
  {
  }

  /** Each indented label of a listed block shows exactly the value its field calls for. */
  lemma ListedShows(rt: Js.Runtime, svc: ClientBillableService, t: Label)
    ensures ShowsAt(ListedLines(rt, svc), 2, t, ListedField(rt, svc, t))
  {
    ListedHeadShows(rt, svc, t);
    ListedDateShows(rt, svc, t);
    AnswersUnlabelled(svc.pricingAnswers, 2, t);
    var x := if t in {Billing, Price, Adjustment} then ListedField(rt, svc, t) else None;
    var y := if t in {Start, End, Status} then ListedField(rt, svc, t) else None;
    ShowsAtJoin(ListedHeadLines(rt, svc), ListedDateLines(svc), 2, t, x, y);
    ShowsAtJoin(ListedHeadLines(rt, svc) + ListedDateLines(svc), AnswersSection(svc.pricingAnswers), 2, t,
                if x.Some? then x else y, None);
  }

  /** A zero or absent adjustment prints no Adjustment line. */
  lemma NoZeroAdjustment(rt: Js.Runtime, svc: ClientBillableService)
    requires svc.priceAdjustmentPercentage.None? || svc.priceAdjustmentPercentage == Some(0.0)
    ensures forall v :: Line(2, Adjustment, v) !in ListedLines(rt, svc)
  {
    ListedShows(rt, svc, Adjustment);
  }

  /**
   * The block opens with the name line: the pricing-answers header is
   * printed exactly when the map has an entry, and is then followed by one
   * line per entry, which end the block.
   */
  lemma ListedAnswers(rt: Js.Runtime, svc: ClientBillableService)
    ensures ListedLines(rt, svc)[0] == TitleLine(svc)
    ensures Raw(AnswersHeader) in ListedLines(rt, svc) <==> svc.pricingAnswers.Some? && |svc.pricingAnswers.value| > 0
    ensures svc.pricingAnswers.Some? && |svc.pricingAnswers.value| > 0 ==>
      var lines := ListedLines(rt, svc);
      var n := |svc.pricingAnswers.value|;
      n + 1 < |lines| && lines[|lines| - n - 1] == Raw(AnswersHeader)
      && lines[|lines| - n..] == AnswerLines(svc.pricingAnswers.value)
  {
    var head := ListedHeadLines(rt, svc);
    var prefix := head + ListedDateLines(svc);
    var section := AnswersSection(svc.pricingAnswers);
    assert ListedLines(rt, svc) == prefix + section;
    assert prefix[0] == TitleLine(svc);
    // The name line ends with ')' and every other line of the prefix is labelled.
    assert forall k :: 1 <= k < |head| ==> head[k].Line?;
    assert forall k :: 0 <= k < |ListedDateLines(svc)| ==> ListedDateLines(svc)[k].Line?;
    var title := TitleLine(svc).text;
    assert title[|title| - 1] == ')';
    assert AnswersHeader[|AnswersHeader| - 1] == ':';
    assert Raw(AnswersHeader) !in prefix;
    if svc.pricingAnswers.Some? && |svc.pricingAnswers.value| > 0 {
      var answers := AnswerLines(svc.pricingAnswers.value);
      assert section == [Raw(AnswersHeader)] + answers;
      PushAfter(prefix, [Raw(AnswersHeader)], answers);
      var upto := prefix + [Raw(AnswersHeader)];
      assert ListedLines(rt, svc) == upto + answers;
      assert (upto + answers)[|upto|..] == answers;
      assert (upto + answers)[|upto| - 1] == Raw(AnswersHeader);
    } else {
      assert section == [];
    }
  }

  // ----- the list-client-services handler -----

  function ListCall(clientCode: string): (op: Api.Operation)
    ensures op.ListClientServices? && op.clientCode == clientCode
  {
    Api.ListClientServices(clientCode)
  }

  /** `services.map(s => s.code).filter(Boolean).join(", ")`. */
  function CodesSummary(ss: seq<ClientBillableService>): string
  {
    Js.JoinTruthy(seq(|ss|, i requires 0 <= i < |ss| => ss[i].code), ", ")
  }

  /** The codes the summary joins are exactly the non-empty codes of the services. */
  lemma CodesSummaryMembers(ss: seq<ClientBillableService>, c: string)
    ensures c in Js.KeepTruthy(seq(|ss|, i requires 0 <= i < |ss| => ss[i].code))
      <==> c != "" && exists i :: 0 <= i < |ss| && ss[i].code == Some(c)
  {
    var codes := seq(|ss|, i requires 0 <= i < |ss| => ss[i].code);
    Js.KeepTruthyMembers(codes, c);
    if Some(c) in codes {
      var i :| 0 <= i < |codes| && codes[i] == Some(c);
      assert ss[i].code == Some(c);
    }
    if exists i :: 0 <= i < |ss| && ss[i].code == Some(c) {
      var i :| 0 <= i < |ss| && ss[i].code == Some(c);
      assert codes[i] == Some(c);
    }
  }

  function ListedBlocks(rt: Js.Runtime, ss: seq<ClientBillableService>): (blocks: seq<string>)
    ensures |blocks| == |ss|
  {
    seq(|ss|, i requires 0 <= i < |ss| => Block(ListedLines(rt, ss[i])))
  }

  /**
   * The header with the count, a blank line, the blocks joined by a blank
   * line (not `---`), a blank line and the codes summary.
   */
  function ListText(rt: Js.Runtime, clientCode: string, out: Errors.Outcome<Option<seq<ClientBillableService>>>): (text: string)
    ensures out.Threw? ==> text == ErrorText(rt, "Error listing client services", out.error)
    ensures out.Returned? && (out.value.None? || |out.value.value| == 0) ==>
      text == "No services found for client " + clientCode + "."
    ensures out.Returned? && out.value.Some? && |out.value.value| > 0 ==>
      var ss := out.value.value;
      text == "Client services for " + clientCode + " (" + Text.NatToString(|ss|) + " service(s)):" + "\n" + "\n"
              + Text.Join(ListedBlocks(rt, ss), "\n\n") + "\n" + "\n"
              + "Service codes for engagement creation: " + CodesSummary(ss)
  {
    match out
    case Threw(e) => ErrorText(rt, "Error listing client services", e)
    case Returned(None) => "No services found for client " + clientCode + "."
    case Returned(Some(ss)) =>
      if |ss| == 0 then "No services found for client " + clientCode + "."
      else
        "Client services for " + clientCode + " (" + Text.NatToString(|ss|) + " service(s)):" + "\n" + "\n"
        + Text.Join(ListedBlocks(rt, ss), "\n\n") + "\n" + "\n"
        + "Service codes for engagement creation: " + CodesSummary(ss)
  }

  // ----- create-client-service and update-client-service -----

  /** The accepted billing frequencies. */
  datatype Frequency = OneOff | Annual | Quarterly | Monthly

  function FrequencyName(f: Frequency): string
  {
    match f
    case OneOff => "OneOff"
    case Annual => "Annual"
    case Quarterly => "Quarterly"
    case Monthly => "Monthly"
  }

  /** The enumeration check on `billingFrequency`: any other string is refused. */
  function ParseFrequency(s: string): (f: Option<Frequency>)
    ensures f.Some? <==> s in {"OneOff", "Annual", "Quarterly", "Monthly"}
  {
    if s == "OneOff" then Some(OneOff)
    else if s == "Annual" then Some(Annual)
    else if s == "Quarterly" then Some(Quarterly)
    else if s == "Monthly" then Some(Monthly)
    else None
  }

  lemma FrequencyRoundTrip(f: Frequency, s: string)
    ensures ParseFrequency(FrequencyName(f)) == Some(f)
    ensures ParseFrequency(s).Some? ==> FrequencyName(ParseFrequency(s).value) == s
  {
  }

  /** The accepted service statuses. */
  datatype ServiceStatus = Active | Inactive | Paused | Proposed

  function StatusName(st: ServiceStatus): string
  {
    match st
    case Active => "Active"
    case Inactive => "Inactive"
    case Paused => "Paused"
    case Proposed => "Proposed"
  }

  /** The enumeration check on `status`: any other string is refused. */
  function ParseStatus(s: string): (st: Option<ServiceStatus>)
    ensures st.Some? <==> s in {"Active", "Inactive", "Paused", "Proposed"}
  {
    if s == "Active" then Some(Active)
    else if s == "Inactive" then Some(Inactive)
    else if s == "Paused" then Some(Paused)
    else if s == "Proposed" then Some(Proposed)
    else None
  }

  lemma StatusRoundTrip(st: ServiceStatus, s: string)
    ensures ParseStatus(StatusName(st)) == Some(st)
    ensures ParseStatus(s).Some? ==> StatusName(ParseStatus(s).value) == s
  {
  }

  /** The ten request fields both tools send. */
  datatype ServiceArgs = ServiceArgs(
    billableServiceCode: string,
    billingFrequency: Frequency,
    startDate: string,
    status: ServiceStatus,
    overridePricing: Option<bool>,
    price: Option<real>,
    priceAdjustmentPercentage: Option<real>,
    endDate: Option<string>,
    managedByUserCode: Option<string>,
    pricingAnswers: Option<Answers>)

  /** The request body, in the handlers' order. */
  function ServiceBody(a: ServiceArgs): (data: Json.JsObject)
    ensures Json.Keys(data) == ["billableServiceCode", "billingFrequency", "startDate", "status",
                                "overridePricing", "price", "priceAdjustmentPercentage", "endDate",
                                "managedByUserCode", "pricingAnswers"]
    ensures Json.Distinct(Json.Keys(data))
  {
    var data := [("billableServiceCode", Some(Json.JString(a.billableServiceCode))),
                 ("billingFrequency", Some(Json.JString(FrequencyName(a.billingFrequency)))),
                 ("startDate", Some(Json.JString(a.startDate))),
                 ("status", Some(Json.JString(StatusName(a.status)))),
                 ("overridePricing", Json.OptBool(a.overridePricing)),
                 ("price", Json.OptNumber(a.price)),
                 ("priceAdjustmentPercentage", Json.OptNumber(a.priceAdjustmentPercentage)),
                 ("endDate", Json.OptString(a.endDate)),
                 ("managedByUserCode", Json.OptString(a.managedByUserCode)),
                 ("pricingAnswers", Json.OptStringMap(a.pricingAnswers))];
    assert Json.Keys(data) == ["billableServiceCode", "billingFrequency", "startDate", "status",
                               "overridePricing", "price", "priceAdjustmentPercentage", "endDate",
                               "managedByUserCode", "pricingAnswers"];
    assert Json.Distinct(["billableServiceCode", "billingFrequency", "startDate", "status",
                          "overridePricing", "price", "priceAdjustmentPercentage", "endDate",
                          "managedByUserCode", "pricingAnswers"]);
    data
  }

  /** The four required arguments are forwarded unchanged under their own keys, the enums as their names. */
  lemma ServiceForwards(a: ServiceArgs)
    ensures Json.Field(ServiceBody(a), "billableServiceCode") == Some(Some(Json.JString(a.billableServiceCode)))
    ensures Json.Field(ServiceBody(a), "billingFrequency") == Some(Some(Json.JString(FrequencyName(a.billingFrequency))))
    ensures Json.Field(ServiceBody(a), "startDate") == Some(Some(Json.JString(a.startDate)))
    ensures Json.Field(ServiceBody(a), "status") == Some(Some(Json.JString(StatusName(a.status))))
  {
    var data := ServiceBody(a);
    Json.FieldAt(data, 0);
    Json.FieldAt(data, 1);
    Json.FieldAt(data, 2);
    Json.FieldAt(data, 3);
  }

  /** The six optional arguments are forwarded under their own keys, `undefined` when absent. */
  lemma ServiceOptionsForwards(a: ServiceArgs)
    ensures Json.Field(ServiceBody(a), "overridePricing") == Some(Json.OptBool(a.overridePricing))
    ensures Json.Field(ServiceBody(a), "price") == Some(Json.OptNumber(a.price))
    ensures Json.Field(ServiceBody(a), "priceAdjustmentPercentage") == Some(Json.OptNumber(a.priceAdjustmentPercentage))
    ensures Json.Field(ServiceBody(a), "endDate") == Some(Json.OptString(a.endDate))
    ensures Json.Field(ServiceBody(a), "managedByUserCode") == Some(Json.OptString(a.managedByUserCode))
    ensures Json.Field(ServiceBody(a), "pricingAnswers") == Some(Json.OptStringMap(a.pricingAnswers))
  {
    var data := ServiceBody(a);
    Json.FieldAt(data, 4);
    Json.FieldAt(data, 5);
    Json.FieldAt(data, 6);
    Json.FieldAt(data, 7);
    Json.FieldAt(data, 8);
    Json.FieldAt(data, 9);
  }

  function CreateCall(clientCode: string, a: ServiceArgs): (op: Api.Operation)
    ensures op.CreateClientService? && op.clientCode == clientCode && op.data == ServiceBody(a)
  {
    Api.CreateClientService(clientCode, ServiceBody(a))
  }

  function UpdateCall(clientCode: string, serviceCode: string, a: ServiceArgs): (op: Api.Operation)
    ensures op.UpdateClientService? && op.clientCode == clientCode && op.code == serviceCode
    ensures op.data == ServiceBody(a)
  {
    Api.UpdateClientService(clientCode, serviceCode, ServiceBody(a))
  }

  /** The block create-client-service prints: no End line, no Adjustment, no answers. */
  function CreatedLines(rt: Js.Runtime, svc: ClientBillableService): seq<Line>
  {
    [TitleLine(svc)]
    + When(Js.Truthy(svc.billingFrequency), Line(0, Billing, Js.Show(svc.billingFrequency)))
    + When(svc.calculatedPrice.Some?, Line(0, Price, PriceText(rt, svc)))
    + When(Js.Truthy(svc.startDate), Line(0, Start, Js.Show(svc.startDate)))
    + When(Js.Truthy(svc.status), Line(0, Status, Js.Show(svc.status)))
  }

  method FormatCreated(rt: Js.Runtime, svc: ClientBillableService) returns (text: string)
    ensures text == Block(CreatedLines(rt, svc))
  {
    var lines := [TitleLine(svc)];
    lines := PushWhen(lines, Js.Truthy(svc.billingFrequency), Line(0, Billing, Js.Show(svc.billingFrequency)));
    lines := PushWhen(lines, svc.calculatedPrice.Some?, Line(0, Price, PriceText(rt, svc)));
    lines := PushWhen(lines, Js.Truthy(svc.startDate), Line(0, Start, Js.Show(svc.startDate)));
    lines := PushWhen(lines, Js.Truthy(svc.status), Line(0, Status, Js.Show(svc.status)));
    assert lines == CreatedLines(rt, svc);
    text := Block(lines);
  }

  /** The block update-client-service prints: the create block with End before Status. */
  function UpdatedLines(rt: Js.Runtime, svc: ClientBillableService): seq<Line>
  {
    [TitleLine(svc)]
    + When(Js.Truthy(svc.billingFrequency), Line(0, Billing, Js.Show(svc.billingFrequency)))
    + When(svc.calculatedPrice.Some?, Line(0, Price, PriceText(rt, svc)))
    + When(Js.Truthy(svc.startDate), Line(0, Start, Js.Show(svc.startDate)))
    + When(Js.Truthy(svc.endDate), Line(0, End, Js.Show(svc.endDate)))
    + When(Js.Truthy(svc.status), Line(0, Status, Js.Show(svc.status)))
  }

  method FormatUpdated(rt: Js.Runtime, svc: ClientBillableService) returns (text: string)
    ensures text == Block(UpdatedLines(rt, svc))
  {
    var lines := [TitleLine(svc)];
    lines := PushWhen(lines, Js.Truthy(svc.billingFrequency), Line(0, Billing, Js.Show(svc.billingFrequency)));
    lines := PushWhen(lines, svc.calculatedPrice.Some?, Line(0, Price, PriceText(rt, svc)));
    lines := PushWhen(lines, Js.Truthy(svc.startDate), Line(0, Start, Js.Show(svc.startDate)));
    lines := PushWhen(lines, Js.Truthy(svc.endDate), Line(0, End, Js.Show(svc.endDate)));
    lines := PushWhen(lines, Js.Truthy(svc.status), Line(0, Status, Js.Show(svc.status)));
    assert lines == UpdatedLines(rt, svc);
    text := Block(lines);
  }

  /** The create block shows the listed Billing, Price, Start and Status, unindented, and never End or Adjustment. */
  lemma CreatedShows(rt: Js.Runtime, svc: ClientBillableService, t: Label)
    ensures ShowsAs(CreatedLines(rt, svc), t, if t in {Billing, Price, Start, Status} then ListedField(rt, svc, t) else None)
  {
  }

  /** The update block shows the listed Billing, Price, Start, End and Status, unindented, and never Adjustment. */
  lemma UpdatedShows(rt: Js.Runtime, svc: ClientBillableService, t: Label)
    ensures ShowsAs(UpdatedLines(rt, svc), t, if t in {Billing, Price, Start, End, Status} then ListedField(rt, svc, t) else None)
  {
  }

  /** Dropping the End line from the update block gives the create block. */
  lemma UpdatedExtendsCreated(rt: Js.Runtime, svc: ClientBillableService)
    ensures !Js.Truthy(svc.endDate) ==> UpdatedLines(rt, svc) == CreatedLines(rt, svc)
    ensures |UpdatedLines(rt, svc)| == |CreatedLines(rt, svc)| + (if Js.Truthy(svc.endDate) then 1 else 0)
    ensures UpdatedLines(rt, svc)[0] == CreatedLines(rt, svc)[0] == TitleLine(svc)
  {
  }

  function CreateText(rt: Js.Runtime, clientCode: string, out: Errors.Outcome<ClientBillableService>): (text: string)
    ensures out.Returned? ==>
      text == "Service assigned to client " + clientCode + " successfully!" + "\n" + "\n" + Block(CreatedLines(rt, out.value))
    ensures out.Threw? ==> text == ErrorText(rt, "Error creating client service", out.error)
  {
    match out
    case Returned(svc) =>
      "Service assigned to client " + clientCode + " successfully!" + "\n" + "\n" + Block(CreatedLines(rt, svc))
    case Threw(e) => ErrorText(rt, "Error creating client service", e)
  }

  function UpdateText(rt: Js.Runtime, out: Errors.Outcome<ClientBillableService>): (text: string)
    ensures out.Returned? ==> text == "Client service updated successfully!" + "\n" + "\n" + Block(UpdatedLines(rt, out.value))
    ensures out.Threw? ==> text == ErrorText(rt, "Error updating client service", out.error)
  {
    match out
    case Returned(svc) => "Client service updated successfully!" + "\n" + "\n" + Block(UpdatedLines(rt, svc))
    case Threw(e) => ErrorText(rt, "Error updating client service", e)
  }
}
