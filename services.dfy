/**
 * The list-services tool: the tenant's catalogue of billable services, one
 * summary block per service.
 */
module ServiceTools {
  import opened Wrappers
  import Text
  import Js
  import Errors
  import Api = SodiumClient
  import opened Records
  import opened Report

  // ----- the filter enumerations -----

  datatype ServiceCategory =
    Other | CoreAccounting | Tax | Payroll | CompanySecretarial | Advisory | SoftwareAndTraining

  function CategoryName(c: ServiceCategory): string
  {
    match c
    case Other => "Other"
    case CoreAccounting => "CoreAccounting"
    case Tax => "Tax"
    case Payroll => "Payroll"
    case CompanySecretarial => "CompanySecretarial"
    case Advisory => "Advisory"
    case SoftwareAndTraining => "SoftwareAndTraining"
  }

  /** The enumeration check on `category`: any other string is refused. */
  function ParseCategory(s: string): (c: Option<ServiceCategory>)
    ensures c.Some? <==> s in {"Other", "CoreAccounting", "Tax", "Payroll", "CompanySecretarial", "Advisory",
                                "SoftwareAndTraining"}
  {
    if s == "Other" then Some(Other)
    else if s == "CoreAccounting" then Some(CoreAccounting)
    else if s == "Tax" then Some(Tax)
    else if s == "Payroll" then Some(Payroll)
    else if s == "CompanySecretarial" then Some(CompanySecretarial)
    else if s == "Advisory" then Some(Advisory)
    else if s == "SoftwareAndTraining" then Some(SoftwareAndTraining)
    else None
  }

  lemma CategoryRoundTrip(c: ServiceCategory, s: string)
    ensures ParseCategory(CategoryName(c)) == Some(c)
    ensures ParseCategory(s).Some? ==> CategoryName(ParseCategory(s).value) == s
  {
  }

  datatype ClientType =
    PrivateLimitedCompany | PublicLimitedCompany | LimitedLiabilityPartnership | Partnership | Individual | Trust

  function ClientTypeName(t: ClientType): string
  {
    match t
    case PrivateLimitedCompany => "PrivateLimitedCompany"
    case PublicLimitedCompany => "PublicLimitedCompany"
    case LimitedLiabilityPartnership => "LimitedLiabilityPartnership"
    case Partnership => "Partnership"
    case Individual => "Individual"
    case Trust => "Trust"
  }

  /** The enumeration check on `clientType`: any other string is refused. */
  function ParseClientType(s: string): (t: Option<ClientType>)
    ensures t.Some? <==> s in {"PrivateLimitedCompany", "PublicLimitedCompany", "LimitedLiabilityPartnership",
                                "Partnership", "Individual", "Trust"}
  {
    if s == "PrivateLimitedCompany" then Some(PrivateLimitedCompany)
    else if s == "PublicLimitedCompany" then Some(PublicLimitedCompany)
    else if s == "LimitedLiabilityPartnership" then Some(LimitedLiabilityPartnership)
    else if s == "Partnership" then Some(Partnership)
    else if s == "Individual" then Some(Individual)
    else if s == "Trust" then Some(Trust)
    else None
  }

  lemma ClientTypeRoundTrip(t: ClientType, s: string)
    ensures ParseClientType(ClientTypeName(t)) == Some(t)
    ensures ParseClientType(s).Some? ==> ClientTypeName(ParseClientType(s).value) == s
  {
  }

  /** The sort fields; the constructors are prefixed to keep them apart from the line labels. */
  datatype SortField = ByName | ByCategory | ByAccountingCode

  function SortFieldName(f: SortField): string
  {
    match f
    case ByName => "Name"
    case ByCategory => "Category"
    case ByAccountingCode => "AccountingCode"
  }

  /** The enumeration check on `sortBy`: any other string is refused. */
  function ParseSortField(s: string): (f: Option<SortField>)
    ensures f.Some? <==> s in {"Name", "Category", "AccountingCode"}
  {
    if s == "Name" then Some(ByName)
    else if s == "Category" then Some(ByCategory)
    else if s == "AccountingCode" then Some(ByAccountingCode)
    else None
  }

  lemma SortFieldRoundTrip(f: SortField, s: string)
    ensures ParseSortField(SortFieldName(f)) == Some(f)
    ensures ParseSortField(s).Some? ==> SortFieldName(ParseSortField(s).value) == s
  {
  }

  // ----- shared pieces of the catalogue reports -----

  /** `p.price?.toFixed(2) ?? "?"`: the price, or "?" when it is missing. */
  function OptionPrice(rt: Js.Runtime, p: PricingOption): (r: string)
    ensures p.price.None? ==> r == "?"
    ensures p.price.Some? ==> r == Js.Money(rt, p.price.value)
  {
    if p.price.Some? then Js.Money(rt, p.price.value) else "?"
  }

  /** `clientTypes` when there is at least one. */
  predicate HasClientTypes(svc: BillableService)
  {
    svc.clientTypes.Some? && |svc.clientTypes.value| > 0
  }

  /** The client types joined by ", "; only read when there are some. */
  function ClientTypesText(svc: BillableService): string
  {
    if svc.clientTypes.Some? then Text.Join(svc.clientTypes.value, ", ") else ""
  }

  predicate HasPricing(svc: BillableService)
  {
    svc.pricing.Some? && |svc.pricing.value| > 0
  }

  predicate HasFactors(svc: BillableService)
  {
    svc.pricingFactors.Some? && |svc.pricingFactors.value| > 0
  }

  // ----- list-services: formatService -----

  /** `£<price or ?> (<frequency>)`, one item of the Pricing summary. */
  function PriceItem(rt: Js.Runtime, p: PricingOption): (r: string)
    ensures Text.StartsWith(r, "£" + OptionPrice(rt, p) + " (")
    ensures Text.EndsWith(r, Js.Show(p.frequency) + ")")
    ensures |r| == 1 + |OptionPrice(rt, p)| + 2 + |Js.Show(p.frequency)| + 1
  {
    "£" + OptionPrice(rt, p) + " (" + Js.Show(p.frequency) + ")"
  }

  /** One item per pricing option, in order. */
  function PriceItems(rt: Js.Runtime, ps: seq<PricingOption>): (r: seq<string>)
    ensures |r| == |ps|
    ensures forall i :: 0 <= i < |ps| ==> r[i] == PriceItem(rt, ps[i])
  {
    seq(|ps|, i requires 0 <= i < |ps| => PriceItem(rt, ps[i]))
  }

  /** The Pricing summary; only read when there are pricing options. */
  function PriceSummary(rt: Js.Runtime, svc: BillableService): string
  {
    if svc.pricing.Some? then Text.Join(PriceItems(rt, svc.pricing.value), ", ") else ""
  }

  /** `<n> question(s)`; only read when there are factors. */
  function FactorCount(svc: BillableService): string
  {
    Text.NatToString(if svc.pricingFactors.Some? then |svc.pricingFactors.value| else 0) + " question(s)"
  }

  /** Code, Name, Category and Client Types. */
  function SummaryHeadLines(svc: BillableService): seq<Line>
  {
    [Line(0, Code, Js.Show(svc.code))]
    + When(Js.Truthy(svc.name), Line(0, Name, Js.Show(svc.name)))
    + When(Js.Truthy(svc.category), Line(0, Category, Js.Show(svc.category)))
    + When(HasClientTypes(svc), Line(0, ClientTypes, ClientTypesText(svc)))
  }

  /** Description, `Archived: Yes`, Pricing and Pricing Factors. */
  function SummaryTailLines(rt: Js.Runtime, svc: BillableService): seq<Line>
  {
    When(Js.Truthy(svc.description), Line(0, Description, Js.Show(svc.description)))
    + When(Js.IsTrue(svc.isArchived), Line(0, Archived, "Yes"))
    + When(HasPricing(svc), Line(0, Pricing, PriceSummary(rt, svc)))
    + When(HasFactors(svc), Line(0, PricingFactors, FactorCount(svc)))
  }

  /** The lines of a service block in the list, in push order. */
  function SummaryLines(rt: Js.Runtime, svc: BillableService): seq<Line>
  {
    SummaryHeadLines(svc) + SummaryTailLines(rt, svc)
  }

  method FormatSummary(rt: Js.Runtime, svc: BillableService) returns (text: string)
    ensures text == Block(SummaryLines(rt, svc))
  {
    var lines := [Line(0, Code, Js.Show(svc.code))];
    lines := PushWhen(lines, Js.Truthy(svc.name), Line(0, Name, Js.Show(svc.name)));
    lines := PushWhen(lines, Js.Truthy(svc.category), Line(0, Category, Js.Show(svc.category)));
    lines := PushWhen(lines, HasClientTypes(svc), Line(0, ClientTypes, ClientTypesText(svc)));
    ghost var head := lines;
    assert head == SummaryHeadLines(svc);
    var w1 := When(Js.Truthy(svc.description), Line(0, Description, Js.Show(svc.description)));
    var w2 := When(Js.IsTrue(svc.isArchived), Line(0, Archived, "Yes"));
    var w3 := When(HasPricing(svc), Line(0, Pricing, PriceSummary(rt, svc)));
    var w4 := When(HasFactors(svc), Line(0, PricingFactors, FactorCount(svc)));
    lines := PushWhen(lines, Js.Truthy(svc.description), Line(0, Description, Js.Show(svc.description)));
    lines := PushWhen(lines, Js.IsTrue(svc.isArchived), Line(0, Archived, "Yes"));
    PushAfter(head, w1, w2);
    lines := PushWhen(lines, HasPricing(svc), Line(0, Pricing, PriceSummary(rt, svc)));
    PushAfter(head, w1 + w2, w3);
    lines := PushWhen(lines, HasFactors(svc), Line(0, PricingFactors, FactorCount(svc)));
    PushAfter(head, w1 + w2 + w3, w4);
    text := Block(lines);
  }

  /** What a service block in the list shows under each label. */
  function SummaryField(rt: Js.Runtime, svc: BillableService, t: Label): Option<string>
  {
    match t
    case Code => Some(Js.Show(svc.code))
    case Name => Shown(svc.name)
    case Category => Shown(svc.category)
    case ClientTypes => if HasClientTypes(svc) then Some(Text.Join(svc.clientTypes.value, ", ")) else None
    case Description => Shown(svc.description)
    case Archived => if Js.IsTrue(svc.isArchived) then Some("Yes") else None
    case Pricing => if HasPricing(svc) then Some(Text.Join(PriceItems(rt, svc.pricing.value), ", ")) else None
    case PricingFactors =>
      if HasFactors(svc) then Some(Text.NatToString(|svc.pricingFactors.value|) + " question(s)") else None
    case _ => None
  }

  lemma SummaryHeadShows(rt: Js.Runtime, svc: BillableService, t: Label)
    ensures ShowsAs(SummaryHeadLines(svc), t,
      if t in {Code, Name, Category, ClientTypes} then SummaryField(rt, svc, t) else None)
  {
  }

  lemma SummaryTailShows(rt: Js.Runtime, svc: BillableService, t: Label)
    ensures ShowsAs(SummaryTailLines(rt, svc), t,
      if t in {Description, Archived, Pricing, PricingFactors} then SummaryField(rt, svc, t) else None)
  {
    var archived := When(Js.IsTrue(svc.isArchived), Line(0, Archived, "Yes"));
    var pricing := When(HasPricing(svc), Line(0, Pricing, PriceSummary(rt, svc)));
    var factors := When(HasFactors(svc), Line(0, PricingFactors, FactorCount(svc)));
    assert ShowsAs(archived + pricing + factors, t,
      if t in {Archived, Pricing, PricingFactors} then SummaryField(rt, svc, t) else None);
  }

  /** Each label of a listed service block shows exactly the value its field calls for. */
  lemma SummaryShows(rt: Js.Runtime, svc: BillableService, t: Label)
    ensures ShowsAs(SummaryLines(rt, svc), t, SummaryField(rt, svc, t))
  {
    SummaryHeadShows(rt, svc, t);
    SummaryTailShows(rt, svc, t);
    ShowsJoin(SummaryHeadLines(svc), SummaryTailLines(rt, svc), t,
      if t in {Code, Name, Category, ClientTypes} then SummaryField(rt, svc, t) else None,
      if t in {Description, Archived, Pricing, PricingFactors} then SummaryField(rt, svc, t) else None);
  }

  /** The block starts with the Code line and has at most eight lines. */
  lemma SummaryHead(rt: Js.Runtime, svc: BillableService)
    ensures 1 <= |SummaryLines(rt, svc)| <= 8
    ensures SummaryLines(rt, svc)[0] == Line(0, Code, Js.Show(svc.code))
  {
    assert |SummaryHeadLines(svc)| <= 4 && |SummaryTailLines(rt, svc)| <= 4;
  }

  /** An archived flag that is not `true` prints nothing; there is never an `Archived: No` line. */
  lemma NeverArchivedNo(rt: Js.Runtime, svc: BillableService)
    ensures Line(0, Archived, "No") !in SummaryLines(rt, svc)
  {
    SummaryShows(rt, svc, Archived);
  }

  // ----- the list-services handler -----

  datatype ListArgs = ListArgs(
    search: Option<string>,
    category: Option<ServiceCategory>,
    clientType: Option<ClientType>,
    isArchived: Option<bool>,
    sortBy: Option<SortField>,
    sortDesc: Option<bool>,
    offset: Option<real>,
    limit: Option<real>)

  function OptName<T>(o: Option<T>, name: T -> string): (r: Option<string>)
    ensures o.None? <==> r.None?
    ensures o.Some? ==> r == Some(name(o.value))
  {
    if o.Some? then Some(name(o.value)) else None
  }

  /** The eight filters are forwarded in the handler's order. */
  function ListCall(a: ListArgs): (op: Api.Operation)
    ensures op.ListServices? && op.query.Some?
    ensures op.query.value == [
      ("search", Api.QString(a.search)),
      ("category", Api.QString(OptName(a.category, CategoryName))),
      ("clientType", Api.QString(OptName(a.clientType, ClientTypeName))),
      ("isArchived", Api.QBool(a.isArchived)),
      ("sortBy", Api.QString(OptName(a.sortBy, SortFieldName))),
      ("sortDesc", Api.QBool(a.sortDesc)),
      ("offset", Api.QNumber(a.offset)),
      ("limit", Api.QNumber(a.limit))]
  {
    Api.ListServices(Some([
      ("search", Api.QString(a.search)),
      ("category", Api.QString(OptName(a.category, CategoryName))),
      ("clientType", Api.QString(OptName(a.clientType, ClientTypeName))),
      ("isArchived", Api.QBool(a.isArchived)),
      ("sortBy", Api.QString(OptName(a.sortBy, SortFieldName))),
      ("sortDesc", Api.QBool(a.sortDesc)),
      ("offset", Api.QNumber(a.offset)),
      ("limit", Api.QNumber(a.limit))]))
  }

  function ListText(rt: Js.Runtime, out: Errors.Outcome<Option<seq<BillableService>>>): (text: string)
    ensures out.Threw? ==> text == ErrorText(rt, "Error listing services", out.error)
    ensures out.Returned? && (out.value.None? || |out.value.value| == 0) ==> text == "No services found."
    ensures out.Returned? && out.value.Some? && |out.value.value| > 0 ==>
      var ss := out.value.value;
      text == FoundHeader(|ss|, "service", "") + "\n\n"
              + Text.Join(seq(|ss|, i requires 0 <= i < |ss| => Block(SummaryLines(rt, ss[i]))), Separator)
  {
    match out
    case Threw(e) => ErrorText(rt, "Error listing services", e)
    case Returned(None) => "No services found."
    case Returned(Some(ss)) =>
      Listing("No services found.", FoundHeader(|ss|, "service", ""),
              seq(|ss|, i requires 0 <= i < |ss| => Block(SummaryLines(rt, ss[i]))), Separator)
  }
}
