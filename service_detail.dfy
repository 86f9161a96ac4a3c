/**
 * The get-service tool: the full report of one billable service, with its
 * pricing options, their revenue-range overrides, and its pricing-factor
 * questions with their options.
 */
module ServiceDetailTools {
  import opened Wrappers
  import Js
  import Errors
  import Api = SodiumClient
  import opened Records
  import opened Report
  import opened ServiceTools

  // ----- the pricing section -----

  /** `£<overridePrice.toFixed(2)>`, or `no override` when the override has no price. */
  function RangePrice(rt: Js.Runtime, o: RevenueRangeOverride): (r: string)
    ensures o.overridePrice.None? ==> r == "no override"
    ensures o.overridePrice.Some? ==> r == "£" + Js.Money(rt, o.overridePrice.value)
  {
    if o.overridePrice.Some? then "£" + Js.Money(rt, o.overridePrice.value) else "no override"
  }

  /** `    Revenue range <code>: <price>`, then `      Note: <description>` when there is one. */
  function RangeLines(rt: Js.Runtime, o: RevenueRangeOverride): seq<Line>
  {
    [Raw("    Revenue range " + Js.Show(o.revenueRangeCode) + ": " + RangePrice(rt, o))]
    + When(Js.Truthy(o.overrideDescription), Line(6, Note, Js.Show(o.overrideDescription)))
  }

  /** The lines of the overrides, in order. */
  function OverridesLines(rt: Js.Runtime, os: seq<RevenueRangeOverride>): seq<Line>
    decreases |os|
  {
    if |os| == 0 then [] else OverridesLines(rt, os[..|os| - 1]) + RangeLines(rt, os[|os| - 1])
  }

  /** `  <frequency>: £<price or ?>`, then the overrides of that option. */
  function OptionLines(rt: Js.Runtime, p: PricingOption): seq<Line>
  {
    [Raw("  " + Js.Show(p.frequency) + ": £" + OptionPrice(rt, p))]
    + OverridesLines(rt, p.revenueRangeOverrides.GetOr([]))
  }

  /** The lines of the pricing options, in order. */
  function PricingLines(rt: Js.Runtime, ps: seq<PricingOption>): seq<Line>
    decreases |ps|
  {
    if |ps| == 0 then [] else PricingLines(rt, ps[..|ps| - 1]) + OptionLines(rt, ps[|ps| - 1])
  }

  /** The overrides that carry a description, each of which adds a Note line. */
  function NoteCount(os: seq<RevenueRangeOverride>): (n: nat)
    ensures n <= |os|
    decreases |os|
  {
    if |os| == 0 then 0
    else NoteCount(os[..|os| - 1]) + (if Js.Truthy(os[|os| - 1].overrideDescription) then 1 else 0)
  }

  /** One range line per override, plus one Note line per described override. */
  lemma {:induction false} OverridesCount(rt: Js.Runtime, os: seq<RevenueRangeOverride>)
    ensures |OverridesLines(rt, os)| == |os| + NoteCount(os)
    decreases |os|
  {
    if |os| > 0 {
      OverridesCount(rt, os[..|os| - 1]);
    }
  }

  // ----- the pricing-factor section -----

  /** `+` exactly when the value, a missing one counting as 0, is not negative. */
  function Sign(value: Option<real>): (s: string)
    ensures s == "+" <==> value.GetOr(0.0) >= 0.0
    ensures s == "" <==> value.GetOr(0.0) < 0.0
  {
    if value.GetOr(0.0) >= 0.0 then "+" else ""
  }

  /** `    - <name>: <sign><(value ?? 0) * 100, no decimals>%`. */
  function ChoiceLine(rt: Js.Runtime, o: PricingFactorOption): (l: Line)
    ensures l.Raw?
    ensures l.text == "    - " + Js.Show(o.name) + ": " + Sign(o.value) + rt.toFixed(o.value.GetOr(0.0) * 100.0, 0) + "%"
  {
    Raw("    - " + Js.Show(o.name) + ": " + Sign(o.value) + rt.toFixed(o.value.GetOr(0.0) * 100.0, 0) + "%")
  }

  function ChoiceLines(rt: Js.Runtime, os: seq<PricingFactorOption>): (r: seq<Line>)
    ensures |r| == |os|
    ensures forall i :: 0 <= i < |os| ==> r[i] == ChoiceLine(rt, os[i])
  {
    seq(|os|, i requires 0 <= i < |os| => ChoiceLine(rt, os[i]))
  }

  /** `  Q: <description>`, then one line per option. */
  function FactorLines(rt: Js.Runtime, f: PricingFactor): seq<Line>
  {
    [Line(2, Question, Js.Show(f.description))] + ChoiceLines(rt, f.options.GetOr([]))
  }

  /** The lines of the pricing factors, in order. */
  function FactorsLines(rt: Js.Runtime, fs: seq<PricingFactor>): seq<Line>
    decreases |fs|
  {
    if |fs| == 0 then [] else FactorsLines(rt, fs[..|fs| - 1]) + FactorLines(rt, fs[|fs| - 1])
  }

  // ----- get-service: formatService -----

  const PricingHeader := "Pricing:"
  const FactorsHeader := "Pricing Factor Questions:"

  /** Description, Accounting Code and the Archived line, which is always printed. */
  function DetailMidLines(svc: BillableService): seq<Line>
  {
    When(Js.Truthy(svc.description), Line(0, Description, Js.Show(svc.description)))
    + When(Js.Truthy(svc.accountingCode), Line(0, AccountingCode, Js.Show(svc.accountingCode)))
    + [Line(0, Archived, Js.YesNo(svc.isArchived))]
  }

  /** A blank line, `Pricing:` and the options, only when there are options. */
  function PricingSection(rt: Js.Runtime, svc: BillableService): seq<Line>
  {
    if HasPricing(svc) then [Raw(""), Raw(PricingHeader)] + PricingLines(rt, svc.pricing.value) else []
  }

  /** A blank line, `Pricing Factor Questions:` and the factors, only when there are factors. */
  function FactorSection(rt: Js.Runtime, svc: BillableService): seq<Line>
  {
    if HasFactors(svc) then [Raw(""), Raw(FactorsHeader)] + FactorsLines(rt, svc.pricingFactors.value) else []
  }

  /** A blank line and Created when there is a creation date, then Updated. */
  function DateLines(svc: BillableService): seq<Line>
  {
    (if Js.Truthy(svc.createdDate) then [Raw(""), Line(0, Created, Js.Show(svc.createdDate))] else [])
    + When(Js.Truthy(svc.updatedDate), Line(0, Updated, Js.Show(svc.updatedDate)))
  }

  /** The lines of the service report, in push order; the first four are the list block's. */
  function DetailLines(rt: Js.Runtime, svc: BillableService): seq<Line>
  {
    SummaryHeadLines(svc) + DetailMidLines(svc) + PricingSection(rt, svc) + FactorSection(rt, svc)
    + DateLines(svc)
  }

  /** The inner loop over an option's revenue-range overrides. */
  method PushOverrides(rt: Js.Runtime, os: seq<RevenueRangeOverride>, before: seq<Line>) returns (lines: seq<Line>)
    ensures lines == before + OverridesLines(rt, os)
  {
    lines := before;
    var i := 0;
    while i < |os|
      invariant 0 <= i <= |os|
      invariant lines == before + OverridesLines(rt, os[..i])
    {
      var o := os[i];
      assert os[..i + 1][..i] == os[..i];
      ghost var done := OverridesLines(rt, os[..i]);
      var range := [Raw("    Revenue range " + Js.Show(o.revenueRangeCode) + ": " + RangePrice(rt, o))];
      lines := lines + range;
      lines := PushWhen(lines, Js.Truthy(o.overrideDescription), Line(6, Note, Js.Show(o.overrideDescription)));
      PushAfter(before, done, range);
      PushAfter(before, done + range, When(Js.Truthy(o.overrideDescription), Line(6, Note, Js.Show(o.overrideDescription))));
      PushAfter(done, range, When(Js.Truthy(o.overrideDescription), Line(6, Note, Js.Show(o.overrideDescription))));
      i := i + 1;
    }
    assert os[..i] == os;
  }

  /** One iteration of the pricing loop. */
  method PushOption(rt: Js.Runtime, p: PricingOption, before: seq<Line>) returns (lines: seq<Line>)
    ensures lines == before + OptionLines(rt, p)
  {
    var head := [Raw("  " + Js.Show(p.frequency) + ": £" + OptionPrice(rt, p))];
    lines := before + head;
    if p.revenueRangeOverrides.Some? && |p.revenueRangeOverrides.value| > 0 {
      lines := PushOverrides(rt, p.revenueRangeOverrides.value, lines);
      PushAfter(before, head, OverridesLines(rt, p.revenueRangeOverrides.value));
    } else {
      assert OverridesLines(rt, p.revenueRangeOverrides.GetOr([])) == [];
      assert lines == before + head + [];
    }
  }

  /** The loop over the pricing options. */
  method PushPricing(rt: Js.Runtime, ps: seq<PricingOption>, before: seq<Line>) returns (lines: seq<Line>)
    ensures lines == before + PricingLines(rt, ps)
  {
    lines := before;
    var i := 0;
    while i < |ps|
      invariant 0 <= i <= |ps|
      invariant lines == before + PricingLines(rt, ps[..i])
    {
      assert ps[..i + 1][..i] == ps[..i];
      ghost var done := PricingLines(rt, ps[..i]);
      lines := PushOption(rt, ps[i], lines);
      PushAfter(before, done, OptionLines(rt, ps[i]));
      i := i + 1;
    }
    assert ps[..i] == ps;
  }

  /** The inner loop over a factor's options. */
  method PushChoices(rt: Js.Runtime, os: seq<PricingFactorOption>, before: seq<Line>) returns (lines: seq<Line>)
    ensures lines == before + ChoiceLines(rt, os)
  {
    lines := before;
    var i := 0;
    while i < |os|
      invariant 0 <= i <= |os|
      invariant lines == before + ChoiceLines(rt, os[..i])
    {
      assert ChoiceLines(rt, os[..i + 1]) == ChoiceLines(rt, os[..i]) + [ChoiceLine(rt, os[i])];
      lines := lines + [ChoiceLine(rt, os[i])];
      i := i + 1;
    }
    assert os[..i] == os;
  }

  /** One iteration of the pricing-factor loop. */
  method PushFactor(rt: Js.Runtime, f: PricingFactor, before: seq<Line>) returns (lines: seq<Line>)
    ensures lines == before + FactorLines(rt, f)
  {
    var head := [Line(2, Question, Js.Show(f.description))];
    lines := before + head;
    if f.options.Some? && |f.options.value| > 0 {
      lines := PushChoices(rt, f.options.value, lines);
      PushAfter(before, head, ChoiceLines(rt, f.options.value));
    } else {
      assert ChoiceLines(rt, f.options.GetOr([])) == [];
      assert lines == before + head + [];
    }
  }

  /** The loop over the pricing factors. */
  method PushFactors(rt: Js.Runtime, fs: seq<PricingFactor>, before: seq<Line>) returns (lines: seq<Line>)
    ensures lines == before + FactorsLines(rt, fs)
  {
    lines := before;
    var i := 0;
    while i < |fs|
      invariant 0 <= i <= |fs|
      invariant lines == before + FactorsLines(rt, fs[..i])
    {
      assert fs[..i + 1][..i] == fs[..i];
      ghost var done := FactorsLines(rt, fs[..i]);
      lines := PushFactor(rt, fs[i], lines);
      PushAfter(before, done, FactorLines(rt, fs[i]));
      i := i + 1;
    }
    assert fs[..i] == fs;
  }

  /** The pushes from Code to Archived. */
  method PushFields(svc: BillableService) returns (lines: seq<Line>)
    ensures lines == SummaryHeadLines(svc) + DetailMidLines(svc)
  {
    lines := [Line(0, Code, Js.Show(svc.code))];
    lines := PushWhen(lines, Js.Truthy(svc.name), Line(0, Name, Js.Show(svc.name)));
    lines := PushWhen(lines, Js.Truthy(svc.category), Line(0, Category, Js.Show(svc.category)));
    lines := PushWhen(lines, HasClientTypes(svc), Line(0, ClientTypes, ClientTypesText(svc)));
    ghost var head := lines;
    assert head == SummaryHeadLines(svc);
    var w1 := When(Js.Truthy(svc.description), Line(0, Description, Js.Show(svc.description)));
    var w2 := When(Js.Truthy(svc.accountingCode), Line(0, AccountingCode, Js.Show(svc.accountingCode)));
    var w3 := [Line(0, Archived, Js.YesNo(svc.isArchived))];
    lines := PushWhen(lines, Js.Truthy(svc.description), Line(0, Description, Js.Show(svc.description)));
    lines := PushWhen(lines, Js.Truthy(svc.accountingCode), Line(0, AccountingCode, Js.Show(svc.accountingCode)));
    PushAfter(head, w1, w2);
    lines := lines + w3;
    PushAfter(head, w1 + w2, w3);
  }

  method FormatDetail(rt: Js.Runtime, svc: BillableService) returns (text: string)
    ensures text == Block(DetailLines(rt, svc))
  {
    var lines := PushFields(svc);
    ghost var fields := lines;
    if svc.pricing.Some? && |svc.pricing.value| > 0 {
      lines := lines + [Raw(""), Raw(PricingHeader)];
      lines := PushPricing(rt, svc.pricing.value, lines);
      PushAfter(fields, [Raw(""), Raw(PricingHeader)], PricingLines(rt, svc.pricing.value));
    } else {
      assert lines == fields + [];
    }
    ghost var priced := lines;
    assert priced == fields + PricingSection(rt, svc);
    if svc.pricingFactors.Some? && |svc.pricingFactors.value| > 0 {
      lines := lines + [Raw(""), Raw(FactorsHeader)];
      lines := PushFactors(rt, svc.pricingFactors.value, lines);
      PushAfter(priced, [Raw(""), Raw(FactorsHeader)], FactorsLines(rt, svc.pricingFactors.value));
    } else {
      assert lines == priced + [];
    }
    ghost var factored := lines;
    assert factored == fields + PricingSection(rt, svc) + FactorSection(rt, svc);
    ghost var created := if Js.Truthy(svc.createdDate) then [Raw(""), Line(0, Created, Js.Show(svc.createdDate))] else [];
    if Js.Truthy(svc.createdDate) {
      lines := lines + [Raw(""), Line(0, Created, Js.Show(svc.createdDate))];
    } else {
      assert lines == factored + [];
    }
    assert lines == factored + created;
    lines := PushWhen(lines, Js.Truthy(svc.updatedDate), Line(0, Updated, Js.Show(svc.updatedDate)));
    PushAfter(factored, created, When(Js.Truthy(svc.updatedDate), Line(0, Updated, Js.Show(svc.updatedDate))));
    assert lines == factored + DateLines(svc);
    text := Block(lines);
  }

  // ----- what the report shows -----

  /**
   * A line inside a section: a labelled line indented by at least two
   * spaces, or a printed line that starts with a space.
   */
  predicate Inner(l: Line)
  {
    (l.Line? && l.indent > 0) || (l.Raw? && |l.text| > 0 && l.text[0] == ' ')
  }

  lemma {:induction false} OverridesInner(rt: Js.Runtime, os: seq<RevenueRangeOverride>)
    ensures forall l :: l in OverridesLines(rt, os) ==> Inner(l)
    decreases |os|
  {
    if |os| > 0 {
      OverridesInner(rt, os[..|os| - 1]);
    }
  }

  lemma {:induction false} PricingInner(rt: Js.Runtime, ps: seq<PricingOption>)
    ensures forall l :: l in PricingLines(rt, ps) ==> Inner(l)
    decreases |ps|
  {
    if |ps| > 0 {
      PricingInner(rt, ps[..|ps| - 1]);
      OverridesInner(rt, ps[|ps| - 1].revenueRangeOverrides.GetOr([]));
    }
  }

  lemma {:induction false} FactorsInner(rt: Js.Runtime, fs: seq<PricingFactor>)
    ensures forall l :: l in FactorsLines(rt, fs) ==> Inner(l)
    decreases |fs|
  {
    if |fs| > 0 {
      FactorsInner(rt, fs[..|fs| - 1]);
    }
  }

  /** What the top-level lines of the service report show under each label. */
  function DetailField(svc: BillableService, t: Label): Option<string>
  {
    match t
    case Code => Some(Js.Show(svc.code))
    case Name => Shown(svc.name)
    case Category => Shown(svc.category)
    case ClientTypes => if HasClientTypes(svc) then Some(ClientTypesText(svc)) else None
    case Description => Shown(svc.description)
    case AccountingCode => Shown(svc.accountingCode)
    case Archived => Some(Js.YesNo(svc.isArchived))
    case Created => Shown(svc.createdDate)
    case Updated => Shown(svc.updatedDate)
    case _ => None
  }

  /** The two sections hold no top-level labelled line. */
  lemma SectionsShowNothing(rt: Js.Runtime, svc: BillableService, t: Label)
    ensures ShowsAs(PricingSection(rt, svc), t, None)
    ensures ShowsAs(FactorSection(rt, svc), t, None)
  {
    if HasPricing(svc) {
      PricingInner(rt, svc.pricing.value);
    }
    if HasFactors(svc) {
      FactorsInner(rt, svc.pricingFactors.value);
    }
  }

  lemma FieldsShow(rt: Js.Runtime, svc: BillableService, t: Label)
    ensures ShowsAs(SummaryHeadLines(svc) + DetailMidLines(svc), t,
      if t in {Created, Updated} then None else DetailField(svc, t))
  {
    SummaryHeadShows(rt, svc, t);
    var x := if t in {Code, Name, Category, ClientTypes} then SummaryField(rt, svc, t) else None;
    var y := if t in {Description, AccountingCode, Archived} then DetailField(svc, t) else None;
    assert ShowsAs(DetailMidLines(svc), t, y);
    ShowsJoin(SummaryHeadLines(svc), DetailMidLines(svc), t, x, y);
  }

  /**
   * Each top-level label of the service report shows exactly the value its
   * field calls for; Archived is always there, as Yes or No.
   */
  lemma DetailShows(rt: Js.Runtime, svc: BillableService, t: Label)
    ensures ShowsAs(DetailLines(rt, svc), t, DetailField(svc, t))
  {
    var fields := SummaryHeadLines(svc) + DetailMidLines(svc);
    FieldsShow(rt, svc, t);
    SectionsShowNothing(rt, svc, t);
    var x := if t in {Created, Updated} then None else DetailField(svc, t);
    ShowsJoin(fields, PricingSection(rt, svc), t, x, None);
    ShowsJoin(fields + PricingSection(rt, svc), FactorSection(rt, svc), t, x, None);
    var z := if t in {Created, Updated} then DetailField(svc, t) else None;
    assert ShowsAs(DateLines(svc), t, z);
    ShowsJoin(fields + PricingSection(rt, svc) + FactorSection(rt, svc), DateLines(svc), t, x, z);
  }

  /** The top-level lines are labelled lines, or the blank line before Created. */
  lemma OuterLines(svc: BillableService)
    ensures forall l :: l in SummaryHeadLines(svc) + DetailMidLines(svc) ==> l.Line?
    ensures forall l :: l in DateLines(svc) ==> l.Line? || l == Raw("")
  {
  }

  /** `Pricing:` is printed exactly when the service has pricing options. */
  lemma PricingHeaderPresent(rt: Js.Runtime, svc: BillableService)
    ensures Raw(PricingHeader) in DetailLines(rt, svc) <==> HasPricing(svc)
  {
    var fields := SummaryHeadLines(svc) + DetailMidLines(svc);
    OuterLines(svc);
    if HasPricing(svc) {
      PricingInner(rt, svc.pricing.value);
      assert Raw(PricingHeader) in PricingSection(rt, svc);
    } else {
      assert PricingSection(rt, svc) == [];
    }
    if HasFactors(svc) {
      FactorsInner(rt, svc.pricingFactors.value);
    }
    assert PricingHeader[0] != ' ' && PricingHeader != FactorsHeader;
    assert Raw(PricingHeader) !in FactorSection(rt, svc);
    assert Raw(PricingHeader) !in fields && Raw(PricingHeader) !in DateLines(svc);
  }

  /** `Pricing Factor Questions:` is printed exactly when the service has pricing factors. */
  lemma FactorsHeaderPresent(rt: Js.Runtime, svc: BillableService)
    ensures Raw(FactorsHeader) in DetailLines(rt, svc) <==> HasFactors(svc)
  {
    var fields := SummaryHeadLines(svc) + DetailMidLines(svc);
    OuterLines(svc);
    if HasPricing(svc) {
      PricingInner(rt, svc.pricing.value);
    }
    if HasFactors(svc) {
      FactorsInner(rt, svc.pricingFactors.value);
      assert Raw(FactorsHeader) in FactorSection(rt, svc);
    } else {
      assert FactorSection(rt, svc) == [];
    }
    assert FactorsHeader[0] != ' ' && PricingHeader != FactorsHeader;
    assert Raw(FactorsHeader) !in PricingSection(rt, svc);
    assert Raw(FactorsHeader) !in fields && Raw(FactorsHeader) !in DateLines(svc);
  }

  /** The report opens with the Code line. */
  lemma DetailHead(rt: Js.Runtime, svc: BillableService)
    ensures DetailLines(rt, svc)[0] == Line(0, Code, Js.Show(svc.code))
  {
  }

  // ----- the get-service handler -----

  function GetCall(code: string): (op: Api.Operation)
    ensures op.GetService? && op.code == code
  {
    Api.GetService(code)
  }

  function GetText(rt: Js.Runtime, out: Errors.Outcome<BillableService>): (text: string)
    ensures out.Returned? ==> text == "Service Details:\n\n" + Block(DetailLines(rt, out.value))
    ensures out.Threw? ==> text == ErrorText(rt, "Error getting service", out.error)
  {
    match out
    case Returned(svc) => "Service Details:\n\n" + Block(DetailLines(rt, svc))
    case Threw(e) => ErrorText(rt, "Error getting service", e)
  }
}
