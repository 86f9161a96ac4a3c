/**
 * The list-service-packages and get-service-package tools: bundles of
 * billable services, listed as short blocks or reported in full with each
 * included service's billing, price and pre-answered pricing factors.
 */
module PackageTools {
  import opened Wrappers
  import Text
  import Js
  import Errors
  import Api = SodiumClient
  import opened Records
  import opened Report

  // ----- shared by both reports -----

  /** `billableServiceName ?? billableServiceCode ?? "?"`. */
  function ItemName(item: ServicePackageItem): (r: string)
    ensures item.billableServiceName.Some? ==> r == item.billableServiceName.value
    ensures item.billableServiceName.None? && item.billableServiceCode.Some? ==> r == item.billableServiceCode.value
    ensures item.billableServiceName.None? && item.billableServiceCode.None? ==> r == "?"
  {
    Js.Coalesce(item.billableServiceName, Js.Coalesce(item.billableServiceCode, "?"))
  }

  /** An item's own price is used only when it overrides the pricing and has a price. */
  predicate Overrides(item: ServicePackageItem)
  {
    Js.IsTrue(item.overridePricing) && item.price.Some?
  }

  predicate HasItems(p: ServicePackage)
  {
    p.items.Some? && |p.items.value| > 0
  }

  const IncludedHeader := "Included Services:"

  // ----- list-service-packages: formatPackage -----

  /** `£<price.toFixed(2)>` for an override, `standard pricing` otherwise. */
  function ItemPrice(rt: Js.Runtime, item: ServicePackageItem): (r: string)
    ensures Overrides(item) ==> r == "£" + Js.Money(rt, item.price.value)
    ensures !Overrides(item) ==> r == "standard pricing"
  {
    if Overrides(item) then "£" + Js.Money(rt, item.price.value) else "standard pricing"
  }

  /** `  - <name> (<billingFrequency>, <price>)`. */
  function ItemLine(rt: Js.Runtime, item: ServicePackageItem): (l: Line)
    ensures l.Raw?
    ensures l.text == "  - " + ItemName(item) + " (" + Js.Show(item.billingFrequency) + ", " + ItemPrice(rt, item) + ")"
  {
    Raw("  - " + ItemName(item) + " (" + Js.Show(item.billingFrequency) + ", " + ItemPrice(rt, item) + ")")
  }

  function ItemLines(rt: Js.Runtime, items: seq<ServicePackageItem>): (r: seq<Line>)
    ensures |r| == |items|
    ensures forall k :: 0 <= k < |items| ==> r[k] == ItemLine(rt, items[k])
  {
    seq(|items|, k requires 0 <= k < |items| => ItemLine(rt, items[k]))
  }

  /** Code, Name and Description. */
  function PackageHeadLines(p: ServicePackage): seq<Line>
  {
    [Line(0, Code, Js.Show(p.code))]
    + When(Js.Truthy(p.name), Line(0, Name, Js.Show(p.name)))
    + When(Js.Truthy(p.description), Line(0, Description, Js.Show(p.description)))
  }

  /** `Archived: Yes` only for an archived package, then the annual value and the service count when defined. */
  function SummaryFigureLines(rt: Js.Runtime, p: ServicePackage): seq<Line>
  {
    When(Js.IsTrue(p.isArchived), Line(0, Archived, "Yes"))
    + When(p.totalAnnualValue.Some?, Line(0, AnnualValue, "£" + Js.Money(rt, p.totalAnnualValue.GetOr(0.0))))
    + When(p.numberOfServices.Some?, Line(0, Services, Js.NumberToString(rt, p.numberOfServices.GetOr(0.0))))
  }

  /** `Included Services:` and one line per item, only for a non-empty item list. */
  function SummaryItemsSection(rt: Js.Runtime, p: ServicePackage): seq<Line>
  {
    if HasItems(p) then [Raw(IncludedHeader)] + ItemLines(rt, p.items.value) else []
  }

  /** The lines of a listed package, in push order. */
  function SummaryLines(rt: Js.Runtime, p: ServicePackage): seq<Line>
  {
    PackageHeadLines(p) + SummaryFigureLines(rt, p) + SummaryItemsSection(rt, p)
  }

  method PushHead(p: ServicePackage) returns (lines: seq<Line>)
    ensures lines == PackageHeadLines(p)
  {
    lines := [Line(0, Code, Js.Show(p.code))];
    lines := PushWhen(lines, Js.Truthy(p.name), Line(0, Name, Js.Show(p.name)));
    lines := PushWhen(lines, Js.Truthy(p.description), Line(0, Description, Js.Show(p.description)));
  }

  method PushSummaryFigures(rt: Js.Runtime, p: ServicePackage, before: seq<Line>) returns (lines: seq<Line>)
    ensures lines == before + SummaryFigureLines(rt, p)
  {
    var w1 := When(Js.IsTrue(p.isArchived), Line(0, Archived, "Yes"));
    var w2 := When(p.totalAnnualValue.Some?, Line(0, AnnualValue, "£" + Js.Money(rt, p.totalAnnualValue.GetOr(0.0))));
    var w3 := When(p.numberOfServices.Some?, Line(0, Services, Js.NumberToString(rt, p.numberOfServices.GetOr(0.0))));
    lines := PushWhen(before, Js.IsTrue(p.isArchived), Line(0, Archived, "Yes"));
    if p.totalAnnualValue.Some? {
      lines := lines + [Line(0, AnnualValue, "£" + Js.Money(rt, p.totalAnnualValue.value))];
    }
    assert lines == before + w1 + w2;
    PushAfter(before, w1, w2);
    if p.numberOfServices.Some? {
      lines := lines + [Line(0, Services, Js.NumberToString(rt, p.numberOfServices.value))];
    }
    assert lines == before + (w1 + w2) + w3;
    PushAfter(before, w1 + w2, w3);
  }

  /** The loop over the items of a listed package. */
  method PushItemLines(rt: Js.Runtime, items: seq<ServicePackageItem>, before: seq<Line>) returns (lines: seq<Line>)
    ensures lines == before + ItemLines(rt, items)
  {
    lines := before;
    var i := 0;
    while i < |items|
      invariant 0 <= i <= |items|
      invariant lines == before + ItemLines(rt, items[..i])
    {
      assert ItemLines(rt, items[..i + 1]) == ItemLines(rt, items[..i]) + [ItemLine(rt, items[i])];
      lines := lines + [ItemLine(rt, items[i])];
      i := i + 1;
    }
    assert items[..i] == items;
  }

  method FormatSummary(rt: Js.Runtime, p: ServicePackage) returns (text: string)
    ensures text == Block(SummaryLines(rt, p))
  {
    var lines := PushHead(p);
    lines := PushSummaryFigures(rt, p, lines);
    ghost var figures := lines;
    if p.items.Some? && |p.items.value| > 0 {
      lines := lines + [Raw(IncludedHeader)];
      lines := PushItemLines(rt, p.items.value, lines);
      PushAfter(figures, [Raw(IncludedHeader)], ItemLines(rt, p.items.value));
    } else {
      assert lines == figures + [];
    }
    text := Block(lines);
  }

  /** What a listed package shows under each label. */
  function SummaryField(rt: Js.Runtime, p: ServicePackage, t: Label): Option<string>
  {
    match t
    case Code => Some(Js.Show(p.code))
    case Name => Shown(p.name)
    case Description => Shown(p.description)
    case Archived => if Js.IsTrue(p.isArchived) then Some("Yes") else None
    case AnnualValue => if p.totalAnnualValue.Some? then Some("£" + Js.Money(rt, p.totalAnnualValue.value)) else None
    case Services => if p.numberOfServices.Some? then Some(Js.NumberToString(rt, p.numberOfServices.value)) else None
    case _ => None
  }

  lemma SummaryFiguresShow(rt: Js.Runtime, p: ServicePackage, t: Label)
    ensures ShowsAs(PackageHeadLines(p) + SummaryFigureLines(rt, p), t, SummaryField(rt, p, t))
  {
    var x := if t in {Code, Name, Description} then SummaryField(rt, p, t) else None;
    var y := if t in {Archived, AnnualValue, Services} then SummaryField(rt, p, t) else None;
    assert ShowsAs(PackageHeadLines(p), t, x);
    assert ShowsAs(SummaryFigureLines(rt, p), t, y);
    ShowsJoin(PackageHeadLines(p), SummaryFigureLines(rt, p), t, x, y);
  }

  /** Each label of a listed package shows exactly the value its field calls for. */
  lemma SummaryShows(rt: Js.Runtime, p: ServicePackage, t: Label)
    ensures ShowsAs(SummaryLines(rt, p), t, SummaryField(rt, p, t))
  {
    SummaryFiguresShow(rt, p, t);
    assert forall l :: l in SummaryItemsSection(rt, p) ==> l.Raw?;
    ShowsJoin(PackageHeadLines(p) + SummaryFigureLines(rt, p), SummaryItemsSection(rt, p), t,
              SummaryField(rt, p, t), None);
  }

  /** A listed package never prints `Archived: No`, and prints `Archived: Yes` exactly when archived. */
  lemma SummaryArchived(rt: Js.Runtime, p: ServicePackage)
    ensures Line(0, Archived, "Yes") in SummaryLines(rt, p) <==> Js.IsTrue(p.isArchived)
    ensures Line(0, Archived, "No") !in SummaryLines(rt, p)
  {
    var lines := SummaryLines(rt, p);
    var x := SummaryField(rt, p, Archived);
    SummaryShows(rt, p, Archived);
    assert x == (if Js.IsTrue(p.isArchived) then Some("Yes") else None);
    assert Line(0, Archived, "Yes") in lines <==> x == Some("Yes");
    assert Line(0, Archived, "No") in lines <==> x == Some("No");
  }

  /**
   * The item list follows the package fields: `Included Services:` and then
   * the items' lines in order, or nothing at all when there are no items.
   */
  lemma SummaryItems(rt: Js.Runtime, p: ServicePackage)
    ensures var k := |PackageHeadLines(p) + SummaryFigureLines(rt, p)|;
      SummaryLines(rt, p)[k..] == (if HasItems(p) then [Raw(IncludedHeader)] + ItemLines(rt, p.items.value) else [])
  {
    var fields := PackageHeadLines(p) + SummaryFigureLines(rt, p);
    assert SummaryLines(rt, p) == fields + SummaryItemsSection(rt, p);
    assert (fields + SummaryItemsSection(rt, p))[|fields|..] == SummaryItemsSection(rt, p);
  }

  /** Item lines are indented, so none of them is the header. */
  lemma ItemLinesIndented(rt: Js.Runtime, items: seq<ServicePackageItem>)
    ensures Raw(IncludedHeader) !in ItemLines(rt, items)
  {
    forall l | l in ItemLines(rt, items)
      ensures l != Raw(IncludedHeader)
    {
      var k :| 0 <= k < |items| && ItemLines(rt, items)[k] == l;
      assert l.text[0] == ' ';
    }
  }

  /** A listed package prints `Included Services:` exactly when it has items. */
  lemma SummaryItemsHeader(rt: Js.Runtime, p: ServicePackage)
    ensures Raw(IncludedHeader) in SummaryLines(rt, p) <==> HasItems(p)
  {
    var fields := PackageHeadLines(p) + SummaryFigureLines(rt, p);
    assert SummaryLines(rt, p) == fields + SummaryItemsSection(rt, p);
    assert forall l :: l in fields ==> l.Line?;
    if HasItems(p) {
      ItemLinesIndented(rt, p.items.value);
      assert SummaryItemsSection(rt, p)[0] == Raw(IncludedHeader);
    }
  }

  // ----- get-service-package: formatPackage -----

  const AnsweredHeader := "    Pre-answered pricing factors:"

  /** `£<price.toFixed(2)> (override)` for an override, `Standard pricing` otherwise. */
  function ItemPriceDetail(rt: Js.Runtime, item: ServicePackageItem): (r: string)
    ensures Overrides(item) ==> r == "£" + Js.Money(rt, item.price.value) + " (override)"
    ensures !Overrides(item) ==> r == "Standard pricing"
  {
    if Overrides(item) then "£" + Js.Money(rt, item.price.value) + " (override)" else "Standard pricing"
  }

  /** `      <question>: <answer>`. */
  function AnsweredLine(entry: (string, string)): (l: Line)
    ensures l.Raw? && l.text == "      " + entry.0 + ": " + entry.1
  {
    Raw("      " + entry.0 + ": " + entry.1)
  }

  function AnsweredLines(answers: Answers): (r: seq<Line>)
    ensures |r| == |answers|
    ensures forall k :: 0 <= k < |answers| ==> r[k] == AnsweredLine(answers[k])
  {
    seq(|answers|, k requires 0 <= k < |answers| => AnsweredLine(answers[k]))
  }

  /** The pre-answered factors of an item, only for a non-empty map. */
  function AnsweredSection(item: ServicePackageItem): seq<Line>
  {
    if item.pricingAnswers.Some? && |item.pricingAnswers.value| > 0
    then [Raw(AnsweredHeader)] + AnsweredLines(item.pricingAnswers.value)
    else []
  }

  /** `  - <name> (code: <code>)`, Billing when set, Price always, then the pre-answered factors. */
  function ItemDetailLines(rt: Js.Runtime, item: ServicePackageItem): seq<Line>
  {
    [Raw("  - " + ItemName(item) + " (code: " + Js.Show(item.billableServiceCode) + ")")]
    + When(Js.Truthy(item.billingFrequency), Line(4, Billing, Js.Show(item.billingFrequency)))
    + [Line(4, Price, ItemPriceDetail(rt, item))]
    + AnsweredSection(item)
  }

  /** The lines of the items, in order. */
  function ItemsDetailLines(rt: Js.Runtime, items: seq<ServicePackageItem>): seq<Line>
    decreases |items|
  {
    if |items| == 0 then [] else ItemsDetailLines(rt, items[..|items| - 1]) + ItemDetailLines(rt, items[|items| - 1])
  }

  /** Archived always as Yes or No, then Total Annual Value and Number of Services when defined. */
  function DetailFigureLines(rt: Js.Runtime, p: ServicePackage): seq<Line>
  {
    [Line(0, Archived, Js.YesNo(p.isArchived))]
    + When(p.totalAnnualValue.Some?, Line(0, TotalAnnualValue, "£" + Js.Money(rt, p.totalAnnualValue.GetOr(0.0))))
    + When(p.numberOfServices.Some?, Line(0, NumberOfServices, Js.NumberToString(rt, p.numberOfServices.GetOr(0.0))))
  }

  /** A blank line, `Included Services:` and the items, only for a non-empty item list. */
  function DetailItemsSection(rt: Js.Runtime, p: ServicePackage): seq<Line>
  {
    if HasItems(p) then [Raw(""), Raw(IncludedHeader)] + ItemsDetailLines(rt, p.items.value) else []
  }

  /** A blank line and Created when there is a creation date, then Updated. */
  function DetailDateLines(p: ServicePackage): seq<Line>
  {
    (if Js.Truthy(p.createdDate) then [Raw(""), Line(0, Created, Js.Show(p.createdDate))] else [])
    + When(Js.Truthy(p.updatedDate), Line(0, Updated, Js.Show(p.updatedDate)))
  }

  /** The lines of the package report, in push order. */
  function DetailLines(rt: Js.Runtime, p: ServicePackage): seq<Line>
  {
    PackageHeadLines(p) + DetailFigureLines(rt, p) + DetailItemsSection(rt, p) + DetailDateLines(p)
  }

  method PushDetailFigures(rt: Js.Runtime, p: ServicePackage, before: seq<Line>) returns (lines: seq<Line>)
    ensures lines == before + DetailFigureLines(rt, p)
  {
    var w1 := [Line(0, Archived, Js.YesNo(p.isArchived))];
    var w2 := When(p.totalAnnualValue.Some?, Line(0, TotalAnnualValue, "£" + Js.Money(rt, p.totalAnnualValue.GetOr(0.0))));
    var w3 := When(p.numberOfServices.Some?, Line(0, NumberOfServices, Js.NumberToString(rt, p.numberOfServices.GetOr(0.0))));
    lines := before + w1;
    if p.totalAnnualValue.Some? {
      lines := lines + [Line(0, TotalAnnualValue, "£" + Js.Money(rt, p.totalAnnualValue.value))];
    }
    assert lines == before + w1 + w2;
    PushAfter(before, w1, w2);
    if p.numberOfServices.Some? {
      lines := lines + [Line(0, NumberOfServices, Js.NumberToString(rt, p.numberOfServices.value))];
    }
    assert lines == before + (w1 + w2) + w3;
    PushAfter(before, w1 + w2, w3);
  }

  /** The loop over an item's pre-answered pricing factors. */
  method PushAnswered(answers: Answers, before: seq<Line>) returns (lines: seq<Line>)
    ensures lines == before + AnsweredLines(answers)
  {
    lines := before;
    var i := 0;
    while i < |answers|
      invariant 0 <= i <= |answers|
      invariant lines == before + AnsweredLines(answers[..i])
    {
      assert AnsweredLines(answers[..i + 1]) == AnsweredLines(answers[..i]) + [AnsweredLine(answers[i])];
      lines := lines + [AnsweredLine(answers[i])];
      i := i + 1;
    }
    assert answers[..i] == answers;
  }

  /** One iteration of the item loop. */
  method PushItemDetail(rt: Js.Runtime, item: ServicePackageItem, before: seq<Line>) returns (lines: seq<Line>)
    ensures lines == before + ItemDetailLines(rt, item)
  {
    var w1 := [Raw("  - " + ItemName(item) + " (code: " + Js.Show(item.billableServiceCode) + ")")];
    var w2 := When(Js.Truthy(item.billingFrequency), Line(4, Billing, Js.Show(item.billingFrequency)));
    var w3 := [Line(4, Price, ItemPriceDetail(rt, item))];
    lines := before + w1;
    lines := PushWhen(lines, Js.Truthy(item.billingFrequency), Line(4, Billing, Js.Show(item.billingFrequency)));
    PushAfter(before, w1, w2);
    if Js.IsTrue(item.overridePricing) && item.price.Some? {
      lines := lines + [Line(4, Price, "£" + Js.Money(rt, item.price.value) + " (override)")];
    } else {
      lines := lines + [Line(4, Price, "Standard pricing")];
    }
    assert lines == before + (w1 + w2) + w3;
    PushAfter(before, w1 + w2, w3);
    ghost var priced := lines;
    if item.pricingAnswers.Some? && |item.pricingAnswers.value| > 0 {
      lines := lines + [Raw(AnsweredHeader)];
      lines := PushAnswered(item.pricingAnswers.value, lines);
      PushAfter(priced, [Raw(AnsweredHeader)], AnsweredLines(item.pricingAnswers.value));
    } else {
      assert lines == priced + [];
    }
    assert lines == before + (w1 + w2 + w3) + AnsweredSection(item);
    PushAfter(before, w1 + w2 + w3, AnsweredSection(item));
  }

  /** The loop over the items of a reported package. */
  method PushItemsDetail(rt: Js.Runtime, items: seq<ServicePackageItem>, before: seq<Line>) returns (lines: seq<Line>)
    ensures lines == before + ItemsDetailLines(rt, items)
  {
    lines := before;
    var i := 0;
    while i < |items|
      invariant 0 <= i <= |items|
      invariant lines == before + ItemsDetailLines(rt, items[..i])
    {
      assert items[..i + 1][..i] == items[..i];
      ghost var done := ItemsDetailLines(rt, items[..i]);
      lines := PushItemDetail(rt, items[i], lines);
      PushAfter(before, done, ItemDetailLines(rt, items[i]));
      i := i + 1;
    }
    assert items[..i] == items;
  }

  method FormatDetail(rt: Js.Runtime, p: ServicePackage) returns (text: string)
    ensures text == Block(DetailLines(rt, p))
  {
    var lines := PushHead(p);
    lines := PushDetailFigures(rt, p, lines);
    ghost var figures := lines;
    if p.items.Some? && |p.items.value| > 0 {
      lines := lines + [Raw(""), Raw(IncludedHeader)];
      lines := PushItemsDetail(rt, p.items.value, lines);
      PushAfter(figures, [Raw(""), Raw(IncludedHeader)], ItemsDetailLines(rt, p.items.value));
    } else {
      assert lines == figures + [];
    }
    ghost var listed := lines;
    ghost var created := if Js.Truthy(p.createdDate) then [Raw(""), Line(0, Created, Js.Show(p.createdDate))] else [];
    if Js.Truthy(p.createdDate) {
      lines := lines + [Raw(""), Line(0, Created, Js.Show(p.createdDate))];
    } else {
      assert lines == listed + [];
    }
    lines := PushWhen(lines, Js.Truthy(p.updatedDate), Line(0, Updated, Js.Show(p.updatedDate)));
    PushAfter(listed, created, When(Js.Truthy(p.updatedDate), Line(0, Updated, Js.Show(p.updatedDate))));
    assert lines == listed + DetailDateLines(p);
    text := Block(lines);
  }

  // ----- what the package report shows -----

  /** A line of the item section: a labelled line indented by four, or a printed line starting with a space. */
  predicate Inner(l: Line)
  {
    (l.Line? && l.indent == 4) || (l.Raw? && |l.text| > 0 && l.text[0] == ' ')
  }

  lemma {:induction false} ItemsInner(rt: Js.Runtime, items: seq<ServicePackageItem>)
    ensures forall l :: l in ItemsDetailLines(rt, items) ==> Inner(l)
    decreases |items|
  {
    if |items| > 0 {
      ItemsInner(rt, items[..|items| - 1]);
      var item := items[|items| - 1];
      assert forall l :: l in AnsweredSection(item) ==> Inner(l);
    }
  }

  /** What the top-level lines of the package report show under each label. */
  function DetailField(rt: Js.Runtime, p: ServicePackage, t: Label): Option<string>
  {
    match t
    case Code => Some(Js.Show(p.code))
    case Name => Shown(p.name)
    case Description => Shown(p.description)
    case Archived => Some(Js.YesNo(p.isArchived))
    case TotalAnnualValue => if p.totalAnnualValue.Some? then Some("£" + Js.Money(rt, p.totalAnnualValue.value)) else None
    case NumberOfServices => if p.numberOfServices.Some? then Some(Js.NumberToString(rt, p.numberOfServices.value)) else None
    case Created => Shown(p.createdDate)
    case Updated => Shown(p.updatedDate)
    case _ => None
  }

  lemma PackageHeadShows(rt: Js.Runtime, p: ServicePackage, t: Label)
    ensures ShowsAs(PackageHeadLines(p), t, if t in {Code, Name, Description} then DetailField(rt, p, t) else None)
  {
  }

  lemma DetailFiguresShow(rt: Js.Runtime, p: ServicePackage, t: Label)
    ensures ShowsAs(DetailFigureLines(rt, p), t,
      if t in {Archived, TotalAnnualValue, NumberOfServices} then DetailField(rt, p, t) else None)
  {
  }

  lemma DetailDatesShow(rt: Js.Runtime, p: ServicePackage, t: Label)
    ensures ShowsAs(DetailDateLines(p), t, if t in {Created, Updated} then DetailField(rt, p, t) else None)
  {
  }

  lemma DetailItemsShowNothing(rt: Js.Runtime, p: ServicePackage, t: Label)
    ensures ShowsAs(DetailItemsSection(rt, p), t, None)
  {
    if HasItems(p) {
      ItemsInner(rt, p.items.value);
    }
  }

  /**
   * Each top-level label of the package report shows exactly the value its
   * field calls for; Archived is always there, as Yes or No.
   */
  lemma DetailShows(rt: Js.Runtime, p: ServicePackage, t: Label)
    ensures ShowsAs(DetailLines(rt, p), t, DetailField(rt, p, t))
  {
    var head, figures, items, dates := PackageHeadLines(p), DetailFigureLines(rt, p), DetailItemsSection(rt, p), DetailDateLines(p);
    var x := if t in {Code, Name, Description} then DetailField(rt, p, t) else None;
    var y := if t in {Archived, TotalAnnualValue, NumberOfServices} then DetailField(rt, p, t) else None;
    var z := if t in {Created, Updated} then DetailField(rt, p, t) else None;
    PackageHeadShows(rt, p, t);
    DetailFiguresShow(rt, p, t);
    DetailItemsShowNothing(rt, p, t);
    DetailDatesShow(rt, p, t);
    ShowsJoin(head, figures, t, x, y);
    var xy := if x.Some? then x else y;
    ShowsJoin(head + figures, items, t, xy, None);
    ShowsJoin(head + figures + items, dates, t, xy, z);
    assert DetailField(rt, p, t) == if xy.Some? then xy else z;
  }

  /** `Included Services:` is printed exactly when the package has items. */
  lemma DetailItemsHeader(rt: Js.Runtime, p: ServicePackage)
    ensures Raw(IncludedHeader) in DetailLines(rt, p) <==> HasItems(p)
  {
    var fields := PackageHeadLines(p) + DetailFigureLines(rt, p);
    assert forall l :: l in fields ==> l.Line?;
    assert forall l :: l in DetailDateLines(p) ==> l.Line? || l == Raw("");
    if HasItems(p) {
      ItemsInner(rt, p.items.value);
      assert Raw(IncludedHeader) in DetailItemsSection(rt, p);
    } else {
      assert DetailItemsSection(rt, p) == [];
    }
    assert IncludedHeader[0] != ' ';
    assert DetailLines(rt, p) == fields + DetailItemsSection(rt, p) + DetailDateLines(p);
  }

  /** An item's pre-answered section is printed lines only, and holds its header exactly when there are answers. */
  lemma AnsweredSectionRaw(item: ServicePackageItem)
    ensures forall l :: l in AnsweredSection(item) ==> l.Raw?
    ensures Raw(AnsweredHeader) in AnsweredSection(item) <==>
      item.pricingAnswers.Some? && |item.pricingAnswers.value| > 0
  {
    forall l | l in AnsweredLines(item.pricingAnswers.GetOr([]))
      ensures l.Raw? && l != Raw(AnsweredHeader)
    {
      var k :| 0 <= k < |item.pricingAnswers.GetOr([])| && AnsweredLines(item.pricingAnswers.GetOr([]))[k] == l;
      assert l.text[4] == ' ' && AnsweredHeader[4] == 'P';
    }
  }

  /** Each item prints exactly one Price line, with its own price only for an override. */
  lemma ItemPriceShown(rt: Js.Runtime, item: ServicePackageItem)
    ensures ShowsAt(ItemDetailLines(rt, item), 4, Price, Some(ItemPriceDetail(rt, item)))
  {
    AnsweredSectionRaw(item);
  }

  /** The pre-answered header is printed for an item only when its answer map is non-empty. */
  lemma ItemAnsweredHeader(rt: Js.Runtime, item: ServicePackageItem)
    ensures Raw(AnsweredHeader) in ItemDetailLines(rt, item) <==>
      item.pricingAnswers.Some? && |item.pricingAnswers.value| > 0
  {
    AnsweredSectionRaw(item);
    var title := "  - " + ItemName(item) + " (code: " + Js.Show(item.billableServiceCode) + ")";
    assert AnsweredHeader != title by {
      assert AnsweredHeader[2] == ' ' && title[2] == '-';
    }
  }

  /** The number of lines one item adds to the package report. */
  lemma ItemDetailCount(rt: Js.Runtime, item: ServicePackageItem)
    ensures |ItemDetailLines(rt, item)| ==
      2 + (if Js.Truthy(item.billingFrequency) then 1 else 0)
        + (if item.pricingAnswers.Some? && |item.pricingAnswers.value| > 0 then 1 + |item.pricingAnswers.value| else 0)
  {
  }

  // ----- the handlers -----

  /** The one sort field the list accepts. */
  datatype PackageSort = SortByName

  function PackageSortName(s: PackageSort): string
  {
    "Name"
  }

  function ParsePackageSort(s: string): (r: Option<PackageSort>)
    ensures r.Some? <==> s == "Name"
  {
    if s == "Name" then Some(SortByName) else None
  }

  lemma PackageSortRoundTrip(s: PackageSort)
    ensures ParsePackageSort(PackageSortName(s)) == Some(s)
  {
  }

  datatype ListArgs = ListArgs(
    search: Option<string>,
    service: Option<seq<string>>,
    sortBy: Option<PackageSort>,
    sortDesc: Option<bool>,
    offset: Option<real>,
    limit: Option<real>)

  /** The six filters are forwarded in the handler's order; the service-code list is passed through unchanged. */
  function ListCall(a: ListArgs): (op: Api.Operation)
    ensures op.ListServicePackages? && op.query.Some?
    ensures op.query.value == [
      ("search", Api.QString(a.search)),
      ("service", Api.QStrings(a.service)),
      ("sortBy", Api.QString(if a.sortBy.Some? then Some(PackageSortName(a.sortBy.value)) else None)),
      ("sortDesc", Api.QBool(a.sortDesc)),
      ("offset", Api.QNumber(a.offset)),
      ("limit", Api.QNumber(a.limit))]
  {
    Api.ListServicePackages(Some([
      ("search", Api.QString(a.search)),
      ("service", Api.QStrings(a.service)),
      ("sortBy", Api.QString(if a.sortBy.Some? then Some(PackageSortName(a.sortBy.value)) else None)),
      ("sortDesc", Api.QBool(a.sortDesc)),
      ("offset", Api.QNumber(a.offset)),
      ("limit", Api.QNumber(a.limit))]))
  }

  /** Each requested service code reaches the query once, in order, as its own value. */
  lemma ServiceCodesForwarded(a: ListArgs)
    requires a.service.Some?
    ensures ListCall(a).query.value[1] == ("service", Api.Strings(a.service.value))
  {
  }

  function ListText(rt: Js.Runtime, out: Errors.Outcome<Option<seq<ServicePackage>>>): (text: string)
    ensures out.Threw? ==> text == ErrorText(rt, "Error listing service packages", out.error)
    ensures out.Returned? && (out.value.None? || |out.value.value| == 0) ==> text == "No service packages found."
    ensures out.Returned? && out.value.Some? && |out.value.value| > 0 ==>
      var ps := out.value.value;
      text == FoundHeader(|ps|, "package", "") + "\n\n"
              + Text.Join(seq(|ps|, i requires 0 <= i < |ps| => Block(SummaryLines(rt, ps[i]))), Separator)
  {
    match out
    case Threw(e) => ErrorText(rt, "Error listing service packages", e)
    case Returned(None) => "No service packages found."
    case Returned(Some(ps)) =>
      Listing("No service packages found.", FoundHeader(|ps|, "package", ""),
              seq(|ps|, i requires 0 <= i < |ps| => Block(SummaryLines(rt, ps[i]))), Separator)
  }

  function GetCall(code: string): (op: Api.Operation)
    ensures op.GetServicePackage? && op.code == code
  {
    Api.GetServicePackage(code)
  }

  function GetText(rt: Js.Runtime, out: Errors.Outcome<ServicePackage>): (text: string)
    ensures out.Returned? ==> text == "Service Package Details:\n\n" + Block(DetailLines(rt, out.value))
    ensures out.Threw? ==> text == ErrorText(rt, "Error getting service package", out.error)
  {
    match out
    case Returned(p) => "Service Package Details:\n\n" + Block(DetailLines(rt, p))
    case Threw(e) => ErrorText(rt, "Error getting service package", e)
  }
}
