/**
 * The list-document-templates tool: the proposal and engagement-letter
 * templates of the tenant, whose codes engagement creation asks for.
 */
module TemplateTools {
  import opened Wrappers
  import Text
  import Js
  import Errors
  import Api = SodiumClient
  import opened Records
  import opened Report

  /** The Theme line is printed only for a default theme with a non-empty name. */
  predicate HasTheme(t: DocumentTemplate)
  {
    t.defaultDesignTheme.Some? && Js.Truthy(t.defaultDesignTheme.value.name)
  }

  /** `<name> (<code>)`; an absent code prints as "undefined". Only read when there is a theme. */
  function ThemeText(t: DocumentTemplate): string
  {
    if t.defaultDesignTheme.Some?
    then Js.Show(t.defaultDesignTheme.value.name) + " (" + Js.Show(t.defaultDesignTheme.value.code) + ")"
    else ""
  }

  /** The lines of one template block (formatTemplate), in push order. */
  function TemplateLines(t: DocumentTemplate): seq<Line>
  {
    [Line(0, Code, Js.Show(t.code))]
    + When(Js.Truthy(t.name), Line(0, Name, Js.Show(t.name)))
    + When(Js.Truthy(t.kind), Line(0, Kind, Js.Show(t.kind)))
    + When(Js.Truthy(t.description), Line(0, Description, Js.Show(t.description)))
    + [Line(0, ActiveFlag, Js.YesNo(t.isActive))]
    + When(HasTheme(t), Line(0, Theme, ThemeText(t)))
  }

  method FormatTemplate(t: DocumentTemplate) returns (text: string)
    ensures text == Block(TemplateLines(t))
  {
    var lines := [Line(0, Code, Js.Show(t.code))];
    lines := PushWhen(lines, Js.Truthy(t.name), Line(0, Name, Js.Show(t.name)));
    lines := PushWhen(lines, Js.Truthy(t.kind), Line(0, Kind, Js.Show(t.kind)));
    lines := PushWhen(lines, Js.Truthy(t.description), Line(0, Description, Js.Show(t.description)));
    lines := lines + [Line(0, ActiveFlag, if Js.IsTrue(t.isActive) then "Yes" else "No")];
    if t.defaultDesignTheme.Some? && Js.Truthy(t.defaultDesignTheme.value.name) {
      lines := lines + [Line(0, Theme, Js.Show(t.defaultDesignTheme.value.name) + " (" + Js.Show(t.defaultDesignTheme.value.code) + ")")];
    }
    assert lines == TemplateLines(t);
    text := Block(lines);
  }

  /** What a template block shows under each label. */
  function TemplateField(t: DocumentTemplate, l: Label): Option<string>
  {
    match l
    case Code => Some(Js.Show(t.code))
    case Name => Shown(t.name)
    case Kind => Shown(t.kind)
    case Description => Shown(t.description)
    case ActiveFlag => Some(Js.YesNo(t.isActive))
    case Theme => if HasTheme(t) then Some(ThemeText(t)) else None
    case _ => None
  }

  /** Each label of a template block shows exactly the value its field calls for. */
  lemma TemplateShows(t: DocumentTemplate, l: Label)
    ensures ShowsAs(TemplateLines(t), l, TemplateField(t, l))
  {
  }

  /** The Code line comes first and the Active line is always there, as Yes or No. */
  lemma TemplateShape(t: DocumentTemplate)
    ensures 2 <= |TemplateLines(t)| <= 6
    ensures TemplateLines(t)[0] == Line(0, Code, Js.Show(t.code))
    ensures Line(0, ActiveFlag, "Yes") in TemplateLines(t) <==> Js.IsTrue(t.isActive)
    ensures Line(0, ActiveFlag, "No") in TemplateLines(t) <==> !Js.IsTrue(t.isActive)
  {
    TemplateShows(t, ActiveFlag);
  }

  /** A theme without a name prints no Theme line, whatever its code. */
  lemma UnnamedThemeHidden(t: DocumentTemplate)
    requires t.defaultDesignTheme.Some? && !Js.Truthy(t.defaultDesignTheme.value.name)
    ensures Lacks(TemplateLines(t), Theme)
  {
    TemplateShows(t, Theme);
  }

  // ----- the list-document-templates handler -----

  /** The template kinds the filter accepts. */
  datatype TemplateKind = Proposal | EngagementLetter | ProfessionalClearanceLetter

  function TemplateKindName(k: TemplateKind): string
  {
    match k
    case Proposal => "Proposal"
    case EngagementLetter => "EngagementLetter"
    case ProfessionalClearanceLetter => "ProfessionalClearanceLetter"
  }

  function ParseTemplateKind(s: string): (r: Option<TemplateKind>)
    ensures r.Some? <==> s in {"Proposal", "EngagementLetter", "ProfessionalClearanceLetter"}
    ensures r.Some? ==> TemplateKindName(r.value) == s
  {
    if s == "Proposal" then Some(Proposal)
    else if s == "EngagementLetter" then Some(EngagementLetter)
    else if s == "ProfessionalClearanceLetter" then Some(ProfessionalClearanceLetter)
    else None
  }

  lemma TemplateKindRoundTrip(k: TemplateKind)
    ensures ParseTemplateKind(TemplateKindName(k)) == Some(k)
  {
  }

  /** The fields the list can be sorted by. */
  datatype TemplateSort = ByName | ByUpdatedDate

  function TemplateSortName(s: TemplateSort): string
  {
    match s
    case ByName => "Name"
    case ByUpdatedDate => "UpdatedDate"
  }

  function ParseTemplateSort(s: string): (r: Option<TemplateSort>)
    ensures r.Some? <==> s in {"Name", "UpdatedDate"}
    ensures r.Some? ==> TemplateSortName(r.value) == s
  {
    if s == "Name" then Some(ByName) else if s == "UpdatedDate" then Some(ByUpdatedDate) else None
  }

  lemma TemplateSortRoundTrip(s: TemplateSort)
    ensures ParseTemplateSort(TemplateSortName(s)) == Some(s)
  {
  }

  datatype ListArgs = ListArgs(
    kind: Option<TemplateKind>,
    search: Option<string>,
    isActive: Option<bool>,
    sortBy: Option<TemplateSort>,
    sortDesc: Option<bool>,
    offset: Option<real>,
    limit: Option<real>)

  /** The seven filters are forwarded in the handler's order; the kind goes out under the key `type`. */
  function ListCall(a: ListArgs): (op: Api.Operation)
    ensures op.ListDocumentTemplates? && op.query.Some?
    ensures op.query.value == [
      ("type", Api.QString(if a.kind.Some? then Some(TemplateKindName(a.kind.value)) else None)),
      ("search", Api.QString(a.search)),
      ("isActive", Api.QBool(a.isActive)),
      ("sortBy", Api.QString(if a.sortBy.Some? then Some(TemplateSortName(a.sortBy.value)) else None)),
      ("sortDesc", Api.QBool(a.sortDesc)),
      ("offset", Api.QNumber(a.offset)),
      ("limit", Api.QNumber(a.limit))]
  {
    Api.ListDocumentTemplates(Some([
      ("type", Api.QString(if a.kind.Some? then Some(TemplateKindName(a.kind.value)) else None)),
      ("search", Api.QString(a.search)),
      ("isActive", Api.QBool(a.isActive)),
      ("sortBy", Api.QString(if a.sortBy.Some? then Some(TemplateSortName(a.sortBy.value)) else None)),
      ("sortDesc", Api.QBool(a.sortDesc)),
      ("offset", Api.QNumber(a.offset)),
      ("limit", Api.QNumber(a.limit))]))
  }

  function ListText(rt: Js.Runtime, out: Errors.Outcome<Option<seq<DocumentTemplate>>>): (text: string)
    ensures out.Threw? ==> text == ErrorText(rt, "Error listing document templates", out.error)
    ensures out.Returned? && (out.value.None? || |out.value.value| == 0) ==> text == "No document templates found."
    ensures out.Returned? && out.value.Some? && |out.value.value| > 0 ==>
      var ts := out.value.value;
      text == FoundHeader(|ts|, "template", "") + "\n\n"
              + Text.Join(seq(|ts|, i requires 0 <= i < |ts| => Block(TemplateLines(ts[i]))), Separator)
  {
    match out
    case Threw(e) => ErrorText(rt, "Error listing document templates", e)
    case Returned(None) => "No document templates found."
    case Returned(Some(ts)) =>
      Listing("No document templates found.", FoundHeader(|ts|, "template", ""),
              seq(|ts|, i requires 0 <= i < |ts| => Block(TemplateLines(ts[i]))), Separator)
  }
}
