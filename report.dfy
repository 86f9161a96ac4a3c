/**
 * The text shapes every tool produces: labelled lines joined with "\n",
 * list pages with an empty-list text, a count header and a separator
 * between blocks, and the error text of a catch clause.
 */
module Report {
  import opened Wrappers
  import Text
  import Js
  import Errors

  /** The label of every labelled line the tools print. */
  datatype Label =
    | Name
    | Code
    | Kind
    | Status
    | Manager
    | Partner
    | Created
    | Updated
    | Email
    | Phone
    | Primary
    | Content
    | Pinned
    | CreatedBy
    | Due
    | ForClient
    | AssignedTo
    | Category
    | Description
    | Date
    | Recipient
    | AnnualValue
    | Services
    | ProposalTemplate
    | LetterTemplate
    | LastViewed
    | Accepted
    | Link
    | Sent
    | Subject
    | To
    | MessageId
    | DesignTheme
    | ShowPracticeName
    | AttachPdfs
    | RequestDdMandate
    | NotifyManager
    | NotifyPartner
    | IntroBlock
    | EmailBlock
    | SignatureBlock
    | ThankYouBlock
    | ThankYouEmailBlock
    | AcceptanceTask
    | Billing
    | Price
    | Adjustment
    | Start
    | End
    | ClientTypes
    | Archived
    | Pricing
    | PricingFactors
    | AccountingCode
    | Note
    | Question
    | TotalAnnualValue
    | NumberOfServices
    | ActiveFlag
    | Theme

  /** The text of each label as it appears before the colon. */
  function LabelText(l: Label): (s: string)
    ensures |s| > 0
  {
    match l
    case Name => "Name"
    case Code => "Code"
    case Kind => "Type"
    case Status => "Status"
    case Manager => "Manager"
    case Partner => "Partner"
    case Created => "Created"
    case Updated => "Updated"
    case Email => "Email"
    case Phone => "Phone"
    case Primary => "Primary"
    case Content => "Content"
    case Pinned => "Pinned"
    case CreatedBy => "Created by"
    case Due => "Due"
    case ForClient => "Client"
    case AssignedTo => "Assigned to"
    case Category => "Category"
    case Description => "Description"
    case Date => "Date"
    case Recipient => "Recipient"
    case AnnualValue => "Annual Value"
    case Services => "Services"
    case ProposalTemplate => "Proposal Template"
    case LetterTemplate => "Engagement Letter"
    case LastViewed => "Last Viewed"
    case Accepted => "Accepted"
    case Link => "Link"
    case Sent => "Sent"
    case Subject => "Subject"
    case To => "To"
    case MessageId => "Message ID"
    case DesignTheme => "Design Theme"
    case ShowPracticeName => "Show Practice Name"
    case AttachPdfs => "Attach PDFs to Email"
    case RequestDdMandate => "Request DD Mandate"
    case NotifyManager => "Notify Client Manager on Acceptance"
    case NotifyPartner => "Notify Partner on Acceptance"
    case IntroBlock => "Intro Content Block"
    case EmailBlock => "Email Content Block"
    case SignatureBlock => "Signature Page Block"
    case ThankYouBlock => "Thank You Content Block"
    case ThankYouEmailBlock => "Thank You Email Block"
    case AcceptanceTask => "Acceptance Task"
    case Billing => "Billing"
    case Price => "Price"
    case Adjustment => "Adjustment"
    case Start => "Start"
    case End => "End"
    case ClientTypes => "Client Types"
    case Archived => "Archived"
    case Pricing => "Pricing"
    case PricingFactors => "Pricing Factors"
    case AccountingCode => "Accounting Code"
    case Note => "Note"
    case Question => "Q"
    case TotalAnnualValue => "Total Annual Value"
    case NumberOfServices => "Number of Services"
    case ActiveFlag => "Active"
    case Theme => "Theme"
  }

  /**
   * One output line: `<indent spaces><label>: <value>`, or a line printed as
   * is. A pushed string that starts with "\n" is modelled as an empty line
   * followed by the rest, which renders identically once lines are joined
   * with "\n".
   */
  datatype Line = Line(indent: nat, tag: Label, value: string) | Raw(text: string)

  function Spaces(n: nat): (r: string)
    ensures |r| == n && forall i :: 0 <= i < n ==> r[i] == ' '
  {
    if n == 0 then "" else " " + Spaces(n - 1)
  }

  function Render(l: Line): string
  {
    match l
    case Line(indent, tag, value) => Spaces(indent) + LabelText(tag) + ": " + value
    case Raw(text) => text
  }

  /** `lines.join("\n")`. */
  function Block(lines: seq<Line>): string
  {
    Text.Join(seq(|lines|, i requires 0 <= i < |lines| => Render(lines[i])), "\n")
  }

  /** A conditional `lines.push(...)`. */
  function When(c: bool, l: Line): (r: seq<Line>)
    ensures c ==> r == [l]
    ensures !c ==> r == []
  {
    if c then [l] else []
  }

  /** Pushing onto `before + mid` is pushing onto `mid` after `before`. */
  lemma PushAfter(before: seq<Line>, mid: seq<Line>, more: seq<Line>)
    ensures before + mid + more == before + (mid + more)
  {
  }

  /** `if (c) lines.push(l)`. */
  method PushWhen(lines: seq<Line>, c: bool, l: Line) returns (r: seq<Line>)
    ensures r == lines + When(c, l)
  {
    r := lines;
    if c {
      r := r + [l];
    }
  }

  /** The optional value a line shows under an `if (x)` guard: absent or empty shows nothing. */
  function Shown(o: Option<string>): (r: Option<string>)
    ensures r.Some? <==> Js.Truthy(o)
    ensures r.Some? ==> r == o
  {
    if Js.Truthy(o) then o else None
  }

  /**
   * The top-level line labelled `tag` is present exactly when `expected` is
   * some value, and then it shows exactly that value.
   */
  ghost predicate ShowsAs(lines: seq<Line>, tag: Label, expected: Option<string>)
  {
    forall v :: Line(0, tag, v) in lines <==> expected == Some(v)
  }

  /** Two pieces that do not both show a label show, together, whichever of them shows it. */
  lemma ShowsJoin(a: seq<Line>, b: seq<Line>, tag: Label, x: Option<string>, y: Option<string>)
    requires ShowsAs(a, tag, x) && ShowsAs(b, tag, y) && (x.None? || y.None?)
    ensures ShowsAs(a + b, tag, if x.Some? then x else y)
  {
  }

  /** A conditional push shows its value under its own label exactly when the condition holds. */
  lemma ShowsWhen(c: bool, key: Label, v: string, tag: Label)
    ensures ShowsAs(When(c, Line(0, key, v)), tag, if c && tag == key then Some(v) else None)
  {
  }

  /** A conditional push after lines that do not show its label extends what they show by it. */
  lemma ShowsPush(a: seq<Line>, c: bool, key: Label, v: string, tag: Label, x: Option<string>)
    requires ShowsAs(a, tag, x) && (c && tag == key ==> x.None?)
    ensures ShowsAs(a + When(c, Line(0, key, v)), tag, if c && tag == key then Some(v) else x)
  {
  }

  /**
   * Two conditional pushes with different labels, one after the other: each
   * label shows the value of its push exactly when that push's condition holds.
   */
  lemma ShowsTwo(lines: seq<Line>, tag: Label, expected: Option<string>,
                 c1: bool, k1: Label, v1: string, c2: bool, k2: Label, v2: string)
    requires k1 != k2
    requires lines == When(c1, Line(0, k1, v1)) + When(c2, Line(0, k2, v2))
    requires expected == if c1 && tag == k1 then Some(v1) else if c2 && tag == k2 then Some(v2) else None
    ensures ShowsAs(lines, tag, expected)
  {
    ShowsWhen(c1, k1, v1, tag);
    ShowsPush(When(c1, Line(0, k1, v1)), c2, k2, v2, tag, if c1 && tag == k1 then Some(v1) else None);
  }

  /** As ShowsTwo, for three pushes. */
  lemma ShowsThree(lines: seq<Line>, tag: Label, expected: Option<string>,
                   c1: bool, k1: Label, v1: string, c2: bool, k2: Label, v2: string,
                   c3: bool, k3: Label, v3: string)
    requires k1 != k2 && k1 != k3 && k2 != k3
    requires lines == When(c1, Line(0, k1, v1)) + When(c2, Line(0, k2, v2)) + When(c3, Line(0, k3, v3))
    requires expected == if c1 && tag == k1 then Some(v1) else if c2 && tag == k2 then Some(v2)
      else if c3 && tag == k3 then Some(v3) else None
    ensures ShowsAs(lines, tag, expected)
  {
    var first := When(c1, Line(0, k1, v1)) + When(c2, Line(0, k2, v2));
    var x := if c1 && tag == k1 then Some(v1) else if c2 && tag == k2 then Some(v2) else None;
    ShowsTwo(first, tag, x, c1, k1, v1, c2, k2, v2);
    ShowsPush(first, c3, k3, v3, tag, x);
  }

  /** As ShowsThree, for four pushes. */
  lemma ShowsFour(lines: seq<Line>, tag: Label, expected: Option<string>,
                  c1: bool, k1: Label, v1: string, c2: bool, k2: Label, v2: string,
                  c3: bool, k3: Label, v3: string, c4: bool, k4: Label, v4: string)
    requires k1 != k2 && k1 != k3 && k1 != k4 && k2 != k3 && k2 != k4
    requires k3 != k4
    requires lines == When(c1, Line(0, k1, v1)) + When(c2, Line(0, k2, v2)) + When(c3, Line(0, k3, v3))
                      + When(c4, Line(0, k4, v4))
    requires expected == if c1 && tag == k1 then Some(v1) else if c2 && tag == k2 then Some(v2)
      else if c3 && tag == k3 then Some(v3) else if c4 && tag == k4 then Some(v4) else None
    ensures ShowsAs(lines, tag, expected)
  {
    var first := When(c1, Line(0, k1, v1)) + When(c2, Line(0, k2, v2)) + When(c3, Line(0, k3, v3));
    var x := if c1 && tag == k1 then Some(v1) else if c2 && tag == k2 then Some(v2)
      else if c3 && tag == k3 then Some(v3) else None;
    ShowsThree(first, tag, x, c1, k1, v1, c2, k2, v2, c3, k3, v3);
    ShowsPush(first, c4, k4, v4, tag, x);
  }

  /** As ShowsFour, for five pushes. */
  lemma ShowsFive(lines: seq<Line>, tag: Label, expected: Option<string>,
                  c1: bool, k1: Label, v1: string, c2: bool, k2: Label, v2: string,
                  c3: bool, k3: Label, v3: string, c4: bool, k4: Label, v4: string,
                  c5: bool, k5: Label, v5: string)
    requires k1 != k2 && k1 != k3 && k1 != k4 && k1 != k5 && k2 != k3
    requires k2 != k4 && k2 != k5 && k3 != k4 && k3 != k5 && k4 != k5
    requires lines == When(c1, Line(0, k1, v1)) + When(c2, Line(0, k2, v2)) + When(c3, Line(0, k3, v3))
                      + When(c4, Line(0, k4, v4)) + When(c5, Line(0, k5, v5))
    requires expected == if c1 && tag == k1 then Some(v1) else if c2 && tag == k2 then Some(v2)
      else if c3 && tag == k3 then Some(v3) else if c4 && tag == k4 then Some(v4)
      else if c5 && tag == k5 then Some(v5) else None
    ensures ShowsAs(lines, tag, expected)
  {
    var first := When(c1, Line(0, k1, v1)) + When(c2, Line(0, k2, v2)) + When(c3, Line(0, k3, v3))
                 + When(c4, Line(0, k4, v4));
    var x := if c1 && tag == k1 then Some(v1) else if c2 && tag == k2 then Some(v2)
      else if c3 && tag == k3 then Some(v3) else if c4 && tag == k4 then Some(v4) else None;
    ShowsFour(first, tag, x, c1, k1, v1, c2, k2, v2, c3, k3, v3, c4, k4, v4);
    ShowsPush(first, c5, k5, v5, tag, x);
  }

  /** As ShowsFive, for six pushes. */
  lemma ShowsSix(lines: seq<Line>, tag: Label, expected: Option<string>,
                 c1: bool, k1: Label, v1: string, c2: bool, k2: Label, v2: string,
                 c3: bool, k3: Label, v3: string, c4: bool, k4: Label, v4: string,
                 c5: bool, k5: Label, v5: string, c6: bool, k6: Label, v6: string)
    requires k1 != k2 && k1 != k3 && k1 != k4 && k1 != k5 && k1 != k6
    requires k2 != k3 && k2 != k4 && k2 != k5 && k2 != k6
    requires k3 != k4 && k3 != k5 && k3 != k6 && k4 != k5 && k4 != k6 && k5 != k6
    requires lines == When(c1, Line(0, k1, v1)) + When(c2, Line(0, k2, v2)) + When(c3, Line(0, k3, v3))
                      + When(c4, Line(0, k4, v4)) + When(c5, Line(0, k5, v5)) + When(c6, Line(0, k6, v6))
    requires expected == if c1 && tag == k1 then Some(v1) else if c2 && tag == k2 then Some(v2)
      else if c3 && tag == k3 then Some(v3) else if c4 && tag == k4 then Some(v4)
      else if c5 && tag == k5 then Some(v5) else if c6 && tag == k6 then Some(v6) else None
    ensures ShowsAs(lines, tag, expected)
  {
    var first := When(c1, Line(0, k1, v1)) + When(c2, Line(0, k2, v2)) + When(c3, Line(0, k3, v3))
                 + When(c4, Line(0, k4, v4)) + When(c5, Line(0, k5, v5));
    var x := if c1 && tag == k1 then Some(v1) else if c2 && tag == k2 then Some(v2)
      else if c3 && tag == k3 then Some(v3) else if c4 && tag == k4 then Some(v4)
      else if c5 && tag == k5 then Some(v5) else None;
    ShowsFive(first, tag, x, c1, k1, v1, c2, k2, v2, c3, k3, v3, c4, k4, v4, c5, k5, v5);
    ShowsPush(first, c6, k6, v6, tag, x);
  }

  /** As ShowsAs, for the lines indented by `indent` spaces. */
  ghost predicate ShowsAt(lines: seq<Line>, indent: nat, tag: Label, expected: Option<string>)
  {
    forall v :: Line(indent, tag, v) in lines <==> expected == Some(v)
  }

  lemma ShowsAtJoin(a: seq<Line>, b: seq<Line>, indent: nat, tag: Label, x: Option<string>, y: Option<string>)
    requires ShowsAt(a, indent, tag, x) && ShowsAt(b, indent, tag, y) && (x.None? || y.None?)
    ensures ShowsAt(a + b, indent, tag, if x.Some? then x else y)
  {
  }

  /** As ShowsPush, for a push at any indent. */
  lemma ShowsAtPush(a: seq<Line>, indent: nat, c: bool, key: Label, v: string, tag: Label, x: Option<string>)
    requires ShowsAt(a, indent, tag, x) && (c && tag == key ==> x.None?)
    ensures ShowsAt(a + When(c, Line(indent, key, v)), indent, tag, if c && tag == key then Some(v) else x)
  {
  }

  /**
   * Lines that show nothing under a label, followed by two pushes at one
   * indent with different labels: each label shows the value of its push
   * exactly when that push's condition holds.
   */
  lemma ShowsAtTwo(lines: seq<Line>, indent: nat, tag: Label, expected: Option<string>, head: seq<Line>,
                   c1: bool, k1: Label, v1: string, c2: bool, k2: Label, v2: string)
    requires ShowsAt(head, indent, tag, None)
    requires k1 != k2
    requires lines == head + When(c1, Line(indent, k1, v1)) + When(c2, Line(indent, k2, v2))
    requires expected == if c1 && tag == k1 then Some(v1) else if c2 && tag == k2 then Some(v2) else None
    ensures ShowsAt(lines, indent, tag, expected)
  {
    ShowsAtPush(head, indent, c1, k1, v1, tag, None);
    ShowsAtPush(head + When(c1, Line(indent, k1, v1)), indent, c2, k2, v2, tag,
                if c1 && tag == k1 then Some(v1) else None);
  }

  /** As ShowsAtTwo, for three pushes. */
  lemma ShowsAtThree(lines: seq<Line>, indent: nat, tag: Label, expected: Option<string>, head: seq<Line>,
                     c1: bool, k1: Label, v1: string, c2: bool, k2: Label, v2: string,
                     c3: bool, k3: Label, v3: string)
    requires ShowsAt(head, indent, tag, None)
    requires k1 != k2 && k1 != k3 && k2 != k3
    requires lines == head + When(c1, Line(indent, k1, v1)) + When(c2, Line(indent, k2, v2))
                      + When(c3, Line(indent, k3, v3))
    requires expected == if c1 && tag == k1 then Some(v1) else if c2 && tag == k2 then Some(v2)
      else if c3 && tag == k3 then Some(v3) else None
    ensures ShowsAt(lines, indent, tag, expected)
  {
    var first := head + When(c1, Line(indent, k1, v1)) + When(c2, Line(indent, k2, v2));
    var x := if c1 && tag == k1 then Some(v1) else if c2 && tag == k2 then Some(v2) else None;
    ShowsAtTwo(first, indent, tag, x, head, c1, k1, v1, c2, k2, v2);
    ShowsAtPush(first, indent, c3, k3, v3, tag, x);
  }

  /** No top-level line carries this label. */
  ghost predicate Lacks(lines: seq<Line>, tag: Label)
  {
    forall v :: Line(0, tag, v) !in lines
  }

  const Separator := "\n\n---\n\n"

  /** `Found <n> <noun>(s)<rest>:` */
  function FoundHeader(n: nat, noun: string, rest: string): (r: string)
    ensures Text.StartsWith(r, "Found " + Text.NatToString(n) + " ")
    ensures Text.EndsWith(r, noun + "(s)" + rest + ":")
    ensures |r| == 7 + |Text.NatToString(n)| + |noun| + 3 + |rest| + 1
  {
    "Found " + Text.NatToString(n) + " " + noun + "(s)" + rest + ":"
  }

  /** A list page: the empty text for no blocks, otherwise the header, a blank line and the blocks. */
  function Listing(emptyText: string, header: string, blocks: seq<string>, sep: string): (r: string)
    ensures |blocks| == 0 ==> r == emptyText
    ensures |blocks| > 0 ==> Text.StartsWith(r, header + "\n\n")
    ensures |blocks| > 0 ==> r == header + "\n\n" + Text.Join(blocks, sep)
  {
    if |blocks| == 0 then emptyText else header + "\n\n" + Text.Join(blocks, sep)
  }

  /** `<prefix>: ${ensureError(error).message}` */
  function ErrorText(rt: Js.Runtime, prefix: string, e: Errors.Thrown): (r: string)
    ensures Text.StartsWith(r, prefix + ": ")
    ensures Text.EndsWith(r, Errors.MessageOf(rt, e))
    ensures |r| == |prefix| + 2 + |Errors.MessageOf(rt, e)|
  {
    prefix + ": " + Errors.MessageOf(rt, e)
  }

  /** Rendering a block starts with the rendering of its first line. */
  lemma {:induction false} BlockHead(lines: seq<Line>)
    requires |lines| > 0
    ensures Text.StartsWith(Block(lines), Render(lines[0]))
  {
    var parts := seq(|lines|, i requires 0 <= i < |lines| => Render(lines[i]));
    if |lines| > 1 {
      assert Block(lines) == parts[0] + "\n" + Text.Join(parts[1..], "\n");
    }
  }

  /** Appending lines to a block appends their rendering after a newline. */
  lemma BlockAppend(a: seq<Line>, b: seq<Line>)
    requires |a| > 0 && |b| > 0
    ensures Block(a + b) == Block(a) + "\n" + Block(b)
  {
    var pa := seq(|a|, i requires 0 <= i < |a| => Render(a[i]));
    var pb := seq(|b|, i requires 0 <= i < |b| => Render(b[i]));
    assert seq(|a + b|, i requires 0 <= i < |a + b| => Render((a + b)[i])) == pa + pb;
    Text.JoinAppend(pa, pb, "\n");
  }
}
