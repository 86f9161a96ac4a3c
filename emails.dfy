/**
 * The get-engagement-emails tool: the numbered email-history report of one
 * engagement.
 */
module EmailTools {
  import opened Wrappers
  import Text
  import Js
  import Errors
  import Api = SodiumClient
  import opened Records
  import opened Report

  /** `Email #<index + 1>`: the heading of the email at a zero-based position. */
  function Heading(index: nat): (r: string)
    ensures Text.StartsWith(r, "Email #") && r[7..] == Text.NatToString(index + 1)
  {
    "Email #" + Text.NatToString(index + 1)
  }

  /** Two positions never share a heading. */
  lemma HeadingInjective(i: nat, j: nat)
    ensures Heading(i) == Heading(j) <==> i == j
  {
    if Heading(i) == Heading(j) {
      assert Heading(i)[7..] == Text.NatToString(i + 1);
      assert Heading(j)[7..] == Text.NatToString(j + 1);
      Text.NatToStringInjective(i + 1, j + 1);
    }
  }

  /** `To:` is printed only for a present, non-empty recipient list. */
  predicate HasRecipients(e: EngagementEmail)
  {
    e.toRecipients.Some? && |e.toRecipients.value| > 0
  }

  /** The recipients joined by ", "; only read when there are some. */
  function RecipientsText(e: EngagementEmail): string
  {
    if e.toRecipients.Some? then Text.Join(e.toRecipients.value, ", ") else ""
  }

  /** The lines of one email block (formatEmail), in push order. */
  function EmailLines(e: EngagementEmail, index: nat): seq<Line>
  {
    [Raw(Heading(index))]
    + When(Js.Truthy(e.sentDate), Line(0, Sent, Js.Show(e.sentDate)))
    + When(Js.Truthy(e.subject), Line(0, Subject, Js.Show(e.subject)))
    + When(HasRecipients(e), Line(0, To, RecipientsText(e)))
    + When(Js.Truthy(e.status), Line(0, Status, Js.Show(e.status)))
    + When(Js.Truthy(e.messageId), Line(0, MessageId, Js.Show(e.messageId)))
  }

  method FormatEmail(e: EngagementEmail, index: nat) returns (text: string)
    ensures text == Block(EmailLines(e, index))
  {
    var lines := [Raw(Heading(index))];
    lines := PushWhen(lines, Js.Truthy(e.sentDate), Line(0, Sent, Js.Show(e.sentDate)));
    lines := PushWhen(lines, Js.Truthy(e.subject), Line(0, Subject, Js.Show(e.subject)));
    if e.toRecipients.Some? && |e.toRecipients.value| > 0 {
      lines := lines + [Line(0, To, Text.Join(e.toRecipients.value, ", "))];
    }
    lines := PushWhen(lines, Js.Truthy(e.status), Line(0, Status, Js.Show(e.status)));
    lines := PushWhen(lines, Js.Truthy(e.messageId), Line(0, MessageId, Js.Show(e.messageId)));
    assert lines == EmailLines(e, index);
    text := Block(lines);
  }

  /** What an email block shows under each label. */
  function EmailField(e: EngagementEmail, t: Label): Option<string>
  {
    match t
    case Sent => Shown(e.sentDate)
    case Subject => Shown(e.subject)
    case To => if HasRecipients(e) then Some(Text.Join(e.toRecipients.value, ", ")) else None
    case Status => Shown(e.status)
    case MessageId => Shown(e.messageId)
    case _ => None
  }

  /** The heading comes first, followed by at most five labelled lines. */
  lemma EmailHead(e: EngagementEmail, index: nat)
    ensures 1 <= |EmailLines(e, index)| <= 6
    ensures EmailLines(e, index)[0] == Raw(Heading(index))
    ensures forall k :: 1 <= k < |EmailLines(e, index)| ==> EmailLines(e, index)[k].Line?
  {
  }

  lemma EmailShows(e: EngagementEmail, index: nat, t: Label)
    ensures ShowsAs(EmailLines(e, index), t, EmailField(e, t))
  {
  }

  /** An empty or absent recipient list prints no `To:` line. */
  lemma NoRecipientsNoTo(e: EngagementEmail, index: nat)
    requires e.toRecipients.None? || e.toRecipients == Some([])
    ensures Lacks(EmailLines(e, index), To)
  {
    EmailShows(e, index, To);
  }

  // ----- the get-engagement-emails handler -----

  function HistoryCall(code: string): (op: Api.Operation)
    ensures op.GetEngagementEmails? && op.code == code
  {
    Api.GetEngagementEmails(code)
  }

  /** The email blocks of a history, each numbered by its position in the list. */
  function EmailBlocks(es: seq<EngagementEmail>): (blocks: seq<string>)
    ensures |blocks| == |es|
  {
    seq(|es|, i requires 0 <= i < |es| => Block(EmailLines(es[i], i)))
  }

  /** The i-th block of a history opens with `Email #<i + 1>`. */
  lemma BlocksNumbered(es: seq<EngagementEmail>, i: nat)
    requires i < |es|
    ensures Text.StartsWith(EmailBlocks(es)[i], Heading(i))
  {
    EmailHead(es[i], i);
    BlockHead(EmailLines(es[i], i));
  }

  function HistoryText(rt: Js.Runtime, code: string, out: Errors.Outcome<Option<seq<EngagementEmail>>>): (text: string)
    ensures out.Threw? ==> text == ErrorText(rt, "Error retrieving engagement email history", out.error)
    ensures out.Returned? && (out.value.None? || |out.value.value| == 0) ==>
      text == "No emails found for engagement " + code + "."
    ensures out.Returned? && out.value.Some? && |out.value.value| > 0 ==>
      var es := out.value.value;
      text == "Email history for engagement " + code + " (" + Text.NatToString(|es|) + " email(s)):" + "\n\n"
              + Text.Join(EmailBlocks(es), Separator)
  {
    match out
    case Threw(e) => ErrorText(rt, "Error retrieving engagement email history", e)
    case Returned(None) => "No emails found for engagement " + code + "."
    case Returned(Some(es)) =>
      Listing("No emails found for engagement " + code + ".",
              "Email history for engagement " + code + " (" + Text.NatToString(|es|) + " email(s)):",
              EmailBlocks(es), Separator)
  }
}
