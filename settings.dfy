/**
 * The get-engagement-settings tool: the tenant's engagement defaults, five
 * Yes/No flags and up to seven named references.
 */
module SettingsTools {
  import opened Wrappers
  import Js
  import Errors
  import Api = SodiumClient
  import opened Records
  import opened Report

  /** `if (ref?.name)`: a reference line is printed only for a present reference with a non-empty name. */
  predicate Named(r: Option<OptRef>)
  {
    r.Some? && Js.Truthy(r.value.name)
  }

  /** `<name> (<code>)`; an absent code prints as "undefined". Only read for a named reference. */
  function RefText(r: Option<OptRef>): string
  {
    if r.Some? then Js.Show(r.value.name) + " (" + Js.Show(r.value.code) + ")" else ""
  }

  /** The Design Theme line, when the theme is named. */
  function ThemeLines(s: EngagementSettings): seq<Line>
  {
    When(Named(s.designTheme), Line(0, DesignTheme, RefText(s.designTheme)))
  }

  /** The five flag lines, always printed, in this order. */
  function FlagLines(s: EngagementSettings): seq<Line>
  {
    [Line(0, ShowPracticeName, Js.YesNo(s.showPracticeName)),
     Line(0, AttachPdfs, Js.YesNo(s.attachPDFs)),
     Line(0, RequestDdMandate, Js.YesNo(s.requestDdMandate)),
     Line(0, NotifyManager, Js.YesNo(s.notifyClientManagerOnAcceptance)),
     Line(0, NotifyPartner, Js.YesNo(s.notifyPartnerOnAcceptance))]
  }

  /** The content-block and acceptance-task lines, each when its reference is named. */
  function BlockLines(s: EngagementSettings): seq<Line>
  {
    When(Named(s.introContentBlock), Line(0, IntroBlock, RefText(s.introContentBlock)))
    + When(Named(s.emailContentBlock), Line(0, EmailBlock, RefText(s.emailContentBlock)))
    + When(Named(s.signaturePageContentBlock), Line(0, SignatureBlock, RefText(s.signaturePageContentBlock)))
    + When(Named(s.thankYouContentBlock), Line(0, ThankYouBlock, RefText(s.thankYouContentBlock)))
    + When(Named(s.thankYouEmailContentBlock), Line(0, ThankYouEmailBlock, RefText(s.thankYouEmailContentBlock)))
    + When(Named(s.acceptanceTask), Line(0, AcceptanceTask, RefText(s.acceptanceTask)))
  }

  /** The lines of the settings block (formatSettings), in push order. */
  function SettingsLines(s: EngagementSettings): seq<Line>
  {
    ThemeLines(s) + FlagLines(s) + BlockLines(s)
  }

  method FormatSettings(s: EngagementSettings) returns (text: string)
    ensures text == Block(SettingsLines(s))
  {
    var lines := PushWhen([], Named(s.designTheme), Line(0, DesignTheme, RefText(s.designTheme)));
    assert lines == ThemeLines(s);
    lines := lines + [Line(0, ShowPracticeName, Js.YesNo(s.showPracticeName))];
    lines := lines + [Line(0, AttachPdfs, Js.YesNo(s.attachPDFs))];
    lines := lines + [Line(0, RequestDdMandate, Js.YesNo(s.requestDdMandate))];
    lines := lines + [Line(0, NotifyManager, Js.YesNo(s.notifyClientManagerOnAcceptance))];
    lines := lines + [Line(0, NotifyPartner, Js.YesNo(s.notifyPartnerOnAcceptance))];
    assert lines == ThemeLines(s) + FlagLines(s);
    lines := PushBlocks(s, lines);
    text := Block(lines);
  }

  /** The six reference pushes after the flags. */
  method PushBlocks(s: EngagementSettings, before: seq<Line>) returns (lines: seq<Line>)
    ensures lines == before + BlockLines(s)
  {
    var w1 := When(Named(s.introContentBlock), Line(0, IntroBlock, RefText(s.introContentBlock)));
    var w2 := When(Named(s.emailContentBlock), Line(0, EmailBlock, RefText(s.emailContentBlock)));
    var w3 := When(Named(s.signaturePageContentBlock), Line(0, SignatureBlock, RefText(s.signaturePageContentBlock)));
    var w4 := When(Named(s.thankYouContentBlock), Line(0, ThankYouBlock, RefText(s.thankYouContentBlock)));
    var w5 := When(Named(s.thankYouEmailContentBlock), Line(0, ThankYouEmailBlock, RefText(s.thankYouEmailContentBlock)));
    var w6 := When(Named(s.acceptanceTask), Line(0, AcceptanceTask, RefText(s.acceptanceTask)));
    lines := PushWhen(before, Named(s.introContentBlock), Line(0, IntroBlock, RefText(s.introContentBlock)));
    lines := PushWhen(lines, Named(s.emailContentBlock), Line(0, EmailBlock, RefText(s.emailContentBlock)));
    PushAfter(before, w1, w2);
    lines := PushWhen(lines, Named(s.signaturePageContentBlock), Line(0, SignatureBlock, RefText(s.signaturePageContentBlock)));
    PushAfter(before, w1 + w2, w3);
    lines := PushWhen(lines, Named(s.thankYouContentBlock), Line(0, ThankYouBlock, RefText(s.thankYouContentBlock)));
    PushAfter(before, w1 + w2 + w3, w4);
    lines := PushWhen(lines, Named(s.thankYouEmailContentBlock), Line(0, ThankYouEmailBlock, RefText(s.thankYouEmailContentBlock)));
    PushAfter(before, w1 + w2 + w3 + w4, w5);
    lines := PushWhen(lines, Named(s.acceptanceTask), Line(0, AcceptanceTask, RefText(s.acceptanceTask)));
    PushAfter(before, w1 + w2 + w3 + w4 + w5, w6);
  }

  /** The flag a label stands for, if it is a flag label. */
  function FlagFor(s: EngagementSettings, t: Label): Option<Option<bool>>
  {
    match t
    case ShowPracticeName => Some(s.showPracticeName)
    case AttachPdfs => Some(s.attachPDFs)
    case RequestDdMandate => Some(s.requestDdMandate)
    case NotifyManager => Some(s.notifyClientManagerOnAcceptance)
    case NotifyPartner => Some(s.notifyPartnerOnAcceptance)
    case _ => None
  }

  /** A reference shows as `<name> (<code>)` when it is named, and not at all otherwise. */
  function RefField(r: Option<OptRef>): (v: Option<string>)
    ensures v.Some? <==> Named(r)
  {
    if Named(r) then Some(RefText(r)) else None
  }

  /**
   * What the settings block shows under each label: every flag as Yes or
   * No, every named reference as `<name> (<code>)`, and nothing else.
   */
  function SettingsField(s: EngagementSettings, t: Label): Option<string>
  {
    match t
    case DesignTheme => RefField(s.designTheme)
    case ShowPracticeName => Some(Js.YesNo(s.showPracticeName))
    case AttachPdfs => Some(Js.YesNo(s.attachPDFs))
    case RequestDdMandate => Some(Js.YesNo(s.requestDdMandate))
    case NotifyManager => Some(Js.YesNo(s.notifyClientManagerOnAcceptance))
    case NotifyPartner => Some(Js.YesNo(s.notifyPartnerOnAcceptance))
    case IntroBlock => RefField(s.introContentBlock)
    case EmailBlock => RefField(s.emailContentBlock)
    case SignatureBlock => RefField(s.signaturePageContentBlock)
    case ThankYouBlock => RefField(s.thankYouContentBlock)
    case ThankYouEmailBlock => RefField(s.thankYouEmailContentBlock)
    case AcceptanceTask => RefField(s.acceptanceTask)
    case _ => None
  }

  lemma ThemeShows(s: EngagementSettings, t: Label)
    ensures ShowsAs(ThemeLines(s), t, if t == DesignTheme then SettingsField(s, t) else None)
  {
  }

  lemma FlagShows(s: EngagementSettings, t: Label)
    ensures ShowsAs(FlagLines(s), t,
      if t in {ShowPracticeName, AttachPdfs, RequestDdMandate, NotifyManager, NotifyPartner}
      then SettingsField(s, t) else None)
  {
  }

  lemma BlockShows(s: EngagementSettings, t: Label)
    ensures ShowsAs(BlockLines(s), t,
      if t in {IntroBlock, EmailBlock, SignatureBlock, ThankYouBlock, ThankYouEmailBlock, AcceptanceTask}
      then SettingsField(s, t) else None)
  {
    var r1, r2, r3 := s.introContentBlock, s.emailContentBlock, s.signaturePageContentBlock;
    var r4, r5, r6 := s.thankYouContentBlock, s.thankYouEmailContentBlock, s.acceptanceTask;
    ShowsSix(BlockLines(s), t,
      if t in {IntroBlock, EmailBlock, SignatureBlock, ThankYouBlock, ThankYouEmailBlock, AcceptanceTask}
      then SettingsField(s, t) else None,
      Named(r1), IntroBlock, RefText(r1), Named(r2), EmailBlock, RefText(r2),
      Named(r3), SignatureBlock, RefText(r3), Named(r4), ThankYouBlock, RefText(r4),
      Named(r5), ThankYouEmailBlock, RefText(r5), Named(r6), AcceptanceTask, RefText(r6));
  }

  lemma SettingsShows(s: EngagementSettings, t: Label)
    ensures ShowsAs(SettingsLines(s), t, SettingsField(s, t))
  {
    ThemeShows(s, t);
    FlagShows(s, t);
    BlockShows(s, t);
    var x := if t == DesignTheme then SettingsField(s, t) else None;
    var y := if t in {ShowPracticeName, AttachPdfs, RequestDdMandate, NotifyManager, NotifyPartner}
      then SettingsField(s, t) else None;
    var z := if t in {IntroBlock, EmailBlock, SignatureBlock, ThankYouBlock, ThankYouEmailBlock, AcceptanceTask}
      then SettingsField(s, t) else None;
    ShowsJoin(ThemeLines(s), FlagLines(s), t, x, y);
    ShowsJoin(ThemeLines(s) + FlagLines(s), BlockLines(s), t, if x.Some? then x else y, z);
  }

  /** Each flag line reads Yes exactly when its flag is `true`, and No when it is `false` or absent. */
  lemma FlagsYesNo(s: EngagementSettings, t: Label)
    requires FlagFor(s, t).Some?
    ensures Line(0, t, "Yes") in SettingsLines(s) <==> Js.IsTrue(FlagFor(s, t).value)
    ensures Line(0, t, "No") in SettingsLines(s) <==> !Js.IsTrue(FlagFor(s, t).value)
  {
    SettingsShows(s, t);
  }

  /**
   * Between five and twelve lines; the five flags sit together right after
   * the optional Design Theme line.
   */
  lemma SettingsShape(s: EngagementSettings)
    ensures 5 <= |SettingsLines(s)| <= 12
    ensures var k := if Named(s.designTheme) then 1 else 0;
      SettingsLines(s)[k..k + 5] == FlagLines(s)
  {
    var k := if Named(s.designTheme) then 1 else 0;
    assert |ThemeLines(s)| == k && |BlockLines(s)| <= 6;
    assert (ThemeLines(s) + FlagLines(s) + BlockLines(s))[k..k + 5] == FlagLines(s);
  }

  // ----- the get-engagement-settings handler -----

  function SettingsCall(): (op: Api.Operation)
    ensures op.GetEngagementSettings?
  {
    Api.GetEngagementSettings
  }

  function SettingsText(rt: Js.Runtime, out: Errors.Outcome<EngagementSettings>): (text: string)
    ensures out.Returned? ==> text == "Engagement Settings:\n\n" + Block(SettingsLines(out.value))
    ensures out.Threw? ==> text == ErrorText(rt, "Error getting engagement settings", out.error)
  {
    match out
    case Returned(s) => "Engagement Settings:\n\n" + Block(SettingsLines(s))
    case Threw(e) => ErrorText(rt, "Error getting engagement settings", e)
  }
}
