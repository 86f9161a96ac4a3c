/**
 * The API records the tools render, with the fields the renderers read.
 * An optional property is an `Option`; `type` is spelled `kind`. The numbers
 * the API returns are `real`.
 */
module Records {
  import opened Wrappers

  /** `{ code, name }`, as used for user, client, template and service references. */
  datatype Ref = Ref(code: string, name: string)

  /** `{ code?, name? }`, as used by engagement settings and template themes. */
  datatype OptRef = OptRef(code: Option<string>, name: Option<string>)

  datatype Client = Client(
    code: string,
    name: string,
    kind: Option<string>,
    status: Option<string>,
    manager: Option<Ref>,
    partner: Option<Ref>,
    createdDate: Option<string>,
    updatedDate: Option<string>)

  datatype ClientContact = ClientContact(
    code: string,
    firstName: Option<string>,
    lastName: Option<string>,
    email: Option<string>,
    phone: Option<string>,
    kind: Option<string>,
    isPrimary: Option<bool>)

  datatype ClientNote = ClientNote(
    code: string,
    content: string,
    isPinned: Option<bool>,
    createdAt: Option<string>,
    createdBy: Option<string>)

  datatype Task = Task(
    code: string,
    name: string,
    description: Option<string>,
    status: Option<string>,
    dueDate: Option<string>,
    clientCode: Option<string>,
    assignedTo: Option<string>,
    category: Option<string>,
    createdAt: Option<string>,
    updatedAt: Option<string>)

  datatype Acceptance = Acceptance(acceptedDate: Option<string>)

  datatype Engagement = Engagement(
    code: string,
    client: Option<Ref>,
    date: Option<string>,
    status: Option<string>,
    kind: Option<string>,
    typeName: Option<string>,
    recipientFirstName: Option<string>,
    recipientLastName: Option<string>,
    recipientEmail: Option<string>,
    proposalTemplate: Option<Ref>,
    lofETemplate: Option<Ref>,
    acceptance: Option<Acceptance>,
    lastViewed: Option<string>,
    annualValue: Option<real>,
    numberOfServices: Option<real>,
    link: Option<string>)

  datatype EngagementEmail = EngagementEmail(
    messageId: Option<string>,
    sentDate: Option<string>,
    subject: Option<string>,
    toRecipients: Option<seq<string>>,
    status: Option<string>)

  /** A `Record<string, string>`, in `Object.entries` order. */
  type Answers = seq<(string, string)>

  datatype ClientBillableService = ClientBillableService(
    code: Option<string>,
    billableService: Option<Ref>,
    billingFrequency: Option<string>,
    price: Option<real>,
    overridePricing: Option<bool>,
    priceAdjustmentPercentage: Option<real>,
    calculatedPrice: Option<real>,
    startDate: Option<string>,
    endDate: Option<string>,
    status: Option<string>,
    pricingAnswers: Option<Answers>)

  datatype PricingFactorOption = PricingFactorOption(name: Option<string>, value: Option<real>)

  datatype PricingFactor = PricingFactor(description: Option<string>, options: Option<seq<PricingFactorOption>>)

  datatype RevenueRangeOverride = RevenueRangeOverride(
    revenueRangeCode: Option<string>,
    overridePrice: Option<real>,
    overrideDescription: Option<string>)

  datatype PricingOption = PricingOption(
    frequency: Option<string>,
    price: Option<real>,
    revenueRangeOverrides: Option<seq<RevenueRangeOverride>>)

  datatype BillableService = BillableService(
    code: Option<string>,
    name: Option<string>,
    description: Option<string>,
    isArchived: Option<bool>,
    accountingCode: Option<string>,
    category: Option<string>,
    clientTypes: Option<seq<string>>,
    pricing: Option<seq<PricingOption>>,
    pricingFactors: Option<seq<PricingFactor>>,
    createdDate: Option<string>,
    updatedDate: Option<string>)

  datatype DocumentTemplate = DocumentTemplate(
    code: Option<string>,
    name: Option<string>,
    kind: Option<string>,
    description: Option<string>,
    isActive: Option<bool>,
    defaultDesignTheme: Option<OptRef>)

  datatype EngagementSettings = EngagementSettings(
    designTheme: Option<OptRef>,
    showPracticeName: Option<bool>,
    attachPDFs: Option<bool>,
    requestDdMandate: Option<bool>,
    notifyClientManagerOnAcceptance: Option<bool>,
    notifyPartnerOnAcceptance: Option<bool>,
    introContentBlock: Option<OptRef>,
    emailContentBlock: Option<OptRef>,
    signaturePageContentBlock: Option<OptRef>,
    thankYouContentBlock: Option<OptRef>,
    thankYouEmailContentBlock: Option<OptRef>,
    acceptanceTask: Option<OptRef>)

  datatype ServicePackageItem = ServicePackageItem(
    billableServiceCode: Option<string>,
    billableServiceName: Option<string>,
    billingFrequency: Option<string>,
    overridePricing: Option<bool>,
    price: Option<real>,
    pricingAnswers: Option<Answers>)

  datatype ServicePackage = ServicePackage(
    code: Option<string>,
    name: Option<string>,
    description: Option<string>,
    isArchived: Option<bool>,
    totalAnnualValue: Option<real>,
    numberOfServices: Option<real>,
    items: Option<seq<ServicePackageItem>>,
    createdDate: Option<string>,
    updatedDate: Option<string>)
}
