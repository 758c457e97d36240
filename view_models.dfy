/** The three per-state view models and how each is filled in. */
module ViewModels {
  import opened Wrappers
  import opened Domain
  import opened Derivations
  import opened ReviewMessages
  import opened TemplateSelection

  /** `ToDescription()` on the state enumeration, an external mapping. */
  type Describer = ApplicationState -> string

  datatype PendingApplicationViewModel = PendingApplicationViewModel(
    referenceNumber: string,
    state: string,
    fullName: string,
    appliedOn: DateTime,
    supportEmail: string,
    signature: string)

  datatype ActivatedApplicationViewModel = ActivatedApplicationViewModel(
    referenceNumber: string,
    state: string,
    fullName: string,
    legalEntity: Option<LegalEntity>,
    portfolioFunds: seq<Fund>,
    portfolioTotalAmount: real,
    appliedOn: DateTime,
    supportEmail: string,
    signature: string)

  datatype InReviewApplicationViewModel = InReviewApplicationViewModel(
    referenceNumber: string,
    state: string,
    fullName: string,
    legalEntity: Option<LegalEntity>,
    portfolioFunds: seq<Fund>,
    portfolioTotalAmount: real,
    inReviewMessage: string,
    inReviewInformation: Review,
    appliedOn: DateTime,
    supportEmail: string,
    signature: string)

  /** The object handed to the view generator. */
  datatype ViewModel =
    | PendingView(pending: PendingApplicationViewModel)
    | ActivatedView(activated: ActivatedApplicationViewModel)
    | InReviewView(inReview: InReviewApplicationViewModel)

  /** The pending view model: the application's header data and the configured contact details. */
  function BuildPending(app: Application, config: Configuration, describe: Describer): (vm: PendingApplicationViewModel)
    ensures vm.referenceNumber == app.referenceNumber && vm.appliedOn == app.date
    ensures vm.state == describe(app.state) && vm.fullName == FullName(app)
    ensures vm.supportEmail == config.supportEmail && vm.signature == config.signature
  {
    PendingApplicationViewModel(
      app.referenceNumber, describe(app.state), FullName(app), app.date,
      config.supportEmail, config.signature)
  }

  /**
   * The activated view model: the pending fields, the legal entity only for a
   * legal entity, and the portfolio with a total that agrees with its funds.
   */
  function BuildActivated(app: Application, config: Configuration, describe: Describer): (vm: ActivatedApplicationViewModel)
    ensures var p := BuildPending(app, config, describe);
            vm.referenceNumber == p.referenceNumber && vm.state == p.state && vm.fullName == p.fullName
            && vm.appliedOn == p.appliedOn && vm.supportEmail == p.supportEmail && vm.signature == p.signature
    ensures !app.isLegalEntity ==> vm.legalEntity == None
    ensures app.isLegalEntity ==> vm.legalEntity == app.legalEntity
    ensures vm.portfolioFunds == PortfolioFunds(app)
    ensures vm.portfolioTotalAmount == FundsTotal(vm.portfolioFunds, config.taxRate)
  {
    ActivatedApplicationViewModel(
      app.referenceNumber, describe(app.state), FullName(app),
      if app.isLegalEntity then app.legalEntity else None,
      PortfolioFunds(app), PortfolioTotalAmount(app, config.taxRate),
      app.date, config.supportEmail, config.signature)
  }

  /**
   * The in-review view model: every activated field, the composed review
   * message and the review record itself, unchanged.
   */
  function BuildInReview(app: Application, review: Review, config: Configuration, describe: Describer): (vm: InReviewApplicationViewModel)
    ensures var a := BuildActivated(app, config, describe);
            vm.referenceNumber == a.referenceNumber && vm.state == a.state && vm.fullName == a.fullName
            && vm.legalEntity == a.legalEntity && vm.portfolioFunds == a.portfolioFunds
            && vm.portfolioTotalAmount == a.portfolioTotalAmount && vm.appliedOn == a.appliedOn
            && vm.supportEmail == a.supportEmail && vm.signature == a.signature
    ensures vm.inReviewMessage == ReviewMessage(review.reason)
    ensures vm.inReviewInformation == review
  {
    InReviewApplicationViewModel(
      app.referenceNumber, describe(app.state), FullName(app),
      if app.isLegalEntity then app.legalEntity else None,
      PortfolioFunds(app), PortfolioTotalAmount(app, config.taxRate),
      ReviewMessage(review.reason), review,
      app.date, config.supportEmail, config.signature)
  }

  /**
   * The view-model part of a supported `case`: a null configuration (every
   * case) or a null `CurrentReview` (the in-review case) is dereferenced and
   * throws.
   */
  function BuildViewModel(app: Application, config: Option<Configuration>, describe: Describer): (r: Outcome<ViewModel>)
    requires IsSupported(app.state)
    ensures r.Returned? <==> config.Some? && (app.state.InReview? ==> app.currentReview.Some?)
    ensures r.Threw? ==> r.exception == NullReference
    ensures r.Returned? ==> (app.state.Pending? <==> r.value.PendingView?)
    ensures r.Returned? ==> (app.state.Activated? <==> r.value.ActivatedView?)
    ensures r.Returned? ==> (app.state.InReview? <==> r.value.InReviewView?)
    ensures r.Returned? && app.state.Pending? ==>
      r.value == PendingView(BuildPending(app, config.value, describe))
    ensures r.Returned? && app.state.Activated? ==>
      r.value == ActivatedView(BuildActivated(app, config.value, describe))
    ensures r.Returned? && app.state.InReview? ==>
      r.value == InReviewView(BuildInReview(app, app.currentReview.value, config.value, describe))
  {
    match app.state
    case Pending =>
      if config.None? then Threw(NullReference)
      else Returned(PendingView(BuildPending(app, config.value, describe)))
    case Activated =>
      if config.None? then Threw(NullReference)
      else Returned(ActivatedView(BuildActivated(app, config.value, describe)))
    case InReview =>
      if app.currentReview.None? || config.None? then Threw(NullReference)
      else Returned(InReviewView(BuildInReview(app, app.currentReview.value, config.value, describe)))
  }
}
