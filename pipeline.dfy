/**
 * The pipeline of `Generate` and `GenerateViewString` as functions of the
 * injected collaborators: what is returned or thrown, and which warnings are logged.
 */
module Pipeline {
  import opened Wrappers
  import opened Text
  import opened Domain
  import opened Derivations
  import opened ReviewMessages
  import opened TemplateSelection
  import opened ViewModels

  /** `IPathProvider.Get`: a template identifier to a (possibly null) path. */
  type PathProvider = string -> Option<string>
  /** `IViewGenerator.GenerateFromPath`: locator and view model to (possibly null) markup. */
  type ViewGenerator = (string, ViewModel) -> Option<string>

  datatype PageNumbers = Numeric | OtherPageNumbers(value: int)
  datatype HeaderRepeat = FirstPageOnly | OtherHeaderRepeat(value: int)
  datatype HeaderOptions = HeaderOptions(headerRepeat: HeaderRepeat, headerHtml: string)
  datatype PdfOptions = PdfOptions(pageNumbers: PageNumbers, headerOptions: HeaderOptions)

  /** The document `GenerateFromHtml` returns; `ToBytes()` gives its (possibly null) bytes. */
  datatype PdfDocument = PdfDocument(bytes: Option<Bytes>)

  /** `IPdfGenerator.GenerateFromHtml(html, options)`: markup and options to a (possibly null) document. */
  type PdfGenerator = (string, PdfOptions) -> Option<PdfDocument>

  /** `IDataContext`: its (possibly null) `Applications` collection. */
  datatype DataContext = DataContext(applications: Option<seq<Application>>)

  /** The injected `ILogger`; its output is the list of warnings. */
  datatype Logger = Logger

  /** The three warnings the generator can log. */
  datatype Warning =
    | NoApplicationFound(id: Guid)
    | UnableToGenerateView
    | UnsupportedState(state: ApplicationState)

  /**
   * The generator's fields after construction, plus the two external
   * definitions it uses: `ToDescription` and `PdfConstants.Header`.
   */
  datatype Collaborators = Collaborators(
    dataContext: Option<DataContext>,
    templatePathProvider: PathProvider,
    viewGenerator: Option<ViewGenerator>,
    configuration: Option<Configuration>,
    pdfGenerator: Option<PdfGenerator>,
    describe: Describer,
    headerHtml: string)

  /** What a call returns or throws, and the warnings it logs on the way. */
  datatype Run<+T> = Run(outcome: Outcome<T>, warnings: seq<Warning>)

  /** The constructor's parameters; `None` is a null argument. */
  datatype ConstructorArguments = ConstructorArguments(
    dataContext: Option<DataContext>,
    templatePathProvider: Option<PathProvider>,
    viewGenerator: Option<ViewGenerator>,
    configuration: Option<Configuration>,
    pdfGenerator: Option<PdfGenerator>,
    logger: Option<Logger>)

  /**
   * The constructor's checks as written, in order: it throws when the data
   * context is NOT null, then when the path provider or the logger is null.
   */
  function ConstructorGuard(args: ConstructorArguments): (r: Option<Exception>)
    ensures r.None? <==> args.dataContext.None? && args.templatePathProvider.Some? && args.logger.Some?
    ensures args.dataContext.Some? ==> r == Some(ArgumentNull("dataContext"))
    ensures r.Some? ==> r.value.ArgumentNull?
  {
    if args.dataContext.Some? then Some(ArgumentNull("dataContext"))
    else if args.templatePathProvider.None? then Some(ArgumentNull("templatePathProvider"))
    else if args.logger.None? then Some(ArgumentNull("logger"))
    else None
  }

  /** The evidently intended checks: every one of the three rejects a null argument. */
  function CorrectedConstructorGuard(args: ConstructorArguments): (r: Option<Exception>)
    ensures r.None? <==> args.dataContext.Some? && args.templatePathProvider.Some? && args.logger.Some?
    ensures args.dataContext.None? ==> r == Some(ArgumentNull("dataContext"))
    ensures r.Some? ==> r.value.ArgumentNull?
  {
    if args.dataContext.None? then Some(ArgumentNull("dataContext"))
    else if args.templatePathProvider.None? then Some(ArgumentNull("templatePathProvider"))
    else if args.logger.None? then Some(ArgumentNull("logger"))
    else None
  }

  /** The fields a successful construction stores (lines 29-34). */
  function CollaboratorsOf(args: ConstructorArguments, describe: Describer, headerHtml: string): Collaborators
    requires args.templatePathProvider.Some?
  {
    Collaborators(args.dataContext, args.templatePathProvider.value, args.viewGenerator,
                  args.configuration, args.pdfGenerator, describe, headerHtml)
  }

  /** `Where(app => app.Id == id)`, in order. */
  function Matching(apps: seq<Application>, id: Guid): (r: seq<Application>)
    ensures |r| <= |apps|
    ensures forall a :: a in r <==> a in apps && a.id == id
  {
    if apps == [] then []
    else (if apps[0].id == id then [apps[0]] else []) + Matching(apps[1..], id)
  }

  /** Each matching record is kept as many times as it is stored; no other record is kept. */
  lemma {:induction false} MatchingCounts(apps: seq<Application>, id: Guid)
    ensures forall a :: multiset(Matching(apps, id))[a] == if a.id == id then multiset(apps)[a] else 0
    decreases |apps|
  {
    if apps != [] {
      MatchingCounts(apps[1..], id);
      assert apps == [apps[0]] + apps[1..];
    }
  }

  /** LINQ `Single(app => app.Id == id)`: the one match, or an exception for none or several. */
  function Single(apps: seq<Application>, id: Guid): (r: Outcome<Application>)
    ensures r.Returned? <==> |Matching(apps, id)| == 1
    ensures r.Returned? ==> r.value in apps && r.value.id == id
    ensures r.Returned? ==> forall b :: b in apps && b.id == id ==> b == r.value
    ensures r == Threw(InvalidOperation(NoMatchingElement)) <==> forall b :: b in apps ==> b.id != id
    ensures r.Threw? ==> r.exception.InvalidOperation?
  {
    var m := Matching(apps, id);
    if |m| == 0 then Threw(InvalidOperation(NoMatchingElement))
    else if |m| == 1 then
      assert m[0] in m;
      Returned(m[0])
    else
      assert m[0] in m;
      Threw(InvalidOperation(MoreThanOneMatchingElement))
  }

  /**
   * `DataContext.Applications.Single(...)`: LINQ throws `ArgumentNullException`
   * for a null source, otherwise this is `Single`.
   */
  function Lookup(dc: DataContext, id: Guid): (r: Outcome<Application>)
    ensures dc.applications.None? ==> r == Threw(ArgumentNull("source"))
    ensures dc.applications.Some? ==> r == Single(dc.applications.value, id)
  {
    match dc.applications
    case None => Threw(ArgumentNull("source"))
    case Some(apps) => Single(apps, id)
  }

  /** A store holding one record with the id, once, gives exactly that record. */
  lemma SingleFindsUniqueRecord(apps: seq<Application>, id: Guid, a: Application)
    requires a.id == id && multiset(apps)[a] == 1
    requires forall b :: b in apps && b != a ==> b.id != id
    ensures Single(apps, id) == Returned(a)
  {
    var m := Matching(apps, id);
    MatchingCounts(apps, id);
    assert multiset(m) == multiset{a} by {
      forall x ensures multiset(m)[x] == multiset{a}[x] {
        assert multiset(apps)[x] > 0 ==> x in apps;
      }
    }
    assert |m| == |multiset(m)| == 1;
    assert m[0] in multiset(m);
  }

  /** The fixed options of lines 45-53. */
  function FixedPdfOptions(headerHtml: string): PdfOptions {
    PdfOptions(Numeric, HeaderOptions(FirstPageOnly, headerHtml))
  }

  /**
   * `GenerateViewString` as written: `baseUri.EndsWith` on a null base throws;
   * the base is normalised as at line 69; a supported state builds its view
   * model and renders it at `baseUri + path`; any other state logs a warning
   * and gives null.
   */
  function ViewStringRun(c: Collaborators, app: Application, baseUri: Option<string>): Run<Option<string>> {
    match baseUri
    case None => Run(Threw(NullReference), [])
    case Some(b) =>
      var uri := NormalizeBaseUriAsWritten(b);
      match TemplateId(app.state)
      case None => Run(Returned(None), [UnsupportedState(app.state)])
      case Some(templateId) =>
        var path := c.templatePathProvider(templateId);
        match BuildViewModel(app, c.configuration, c.describe)
        case Threw(e) => Run(Threw(e), [])
        case Returned(vm) =>
          match c.viewGenerator
          case None => Run(Threw(NullReference), [])
          case Some(render) => Run(Returned(render(Locator(uri, path), vm)), [])
  }

  /**
   * Lines 44-58: only markup that is not null or blank reaches the PDF
   * converter; a null document makes `ToBytes()` throw, and null bytes are
   * returned as they are.
   */
  function ConvertRun(c: Collaborators, view: Run<Option<string>>): Run<Option<Bytes>> {
    match view.outcome
    case Threw(e) => Run(Threw(e), view.warnings)
    case Returned(markup) =>
      if !IsNullOrWhiteSpace(markup) then
        match c.pdfGenerator
        case None => Run(Threw(NullReference), view.warnings)
        case Some(pdf) =>
          match pdf(markup.value, FixedPdfOptions(c.headerHtml))
          case None => Run(Threw(NullReference), view.warnings)
          case Some(document) => Run(Returned(document.bytes), view.warnings)
      else
        Run(Returned(None), view.warnings + [UnableToGenerateView])
  }

  /**
   * `Generate` as written: dereferencing a null data context throws; the
   * lookup throws for a null collection and unless exactly one application
   * matches; the match is never null.
   */
  function GenerateRun(c: Collaborators, id: Guid, baseUri: Option<string>): Run<Option<Bytes>> {
    match c.dataContext
    case None => Run(Threw(NullReference), [])
    case Some(dc) =>
      match Lookup(dc, id)
      case Threw(e) => Run(Threw(e), [])
      case Returned(app) => ConvertRun(c, ViewStringRun(c, app, baseUri))
  }

  // ---------------------------------------------------------------------------
  // Properties of the pipeline

  /**
   * An unsupported state logs its warning and yields no view, whatever the
   * collaborators are: neither the path provider nor the view generator is used.
   */
  lemma UnsupportedStateGivesNoView(c: Collaborators, app: Application, baseUri: string)
    requires !IsSupported(app.state)
    ensures ViewStringRun(c, app, Some(baseUri)) == Run(Returned(None), [UnsupportedState(app.state)])
  {
  }

  /**
   * A supported state, with configuration, view generator and (in review) the
   * review record present, renders the state's view model at the locator built
   * from the normalised base and the state's template path, and logs nothing.
   */
  lemma SupportedStateRenders(c: Collaborators, app: Application, baseUri: string)
    requires IsSupported(app.state)
    requires c.configuration.Some? && c.viewGenerator.Some?
    requires app.state.InReview? ==> app.currentReview.Some?
    ensures BuildViewModel(app, c.configuration, c.describe).Returned?
    ensures ViewStringRun(c, app, Some(baseUri))
            == Run(Returned(c.viewGenerator.value(
                     Locator(NormalizeBaseUriAsWritten(baseUri), c.templatePathProvider(TemplateId(app.state).value)),
                     BuildViewModel(app, c.configuration, c.describe).value)), [])
  {
  }

  /** `GenerateViewString` logs no warning other than the unsupported-state one. */
  lemma ViewStringWarnings(c: Collaborators, app: Application, baseUri: Option<string>)
    ensures var w := ViewStringRun(c, app, baseUri).warnings;
            w == [] || (w == [UnsupportedState(app.state)] && !IsSupported(app.state))
  {
  }

  /**
   * Once the application is found: blank markup logs "Unable to generate view."
   * and gives null; other markup is converted with the fixed options and its
   * bytes are returned. Bytes come back only for markup that is not blank.
   */
  lemma GenerateConvertsOnlyNonBlankViews(c: Collaborators, id: Guid, baseUri: Option<string>, app: Application)
    requires c.dataContext.Some? && Lookup(c.dataContext.value, id) == Returned(app)
    requires ViewStringRun(c, app, baseUri).outcome.Returned?
    ensures var view := ViewStringRun(c, app, baseUri);
            IsNullOrWhiteSpace(view.outcome.value) ==>
              GenerateRun(c, id, baseUri) == Run(Returned(None), view.warnings + [UnableToGenerateView])
    ensures var view := ViewStringRun(c, app, baseUri);
            !IsNullOrWhiteSpace(view.outcome.value) && c.pdfGenerator.Some? ==>
              match c.pdfGenerator.value(view.outcome.value.value, FixedPdfOptions(c.headerHtml))
              case None => GenerateRun(c, id, baseUri) == Run(Threw(NullReference), view.warnings)
              case Some(document) => GenerateRun(c, id, baseUri) == Run(Returned(document.bytes), view.warnings)
    ensures var r := GenerateRun(c, id, baseUri);
            r.outcome.Returned? && r.outcome.value.Some? ==> !IsNullOrWhiteSpace(ViewStringRun(c, app, baseUri).outcome.value)
  {
  }

  /** An unsupported state produces two warnings, the state one and then "Unable to generate view.". */
  lemma GenerateUnsupportedStateWarnsTwice(c: Collaborators, id: Guid, baseUri: string, app: Application)
    requires c.dataContext.Some? && Lookup(c.dataContext.value, id) == Returned(app)
    requires !IsSupported(app.state)
    ensures GenerateRun(c, id, Some(baseUri)) == Run(Returned(None), [UnsupportedState(app.state), UnableToGenerateView])
  {
    UnsupportedStateGivesNoView(c, app, baseUri);
  }

  /** The "No application found" branch is dead: `Single` throws instead of returning null. */
  lemma GenerateNeverReportsNotFound(c: Collaborators, id: Guid, baseUri: Option<string>, other: Guid)
    ensures NoApplicationFound(other) !in GenerateRun(c, id, baseUri).warnings
  {
    if c.dataContext.Some? {
      var found := Lookup(c.dataContext.value, id);
      if found.Returned? {
        var view := ViewStringRun(c, found.value, baseUri);
        ViewStringWarnings(c, found.value, baseUri);
        assert GenerateRun(c, id, baseUri) == ConvertRun(c, view);
        assert ConvertRun(c, view).warnings in {view.warnings, view.warnings + [UnableToGenerateView]};
      }
    }
  }

  /** A missing application surfaces as the exception `Single` throws, with no warning. */
  lemma GenerateMissingApplicationThrows(c: Collaborators, id: Guid, baseUri: Option<string>)
    requires c.dataContext.Some? && c.dataContext.value.applications.Some?
    requires forall b :: b in c.dataContext.value.applications.value ==> b.id != id
    ensures GenerateRun(c, id, baseUri) == Run(Threw(InvalidOperation(NoMatchingElement)), [])
  {
  }

  /**
   * As written, every successful construction leaves the data context null, so
   * every later `Generate` throws at line 39 and logs nothing.
   */
  lemma AsWrittenGeneratorAlwaysThrows(args: ConstructorArguments, describe: Describer, headerHtml: string,
                                       id: Guid, baseUri: Option<string>)
    requires ConstructorGuard(args).None?
    ensures GenerateRun(CollaboratorsOf(args, describe, headerHtml), id, baseUri) == Run(Threw(NullReference), [])
  {
  }

  /**
   * With the corrected guard the data context is present, so `Generate`
   * reaches the lookup: a missing id gives `Single`'s exception and a found
   * application goes on to rendering and conversion.
   */
  lemma CorrectedGeneratorReachesLookup(args: ConstructorArguments, describe: Describer, headerHtml: string,
                                        id: Guid, baseUri: Option<string>)
    requires CorrectedConstructorGuard(args).None?
    ensures var c := CollaboratorsOf(args, describe, headerHtml);
            args.dataContext.value.applications.Some?
            && (forall b :: b in args.dataContext.value.applications.value ==> b.id != id) ==>
              GenerateRun(c, id, baseUri) == Run(Threw(InvalidOperation(NoMatchingElement)), [])
    ensures var c := CollaboratorsOf(args, describe, headerHtml);
            Lookup(args.dataContext.value, id).Returned? ==>
              GenerateRun(c, id, baseUri)
              == ConvertRun(c, ViewStringRun(c, Lookup(args.dataContext.value, id).value, baseUri))
  {
  }

  // ---------------------------------------------------------------------------
  // Two worked scenarios

  /**
   * An activated, non-legal-entity application with funds (100, 10) and
   * (200, 20) at tax rate 0.1 totals 27 and shows no legal entity.
   */
  lemma ActivatedScenario(app: Application, config: Configuration, describe: Describer)
    requires app.state == Activated && !app.isLegalEntity
    requires app.products == [Product([Fund(100.0, 10.0)]), Product([Fund(200.0, 20.0)])]
    requires config.taxRate == 0.1
    ensures BuildViewModel(app, Some(config), describe).Returned?
    ensures var vm := BuildViewModel(app, Some(config), describe).value;
            vm.ActivatedView? && vm.activated.portfolioTotalAmount == 27.0 && vm.activated.legalEntity == None
            && vm.activated.portfolioFunds == [Fund(100.0, 10.0), Fund(200.0, 20.0)]
  {
    var ps := app.products;
    assert ps == [ps[0]] + [ps[1]];
    FlattenAppend([ps[0]], [ps[1]]);
    FlattenSingle(ps[0]);
    FlattenSingle(ps[1]);
    var funds := [Fund(100.0, 10.0), Fund(200.0, 20.0)];
    assert PortfolioFunds(app) == funds;
    assert funds[1..][1..] == [];
    assert FundsTotal(funds, 0.1) == 27.0;
  }

  /**
   * An in-review application whose reason is "bank verification pending" gets
   * the bank message, and the review record reaches the view model unchanged.
   */
  lemma InReviewScenario(app: Application, review: Review, config: Configuration, describe: Describer)
    requires app.state == InReview && app.currentReview == Some(review)
    requires review.reason == Some("bank verification pending")
    ensures BuildViewModel(app, Some(config), describe).Returned?
    ensures var vm := BuildViewModel(app, Some(config), describe).value;
            vm.InReviewView? && vm.inReview.inReviewMessage == PREFIX + BANK_SUFFIX
            && vm.inReview.inReviewInformation == review
  {
    BankVerificationPendingExample();
  }
}
