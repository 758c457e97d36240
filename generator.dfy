/** `PdfApplicationDocumentGenerator`: the injected collaborators and the two generation methods. */
module Generator {
  import opened Wrappers
  import opened Text
  import opened Domain
  import opened TemplateSelection
  import opened ViewModels
  import opened Pipeline

  class PdfApplicationDocumentGenerator {
    const dataContext: Option<DataContext>
    const templatePathProvider: PathProvider
    /** `View_Generator` is a public, writable field. */
    var viewGenerator: Option<ViewGenerator>
    const configuration: Option<Configuration>
    const pdfGenerator: Option<PdfGenerator>
    /** `ToDescription`, an extension method outside the class. */
    const describe: Describer
    /** `PdfConstants.Header`, a constant outside the class. */
    const headerHtml: string
    /** The warnings written to the injected logger, oldest first. */
    var diagnostics: seq<Warning>

    /** The collaborators the generation methods see now. */
    function Current(): Collaborators
      reads this
    {
      Collaborators(dataContext, templatePathProvider, viewGenerator, configuration, pdfGenerator, describe, headerHtml)
    }

    /**
     * Lines 29-34: store the injected collaborators. This constructor skips
     * the guard of lines 26-33, so it alone can build instances the C# class
     * never can (a non-null data context, a null logger); only `Create`
     * models `new PdfApplicationDocumentGenerator(...)`.
     */
    constructor (args: ConstructorArguments, describe: Describer, headerHtml: string)
      requires args.templatePathProvider.Some?
      ensures Current() == CollaboratorsOf(args, describe, headerHtml)
      ensures diagnostics == []
    {
      dataContext := args.dataContext;
      templatePathProvider := args.templatePathProvider.value;
      viewGenerator := args.viewGenerator;
      configuration := args.configuration;
      pdfGenerator := args.pdfGenerator;
      this.describe := describe;
      this.headerHtml := headerHtml;
      diagnostics := [];
    }

    /**
     * `new PdfApplicationDocumentGenerator(...)` as written: the checks of
     * lines 26-33, then the constructor. Every instance it returns has a null
     * data context.
     */
    static method Create(args: ConstructorArguments, describe: Describer, headerHtml: string)
      returns (r: Result<PdfApplicationDocumentGenerator, Exception>)
      ensures ConstructorGuard(args).Some? ==> r == Failure(ConstructorGuard(args).value)
      ensures ConstructorGuard(args).None? ==>
                r.Success? && fresh(r.value) && r.value.dataContext.None?
                && r.value.Current() == CollaboratorsOf(args, describe, headerHtml) && r.value.diagnostics == []
    {
      if args.dataContext.Some? {
        return Failure(ArgumentNull("dataContext"));
      }
      if args.templatePathProvider.None? {
        return Failure(ArgumentNull("templatePathProvider"));
      }
      if args.logger.None? {
        return Failure(ArgumentNull("logger"));
      }
      var g := new PdfApplicationDocumentGenerator(args, describe, headerHtml);
      r := Success(g);
    }

    /**
     * `GenerateViewString`: normalise the base location, then dispatch on the
     * state. Logs the unsupported-state warning when there is no template.
     */
    method GenerateViewString(app: Application, baseUri: Option<string>) returns (r: Outcome<Option<string>>)
      modifies this
      ensures viewGenerator == old(viewGenerator)
      ensures r == ViewStringRun(old(Current()), app, baseUri).outcome
      ensures diagnostics == old(diagnostics) + ViewStringRun(old(Current()), app, baseUri).warnings
    {
      if baseUri.None? {
        return Threw(NullReference);
      }
      var uri := baseUri.value;
      if EndsWith(uri, "/") {
        uri := uri[|uri| - 1..];
      }
      match app.state
      case Pending =>
        var path := templatePathProvider("PendingApplication");
        if configuration.None? {
          return Threw(NullReference);
        }
        var vm := BuildPending(app, configuration.value, describe);
        if viewGenerator.None? {
          return Threw(NullReference);
        }
        r := Returned(viewGenerator.value(Locator(uri, path), PendingView(vm)));
      case Activated =>
        var path := templatePathProvider("ActivatedApplication");
        if configuration.None? {
          return Threw(NullReference);
        }
        var vm := BuildActivated(app, configuration.value, describe);
        if viewGenerator.None? {
          return Threw(NullReference);
        }
        r := Returned(viewGenerator.value(Locator(uri, path), ActivatedView(vm)));
      case InReview =>
        var path := templatePathProvider("InReviewApplication");
        if app.currentReview.None? {
          return Threw(NullReference);
        }
        var review := app.currentReview.value;
        if configuration.None? {
          return Threw(NullReference);
        }
        var vm := BuildInReview(app, review, configuration.value, describe);
        if viewGenerator.None? {
          return Threw(NullReference);
        }
        r := Returned(viewGenerator.value(Locator(uri, path), InReviewView(vm)));
      case OtherState(_) =>
        diagnostics := diagnostics + [UnsupportedState(app.state)];
        r := Returned(None);
    }

    /**
     * `Generate`: look the application up, render its view and convert
     * markup that is not blank; otherwise log and return null.
     */
    method Generate(applicationId: Guid, baseUri: Option<string>) returns (r: Outcome<Option<Bytes>>)
      modifies this
      ensures viewGenerator == old(viewGenerator)
      ensures r == GenerateRun(old(Current()), applicationId, baseUri).outcome
      ensures diagnostics == old(diagnostics) + GenerateRun(old(Current()), applicationId, baseUri).warnings
    {
      if dataContext.None? {
        return Threw(NullReference);
      }
      var applications := dataContext.value.applications;
      if applications.None? {
        return Threw(ArgumentNull("source"));
      }
      var found := Single(applications.value, applicationId);
      if found.Threw? {
        return Threw(found.exception);
      }
      var application := found.value;
      var view := GenerateViewString(application, baseUri);
      if view.Threw? {
        return Threw(view.exception);
      }
      if !IsNullOrWhiteSpace(view.value) {
        var options := FixedPdfOptions(headerHtml);
        if pdfGenerator.None? {
          return Threw(NullReference);
        }
        var document := pdfGenerator.value(view.value.value, options);
        if document.None? {
          return Threw(NullReference);
        }
        return Returned(document.value.bytes);
      }
      diagnostics := diagnostics + [UnableToGenerateView];
      r := Returned(None);
    }
  }

  /** On an instance built as written, `Generate` throws and logs nothing. */
  method GenerateAfterCreate(args: ConstructorArguments, describe: Describer, headerHtml: string,
                             id: Guid, baseUri: Option<string>)
    returns (r: Result<Outcome<Option<Bytes>>, Exception>)
    ensures ConstructorGuard(args).Some? ==> r == Failure(ConstructorGuard(args).value)
    ensures ConstructorGuard(args).None? ==> r == Success(Threw(NullReference))
  {
    var created := PdfApplicationDocumentGenerator.Create(args, describe, headerHtml);
    if created.Failure? {
      return Failure(created.error);
    }
    var g := created.value;
    var bytes := g.Generate(id, baseUri);
    AsWrittenGeneratorAlwaysThrows(args, describe, headerHtml, id, baseUri);
    r := Success(bytes);
  }
}
