# PDF application document generator — a Dafny model

This project models `PdfApplicationDocumentGenerator`, the component that turns
one stored application into a downloadable PDF. `Generate(applicationId, baseUri)`
looks the application up and picks a template for its lifecycle state
(Pending, Activated or InReview). It fills in that state's view model: full
name, portfolio funds and total, and the review message for an application in
review. It renders the markup at `baseUri + path` and passes markup that is not
blank to the PDF converter, along with fixed page-number and header options.
Any other state gives no document and logs two warnings: first the
unsupported-state warning, then "Unable to generate view.".

The model follows the C# code as written, including two defects (see
"## Findings"):

- The trailing-"/" handling at line 69 keeps only the last character of the base URI.
- The constructor guard at line 26 is inverted.

The evidently intended behaviour is different in both places: the base
location should lose one trailing "/", and the constructor should reject a
null data context rather than a non-null one. The model keeps the behaviour of
the code and proves the intended behaviour as separate definitions.

An id with no application does not reach the "No application found" warning
at lines 61-63. The code calls LINQ `Single`, which throws
`InvalidOperationException` for it, so that branch can never run
(`Pipeline.GenerateNeverReportsNotFound`, `Pipeline.GenerateMissingApplicationThrows`).

Layout, one module per concern:

- `wrappers.dfy` (`Wrappers`): `Option`, which stands for a C# `null`, and `Result`.
- `text.dfy` (`Text`): ordinal `Contains`/`EndsWith` and `string.IsNullOrWhiteSpace`, all on `seq<char>`.
- `domain.dfy` (`Domain`): applications, products, funds, reviews and configuration. Also the exceptions and `Outcome` (returned or thrown).
- `derivations.dfy` (`Derivations`): `GetFullName`, `GetPortfolioFunds` and `GetPortfolioTotalAmount`.
- `review_message.dfy` (`ReviewMessages`): the first-match-wins review message.
- `templates.dfy` (`TemplateSelection`): template identifiers, base-URI handling (as written and corrected) and the locator.
- `view_models.dfy` (`ViewModels`): the three view-model records and how each is built.
- `pipeline.dfy` (`Pipeline`): `Generate` and `GenerateViewString` as functions of the injected collaborators, plus the constructor guard and LINQ `Single`. Each returns the outcome and the warnings logged.
- `generator.dfy` (`Generator`): the class with its fields. It has the as-written `Create` (constructor guard, then field assignment), which alone models `new PdfApplicationDocumentGenerator(...)`: the raw constructor skips the guard. It also has the imperative `GenerateViewString` and `Generate`, each proved equal to its pipeline function.

The external collaborators are parameters of the model. Each is a total
function that is given, not defined here:

- the template path provider: identifier to a possibly-null path
- the view generator: locator and view model to possibly-null markup
- the PDF converter: markup and options to a possibly-null document, whose `ToBytes()` is possibly null
- `ToDescription()`
- `PdfConstants.Header`

The data context holds a possibly-null sequence of applications. The logger is the class's
`diagnostics` list, to which each warning is appended.

## Model

| member | source | states |
|---|---|---|
| `Text.EndsWith` | PdfApplicationDocumentGenerator.cs:68 | ordinal `EndsWith`: the last characters of the string are the suffix; used by `NormalizeBaseUriAsWritten` and `StripTrailingSlash` |
| `Text.Contains` | PdfApplicationDocumentGenerator.cs:112-114 | ordinal `Contains`, a left-to-right scan for the word; its meaning is proved by `ContainsIffOccurs` |
| `Text.IsWhiteSpace` | PdfApplicationDocumentGenerator.cs:44 | `char.IsWhiteSpace`: exactly the Unicode White_Space characters |
| `Text.IsNullOrWhiteSpace` | PdfApplicationDocumentGenerator.cs:44 | `string.IsNullOrWhiteSpace`: null, or every character is white space (so also the empty string); used by `ConvertRun` |
| `Text.ContainsIffOccurs` | PdfApplicationDocumentGenerator.cs:112-114 | the substring test used by the review switch is true exactly when the word occurs at some position of the reason |
| `Derivations.FullName` | PdfApplicationDocumentGenerator.cs:156-159 | the full name is the first name, then one space, then the surname; both parts can be read back from it |
| `Derivations.Flatten` | PdfApplicationDocumentGenerator.cs:163 | `SelectMany(p => p.Funds)`: each product's funds in turn; its properties are `FlattenAppend`, `FlattenSingle`, `FlattenAt` and `FlattenMembership` |
| `Derivations.PortfolioFunds` | PdfApplicationDocumentGenerator.cs:161-164 | `GetPortfolioFunds`: the flattening of the application's products |
| `Derivations.FundValue` | PdfApplicationDocumentGenerator.cs:147 | one fund's contribution, `(Amount - Fees) * TaxRate` |
| `Derivations.FundsTotal` | PdfApplicationDocumentGenerator.cs:146-148 | `Select(...).Sum()`: the sum of the fund values, 0 for no funds; its properties are `FundsTotalAppend`, `FundsTotalFactored` and `FundsTotalScales` |
| `Derivations.PortfolioTotalAmount` | PdfApplicationDocumentGenerator.cs:144-149 | `GetPortfolioTotalAmount`: the total of the portfolio funds at the given tax rate; its properties are `PortfolioTotalAppend` and `PortfolioWithoutFundsTotalsZero` |
| `Derivations.FlattenAppend` | PdfApplicationDocumentGenerator.cs:161-164 | the funds of a concatenated product list are the funds of the first part followed by those of the second |
| `Derivations.FlattenSingle` | PdfApplicationDocumentGenerator.cs:161-164 | one product contributes exactly its own funds |
| `Derivations.FlattenAt` | PdfApplicationDocumentGenerator.cs:161-164 | portfolio funds are in product order, then fund order: fund j of product i comes right after the funds of the earlier products |
| `Derivations.FlattenMembership` | PdfApplicationDocumentGenerator.cs:161-164 | a fund is in the portfolio exactly when some product holds it |
| `Derivations.FundsTotalAppend` | PdfApplicationDocumentGenerator.cs:144-149 | the total of a concatenation of fund lists is the sum of their totals |
| `Derivations.PortfolioTotalAppend` | PdfApplicationDocumentGenerator.cs:144-149 | the portfolio total distributes over concatenation of product lists |
| `Derivations.PortfolioWithoutFundsTotalsZero` | PdfApplicationDocumentGenerator.cs:144-149 | no products, or products without funds, give an empty fund list and a total of 0 |
| `Derivations.FundsTotalFactored` | PdfApplicationDocumentGenerator.cs:146-148 | the sum of `(Amount - Fees) * TaxRate` equals (all amounts - all fees) * TaxRate |
| `Derivations.FundsTotalScales` | PdfApplicationDocumentGenerator.cs:146-148 | multiplying every amount and fee by k multiplies the total by k |
| `ReviewMessages.Classify` | PdfApplicationDocumentGenerator.cs:110-118 | the address arm is chosen exactly when the reason is non-null and contains "address"; the bank arm exactly when it does not but contains "bank"; otherwise, including a null reason, the fallback |
| `ReviewMessages.SuffixOf` | PdfApplicationDocumentGenerator.cs:113-117 | each arm's literal suffix (address, bank, suspicious behaviour); `SuffixesDistinct` shows they differ and `ReviewMessage` is stated through it |
| `ReviewMessages.SuffixesDistinct` | PdfApplicationDocumentGenerator.cs:112-117 | the three suffixes differ, so the message tells which arm was chosen |
| `ReviewMessages.ReviewMessage` | PdfApplicationDocumentGenerator.cs:109-118 | the message starts with "Your application has been placed in review" and continues with the chosen arm's suffix |
| `ReviewMessages.AddressBeatsBank` | PdfApplicationDocumentGenerator.cs:112-115 | a reason containing both "address" and "bank" gets the address suffix |
| `ReviewMessages.AddressReasonExample` | PdfApplicationDocumentGenerator.cs:112-113 | "please update your address" gets the address suffix |
| `ReviewMessages.BankReasonExample` | PdfApplicationDocumentGenerator.cs:114-115 | "bank details required" gets the bank suffix |
| `ReviewMessages.BankVerificationPendingExample` | PdfApplicationDocumentGenerator.cs:114-115 | "bank verification pending" gets the bank suffix |
| `ReviewMessages.FallbackReasonExamples` | PdfApplicationDocumentGenerator.cs:116-117 | "", "other" and a null reason get the suspicious-behaviour suffix |
| `TemplateSelection.IsSupported` | PdfApplicationDocumentGenerator.cs:73-108 | the states the switch has a `case` for: Pending, Activated and InReview; `TemplateId` gives an identifier exactly for these |
| `TemplateSelection.TemplateId` | PdfApplicationDocumentGenerator.cs:71-108 | a state has a template identifier exactly when it is Pending, Activated or InReview |
| `TemplateSelection.TemplateIdsDistinct` | PdfApplicationDocumentGenerator.cs:75-108 | the three supported states use three different templates |
| `TemplateSelection.NormalizeBaseUriAsWritten` | PdfApplicationDocumentGenerator.cs:68-69 | a base URI not ending in "/" is kept; one ending in "/" becomes just "/" |
| `TemplateSelection.Locator` | PdfApplicationDocumentGenerator.cs:86 | the locator is the base URI followed by the path (nothing for a null path) |
| `TemplateSelection.TrailingSlashKeepsOnlySlash` | PdfApplicationDocumentGenerator.cs:68-69 | as written, a base URI ending in "/" gives the locator "/" + path, whatever came before the slash |
| `TemplateSelection.TrailingSlashChangesLocator` | PdfApplicationDocumentGenerator.cs:68-86 | as written, "https://x.com/" and "https://x.com" give different locators for the same path |
| `TemplateSelection.StripTrailingSlash` | PdfApplicationDocumentGenerator.cs:68-69 | corrected normalisation: a trailing "/" is dropped, and a base without one is kept |
| `TemplateSelection.StrippedLocatorsAgree` | PdfApplicationDocumentGenerator.cs:68-69 | with the corrected normalisation, a base with one trailing "/" and the same base without it give the same locator |
| `ViewModels.BuildPending` | PdfApplicationDocumentGenerator.cs:76-84 | reference number, date, state description and full name come from the application; support email and signature come from the configuration |
| `ViewModels.BuildActivated` | PdfApplicationDocumentGenerator.cs:91-102 | the pending fields agree; the legal entity is null unless `IsLegalEntity`, and then it is the application's; the funds are the portfolio funds and the total is the tax-rated total of exactly those funds |
| `ViewModels.BuildInReview` | PdfApplicationDocumentGenerator.cs:120-133 | every activated field agrees; the message is the composed review message and `InReviewInformation` is the review record unchanged |
| `ViewModels.BuildViewModel` | PdfApplicationDocumentGenerator.cs:71-133 | a supported state gets the view model of its own kind exactly when the configuration and, in review, the current review are non-null, and that record is the one its state's builder makes from the application, the configuration and (in review) the current review; otherwise the dereference throws a null reference |
| `Pipeline.ConstructorGuard` | PdfApplicationDocumentGenerator.cs:26-33 | as written, construction succeeds exactly when the data context is null and the path provider and logger are not; a non-null data context is always rejected |
| `Pipeline.CorrectedConstructorGuard` | PdfApplicationDocumentGenerator.cs:26-27 | corrected guard: construction succeeds exactly when the data context, path provider and logger are all non-null |
| `Pipeline.CollaboratorsOf` | PdfApplicationDocumentGenerator.cs:29-34 | the fields a successful construction stores: the arguments as given, with the checked path provider unwrapped |
| `Pipeline.Matching` | PdfApplicationDocumentGenerator.cs:39 | the applications matching the id are exactly those in the store with that id |
| `Pipeline.MatchingCounts` | PdfApplicationDocumentGenerator.cs:39 | each record with the id is kept as many times as it is stored, and no other record is kept |
| `Pipeline.Single` | PdfApplicationDocumentGenerator.cs:39 | `Single` returns an application only when exactly one matches, and it is the one stored with that id; no match throws "no matching element"; every failure is an `InvalidOperationException` |
| `Pipeline.SingleFindsUniqueRecord` | PdfApplicationDocumentGenerator.cs:39 | a store holding exactly one record with the id, once, makes `Single` return that record |
| `Pipeline.Lookup` | PdfApplicationDocumentGenerator.cs:39 | a null `Applications` collection throws `ArgumentNullException` for the source; otherwise the lookup is `Single` |
| `Pipeline.FixedPdfOptions` | PdfApplicationDocumentGenerator.cs:45-53 | the fixed options: numeric page numbers, the header on the first page only, and the header markup |
| `Pipeline.ViewStringRun` | PdfApplicationDocumentGenerator.cs:66-142 | `GenerateViewString` as a function: a null base throws; the base is normalised as at line 69; a supported state renders its view model at the locator, and a null configuration, review or view generator throws a null reference; and any other state logs the unsupported-state warning and gives null; its properties are `UnsupportedStateGivesNoView`, `SupportedStateRenders` and `ViewStringWarnings` |
| `Pipeline.ConvertRun` | PdfApplicationDocumentGenerator.cs:44-58 | the conversion step: blank markup logs "Unable to generate view." and gives null; other markup goes to the converter, a null document throws, and the document's bytes (possibly null) are returned; its properties are in `GenerateConvertsOnlyNonBlankViews` |
| `Pipeline.GenerateRun` | PdfApplicationDocumentGenerator.cs:37-64 | `Generate` as a function: a null data context throws, then the lookup, then the view step and the conversion step; its properties are the `Generate...` lemmas below |
| `Pipeline.UnsupportedStateGivesNoView` | PdfApplicationDocumentGenerator.cs:137-140 | any other state logs the unsupported-state warning and gives null, whatever the path provider, view generator and configuration are |
| `Pipeline.SupportedStateRenders` | PdfApplicationDocumentGenerator.cs:73-135 | a supported state renders its own view model at the normalised base followed by its template's path, and logs nothing |
| `Pipeline.ViewStringWarnings` | PdfApplicationDocumentGenerator.cs:66-142 | the view step logs nothing except the unsupported-state warning, and that only for an unsupported state |
| `Pipeline.GenerateConvertsOnlyNonBlankViews` | PdfApplicationDocumentGenerator.cs:43-58 | null or whitespace markup logs "Unable to generate view." and gives null; other markup is converted with the fixed options, a null document throws a null reference, and otherwise the document's bytes (null included) are returned with no further warning; bytes come back only for markup that is not blank |
| `Pipeline.GenerateUnsupportedStateWarnsTwice` | PdfApplicationDocumentGenerator.cs:37-64 | an unsupported state gives null and exactly two warnings: the state one, then "Unable to generate view." |
| `Pipeline.GenerateNeverReportsNotFound` | PdfApplicationDocumentGenerator.cs:39-63 | "No application found" is never logged |
| `Pipeline.GenerateMissingApplicationThrows` | PdfApplicationDocumentGenerator.cs:39 | an id with no application surfaces as `Single`'s exception, with no warning |
| `Pipeline.AsWrittenGeneratorAlwaysThrows` | PdfApplicationDocumentGenerator.cs:26-39 | after a construction that passes the as-written guard, every `Generate` throws a null reference and logs nothing |
| `Pipeline.CorrectedGeneratorReachesLookup` | PdfApplicationDocumentGenerator.cs:26-43 | with the corrected guard, `Generate` gets to the lookup: a missing id gives `Single`'s exception and a found application goes on to rendering and conversion |
| `Pipeline.ActivatedScenario` | PdfApplicationDocumentGenerator.cs:91-102 | an activated, non-legal-entity application with funds (100, 10) and (200, 20) at tax rate 0.1 lists both funds, totals 27 and shows no legal entity |
| `Pipeline.InReviewScenario` | PdfApplicationDocumentGenerator.cs:109-133 | an in-review application with reason "bank verification pending" gets the bank message and its review record unchanged |
| `Generator.PdfApplicationDocumentGenerator.constructor` | PdfApplicationDocumentGenerator.cs:29-34 | the fields are the injected collaborators and nothing has been logged |
| `Generator.PdfApplicationDocumentGenerator.Create` | PdfApplicationDocumentGenerator.cs:18-35 | a failed guard throws its `ArgumentNullException`; a passed guard yields a fresh instance whose data context is null |
| `Generator.PdfApplicationDocumentGenerator.GenerateViewString` | PdfApplicationDocumentGenerator.cs:66-142 | the result and the warnings appended to the log are those of the view pipeline on the current collaborators; the view generator field is unchanged |
| `Generator.PdfApplicationDocumentGenerator.Generate` | PdfApplicationDocumentGenerator.cs:37-64 | the result and the warnings appended to the log are those of the generate pipeline on the current collaborators |
| `Generator.GenerateAfterCreate` | PdfApplicationDocumentGenerator.cs:26-39 | building an instance as written and calling `Generate` either fails in the constructor or throws a null reference |

## Left out

- Collaborator internals: the data store's query provider, `IPathProvider.Get`, `IViewGenerator.GenerateFromPath`, `IPdfGenerator.GenerateFromHtml` and the document's `ToBytes()` are given functions whose null results are modelled. `ToDescription()` is a given function that never returns null; a null description would only be copied into the view model unread. Any exception these collaborators throw themselves is not modelled.
- A non-empty byte array for every supported state cannot be stated: the bytes are whatever the given converter returns.
- `PdfConstants.Header` and the other members of `PdfOptions`/`HeaderOptions` are not part of this model. The header markup is a parameter and the options are the fixed value built at lines 45-53.
- Logging: the `ILogger` is reduced to a list of warnings held by the generator. Message text and the formatting of the `Guid` and the enum are left out.
- Floating point: amounts, fees and the tax rate are exact `real`s, so the rounding of `double` and the order of summation are not modelled.
- Nulls the code never checks for and that do not come from the collaborators: `Person`, its names, `Products`, each product's `Funds`, `ReferenceNumber`, and null elements in the application store are taken to be present.
- `EndsWith("/")` is culture-sensitive in .NET. It is modelled as an ordinal comparison, which differs only for characters that the culture ignores.
- The lazy `IEnumerable` returned by `GetPortfolioFunds` is modelled as the sequence it enumerates.
- The contents of `LegalEntity` and of the review record beyond `Reason` are opaque payloads.
- Enumeration values other than Pending, Activated and InReview are one case carrying the enum's integer value.
- Concurrency and I/O do not arise: each call is a single synchronous sequence.

## Findings

| source | as written | input that shows it | evidently intended | confidence | as-written member | corrected member |
|---|---|---|---|---|---|---|
| PdfApplicationDocumentGenerator.cs:68-69 | `baseUri.Substring(baseUri.Length - 1)` keeps only the last character | base "https://x.com/" with path "/t" gives locator "//t", not "https://x.com/t" | drop the one trailing "/" (`Substring(0, Length - 1)`) | not executed | `TemplateSelection.TrailingSlashChangesLocator` | `TemplateSelection.StrippedLocatorsAgree` |
| PdfApplicationDocumentGenerator.cs:26-27 | throws `ArgumentNullException` when the data context is NOT null | any non-null data context is rejected; with a null one, `Generate` throws `NullReferenceException` at line 39 | throw only when the data context is null | not executed | `Pipeline.AsWrittenGeneratorAlwaysThrows` | `Pipeline.CorrectedGeneratorReachesLookup` |

The generator class keeps both defects, because it models the code as written.
The corrected definitions are the ones to use for a fixed generator:

- `StripTrailingSlash` replaces `NormalizeBaseUriAsWritten`. The locator, after normalisation, is shared unchanged.
- `CorrectedConstructorGuard` replaces `ConstructorGuard`. The pipeline after construction is shared unchanged.
