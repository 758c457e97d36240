/** The records the generator reads, and the outcomes of a .NET call. */
module Domain {
  import opened Wrappers

  /** `byte[]`. */
  type Bytes = seq<bv8>

  datatype Guid = Guid(value: int)
  datatype DateTime = DateTime(ticks: int)

  /**
   * `ApplicationState`. The generator handles three named values; any other
   * value of the enumeration is `OtherState`.
   */
  datatype ApplicationState = Pending | Activated | InReview | OtherState(value: int)

  datatype Person = Person(firstName: string, surname: string)

  /** Money is exact here; the source uses `double`. */
  datatype Fund = Fund(amount: real, fees: real)
  datatype Product = Product(funds: seq<Fund>)

  /** The legal-entity payload, passed through to the templates unread. */
  datatype LegalEntity = LegalEntity(details: string)

  /** The current review record; the generator reads only its reason. */
  datatype Review = Review(reason: Option<string>, details: string)

  datatype Application = Application(
    id: Guid,
    state: ApplicationState,
    referenceNumber: string,
    date: DateTime,
    person: Person,
    isLegalEntity: bool,
    legalEntity: Option<LegalEntity>,
    products: seq<Product>,
    currentReview: Option<Review>)

  datatype Configuration = Configuration(supportEmail: string, signature: string, taxRate: real)

  /** Why LINQ `Single` gives up. */
  datatype SingleFailure = NoMatchingElement | MoreThanOneMatchingElement

  /** The exceptions the core can raise. */
  datatype Exception =
    | NullReference
    | ArgumentNull(paramName: string)
    | InvalidOperation(failure: SingleFailure)

  /** A call either returns a value or throws. */
  datatype Outcome<+T> = Returned(value: T) | Threw(exception: Exception)
}
