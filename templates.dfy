/** Template identifiers, the base-URI handling and the template locator. */
module TemplateSelection {
  import opened Wrappers
  import opened Text
  import opened Domain

  predicate IsSupported(state: ApplicationState) {
    state.Pending? || state.Activated? || state.InReview?
  }

  /** The identifier each `case` hands to the path provider; other states have none. */
  function TemplateId(state: ApplicationState): (r: Option<string>)
    ensures r.Some? <==> IsSupported(state)
  {
    match state
    case Pending => Some("PendingApplication")
    case Activated => Some("ActivatedApplication")
    case InReview => Some("InReviewApplication")
    case OtherState(_) => None
  }

  /** Distinct states use distinct templates. */
  lemma TemplateIdsDistinct(s1: ApplicationState, s2: ApplicationState)
    requires IsSupported(s1) && IsSupported(s2) && s1 != s2
    ensures TemplateId(s1) != TemplateId(s2)
  {
  }

  /**
   * Line 69 as written: `baseUri.Substring(baseUri.Length - 1)` keeps the
   * last character instead of dropping it.
   */
  function NormalizeBaseUriAsWritten(baseUri: string): (r: string)
    ensures !EndsWith(baseUri, "/") ==> r == baseUri
    ensures EndsWith(baseUri, "/") ==> r == "/"
  {
    if EndsWith(baseUri, "/") then baseUri[|baseUri| - 1..] else baseUri
  }

  /** `$"{baseUri}{path}"`: a null path interpolates as the empty string. */
  function Locator(baseUri: string, path: Option<string>): (r: string)
    ensures StartsWith(r, baseUri)
    ensures path.Some? ==> r[|baseUri|..] == path.value
    ensures path.None? ==> r == baseUri
  {
    baseUri + path.GetOr("")
  }

  /** As written, a trailing slash throws away everything before it. */
  lemma TrailingSlashKeepsOnlySlash(baseUri: string, path: string)
    requires EndsWith(baseUri, "/")
    ensures Locator(NormalizeBaseUriAsWritten(baseUri), Some(path)) == "/" + path
  {
  }

  /** As written, "https://x.com/" and "https://x.com" lead to different locators. */
  lemma TrailingSlashChangesLocator(path: string)
    ensures Locator(NormalizeBaseUriAsWritten("https://x.com/"), Some(path))
            != Locator(NormalizeBaseUriAsWritten("https://x.com"), Some(path))
  {
  }

  /** The intended normalisation: drop one trailing "/". */
  function StripTrailingSlash(baseUri: string): (r: string)
    ensures EndsWith(baseUri, "/") ==> r + "/" == baseUri
    ensures !EndsWith(baseUri, "/") ==> r == baseUri
  {
    if EndsWith(baseUri, "/") then baseUri[..|baseUri| - 1] else baseUri
  }

  /** With the intended normalisation, one trailing "/" makes no difference to the locator. */
  lemma StrippedLocatorsAgree(baseUri: string, path: Option<string>)
    requires !EndsWith(baseUri, "/")
    ensures Locator(StripTrailingSlash(baseUri + "/"), path) == Locator(StripTrailingSlash(baseUri), path)
  {
  }
}
