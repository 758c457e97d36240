/** The in-review message: a first-match-wins substring rule on the review reason. */
module ReviewMessages {
  import opened Wrappers
  import opened Text

  const PREFIX := "Your application has been placed in review"
  const ADDRESS_SUFFIX := " pending outstanding address verification for FICA purposes."
  const BANK_SUFFIX := " pending outstanding bank account verification."
  const FALLBACK_SUFFIX := " because of suspicious account behaviour. Please contact support ASAP."

  /** The three arms of the `switch` on `CurrentReview.Reason`. */
  datatype ReviewKind = AddressVerification | BankVerification | SuspiciousBehaviour

  /** Which arm matches first: a non-null reason containing "address", then one containing "bank", else the fallback. */
  function Classify(reason: Option<string>): (k: ReviewKind)
    ensures k == AddressVerification <==> reason.Some? && Contains(reason.value, "address")
    ensures k == BankVerification
            <==> reason.Some? && !Contains(reason.value, "address") && Contains(reason.value, "bank")
    ensures k == SuspiciousBehaviour
            <==> reason.None? || (!Contains(reason.value, "address") && !Contains(reason.value, "bank"))
  {
    match reason
    case Some(r) => if Contains(r, "address") then AddressVerification
                    else if Contains(r, "bank") then BankVerification
                    else SuspiciousBehaviour
    case None => SuspiciousBehaviour
  }

  function SuffixOf(kind: ReviewKind): string {
    match kind
    case AddressVerification => ADDRESS_SUFFIX
    case BankVerification => BANK_SUFFIX
    case SuspiciousBehaviour => FALLBACK_SUFFIX
  }

  /** The three suffixes differ, so the message tells which arm was taken. */
  lemma SuffixesDistinct(k1: ReviewKind, k2: ReviewKind)
    requires k1 != k2
    ensures SuffixOf(k1) != SuffixOf(k2)
  {
  }

  /** The message: the fixed prefix, then the suffix of the first arm that matches. */
  function ReviewMessage(reason: Option<string>): (m: string)
    ensures StartsWith(m, PREFIX)
    ensures m[|PREFIX|..] == SuffixOf(Classify(reason))
  {
    PREFIX + SuffixOf(Classify(reason))
  }

  /** "address" is checked first: a reason naming both gets the address suffix. */
  lemma AddressBeatsBank(reason: string)
    requires Contains(reason, "address") && Contains(reason, "bank")
    ensures Classify(Some(reason)) == AddressVerification
  {
  }

  lemma AddressReasonExample()
    ensures Classify(Some("please update your address")) == AddressVerification
  {
    ContainsAt("please update your address", "address", 19);
  }

  lemma BankReasonExample()
    ensures Classify(Some("bank details required")) == BankVerification
  {
    NotContainsWithoutPair("bank details required", "address");
    ContainsAt("bank details required", "bank", 0);
  }

  lemma BankVerificationPendingExample()
    ensures Classify(Some("bank verification pending")) == BankVerification
  {
    NotContainsWithoutPair("bank verification pending", "address");
    ContainsAt("bank verification pending", "bank", 0);
  }

  lemma FallbackReasonExamples()
    ensures Classify(Some("")) == SuspiciousBehaviour
    ensures Classify(Some("other")) == SuspiciousBehaviour
    ensures Classify(None) == SuspiciousBehaviour
  {
    NotContainsWithoutPair("other", "address");
    NotContainsWithoutPair("other", "bank");
  }
}
