/** Reason codes as the auditors gather them: what counts is which occur. */
module ReasonCodes {
  type Reasons = set<string>

  function When(applies: bool, reason: string): Reasons {
    if applies then {reason} else {}
  }

  lemma WhenTells(applies: bool, reason: string)
    ensures applies ==> reason in When(applies, reason)
  {
  }
}
