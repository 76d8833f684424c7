/** The consent gate: upload only when both signals are explicitly granted. */
module Consent {
  import opened Wrappers

  datatype ConsentStatus = Granted | Denied | Unspecified

  datatype ConsentSignals = ConsentSignals(adUserData: Option<ConsentStatus>,
                                           adPersonalization: Option<ConsentStatus>) {
    predicate BothGranted() {
      adUserData == Some(Granted) && adPersonalization == Some(Granted)
    }
  }

  datatype Signal = AdUserData | AdPersonalization
  datatype Blockage = BecauseDenied | BecauseUnspecified | BecauseMissing
  datatype SuppressionReason = SuppressionReason(signal: Signal, blockage: Blockage)

  function Blocking(status: Option<ConsentStatus>): Option<Blockage> {
    match status
    case Some(Granted) => None
    case None => Some(BecauseMissing)
    case Some(Denied) => Some(BecauseDenied)
    case Some(Unspecified) => Some(BecauseUnspecified)
  }

  /** The reason the event is suppressed, or None when it may be uploaded. */
  function EvaluateConsent(signals: ConsentSignals): (blocked: Option<SuppressionReason>)
    ensures blocked.None? <==> signals.BothGranted()
  {
    match Blocking(signals.adUserData)
    case Some(b) => Some(SuppressionReason(AdUserData, b))
    case None =>
      match Blocking(signals.adPersonalization)
      case Some(b) => Some(SuppressionReason(AdPersonalization, b))
      case None => None
  }
}
