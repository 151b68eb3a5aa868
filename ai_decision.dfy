/**
 * The AI-decision correctness table: the analyst's close reason is the
 * ground truth, the AI's verification state is the prediction, and the
 * pair is classified as a correct call (TT), a false alarm (FP) or a
 * miss (FN).
 */
module AiDecision {
  import opened Wrappers
  import opened Values

  /** The three verdicts stored in `is_ai_decision_correct`. */
  datatype Verdict = TT | FP | FN

  function VerdictName(v: Verdict): (r: string)
    ensures r in {"TT", "FP", "FN"}
  {
    match v
    case TT => "TT"
    case FP => "FP"
    case FN => "FN"
  }

  /**
   * `evaluate_ai_decision(payload)`; `None` is "cannot determine". The table
   * is the confusion matrix on decidable payloads and None elsewhere.
   */
  function EvaluateAiDecision(payload: Entries): (r: Option<Verdict>)
    ensures Get(payload, "is_auto_closed") == Str("AutoClosed") ==> r.None?
    ensures !PyTruthy(Get(payload, "close_reason")) || !PyTruthy(Get(payload, "verification_state")) ==> r.None?
    ensures r.Some? <==> Decidable(payload)
    ensures r.Some? ==> r.value == Confusion(Get(payload, "close_reason") == Str("Resolved"),
                                             Get(payload, "verification_state") == Str("True_Positive"))
  {
    if Get(payload, "is_auto_closed") == Str("AutoClosed") then None
    else
      var closeReason := Get(payload, "close_reason");
      var verificationState := Get(payload, "verification_state");
      if !PyTruthy(closeReason) || !PyTruthy(verificationState) then None
      else if closeReason == Str("False detection") && verificationState == Str("False_Positive") then Some(TT)
      else if closeReason == Str("False detection") && verificationState == Str("True_Positive") then Some(FP)
      else if closeReason == Str("Resolved") && verificationState == Str("False_Positive") then Some(FN)
      else if closeReason == Str("Resolved") && verificationState == Str("True_Positive") then Some(TT)
      else None
  }

  /**
   * The confusion-matrix reading of the table: `threat` is the analyst's
   * verdict (closing as "Resolved" means the alert was real), `flagged` the
   * AI's (True_Positive means it called the alert real).
   */
  function Confusion(threat: bool, flagged: bool): (r: Verdict)
    ensures r == TT <==> threat == flagged
    ensures r == FP <==> flagged && !threat
    ensures r == FN <==> threat && !flagged
  {
    if threat == flagged then TT else if flagged then FP else FN
  }

  /** A payload the table decides: not auto-closed, and both fields hold one of their two known values. */
  predicate Decidable(payload: Entries) {
    Get(payload, "is_auto_closed") != Str("AutoClosed")
    && Get(payload, "close_reason") in {Str("False detection"), Str("Resolved")}
    && Get(payload, "verification_state") in {Str("False_Positive"), Str("True_Positive")}
  }
}
