/**
 * The consent gate shown before a user may enter the dashboard: four
 * check boxes, of which three are required before "Accept & Continue"
 * is enabled and the consents are handed on.
 */
module ConsentForm {
  import opened Wrappers

  /** The four consents the form asks for. */
  datatype ConsentKind = Hipaa | DataProcessing | Research | AiAnalysis

  /** A consent is required unless it is the optional research consent. */
  predicate Required(k: ConsentKind) {
    k != Research
  }

  /** The form's record of consents, one flag per kind. */
  datatype Consents = Consents(hipaa: bool, dataProcessing: bool, research: bool, aiAnalysis: bool) {

    /** The flag recorded for `k`. */
    function Get(k: ConsentKind): bool {
      match k
      case Hipaa => hipaa
      case DataProcessing => dataProcessing
      case Research => research
      case AiAnalysis => aiAnalysis
    }

    /** The record with the flag for `k` replaced by `checked`. */
    function With(k: ConsentKind, checked: bool): (c: Consents)
      ensures c.Get(k) == checked
      ensures forall j :: j != k ==> c.Get(j) == Get(j)
    {
      match k
      case Hipaa => this.(hipaa := checked)
      case DataProcessing => this.(dataProcessing := checked)
      case Research => this.(research := checked)
      case AiAnalysis => this.(aiAnalysis := checked)
    }
  }

  /** Every box starts unchecked. */
  const Initial := Consents(false, false, false, false)

  /** Whether the user may proceed: the three required consents are given. */
  predicate CanProceed(c: Consents) {
    c.hipaa && c.dataProcessing && c.aiAnalysis
  }

  /** Proceeding needs exactly the required consents, whatever research says. */
  lemma CanProceedIffRequired(c: Consents)
    ensures CanProceed(c) <==> forall k :: Required(k) ==> c.Get(k)
  {
    if !CanProceed(c) {
      if !c.hipaa {
        assert Required(Hipaa) && !c.Get(Hipaa);
      } else if !c.dataProcessing {
        assert Required(DataProcessing) && !c.Get(DataProcessing);
      } else {
        assert Required(AiAnalysis) && !c.Get(AiAnalysis);
      }
    }
  }

  /** The research consent never decides whether the user may proceed. */
  lemma ResearchIsOptional(c: Consents, checked: bool)
    ensures CanProceed(c.With(Research, checked)) == CanProceed(c)
  {
    CanProceedIffRequired(c);
    CanProceedIffRequired(c.With(Research, checked));
  }

  /** Unchecking any required consent blocks the user again. */
  lemma WithdrawingRequiredBlocks(c: Consents, k: ConsentKind)
    requires Required(k)
    ensures !CanProceed(c.With(k, false))
  {
    CanProceedIffRequired(c.With(k, false));
  }

  /** A fresh form does not let the user proceed. */
  lemma InitiallyBlocked()
    ensures !CanProceed(Initial)
    ensures forall k :: !Initial.Get(k)
  {
  }

  /** Checking the three required boxes on a fresh form is enough. */
  lemma RequiredChecksUnlock()
    ensures CanProceed(Initial.With(Hipaa, true).With(DataProcessing, true).With(AiAnalysis, true))
  {
    var c := Initial.With(Hipaa, true).With(DataProcessing, true).With(AiAnalysis, true);
    CanProceedIffRequired(c);
  }

  /** The text on the submit button. */
  function ButtonLabel(c: Consents): (text: string)
    ensures text == "Accept & Continue" <==> CanProceed(c)
    ensures !CanProceed(c) ==> text == "Please accept required consents"
  {
    if CanProceed(c) then "Accept & Continue" else "Please accept required consents"
  }

  /** The form component: its one piece of state is the consent record. */
  class ConsentPanel {
    var consents: Consents

    constructor ()
      ensures consents == Initial
    {
      consents := Initial;
    }

    /** A check box was toggled: only that consent changes. */
    method HandleConsentChange(k: ConsentKind, checked: bool)
      modifies this
      ensures consents == old(consents).With(k, checked)
      ensures consents.Get(k) == checked
      ensures forall j :: j != k ==> consents.Get(j) == old(consents).Get(j)
    {
      consents := consents.With(k, checked);
    }

    /**
     * Submission: the completion callback receives the whole record, and
     * only when the required consents are given; otherwise nothing happens.
     */
    method HandleSubmit() returns (submitted: Option<Consents>)
      ensures submitted.Some? <==> forall k :: Required(k) ==> consents.Get(k)
      ensures submitted.Some? ==> submitted.value == consents
    {
      CanProceedIffRequired(consents);
      if CanProceed(consents) {
        submitted := Some(consents);
      } else {
        submitted := None;
      }
    }
  }
}
