/** The promo and consent step of the appointment flow: a promo picker whose
    choice requires the newsletter opt-in, the general opt-in checkbox, and a
    submit that posts the lead, records the consent flags in the form-progress
    table and advances only when that record was written. */
module PromoOptIn {
  import opened Common
  import opened AppContext
  import opened FormStore

  const PromoOptions: seq<string> := ["10% Off", "Free Labor", "Mystery Promo", "Discounted Materials"]

  /** The promo after a card click: the current promo is cleared, any other
      becomes current. */
  function PromoAfterSelect(promo: string, option: string): (r: string)
    ensures option == promo ==> r == ""
    ensures option != promo ==> r == option
  {
    if option == promo then "" else option
  }

  /** Clicking a card twice, starting from another promo, clears the promo. */
  lemma SelectTwiceClears(promo: string, option: string)
    requires option != promo
    ensures PromoAfterSelect(PromoAfterSelect(promo, option), option) == ""
  {
  }

  /** The effect's rule: a promo without the newsletter opt-in requires it. */
  function RequiredRule(promo: string, newsletterOptIn: bool): (r: bool)
    ensures r <==> promo != "" && !newsletterOptIn
  {
    promo != "" && !newsletterOptIn
  }

  /** The submit gate. */
  function SubmitAllowed(generalOptIn: bool, isOptInRequired: bool, newsletterOptIn: bool): (r: bool)
    ensures r <==> generalOptIn && (!isOptInRequired || newsletterOptIn)
  {
    generalOptIn && (!isOptInRequired || (isOptInRequired && newsletterOptIn))
  }

  /** The button's `disabled`. */
  function ContinueDisabled(generalOptIn: bool, isOptInRequired: bool, newsletterOptIn: bool): bool {
    !generalOptIn || (isOptInRequired && !newsletterOptIn)
  }

  /** The button is disabled exactly when the submit would refuse. */
  lemma DisabledIsNegatedGate(generalOptIn: bool, isOptInRequired: bool, newsletterOptIn: bool)
    ensures ContinueDisabled(generalOptIn, isOptInRequired, newsletterOptIn)
            <==> !SubmitAllowed(generalOptIn, isOptInRequired, newsletterOptIn)
  {
  }

  /** Once the effect has run, the gate reads: general opt-in, and either no
      promo or the newsletter opt-in. */
  lemma GateAfterSync(promo: string, generalOptIn: bool, newsletterOptIn: bool)
    ensures SubmitAllowed(generalOptIn, RequiredRule(promo, newsletterOptIn), newsletterOptIn)
            <==> generalOptIn && (promo == "" || newsletterOptIn)
  {
  }

  /** `find(s => s.id === selectedService)?.name || 'Unknown Service'`: also
      used when the entry's name is empty. */
  function ServiceName(catalog: seq<Service>, selectedService: int): (r: string)
    ensures r != ""
    ensures (forall s :: s in catalog ==> s.id != selectedService) ==> r == "Unknown Service"
    ensures FirstService(catalog, selectedService).Some? && FirstService(catalog, selectedService).value.name != ""
            ==> r == FirstService(catalog, selectedService).value.name
    ensures FirstService(catalog, selectedService).Some? && FirstService(catalog, selectedService).value.name == ""
            ==> r == "Unknown Service"
  {
    match FirstService(catalog, selectedService)
    case Some(s) => if s.name != "" then s.name else "Unknown Service"
    case None => "Unknown Service"
  }

  /** The consent flags the submit writes. */
  function ConsentProgress(s: Session): Progress
    reads s
  {
    OptIns(s.generalOptIn, s.newsletterOptIn, s.termsAndPrivacyOptIn)
  }

  class PromoOptInStep {
    var selectedPromo: string
    var isOptInRequired: bool
    var loading: bool

    constructor(promo: string)
      ensures selectedPromo == promo && !isOptInRequired && !loading
    {
      selectedPromo := promo;
      isOptInRequired := false;
      loading := false;
    }

    /** A promo card: the current promo is cleared and stops requiring the
        opt-in; another promo becomes current and requires it. */
    method HandlePromoSelect(s: Session, option: string)
      modifies this`selectedPromo, this`isOptInRequired, s`promo
      ensures s.promo == PromoAfterSelect(old(s.promo), option) && selectedPromo == s.promo
      ensures isOptInRequired <==> option != old(s.promo)
    {
      if option == s.promo {
        s.promo := "";
        selectedPromo := "";
        isOptInRequired := false;
      } else {
        s.promo := option;
        selectedPromo := option;
        isOptInRequired := true;
      }
    }

    /** The effect that follows every change of promo or newsletter opt-in. */
    method SyncOptInRequirement(s: Session)
      modifies this`selectedPromo, this`isOptInRequired
      ensures selectedPromo == s.promo && isOptInRequired == RequiredRule(s.promo, s.newsletterOptIn)
    {
      selectedPromo := s.promo;
      isOptInRequired := s.promo != "" && !s.newsletterOptIn;
    }

    method HandleNewsletterOptInChange(s: Session, checked: bool)
      modifies s`newsletterOptIn
      ensures s.newsletterOptIn == checked
    {
      s.newsletterOptIn := checked;
    }

    method HandleGeneralOptInChange(s: Session, checked: bool)
      modifies s`generalOptIn
      ensures s.generalOptIn == checked
    {
      s.generalOptIn := checked;
    }

    /** The submit.  Refused by the gate, nothing happens.  Otherwise the lead
        is posted with the service's name (`leadDelivery` is its outcome, and
        it changes nothing), the consent flags are upserted under the form id
        with the session's phone, and the step advances iff no error report
        was sent. */
    method HandleSubmit(s: Session, catalog: seq<Service>, table: FormsTable, now: string,
                        leadDelivery: Delivery, lookup: Outcome, write: Outcome)
      returns (signal: Signal, serviceName: string, report: Option<string>)
      modifies this`loading, table
      ensures !SubmitAllowed(s.generalOptIn, isOptInRequired, s.newsletterOptIn) ==>
                signal == Stay && report.None? && table.rows == old(table.rows) && loading == old(loading)
      ensures SubmitAllowed(s.generalOptIn, isOptInRequired, s.newsletterOptIn) ==>
                !loading && serviceName == ServiceName(catalog, s.selectedService)
                && table.rows == UpsertSpec(old(table.rows), s.formId, now, ConsentProgress(s), s.phone, lookup, write).rows
                && report == UpsertSpec(old(table.rows), s.formId, now, ConsentProgress(s), s.phone, lookup, write).report
                && (signal == Next <==> report.None?)
                && (signal != Next ==> signal == Stay)
    {
      serviceName := "";
      if !(s.generalOptIn && (!isOptInRequired || (isOptInRequired && s.newsletterOptIn))) {
        return Stay, serviceName, None;
      }
      loading := true;
      serviceName := ServiceName(catalog, s.selectedService);
      report := table.Upsert(s.formId, now, OptIns(s.generalOptIn, s.newsletterOptIn, s.termsAndPrivacyOptIn),
                             s.phone, lookup, write);
      loading := false;
      signal := if report.None? then Next else Stay;
    }
  }
}
