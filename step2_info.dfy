/** The details step of the appointment flow: the contact form plus the
    general opt-in checkbox, which the schema requires to be ticked.  A valid
    submit copies the seven values into the session, posts the lead (whose
    failure is ignored) and advances. */
module DetailsInfo {
  import opened Common
  import opened AppContext
  import opened ContactValidation

  datatype DetailsValues = DetailsValues(contact: ContactValues, generalOptIn: bool)

  /** The contact rules plus `oneOf([true])` on the opt-in. */
  function DetailsErrors(d: DetailsValues, isEmail: string -> bool): (r: seq<Rule>)
    ensures forall x :: x in r <==> Fails(x, d.contact, isEmail) || (x == OptInRequired && !d.generalOptIn)
    ensures r == [] <==> ContactValid(d.contact, isEmail) && d.generalOptIn
  {
    ContactErrors(d.contact, isEmail) + When(!d.generalOptIn, OptInRequired)
  }

  /** `!formik.isValid || !formik.values.generalOptIn`, with `isValid` the
      absence of errors. */
  function SubmitDisabled(d: DetailsValues, isEmail: string -> bool): bool {
    DetailsErrors(d, isEmail) != [] || !d.generalOptIn
  }

  /** The opt-in test of the button is implied by the schema: the button is
      disabled exactly when some rule fails. */
  lemma SubmitDisabledIffErrors(d: DetailsValues, isEmail: string -> bool)
    ensures SubmitDisabled(d, isEmail) <==> DetailsErrors(d, isEmail) != []
    ensures !SubmitDisabled(d, isEmail) <==> ContactValid(d.contact, isEmail) && d.generalOptIn
  {
    if !d.generalOptIn {
      assert OptInRequired in DetailsErrors(d, isEmail);
    }
  }

  /** The prefill effect: the contact precedence, and the session's opt-in
      (`generalOptIn || false`). */
  function PrefillDetails(params: UrlParams, id: Identity, generalOptIn: bool): (d: DetailsValues)
    ensures d.contact == PrefillContact(params, id) && d.generalOptIn == generalOptIn
  {
    DetailsValues(PrefillContact(params, id), generalOptIn)
  }

  class DetailsForm {
    var values: DetailsValues

    constructor()
      ensures values == DetailsValues(ContactValues("", "", "", "", "", ""), false)
    {
      values := DetailsValues(ContactValues("", "", "", "", "", ""), false);
    }

    /** The mount effect. */
    method Prefill(s: Session, params: UrlParams)
      modifies this
      ensures values == PrefillDetails(params, s.CurrentIdentity(), s.generalOptIn)
    {
      values := DetailsValues(PrefillContact(params, s.CurrentIdentity()), s.generalOptIn);
    }

    /** An edit of the form. */
    method HandleChange(d: DetailsValues)
      modifies this
      ensures values == d
    {
      values := d;
    }

    /** The submit: nothing happens while a rule fails; otherwise the seven
        values go to the session and the step advances whatever the lead
        post's outcome (`delivery`). */
    method HandleSubmit(s: Session, isEmail: string -> bool, delivery: Delivery) returns (signal: Signal)
      modifies s`zip, s`state, s`email, s`phone, s`firstname, s`lastname, s`generalOptIn
      ensures DetailsErrors(values, isEmail) != [] ==>
                signal == Stay && s.CurrentIdentity() == old(s.CurrentIdentity())
                && s.generalOptIn == old(s.generalOptIn)
      ensures DetailsErrors(values, isEmail) == [] ==>
                signal == Next && s.CurrentIdentity() == SubmittedIdentity(values.contact)
                && s.generalOptIn == values.generalOptIn
    {
      var errors := DetailsErrors(values, isEmail);
      if |errors| > 0 {
        return Stay;
      }
      var v := values.contact;
      s.zip := Some(v.zip);
      s.state := Some(v.state);
      s.email := Some(v.email);
      s.phone := Some(v.phone);
      s.firstname := Some(v.firstname);
      s.lastname := Some(v.lastname);
      s.generalOptIn := values.generalOptIn;
      signal := Next;
    }
  }
}
