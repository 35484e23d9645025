/** The details step of the multi-service flow: the contact form and an
    area-code selector.  A valid submit copies the six contact values into the
    session (the area code is not stored) and advances the flow. */
module ContactDetails {
  import opened Common
  import opened AppContext
  import opened ContactValidation
  import opened MultiStep

  /** The selector's options; the form starts on the first. */
  const AreaCodes: seq<string> := ["+1", "+44", "+91", "+61"]

  class ContactDetailsForm {
    var values: ContactValues
    var areaCode: string

    constructor()
      ensures values == ContactValues("", "", "", "", "", "") && areaCode == AreaCodes[0]
    {
      values := ContactValues("", "", "", "", "", "");
      areaCode := "+1";
    }

    /** The mount effect: the contact precedence, and the default area code. */
    method Prefill(s: Session, params: UrlParams)
      modifies this
      ensures values == PrefillContact(params, s.CurrentIdentity()) && areaCode == AreaCodes[0]
    {
      values := PrefillContact(params, s.CurrentIdentity());
      areaCode := "+1";
    }

    method HandleChange(v: ContactValues)
      modifies this`values
      ensures values == v
    {
      values := v;
    }

    method SetAreaCode(code: string)
      modifies this`areaCode
      ensures areaCode == code
    {
      areaCode := code;
    }

    /** The submit: nothing happens while a rule fails; otherwise the session
        identity becomes the submitted values and the flow moves on. */
    method HandleSubmit(s: Session, isEmail: string -> bool, flow: MultiStepForm)
      requires flow.Valid()
      modifies s`zip, s`state, s`email, s`phone, s`firstname, s`lastname, flow
      ensures flow.Valid()
      ensures ContactErrors(values, isEmail) != [] ==>
                s.CurrentIdentity() == old(s.CurrentIdentity()) && flow.currentStep == old(flow.currentStep)
      ensures ContactErrors(values, isEmail) == [] ==>
                s.CurrentIdentity() == SubmittedIdentity(values) && flow.currentStep == old(flow.currentStep) + 1
    {
      var errors := ContactErrors(values, isEmail);
      if |errors| > 0 {
        return;
      }
      s.zip := Some(values.zip);
      s.state := Some(values.state);
      s.email := Some(values.email);
      s.phone := Some(values.phone);
      s.firstname := Some(values.firstname);
      s.lastname := Some(values.lastname);
      flow.HandleNextStep();
    }
  }
}
