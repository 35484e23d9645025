/** The contact form shared by the two details steps: the six text fields, the
    prefill precedence (URL parameter, then session value, then empty), and
    the validation schema (every field required, an email address, a phone
    number of exactly ten digits). */
module ContactValidation {
  import opened Common
  import opened AppContext

  datatype ContactValues = ContactValues(
    firstname: string,
    lastname: string,
    zip: string,
    state: string,
    email: string,
    phone: string)

  datatype Field = FirstName | LastName | Zip | State | Email | Phone | GeneralOptIn

  /** The rules of the schema; each failed rule shows its message on its field. */
  datatype Rule =
    | FirstNameRequired | LastNameRequired | ZipRequired | StateRequired
    | EmailInvalid | EmailRequired | PhoneDigits | PhoneRequired
    | OptInRequired

  function FieldOf(rule: Rule): Field {
    match rule
    case FirstNameRequired => FirstName
    case LastNameRequired => LastName
    case ZipRequired => Zip
    case StateRequired => State
    case EmailInvalid => Email
    case EmailRequired => Email
    case PhoneDigits => Phone
    case PhoneRequired => Phone
    case OptInRequired => GeneralOptIn
  }

  function Message(rule: Rule): string {
    match rule
    case FirstNameRequired => "First name is required"
    case LastNameRequired => "Last name is required"
    case ZipRequired => "Zip code is required"
    case StateRequired => "State is required"
    case EmailInvalid => "Invalid email address"
    case EmailRequired => "Email is required"
    case PhoneDigits => "Phone number must be 10 digits"
    case PhoneRequired => "Phone number is required"
    case OptInRequired => "You must opt-in to continue"
  }

  predicate IsDigit(c: char) {
    '0' <= c <= '9'
  }

  /** `/^\d{10}$/`: exactly ten ASCII digits and nothing else. */
  predicate IsTenDigits(s: string) {
    |s| == 10 && forall i :: 0 <= i < |s| ==> IsDigit(s[i])
  }

  /** Whether the values fail a rule of the contact schema.  The email rule
      skips an empty value; the digits rule does not, so an empty phone fails
      both of its rules.  `isEmail` is the schema library's address pattern.
      The opt-in rule is not part of this schema. */
  predicate Fails(rule: Rule, v: ContactValues, isEmail: string -> bool) {
    match rule
    case FirstNameRequired => v.firstname == ""
    case LastNameRequired => v.lastname == ""
    case ZipRequired => v.zip == ""
    case StateRequired => v.state == ""
    case EmailInvalid => v.email != "" && !isEmail(v.email)
    case EmailRequired => v.email == ""
    case PhoneDigits => !IsTenDigits(v.phone)
    case PhoneRequired => v.phone == ""
    case OptInRequired => false
  }

  /** The failed rules, each once, in schema order. */
  function ContactErrors(v: ContactValues, isEmail: string -> bool): (r: seq<Rule>)
    ensures forall x :: x in r <==> Fails(x, v, isEmail)
    ensures r == [] <==> ContactValid(v, isEmail)
  {
    When(v.firstname == "", FirstNameRequired)
    + When(v.lastname == "", LastNameRequired)
    + When(v.zip == "", ZipRequired)
    + When(v.state == "", StateRequired)
    + When(v.email != "" && !isEmail(v.email), EmailInvalid)
    + When(v.email == "", EmailRequired)
    + When(!IsTenDigits(v.phone), PhoneDigits)
    + When(v.phone == "", PhoneRequired)
  }

  /** The rule, listed when it fails. */
  function When(fails: bool, rule: Rule): (r: seq<Rule>)
    ensures forall x :: x in r <==> fails && x == rule
    ensures r == [] <==> !fails
  {
    if fails then [rule] else []
  }

  /** The values pass the schema: all present, the address well formed, ten
      digits of phone. */
  predicate ContactValid(v: ContactValues, isEmail: string -> bool) {
    v.firstname != "" && v.lastname != "" && v.zip != "" && v.state != ""
    && v.email != "" && isEmail(v.email) && IsTenDigits(v.phone)
  }

  /** A nine-digit phone fails only the digits rule. */
  lemma NineDigitPhone(v: ContactValues, isEmail: string -> bool)
    requires v.firstname != "" && v.lastname != "" && v.zip != "" && v.state != ""
    requires v.email != "" && isEmail(v.email) && v.phone == "555123456"
    ensures ContactErrors(v, isEmail) == [PhoneDigits]
  {
  }

  /** A valid phone is never empty, so the digits rule subsumes the required
      rule. */
  lemma TenDigitsNotEmpty(s: string)
    requires IsTenDigits(s)
    ensures s != ""
  {
  }

  /** `params.get(key) || ctx || ''`. */
  function Prefill(fromUrl: Option<string>, fromSession: Option<string>): (r: string)
    ensures fromUrl.Some? && fromUrl.value != "" ==> r == fromUrl.value
    ensures (fromUrl.None? || fromUrl.value == "") && fromSession.Some? ==> r == fromSession.value
    ensures (fromUrl.None? || fromUrl.value == "") && fromSession.None? ==> r == ""
    ensures r == "" <==> OrNull(fromUrl).None? && OrNull(fromSession).None?
  {
    match OrNull(fromUrl)
    case Some(u) => u
    case None =>
      match OrNull(fromSession)
      case Some(c) => c
      case None => ""
  }

  /** The values the mount effect writes into the form. */
  function PrefillContact(params: UrlParams, id: Identity): (v: ContactValues)
    ensures v.firstname == Prefill(Param(params, "firstname"), id.firstname)
    ensures v.lastname == Prefill(Param(params, "lastname"), id.lastname)
    ensures v.zip == Prefill(Param(params, "zip"), id.zip)
    ensures v.state == Prefill(Param(params, "state"), id.state)
    ensures v.email == Prefill(Param(params, "email"), id.email)
    ensures v.phone == Prefill(Param(params, "phone"), id.phone)
  {
    ContactValues(
      Prefill(Param(params, "firstname"), id.firstname),
      Prefill(Param(params, "lastname"), id.lastname),
      Prefill(Param(params, "zip"), id.zip),
      Prefill(Param(params, "state"), id.state),
      Prefill(Param(params, "email"), id.email),
      Prefill(Param(params, "phone"), id.phone))
  }

  /** On a session seeded from the same URL, the form shows the raw URL names
      (not their capitalised session copies) and every other field as the
      URL has it. */
  lemma PrefillAfterSeeding(params: UrlParams)
    ensures var v := PrefillContact(params, IdentityFromUrl(params));
            v.firstname == (if "firstname" in params then params["firstname"] else "")
            && v.lastname == (if "lastname" in params then params["lastname"] else "")
            && v.zip == (if "zip" in params then params["zip"] else "")
            && v.state == (if "state" in params then params["state"] else "")
            && v.email == (if "email" in params then params["email"] else "")
            && v.phone == (if "phone" in params then params["phone"] else "")
  {
  }

  /** Scenario: `?firstname=john` — the session holds "John", the form "john". */
  lemma LowerCaseNameScenario()
    ensures IdentityFromUrl(map["firstname" := "john"]).firstname == Some("John")
    ensures PrefillContact(map["firstname" := "john"], IdentityFromUrl(map["firstname" := "john"])).firstname == "john"
  {
    var params := map["firstname" := "john"];
    assert Param(params, "firstname") == Some("john");
    assert [UpperChar('j')] + "john"[1..] == "John";
  }

  /** The identity a submit writes to the session: each value as a string,
      never `null`. */
  function SubmittedIdentity(v: ContactValues): (id: Identity)
    ensures id.firstname == Some(v.firstname) && id.lastname == Some(v.lastname)
    ensures id.zip == Some(v.zip) && id.state == Some(v.state)
    ensures id.email == Some(v.email) && id.phone == Some(v.phone)
  {
    Identity(Some(v.firstname), Some(v.lastname), Some(v.zip), Some(v.email), Some(v.phone), Some(v.state))
  }

  /** Round trip: revisiting the form without URL parameters shows exactly the
      values that passed the schema. */
  lemma PrefillShowsSubmitted(v: ContactValues, isEmail: string -> bool)
    requires ContactValid(v, isEmail)
    ensures PrefillContact(map[], SubmittedIdentity(v)) == v
  {
    TenDigitsNotEmpty(v.phone);
  }

  /** An empty phone shows both phone messages. */
  lemma EmptyPhoneFailsBothRules(v: ContactValues, isEmail: string -> bool)
    requires v.phone == ""
    ensures PhoneDigits in ContactErrors(v, isEmail) && PhoneRequired in ContactErrors(v, isEmail)
  {
    assert Fails(PhoneDigits, v, isEmail) && Fails(PhoneRequired, v, isEmail);
  }
}
