/** The shared application state: the contractor and service records, the
    visitor's identity, and the session object that every step reads and
    writes. The session holds the union of the fields the provider defines and
    the fields the form steps read from it. */
module AppContext {
  import opened Common

  /** A contractor record as the directory supplies it, with the two fields the
      matching steps add: `matchingServices` (multi-service flow) and `optIn`
      (appointment flow). */
  datatype Contractor = Contractor(
    id: int,
    name: string,
    address: string,
    photo: string,
    zip: string,
    state: string,
    services: seq<int>,
    matchingServices: seq<int>,
    optIn: bool)

  /** A catalogue entry. */
  datatype Service = Service(id: int, name: string, photo: string, specifications: seq<string>)

  /** The six identity fields; `None` is the source's `null`. */
  datatype Identity = Identity(
    firstname: Option<string>,
    lastname: Option<string>,
    zip: Option<string>,
    email: Option<string>,
    phone: Option<string>,
    state: Option<string>)

  /** `contractors.map(c => c.id)`. */
  function Ids(cs: seq<Contractor>): (r: seq<int>)
    ensures |r| == |cs|
    ensures forall i :: 0 <= i < |cs| ==> r[i] == cs[i].id
  {
    if cs == [] then [] else [cs[0].id] + Ids(cs[1..])
  }

  lemma IdsMembership(cs: seq<Contractor>, id: int)
    ensures id in Ids(cs) <==> exists c :: c in cs && c.id == id
  {
    if id in Ids(cs) {
      var i :| 0 <= i < |cs| && Ids(cs)[i] == id;
      assert cs[i] in cs;
    }
  }

  /** `catalog.find(s => s.id === id)`: the first entry with that id. */
  function FirstService(catalog: seq<Service>, id: int): (r: Option<Service>)
    ensures r.None? <==> forall s :: s in catalog ==> s.id != id
    ensures r.Some? ==> r.value in catalog && r.value.id == id
    ensures r.Some? ==> exists k :: 0 <= k < |catalog| && catalog[k] == r.value && r.value.id == id
                                    && forall j :: 0 <= j < k ==> catalog[j].id != id
  {
    if catalog == [] then None
    else if catalog[0].id == id then Some(catalog[0])
    else
      assert forall s :: s in catalog ==> s == catalog[0] || s in catalog[1..];
      var r := FirstService(catalog[1..], id);
      assert r.Some? ==> exists k :: 0 <= k < |catalog| && catalog[k] == r.value && r.value.id == id
                                     && forall j :: 0 <= j < k ==> catalog[j].id != id by {
        if r.Some? {
          var k :| 0 <= k < |catalog[1..]| && catalog[1..][k] == r.value && r.value.id == id
                   && forall j :: 0 <= j < k ==> catalog[1..][j].id != id;
          assert catalog[k + 1] == r.value;
          forall j | 0 <= j < k + 1 ensures catalog[j].id != id {
            if j > 0 { assert catalog[j] == catalog[1..][j - 1]; }
          }
        }
      }
      r
  }

  /** `contractor.zip === zip && contractor.state === state`: exact equality
      with the visitor's zip and state; a `null` matches nothing. */
  predicate InArea(c: Contractor, zip: Option<string>, state: Option<string>) {
    zip == Some(c.zip) && state == Some(c.state)
  }

  /** No two records share an id. */
  predicate DistinctIds(cs: seq<Contractor>) {
    forall i, j :: 0 <= i < |cs| && 0 <= j < |cs| && cs[i].id == cs[j].id ==> i == j
  }

  lemma DistinctIdsTail(cs: seq<Contractor>)
    requires cs != []
    ensures DistinctIds(cs) ==> DistinctIds(cs[1..])
  {
    if DistinctIds(cs) {
      forall i, j | 0 <= i < |cs[1..]| && 0 <= j < |cs[1..]| && cs[1..][i].id == cs[1..][j].id ensures i == j {
        assert cs[1..][i] == cs[i + 1] && cs[1..][j] == cs[j + 1];
      }
    }
  }

  lemma SameIdSameContractor(cs: seq<Contractor>, c: Contractor, d: Contractor)
    requires DistinctIds(cs) && c in cs && d in cs && c.id == d.id
    ensures c == d
  {
    var i :| 0 <= i < |cs| && cs[i] == c;
    var j :| 0 <= j < |cs| && cs[j] == d;
  }

  // ---------------------------------------------------------------------
  // URL seeding

  /** The page's query string: a parameter name maps to its (first) value. */
  type UrlParams = map<string, string>

  /** `params.get(key)`: `null` when the parameter is absent. */
  function Param(params: UrlParams, key: string): Option<string> {
    if key in params then Some(params[key]) else None
  }

  /** `value || null`: an absent or empty value becomes `null`. */
  function OrNull(value: Option<string>): (r: Option<string>)
    ensures r.None? <==> value.None? || value.value == ""
    ensures r.Some? ==> r == value
  {
    if value.Some? && value.value != "" then value else None
  }

  /** `capitalizeFirstLetter`: `null` and `''` come back unchanged; any other
      string has its first character upper-cased and the rest kept. */
  function CapitalizeFirstLetter(str: Option<string>): (r: Option<string>)
    ensures r.None? <==> str.None?
    ensures str == Some("") ==> r == str
    ensures str.Some? ==> |r.value| == |str.value|
    ensures str.Some? && str.value != "" ==>
              r.value[0] == UpperChar(str.value[0]) && r.value[1..] == str.value[1..]
  {
    match str
    case None => None
    case Some(s) => if s == "" then str else Some([UpperChar(s[0])] + s[1..])
  }

  /** Capitalising an already capitalised name changes nothing. */
  lemma CapitalizeIdempotent(str: Option<string>)
    ensures CapitalizeFirstLetter(CapitalizeFirstLetter(str)) == CapitalizeFirstLetter(str)
  {
    if str.Some? && str.value != "" {
      var once := CapitalizeFirstLetter(str).value;
      assert once[0] == UpperChar(str.value[0]);
      assert UpperChar(once[0]) == once[0];
      assert [once[0]] + once[1..] == once;
    }
  }

  /** What the provider's mount effect seeds.  Names keep an empty value as
      `''`; the other four fields turn an empty value into `null`. */
  function IdentityFromUrl(params: UrlParams): (id: Identity)
    ensures id.firstname.None? <==> "firstname" !in params
    ensures id.lastname.None? <==> "lastname" !in params
    ensures "firstname" in params && params["firstname"] == "" ==> id.firstname == Some("")
    ensures "lastname" in params && params["lastname"] == "" ==> id.lastname == Some("")
    ensures id.zip.None? <==> "zip" !in params || params["zip"] == ""
    ensures id.email.None? <==> "email" !in params || params["email"] == ""
    ensures id.phone.None? <==> "phone" !in params || params["phone"] == ""
    ensures id.state.None? <==> "state" !in params || params["state"] == ""
    ensures id.zip.Some? ==> id.zip.value == params["zip"]
    ensures id.email.Some? ==> id.email.value == params["email"]
    ensures id.phone.Some? ==> id.phone.value == params["phone"]
    ensures id.state.Some? ==> id.state.value == params["state"]
  {
    Identity(
      CapitalizeFirstLetter(Param(params, "firstname")),
      CapitalizeFirstLetter(Param(params, "lastname")),
      OrNull(Param(params, "zip")),
      OrNull(Param(params, "email")),
      OrNull(Param(params, "phone")),
      OrNull(Param(params, "state")))
  }

  // ---------------------------------------------------------------------
  // The session

  class Session {
    // identity (seeded from the URL, rewritten by the details steps)
    var firstname: Option<string>
    var lastname: Option<string>
    var zip: Option<string>
    var email: Option<string>
    var phone: Option<string>
    var state: Option<string>
    // multi-service flow
    var initialService: int
    var selectedServices: seq<int>
    var matchingContractors: seq<Contractor>
    var selectedContractors: seq<Contractor>
    // single-service (appointment) flow
    var selectedService: int
    var serviceSpecifications: seq<string>
    var contractorPreferences: seq<string>
    var promo: string
    var generalOptIn: bool
    var newsletterOptIn: bool
    var termsAndPrivacyOptIn: bool
    var consentedContractors: seq<Contractor>
    var numberOfQuotes: int
    var formId: string

    function CurrentIdentity(): Identity
      reads this
    {
      Identity(firstname, lastname, zip, email, phone, state)
    }

    /** The provider's initial state: no identity, no initial service, empty
        lists.  Fields the provider does not define start neutral. */
    constructor(formId: string)
      ensures CurrentIdentity() == Identity(None, None, None, None, None, None)
      ensures initialService == 0
      ensures selectedServices == [] && matchingContractors == [] && selectedContractors == []
      ensures selectedService == 0 && serviceSpecifications == [] && contractorPreferences == []
      ensures promo == "" && !generalOptIn && !newsletterOptIn && !termsAndPrivacyOptIn
      ensures consentedContractors == [] && numberOfQuotes == 0 && this.formId == formId
    {
      firstname, lastname, zip, email, phone, state := None, None, None, None, None, None;
      initialService := 0;
      selectedServices, matchingContractors, selectedContractors := [], [], [];
      selectedService, serviceSpecifications, contractorPreferences := 0, [], [];
      promo, generalOptIn, newsletterOptIn, termsAndPrivacyOptIn := "", false, false, false;
      consentedContractors, numberOfQuotes := [], 0;
      this.formId := formId;
    }

    /** The provider's mount effect: the six identity fields from the URL,
        nothing else. */
    method SeedFromUrl(params: UrlParams)
      modifies this`firstname, this`lastname, this`zip, this`email, this`phone, this`state
      ensures CurrentIdentity() == IdentityFromUrl(params)
    {
      firstname := CapitalizeFirstLetter(Param(params, "firstname"));
      lastname := CapitalizeFirstLetter(Param(params, "lastname"));
      zip := OrNull(Param(params, "zip"));
      email := OrNull(Param(params, "email"));
      phone := OrNull(Param(params, "phone"));
      state := OrNull(Param(params, "state"));
    }
  }
}
