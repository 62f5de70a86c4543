/**
 * The registration application of lib/models/NewCustomer.ts: its stored
 * record, the document object that the pre-validate hook sanitises in place,
 * the duplicate-submission and duplicate-e-mail queries, and the
 * type-conditional `required` rules.
 */
module NewCustomerModel {
  import opened Wrappers
  import opened Collections
  import opened Records
  import opened Validators

  datatype Status = Pending | PreApproved | Approved | Refused

  /** A registration application as it is stored in the `newCustomers` collection. */
  datatype NewCustomer = NewCustomer(
    id: nat,
    address: Address,
    contactInfo: ContactInfo,
    status: Status,
    refusalReason: Option<string>,
    personalInfo: Option<PersonalInfo>,
    companyInfo: Option<CompanyInfo>,
    customerType: ApplicantType)

  /** The e-mails with their `isVerified` flag cleared, in the same order. */
  function UnverifiedEmails(es: seq<Email>): seq<Email> {
    seq(|es|, i requires 0 <= i < |es| => es[i].(isVerified := false))
  }

  /** The phone numbers with their `isVerified` flag cleared, in the same order. */
  function UnverifiedPhones(ps: seq<PhoneNumber>): seq<PhoneNumber> {
    seq(|ps|, i requires 0 <= i < |ps| => ps[i].(isVerified := false))
  }

  /**
   * The record the pre-validate hook leaves on a new document: nothing the
   * caller sent can mark a contact as verified or choose the status, and
   * only the info block that matches `type` survives.
   */
  function Sanitised(r: NewCustomer): NewCustomer {
    var contacts := ContactInfo(UnverifiedPhones(r.contactInfo.phoneNumbers), UnverifiedEmails(r.contactInfo.emails));
    var reset := r.(contactInfo := contacts, status := Pending);
    if r.customerType != Person then reset.(personalInfo := None) else reset.(companyInfo := None)
  }

  /** The `required()` rules of `personalInfo` and `companyInfo` on an application. */
  predicate RequiredRulesHold(r: NewCustomer) {
    InfoBlocksRequiredHold(r.customerType, r.personalInfo, r.companyInfo)
  }

  /** A Mongoose document of the `NewCustomer` model, updated in place by the hook and the controller. */
  class NewCustomerDoc {
    const id: nat
    var isNew: bool
    var address: Address
    var contactInfo: ContactInfo
    var status: Status
    var refusalReason: Option<string>
    var personalInfo: Option<PersonalInfo>
    var companyInfo: Option<CompanyInfo>
    var customerType: ApplicantType

    /** The document's fields as a stored record. */
    function Snapshot(): NewCustomer
      reads this
    {
      NewCustomer(id, address, contactInfo, status, refusalReason, personalInfo, companyInfo, customerType)
    }

    /** `new NewCustomerModel(body)`: a document built from the request body, not yet saved. */
    constructor (body: NewCustomer)
      ensures isNew && Snapshot() == body
    {
      id := body.id;
      isNew := true;
      address := body.address;
      contactInfo := body.contactInfo;
      status := body.status;
      refusalReason := body.refusalReason;
      personalInfo := body.personalInfo;
      companyInfo := body.companyInfo;
      customerType := body.customerType;
    }

    /**
     * The `pre('validate')` hook, run by every save: a new document is
     * sanitised, a saved one is left as it is.
     */
    method PreValidate()
      modifies this
      ensures isNew == old(isNew)
      ensures Snapshot() == if old(isNew) then Sanitised(old(Snapshot())) else old(Snapshot())
    {
      if isNew {
        var emails := contactInfo.emails;
        for i := 0 to |emails|
          invariant |emails| == |old(contactInfo.emails)|
          invariant forall k | 0 <= k < i :: emails[k] == old(contactInfo.emails)[k].(isVerified := false)
          invariant forall k | i <= k < |emails| :: emails[k] == old(contactInfo.emails)[k]
        {
          emails := emails[i := emails[i].(isVerified := false)];
        }
        contactInfo := contactInfo.(emails := emails);

        var phones := contactInfo.phoneNumbers;
        for i := 0 to |phones|
          invariant |phones| == |old(contactInfo.phoneNumbers)|
          invariant forall k | 0 <= k < i :: phones[k] == old(contactInfo.phoneNumbers)[k].(isVerified := false)
          invariant forall k | i <= k < |phones| :: phones[k] == old(contactInfo.phoneNumbers)[k]
        {
          phones := phones[i := phones[i].(isVerified := false)];
        }
        contactInfo := contactInfo.(phoneNumbers := phones);

        status := Pending;

        if customerType != Person {
          personalInfo := None;
        } else {
          companyInfo := None;
        }
      }
    }
  }

  // ---------------------------------------------------------------------------
  // Queries over the stored applications

  /** The tax identifier an application is looked up by. */
  datatype TaxId = Cpf(cpf: string) | Cnpj(cnpj: string)

  /** The CNPJ of a company, the CPF of any other type; a TypeError when that info block is absent. */
  function SelectedTaxId(r: NewCustomer): Result<TaxId, TypeError> {
    if r.customerType == Company then
      if r.companyInfo.Some? then Ok(Cnpj(r.companyInfo.value.cnpj)) else Err(MissingInfoBlock)
    else
      if r.personalInfo.Some? then Ok(Cpf(r.personalInfo.value.cpf)) else Err(MissingInfoBlock)
  }

  /** The stored record carries the identifier in the matching info block. */
  predicate HoldsTaxId(r: NewCustomer, id: TaxId) {
    match id
    case Cpf(v) => r.personalInfo.Some? && r.personalInfo.value.cpf == v
    case Cnpj(v) => r.companyInfo.Some? && r.companyInfo.value.cnpj == v
  }

  /** An application counts against others unless it was refused. */
  predicate IsActive(r: NewCustomer) {
    r.status != Refused
  }

  /** The filter `{ status: { $ne: 'refused' }, <identifier path>: id }`. */
  function ActiveHolderOf(id: TaxId): NewCustomer -> bool {
    r => IsActive(r) && HoldsTaxId(r, id)
  }

  /** The static `isAlreadySignedUp`: some application that is not refused has the applicant's identifier. */
  function IsAlreadySignedUp(store: seq<NewCustomer>, applicant: NewCustomer): Result<bool, TypeError> {
    match SelectedTaxId(applicant)
    case Err(e) => Err(e)
    case Ok(id) => Ok(Count(store, ActiveHolderOf(id)) > 0)
  }

  /**
   * The filter of `duplicateEmailValidator`: an application that is not
   * refused, has the address among its e-mails and, when the document
   * being validated was saved before, is not that document.
   */
  function EmailHolderOf(address: string, documentId: nat, documentIsNew: bool): NewCustomer -> bool {
    r => IsActive(r) && HasEmailAddress(r.contactInfo, address) && (documentIsNew || r.id != documentId)
  }

  /** `duplicateEmailValidator`: the address is accepted when the count of holders is zero. */
  function DuplicateEmailValidator(store: seq<NewCustomer>, documentId: nat, documentIsNew: bool, address: string): bool {
    Count(store, EmailHolderOf(address, documentId, documentIsNew)) == 0
  }

  // ---------------------------------------------------------------------------
  // What a save admits

  /** No stored application carries `id`: the unique `_id` index admits an insert. */
  predicate IdFresh(store: seq<NewCustomer>, id: nat) {
    forall i | 0 <= i < |store| :: store[i].id != id
  }

  /** Every stored application has its own `_id`. */
  predicate DistinctIds(store: seq<NewCustomer>) {
    forall i, j | 0 <= i < j < |store| :: store[i].id != store[j].id
  }

  /**
   * The schema validation `save` runs after the hook: `type` is one of the
   * enum values, the `required()` rules hold, the CPF, CNPJ and country
   * validators accept the blocks present and the address, and
   * `duplicateEmailValidator` accepts every e-mail. The ISO 3166-1 lookup
   * is a parameter.
   */
  predicate SchemaAdmits(store: seq<NewCustomer>, r: NewCustomer, isNew: bool, isIsoAlpha3: string -> bool) {
    && r.customerType != Other
    && RequiredRulesHold(r)
    && (r.personalInfo.Some? ==>
          CpfAccepts(r.personalInfo.value.cpf) && CountryCodeValidator(Some(r.personalInfo.value.nationality), isIsoAlpha3))
    && (r.companyInfo.Some? ==> CnpjAccepts(r.companyInfo.value.cnpj))
    && CountryCodeValidator(Some(r.address.country), isIsoAlpha3)
    && (forall i | 0 <= i < |r.contactInfo.emails| ::
          DuplicateEmailValidator(store, r.id, isNew, r.contactInfo.emails[i].address))
  }

  /** The first save of a new document succeeds as far as the schema and the `_id` index decide. */
  predicate InsertAdmits(store: seq<NewCustomer>, r: NewCustomer, isIsoAlpha3: string -> bool) {
    SchemaAdmits(store, r, true, isIsoAlpha3) && IdFresh(store, r.id)
  }
}

/** Properties of the hook, the queries and the required rules. */
module NewCustomerProperties {
  import opened Wrappers
  import opened Collections
  import opened Records
  import opened Validators
  import opened NewCustomerModel

  /** After the hook every e-mail and phone is unverified, and the lists keep their length, order and other fields. */
  lemma SanitisedContacts(r: NewCustomer)
    ensures var s := Sanitised(r).contactInfo;
      && |s.emails| == |r.contactInfo.emails|
      && |s.phoneNumbers| == |r.contactInfo.phoneNumbers|
      && (forall i | 0 <= i < |s.emails| :: !s.emails[i].isVerified && s.emails[i] == r.contactInfo.emails[i].(isVerified := false))
      && (forall i | 0 <= i < |s.phoneNumbers| ::
            !s.phoneNumbers[i].isVerified && s.phoneNumbers[i] == r.contactInfo.phoneNumbers[i].(isVerified := false))
  {
  }

  /**
   * After the hook the status is pending whatever was sent; the block that
   * does not match the type is cleared, the other kept; and id, address,
   * refusal reason and type are untouched.
   */
  lemma SanitisedFields(r: NewCustomer)
    ensures Sanitised(r).status == Pending
    ensures r.customerType != Person ==> Sanitised(r).personalInfo.None? && Sanitised(r).companyInfo == r.companyInfo
    ensures r.customerType == Person ==> Sanitised(r).companyInfo.None? && Sanitised(r).personalInfo == r.personalInfo
    ensures Sanitised(r).id == r.id && Sanitised(r).address == r.address
    ensures Sanitised(r).refusalReason == r.refusalReason && Sanitised(r).customerType == r.customerType
  {
  }

  /** Running the hook's sanitisation twice is the same as running it once. */
  lemma SanitisedIdempotent(r: NewCustomer)
    ensures Sanitised(Sanitised(r)) == Sanitised(r)
  {
    var s := Sanitised(r);
    assert UnverifiedEmails(s.contactInfo.emails) == s.contactInfo.emails;
    assert UnverifiedPhones(s.contactInfo.phoneNumbers) == s.contactInfo.phoneNumbers;
  }

  /**
   * A sanitised application of type person or company that passes the
   * required rules holds exactly the info block its type names.
   */
  lemma SanitisedKeepsExactlyMatchingBlock(r: NewCustomer)
    requires r.customerType != Other && RequiredRulesHold(Sanitised(r))
    ensures Sanitised(r).personalInfo.Some? <==> r.customerType == Person
    ensures Sanitised(r).companyInfo.Some? <==> r.customerType == Company
  {
  }

  /** `isAlreadySignedUp` answers true exactly when some application that is not refused holds the identifier. */
  lemma IsAlreadySignedUpIffActiveHolder(store: seq<NewCustomer>, applicant: NewCustomer)
    requires SelectedTaxId(applicant).Ok?
    ensures IsAlreadySignedUp(store, applicant).Ok?
    ensures IsAlreadySignedUp(store, applicant).value <==>
      exists i | 0 <= i < |store| :: IsActive(store[i]) && HoldsTaxId(store[i], SelectedTaxId(applicant).value)
  {
    var id := SelectedTaxId(applicant).value;
    CountPositiveIffSome(store, ActiveHolderOf(id));
  }

  /** A refused application never makes a later one a duplicate; one that is not refused and has the identifier always does. */
  lemma IsAlreadySignedUpAfterStoring(store: seq<NewCustomer>, r: NewCustomer, applicant: NewCustomer)
    requires SelectedTaxId(applicant).Ok?
    ensures r.status == Refused ==> IsAlreadySignedUp(store + [r], applicant) == IsAlreadySignedUp(store, applicant)
    ensures r.status != Refused && HoldsTaxId(r, SelectedTaxId(applicant).value) ==>
              IsAlreadySignedUp(store + [r], applicant) == Ok(true)
  {
    var id := SelectedTaxId(applicant).value;
    CountAppend(store, [r], ActiveHolderOf(id));
    assert [r][..0] == [];
  }

  /** Without the info block its type selects, the query throws. */
  lemma IsAlreadySignedUpThrowsWithoutBlock(store: seq<NewCustomer>, applicant: NewCustomer)
    requires applicant.customerType == Company ==> applicant.companyInfo.None?
    requires applicant.customerType != Company ==> applicant.personalInfo.None?
    ensures IsAlreadySignedUp(store, applicant) == Err(MissingInfoBlock)
  {
  }

  /**
   * `duplicateEmailValidator` accepts an address exactly when no
   * application that is not refused holds it, the document itself aside
   * once it has been saved.
   */
  lemma DuplicateEmailValidatorIff(store: seq<NewCustomer>, documentId: nat, documentIsNew: bool, address: string)
    ensures DuplicateEmailValidator(store, documentId, documentIsNew, address) <==>
      forall i | 0 <= i < |store| ::
        !(IsActive(store[i]) && HasEmailAddress(store[i].contactInfo, address) && (documentIsNew || store[i].id != documentId))
  {
    CountPositiveIffSome(store, EmailHolderOf(address, documentId, documentIsNew));
  }

  /** An insert the `_id` index admits keeps every stored id distinct. */
  lemma InsertKeepsDistinctIds(store: seq<NewCustomer>, r: NewCustomer)
    requires DistinctIds(store) && IdFresh(store, r.id)
    ensures DistinctIds(store + [r])
  {
  }

  /**
   * A saved application has the info block its type selects, so the
   * identifier lookups (`isAlreadySignedUp`, the blacklist query) cannot throw on it.
   */
  lemma AdmittedApplicationHasTaxId(store: seq<NewCustomer>, r: NewCustomer, isNew: bool, isIsoAlpha3: string -> bool)
    requires SchemaAdmits(store, r, isNew, isIsoAlpha3)
    ensures SelectedTaxId(r).Ok?
    ensures r.customerType == Company ==> SelectedTaxId(r).value.Cnpj? && CnpjAccepts(SelectedTaxId(r).value.cnpj)
    ensures r.customerType == Person ==> SelectedTaxId(r).value.Cpf? && CpfAccepts(SelectedTaxId(r).value.cpf)
  {
  }

  /**
   * An address that `duplicateEmailValidator` accepted on a new document is
   * still accepted once that document is stored and validated again: the
   * filter then leaves out the document's own id.
   */
  lemma {:induction false} DuplicateEmailStillAccepted(store: seq<NewCustomer>, r: NewCustomer, address: string)
    requires DuplicateEmailValidator(store, r.id, true, address)
    ensures DuplicateEmailValidator(store + [r], r.id, false, address)
  {
    CountPositiveIffSome(store, EmailHolderOf(address, r.id, true));
    CountPositiveIffSome(store, EmailHolderOf(address, r.id, false));
    CountAppend(store, [r], EmailHolderOf(address, r.id, false));
    CountPositiveIffSome([r], EmailHolderOf(address, r.id, false));
  }

  /**
   * The second save of the controller validates again: once the first
   * save admitted the application, a copy that differs only in its status
   * and refusal reason is admitted as a stored document.
   */
  lemma ResaveRevalidates(store: seq<NewCustomer>, r: NewCustomer, r2: NewCustomer, isIsoAlpha3: string -> bool)
    requires SchemaAdmits(store, r, true, isIsoAlpha3)
    requires r2 == r.(status := r2.status, refusalReason := r2.refusalReason)
    ensures SchemaAdmits(store + [r], r2, false, isIsoAlpha3)
  {
    forall i | 0 <= i < |r2.contactInfo.emails|
      ensures DuplicateEmailValidator(store + [r], r2.id, false, r2.contactInfo.emails[i].address)
    {
      DuplicateEmailStillAccepted(store, r, r.contactInfo.emails[i].address);
    }
  }
}
