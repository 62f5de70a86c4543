/**
 * The approved customer of lib/models/Customer.ts: its `displayName`
 * getter, its duplicate-e-mail validator (no status filter), and its CPF and
 * CNPJ fields, checked by the same validators and declared unique (sparse).
 */
module CustomerModel {
  import opened Wrappers
  import opened Collections
  import opened Records
  import opened Validators

  /** A customer as stored in the `customers` collection; `onboarding` is the id of its application. */
  datatype Customer = Customer(
    id: nat,
    onboarding: nat,
    address: Address,
    contactInfo: ContactInfo,
    personalInfo: Option<PersonalInfo>,
    companyInfo: Option<CompanyInfo>,
    customerType: ApplicantType)

  /** The `displayName` getter: a company's trading name, anyone else's name; a TypeError when that block is absent. */
  function DisplayName(c: Customer): Result<string, TypeError> {
    if c.customerType == Company then
      if c.companyInfo.Some? then Ok(c.companyInfo.value.tradingName) else Err(MissingInfoBlock)
    else
      if c.personalInfo.Some? then Ok(c.personalInfo.value.name) else Err(MissingInfoBlock)
  }

  /** The `required()` rules of `personalInfo` and `companyInfo` on a customer. */
  predicate RequiredRulesHold(c: Customer) {
    InfoBlocksRequiredHold(c.customerType, c.personalInfo, c.companyInfo)
  }

  /** The filter of the customer `duplicateEmailValidator`: any holder of the address, the saved document itself aside. */
  function EmailHolderOf(address: string, documentId: nat, documentIsNew: bool): Customer -> bool {
    (r: Customer) => HasEmailAddress(r.contactInfo, address) && (documentIsNew || r.id != documentId)
  }

  function DuplicateEmailValidator(store: seq<Customer>, documentId: nat, documentIsNew: bool, address: string): bool {
    Count(store, EmailHolderOf(address, documentId, documentIsNew)) == 0
  }

  /** The present identifiers pass `cpfValidator` and `cnpjValidator`. */
  predicate IdentifiersValid(c: Customer) {
    && (c.personalInfo.Some? ==> CpfAccepts(c.personalInfo.value.cpf))
    && (c.companyInfo.Some? ==> CnpjAccepts(c.companyInfo.value.cnpj))
  }

  /** Both customers have a CPF and it is the same. */
  predicate SharesCpf(a: Customer, b: Customer) {
    a.personalInfo.Some? && b.personalInfo.Some? && a.personalInfo.value.cpf == b.personalInfo.value.cpf
  }

  /** Both customers have a CNPJ and it is the same. */
  predicate SharesCnpj(a: Customer, b: Customer) {
    a.companyInfo.Some? && b.companyInfo.Some? && a.companyInfo.value.cnpj == b.companyInfo.value.cnpj
  }

  /** The sparse unique indexes: no two stored customers share a CPF or a CNPJ; a missing one is not indexed. */
  predicate IdentifiersUnique(store: seq<Customer>) {
    forall i, j | 0 <= i < j < |store| :: !SharesCpf(store[i], store[j]) && !SharesCnpj(store[i], store[j])
  }

  /** What a save of `c` must pass on these fields: both validators and both unique indexes. */
  predicate SaveAdmits(store: seq<Customer>, c: Customer) {
    && IdentifiersValid(c)
    && forall i | 0 <= i < |store| :: !SharesCpf(store[i], c) && !SharesCnpj(store[i], c)
  }

  /** The collection invariant these declarations keep: valid and unique identifiers. */
  predicate StoreInvariant(store: seq<Customer>) {
    IdentifiersUnique(store) && forall i | 0 <= i < |store| :: IdentifiersValid(store[i])
  }
}

/** Properties of the customer model. */
module CustomerProperties {
  import opened Wrappers
  import opened Collections
  import opened Records
  import opened Validators
  import opened CustomerModel

  /** For a person or company that passes the required rules the getter never throws, and it names the right block. */
  lemma DisplayNameOfValidCustomer(c: Customer)
    requires c.customerType != Other && RequiredRulesHold(c)
    ensures DisplayName(c).Ok?
    ensures c.customerType == Company ==> DisplayName(c).value == c.companyInfo.value.tradingName
    ensures c.customerType == Person ==> DisplayName(c).value == c.personalInfo.value.name
  {
  }

  /** The customer validator rejects an address that any customer holds, whatever its state, except the saved document itself. */
  lemma DuplicateEmailValidatorIff(store: seq<Customer>, documentId: nat, documentIsNew: bool, address: string)
    ensures DuplicateEmailValidator(store, documentId, documentIsNew, address) <==>
      forall i | 0 <= i < |store| ::
        !(HasEmailAddress(store[i].contactInfo, address) && (documentIsNew || store[i].id != documentId))
  {
    CountPositiveIffSome(store, EmailHolderOf(address, documentId, documentIsNew));
  }

  /** Every save the validators and indexes admit keeps the stored identifiers valid and unique. */
  lemma SaveKeepsStoreInvariant(store: seq<Customer>, c: Customer)
    requires StoreInvariant(store) && SaveAdmits(store, c)
    ensures StoreInvariant(store + [c])
  {
    var s := store + [c];
    forall i, j | 0 <= i < j < |s| ensures !SharesCpf(s[i], s[j]) && !SharesCnpj(s[i], s[j]) {
      if j < |store| {
        assert s[i] == store[i] && s[j] == store[j];
      } else {
        assert s[i] == store[i] && s[j] == c;
      }
    }
  }
}
