/**
 * The sub-document shapes that lib/models/NewCustomer.ts and
 * lib/models/Customer.ts both declare, field for field, and the
 * type-conditional `required` rules they share.
 */
module Records {
  import opened Wrappers

  /** The applicant's `type`: 'person', 'company', or any other value (a missing one included). */
  datatype ApplicantType = Person | Company | Other

  datatype PhoneNumber = PhoneNumber(number: string, isMainNumber: bool, isVerified: bool)

  datatype Email = Email(address: string, isMainEmail: bool, isVerified: bool)

  datatype ContactInfo = ContactInfo(phoneNumbers: seq<PhoneNumber>, emails: seq<Email>)

  /** Personal information ("pessoa física"); the CPF is the tax identifier. */
  datatype PersonalInfo = PersonalInfo(
    name: string,
    cpf: string,
    nationality: string,
    motherName: string,
    fatherName: Option<string>,
    spouseName: Option<string>)

  /** Company information ("pessoa jurídica"); the CNPJ is the tax identifier. */
  datatype CompanyInfo = CompanyInfo(
    companyName: string,
    tradingName: string,
    municipalRegistration: string,
    stateRegistration: string,
    cnpj: string,
    field: string)

  datatype Address = Address(
    streetAddress: string,
    additionalAddress: Option<string>,
    district: string,
    city: string,
    state: string,
    number: string,
    zipCode: string,
    country: string)

  /** Reading a field of an absent info block throws a TypeError. */
  datatype TypeError = MissingInfoBlock

  /** `personalInfo` is required when `type` is 'person'. */
  predicate PersonalInfoRequired(t: ApplicantType) {
    t == Person
  }

  /** `companyInfo` is required when `type` is 'company'. */
  predicate CompanyInfoRequired(t: ApplicantType) {
    t == Company
  }

  /** The two `required()` rules: each info block is present when its type demands it. */
  predicate InfoBlocksRequiredHold(t: ApplicantType, personalInfo: Option<PersonalInfo>, companyInfo: Option<CompanyInfo>) {
    && (PersonalInfoRequired(t) ==> personalInfo.Some?)
    && (CompanyInfoRequired(t) ==> companyInfo.Some?)
  }

  /** The record holds `address` among its e-mails. */
  predicate HasEmailAddress(c: ContactInfo, address: string) {
    exists i | 0 <= i < |c.emails| :: c.emails[i].address == address
  }
}

/** What the type-conditional `required` rules reject. */
module RecordProperties {
  import opened Wrappers
  import opened Records

  /** A document fails the rules exactly when a person lacks personal information or a company lacks company information. */
  lemma InfoBlocksRequiredRejects(t: ApplicantType, p: Option<PersonalInfo>, c: Option<CompanyInfo>)
    ensures !InfoBlocksRequiredHold(t, p, c) <==> (t == Person && p.None?) || (t == Company && c.None?)
  {
  }
}
