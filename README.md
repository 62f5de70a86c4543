# Customer onboarding: identifier validation and the blacklist decision

This project models the core of a customer-onboarding backend for Brazilian
customers:

- the schema validators for the CPF and CNPJ tax identifiers and for ISO 3166-1 alpha-3 country codes;
- the new-application model, with its pre-validation hook, its "already signed up" query and its duplicate-e-mail check;
- the customer model, with its display name, duplicate-e-mail check and the unique indexes on CPF and CNPJ;
- the blacklist model and its "one of the two identifiers is required" rules;
- the two controllers. Registration saves an application, looks its identifier up in the blacklist, refuses or pre-approves it, and mails pre-approved applicants. Blacklisting rejects a CPF that is already listed and otherwise inserts the entry.

The validators are modelled at the level of JavaScript values:

- `parseInt` of a non-digit character is `NaN`;
- arithmetic with `NaN` gives `NaN`;
- `!==` against `NaN` is always true;
- `%` truncates;
- string length counts UTF-16 code units.

Each validator loop is a Dafny `method` proved equal to a declarative acceptance predicate (`CpfAccepts`, `CnpjAccepts`). The properties of the identifiers are proved about those predicates:

- uniqueness of the check digits;
- detection of a changed check digit;
- the known vectors;
- the looseness the code really has.

A document that the hook and the controller update in place is a `class`
(`NewCustomerDoc`). The database and the mail sender are classes whose
sequences the controllers append to (`Store`, `Mailer`). Queries over the
collections are functions on sequences.

Files:

- `wrappers.dfy`: `Option` and `Result`.
- `collections.dfy`: counting, which stands for the store's `count`.
- `js_number.dfy`: the JavaScript number semantics used by the validators.
- `check_digits.dfy`: the weighted sums and the mod-11 rule.
- `validators.dfy`: the three validators and their properties.
- `records.dfy`: the shared sub-documents.
- `new_customer.dfy`: the new-application model.
- `customer.dfy`: the customer model.
- `blacklist.dfy`: the blacklist model.
- `persistence.dfy`: the store and the mailer.
- `new_customer_controller.dfy` and `blacklist_controller.dfy`: the two controllers.

Some behaviour of the code is looser than its field names suggest. The model keeps it as written:

- **Unanchored digit checks.** The digit-run checks are unanchored, so CPF ignores anything after the first 11 characters (`CpfIgnoresTail`). CNPJ accepts any all-digit string of length 14 or more whose last two digits check out. Its starting weight grows with the length, and a leading `0` never changes the verdict (`CnpjLeadingZero`, `CnpjAcceptsFifteenCharacters`).
- **Blacklist identifiers.** The schema demands at least one identifier, so an entry with both passes (`EntryIdentifierExamples`).
- **No duplicate-submission guard.** `isAlreadySignedUp` (lib/models/NewCustomer.ts:271-281) is defined, but the registration handler never calls it. A second application carrying the CPF or CNPJ of an active one is saved as long as it shares no e-mail address with it (`DuplicateTaxIdStillAdmitted`).

## Model

| member | source | states |
|---|---|---|
| JsNumber.DigitValue | helpers/mongooseValidators.ts:30 | `parseInt` of a decimal digit character is a value from 0 to 9 |
| JsNumber.DigitChar | helpers/mongooseValidators.ts:30 | every value 0 to 9 is written by a digit character that parses back to it |
| JsNumber.ParseDigit | helpers/mongooseValidators.ts:30 | no contract of its own: `parseInt(c, 10)` of one character, a digit's value or `NaN`; used by `PartialSumStep` |
| JsNumber.CheckDigitOf | helpers/mongooseValidators.ts:37 | no contract of its own: the check-digit expression on a JavaScript number, `NaN` in, `NaN` out; its meaning is `CheckDigitOfPartialSum` |
| JsNumber.JsRem | helpers/mongooseValidators.ts:37 | the truncating `%` agrees with the mathematical remainder on non-negative sums and always lies strictly between -b and b |
| CheckDigits.CheckDigit | helpers/mongooseValidators.ts:83 | the check digit is at most 9; it is 0 exactly when the remainder is below 2; otherwise adding it makes the sum a multiple of 11 |
| CheckDigits.HasDigitRun | helpers/mongooseValidators.ts:19 | no contract of its own: the unanchored `/\d{n}/` test, a run of n digits anywhere; `CpfGatePassesRejectedInput` shows what it lets through |
| CheckDigits.WeightedSum | helpers/mongooseValidators.ts:29-35 | no contract of its own: the sum of digit times weight over the first n characters; `CheckDigitOfPartialSum` ties the loop's sum to it |
| CheckDigits.PartialSumStep | helpers/mongooseValidators.ts:29-35 | one loop iteration adds the parsed digit times its weight to the running sum, with `NaN` absorbing |
| CheckDigits.CheckDigitOfPartialSum | helpers/mongooseValidators.ts:37-39 | the computed check digit is `NaN` when a non-digit was read, and otherwise the mod-11 digit of the integer weighted sum |
| CheckDigits.WeightedSumPrefix | helpers/mongooseValidators.ts:89-94 | a weighted sum depends only on the characters it reads, so the second pass can be taken over the whole string |
| CheckDigits.CyclingWeightShift | helpers/mongooseValidators.ts:27-34 | the CNPJ weight k+1 places from a start is the weight k places from the next start (decrement, wrapping below 2 to 9) |
| CheckDigits.WeightedSumLeadingZero | helpers/mongooseValidators.ts:23-35 | prefixing a `0` adds nothing to the CNPJ sum and shifts every weight by one step |
| Validators.CpfValidator | helpers/mongooseValidators.ts:66-103 | the loop validator returns exactly `CpfAccepts`: a run of 11 digits, the first 11 characters digits, and both mod-11 check digits (weights 10..2, then 11..2) matching |
| Validators.CpfAccepts | helpers/mongooseValidators.ts:66-103 | no contract of its own: the acceptance rule the CPF loops are proved equal to; `CpfCompletionUnique` states what it accepts |
| Validators.CnpjValidator | helpers/mongooseValidators.ts:18-64 | the loop validator returns exactly `CnpjAccepts`: a run of 14 digits, every character a digit, and both check digits at the end matching with the cycling weights from `size - 7` |
| Validators.CnpjAccepts | helpers/mongooseValidators.ts:18-64 | no contract of its own: the acceptance rule the CNPJ loops are proved equal to; `CnpjCompletionUnique` and `CnpjLeadingZero` state what it accepts |
| Validators.LeadingWhitespace | helpers/mongooseValidators.ts:5 | counts exactly the leading JavaScript whitespace characters |
| Validators.TrailingWhitespace | helpers/mongooseValidators.ts:5 | counts exactly the trailing JavaScript whitespace characters |
| Validators.Trim | helpers/mongooseValidators.ts:5 | the trimmed string is a contiguous slice of the input, and neither of its ends is whitespace |
| Validators.Utf16Length | helpers/mongooseValidators.ts:7 | the JavaScript length is between the number of code points and twice it |
| Validators.CountryCodeValidator | helpers/mongooseValidators.ts:3-11 | accepts only a present, non-empty code whose trimmed length is 3 and that the ISO lookup recognises untrimmed; for such a length the verdict is the lookup's |
| Collections.Count | lib/models/NewCustomer.ts:66 | a count never exceeds the collection size |
| Collections.CountPositiveIffSome | lib/models/NewCustomer.ts:277 | `count(query) > 0` holds exactly when some record matches the query |
| Collections.CountAppend | lib/models/NewCustomer.ts:66 | counting over two collections is the sum of the counts |
| CheckDigitProperties.CpfCompletion | helpers/mongooseValidators.ts:76-96 | the two check digits computed from nine digits are two digits |
| CheckDigitProperties.CpfCompletionUnique | helpers/mongooseValidators.ts:76-100 | nine digits followed by two characters are accepted exactly when those are the computed check digits |
| CheckDigitProperties.CpfDetectsCheckDigitChange | helpers/mongooseValidators.ts:85-100 | changing either check digit of a valid 11-digit CPF makes it invalid |
| CheckDigitProperties.CpfIgnoresTail | helpers/mongooseValidators.ts:72-80 | anything after the first 11 characters leaves the CPF verdict unchanged |
| CheckDigitProperties.CpfGatePassesRejectedInput | helpers/mongooseValidators.ts:72 | the unanchored gate lets `a11144477735` through, and the checksum then rejects it |
| CheckDigitProperties.CpfKnownVectors | helpers/mongooseValidators.ts:66-103 | `11144477735` is accepted and `11144477736` is rejected |
| CheckDigitProperties.CpfAcceptsTrailingCharacters | helpers/mongooseValidators.ts:72-100 | `11144477735-00` is accepted: the characters after the first 11 are never read |
| CheckDigitProperties.CnpjCompletion | helpers/mongooseValidators.ts:23-57 | the two check digits computed from an all-digit base of 12 or more digits are two digits |
| CheckDigitProperties.CnpjWeightsOfFourteenDigits | helpers/mongooseValidators.ts:27-34 | for 14 characters the weights are 5,4,3,2,9,…,2 and then 6,5,4,3,2,9,…,2 |
| CheckDigitProperties.CnpjCompletionUnique | helpers/mongooseValidators.ts:23-61 | an all-digit base of 12 or more digits followed by two characters is accepted exactly when those are the computed check digits |
| CheckDigitProperties.CnpjDetectsCheckDigitChange | helpers/mongooseValidators.ts:39-61 | changing either of the last two characters of an accepted CNPJ, of any length, makes it rejected |
| CheckDigitProperties.CnpjLeadingZero | helpers/mongooseValidators.ts:19-35 | a leading `0` on 14 or more characters never changes the CNPJ verdict |
| CheckDigitProperties.CnpjExampleCompletion | helpers/mongooseValidators.ts:23-57 | the check digits of `112223330001` are `81` |
| CheckDigitProperties.CnpjKnownVectors | helpers/mongooseValidators.ts:18-64 | `11222333000181` is accepted and `11222333000182` is rejected |
| CheckDigitProperties.CnpjAcceptsFifteenCharacters | helpers/mongooseValidators.ts:19 | the 15-character `011222333000181` is accepted |
| CountryCodeProperties.TrimIdempotent | helpers/mongooseValidators.ts:5 | trimming twice is trimming once |
| CountryCodeProperties.TrimOfTrimmed | helpers/mongooseValidators.ts:5 | a string with no whitespace at either end is its own trim |
| CountryCodeProperties.CountryCodeWrongLengths | helpers/mongooseValidators.ts:4-10 | absent, empty, 2-letter and 4-letter codes are rejected whatever the lookup says |
| CountryCodeProperties.CountryCodeThreeLetters | helpers/mongooseValidators.ts:5-7 | `BRA` and ` BRA ` get exactly the lookup's verdict on the code as given, untrimmed |
| RecordProperties.InfoBlocksRequiredRejects | lib/models/NewCustomer.ts:304-308 | the conditional `required` rules fail exactly for a person without personal info or a company without company info |
| NewCustomerModel.NewCustomerDoc.constructor | lib/controllers/newCustomer.controller.ts:18 | a document built from the body is new and holds the body's fields |
| NewCustomerModel.NewCustomerDoc.PreValidate | lib/models/NewCustomer.ts:245-269 | on a new document the hook leaves exactly `Sanitised` of its fields; on a stored one it changes nothing |
| NewCustomerModel.Sanitised | lib/models/NewCustomer.ts:245-269 | no contract of its own: the hook's result on a new document; `SanitisedContacts`, `SanitisedFields` and `SanitisedIdempotent` state it |
| NewCustomerModel.SelectedTaxId | lib/controllers/newCustomer.controller.ts:7-13 | no contract of its own: the CNPJ of a company, the CPF of anyone else, or a TypeError when that block is absent; the same selection opens `isAlreadySignedUp` (lib/models/NewCustomer.ts:275-280); `BlacklistQuerySelectsIdentifier` states it |
| NewCustomerModel.IsAlreadySignedUp | lib/models/NewCustomer.ts:272-281 | no contract of its own: the count of active holders of the identifier is positive; `IsAlreadySignedUpIffActiveHolder` states its meaning |
| NewCustomerModel.DuplicateEmailValidator | lib/models/NewCustomer.ts:55-67 | no contract of its own: the count of active holders of the address, the document aside once stored, is zero; `DuplicateEmailValidatorIff` states its meaning |
| NewCustomerModel.SchemaAdmits | lib/models/NewCustomer.ts:286-311 | no contract of its own: the type enum, the `required()` rules, the CPF, CNPJ and country validators, and `duplicateEmailValidator` on every e-mail; `AdmittedApplicationHasTaxId` and `ResaveRevalidates` state its consequences |
| NewCustomerModel.InsertAdmits | lib/models/NewCustomer.ts:284 | no contract of its own: the schema admits a new document and no stored record has its `_id`; `InsertKeepsDistinctIds` states the consequence |
| NewCustomerProperties.SanitisedContacts | lib/models/NewCustomer.ts:249-259 | the hook keeps every e-mail and phone, in order and with the same data, and marks each unverified |
| NewCustomerProperties.SanitisedFields | lib/models/NewCustomer.ts:261-267 | status becomes pending; the block not matching the type is cleared, and the matching one and every other field are kept |
| NewCustomerProperties.SanitisedIdempotent | lib/models/NewCustomer.ts:245-269 | running the hook's effect twice equals running it once |
| NewCustomerProperties.SanitisedKeepsExactlyMatchingBlock | lib/models/NewCustomer.ts:263-267 | after the hook, a valid person or company application holds exactly the info block its type names |
| NewCustomerProperties.IsAlreadySignedUpIffActiveHolder | lib/models/NewCustomer.ts:272-281 | the query is true exactly when some non-refused application holds the applicant's CNPJ (company) or CPF (otherwise) |
| NewCustomerProperties.IsAlreadySignedUpAfterStoring | lib/models/NewCustomer.ts:273 | storing a refused application never changes the answer; storing an active holder makes it true |
| NewCustomerProperties.IsAlreadySignedUpThrowsWithoutBlock | lib/models/NewCustomer.ts:275-280 | an applicant without the block its type reads makes the query throw |
| NewCustomerProperties.DuplicateEmailValidatorIff | lib/models/NewCustomer.ts:55-67 | the address passes exactly when no non-refused application holds it, other than this document once it is stored |
| NewCustomerProperties.InsertKeepsDistinctIds | lib/models/NewCustomer.ts:284 | an insert under a fresh `_id` keeps every stored id distinct |
| NewCustomerProperties.AdmittedApplicationHasTaxId | lib/models/NewCustomer.ts:304-308 | an application the schema admits has the block its type selects, so the identifier lookups cannot throw; its CNPJ or CPF passed the check-digit validator |
| NewCustomerProperties.DuplicateEmailStillAccepted | lib/models/NewCustomer.ts:62-64 | an address accepted for a new document stays accepted once the document is stored, because the filter then leaves out its own id |
| NewCustomerProperties.ResaveRevalidates | lib/controllers/newCustomer.controller.ts:40 | once the first save admitted an application, the same application with another status and reason is admitted again as a stored document |
| CustomerProperties.DisplayNameOfValidCustomer | lib/models/Customer.ts:251-258 | a valid company's display name is its trading name, and a valid person's is their name |
| CustomerProperties.DuplicateEmailValidatorIff | lib/models/Customer.ts:40-51 | the address passes exactly when no customer holds it, other than this document once it is stored; there is no status filter |
| CustomerProperties.SaveKeepsStoreInvariant | lib/models/Customer.ts:117-118 | a save the validators and the sparse unique CPF and CNPJ indexes (also line 173) admit keeps every stored customer valid, with no CPF or CNPJ shared |
| CustomerModel.DisplayName | lib/models/Customer.ts:251-258 | no contract of its own: the trading name of a company, the name of anyone else, a TypeError without the block; `DisplayNameOfValidCustomer` states it |
| CustomerModel.DuplicateEmailValidator | lib/models/Customer.ts:40-51 | no contract of its own: the count of holders of the address, the document aside once stored, is zero; `CustomerProperties.DuplicateEmailValidatorIff` states its meaning |
| BlacklistProperties.EntryValidIff | models/Blacklist.ts:3-19 | an entry is valid exactly when it has a non-empty CPF or CNPJ and every reason has an origin |
| BlacklistProperties.EntryIdentifierExamples | models/Blacklist.ts:12-16 | an entry with neither identifier, or with both empty, is invalid; one with both filled is valid |
| BlacklistProperties.ReasonOriginRequired | models/Blacklist.ts:4-5 | a reason is valid with a non-empty origin and invalid without one |
| BlacklistModel.EntryValid | models/Blacklist.ts:3-19 | no contract of its own: the two mutual `required()` rules and an origin on every reason; `EntryValidIff` states its meaning |
| Persistence.Mailer.SendEmail | lib/controllers/newCustomer.controller.ts:36 | sending appends exactly this application to the sent log |
| Persistence.ReplaceById | lib/controllers/newCustomer.controller.ts:40 | re-saving keeps the length, puts the new record wherever the id is found, and leaves every other record unchanged; the lemmas below state what this means under distinct ids |
| PersistenceProperties.ReplaceByIdAbsent | lib/controllers/newCustomer.controller.ts:40 | re-saving under an id no record carries changes nothing |
| PersistenceProperties.ReplaceByIdOfUnique | lib/controllers/newCustomer.controller.ts:40 | with distinct ids, re-saving replaces exactly the one record with the id, in place |
| PersistenceProperties.ReplaceByIdKeepsDistinctIds | lib/controllers/newCustomer.controller.ts:40 | re-saving keeps distinct ids distinct |
| PersistenceProperties.ReplaceByIdOfLast | lib/controllers/newCustomer.controller.ts:40 | re-saving the application just inserted under a fresh id replaces that last record and nothing else |
| BlacklistController.AddToBlacklist | lib/controllers/blacklist.controller.ts:6-24 | the reply and the new table are the listed-CPF message with no change, or a validation error with no change, or the saved entry appended at the end; the applications are untouched |
| BlacklistController.CpfListed | lib/controllers/blacklist.controller.ts:9 | no contract of its own: `findOne({ cpf })` finds an entry, absent matching absent; the `BlacklistControllerProperties` lemmas use it |
| BlacklistController.AddOutcomeOf | lib/controllers/blacklist.controller.ts:6-24 | no contract of its own: the reply and table the handler leaves; `ListedCpfIsRejected`, `NewCpfIsAppended` and `InvalidEntryIsNotInserted` state its three cases |
| BlacklistController.GetBlacklist | lib/controllers/blacklist.controller.ts:26-33 | lists the stored entries in order |
| BlacklistControllerProperties.ListedCpfIsRejected | lib/controllers/blacklist.controller.ts:9-13 | a CPF already listed yields the fixed message and leaves the table unchanged |
| BlacklistControllerProperties.NewCpfIsAppended | lib/controllers/blacklist.controller.ts:15-20 | an unlisted, valid entry grows the table by exactly that entry, and every earlier entry is kept |
| BlacklistControllerProperties.RepeatedCnpjIsNotDetected | lib/controllers/blacklist.controller.ts:9 | only the CPF is looked up, so a second entry for a listed CNPJ is saved |
| BlacklistControllerProperties.CnpjOnlyEntriesBlockEachOther | lib/controllers/blacklist.controller.ts:9-12 | once one entry without a CPF is listed, every later body without a CPF gets the CPF message |
| BlacklistControllerProperties.InvalidEntryIsNotInserted | lib/controllers/blacklist.controller.ts:15-18 | a body that fails the schema is not inserted |
| NewCustomerController.AddNewCustomer | lib/controllers/newCustomer.controller.ts:17-47 | when the schema or the `_id` index rejects the hooked body, or the write fails, the reply is the error and nothing is stored or mailed. Otherwise the application has a CPF or CNPJ to look up, and is refused when the blacklist holds it or pre-approved and mailed once when it does not. It is returned, and re-saved in place when the second write completes. The blacklist is untouched, and ids stay distinct |
| NewCustomerController.Save | lib/controllers/newCustomer.controller.ts:20-22 | `save` runs the hook, succeeds exactly when the schema, the `_id` index (for a new document) and the write admit it, then inserts a new document or replaces a stored one in place, keeping ids distinct; a failure changes nothing stored |
| NewCustomerController.Listed | lib/controllers/newCustomer.controller.ts:27-31 | no contract of its own: `findOne` on `{ cnpj }` or `{ cpf }` finds an entry; `BlacklistQuerySelectsIdentifier` states the match |
| NewCustomerController.Decided | lib/controllers/newCustomer.controller.ts:31-37 | no contract of its own: the application after the decision; `DecisionOutcome` states it |
| NewCustomerControllerProperties.BlacklistQuerySelectsIdentifier | lib/controllers/newCustomer.controller.ts:7-13 | a company is matched on its CNPJ and anyone else on the CPF, by exact equality |
| NewCustomerControllerProperties.DecisionOutcome | lib/controllers/newCustomer.controller.ts:31-37 | the status is refused exactly on a hit and pre-approved exactly on a miss; a hit sets the fixed non-empty reason; nothing else changes |
| NewCustomerControllerProperties.QuerySurvivesHook | lib/controllers/newCustomer.controller.ts:7-13 | for a person or a company the hook leaves the blacklist query unchanged; for any other type it makes the query throw |
| NewCustomerControllerProperties.DecisionLeavesPending | lib/controllers/newCustomer.controller.ts:30-37 | a saved application is pending, and the decision moves it to pre-approved or refused |
| NewCustomerControllerProperties.BlacklistQueryIsValidIdentifier | lib/controllers/newCustomer.controller.ts:27-28 | the identifier an admitted application is looked up by is a CNPJ that passed `cnpjValidator` for a company, or a CPF that passed `cpfValidator` for a person |
| NewCustomerControllerProperties.DuplicateTaxIdStillAdmitted | lib/controllers/newCustomer.controller.ts:20-27 | an active application with the same CPF or CNPJ under another id and sharing no e-mail leaves the save admitted, while `isAlreadySignedUp` answers true |

## Left out

- **E-mail sending** (`helpers/sendGrid`): the template rendering and the delivery are not part of this model. `Mailer.SendEmail` only records which application was sent.
- **HTTP routing and responses.** Routing, the Express request and response objects, and the double response after a save error are not modelled. A reply is a value.
- **CRUD passthroughs.** `getCustomers`, `getCustomerById`, `updateCustomer`, `deleteCustomer` and `deleteFromBlacklist` are plain store calls with no logic of their own.
- **The e-mail format regex** (`emailValidator`) is not in `SchemaAdmits`. The duplicate-address checks take the address as given, after the schema's lowercase/trim setters, which are not modelled either.
- **Required strings.** Mongoose's rule that a required string may not be empty is not in `SchemaAdmits`. The CPF and CNPJ rules reject an empty identifier anyway.
- **The ISO 3166-1 table.** It comes from a library and is a parameter of `CountryCodeValidator`, `SchemaAdmits` and `AddNewCustomer`.
- **The age check.** The 18-year birth-date check reads the clock and is left out, together with the date fields.
- **Other fields.** `rg`, `gender`, `maritalStatus` and the enum checks on `status` and the string fields are not modelled. The types are datatypes instead.
- **Asynchrony, concurrency and database failures.** Whether the database completes each write is given to `AddNewCustomer` as `written` and `rewritten`. Validation itself is computed. The race between lookup and insert is not modelled.
- **The `catch` in `addNewCustomer`.** It only logs. The one error the model's own steps could raise there, reading an absent info block, cannot occur after a successful save (`AdmittedApplicationHasTaxId`). Errors thrown by the database are not modelled.
- **Number precision.** `JsNumber.Num` is an unbounded integer. For all-digit inputs long enough that a weighted sum passes 2^53 (around 10^8 characters), JavaScript's sums are no longer exact. The model does not capture that.
- **Identifier strings.** CPF and CNPJ are strings of code points, not UTF-16 units. They differ only for characters that are not digits, and the model rejects those in both forms.
- **Absent CPF in the blacklist.** A body without a CPF is looked up as `null`, which matches entries without a CPF. The model takes this as equality of absent values.
- **Unknown applicant types.** An applicant type other than person or company (`Other`) stands for a body that fails the schema's enum check. It is kept only to show which paths throw.
- BlacklistController.AddToBlacklist: the schema validation of the body is `EntryValid`, and the store's own failures are not modelled.
