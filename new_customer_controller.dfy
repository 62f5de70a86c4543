/**
 * lib/controllers/newCustomer.controller.ts: the blacklist query and the
 * registration decision taken once the new application is saved.
 */
module NewCustomerController {
  import opened Wrappers
  import opened Records
  import opened NewCustomerModel
  import opened NewCustomerProperties
  import opened BlacklistModel
  import opened Persistence
  import opened PersistenceProperties

  const BlacklistRefusalReason := "O CPF/CNPJ informado está na blacklist"

  /**
   * An entry matches the filter `getBlacklistQuery` builds: `{ cnpj }` for
   * a company, `{ cpf }` for anyone else (the same selection as
   * `SelectedTaxId`), compared exactly on that field.
   */
  predicate MatchesQuery(e: BlacklistEntry, q: TaxId) {
    match q
    case Cnpj(v) => e.cnpj == Some(v)
    case Cpf(v) => e.cpf == Some(v)
  }

  /** `BlacklistModel.findOne(query)` finds an entry. */
  predicate Listed(entries: seq<BlacklistEntry>, q: TaxId) {
    exists i | 0 <= i < |entries| :: MatchesQuery(entries[i], q)
  }

  /** The application after the decision: refused with the fixed reason on a hit, pre-approved otherwise. */
  function Decided(c: NewCustomer, listed: bool): NewCustomer {
    if listed then c.(status := Refused, refusalReason := Some(BlacklistRefusalReason))
    else c.(status := PreApproved)
  }

  /** What the handler answers: the save error, or the decided application. */
  datatype Reply = SaveError | Json(customer: NewCustomer)

  /**
   * `document.save()`: the pre-validate hook, the schema validation
   * (`SchemaAdmits`, with the ISO lookup as a parameter), then the write.
   * A new document is inserted under the unique `_id` index and is no
   * longer new; a stored one replaces its record. Whether the database
   * completes the write is given as `written`.
   */
  method Save(db: Store, doc: NewCustomerDoc, isIsoAlpha3: string -> bool, written: bool) returns (ok: bool)
    requires db.Valid()
    modifies db, doc
    ensures db.Valid()
    ensures db.blacklist == old(db.blacklist)
    ensures doc.Snapshot() == if old(doc.isNew) then Sanitised(old(doc.Snapshot())) else old(doc.Snapshot())
    ensures ok == (&& SchemaAdmits(old(db.newCustomers), doc.Snapshot(), old(doc.isNew), isIsoAlpha3)
                   && (old(doc.isNew) ==> IdFresh(old(db.newCustomers), doc.Snapshot().id))
                   && written)
    ensures !ok ==> db.newCustomers == old(db.newCustomers) && doc.isNew == old(doc.isNew)
    ensures ok ==> !doc.isNew
    ensures ok && old(doc.isNew) ==> db.newCustomers == old(db.newCustomers) + [doc.Snapshot()]
    ensures ok && !old(doc.isNew) ==> db.newCustomers == ReplaceById(old(db.newCustomers), doc.Snapshot())
  {
    doc.PreValidate();
    var r := doc.Snapshot();
    ok := SchemaAdmits(db.newCustomers, r, doc.isNew, isIsoAlpha3)
          && (doc.isNew ==> IdFresh(db.newCustomers, r.id))
          && written;
    if !ok {
      return;
    }
    if doc.isNew {
      InsertKeepsDistinctIds(db.newCustomers, r);
      db.newCustomers := db.newCustomers + [r];
      doc.isNew := false;
    } else {
      ReplaceByIdKeepsDistinctIds(db.newCustomers, r);
      db.newCustomers := ReplaceById(db.newCustomers, r);
    }
  }

  /**
   * `addNewCustomer`: build the document, save it, look its identifier up
   * in the blacklist, decide, reply, and save again. Whether the database
   * completes each write is given as `written` and `rewritten`.
   */
  method AddNewCustomer(db: Store, mailer: Mailer, body: NewCustomer, isIsoAlpha3: string -> bool, written: bool, rewritten: bool)
    returns (doc: NewCustomerDoc, reply: Reply)
    requires db.Valid()
    modifies db, mailer
    ensures fresh(doc)
    ensures db.Valid()
    ensures db.blacklist == old(db.blacklist)
    ensures !(InsertAdmits(old(db.newCustomers), Sanitised(body), isIsoAlpha3) && written) ==>
      && reply == SaveError && doc.isNew && doc.Snapshot() == Sanitised(body)
      && db.newCustomers == old(db.newCustomers) && mailer.sent == old(mailer.sent)
    ensures InsertAdmits(old(db.newCustomers), Sanitised(body), isIsoAlpha3) && written ==>
      && !doc.isNew
      && SelectedTaxId(Sanitised(body)).Ok?
      && var listed := Listed(old(db.blacklist), SelectedTaxId(Sanitised(body)).value);
         && doc.Snapshot() == Decided(Sanitised(body), listed)
         && reply == Json(doc.Snapshot())
         && mailer.sent == old(mailer.sent) + (if listed then [] else [doc.Snapshot()])
         && db.newCustomers == old(db.newCustomers) + [if rewritten then doc.Snapshot() else Sanitised(body)]
  {
    doc := new NewCustomerDoc(body);
    var saved := Save(db, doc, isIsoAlpha3, written);
    if !saved {
      reply := SaveError;
      return;
    }
    ghost var before := old(db.newCustomers);
    var inserted := doc.Snapshot();
    AdmittedApplicationHasTaxId(before, inserted, true, isIsoAlpha3);

    var query := SelectedTaxId(doc.Snapshot()).value;
    var listed := Listed(db.blacklist, query);
    if listed {
      doc.status := Refused;
      doc.refusalReason := Some(BlacklistRefusalReason);
    } else {
      doc.status := PreApproved;
      mailer.SendEmail(doc.Snapshot());
    }
    reply := Json(doc.Snapshot());

    ResaveRevalidates(before, inserted, doc.Snapshot(), isIsoAlpha3);
    ReplaceByIdOfLast(before, inserted, doc.Snapshot());
    var resaved := Save(db, doc, isIsoAlpha3, rewritten);
  }
}

/** Properties of the blacklist query and the registration decision. */
module NewCustomerControllerProperties {
  import opened Wrappers
  import opened Collections
  import opened Records
  import opened NewCustomerModel
  import opened NewCustomerProperties
  import opened Validators
  import opened BlacklistModel
  import opened NewCustomerController

  /** A company is looked up by its CNPJ, anyone else by the CPF. */
  lemma BlacklistQuerySelectsIdentifier(c: NewCustomer, e: BlacklistEntry)
    requires SelectedTaxId(c).Ok?
    ensures c.customerType == Company ==> (MatchesQuery(e, SelectedTaxId(c).value) <==> e.cnpj == Some(c.companyInfo.value.cnpj))
    ensures c.customerType != Company ==> (MatchesQuery(e, SelectedTaxId(c).value) <==> e.cpf == Some(c.personalInfo.value.cpf))
  {
  }

  /**
   * Exactly one branch fires: a hit refuses with the fixed, non-empty
   * reason; a miss pre-approves and keeps the reason as it was. Nothing but
   * the status and the reason changes.
   */
  lemma DecisionOutcome(c: NewCustomer, listed: bool)
    ensures Decided(c, listed).status == Refused <==> listed
    ensures Decided(c, listed).status == PreApproved <==> !listed
    ensures listed ==> Decided(c, listed).refusalReason == Some(BlacklistRefusalReason) && BlacklistRefusalReason != ""
    ensures !listed ==> Decided(c, listed).refusalReason == c.refusalReason
    ensures Decided(c, listed).(status := c.status, refusalReason := c.refusalReason) == c
  {
  }

  /**
   * The hook keeps the block that the query reads, so for a person or a
   * company the query on the saved application is the query on the body;
   * for any other type the hook clears the personal block and the query throws.
   */
  lemma QuerySurvivesHook(body: NewCustomer)
    ensures body.customerType != Other ==> SelectedTaxId(Sanitised(body)) == SelectedTaxId(body)
    ensures body.customerType == Other ==> SelectedTaxId(Sanitised(body)) == Err(MissingInfoBlock)
  {
  }

  /** A new application moves once, from pending to pre-approved or refused. */
  lemma DecisionLeavesPending(body: NewCustomer, listed: bool)
    ensures Sanitised(body).status == Pending
    ensures Decided(Sanitised(body), listed).status in {PreApproved, Refused}
  {
  }

  /**
   * The identifier looked up in the blacklist of an admitted application
   * passed its check-digit validator: a CNPJ for a company, a CPF for a person.
   */
  lemma BlacklistQueryIsValidIdentifier(store: seq<NewCustomer>, body: NewCustomer, isIsoAlpha3: string -> bool)
    requires InsertAdmits(store, Sanitised(body), isIsoAlpha3)
    ensures SelectedTaxId(Sanitised(body)).Ok?
    ensures match SelectedTaxId(Sanitised(body)).value
      case Cnpj(v) => body.customerType == Company && CnpjAccepts(v)
      case Cpf(v) => body.customerType == Person && CpfAccepts(v)
  {
    AdmittedApplicationHasTaxId(store, Sanitised(body), true, isIsoAlpha3);
  }

  /**
   * The handler never calls `isAlreadySignedUp`: an active application
   * holding the same CPF or CNPJ under another id, sharing no e-mail,
   * leaves the save admitted, although `isAlreadySignedUp` then answers true.
   */
  lemma DuplicateTaxIdStillAdmitted(store: seq<NewCustomer>, r: NewCustomer, x: NewCustomer, isIsoAlpha3: string -> bool)
    requires InsertAdmits(store, r, isIsoAlpha3)
    requires SelectedTaxId(r).Ok? && IsActive(x) && HoldsTaxId(x, SelectedTaxId(r).value) && x.id != r.id
    requires forall i | 0 <= i < |r.contactInfo.emails| :: !HasEmailAddress(x.contactInfo, r.contactInfo.emails[i].address)
    ensures InsertAdmits(store + [x], r, isIsoAlpha3)
    ensures IsAlreadySignedUp(store + [x], r) == Ok(true)
  {
    forall i | 0 <= i < |r.contactInfo.emails|
      ensures DuplicateEmailValidator(store + [x], r.id, true, r.contactInfo.emails[i].address)
    {
      var holder := EmailHolderOf(r.contactInfo.emails[i].address, r.id, true);
      CountAppend(store, [x], holder);
      assert [x][..0] == [];
    }
    IsAlreadySignedUpAfterStoring(store, x, r);
  }
}
