/**
 * lib/controllers/blacklist.controller.ts: adding an entry (a lookup by
 * CPF, then an insert) and listing the table.
 */
module BlacklistController {
  import opened Wrappers
  import opened BlacklistModel
  import opened Persistence

  const CpfAlreadyListed := "CPF já cadastrado na blacklist!"

  /** What the handler answers: the duplicate message, the validation error, or the saved entry. */
  datatype Reply = Message(text: string) | ValidationError | SavedEntry(entry: BlacklistEntry)

  /**
   * `findOne({ cpf })` finds an entry. A missing CPF is sent as null,
   * which matches every entry that has no CPF either.
   */
  predicate CpfListed(entries: seq<BlacklistEntry>, cpf: Option<string>) {
    exists i | 0 <= i < |entries| :: entries[i].cpf == cpf
  }

  /** The reply and the table after `addToBlacklist`. */
  datatype AddOutcome = AddOutcome(reply: Reply, entries: seq<BlacklistEntry>)

  function AddOutcomeOf(entries: seq<BlacklistEntry>, body: BlacklistEntry): AddOutcome {
    if CpfListed(entries, body.cpf) then AddOutcome(Message(CpfAlreadyListed), entries)
    else if !EntryValid(body) then AddOutcome(ValidationError, entries)
    else AddOutcome(SavedEntry(body), entries + [body])
  }

  method AddToBlacklist(db: Store, body: BlacklistEntry) returns (reply: Reply)
    modifies db
    ensures AddOutcome(reply, db.blacklist) == AddOutcomeOf(old(db.blacklist), body)
    ensures db.newCustomers == old(db.newCustomers)
  {
    var registered := CpfListed(db.blacklist, body.cpf);
    if registered {
      reply := Message(CpfAlreadyListed);
      return;
    }
    if !EntryValid(body) {
      reply := ValidationError;
      return;
    }
    db.blacklist := db.blacklist + [body];
    reply := SavedEntry(body);
  }

  /** `getBlacklist`: every entry, in stored order; nothing changes. */
  method GetBlacklist(db: Store) returns (entries: seq<BlacklistEntry>)
    ensures entries == db.blacklist
  {
    entries := db.blacklist;
  }
}

/** Properties of `addToBlacklist`. */
module BlacklistControllerProperties {
  import opened Wrappers
  import opened BlacklistModel
  import opened BlacklistController

  /** A CPF already on the table blocks the insert and yields the duplicate message. */
  lemma ListedCpfIsRejected(entries: seq<BlacklistEntry>, body: BlacklistEntry)
    requires CpfListed(entries, body.cpf)
    ensures AddOutcomeOf(entries, body) == AddOutcome(Message(CpfAlreadyListed), entries)
  {
  }

  /** Otherwise a valid entry is appended as given: the table grows by exactly it and keeps every earlier entry. */
  lemma NewCpfIsAppended(entries: seq<BlacklistEntry>, body: BlacklistEntry)
    requires !CpfListed(entries, body.cpf) && EntryValid(body)
    ensures var after := AddOutcomeOf(entries, body).entries;
      && |after| == |entries| + 1
      && after[..|entries|] == entries
      && after[|entries|] == body
  {
  }

  /** Only the CPF is looked up: an entry whose CNPJ is already listed goes in as a second entry for that CNPJ. */
  lemma RepeatedCnpjIsNotDetected(entries: seq<BlacklistEntry>, body: BlacklistEntry, i: nat)
    requires i < |entries| && entries[i].cnpj == body.cnpj
    requires !CpfListed(entries, body.cpf) && EntryValid(body)
    ensures AddOutcomeOf(entries, body).reply == SavedEntry(body)
    ensures var after := AddOutcomeOf(entries, body).entries; after[i].cnpj == after[|after| - 1].cnpj
  {
  }

  /** Because a missing CPF matches a missing CPF, a second CNPJ-only entry is refused with the CPF message. */
  lemma CnpjOnlyEntriesBlockEachOther(entries: seq<BlacklistEntry>, body: BlacklistEntry, i: nat)
    requires i < |entries| && entries[i].cpf.None? && body.cpf.None?
    ensures AddOutcomeOf(entries, body).reply == Message(CpfAlreadyListed)
  {
  }

  /** A body that fails the schema rules is not inserted. */
  lemma InvalidEntryIsNotInserted(entries: seq<BlacklistEntry>, body: BlacklistEntry)
    requires !CpfListed(entries, body.cpf) && !EntryValid(body)
    ensures AddOutcomeOf(entries, body) == AddOutcome(ValidationError, entries)
  {
  }
}
