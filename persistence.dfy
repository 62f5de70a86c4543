/**
 * The collaborators the controllers talk to: the document store's
 * collections, and the e-mail notification, reduced to the list of
 * applications it was issued for.
 */
module Persistence {
  import opened NewCustomerModel
  import opened BlacklistModel

  /** The `newCustomers` and `blacklist` collections; the `_id` index keeps application ids distinct. */
  class Store {
    var newCustomers: seq<NewCustomer>
    var blacklist: seq<BlacklistEntry>

    predicate Valid()
      reads this
    {
      DistinctIds(newCustomers)
    }

    constructor ()
      ensures Valid()
      ensures newCustomers == [] && blacklist == []
    {
      newCustomers := [];
      blacklist := [];
    }
  }

  /** `sendEmail`: every call is one notification event carrying the application it was given. */
  class Mailer {
    var sent: seq<NewCustomer>

    constructor ()
      ensures sent == []
    {
      sent := [];
    }

    method SendEmail(customer: NewCustomer)
      modifies this
      ensures sent == old(sent) + [customer]
    {
      sent := sent + [customer];
    }
  }

  /** Saving an already stored document: the record with its id is replaced, the others stay. */
  function ReplaceById(records: seq<NewCustomer>, r: NewCustomer): (out: seq<NewCustomer>)
    ensures |out| == |records|
    ensures forall i | 0 <= i < |records| :: out[i] == if records[i].id == r.id then r else records[i]
  {
    seq(|records|, i requires 0 <= i < |records| => if records[i].id == r.id then r else records[i])
  }
}

/** What re-saving a stored application does to the collection. */
module PersistenceProperties {
  import opened NewCustomerModel
  import opened Persistence

  /** With no record carrying the id, re-saving changes nothing. */
  lemma ReplaceByIdAbsent(records: seq<NewCustomer>, r: NewCustomer)
    requires IdFresh(records, r.id)
    ensures ReplaceById(records, r) == records
  {
  }

  /** With distinct ids, re-saving replaces exactly the one record that carries the id, in place. */
  lemma ReplaceByIdOfUnique(records: seq<NewCustomer>, r: NewCustomer, k: nat)
    requires DistinctIds(records) && k < |records| && records[k].id == r.id
    ensures ReplaceById(records, r) == records[k := r]
  {
  }

  /** Re-saving keeps the ids in place, so distinct ids stay distinct. */
  lemma ReplaceByIdKeepsDistinctIds(records: seq<NewCustomer>, r: NewCustomer)
    requires DistinctIds(records)
    ensures DistinctIds(ReplaceById(records, r))
  {
    var out := ReplaceById(records, r);
    assert forall i | 0 <= i < |records| :: out[i].id == records[i].id;
  }

  /** Re-saving the application just inserted under a fresh id replaces that last record and nothing else. */
  lemma ReplaceByIdOfLast(records: seq<NewCustomer>, x: NewCustomer, r: NewCustomer)
    requires IdFresh(records, r.id) && x.id == r.id
    ensures ReplaceById(records + [x], r) == records + [r]
  {
  }
}
