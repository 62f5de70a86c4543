/**
 * The blacklist entry of models/Blacklist.ts: a CPF and/or a CNPJ, each
 * required when the other is missing, and an ordered list of reasons whose
 * origin is required.
 */
module BlacklistModel {
  import opened Wrappers

  datatype Reason = Reason(origin: Option<string>, reason: Option<string>)

  datatype BlacklistEntry = BlacklistEntry(cpf: Option<string>, cnpj: Option<string>, reasons: seq<Reason>)

  /** A value that is set and not the empty string: what `!value` is false for, and what `required` demands of a string. */
  predicate Truthy(v: Option<string>) {
    v.Some? && v.value != ""
  }

  /** `cpf` is required when `cnpj` is falsy. */
  predicate CpfRequired(e: BlacklistEntry) {
    !Truthy(e.cnpj)
  }

  /** `cnpj` is required when `cpf` is falsy. */
  predicate CnpjRequired(e: BlacklistEntry) {
    !Truthy(e.cpf)
  }

  /** A reason needs its origin; the text is optional. */
  predicate ReasonValid(r: Reason) {
    Truthy(r.origin)
  }

  /** The schema validation of an entry. */
  predicate EntryValid(e: BlacklistEntry) {
    && (CpfRequired(e) ==> Truthy(e.cpf))
    && (CnpjRequired(e) ==> Truthy(e.cnpj))
    && forall i | 0 <= i < |e.reasons| :: ReasonValid(e.reasons[i])
  }
}

/** Properties of the blacklist entry rules. */
module BlacklistProperties {
  import opened Wrappers
  import opened BlacklistModel

  /** The two mutual rules amount to "at least one identifier", not "exactly one". */
  lemma EntryValidIff(e: BlacklistEntry)
    ensures EntryValid(e) <==>
      && (Truthy(e.cpf) || Truthy(e.cnpj))
      && forall i | 0 <= i < |e.reasons| :: ReasonValid(e.reasons[i])
  {
  }

  /** An entry with neither identifier fails; one with both passes. */
  lemma EntryIdentifierExamples(reasons: seq<Reason>)
    requires forall i | 0 <= i < |reasons| :: ReasonValid(reasons[i])
    ensures !EntryValid(BlacklistEntry(None, None, reasons))
    ensures !EntryValid(BlacklistEntry(Some(""), Some(""), reasons))
    ensures EntryValid(BlacklistEntry(Some("11144477735"), Some("11222333000181"), reasons))
  {
  }

  /** A reason with an origin passes with or without its text; one without an origin fails. */
  lemma ReasonOriginRequired(origin: string, text: Option<string>)
    requires origin != ""
    ensures ReasonValid(Reason(Some(origin), text))
    ensures !ReasonValid(Reason(None, text))
  {
  }
}
