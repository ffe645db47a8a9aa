/**
 * The backend's record of what the oracle co-signed for one car: reports by hash, attested
 * deposits by transaction ID, and drafts by the oracle's signature.
 */
module DepositStore {
  import opened HashChain

  type Signature = string

  /** A recent blockhash: a transaction carrying it can land up to `lastValid`. */
  datatype Blockhash = Blockhash(id: string, lastValid: nat)

  datatype Kind = Regular | Final

  /** A revenue report; `body` stands for every field the deposit checks do not read. */
  datatype StoredReport = StoredReport(kind: Kind, start: Date, end: Date, distributable: int, decimals: nat, body: string)

  datatype Attestation = Attestation(reportHash: Hash, blockhash: Blockhash)

  datatype Draft = Draft(reportHash: Hash, periodIndex: nat, blockhash: Blockhash)

  /** Two ranges of days, both ends included, share a day. */
  predicate Overlap(start: Date, end: Date, otherStart: Date, otherEnd: Date) {
    otherStart <= end && otherEnd >= start
  }

  datatype Tables = Tables(reports: map<Hash, StoredReport>, attestations: map<Signature, Attestation>, drafts: map<Signature, Draft>)
  {
    /** The row's report overlaps `start`..`end`, or is final; rows join their report by hash. */
    predicate Conflicts(reportHash: Hash, start: Date, end: Date) {
      && reportHash in reports
      && (Overlap(start, end, reports[reportHash].start, reports[reportHash].end) || reports[reportHash].kind == Final)
    }

    function Published(reportHash: Hash, report: StoredReport): map<Hash, StoredReport> {
      if reportHash in reports then reports else reports[reportHash := report]
    }

    function Attested(report: StoredReport, signature: Signature, row: Attestation): Tables {
      Tables(Published(row.reportHash, report),
             if signature in attestations then attestations else attestations[signature := row],
             drafts)
    }

    function Drafted(report: StoredReport, oracleSignature: Signature, row: Draft): Tables {
      if oracleSignature in drafts then this
      else Tables(Published(row.reportHash, report), attestations, drafts[oracleSignature := row])
    }
  }

  class ReportsStore {
    var reports: map<Hash, StoredReport>
    var attestations: map<Signature, Attestation>
    var drafts: map<Signature, Draft>

    function State(): Tables
      reads this
    {
      Tables(reports, attestations, drafts)
    }

    constructor ()
      ensures State() == Tables(map[], map[], map[])
    {
      reports, attestations, drafts := map[], map[], map[];
    }

    /** Stores the report (once per hash) and the attestation of one deposit transaction. */
    method SaveAttested(report: StoredReport, signature: Signature, row: Attestation)
      modifies this
      ensures State() == old(State()).Attested(report, signature, row)
    {
      if row.reportHash !in reports {
        reports := reports[row.reportHash := report];
      }
      if signature !in attestations {
        attestations := attestations[signature := row];
      }
    }

    /** Stores the report (once per hash) and a deposit draft the oracle co-signed for it. */
    method SaveDraft(report: StoredReport, oracleSignature: Signature, row: Draft) returns (saved: bool)
      modifies this
      ensures saved <==> oracleSignature !in old(drafts)
      ensures State() == old(State()).Drafted(report, oracleSignature, row)
    {
      if oracleSignature in drafts {
        return false;
      }
      if row.reportHash !in reports {
        reports := reports[row.reportHash := report];
      }
      drafts := drafts[oracleSignature := row];
      saved := true;
    }

    /** Attestations whose period overlaps `start`..`end`, or that are final. */
    method ConflictingAttestations(start: Date, end: Date) returns (found: set<Signature>)
      ensures forall s :: s in found <==> s in attestations && State().Conflicts(attestations[s].reportHash, start, end)
    {
      found := set s | s in attestations && State().Conflicts(attestations[s].reportHash, start, end);
    }

    /** Deposit drafts whose period overlaps `start`..`end`, or that are final. */
    method ConflictingDrafts(start: Date, end: Date) returns (found: set<Signature>)
      ensures forall s :: s in found <==> s in drafts && State().Conflicts(drafts[s].reportHash, start, end)
    {
      found := set s | s in drafts && State().Conflicts(drafts[s].reportHash, start, end);
    }
  }
}
