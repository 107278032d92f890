// The store of entitlements as its history of versions, the conditional write of
// internal/persistence/memory/seller_plans.go, and the reconciling service on top of it.
module EntitlementStore {
  import opened Foundations
  import opened Decimal
  import opened Entitlement

  // ---- the versions stored for one seller, oldest first ----

  predicate Follows(o: SellerEntitlement, e: SellerEntitlement) {
    && e.version == o.version + 1
    && e.epoch == o.epoch + (if EpochMoves(o.terms, e.terms) then 1 else 0)
    && (o.terms.status == Closed ==> e.terms == ClosedTerms(o.terms, e.terms.lastEventId))
    && (Quarantined(o.terms) && !SameTerms(o.terms, e.terms) ==> e.terms.source != BillingProvider)
  }

  predicate Quarantined(t: Candidate) { t.reason == FraudQuarantine && t.status != Closed }

  // Equal but for the name of the last event.
  predicate SameTerms(t: Candidate, u: Candidate) { u == t.(lastEventId := u.lastEventId) }

  predicate ValidLog(seller: Id, log: seq<SellerEntitlement>) {
    && (forall i :: 0 <= i < |log| ==> WellFormed(log[i]) && log[i].version == i + 1 && log[i].terms.sellerId == seller)
    && (forall i :: 0 <= i < |log| - 1 ==> Follows(log[i], log[i + 1]))
  }

  function Stored(log: seq<SellerEntitlement>): Option<SellerEntitlement> {
    if log == [] then None else Some(log[|log| - 1])
  }

  function ExpectedVersion(snapshot: Option<SellerEntitlement>): nat {
    if snapshot.None? then 0 else snapshot.value.version
  }

  // The conditions of Apply, with the reconciliations of the seller named by their revisions.
  predicate ApplyAccepts(stored: Option<SellerEntitlement>, revisions: set<string>,
                         e: SellerEntitlement, record: Reconciliation, expected: nat)
  {
    && (stored.None? ==> expected == 0)
    && (stored.Some? ==> stored.value.version == expected)
    && e.version == Increment(expected)
    && record.sellerId == e.terms.sellerId && record.sourceRevision == e.sourceRevision
    && record.appliedVersion == e.version
    && (stored.Some? ==> LexLess(stored.value.sourceRevision, e.sourceRevision))
    && record.sourceRevision !in revisions
  }

  function Revisions(log: seq<SellerEntitlement>): set<string> {
    set i | 0 <= i < |log| :: log[i].sourceRevision
  }

  datatype Write = Refused(failure: Failure) | Conflict | Written(next: SellerEntitlement)

  // The write half of Service.ReconcileEntitlement: compute from the snapshot that was
  // read, then apply against whatever is stored now.
  function ReconcileWrite(log: seq<SellerEntitlement>, snapshot: Option<SellerEntitlement>, candidate: Candidate, at: Time): Write {
    match Reconcile(snapshot, candidate, at)
    case Err(f) => Refused(f)
    case Ok(o) =>
      if ApplyAccepts(Stored(log), Revisions(log), o.entitlement, o.record, ExpectedVersion(snapshot))
      then Written(o.entitlement) else Conflict
  }

  // The candidate that is applied belongs to the seller the log is kept for.
  predicate ForSeller(seller: Id, snapshot: Option<SellerEntitlement>, candidate: Candidate) {
    candidate.sellerId == seller && (snapshot.Some? ==> snapshot.value.terms.sellerId == seller)
  }

  lemma EffectiveSeller(seller: Id, snapshot: Option<SellerEntitlement>, candidate: Candidate, at: Time)
    requires ForSeller(seller, snapshot, candidate)
    ensures EffectiveCandidate(snapshot, candidate, at).sellerId == seller
  {
  }

  // A write computed from the version read at length k commits exactly when nothing was
  // committed since, and then extends a valid log to a valid log. The revision order and
  // the duplicate check never refuse on their own.
  lemma WriteCommitsIffUnchanged(seller: Id, log: seq<SellerEntitlement>, k: nat, candidate: Candidate, at: Time)
    requires ValidLog(seller, log) && k <= |log| && candidate.sellerId == seller
    requires Reconcile(Stored(log[..k]), candidate, at).Ok?
    ensures var w := ReconcileWrite(log, Stored(log[..k]), candidate, at);
            && (w.Written? <==> k == |log|)
            && (w.Written? ==>
                  && Reconcile(Stored(log), candidate, at).Ok?
                  && w.next == Reconcile(Stored(log), candidate, at).value.entitlement
                  && w.next.terms.lastEventId == TrimSpace(candidate.lastEventId)
                  && ValidLog(seller, log + [w.next]))
  {
    hide Reconcile, EffectiveCandidate, TrimSpace, PrintPadded, NewSellerEntitlement, EpochMoves, LexLess;
    var snapshot := Stored(log[..k]);
    assert log[..|log|] == log;
    assert WellFormedCurrent(snapshot) && ExpectedVersion(snapshot) == k;
    ReconcileStep(snapshot, candidate, at);
    var o := Reconcile(snapshot, candidate, at).value;
    EffectiveSeller(seller, snapshot, candidate, at);
    assert o.entitlement.version == k + 1;
    if k == |log| {
      RevisionsAreNew(seller, log, o.entitlement);
      if k > 0 {
        RevisionOrder(k, k + 1);
        if log[k - 1].terms.status == Closed {
          ClosedStep(log[k - 1], candidate, at);
        }
        if Quarantined(log[k - 1].terms) {
          QuarantineStep(log[k - 1], candidate, at);
        }
      }
    }
  }

  lemma QuarantineStep(e: SellerEntitlement, candidate: Candidate, at: Time)
    requires WellFormed(e) && Quarantined(e.terms) && Reconcile(Some(e), candidate, at).Ok?
    ensures var n := Reconcile(Some(e), candidate, at).value.entitlement.terms;
            SameTerms(e.terms, n) || n.source != BillingProvider
  {
    hide Reconcile, TrimSpace, WellFormed, AgedAs;
    if candidate.source == BillingProvider {
      QuarantineHolds(e, candidate, at);
    } else {
      CandidateIsStored(Some(e), candidate, at);
    }
  }

  lemma RevisionsAreNew(seller: Id, log: seq<SellerEntitlement>, e: SellerEntitlement)
    requires ValidLog(seller, log) && WellFormed(e) && e.version == |log| + 1
    ensures e.sourceRevision !in Revisions(log)
  {
    hide TrimSpace, PrintPadded, NewSellerEntitlement, Follows;
    forall i | 0 <= i < |log| ensures log[i].sourceRevision != e.sourceRevision {
      RevisionOrder(i + 1, |log| + 1);
    }
  }

  // ---- the fence ----

  lemma {:induction false} EpochsAscend(seller: Id, log: seq<SellerEntitlement>, i: nat, j: nat)
    requires ValidLog(seller, log) && i <= j < |log|
    ensures log[i].epoch <= log[j].epoch
  {
    hide WellFormed;
    if i < j {
      EpochsAscend(seller, log, i, j - 1);
      assert Follows(log[j - 1], log[j]);
    }
  }

  // Two versions carry the same epoch only if no version between them has another status;
  // so a non-active version separates the epochs of the active versions around it for good.
  lemma EqualEpochsSameStatus(seller: Id, log: seq<SellerEntitlement>, i: nat, m: nat, j: nat)
    requires ValidLog(seller, log) && i <= m <= j < |log| && log[i].epoch == log[j].epoch
    ensures log[m].terms.status == log[i].terms.status && log[m].epoch == log[i].epoch
    decreases m
  {
    hide WellFormed;
    EpochsAscend(seller, log, i, m);
    EpochsAscend(seller, log, m, j);
    if i < m {
      EqualEpochsSameStatus(seller, log, i, m - 1, j);
      assert Follows(log[m - 1], log[m]);
    }
  }

  // Conversely, an unbroken stretch of active versions keeps its epoch.
  lemma {:induction false} ActiveStretchKeepsEpoch(seller: Id, log: seq<SellerEntitlement>, i: nat, j: nat)
    requires ValidLog(seller, log) && i <= j < |log|
    requires forall m :: i <= m <= j ==> log[m].terms.status == Active
    ensures log[i].epoch == log[j].epoch
  {
    hide WellFormed;
    if i < j {
      ActiveStretchKeepsEpoch(seller, log, i, j - 1);
      assert Follows(log[j - 1], log[j]);
    }
  }

  // Once a version is closed every later version is closed on the same terms, up to the
  // name of the last event: no reconciliation reopens a seller or changes its plan or dates.
  lemma {:induction false} ClosedForGood(seller: Id, log: seq<SellerEntitlement>, i: nat, j: nat)
    requires ValidLog(seller, log) && i < j < |log| && log[i].terms.status == Closed
    ensures log[j].terms == ClosedTerms(log[i].terms, log[j].terms.lastEventId)
  {
    hide WellFormed;
    assert Follows(log[j - 1], log[j]);
    if i < j - 1 {
      ClosedForGood(seller, log, i, j - 1);
    }
  }

  // A fraud quarantine holds, terms and epoch, until a version that another source than the
  // billing provider stored: that version is the first one to differ.
  lemma {:induction false} QuarantineUntilOtherSource(seller: Id, log: seq<SellerEntitlement>, i: nat, j: nat)
    requires ValidLog(seller, log) && i <= j < |log| && Quarantined(log[i].terms)
    ensures (SameTerms(log[i].terms, log[j].terms) && log[j].epoch == log[i].epoch)
            || exists m :: i < m <= j && LiftedAt(log, i, m)
  {
    hide WellFormed;
    if i < j {
      QuarantineUntilOtherSource(seller, log, i, j - 1);
      assert Follows(log[j - 1], log[j]);
      if SameTerms(log[i].terms, log[j - 1].terms) && !SameTerms(log[i].terms, log[j].terms) {
        assert LiftedAt(log, i, j);
      }
    }
  }

  // Version m is not the billing provider's, and until it the terms of version i held.
  predicate LiftedAt(log: seq<SellerEntitlement>, i: nat, m: nat)
    requires i < m < |log|
  {
    SameTerms(log[i].terms, log[m - 1].terms) && !SameTerms(log[i].terms, log[m].terms) && log[m].terms.source != BillingProvider
  }

  // ---- the repository and the service as objects ----

  predicate Consistent(seller: Id, e: SellerEntitlement, revisions: set<string>, log: seq<SellerEntitlement>) {
    log != [] && ValidLog(seller, log) && e == log[|log| - 1] && revisions == Revisions(log)
  }

  class EntitlementRepository {
    var entitlements: map<Id, SellerEntitlement>
    var reconciliations: map<Id, map<string, Reconciliation>>
    ghost var logs: map<Id, seq<SellerEntitlement>>

    ghost predicate Valid()
      reads this
    {
      && entitlements.Keys == logs.Keys && reconciliations.Keys == logs.Keys
      && forall s :: s in logs ==> Consistent(s, entitlements[s], reconciliations[s].Keys, logs[s])
    }

    ghost function LogOf(seller: Id): seq<SellerEntitlement>
      reads this
    {
      if seller in logs then logs[seller] else []
    }

    // What is stored for one seller.
    function Current(seller: Id): Option<SellerEntitlement>
      reads this
    {
      if seller in entitlements then Some(entitlements[seller]) else None
    }

    function Recorded(seller: Id): set<string>
      reads this
    {
      if seller in reconciliations then reconciliations[seller].Keys else {}
    }

    lemma StoredIsLog(seller: Id)
      requires Valid()
      ensures ValidLog(seller, LogOf(seller))
      ensures Current(seller) == Stored(LogOf(seller)) && Recorded(seller) == Revisions(LogOf(seller))
    {
    }

    constructor ()
      ensures Valid() && logs == map[]
    {
      entitlements, reconciliations, logs := map[], map[], map[];
    }

    // Loads through the validating constructor, which changes nothing that was stored.
    method Get(seller: Id) returns (r: Option<SellerEntitlement>)
      requires Valid()
      ensures r == Current(seller)
    {
      if seller !in entitlements {
        return None;
      }
      var restored := NewSellerEntitlement(entitlements[seller]);
      r := Some(restored.value);
    }

    method Apply(e: SellerEntitlement, record: Reconciliation, expected: nat) returns (ok: bool)
      modifies this`entitlements, this`reconciliations
      ensures var seller := e.terms.sellerId;
              && (ok <==> ApplyAccepts(old(Current(seller)), old(Recorded(seller)), e, record, expected))
              && (ok ==> entitlements == old(entitlements)[seller := e]
                         && seller in reconciliations
                         && reconciliations == old(reconciliations)[seller := reconciliations[seller]]
                         && Recorded(seller) == old(Recorded(seller)) + {record.sourceRevision})
      ensures !ok ==> entitlements == old(entitlements) && reconciliations == old(reconciliations)
    {
      hide LexLess;
      var seller := e.terms.sellerId;
      var known := seller in entitlements;
      if (!known && expected != 0) || (known && entitlements[seller].version != expected)
         || e.version != Increment(expected)
         || record.sellerId != seller || record.sourceRevision != e.sourceRevision || record.appliedVersion != e.version
      {
        return false;
      }
      if known && !LexLess(entitlements[seller].sourceRevision, e.sourceRevision) {
        return false;
      }
      var records := if seller in reconciliations then reconciliations[seller] else map[];
      if record.sourceRevision in records {
        return false;
      }
      entitlements := entitlements[seller := e];
      reconciliations := reconciliations[seller := records[record.sourceRevision := record]];
      return true;
    }
  }

  datatype Response =
    | Rejected(failure: Failure) | ReconcileConflict | AuditFailed | InvalidationFailed | Responded(entitlement: SellerEntitlement)

  class BillingService {
    const repository: EntitlementRepository

    constructor (repository: EntitlementRepository)
      ensures this.repository == repository
    {
      this.repository := repository;
    }

    // Service.ReconcileEntitlement without interference: it never reports a conflict, and it
    // stores the reconciled entitlement as the next version exactly when the reconciliation
    // succeeds. The audit record and the invalidation come after the write: their failure is
    // reported although the version is stored.
    method ReconcileEntitlement(candidate: Candidate, now: Time, auditFails: bool, invalidationFails: bool)
      returns (r: Response)
      requires repository.Valid()
      modifies repository
      ensures repository.Valid()
      ensures match Reconcile(Stored(old(repository.LogOf(candidate.sellerId))), candidate, now)
              case Err(f) => r == Rejected(f) && repository.logs == old(repository.logs)
              case Ok(o) =>
                && r == (if auditFails then AuditFailed else if invalidationFails then InvalidationFailed
                         else Responded(o.entitlement))
                && repository.logs == old(repository.logs)[candidate.sellerId :=
                                        old(repository.LogOf(candidate.sellerId)) + [o.entitlement]]
    {
      hide Reconcile, WellFormed, ApplyAccepts, ValidLog, Revisions, Stored, ReconcileWrite;
      var seller := candidate.sellerId;
      ghost var log := repository.LogOf(seller);
      repository.StoredIsLog(seller);
      var current := repository.Get(seller);
      var outcome := ReconcileSellerEntitlement(current, candidate, now);
      if outcome.Err? {
        return Rejected(outcome.error);
      }
      var e, record := outcome.value.entitlement, outcome.value.record;
      WriteNow(seller, log, candidate, now);
      RevisionsGrow(log, e);
      var ok := repository.Apply(e, record, ExpectedVersion(current));
      if !ok {
        return ReconcileConflict;
      }
      repository.logs := repository.logs[seller := log + [e]];
      assert Consistent(seller, repository.entitlements[seller], repository.reconciliations[seller].Keys, log + [e]);
      if auditFails {
        return AuditFailed;
      }
      if invalidationFails {
        return InvalidationFailed;
      }
      return Responded(e);
    }
  }

  lemma WriteNow(seller: Id, log: seq<SellerEntitlement>, candidate: Candidate, at: Time)
    requires ValidLog(seller, log) && candidate.sellerId == seller
    requires Reconcile(Stored(log), candidate, at).Ok?
    ensures var o := Reconcile(Stored(log), candidate, at).value;
            && ApplyAccepts(Stored(log), Revisions(log), o.entitlement, o.record, ExpectedVersion(Stored(log)))
            && ValidLog(seller, log + [o.entitlement])
            && o.entitlement.terms.sellerId == seller
            && o.record.sourceRevision == o.entitlement.sourceRevision
  {
    hide Reconcile, WellFormed, TrimSpace, LexLess, Follows;
    assert log[..|log|] == log;
    WriteCommitsIffUnchanged(seller, log, |log|, candidate, at);
    var e := Reconcile(Stored(log), candidate, at).value.entitlement;
    assert (log + [e])[|log|] == e;
  }

  lemma RevisionsGrow(log: seq<SellerEntitlement>, e: SellerEntitlement)
    ensures Revisions(log + [e]) == Revisions(log) + {e.sourceRevision}
  {
    var longer := log + [e];
    forall r | r in Revisions(log) + {e.sourceRevision} ensures r in Revisions(longer) {
      if r == e.sourceRevision {
        assert longer[|log|].sourceRevision == r;
      } else {
        var i :| 0 <= i < |log| && log[i].sourceRevision == r;
        assert longer[i].sourceRevision == r;
      }
    }
  }
}
