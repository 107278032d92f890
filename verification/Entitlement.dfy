// Seller entitlements (internal/billing): the boundary rules that age a candidate,
// and the reconciliation that computes the next stored entitlement.
module Entitlement {
  import opened Foundations
  import opened Decimal

  const GRACE_DURATION: int := 72 * HOUR
  const REVISION_WIDTH: nat := 20

  datatype Status = Active | Grace | Suspended | Cancelled | Closed | UnsupportedStatus
  datatype Reason =
    | NoReason | PaymentFailed | PaymentActionRequired | CancellationRequested | CancelledReason
    | Administrative | FraudQuarantine | AccountClosed | ProviderIncomplete | OtherReason(text: string)
  datatype Source = BillingProvider | OperatorSource | LocalSource | UnsupportedSource
  datatype Provider = Stripe | OperatorProvider | LocalProvider | UnsupportedProvider

  datatype PlanId = Starter | Growth | Scale | UnknownPlan

  // The commercial terms a provider, an operator or a plan change proposes. hasProviderIds
  // says that the customer, subscription and price identifiers are all non-blank.
  datatype Candidate = Candidate(
    sellerId: Id, planId: PlanId, planVersion: nat, status: Status,
    periodStart: Time, periodEnd: Time, accessEndsAt: Time, cancelAtPeriodEnd: bool,
    source: Source, reason: Reason, provider: Provider, hasProviderIds: bool, lastEventId: string)

  // A stored entitlement: the accepted terms and the bookkeeping around them.
  datatype SellerEntitlement = SellerEntitlement(
    terms: Candidate, graceEndsAt: Option<Time>, epoch: nat, sourceRevision: string,
    lastReconciledAt: Option<Time>, rotationRequired: bool, assignedAt: Time, updatedAt: Time, version: nat)

  // The reconciliation record committed together with an entitlement.
  datatype Reconciliation = Reconciliation(
    sellerId: Id, sourceRevision: string, eventIds: seq<string>, reconciledAt: Time, appliedVersion: nat)

  datatype Outcome = Outcome(entitlement: SellerEntitlement, record: Reconciliation)

  datatype Failure = MissingTime | RevisionExhausted | InvalidEntitlement

  predicate KnownPlan(planId: PlanId, planVersion: nat) { planId != UnknownPlan && planVersion == 1 }

  predicate ValidSourceRevision(revision: string) {
    |revision| == REVISION_WIDTH && ParseUint(revision).Some? && revision != Zeros(REVISION_WIDTH)
  }

  predicate ValidTerms(t: Candidate) {
    && t.sellerId.prefix == SellerIds
    && KnownPlan(t.planId, t.planVersion)
    && t.status != UnsupportedStatus
    && t.periodStart != ZERO_TIME && t.periodEnd != ZERO_TIME && t.periodStart < t.periodEnd
    && t.accessEndsAt != ZERO_TIME
    && t.source != UnsupportedSource
    && t.provider != UnsupportedProvider
    && (t.provider == Stripe ==> t.hasProviderIds)
  }

  // The checks of NewSellerEntitlement.
  predicate ValidParams(p: SellerEntitlement) {
    && ValidTerms(p.terms)
    && p.graceEndsAt == GraceEndForCandidate(p.terms)
    && p.epoch != 0
    && ValidSourceRevision(p.sourceRevision)
    && p.assignedAt != ZERO_TIME && p.updatedAt != ZERO_TIME && p.assignedAt <= p.updatedAt
    && p.version != 0
  }

  function TrimTerms(t: Candidate): Candidate {
    t.(lastEventId := TrimSpace(t.lastEventId))
  }

  function NewSellerEntitlement(p: SellerEntitlement): Result<SellerEntitlement, Failure> {
    if !ValidParams(p) then Err(InvalidEntitlement) else Ok(p.(terms := TrimTerms(p.terms)))
  }

  function CandidateFromEntitlement(e: SellerEntitlement): Candidate { e.terms }

  predicate PaymentTrouble(r: Reason) { r == PaymentFailed || r == PaymentActionRequired }

  // What a candidate has become by the time now, in one step: paid access, then grace
  // for payment trouble, then suspension; or cancellation at the period end.
  function Normalized(c: Candidate, now: Time): Candidate {
    var graceEnd := c.accessEndsAt + GRACE_DURATION;
    if c.status == Active && c.accessEndsAt <= now && c.cancelAtPeriodEnd then
      c.(status := Cancelled, reason := CancelledReason)
    else if c.status == Active && c.accessEndsAt <= now && !PaymentTrouble(c.reason) then
      c.(status := Suspended, reason := ProviderIncomplete)
    else if c.status == Active && c.accessEndsAt <= now < graceEnd then
      c.(status := Grace)
    else if (c.status == Active || c.status == Grace) && graceEnd <= now then
      c.(status := Suspended, reason := PaymentFailed)
    else
      c
  }

  // normalizeCandidateAtBoundary: two successive updates of the candidate.
  method NormalizeCandidateAtBoundary(candidate: Candidate, now: Time) returns (c: Candidate)
    ensures c == Normalized(candidate, now)
  {
    c := candidate;
    if c.status == Active && !(now < c.accessEndsAt) {
      if c.cancelAtPeriodEnd {
        c := c.(status := Cancelled);
        c := c.(reason := CancelledReason);
      } else if c.reason == PaymentFailed || c.reason == PaymentActionRequired {
        if now < c.accessEndsAt + GRACE_DURATION {
          c := c.(status := Grace);
        } else {
          c := c.(status := Suspended);
          c := c.(reason := PaymentFailed);
        }
      } else {
        c := c.(status := Suspended);
        c := c.(reason := ProviderIncomplete);
      }
    }
    if c.status == Grace && !(now < c.accessEndsAt + GRACE_DURATION) {
      c := c.(status := Suspended);
      c := c.(reason := PaymentFailed);
    }
  }

  function GraceEndForCandidate(c: Candidate): Option<Time> {
    if c.status != Grace then None else Some(c.accessEndsAt + GRACE_DURATION)
  }

  predicate InvalidatesCapabilities(current: Candidate, c: Candidate) {
    if current.status != c.status then
      c.status == Grace || c.status == Suspended || c.status == Cancelled || c.status == Closed || c.status == Active
    else c.status == Suspended && c.reason == FraudQuarantine && current.reason != FraudQuarantine
  }

  function NextSourceRevision(current: Option<SellerEntitlement>): Result<string, Failure> {
    match current
    case None => Ok(PrintPadded(1, REVISION_WIDTH))
    case Some(e) =>
      var parsed := ParseUint(e.sourceRevision);
      if parsed.None? || parsed.value == UINT64_MOD - 1 then Err(RevisionExhausted)
      else Ok(PrintPadded(parsed.value + 1, REVISION_WIDTH))
  }

  // Which candidate is actually applied: a closed seller stays closed, and the billing
  // provider cannot lift a fraud quarantine.
  function EffectiveCandidate(current: Option<SellerEntitlement>, candidate: Candidate, at: Time): Candidate {
    var c := Normalized(candidate, at);
    if current.Some? && current.value.terms.status == Closed then
      current.value.terms.(lastEventId := c.lastEventId, source := OperatorSource, provider := OperatorProvider,
                           reason := AccountClosed)
    else if current.Some? && current.value.terms.reason == FraudQuarantine && c.source == BillingProvider then
      current.value.terms.(lastEventId := c.lastEventId)
    else c
  }

  // uint64 increment
  function Increment(n: nat): nat { if n == UINT64_MOD - 1 then 0 else n + 1 }

  function NextParams(current: Option<SellerEntitlement>, c: Candidate, revision: string, at: Time): SellerEntitlement {
    match current
    case None => SellerEntitlement(c, GraceEndForCandidate(c), 1, revision, Some(at), false, at, at, 1)
    case Some(e) =>
      SellerEntitlement(
        c, GraceEndForCandidate(c),
        if InvalidatesCapabilities(e.terms, c) then Increment(e.epoch) else e.epoch,
        revision, Some(at),
        e.rotationRequired || (e.terms.status != Active && c.status == Active),
        if e.terms.planId != c.planId || e.terms.planVersion != c.planVersion then at else e.assignedAt,
        at, Increment(e.version))
  }

  function RecordOf(c: Candidate, e: SellerEntitlement, at: Time): Reconciliation {
    Reconciliation(c.sellerId, e.sourceRevision, if c.lastEventId != [] then [c.lastEventId] else [], at, e.version)
  }

  // The next entitlement once the effective candidate is known.
  function Advance(current: Option<SellerEntitlement>, c: Candidate, at: Time): Result<Outcome, Failure> {
    match NextSourceRevision(current)
    case Err(e) => Err(e)
    case Ok(revision) =>
      match NewSellerEntitlement(NextParams(current, c, revision, at))
      case Err(e) => Err(e)
      case Ok(next) => Ok(Outcome(next, RecordOf(c, next, at)))
  }

  // ReconcileSellerEntitlement
  function Reconcile(current: Option<SellerEntitlement>, candidate: Candidate, at: Time): Result<Outcome, Failure> {
    if at == ZERO_TIME then Err(MissingTime)
    else Advance(current, EffectiveCandidate(current, candidate, at), at)
  }

  // The same computation as the source performs it, by reassigning locals.
  method ReconcileSellerEntitlement(current: Option<SellerEntitlement>, candidate: Candidate, reconciledAt: Time)
    returns (r: Result<Outcome, Failure>)
    ensures r == Reconcile(current, candidate, reconciledAt)
  {
    if reconciledAt == ZERO_TIME {
      return Err(MissingTime);
    }
    var c := NormalizeCandidateAtBoundary(candidate, reconciledAt);
    var triggeringEventId := c.lastEventId;
    if current.Some? && current.value.terms.reason == FraudQuarantine && c.source == BillingProvider {
      c := CandidateFromEntitlement(current.value);
      c := c.(lastEventId := triggeringEventId);
    }
    if current.Some? && current.value.terms.status == Closed {
      c := CandidateFromEntitlement(current.value);
      c := c.(lastEventId := triggeringEventId, source := OperatorSource, provider := OperatorProvider);
      c := c.(status := Closed, reason := AccountClosed);
    }
    r := AdvanceEntitlement(current, c, reconciledAt);
  }

  method AdvanceEntitlement(current: Option<SellerEntitlement>, c: Candidate, reconciledAt: Time)
    returns (r: Result<Outcome, Failure>)
    ensures r == Advance(current, c, reconciledAt)
  {
    var revision := NextSourceRevision(current);
    if revision.Err? {
      return Err(revision.error);
    }
    var assignedAt, epoch, version, rotationRequired := reconciledAt, 1, 1, false;
    if current.Some? {
      var stored := current.value;
      assignedAt := stored.assignedAt;
      if stored.terms.planId != c.planId || stored.terms.planVersion != c.planVersion {
        assignedAt := reconciledAt;
      }
      epoch := stored.epoch;
      version := Increment(stored.version);
      rotationRequired := stored.rotationRequired;
      if InvalidatesCapabilities(stored.terms, c) {
        epoch := Increment(epoch);
      }
      if stored.terms.status != Active && c.status == Active {
        rotationRequired := true;
      }
    }
    var built := NewSellerEntitlement(
      SellerEntitlement(c, GraceEndForCandidate(c), epoch, revision.value, Some(reconciledAt),
                        rotationRequired, assignedAt, reconciledAt, version));
    if built.Err? {
      return Err(built.error);
    }
    return Ok(Outcome(built.value, RecordOf(c, built.value, reconciledAt)));
  }

  // ---- source revisions ----

  lemma RevisionFits(n: nat)
    requires n < UINT64_MOD
    ensures n < Pow10(REVISION_WIDTH)
  {
    assert Pow10(5) == 100_000;
    assert Pow10(10) == 10_000_000_000;
    assert Pow10(15) == 1_000_000_000_000_000;
    assert Pow10(20) == 100_000_000_000_000_000_000;
  }

  // The printer and the parser undo each other.
  lemma RevisionRoundTrip(n: nat)
    requires n < UINT64_MOD
    ensures ParseUint(PrintPadded(n, REVISION_WIDTH)) == Some(n)
    ensures |PrintPadded(n, REVISION_WIDTH)| == REVISION_WIDTH
  {
    RevisionFits(n);
    PrintedPadded(n, REVISION_WIDTH);
  }

  // A string is a valid source revision exactly when it is the print of some 1 <= n < 2^64.
  lemma ValidRevisionIffPrinted(s: string)
    ensures ValidSourceRevision(s) <==>
            ParseUint(s).Some? && 1 <= ParseUint(s).value && s == PrintPadded(ParseUint(s).value, REVISION_WIDTH)
  {
    var zero := Zeros(REVISION_WIDTH);
    PadValue(REVISION_WIDTH, "");
    assert zero == zero + "";
    if ParseUint(s).Some? {
      var n := ParseUint(s).value;
      RevisionFits(n);
      PrintedPadded(n, REVISION_WIDTH);
      if |s| == REVISION_WIDTH {
        ValueInjective(s, PrintPadded(n, REVISION_WIDTH));
        if n == 0 {
          ValueInjective(s, zero);
        }
      }
    }
  }

  // Revision strings compare as the numbers they spell.
  lemma RevisionOrder(m: nat, n: nat)
    requires m < UINT64_MOD && n < UINT64_MOD
    ensures LexLess(PrintPadded(m, REVISION_WIDTH), PrintPadded(n, REVISION_WIDTH)) <==> m < n
    ensures PrintPadded(m, REVISION_WIDTH) == PrintPadded(n, REVISION_WIDTH) <==> m == n
  {
    RevisionFits(m);
    RevisionFits(n);
    PaddedOrder(m, n, REVISION_WIDTH);
  }

  // ---- one reconciliation ----

  // What every stored entitlement satisfies: it passed validation with its identifiers
  // already trimmed, its version is the number its revision spells, and 1 <= epoch <= version.
  predicate WellFormed(e: SellerEntitlement) {
    && NewSellerEntitlement(e) == Ok(e)
    && e.version < UINT64_MOD
    && e.sourceRevision == PrintPadded(e.version, REVISION_WIDTH)
    && 1 <= e.epoch <= e.version
  }

  predicate WellFormedCurrent(current: Option<SellerEntitlement>) {
    current.None? || WellFormed(current.value)
  }

  // Loading a stored entitlement through its validating constructor changes nothing.
  lemma RestoreIsIdentity(p: SellerEntitlement)
    requires NewSellerEntitlement(p).Ok?
    ensures NewSellerEntitlement(NewSellerEntitlement(p).value) == NewSellerEntitlement(p)
  {
    TrimIdempotent(p.terms.lastEventId);
  }

  // The epoch moves exactly on a change of stored status or on entry into fraud
  // quarantine while suspended.
  predicate EpochMoves(o: Candidate, e: Candidate) {
    e.status != o.status || (e.status == Suspended && e.reason == FraudQuarantine && o.reason != FraudQuarantine)
  }

  lemma NextRevisionIs(current: Option<SellerEntitlement>)
    requires WellFormedCurrent(current)
    ensures NextSourceRevision(current) ==
            if current.None? then Ok(PrintPadded(1, REVISION_WIDTH))
            else if current.value.version == UINT64_MOD - 1 then Err(RevisionExhausted)
            else Ok(PrintPadded(current.value.version + 1, REVISION_WIDTH))
  {
    if current.Some? {
      RevisionRoundTrip(current.value.version);
    }
  }

  lemma AdvanceStep(current: Option<SellerEntitlement>, c: Candidate, at: Time)
    requires WellFormedCurrent(current) && Advance(current, c, at).Ok?
    ensures Advanced(current, c, Advance(current, c, at).value)
  {
    hide TrimSpace, PrintPadded, ValidSourceRevision, ParseUint;
    NextRevisionIs(current);
    RestoreIsIdentity(NextParams(current, c, NextSourceRevision(current).value, at));
  }

  // One reconciliation step: version and revision advance together by one, the epoch
  // advances exactly by EpochMoves, and the stored terms are the trimmed candidate.
  predicate Advanced(current: Option<SellerEntitlement>, c: Candidate, r: Outcome) {
    var e := r.entitlement;
    && WellFormed(e)
    && e.terms == TrimTerms(c)
    && (current.None? ==> e.version == 1 && e.epoch == 1)
    && (current.Some? ==>
          && e.version == current.value.version + 1
          && e.epoch == current.value.epoch + (if EpochMoves(current.value.terms, e.terms) then 1 else 0))
    && r.record.sellerId == e.terms.sellerId && r.record.sourceRevision == e.sourceRevision
    && r.record.appliedVersion == e.version
  }

  // Every successful reconciliation is such a step and names the triggering event.
  lemma ReconcileStep(current: Option<SellerEntitlement>, candidate: Candidate, at: Time)
    requires WellFormedCurrent(current) && Reconcile(current, candidate, at).Ok?
    ensures var r := Reconcile(current, candidate, at).value;
            && Advanced(current, EffectiveCandidate(current, candidate, at), r)
            && r.entitlement.terms.lastEventId == TrimSpace(candidate.lastEventId)
  {
    hide Advance, TrimSpace, WellFormed, PrintPadded;
    AdvanceStep(current, EffectiveCandidate(current, candidate, at), at);
  }

  // The overflow check on the stored revision is what keeps version and epoch from wrapping:
  // a reconciliation is refused for it exactly when the version is the largest uint64.
  lemma RevisionExhaustedIff(e: SellerEntitlement, candidate: Candidate, at: Time)
    requires WellFormed(e) && at != ZERO_TIME
    ensures Reconcile(Some(e), candidate, at) == Err(RevisionExhausted) <==> e.version == UINT64_MOD - 1
  {
    NextRevisionIs(Some(e));
  }

  // The terms a closed seller is left with: its own, closed by the operator, under the name
  // of the latest event.
  function ClosedTerms(t: Candidate, lastEventId: string): Candidate {
    t.(source := OperatorSource, provider := OperatorProvider, reason := AccountClosed, lastEventId := lastEventId)
  }

  lemma ClosedStep(e: SellerEntitlement, candidate: Candidate, at: Time)
    requires e.terms.status == Closed && Reconcile(Some(e), candidate, at).Ok?
    ensures var n := Reconcile(Some(e), candidate, at).value.entitlement.terms; n == ClosedTerms(e.terms, n.lastEventId)
  {
    hide TrimSpace, PrintPadded, ParseUint;
  }

  // ---- what is stored ----

  // The billing provider cannot touch a fraud quarantine: whatever it proposes, the stored
  // terms stay, but for the name of the event, and so does the epoch.
  lemma QuarantineHolds(e: SellerEntitlement, candidate: Candidate, at: Time)
    requires WellFormed(e) && e.terms.reason == FraudQuarantine && e.terms.status != Closed
    requires candidate.source == BillingProvider && Reconcile(Some(e), candidate, at).Ok?
    ensures var n := Reconcile(Some(e), candidate, at).value.entitlement;
            n.terms == e.terms.(lastEventId := TrimSpace(candidate.lastEventId)) && n.epoch == e.epoch
  {
    hide TrimSpace, WellFormed, Advance;
    ReconcileStep(Some(e), candidate, at);
  }

  // The candidate itself decides: the seller is not closed, and not quarantined against the
  // billing provider.
  predicate Decides(current: Option<SellerEntitlement>, candidate: Candidate) {
    current.Some? ==>
      && current.value.terms.status != Closed
      && (current.value.terms.reason == FraudQuarantine ==> candidate.source != BillingProvider)
  }

  // What a candidate's status and reason become at a time, case by case.
  predicate AgedAs(c: Candidate, at: Time, status: Status, reason: Reason) {
    var ended, late := at >= c.accessEndsAt, at >= c.accessEndsAt + 72 * HOUR;
    var trouble := c.reason == PaymentFailed || c.reason == PaymentActionRequired;
    // unexpired access is kept, and so is every status that does not age
    && (c.status == Active && !ended ==> status == Active && reason == c.reason)
    && (c.status != Active && c.status != Grace ==> status == c.status && reason == c.reason)
    // at the end of the period: cancelled, or in grace for payment trouble, or suspended
    && (c.status == Active && ended && c.cancelAtPeriodEnd ==> status == Cancelled && reason == CancelledReason)
    && (c.status == Active && ended && !c.cancelAtPeriodEnd && !trouble ==> status == Suspended && reason == ProviderIncomplete)
    && (c.status == Active && ended && !c.cancelAtPeriodEnd && trouble && !late ==> status == Grace && reason == c.reason)
    && (c.status == Active && ended && !c.cancelAtPeriodEnd && trouble && late ==> status == Suspended && reason == PaymentFailed)
    // grace lasts 72 hours from the end of access
    && (c.status == Grace && !late ==> status == Grace && reason == c.reason)
    && (c.status == Grace && late ==> status == Suspended && reason == PaymentFailed)
  }

  // Where the candidate decides, every stored field is given: plan, period and access end
  // are the candidate's, status and reason its aged ones; grace ends 72 hours after access,
  // exactly in grace; the epoch moves exactly when the status changes or a suspension turns
  // into a fraud quarantine; regaining access asks for credential rotation.
  lemma CandidateIsStored(current: Option<SellerEntitlement>, candidate: Candidate, at: Time)
    requires WellFormedCurrent(current) && Decides(current, candidate) && Reconcile(current, candidate, at).Ok?
    ensures var n := Reconcile(current, candidate, at).value.entitlement;
            && AgedAs(candidate, at, n.terms.status, n.terms.reason)
            && n.terms == candidate.(status := n.terms.status, reason := n.terms.reason, lastEventId := TrimSpace(candidate.lastEventId))
            && n.graceEndsAt == (if n.terms.status == Grace then Some(candidate.accessEndsAt + 72 * HOUR) else None)
            && n.updatedAt == at && n.lastReconciledAt == Some(at)
            && (current.None? ==> n.version == 1 && n.epoch == 1 && n.assignedAt == at && !n.rotationRequired)
            && (current.Some? ==>
                  var e := current.value;
                  && n.version == e.version + 1
                  && n.epoch == e.epoch + (if e.terms.status != n.terms.status
                                              || (n.terms.status == Suspended && n.terms.reason == FraudQuarantine
                                                  && e.terms.reason != FraudQuarantine) then 1 else 0)
                  && (n.rotationRequired <==> e.rotationRequired || (e.terms.status != Active && n.terms.status == Active))
                  && n.assignedAt == (if e.terms.planId == candidate.planId && e.terms.planVersion == candidate.planVersion
                                      then e.assignedAt else at))
  {
    hide TrimSpace, WellFormed, Advance, PrintPadded;
    ReconcileStep(current, candidate, at);
    StoredBookkeeping(current, candidate, at);
  }

  lemma StoredBookkeeping(current: Option<SellerEntitlement>, candidate: Candidate, at: Time)
    requires Reconcile(current, candidate, at).Ok?
    ensures var n := Reconcile(current, candidate, at).value.entitlement; var c := EffectiveCandidate(current, candidate, at);
            && n.graceEndsAt == GraceEndForCandidate(c) && n.updatedAt == at && n.lastReconciledAt == Some(at)
            && (current.None? ==> n.assignedAt == at && !n.rotationRequired)
            && (current.Some? ==>
                  var e := current.value;
                  && (n.rotationRequired <==> e.rotationRequired || (e.terms.status != Active && c.status == Active))
                  && n.assignedAt == (if e.terms.planId == c.planId && e.terms.planVersion == c.planVersion then e.assignedAt else at))
  {
    hide TrimSpace, PrintPadded, ValidParams, EffectiveCandidate, NextSourceRevision, GraceEndForCandidate, RecordOf;
  }

  // ---- time coherence ----

  // Ageing a candidate in two steps is ageing it once.
  lemma TimeCoherence(c: Candidate, t1: Time, t2: Time)
    requires t1 <= t2
    ensures Normalized(Normalized(c, t1), t2) == Normalized(c, t2)
  {
  }

  // Reconciling the stored state against itself at each of the given times.
  function CarryForward(e: SellerEntitlement, times: seq<Time>): Result<SellerEntitlement, Failure> {
    if times == [] then Ok(e) else
    match CarryForward(e, times[..|times| - 1])
    case Err(f) => Err(f)
    case Ok(mid) =>
      match Reconcile(Some(mid), CandidateFromEntitlement(mid), times[|times| - 1])
      case Err(f) => Err(f)
      case Ok(r) => Ok(r.entitlement)
  }

  predicate Nondecreasing(times: seq<Time>) {
    forall i, j :: 0 <= i < j < |times| ==> times[i] <= times[j]
  }

  // A seller whose stored state no longer ages: closed, or quarantined under the billing provider.
  predicate Frozen(t: Candidate) {
    t.status == Closed || (t.reason == FraudQuarantine && t.source == BillingProvider)
  }

  // What a carry-forward applies.
  function Carried(t: Candidate, at: Time): Candidate {
    if t.status == Closed then t.(source := OperatorSource, provider := OperatorProvider, reason := AccountClosed)
    else if Frozen(t) then t
    else Normalized(t, at)
  }

  lemma CarriedIsEffective(e: SellerEntitlement, at: Time)
    ensures EffectiveCandidate(Some(e), CandidateFromEntitlement(e), at) == Carried(e.terms, at)
  {
  }

  lemma AdvanceTerms(current: Option<SellerEntitlement>, c: Candidate, at: Time)
    requires Advance(current, c, at).Ok?
    ensures Advance(current, c, at).value.entitlement.terms == TrimTerms(c)
  {
  }

  lemma CarryOnce(e: SellerEntitlement, at: Time)
    requires Reconcile(Some(e), CandidateFromEntitlement(e), at).Ok?
    ensures Reconcile(Some(e), CandidateFromEntitlement(e), at).value.entitlement.terms == TrimTerms(Carried(e.terms, at))
  {
    CarriedIsEffective(e, at);
    AdvanceTerms(Some(e), Carried(e.terms, at), at);
  }

  // Normalization reads and writes only these parts, so trimming does not interfere with it.
  lemma NormalizedTrim(t: Candidate, at: Time)
    ensures Normalized(TrimTerms(t), at) == TrimTerms(Normalized(t, at))
  {
    hide TrimSpace;
  }

  // Outside frozen sellers, status and reason after any nondecreasing series of
  // reconciliations depend only on the last time; inside, the status never moves
  // (a closed seller's reason becomes account_closed).
  lemma {:induction false} CarryForwardDependsOnLastTime(e: SellerEntitlement, times: seq<Time>)
    requires times != [] && Nondecreasing(times) && CarryForward(e, times).Ok?
    ensures var f := CarryForward(e, times).value.terms; var aged := Normalized(e.terms, times[|times| - 1]);
            && (!Frozen(e.terms) ==> f == TrimTerms(aged))
            && (Frozen(e.terms) ==> f.status == e.terms.status && Frozen(f)
                                    && f.reason == (if e.terms.status == Closed then AccountClosed else e.terms.reason))
  {
    hide Reconcile, TrimSpace, Normalized;
    var k := |times| - 1;
    var mid := CarryForward(e, times[..k]).value;
    CarryOnce(mid, times[k]);
    if k > 0 {
      CarryForwardDependsOnLastTime(e, times[..k]);
      if !Frozen(e.terms) {
        AgedIsNotFrozen(e.terms, times[k - 1]);
        TimeCoherence(e.terms, times[k - 1], times[k]);
        NormalizedTrim(Normalized(e.terms, times[k - 1]), times[k]);
        TrimTermsIdempotent(Normalized(e.terms, times[k]));
      }
    }
  }

  lemma AgedIsNotFrozen(t: Candidate, at: Time)
    requires !Frozen(t)
    ensures !Frozen(Normalized(t, at))
  {
  }

  lemma TrimTermsIdempotent(t: Candidate)
    ensures TrimTerms(TrimTerms(t)) == TrimTerms(t)
  {
    TrimIdempotent(t.lastEventId);
  }

  lemma NextRevisionIsValid(e: SellerEntitlement)
    requires WellFormed(e) && e.version != UINT64_MOD - 1
    ensures ValidSourceRevision(PrintPadded(e.version + 1, REVISION_WIDTH))
  {
    RevisionRoundTrip(e.version + 1);
    ValidRevisionIffPrinted(PrintPadded(e.version + 1, REVISION_WIDTH));
  }

  // On valid terms, only the revision and the assignment time can refuse a step.
  lemma AdvanceSucceedsIff(e: SellerEntitlement, c: Candidate, at: Time)
    requires WellFormed(e) && ValidTerms(c) && at != ZERO_TIME
    ensures Advance(Some(e), c, at).Ok?
            <==> e.version != UINT64_MOD - 1
                 && (e.assignedAt <= at || e.terms.planId != c.planId || e.terms.planVersion != c.planVersion)
  {
    hide TrimSpace, PrintPadded, ValidSourceRevision, ParseUint;
    NextRevisionIs(Some(e));
    if e.version != UINT64_MOD - 1 {
      NextRevisionIsValid(e);
    }
  }

  // A carried-forward entitlement is refused exactly when the time is missing, precedes
  // the plan assignment, or the revision is exhausted.
  lemma CarryForwardSucceedsIff(e: SellerEntitlement, at: Time)
    requires WellFormed(e)
    ensures Reconcile(Some(e), CandidateFromEntitlement(e), at).Ok?
            <==> at != ZERO_TIME && e.assignedAt <= at && e.version != UINT64_MOD - 1
  {
    hide TrimSpace, PrintPadded, ValidSourceRevision;
    if at != ZERO_TIME {
      CarriedIsEffective(e, at);
      AdvanceSucceedsIff(e, Carried(e.terms, at), at);
    }
  }

  // Exactly when a reconciliation succeeds.
  lemma ReconcileSucceedsIff(e: SellerEntitlement, candidate: Candidate, at: Time)
    requires WellFormed(e)
    ensures var c := EffectiveCandidate(Some(e), candidate, at);
            Reconcile(Some(e), candidate, at).Ok? <==>
              && at != ZERO_TIME && ValidTerms(c) && e.version != UINT64_MOD - 1
              && (e.assignedAt <= at || e.terms.planId != c.planId || e.terms.planVersion != c.planVersion)
  {
    hide TrimSpace, PrintPadded, ValidSourceRevision, ParseUint, EffectiveCandidate, ValidTerms;
    var c := EffectiveCandidate(Some(e), candidate, at);
    if at != ZERO_TIME && ValidTerms(c) {
      AdvanceSucceedsIff(e, c, at);
    }
  }

  // The time of an update is the time of its reconciliation, so it moves backwards exactly
  // when an earlier time succeeds: one that is not before the kept plan assignment, or any
  // at all when the plan changes, which restarts the assignment there.
  lemma UpdateTimeMovesBackIff(e: SellerEntitlement, candidate: Candidate, at: Time)
    requires WellFormed(e)
    ensures var c := EffectiveCandidate(Some(e), candidate, at); var r := Reconcile(Some(e), candidate, at);
            (r.Ok? && r.value.entitlement.updatedAt < e.updatedAt) <==>
              && at < e.updatedAt && at != ZERO_TIME && ValidTerms(c) && e.version != UINT64_MOD - 1
              && (e.assignedAt <= at || e.terms.planId != c.planId || e.terms.planVersion != c.planVersion)
  {
    hide TrimSpace, PrintPadded, ValidSourceRevision, ParseUint, EffectiveCandidate, ValidTerms;
    ReconcileSucceedsIff(e, candidate, at);
  }

  // Both ways are open to every entitlement that is not frozen or exhausted: carrying it
  // forward at any time from its assignment on, or changing its plan at any time.
  lemma UpdateTimeCanMoveBack(e: SellerEntitlement, at: Time)
    requires WellFormed(e) && e.version != UINT64_MOD - 1 && at != ZERO_TIME && at < e.updatedAt
    ensures e.assignedAt <= at ==>
              var r := Reconcile(Some(e), CandidateFromEntitlement(e), at); r.Ok? && r.value.entitlement.updatedAt == at
    ensures !Frozen(e.terms) && e.terms.planId != Scale ==>
              var r := Reconcile(Some(e), e.terms.(planId := Scale), at); r.Ok? && r.value.entitlement.updatedAt == at
  {
    hide TrimSpace, PrintPadded, ValidSourceRevision;
    CarryForwardSucceedsIff(e, at);
    if !Frozen(e.terms) && e.terms.planId != Scale {
      var c := Normalized(e.terms.(planId := Scale), at);
      assert EffectiveCandidate(Some(e), e.terms.(planId := Scale), at) == c;
      AdvanceSucceedsIff(e, c, at);
    }
  }

  // The first reconciliation of a seller succeeds exactly on valid aged terms.
  lemma FirstReconcileSucceedsIff(candidate: Candidate, at: Time)
    ensures Reconcile(None, candidate, at).Ok? <==> at != ZERO_TIME && ValidTerms(Normalized(candidate, at))
  {
    hide TrimSpace, PrintPadded, ValidSourceRevision, ParseUint, ValidTerms, Normalized;
    RevisionRoundTrip(1);
    ValidRevisionIffPrinted(PrintPadded(1, REVISION_WIDTH));
  }

  // What was reconciled first can be reconciled again at the same time.
  lemma ReconcileAgainSucceeds(candidate: Candidate, at: Time)
    requires Reconcile(None, candidate, at).Ok?
    ensures Reconcile(Some(Reconcile(None, candidate, at).value.entitlement), candidate, at).Ok?
  {
    hide TrimSpace, PrintPadded, ValidSourceRevision, ParseUint, Normalized, Reconcile, WellFormed;
    FirstReconcileSucceedsIff(candidate, at);
    ReconcileStep(None, candidate, at);
    FirstAssigned(candidate, at);
    ReconcileSucceedsIff(Reconcile(None, candidate, at).value.entitlement, candidate, at);
  }

  lemma FirstAssigned(candidate: Candidate, at: Time)
    requires Reconcile(None, candidate, at).Ok?
    ensures Reconcile(None, candidate, at).value.entitlement.assignedAt == at
  {
    hide TrimSpace, PrintPadded, ValidSourceRevision, ParseUint, ValidTerms, Normalized;
  }
}
