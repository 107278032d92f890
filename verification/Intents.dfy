// Purchase intents (internal/intents, and the claiming side of internal/payments): the
// lifecycle of one intent under interleaved cancel and claim calls that read, decide,
// write conditionally and re-read when the write is lost.
module Intents {
  import opened Foundations

  datatype Status = Ready | Cancelled | Expired | Executed | ApprovalPending

  datatype Intent = Intent(
    buyer: string, status: Status, createdAt: Time, expiresAt: Time, cancelledAt: Option<Time>, byBuyer: bool, version: nat)

  datatype LifecycleError = InvalidTransition | PastExpiry | BeforeCreation

  // createPurchaseIntent: ready, or waiting for approval; version one.
  predicate Created(i: Intent) {
    i.version == 1 && (i.status == Ready || i.status == ApprovalPending) && i.cancelledAt.None?
  }

  // ---- the three transitions on a value ----

  function Cancel(i: Intent, at: Time): Result<Intent, LifecycleError> {
    if i.status == Cancelled then Ok(i)
    else if i.status != Ready then Err(InvalidTransition)
    else if i.expiresAt <= at then Err(PastExpiry)
    else if at < i.createdAt then Err(BeforeCreation)
    else Ok(i.(status := Cancelled, cancelledAt := Some(at), byBuyer := true, version := i.version + 1))
  }

  function Expire(i: Intent, at: Time): Result<Intent, LifecycleError> {
    if i.status == Expired then Ok(i)
    else if i.status != Ready || at < i.expiresAt then Err(InvalidTransition)
    else Ok(i.(status := Expired, version := i.version + 1))
  }

  function Claim(i: Intent, at: Time): Result<Intent, LifecycleError> {
    if i.status == Executed then Ok(i)
    else if i.status != Ready then Err(InvalidTransition)
    else if i.expiresAt <= at then Err(PastExpiry)
    else if at < i.createdAt then Err(BeforeCreation)
    else Ok(i.(status := Executed, version := i.version + 1))
  }

  // The intent object of the source, updated in place.
  class PurchaseIntent {
    const buyer: string
    const createdAt: Time
    const expiresAt: Time
    var status: Status
    var cancelledAt: Option<Time>
    var byBuyer: bool
    var version: nat

    function Value(): Intent
      reads this
    {
      Intent(buyer, status, createdAt, expiresAt, cancelledAt, byBuyer, version)
    }

    constructor (i: Intent)
      ensures Value() == i
    {
      buyer, createdAt, expiresAt := i.buyer, i.createdAt, i.expiresAt;
      status, cancelledAt, byBuyer, version := i.status, i.cancelledAt, i.byBuyer, i.version;
    }

    method DoCancel(at: Time) returns (error: Option<LifecycleError>)
      modifies this
      ensures match Cancel(old(Value()), at)
              case Ok(i) => error == None && Value() == i
              case Err(e) => error == Some(e) && Value() == old(Value())
    {
      if status == Cancelled {
        return None;
      }
      if status != Ready {
        return Some(InvalidTransition);
      }
      if !(at < expiresAt) {
        return Some(PastExpiry);
      }
      if at < createdAt {
        return Some(BeforeCreation);
      }
      status := Cancelled;
      cancelledAt := Some(at);
      byBuyer := true;
      version := version + 1;
      return None;
    }

    method DoExpire(at: Time) returns (error: Option<LifecycleError>)
      modifies this
      ensures match Expire(old(Value()), at)
              case Ok(i) => error == None && Value() == i
              case Err(e) => error == Some(e) && Value() == old(Value())
    {
      if status == Expired {
        return None;
      }
      if status != Ready || at < expiresAt {
        return Some(InvalidTransition);
      }
      status := Expired;
      version := version + 1;
      return None;
    }

    method DoClaim(at: Time) returns (error: Option<LifecycleError>)
      modifies this
      ensures match Claim(old(Value()), at)
              case Ok(i) => error == None && Value() == i
              case Err(e) => error == Some(e) && Value() == old(Value())
    {
      if status == Executed {
        return None;
      }
      if status != Ready {
        return Some(InvalidTransition);
      }
      if !(at < expiresAt) {
        return Some(PastExpiry);
      }
      if at < createdAt {
        return Some(BeforeCreation);
      }
      status := Executed;
      version := version + 1;
      return None;
    }
  }

  // ---- the protocol ----

  datatype CancelResult = Returned(intent: Intent) | CancelExpired | StateConflict | NoAccess
  datatype ClaimResult = Proceed(intent: Intent) | ClaimCancelled | ClaimExpired | ClaimRefused

  datatype Call =
    | CancelWriting(updated: Intent, expected: nat, now: Time)
    | CancelExpiring(updated: Intent, expected: nat, now: Time)
    | CancelLost(now: Time)
    | CancelExpiryLost(now: Time)
    | CancelDone(result: CancelResult, now: Time)
    | ClaimWriting(updated: Intent, expected: nat, now: Time)
    | ClaimExpiring(updated: Intent, expected: nat, now: Time)
    | ClaimLost(now: Time)
    | ClaimExpiryLost(now: Time)
    | ClaimDone(outcome: ClaimResult, now: Time)

  // The stored intent, every version of it that was ever stored, and the calls.
  datatype World = World(stored: Intent, history: seq<Intent>, calls: map<nat, Call>)

  function Init(i: Intent): World { World(i, [i], map[]) }

  datatype Action =
    | StartCancel(call: nat, buyer: string, now: Time)
    | StartClaim(call: nat, now: Time)
    | Write(call: nat)
    | Reread(call: nat)

  // Service.Cancel up to its write.
  function DecideCancel(i: Intent, buyer: string, now: Time): Call {
    if TrimSpace(buyer) == [] || i.buyer != TrimSpace(buyer) then CancelDone(NoAccess, now)
    else match i.status
      case Cancelled => CancelDone(Returned(i), now)
      case Expired => CancelDone(CancelExpired, now)
      case Executed => CancelDone(StateConflict, now)
      case ApprovalPending => CancelDone(StateConflict, now)
      case Ready =>
        if i.expiresAt <= now then
          match Expire(i, now)
          case Ok(e) => CancelExpiring(e, i.version, now)
          case Err(_) => CancelDone(CancelExpired, now)
        else
          match Cancel(i, now)
          case Ok(e) => CancelWriting(e, i.version, now)
          case Err(_) => CancelDone(StateConflict, now)
  }

  function RereadCancelLost(i: Intent): CancelResult {
    if i.status == Cancelled then Returned(i)
    else if i.status == Expired then CancelExpired
    else StateConflict
  }

  function RereadExpiryLost(i: Intent): CancelResult {
    match i.status
    case Cancelled => Returned(i)
    case Executed => StateConflict
    case ApprovalPending => StateConflict
    case _ => CancelExpired
  }

  // The claiming call of the paid route up to its write.
  function DecideClaim(i: Intent, now: Time): Call {
    match i.status
    case Executed => ClaimDone(Proceed(i), now)
    case Cancelled => ClaimDone(ClaimCancelled, now)
    case Expired => ClaimDone(ClaimExpired, now)
    case ApprovalPending => ClaimDone(if i.expiresAt <= now then ClaimExpired else Proceed(i), now)
    case Ready =>
      if now < i.expiresAt then
        match Claim(i, now)
        case Ok(e) => ClaimWriting(e, i.version, now)
        case Err(_) => ClaimDone(ClaimRefused, now)
      else
        match Expire(i, now)
        case Ok(e) => ClaimExpiring(e, i.version, now)
        case Err(_) => ClaimDone(ClaimExpired, now)
  }

  function RereadClaim(i: Intent): ClaimResult {
    if i.status == Executed then Proceed(i) else if i.status == Cancelled then ClaimCancelled else ClaimExpired
  }

  function To(w: World, call: nat, state: Call): World { w.(calls := w.calls[call := state]) }

  // Update: only at the expected version.
  function TryUpdate(w: World, call: nat, updated: Intent, expected: nat, won: Call, lost: Call): World {
    if w.stored.version == expected && updated.version == expected + 1
    then World(updated, w.history + [updated], w.calls[call := won])
    else To(w, call, lost)
  }

  function DoWrite(w: World, c: nat, state: Call): World {
    match state
    case CancelWriting(i, expected, now) => TryUpdate(w, c, i, expected, CancelDone(Returned(i), now), CancelLost(now))
    case CancelExpiring(i, expected, now) => TryUpdate(w, c, i, expected, CancelDone(CancelExpired, now), CancelExpiryLost(now))
    case ClaimWriting(i, expected, now) => TryUpdate(w, c, i, expected, ClaimDone(Proceed(i), now), ClaimLost(now))
    case ClaimExpiring(i, expected, now) => TryUpdate(w, c, i, expected, ClaimDone(ClaimExpired, now), ClaimExpiryLost(now))
    case _ => w
  }

  function DoReread(w: World, c: nat, state: Call): World {
    match state
    case CancelLost(now) => To(w, c, CancelDone(RereadCancelLost(w.stored), now))
    case CancelExpiryLost(now) => To(w, c, CancelDone(RereadExpiryLost(w.stored), now))
    case ClaimLost(now) => To(w, c, ClaimDone(RereadClaim(w.stored), now))
    case ClaimExpiryLost(now) => To(w, c, ClaimDone(RereadClaim(w.stored), now))
    case _ => w
  }

  function Exec(w: World, a: Action): World {
    match a
    case StartCancel(c, buyer, now) => if c in w.calls then w else To(w, c, DecideCancel(w.stored, buyer, now))
    case StartClaim(c, now) => if c in w.calls then w else To(w, c, DecideClaim(w.stored, now))
    case Write(c) => if c in w.calls then DoWrite(w, c, w.calls[c]) else w
    case Reread(c) => if c in w.calls then DoReread(w, c, w.calls[c]) else w
  }

  function Run(w: World, actions: seq<Action>): World {
    if actions == [] then w else Exec(Run(w, actions[..|actions| - 1]), actions[|actions| - 1])
  }

  // ---- the invariant ----

  predicate Terminal(s: Status) { s == Cancelled || s == Expired || s == Executed }

  // An updated intent waiting to be written: one terminal step away from version one.
  predicate Pending(updated: Intent, expected: nat, first: Intent, target: Status) {
    && expected == 1 && updated.version == 2 && updated.status == target && first.status == Ready
    && updated.buyer == first.buyer && updated.createdAt == first.createdAt && updated.expiresAt == first.expiresAt
  }

  predicate CancelledInTime(i: Intent) {
    i.byBuyer && i.cancelledAt.Some? && i.createdAt <= i.cancelledAt.value < i.expiresAt
  }

  predicate CallOk(stored: Intent, first: Intent, call: Call) {
    match call
    case CancelWriting(i, expected, now) => Pending(i, expected, first, Cancelled) && CancelledInTime(i)
    case CancelExpiring(i, expected, _) => Pending(i, expected, first, Expired)
    case ClaimWriting(i, expected, _) => Pending(i, expected, first, Executed)
    case ClaimExpiring(i, expected, _) => Pending(i, expected, first, Expired)
    case CancelLost(_) => Terminal(stored.status)
    case CancelExpiryLost(_) => Terminal(stored.status)
    case ClaimLost(_) => Terminal(stored.status)
    case ClaimExpiryLost(_) => Terminal(stored.status)
    case CancelDone(result, now) => CancelResultOk(stored, result, now)
    case ClaimDone(result, now) => ClaimResultOk(stored, result, now)
  }

  // What the result of a finished cancel call says about the intent as it is stored.
  predicate CancelResultOk(stored: Intent, result: CancelResult, now: Time) {
    match result
    case Returned(i) => stored == i && i.status == Cancelled
    case CancelExpired => stored.status == Expired
    case StateConflict =>
      stored.status == Executed || stored.status == ApprovalPending || now < stored.createdAt
    case NoAccess => true
  }

  predicate ClaimResultOk(stored: Intent, result: ClaimResult, now: Time) {
    match result
    case Proceed(i) => stored == i && (i.status == Executed || (i.status == ApprovalPending && now < i.expiresAt))
    case ClaimCancelled => stored.status == Cancelled
    case ClaimExpired => stored.status == Expired || (stored.status == ApprovalPending && stored.expiresAt <= now)
    case ClaimRefused => now < stored.createdAt
  }

  // Stored: still the created intent, or its one terminal successor.
  predicate StoredOk(stored: Intent, first: Intent, history: seq<Intent>) {
    && Created(first)
    && ((stored == first && history == [first])
        || (first.status == Ready && Terminal(stored.status) && stored.version == 2 && history == [first, stored]
            && stored.createdAt == first.createdAt && stored.expiresAt == first.expiresAt
            && (stored.status == Cancelled ==> CancelledInTime(stored))))
  }

  predicate Inv(w: World, first: Intent) {
    && StoredOk(w.stored, first, w.history)
    && forall c :: c in w.calls ==> CallOk(w.stored, first, w.calls[c])
  }

  // A finished call's account stays true when the intent moves from ready to a terminal state.
  lemma CallOkStable(stored: Intent, next: Intent, first: Intent, call: Call)
    requires CallOk(stored, first, call) && stored == first && Created(first) && first.status == Ready
    requires Terminal(next.status) && next.createdAt == first.createdAt && next.expiresAt == first.expiresAt
    ensures CallOk(next, first, call)
  {
  }

  lemma MoveKeepsInv(w: World, first: Intent, c: nat, state: Call)
    requires Inv(w, first) && CallOk(w.stored, first, state)
    ensures Inv(To(w, c, state), first)
  {
    hide CallOk;
  }

  lemma UpdateKeepsInv(w: World, first: Intent, c: nat, updated: Intent, target: Status, won: Call, lost: Call)
    requires Inv(w, first) && Pending(updated, 1, first, target) && Terminal(target)
    requires CallOk(updated, first, won) && (target == Cancelled ==> CancelledInTime(updated))
    requires Terminal(w.stored.status) ==> CallOk(w.stored, first, lost)
    ensures Inv(TryUpdate(w, c, updated, 1, won, lost), first)
  {
    hide CallOk;
    if w.stored.version == 1 {
      var v := TryUpdate(w, c, updated, 1, won, lost);
      assert [first] + [updated] == [first, updated];
      forall d | d in v.calls ensures CallOk(updated, first, v.calls[d]) {
        if d != c {
          CallOkStable(w.stored, updated, first, w.calls[d]);
        }
      }
    } else {
      MoveKeepsInv(w, first, c, lost);
    }
  }

  lemma ExecKeepsInv(w: World, first: Intent, a: Action)
    requires Inv(w, first)
    ensures Inv(Exec(w, a), first)
  {
    hide TrimSpace, DoWrite, DoReread;
    match a {
      case StartCancel(c, buyer, now) =>
        MoveKeepsInv(w, first, c, DecideCancel(w.stored, buyer, now));
      case StartClaim(c, now) =>
        MoveKeepsInv(w, first, c, DecideClaim(w.stored, now));
      case Write(c) =>
        if c in w.calls {
          WriteKeepsInv(w, first, c);
        }
      case Reread(c) =>
        if c in w.calls {
          RereadKeepsInv(w, first, c);
        }
    }
  }

  lemma WriteKeepsInv(w: World, first: Intent, c: nat)
    requires Inv(w, first) && c in w.calls
    ensures Inv(DoWrite(w, c, w.calls[c]), first)
  {
    assert CallOk(w.stored, first, w.calls[c]);
    match w.calls[c] {
      case CancelWriting(i, _, now) =>
        UpdateKeepsInv(w, first, c, i, Cancelled, CancelDone(Returned(i), now), CancelLost(now));
      case CancelExpiring(i, _, now) =>
        UpdateKeepsInv(w, first, c, i, Expired, CancelDone(CancelExpired, now), CancelExpiryLost(now));
      case ClaimWriting(i, _, now) =>
        UpdateKeepsInv(w, first, c, i, Executed, ClaimDone(Proceed(i), now), ClaimLost(now));
      case ClaimExpiring(i, _, now) =>
        UpdateKeepsInv(w, first, c, i, Expired, ClaimDone(ClaimExpired, now), ClaimExpiryLost(now));
      case _ =>
    }
  }

  lemma RereadKeepsInv(w: World, first: Intent, c: nat)
    requires Inv(w, first) && c in w.calls
    ensures Inv(DoReread(w, c, w.calls[c]), first)
  {
    assert CallOk(w.stored, first, w.calls[c]);
    match w.calls[c] {
      case CancelLost(now) => MoveKeepsInv(w, first, c, CancelDone(RereadCancelLost(w.stored), now));
      case CancelExpiryLost(now) => MoveKeepsInv(w, first, c, CancelDone(RereadExpiryLost(w.stored), now));
      case ClaimLost(now) => MoveKeepsInv(w, first, c, ClaimDone(RereadClaim(w.stored), now));
      case ClaimExpiryLost(now) => MoveKeepsInv(w, first, c, ClaimDone(RereadClaim(w.stored), now));
      case _ =>
    }
  }

  lemma {:induction false} RunKeepsInv(w: World, first: Intent, actions: seq<Action>)
    requires Inv(w, first)
    ensures Inv(Run(w, actions), first)
  {
    hide Inv, Exec;
    if actions != [] {
      var k := |actions| - 1;
      RunKeepsInv(w, first, actions[..k]);
      ExecKeepsInv(Run(w, actions[..k]), first, actions[k]);
    }
  }

  // ---- what holds in every run ----

  // At most one terminal state is ever stored: the versions of an intent are the created
  // one and, if it was ready, at most one terminal successor. The clock is unconstrained.
  lemma OneTerminalState(first: Intent, actions: seq<Action>)
    requires Created(first)
    ensures var h := Run(Init(first), actions).history;
            h == [first] || (|h| == 2 && h[0] == first && first.status == Ready && Terminal(h[1].status))
    ensures Run(Init(first), actions).stored == Run(Init(first), actions).history[|Run(Init(first), actions).history| - 1]
  {
    hide Run;
    RunKeepsInv(Init(first), first, actions);
  }

  // What a finished call reported is true of the stored intent now and after any further
  // steps: a returned intent is the stored cancelled one, expiry means it is expired, and a
  // conflict means executed or approval-pending, unless the caller's clock was behind creation.
  lemma ReportedResultsHold(first: Intent, actions: seq<Action>, c: nat)
    requires Created(first) && c in Run(Init(first), actions).calls
    ensures var w := Run(Init(first), actions);
            match w.calls[c]
            case CancelDone(result, now) => CancelResultOk(w.stored, result, now)
            case ClaimDone(result, now) => ClaimResultOk(w.stored, result, now)
            case _ => true
  {
    hide Run;
    RunKeepsInv(Init(first), first, actions);
    assert CallOk(Run(Init(first), actions).stored, first, Run(Init(first), actions).calls[c]);
  }

  // The conflict with a ready intent is real: a caller whose clock is behind the creation
  // time is told of a conflict although nothing has happened to the intent.
  lemma ConflictOnReadyIffClockBehind(i: Intent, buyer: string, now: Time)
    requires i.status == Ready && i.createdAt < i.expiresAt
    requires TrimSpace(buyer) != [] && i.buyer == TrimSpace(buyer)
    ensures DecideCancel(i, buyer, now) == CancelDone(StateConflict, now) <==> now < i.createdAt
  {
    hide TrimSpace;
  }

  // A cancelled intent cannot be paid for and an executed one cannot be cancelled: no run
  // holds both a returned cancellation and a claim that proceeded on an executed intent.
  lemma CancelledXorExecuted(first: Intent, actions: seq<Action>, c: nat, d: nat)
    requires Created(first)
    requires var w := Run(Init(first), actions); c in w.calls && d in w.calls
    requires var w := Run(Init(first), actions); w.calls[c].CancelDone? && w.calls[c].result.Returned?
    ensures var w := Run(Init(first), actions); !(w.calls[d].ClaimDone? && w.calls[d].outcome.Proceed?)
  {
    hide Run;
    ReportedResultsHold(first, actions, c);
    ReportedResultsHold(first, actions, d);
  }

  // Some cancel call of the run named the intent's buyer.
  ghost predicate BuyerAsked(first: Intent, actions: seq<Action>) {
    exists k :: 0 <= k < |actions| && Asks(first, actions[k])
  }

  predicate Asks(first: Intent, a: Action) {
    a.StartCancel? && TrimSpace(a.buyer) != [] && TrimSpace(a.buyer) == first.buyer
  }

  // Only the buyer cancels, and only between creation and expiry: in every run a cancelled
  // intent was asked for by its own buyer and carries a time inside that period.
  lemma CancelledOnlyByBuyerInTime(first: Intent, actions: seq<Action>)
    requires Created(first) && Run(Init(first), actions).stored.status == Cancelled
    ensures BuyerAsked(first, actions)
    ensures var i := Run(Init(first), actions).stored;
            && i.byBuyer && i.cancelledAt.Some? && first.createdAt <= i.cancelledAt.value < first.expiresAt
  {
    hide Run, BuyerAsked;
    RunKeepsInv(Init(first), first, actions);
    CancelIsAsked(first, actions);
  }

  lemma {:induction false} CancelIsAsked(first: Intent, actions: seq<Action>)
    requires Created(first)
    ensures var w := Run(Init(first), actions);
            (w.stored.status == Cancelled || exists c :: c in w.calls && w.calls[c].CancelWriting?) ==> BuyerAsked(first, actions)
  {
    if actions != [] {
      var k := |actions| - 1;
      var before, a := actions[..k], actions[k];
      CancelIsAsked(first, before);
      RunKeepsInv(Init(first), first, before);
      var w := Run(Init(first), before);
      hide Run, TrimSpace;
      if BuyerAsked(first, before) {
        var j :| 0 <= j < k && Asks(first, before[j]);
        assert Asks(first, actions[j]);
      } else {
        AskedStep(w, first, a);
        assert Asks(first, a) ==> Asks(first, actions[k]);
      }
    }
  }

  // A step that brings a cancellation about, or to its write, asks for it.
  lemma AskedStep(w: World, first: Intent, a: Action)
    requires Inv(w, first) && w.stored.status != Cancelled && (forall c :: c in w.calls ==> !w.calls[c].CancelWriting?)
    ensures var v := Exec(w, a);
            (v.stored.status == Cancelled || exists c :: c in v.calls && v.calls[c].CancelWriting?) ==> Asks(first, a)
  {
    hide TrimSpace;
    if a.Write? && a.call in w.calls {
      assert CallOk(w.stored, first, w.calls[a.call]);
    }
  }

  // ---- whole calls ----

  // In every run a cancel call that nothing interrupts is answered by the intent as it is: only
  // its buyer gets an answer at all; a ready intent is cancelled from its creation until it
  // expires, and expires after that; a cancelled one is returned, every other one refused.
  lemma CancelAnswers(first: Intent, actions: seq<Action>, c: nat, buyer: string, now: Time)
    requires Created(first) && c !in Run(Init(first), actions).calls
    ensures var w := Run(Init(first), actions); var i := w.stored;
            var v := Exec(Exec(w, StartCancel(c, buyer, now)), Write(c));
            && c in v.calls && v.calls[c].CancelDone?
            && (v.calls[c].result == NoAccess <==> TrimSpace(buyer) == "" || TrimSpace(buyer) != i.buyer)
            && (TrimSpace(buyer) != "" && TrimSpace(buyer) == i.buyer ==>
                  && (i.status == Ready && i.createdAt <= now < i.expiresAt ==>
                        && v.calls[c].result == Returned(v.stored) && v.stored.status == Cancelled
                        && v.stored.cancelledAt == Some(now) && v.stored.version == i.version + 1)
                  && (i.status == Ready && now >= i.expiresAt ==>
                        v.calls[c].result == CancelExpired && v.stored == i.(status := Expired, version := i.version + 1))
                  && (i.status == Cancelled ==> v.calls[c].result == Returned(i))
                  && (i.status == Expired ==> v.calls[c].result == CancelExpired)
                  && (i.status == Executed || i.status == ApprovalPending ==> v.calls[c].result == StateConflict))
            && (i.status != Ready || TrimSpace(buyer) != i.buyer ==> v.stored == i)
  {
    hide Run, TrimSpace, CallOk;
    RunKeepsInv(Init(first), first, actions);
  }

  // And a claiming call: a ready intent is executed from its creation until it expires.
  lemma ClaimAnswers(first: Intent, actions: seq<Action>, c: nat, now: Time)
    requires Created(first) && c !in Run(Init(first), actions).calls
    ensures var w := Run(Init(first), actions); var i := w.stored;
            var v := Exec(Exec(w, StartClaim(c, now)), Write(c));
            && c in v.calls && v.calls[c].ClaimDone?
            && (i.status == Ready && i.createdAt <= now < i.expiresAt ==>
                  v.calls[c].outcome == Proceed(v.stored) && v.stored == i.(status := Executed, version := i.version + 1))
            && (i.status == Ready && now >= i.expiresAt ==>
                  v.calls[c].outcome == ClaimExpired && v.stored == i.(status := Expired, version := i.version + 1))
            && (i.status == Executed ==> v.calls[c].outcome == Proceed(i))
            && (i.status == ApprovalPending ==> v.calls[c].outcome == if now < i.expiresAt then Proceed(i) else ClaimExpired)
            && (i.status == Cancelled ==> v.calls[c].outcome == ClaimCancelled)
            && (i.status == Expired ==> v.calls[c].outcome == ClaimExpired)
            && (i.status != Ready ==> v.stored == i)
  {
    hide Run, TrimSpace, CallOk;
    RunKeepsInv(Init(first), first, actions);
  }
}
