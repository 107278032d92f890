// Webhook deliveries: the retry scheduler (internal/notifications/delivery_models.go)
// and its storage form (internal/notifications/delivery_persistence.go).
module Delivery {
  import opened Foundations

  const MAXIMUM_AUTOMATIC_ATTEMPTS: nat := 5
  const RETRY_DELAYS: seq<int> := [MINUTE, 5 * MINUTE, 30 * MINUTE, 2 * HOUR]

  datatype Status = Pending | RetryScheduled | Delivered | DeadLetter

  datatype FailureCode =
    | ForbiddenTarget | Timeout | Unavailable | ResponseTooLarge | RetryableResponse | PermanentResponse | Unlisted(code: string)

  datatype WebhookEvent = WebhookEvent(
    schemaVersion: string, eventId: Id, seller: Id, knownType: bool, occurredAt: Time, payload: Option<string>)

  datatype Params = Params(
    deliveryId: Id, seller: Id, subscription: Id, event: WebhookEvent, payloadHash: string, createdAt: Time)

  // The fields of a delivery, which are also its stored snapshot.
  datatype Snapshot = Snapshot(
    params: Params, status: Status, attemptCount: nat, nextAttemptAt: Option<Time>, lastAttemptAt: Option<Time>,
    deliveredAt: Option<Time>, responseStatusCode: Option<int>, responseBodyHash: Option<string>,
    errorCode: Option<FailureCode>, updatedAt: Time, version: nat)

  datatype Refusal = Conflict | BadHash | IndexPanic | BadParams | BadSnapshot

  // ---- pure specification ----

  // 32-bit and 64-bit counters wrap around.
  function Wrap32(n: nat): nat { n % UINT32_MOD }
  function Wrap64(n: nat): nat { n % UINT64_MOD }

  lemma WrapNext(n: nat)
    ensures Wrap32(Wrap32(n) + 1) == Wrap32(n + 1) && Wrap64(Wrap64(n) + 1) == Wrap64(n + 1)
    ensures Wrap32(n) < UINT32_MOD && (n < UINT32_MOD ==> Wrap32(n) == n)
  {
  }

  predicate HexDigest(s: string) {
    |s| == 64 && forall i :: 0 <= i < |s| ==> '0' <= s[i] <= '9' || 'a' <= s[i] <= 'f'
  }

  predicate ParamsValid(p: Params) {
    && p.deliveryId.prefix == WebhookDeliveryIds && p.seller.prefix == SellerIds && p.subscription.prefix == WebhookSubscriptionIds
    && p.event.schemaVersion == "1" && p.event.eventId.prefix == EvidenceIds && p.event.seller == p.seller
    && p.event.knownType && p.event.occurredAt != ZERO_TIME && p.event.payload.Some?
    && HexDigest(p.payloadHash) && p.createdAt != ZERO_TIME
  }

  function New(p: Params): Snapshot {
    Snapshot(p, Pending, 0, Some(p.createdAt), None, None, None, None, None, p.createdAt, 1)
  }

  predicate CanAttempt(d: Snapshot, at: Time) {
    (d.status == Pending || d.status == RetryScheduled) && d.nextAttemptAt.Some? && at >= d.nextAttemptAt.value
  }

  predicate HashAcceptable(hash: string) { hash == "" || HexDigest(hash) }

  function Present(hash: string): Option<string> { if hash == "" then None else Some(hash) }

  function Succeed(d: Snapshot, at: Time, statusCode: int, hash: string): Result<Snapshot, Refusal> {
    if !CanAttempt(d, at) || statusCode < 200 || statusCode >= 300 then Err(Conflict)
    else if !HashAcceptable(hash) then Err(BadHash)
    else Ok(d.(
      attemptCount := Wrap32(d.attemptCount + 1), status := Delivered, nextAttemptAt := None,
      lastAttemptAt := Some(at), deliveredAt := Some(at), responseStatusCode := Some(statusCode),
      responseBodyHash := Present(hash), errorCode := None, updatedAt := at, version := Wrap64(d.version + 1)))
  }

  predicate GivesUp(code: FailureCode) { code == PermanentResponse || code == ForbiddenTarget || code == ResponseTooLarge }

  // The failed attempt written down, before the retry policy is applied.
  function Noted(d: Snapshot, at: Time, code: FailureCode, statusCode: int, hash: string): Snapshot {
    d.(attemptCount := Wrap32(d.attemptCount + 1), lastAttemptAt := Some(at),
       responseStatusCode := if statusCode == 0 then None else Some(statusCode),
       responseBodyHash := Present(hash), errorCode := Some(code), updatedAt := at, version := Wrap64(d.version + 1))
  }

  function Fail(d: Snapshot, at: Time, code: FailureCode, statusCode: int, hash: string): Result<Snapshot, Refusal> {
    if !CanAttempt(d, at) || code.Unlisted? then Err(Conflict)
    else if !HashAcceptable(hash) then Err(BadHash)
    else
      var noted := Noted(d, at, code, statusCode, hash);
      if GivesUp(code) || noted.attemptCount >= MAXIMUM_AUTOMATIC_ATTEMPTS then Ok(noted.(status := DeadLetter, nextAttemptAt := None))
      else
        var index := (noted.attemptCount - 1) % UINT32_MOD;
        if index >= |RETRY_DELAYS| then Err(IndexPanic)
        else Ok(noted.(status := RetryScheduled, nextAttemptAt := Some(at + RETRY_DELAYS[index])))
  }

  function Redeliver(d: Snapshot, at: Time): Result<Snapshot, Refusal> {
    if d.status != DeadLetter || at < d.updatedAt then Err(Conflict)
    else Ok(d.(
      status := Pending, nextAttemptAt := Some(at), responseStatusCode := None, responseBodyHash := None, errorCode := None,
      updatedAt := at, version := Wrap64(d.version + 1)))
  }

  // RestoreDelivery
  function Restore(s: Snapshot): Result<Snapshot, Refusal> {
    if !ParamsValid(s.params) then Err(BadParams)
    else if (s.attemptCount > MAXIMUM_AUTOMATIC_ATTEMPTS && s.status != Pending) || s.version == 0 || s.updatedAt == ZERO_TIME
    then Err(BadSnapshot)
    else
      Ok(New(s.params).(
        status := s.status, attemptCount := s.attemptCount, nextAttemptAt := s.nextAttemptAt, lastAttemptAt := s.lastAttemptAt,
        deliveredAt := s.deliveredAt, responseStatusCode := s.responseStatusCode, responseBodyHash := s.responseBodyHash,
        errorCode := s.errorCode, updatedAt := s.updatedAt, version := s.version))
  }

  // ---- the object whose methods update it ----

  class WebhookDelivery {
    const params: Params
    var status: Status
    var attemptCount: nat
    var nextAttemptAt: Option<Time>
    var lastAttemptAt: Option<Time>
    var deliveredAt: Option<Time>
    var responseStatusCode: Option<int>
    var responseBodyHash: Option<string>
    var errorCode: Option<FailureCode>
    var updatedAt: Time
    var version: nat

    function View(): Snapshot
      reads this
    {
      Snapshot(params, status, attemptCount, nextAttemptAt, lastAttemptAt, deliveredAt, responseStatusCode,
               responseBodyHash, errorCode, updatedAt, version)
    }

    constructor (p: Params)
      ensures View() == New(p)
    {
      params := p;
      status, attemptCount, nextAttemptAt := Pending, 0, Some(p.createdAt);
      lastAttemptAt, deliveredAt, responseStatusCode, responseBodyHash, errorCode := None, None, None, None, None;
      updatedAt, version := p.createdAt, 1;
    }

    // The fields are assigned one by one over a new delivery.
    constructor Restored(s: Snapshot)
      requires Restore(s).Ok?
      ensures View() == Restore(s).value
    {
      params := s.params;
      status, attemptCount, nextAttemptAt := s.status, s.attemptCount, s.nextAttemptAt;
      lastAttemptAt, deliveredAt, responseStatusCode := s.lastAttemptAt, s.deliveredAt, s.responseStatusCode;
      responseBodyHash, errorCode := s.responseBodyHash, s.errorCode;
      updatedAt, version := s.updatedAt, s.version;
    }

    method RecordSuccess(at: Time, statusCode: int, hash: string) returns (refusal: Option<Refusal>)
      modifies this
      ensures match Succeed(old(View()), at, statusCode, hash)
              case Ok(d) => refusal == None && View() == d
              case Err(e) => refusal == Some(e) && View() == old(View())
    {
      hide HexDigest;
      if !CanAttempt(View(), at) || statusCode < 200 || statusCode >= 300 {
        return Some(Conflict);
      }
      if hash != "" && !HexDigest(hash) {
        return Some(BadHash);
      }
      attemptCount := Wrap32(attemptCount + 1);
      status := Delivered;
      nextAttemptAt := None;
      lastAttemptAt := Some(at);
      deliveredAt := Some(at);
      responseStatusCode := Some(statusCode);
      responseBodyHash := Present(hash);
      errorCode := None;
      updatedAt := at;
      version := Wrap64(version + 1);
      return None;
    }

    method NoteFailure(at: Time, code: FailureCode, statusCode: int, hash: string)
      modifies this
      ensures View() == Noted(old(View()), at, code, statusCode, hash)
    {
      attemptCount := Wrap32(attemptCount + 1);
      lastAttemptAt := Some(at);
      responseStatusCode := if statusCode == 0 then None else Some(statusCode);
      responseBodyHash := Present(hash);
      errorCode := Some(code);
      updatedAt := at;
      version := Wrap64(version + 1);
    }

    // A panic leaves an object that its caller never sees again.
    method RecordFailure(at: Time, code: FailureCode, statusCode: int, hash: string) returns (refusal: Option<Refusal>)
      modifies this
      ensures match Fail(old(View()), at, code, statusCode, hash)
              case Ok(d) => refusal == None && View() == d
              case Err(e) => refusal == Some(e) && (e != IndexPanic ==> View() == old(View()))
    {
      hide HexDigest;
      if !CanAttempt(View(), at) || code.Unlisted? {
        return Some(Conflict);
      }
      if hash != "" && !HexDigest(hash) {
        return Some(BadHash);
      }
      NoteFailure(at, code, statusCode, hash);
      if GivesUp(code) || attemptCount >= MAXIMUM_AUTOMATIC_ATTEMPTS {
        status := DeadLetter;
        nextAttemptAt := None;
        return None;
      }
      var retryIndex := (attemptCount - 1) % UINT32_MOD;
      status := RetryScheduled;
      if retryIndex >= |RETRY_DELAYS| {
        return Some(IndexPanic);
      }
      nextAttemptAt := Some(at + RETRY_DELAYS[retryIndex]);
      return None;
    }

    method ScheduleRedelivery(at: Time) returns (refusal: Option<Refusal>)
      modifies this
      ensures match Redeliver(old(View()), at)
              case Ok(d) => refusal == None && View() == d
              case Err(e) => refusal == Some(e) && View() == old(View())
    {
      if status != DeadLetter || at < updatedAt {
        return Some(Conflict);
      }
      status := Pending;
      nextAttemptAt := Some(at);
      responseStatusCode := None;
      responseBodyHash := None;
      errorCode := None;
      updatedAt := at;
      version := Wrap64(version + 1);
      return None;
    }
  }

  // ---- runs ----

  datatype Action =
    | Success(at: Time, statusCode: int, hash: string)
    | Failure(at: Time, code: FailureCode, statusCode: int, hash: string)
    | Redelivery(at: Time)

  // A delivery with the number of attempts recorded and redeliveries scheduled so far.
  datatype History = History(delivery: Snapshot, attempts: nat, redeliveries: nat)

  function Step(d: Snapshot, a: Action): Result<Snapshot, Refusal> {
    match a
    case Success(at, statusCode, hash) => Succeed(d, at, statusCode, hash)
    case Failure(at, code, statusCode, hash) => Fail(d, at, code, statusCode, hash)
    case Redelivery(at) => Redeliver(d, at)
  }

  // A refused action, or one that panics, stores nothing.
  function Exec(h: History, a: Action): History {
    match Step(h.delivery, a)
    case Err(_) => h
    case Ok(d) =>
      if a.Redelivery? then History(d, h.attempts, h.redeliveries + 1) else History(d, h.attempts + 1, h.redeliveries)
  }

  function Run(h: History, actions: seq<Action>): History {
    if actions == [] then h else Exec(Run(h, actions[..|actions| - 1]), actions[|actions| - 1])
  }

  function Begin(p: Params): History { History(New(p), 0, 0) }

  // The earliest moment of attempt n + 1 when nothing is ever redelivered.
  function Waited(n: nat): int { if n == 0 then 0 else Waited(n - 1) + if n <= 4 then RETRY_DELAYS[n - 1] else 0 }

  // The next attempt exists exactly while one is due, and is never before the last update.
  predicate Shape(p: Params, d: Snapshot) {
    && d.params == p && d.updatedAt >= p.createdAt
    && (d.nextAttemptAt.Some? <==> d.status == Pending || d.status == RetryScheduled)
    && (d.nextAttemptAt.Some? ==> d.updatedAt <= d.nextAttemptAt.value)
    && (d.status == RetryScheduled ==> 1 <= d.attemptCount <= 4)
    && (d.status == Delivered <==> d.deliveredAt.Some?)
  }

  // The counters, and the bound while redeliveries leave room in the 32-bit one.
  predicate Counts(h: History) {
    && h.delivery.attemptCount == Wrap32(h.attempts)
    && h.delivery.version == Wrap64(1 + h.attempts + h.redeliveries)
    && (h.redeliveries < UINT32_MOD - MAXIMUM_AUTOMATIC_ATTEMPTS ==>
          h.attempts <= h.redeliveries + if h.delivery.nextAttemptAt.Some? then 4 else 5)
  }

  // Without redeliveries every attempt waited for its delay.
  predicate Waits(p: Params, h: History) {
    var d := h.delivery;
    h.redeliveries == 0 ==>
      && h.attempts <= 5 && d.attemptCount == h.attempts && (h.attempts > 0 ==> d.lastAttemptAt == Some(d.updatedAt))
      && (d.nextAttemptAt.Some? ==> h.attempts <= 4 && d.nextAttemptAt.value >= p.createdAt + Waited(h.attempts))
      && (d.nextAttemptAt.None? && h.attempts > 0 ==> d.updatedAt >= p.createdAt + Waited(h.attempts - 1))
  }

  predicate Inv(p: Params, h: History) { Shape(p, h.delivery) && Counts(h) && Waits(p, h) }

  // What one recorded action does to the history.
  predicate Moves(p: Params, h: History, v: History) {
    && Inv(p, v) && h.delivery.updatedAt <= v.delivery.updatedAt && h.redeliveries <= v.redeliveries
    && (h.delivery.status == Delivered ==> v == h)
  }

  lemma StepShape(p: Params, h: History, a: Action)
    requires Shape(p, h.delivery)
    ensures Shape(p, Exec(h, a).delivery) && h.delivery.updatedAt <= Exec(h, a).delivery.updatedAt
    ensures h.delivery.status == Delivered ==> Exec(h, a) == h
  {
    hide HashAcceptable, Present;
  }

  lemma StepCounts(p: Params, h: History, a: Action)
    requires Shape(p, h.delivery) && Counts(h)
    ensures Counts(Exec(h, a))
  {
    hide HashAcceptable, Present, Wrap32, Wrap64;
    WrapNext(h.attempts);
    WrapNext(h.attempts + 1);
    WrapNext(1 + h.attempts + h.redeliveries);
  }

  lemma StepWaits(p: Params, h: History, a: Action)
    requires Shape(p, h.delivery) && Waits(p, h)
    ensures Waits(p, Exec(h, a))
  {
    hide HashAcceptable, Present;
  }

  lemma {:induction false} RunMoves(p: Params, h: History, actions: seq<Action>)
    requires Inv(p, h)
    ensures Moves(p, h, Run(h, actions))
  {
    hide Shape, Counts, Waits, Exec;
    if actions != [] {
      var k := |actions| - 1;
      RunMoves(p, h, actions[..k]);
      var mid := Run(h, actions[..k]);
      StepShape(p, mid, actions[k]);
      StepCounts(p, mid, actions[k]);
      StepWaits(p, mid, actions[k]);
      ExecCounts(mid, actions[k]);
    }
  }

  lemma ExecCounts(h: History, a: Action)
    ensures h.redeliveries <= Exec(h, a).redeliveries
  {
    hide Step;
  }

  // ---- what holds in every run ----

  // A next attempt exists exactly while pending or scheduled; a delivered delivery is
  // final; the update time never decreases; a scheduled retry has one to four attempts.
  lemma SchedulerKeeps(p: Params, before: seq<Action>, after: seq<Action>)
    ensures var h := Run(Begin(p), before); var v := Run(h, after);
            && (h.delivery.nextAttemptAt.Some? <==> h.delivery.status == Pending || h.delivery.status == RetryScheduled)
            && (h.delivery.status == RetryScheduled ==> 1 <= h.delivery.attemptCount <= 4)
            && (h.delivery.status == Delivered ==> v == h)
            && p.createdAt <= h.delivery.updatedAt <= v.delivery.updatedAt
            && (h.delivery.nextAttemptAt.Some? ==> h.delivery.updatedAt <= h.delivery.nextAttemptAt.value)
  {
    hide Run;
    RunMoves(p, Begin(p), before);
    RunMoves(p, Run(Begin(p), before), after);
  }

  // Attempts never exceed five plus the redeliveries, as long as the redeliveries leave
  // room in the 32-bit counter; then the counter is the number of attempts.
  lemma AttemptsBounded(p: Params, actions: seq<Action>)
    ensures var h := Run(Begin(p), actions);
            h.redeliveries < UINT32_MOD - MAXIMUM_AUTOMATIC_ATTEMPTS ==>
              h.attempts <= MAXIMUM_AUTOMATIC_ATTEMPTS + h.redeliveries && h.delivery.attemptCount == h.attempts
  {
    hide Run;
    RunMoves(p, Begin(p), actions);
  }

  // Without redeliveries the fifth attempt comes no earlier than 156 minutes after
  // creation, and it is the last one.
  lemma FifthAttemptWaits(p: Params, actions: seq<Action>)
    requires Run(Begin(p), actions).redeliveries == 0
    ensures var h := Run(Begin(p), actions);
            && h.attempts <= 5
            && (h.attempts == 5 ==>
                  && h.delivery.lastAttemptAt.Some? && h.delivery.lastAttemptAt.value >= p.createdAt + 156 * MINUTE
                  && (h.delivery.status == DeadLetter || h.delivery.status == Delivered))
  {
    hide Run;
    RunMoves(p, Begin(p), actions);
    assert Waited(4) == 156 * MINUTE by {
      assert Waited(1) == MINUTE && Waited(2) == 6 * MINUTE && Waited(3) == 36 * MINUTE;
    }
  }

  // The retry delay index leaves its range exactly for a retryable failure on a due
  // delivery whose 32-bit attempt counter is full.
  lemma PanicsIff(d: Snapshot, at: Time, code: FailureCode, statusCode: int, hash: string)
    requires d.attemptCount < UINT32_MOD
    ensures Fail(d, at, code, statusCode, hash) == Err(IndexPanic) <==>
            && CanAttempt(d, at) && !code.Unlisted? && !GivesUp(code) && HashAcceptable(hash)
            && d.attemptCount == UINT32_MOD - 1
  {
    hide HashAcceptable, Present;
  }

  // The retry policy, case by case: of a recorded failure, timeouts, unreachable endpoints and
  // retryable responses are tried again after 1, 5, 30 and 120 minutes, up to the fourth
  // attempt; everything else, and the fifth attempt, is a dead letter.
  lemma RetryPolicy(d: Snapshot, at: Time, code: FailureCode, statusCode: int, hash: string)
    requires d.attemptCount < UINT32_MOD - 1 && Fail(d, at, code, statusCode, hash).Ok?
    ensures var n := Fail(d, at, code, statusCode, hash).value;
            var again := code == Timeout || code == Unavailable || code == RetryableResponse;
            && n.attemptCount == d.attemptCount + 1 && n.lastAttemptAt == Some(at) && n.errorCode == Some(code)
            && (n.status == RetryScheduled <==> again && n.attemptCount <= 4)
            && (n.status == DeadLetter <==> !again || n.attemptCount >= 5)
            && (n.attemptCount == 1 && again ==> n.nextAttemptAt == Some(at + 1 * MINUTE))
            && (n.attemptCount == 2 && again ==> n.nextAttemptAt == Some(at + 5 * MINUTE))
            && (n.attemptCount == 3 && again ==> n.nextAttemptAt == Some(at + 30 * MINUTE))
            && (n.attemptCount == 4 && again ==> n.nextAttemptAt == Some(at + 120 * MINUTE))
            && (n.status == DeadLetter ==> n.nextAttemptAt.None?)
  {
    hide HashAcceptable, Present;
  }

  // A due delivery accepts every failure it knows and every success, whatever it is told of
  // the response, so long as the response's digest is one.
  lemma DueAttemptIsRecorded(d: Snapshot, at: Time, code: FailureCode, statusCode: int, hash: string)
    requires d.attemptCount < UINT32_MOD - 1
    ensures Fail(d, at, code, statusCode, hash).Ok? <==> CanAttempt(d, at) && !code.Unlisted? && HashAcceptable(hash)
    ensures Succeed(d, at, statusCode, hash).Ok? <==> CanAttempt(d, at) && 200 <= statusCode < 300 && HashAcceptable(hash)
    ensures Succeed(d, at, statusCode, hash).Ok? ==>
              var n := Succeed(d, at, statusCode, hash).value;
              && n.status == Delivered && n.deliveredAt == Some(at) && n.lastAttemptAt == Some(at)
              && n.attemptCount == d.attemptCount + 1 && n.responseStatusCode == Some(statusCode) && n.errorCode.None?
  {
    hide HashAcceptable, Present;
  }

  // So no run with fewer redeliveries than the counter has room for ever panics.
  lemma NoPanicWithinCounter(p: Params, actions: seq<Action>, a: Action)
    requires Run(Begin(p), actions).redeliveries < UINT32_MOD - MAXIMUM_AUTOMATIC_ATTEMPTS
    ensures Step(Run(Begin(p), actions).delivery, a) != Err(IndexPanic)
  {
    hide Run, HashAcceptable, Present;
    RunMoves(p, Begin(p), actions);
    var d := Run(Begin(p), actions).delivery;
    if a.Failure? {
      PanicsIff(d, a.at, a.code, a.statusCode, a.hash);
    }
  }

  // n permanent failures, each followed by a redelivery.
  function Cycles(n: nat, at: Time): seq<Action> {
    if n == 0 then [] else Cycles(n - 1, at) + [Failure(at, PermanentResponse, 0, ""), Redelivery(at)]
  }

  // A due delivery that fails for good and is redelivered at once is due again.
  lemma OneCycle(h: History, at: Time)
    requires h.delivery.status == Pending && h.delivery.nextAttemptAt == Some(at)
    ensures var d := Exec(Exec(h, Failure(at, PermanentResponse, 0, "")), Redelivery(at)).delivery;
            && d.status == Pending && d.nextAttemptAt == Some(at) && d.updatedAt == at
            && d.attemptCount == Wrap32(h.delivery.attemptCount + 1)
  {
    hide HexDigest;
    assert HashAcceptable("");
  }

  lemma RunTwo(h: History, before: seq<Action>, a: Action, b: Action)
    ensures Run(h, before + [a, b]) == Exec(Exec(Run(h, before), a), b)
  {
    hide Exec;
    var all := before + [a, b];
    assert all[..|all| - 1] == before + [a];
    assert (before + [a])[..|before|] == before;
  }

  lemma {:induction false} CyclesCount(p: Params, n: nat)
    ensures var d := Run(Begin(p), Cycles(n, p.createdAt)).delivery;
            && d.status == Pending && d.attemptCount == Wrap32(n) && d.nextAttemptAt == Some(p.createdAt)
            && d.updatedAt == p.createdAt
  {
    if n > 0 {
      hide Exec, Run, Wrap32;
      var at := p.createdAt;
      WrapNext(n - 1);
      CyclesCount(p, n - 1);
      OneCycle(Run(Begin(p), Cycles(n - 1, at)), at);
      RunTwo(Begin(p), Cycles(n - 1, at), Failure(at, PermanentResponse, 0, ""), Redelivery(at));
    }
  }

  // The panic is reachable: fill the counter with permanent failures and redeliveries,
  // and let the next attempt time out.
  lemma PanicIsReachable(p: Params)
    ensures Step(Run(Begin(p), Cycles(UINT32_MOD - 1, p.createdAt)).delivery, Failure(p.createdAt, Timeout, 0, "")) == Err(IndexPanic)
  {
    hide Run;
    CyclesCount(p, UINT32_MOD - 1);
    PanicsIff(Run(Begin(p), Cycles(UINT32_MOD - 1, p.createdAt)).delivery, p.createdAt, Timeout, 0, "");
  }

  // ---- storage ----

  // Restoring the snapshot of a reachable delivery returns that delivery exactly when it
  // has at most five attempts or is pending (and its version has not wrapped to zero,
  // nor its update time come to the zero time, which takes a creation before it).
  lemma RestoresIff(p: Params, actions: seq<Action>)
    requires ParamsValid(p)
    ensures var h := Run(Begin(p), actions); var d := h.delivery;
            && (Restore(d) == Ok(d) <==>
                  (d.attemptCount <= MAXIMUM_AUTOMATIC_ATTEMPTS || d.status == Pending) && d.version != 0 && d.updatedAt != ZERO_TIME)
            && (h.attempts + h.redeliveries < UINT64_MOD - 1 ==> d.version != 0)
            && (p.createdAt > ZERO_TIME ==> d.updatedAt != ZERO_TIME)
  {
    hide Run, ParamsValid;
    RunMoves(p, Begin(p), actions);
  }

  // Every attempt that is recorded on a reachable delivery with five or more attempts,
  // short of the counter's end, produces a delivery that storage refuses.
  lemma AttemptAfterFiveIsLost(p: Params, actions: seq<Action>, a: Action)
    requires ParamsValid(p) && !a.Redelivery?
    requires var d := Run(Begin(p), actions).delivery;
             MAXIMUM_AUTOMATIC_ATTEMPTS <= d.attemptCount < UINT32_MOD - 1 && Step(d, a).Ok?
    ensures Restore(Step(Run(Begin(p), actions).delivery, a).value) == Err(BadSnapshot)
  {
    hide Run, ParamsValid, HashAcceptable, Present;
    RunMoves(p, Begin(p), actions);
  }

  // Such deliveries exist: five permanent failures, each redelivered, and one success.
  lemma UnstorableIsReachable(p: Params)
    requires ParamsValid(p)
    ensures var h := Run(Begin(p), Cycles(5, p.createdAt)); var a := Success(p.createdAt, 200, "");
            && Step(h.delivery, a).Ok? && Exec(h, a).delivery.status == Delivered
            && Restore(Exec(h, a).delivery) == Err(BadSnapshot)
  {
    hide Run, ParamsValid;
    CyclesCount(p, 5);
    RunMoves(p, Begin(p), Cycles(5, p.createdAt));
  }

  // ---- runs through storage ----

  // The delivery service (internal/notifications/delivery_service.go): every call loads the
  // stored snapshot through Restore, performs one transition on its own copy, and replaces
  // the snapshot only at the version it loaded. Calls interleave.
  datatype Call = Holding(delivery: Snapshot) | Unreadable | Refused | Panicked | Overtaken | Saved

  datatype Storage = Storage(history: History, calls: map<nat, Call>)

  datatype ServiceAction = Load(call: nat) | Save(call: nat, action: Action)

  function DoLoad(stored: Snapshot): Call {
    match Restore(stored)
    case Ok(d) => Holding(d)
    case Err(_) => Unreadable
  }

  function To(w: Storage, c: nat, state: Call): Storage { w.(calls := w.calls[c := state]) }

  // The transition on the copy and the conditional Update.
  function DoSave(w: Storage, c: nat, held: Snapshot, a: Action): Storage {
    match Step(held, a)
    case Err(e) => To(w, c, if e == IndexPanic then Panicked else Refused)
    case Ok(d) =>
      if w.history.delivery.version != held.version || d.version != Wrap64(held.version + 1) then To(w, c, Overtaken)
      else
        var h := w.history;
        To(w.(history := if a.Redelivery? then History(d, h.attempts, h.redeliveries + 1) else History(d, h.attempts + 1, h.redeliveries)),
           c, Saved)
  }

  function Serve(w: Storage, a: ServiceAction): Storage {
    match a
    case Load(c) => if c in w.calls then w else To(w, c, DoLoad(w.history.delivery))
    case Save(c, action) => if c in w.calls && w.calls[c].Holding? then DoSave(w, c, w.calls[c].delivery, action) else w
  }

  function ServeAll(w: Storage, actions: seq<ServiceAction>): Storage {
    if actions == [] then w else Serve(ServeAll(w, actions[..|actions| - 1]), actions[|actions| - 1])
  }

  function Created(p: Params): Storage { Storage(Begin(p), map[]) }

  // Storage stops a delivery at its sixth attempt, and a redelivery follows an attempt; so
  // no counter comes near its end.
  predicate StoredOk(p: Params, h: History) {
    && Inv(p, h) && h.attempts <= 6 && h.redeliveries <= h.attempts
    && (h.delivery.status == DeadLetter ==> h.redeliveries < h.attempts)
    && (h.delivery.nextAttemptAt.Some? ==> h.attempts <= 5)
  }

  // A copy is the stored snapshot or an older version of it, and was readable.
  predicate CallOk(stored: Snapshot, call: Call) {
    match call
    case Holding(d) =>
      && Restore(d) == Ok(d) && d.attemptCount <= 6
      && d.version <= stored.version && (d.version == stored.version ==> d == stored)
    case Panicked => false
    case _ => true
  }

  predicate StorageOk(p: Params, w: Storage) {
    StoredOk(p, w.history) && forall c :: c in w.calls ==> CallOk(w.history.delivery, w.calls[c])
  }

  // Nothing is taken back, and an unreadable snapshot is final.
  predicate Continues(w: Storage, v: Storage) {
    && w.history.delivery.version <= v.history.delivery.version
    && (Restore(w.history.delivery).Err? ==> v.history == w.history)
  }

  lemma RestoreGivesBack(s: Snapshot)
    ensures Restore(s).Ok? ==> Restore(s).value == s
  {
    hide ParamsValid;
  }

  lemma MoveKeepsStorage(p: Params, w: Storage, c: nat, state: Call)
    requires StorageOk(p, w) && CallOk(w.history.delivery, state)
    ensures StorageOk(p, To(w, c, state)) && Continues(w, To(w, c, state))
  {
    hide StoredOk, CallOk, Restore;
  }

  // One transition on a readable stored delivery: six attempts at most, the counters exact.
  lemma StoredStep(p: Params, h: History, a: Action)
    requires StoredOk(p, h) && Restore(h.delivery).Ok?
    ensures StoredOk(p, Exec(h, a)) && Step(h.delivery, a) != Err(IndexPanic)
    ensures Step(h.delivery, a).Ok? ==> Step(h.delivery, a).value.version == h.delivery.version + 1
  {
    StepShape(p, h, a);
    StepCounts(p, h, a);
    StepWaits(p, h, a);
    StoredBounds(p, h, a);
    hide Shape, Counts, Waits;
  }

  lemma StoredBounds(p: Params, h: History, a: Action)
    requires StoredOk(p, h) && Restore(h.delivery).Ok?
    ensures Step(h.delivery, a) != Err(IndexPanic)
    ensures var v := Exec(h, a);
            && v.attempts <= 6 && v.redeliveries <= v.attempts
            && (v.delivery.status == DeadLetter ==> v.redeliveries < v.attempts)
            && (v.delivery.nextAttemptAt.Some? ==> v.attempts <= 5)
    ensures Step(h.delivery, a).Ok? ==> Step(h.delivery, a).value.version == h.delivery.version + 1
  {
    hide ParamsValid, HashAcceptable, Present, Waits;
  }

  lemma NoOtherPanic(d: Snapshot, a: Action)
    ensures !a.Failure? ==> Step(d, a) != Err(IndexPanic)
    ensures a.Failure? ==> Step(d, a) == Fail(d, a.at, a.code, a.statusCode, a.hash)
  {
    hide HashAcceptable, Present, Fail;
  }

  lemma SaveKeepsStorage(p: Params, w: Storage, c: nat, held: Snapshot, a: Action)
    requires StorageOk(p, w) && CallOk(w.history.delivery, Holding(held))
    ensures var v := DoSave(w, c, held, a); StorageOk(p, v) && Continues(w, v)
  {
    hide ParamsValid, HashAcceptable, Present, StoredOk, Restore, Step;
    var stored := w.history.delivery;
    if a.Failure? {
      PanicsIff(held, a.at, a.code, a.statusCode, a.hash);
    }
    NoOtherPanic(held, a);
    if held.version == stored.version {
      StoredStep(p, w.history, a);
      if Step(held, a).Ok? && Step(held, a).value.version == Wrap64(held.version + 1) {
        var u := w.(history := Exec(w.history, a));
        forall d | d in u.calls ensures CallOk(u.history.delivery, u.calls[d]) {
          assert CallOk(stored, w.calls[d]);
        }
        assert StorageOk(p, u);
        MoveKeepsStorage(p, u, c, Saved);
      } else {
        MoveKeepsStorage(p, w, c, DoSave(w, c, held, a).calls[c]);
      }
    } else {
      MoveKeepsStorage(p, w, c, DoSave(w, c, held, a).calls[c]);
    }
  }

  lemma LoadKeepsStorage(p: Params, w: Storage, c: nat)
    requires StorageOk(p, w)
    ensures var v := To(w, c, DoLoad(w.history.delivery)); StorageOk(p, v) && Continues(w, v)
  {
    hide Restore, Shape, Waits;
    RestoreGivesBack(w.history.delivery);
    WrapNext(w.history.attempts);
    MoveKeepsStorage(p, w, c, DoLoad(w.history.delivery));
  }

  lemma {:induction false} ServeKeepsStorage(p: Params, w: Storage, actions: seq<ServiceAction>)
    requires StorageOk(p, w)
    ensures StorageOk(p, ServeAll(w, actions)) && Continues(w, ServeAll(w, actions))
  {
    hide Restore, StoredOk, CallOk, DoSave, DoLoad;
    if actions != [] {
      var k := |actions| - 1;
      ServeKeepsStorage(p, w, actions[..k]);
      var mid, a := ServeAll(w, actions[..k]), actions[k];
      match a {
        case Load(c) => LoadKeepsStorage(p, mid, c);
        case Save(c, action) =>
          if c in mid.calls && mid.calls[c].Holding? {
            SaveKeepsStorage(p, mid, c, mid.calls[c].delivery, action);
          }
      }
    }
  }

  lemma CreatedOk(p: Params)
    ensures StorageOk(p, Created(p))
  {
  }

  // Over every interleaving of service calls, with any number of redeliveries: at most six
  // attempts are ever stored, no counter wraps, no call panics, and what is stored is what
  // the schedule allows.
  lemma StorageBoundsAttempts(p: Params, actions: seq<ServiceAction>, c: nat)
    ensures var w := ServeAll(Created(p), actions);
            && w.history.attempts <= 6 && w.history.redeliveries <= w.history.attempts
            && w.history.delivery.attemptCount == w.history.attempts
            && w.history.delivery.version == 1 + w.history.attempts + w.history.redeliveries
            && (w.history.delivery.nextAttemptAt.Some? ==> w.history.attempts <= 5)
            && (c in w.calls ==> w.calls[c] != Panicked)
  {
    hide ServeAll, Shape, Waits, Restore;
    CreatedOk(p);
    ServeKeepsStorage(p, Created(p), actions);
    WrapNext(ServeAll(Created(p), actions).history.attempts);
  }

  // What storage refuses stays as it is: no call, not even one that loaded an earlier
  // version, changes it again. On a valid creation after the zero time that is exactly a
  // delivery that was attempted six times.
  lemma UnreadableIsFrozen(p: Params, before: seq<ServiceAction>, after: seq<ServiceAction>)
    requires ParamsValid(p) && p.createdAt > ZERO_TIME
    ensures var w := ServeAll(Created(p), before); var v := ServeAll(w, after);
            && (Restore(w.history.delivery).Err? <==> w.history.attempts == 6)
            && (Restore(w.history.delivery).Err? ==> v.history == w.history)
  {
    hide ServeAll, ParamsValid, Waits;
    CreatedOk(p);
    ServeKeepsStorage(p, Created(p), before);
    ServeKeepsStorage(p, ServeAll(Created(p), before), after);
    WrapNext(ServeAll(Created(p), before).history.attempts);
  }

  // The k-th action by a call of its own.
  function Through(actions: seq<Action>): seq<ServiceAction> {
    if actions == [] then []
    else
      var k := |actions| - 1;
      Through(actions[..k]) + [Load(k), Save(k, actions[k])]
  }

  lemma ServeTwo(w: Storage, before: seq<ServiceAction>, a: ServiceAction, b: ServiceAction)
    ensures ServeAll(w, before + [a, b]) == Serve(Serve(ServeAll(w, before), a), b)
  {
    hide Serve;
    var all := before + [a, b];
    assert all[..|all| - 1] == before + [a];
    assert (before + [a])[..|before|] == before;
  }

  // While every snapshot on the way is readable, running through storage is running.
  lemma {:induction false} ThroughRuns(p: Params, actions: seq<Action>)
    requires forall k :: 0 <= k < |actions| ==> Restore(Run(Begin(p), actions[..k]).delivery).Ok?
    ensures var w := ServeAll(Created(p), Through(actions));
            w.history == Run(Begin(p), actions) && forall c :: c in w.calls ==> c < |actions|
  {
    if actions != [] {
      var k := |actions| - 1;
      var before := actions[..k];
      assert forall j :: 0 <= j < k ==> before[..j] == actions[..j];
      ThroughRuns(p, before);
      hide Run, Restore, Step, ServeAll;
      var w := ServeAll(Created(p), Through(before));
      RestoreGivesBack(w.history.delivery);
      ServeTwo(Created(p), Through(before), Load(k), Save(k, actions[k]));
      RunLast(Begin(p), actions);
      CreatedOk(p);
      ServeKeepsStorage(p, Created(p), Through(before));
      SaveIsExec(p, w, k, actions[k]);
    }
  }

  lemma RunLast(h: History, actions: seq<Action>)
    requires actions != []
    ensures Run(h, actions) == Exec(Run(h, actions[..|actions| - 1]), actions[|actions| - 1])
  {
  }

  lemma SaveIsExec(p: Params, w: Storage, c: nat, a: Action)
    requires StorageOk(p, w) && c !in w.calls && Restore(w.history.delivery) == Ok(w.history.delivery)
    ensures var v := Serve(Serve(w, Load(c)), Save(c, a));
            v.history == Exec(w.history, a) && v.calls.Keys == w.calls.Keys + {c}
  {
    hide StoredOk, Restore, Step;
    StoredStep(p, w.history, a);
    SmallVersion(p, w.history);
  }

  lemma SmallVersion(p: Params, h: History)
    requires StoredOk(p, h)
    ensures Wrap64(h.delivery.version + 1) == h.delivery.version + 1
  {
  }

  // The bound is reached: five permanent failures, each redelivered, and one success, all
  // through storage, store a delivered delivery that can no longer be loaded.
  lemma SixAttemptsAreReachable(p: Params)
    requires ParamsValid(p)
    ensures var w := ServeAll(Created(p), Through(Cycles(5, p.createdAt) + [Success(p.createdAt, 200, "")]));
            w.history.attempts == 6 && w.history.delivery.status == Delivered && Restore(w.history.delivery) == Err(BadSnapshot)
  {
    var at := p.createdAt;
    var cycles, all := Cycles(5, at), Cycles(5, at) + [Success(at, 200, "")];
    CyclesReadable(p, 5);
    assert all[..|cycles|] == cycles;
    forall k | 0 <= k < |all| ensures Restore(Run(Begin(p), all[..k]).delivery).Ok? {
      assert all[..k] == cycles[..k];
    }
    ThroughRuns(p, all);
    hide Run, ServeAll, ParamsValid, HexDigest, Through;
    RunLast(Begin(p), all);
    CyclesAttempts(p, 5);
  }

  // Where n cycles at one moment end.
  predicate Cycled(p: Params, h: History, n: nat) {
    && h.delivery.params == p && h.delivery.status == Pending && h.delivery.nextAttemptAt == Some(p.createdAt)
    && h.delivery.updatedAt == p.createdAt && h.delivery.attemptCount == n && h.attempts == n && h.delivery.version == 1 + 2 * n
  }

  lemma ReadableCycle(p: Params, h: History, n: nat)
    requires n < 5 && Cycled(p, h, n) && ParamsValid(p)
    ensures var failed := Exec(h, Failure(p.createdAt, PermanentResponse, 0, "")); var v := Exec(failed, Redelivery(p.createdAt));
            Restore(failed.delivery).Ok? && Restore(v.delivery).Ok? && Cycled(p, v, n + 1)
  {
    hide HexDigest;
    assert HashAcceptable("");
  }

  lemma {:induction false} CyclesAttempts(p: Params, n: nat)
    requires n <= 5 && ParamsValid(p)
    ensures Cycled(p, Run(Begin(p), Cycles(n, p.createdAt)), n)
  {
    if n > 0 {
      var at := p.createdAt;
      CyclesAttempts(p, n - 1);
      RunTwo(Begin(p), Cycles(n - 1, at), Failure(at, PermanentResponse, 0, ""), Redelivery(at));
      hide Run, Exec, ParamsValid, Cycled;
      ReadableCycle(p, Run(Begin(p), Cycles(n - 1, at)), n - 1);
    }
  }

  // Every snapshot on the way of at most five cycles is readable.
  lemma {:induction false} CyclesReadable(p: Params, n: nat)
    requires n <= 5 && ParamsValid(p)
    ensures forall k :: 0 <= k <= |Cycles(n, p.createdAt)| ==> Restore(Run(Begin(p), Cycles(n, p.createdAt)[..k]).delivery).Ok?
  {
    if n > 0 {
      var at := p.createdAt;
      var all, before, fail := Cycles(n, at), Cycles(n - 1, at), Failure(at, PermanentResponse, 0, "");
      CyclesReadable(p, n - 1);
      CyclesAttempts(p, n - 1);
      assert all == before + [fail, Redelivery(at)];
      hide Run, Exec, ParamsValid, Cycled, Restore, Cycles;
      ReadableCycle(p, Run(Begin(p), before), n - 1);
      RunTwo(Begin(p), before, fail, Redelivery(at));
      RunLast(Begin(p), before + [fail]);
      assert (before + [fail])[..|before|] == before;
      forall k | 0 <= k <= |all| ensures Restore(Run(Begin(p), all[..k]).delivery).Ok? {
        if k <= |before| {
          assert all[..k] == before[..k];
        } else if k == |before| + 1 {
          assert all[..k] == before + [fail];
        } else {
          assert all[..k] == all;
        }
      }
    }
  }
}
