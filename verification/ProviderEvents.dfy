// Reconciliation of subscription provider events with bounded retry
// (internal/billing/provider_events.go), interleaved with ingestion, with other
// reconciling calls and with any other writer of entitlements.
module ProviderEvents {
  import opened Foundations
  import opened Entitlement
  import opened EntitlementStore

  const MAXIMUM_ATTEMPTS: nat := 3

  datatype ProcessingState = Received | Processing | Applied | Failed | Quarantined

  // seller and appliedVersion are set when the event is marked applied.
  datatype Event = Event(payload: string, state: ProcessingState, seller: Id, appliedVersion: nat, attempts: nat)

  datatype Call =
    | Loaded(event: string)
    | Attempting(event: string, attempt: nat)
    | Proposed(event: string, attempt: nat, candidate: Candidate)
    | Unnamed(event: string, attempt: nat, candidate: Candidate, checked: nat)
    | Snapshotted(event: string, attempt: nat, candidate: Candidate, checked: nat, snapshot: Option<SellerEntitlement>, seen: nat)
    | Settling(event: string, seller: Id, version: nat)
    | Failing(event: string)
    | OtherWriter(seller: Id, snapshot: Option<SellerEntitlement>, seen: nat)
    | Done

  // A version stored by the reconciliation of an event, and the version checked before it.
  datatype Commit = Commit(event: string, seller: Id, version: nat, checked: nat)

  datatype World = World(
    logs: map<Id, seq<SellerEntitlement>>, events: map<string, Event>, calls: map<nat, Call>, commits: seq<Commit>)

  const START := World(map[], map[], map[], [])

  datatype Action =
    | Ingest(event: string, payload: string)
    | Load(call: nat, event: string)
    | MarkProcessing(call: nat)
    | ReadProvider(call: nat, current: Option<Candidate>)
    | CheckCurrent(call: nat, readFails: bool)
    | TakeSnapshot(call: nat)
    | CommitReconciliation(call: nat, at: Time, auditFails: bool)
    | MarkApplied(call: nat)
    | MarkFailed(call: nat)
    | WriterRead(call: nat, seller: Id)
    | WriterCommit(call: nat, candidate: Candidate, at: Time)

  function LogOf(w: World, seller: Id): seq<SellerEntitlement> {
    if seller in w.logs then w.logs[seller] else []
  }

  function To(w: World, call: nat, state: Call): World { w.(calls := w.calls[call := state]) }

  function SetEvent(w: World, id: string, e: Event): World { w.(events := w.events[id := e]) }

  function Append(w: World, seller: Id, e: SellerEntitlement): World {
    w.(logs := w.logs[seller := LogOf(w, seller) + [e]])
  }

  // Ingest and Store: a blank identifier is refused; an event is inserted once, the same
  // payload again is a duplicate, another payload quarantines.
  function DoIngest(w: World, id: string, payload: string): World {
    if TrimSpace(id) == "" then w
    else if id !in w.events then SetEvent(w, id, Event(payload, Received, Id(NoPrefix, ""), 0, 0))
    else if w.events[id].payload == payload then w
    else SetEvent(w, id, w.events[id].(state := Quarantined))
  }

  function DoLoad(w: World, c: nat, id: string): World {
    if id !in w.events || w.events[id].state == Quarantined || w.events[id].state == Applied then To(w, c, Done)
    else To(w, c, Loaded(id))
  }

  function DoMarkProcessing(w: World, c: nat, id: string): World {
    if id in w.events && (w.events[id].state == Received || w.events[id].state == Failed) then
      To(SetEvent(w, id, w.events[id].(state := Processing, attempts := w.events[id].attempts + 1)), c, Attempting(id, 0))
    else To(w, c, Done)
  }

  function Proposal(candidate: Candidate, id: string): Candidate {
    candidate.(source := BillingProvider, provider := Stripe, lastEventId := id)
  }

  function DoReadProvider(w: World, c: nat, id: string, attempt: nat, current: Option<Candidate>): World {
    match current
    case None => To(w, c, Failing(id))
    case Some(candidate) => To(w, c, Proposed(id, attempt, Proposal(candidate, id)))
  }

  function DoCheckCurrent(w: World, c: nat, id: string, attempt: nat, candidate: Candidate, readFails: bool): World {
    var log := LogOf(w, candidate.sellerId);
    if readFails then To(w, c, Failing(id))
    else if log != [] && log[|log| - 1].terms.lastEventId == id then To(w, c, Settling(id, candidate.sellerId, |log|))
    else To(w, c, Unnamed(id, attempt, candidate, |log|))
  }

  function AfterConflict(id: string, attempt: nat): Call {
    if attempt + 1 < MAXIMUM_ATTEMPTS then Attempting(id, attempt + 1) else Failing(id)
  }

  function DoCommit(w: World, c: nat, id: string, attempt: nat, candidate: Candidate, checked: nat,
                    snapshot: Option<SellerEntitlement>, at: Time, auditFails: bool): World
  {
    var seller := candidate.sellerId;
    match ReconcileWrite(LogOf(w, seller), snapshot, candidate, at)
    case Refused(_) => To(w, c, Failing(id))
    case Conflict => To(w, c, AfterConflict(id, attempt))
    case Written(e) =>
      To(Append(w, seller, e).(commits := w.commits + [Commit(id, seller, e.version, checked)]), c,
         if auditFails then Failing(id) else Settling(id, seller, e.version))
  }

  datatype Mark = AsApplied(seller: Id, version: nat) | AsFailed

  function Marked(e: Event, mark: Mark): Event {
    match mark
    case AsApplied(seller, version) => e.(state := Applied, seller := seller, appliedVersion := version)
    case AsFailed => e.(state := Failed)
  }

  // MarkApplied and MarkFailed refuse only a quarantined event.
  function DoMark(w: World, c: nat, id: string, mark: Mark): World {
    if id !in w.events || w.events[id].state == Quarantined then To(w, c, Done)
    else To(SetEvent(w, id, Marked(w.events[id], mark)), c, Done)
  }

  function DoWriterCommit(w: World, c: nat, seller: Id, snapshot: Option<SellerEntitlement>, candidate: Candidate, at: Time): World {
    if candidate.sellerId != seller then w
    else match ReconcileWrite(LogOf(w, seller), snapshot, candidate, at)
      case Written(e) => To(Append(w, seller, e), c, Done)
      case _ => To(w, c, Done)
  }

  function Start(w: World, a: Action): World {
    match a
    case Ingest(id, payload) => DoIngest(w, id, payload)
    case Load(c, id) => DoLoad(w, c, id)
    case WriterRead(c, seller) => To(w, c, OtherWriter(seller, Stored(LogOf(w, seller)), |LogOf(w, seller)|))
    case _ => w
  }

  function Continue(w: World, a: Action, c: nat, state: Call): World {
    match a
    case MarkProcessing(_) => if state.Loaded? then DoMarkProcessing(w, c, state.event) else w
    case ReadProvider(_, current) => if state.Attempting? then DoReadProvider(w, c, state.event, state.attempt, current) else w
    case CheckCurrent(_, readFails) =>
      if state.Proposed? then DoCheckCurrent(w, c, state.event, state.attempt, state.candidate, readFails) else w
    case TakeSnapshot(_) =>
      if !state.Unnamed? then w else
      var log := LogOf(w, state.candidate.sellerId);
      To(w, c, Snapshotted(state.event, state.attempt, state.candidate, state.checked, Stored(log), |log|))
    case CommitReconciliation(_, at, auditFails) =>
      if state.Snapshotted?
      then DoCommit(w, c, state.event, state.attempt, state.candidate, state.checked, state.snapshot, at, auditFails) else w
    case MarkApplied(_) =>
      if state.Settling? then DoMark(w, c, state.event, AsApplied(state.seller, state.version)) else w
    case MarkFailed(_) =>
      if state.Failing? then DoMark(w, c, state.event, AsFailed) else w
    case WriterCommit(_, candidate, at) =>
      if state.OtherWriter? then DoWriterCommit(w, c, state.seller, state.snapshot, candidate, at) else w
    case _ => w
  }

  function Exec(w: World, a: Action): World {
    if a.Ingest? || a.call !in w.calls then Start(w, a) else Continue(w, a, a.call, w.calls[a.call])
  }

  function Run(w: World, actions: seq<Action>): World {
    if actions == [] then w else Exec(Run(w, actions[..|actions| - 1]), actions[|actions| - 1])
  }

  // ---- the invariant ----

  // The version exists and names the event, as far as an entitlement can name it: trimmed.
  predicate Names(log: seq<SellerEntitlement>, version: nat, id: string) {
    1 <= version <= |log| && log[version - 1].terms.lastEventId == TrimSpace(id)
  }

  predicate CheckedUnnamed(log: seq<SellerEntitlement>, checked: nat, id: string) {
    checked <= |log| && (checked >= 1 ==> log[checked - 1].terms.lastEventId != id)
  }

  // The event a call holds: it has marked it processing and not yet marked it otherwise.
  function Held(call: Call): Option<string> {
    if call.Attempting? || call.Proposed? || call.Unnamed? || call.Snapshotted? || call.Settling? || call.Failing?
    then Some(call.event) else None
  }

  predicate CallOk(logs: map<Id, seq<SellerEntitlement>>, call: Call) {
    match call
    case Attempting(_, attempt) => attempt < MAXIMUM_ATTEMPTS
    case Proposed(id, attempt, candidate) => attempt < MAXIMUM_ATTEMPTS && candidate.lastEventId == id
    case Unnamed(id, attempt, candidate, checked) =>
      attempt < MAXIMUM_ATTEMPTS && candidate.lastEventId == id && CheckedUnnamed(In(logs, candidate.sellerId), checked, id)
    case Snapshotted(id, attempt, candidate, checked, snapshot, seen) =>
      && attempt < MAXIMUM_ATTEMPTS && candidate.lastEventId == id
      && CheckedUnnamed(In(logs, candidate.sellerId), checked, id)
      && checked <= seen <= |In(logs, candidate.sellerId)| && snapshot == Stored(In(logs, candidate.sellerId)[..seen])
    case Settling(id, seller, version) => Names(In(logs, seller), version, id)
    case OtherWriter(seller, snapshot, seen) =>
      seen <= |In(logs, seller)| && snapshot == Stored(In(logs, seller)[..seen])
    case _ => true
  }

  function In(logs: map<Id, seq<SellerEntitlement>>, seller: Id): seq<SellerEntitlement> {
    if seller in logs then logs[seller] else []
  }

  predicate LogsOk(logs: map<Id, seq<SellerEntitlement>>) {
    forall s :: s in logs ==> ValidLog(s, logs[s])
  }

  predicate EventsOk(w: World) {
    && (forall id :: id in w.events && w.events[id].state == Applied ==>
          Names(In(w.logs, w.events[id].seller), w.events[id].appliedVersion, id))
    && (forall k :: 0 <= k < |w.commits| ==> CommitOk(w.logs, w.commits[k]))
  }

  predicate CommitOk(logs: map<Id, seq<SellerEntitlement>>, k: Commit) {
    && Names(In(logs, k.seller), k.version, k.event)
    && k.checked < k.version && CheckedUnnamed(In(logs, k.seller), k.checked, k.event)
  }

  // One holder per event, and only of an event that is processing (or was quarantined meanwhile).
  predicate HoldersOk(events: map<string, Event>, calls: map<nat, Call>) {
    && (forall c :: c in calls && Held(calls[c]).Some? ==>
          var id := Held(calls[c]).value;
          id in events && (events[id].state == Processing || events[id].state == Quarantined))
    && (forall c, d :: c in calls && d in calls && Held(calls[c]).Some? && Held(calls[c]) == Held(calls[d]) ==> c == d)
  }

  predicate Inv(w: World) {
    && LogsOk(w.logs) && EventsOk(w) && HoldersOk(w.events, w.calls)
    && forall c :: c in w.calls ==> CallOk(w.logs, w.calls[c])
  }

  // Versions are only ever appended.
  predicate Grows(before: map<Id, seq<SellerEntitlement>>, after: map<Id, seq<SellerEntitlement>>) {
    forall s :: s in before ==> s in after && before[s] <= after[s]
  }

  lemma InGrows(before: map<Id, seq<SellerEntitlement>>, after: map<Id, seq<SellerEntitlement>>, s: Id)
    requires Grows(before, after)
    ensures In(before, s) <= In(after, s)
  {
  }

  lemma CallOkStable(before: map<Id, seq<SellerEntitlement>>, after: map<Id, seq<SellerEntitlement>>, call: Call)
    requires Grows(before, after) && CallOk(before, call)
    ensures CallOk(after, call)
  {
    hide TrimSpace, In;
    match call {
      case Unnamed(_, _, candidate, _) => InGrows(before, after, candidate.sellerId);
      case Snapshotted(_, _, candidate, _, _, seen) =>
        InGrows(before, after, candidate.sellerId);
        assert In(after, candidate.sellerId)[..seen] == In(before, candidate.sellerId)[..seen];
      case Settling(_, seller, _) => InGrows(before, after, seller);
      case OtherWriter(seller, _, seen) =>
        InGrows(before, after, seller);
        assert In(after, seller)[..seen] == In(before, seller)[..seen];
      case _ =>
    }
  }

  lemma EventsOkStable(w: World, after: map<Id, seq<SellerEntitlement>>)
    requires EventsOk(w) && Grows(w.logs, after)
    ensures EventsOk(w.(logs := after))
  {
    hide TrimSpace, In;
    var v := w.(logs := after);
    forall id | id in v.events && v.events[id].state == Applied
      ensures Names(In(after, v.events[id].seller), v.events[id].appliedVersion, id)
    {
      InGrows(w.logs, after, v.events[id].seller);
    }
    forall k | 0 <= k < |v.commits| ensures CommitOk(after, v.commits[k]) {
      assert CommitOk(w.logs, w.commits[k]);
      InGrows(w.logs, after, v.commits[k].seller);
    }
  }

  // ---- the steps ----

  // A step that leaves logs and events alone and moves one call between states that hold the same event or none.
  lemma MoveKeepsInv(w: World, c: nat, state: Call)
    requires Inv(w) && CallOk(w.logs, state)
    requires Held(state).Some? ==> c in w.calls && Held(w.calls[c]) == Held(state)
    ensures Inv(To(w, c, state))
  {
    hide CallOk, LogsOk, Names, CommitOk;
    var v := To(w, c, state);
    assert EventsOk(v);
  }

  lemma AppendKeepsLogs(w: World, seller: Id, e: SellerEntitlement)
    requires LogsOk(w.logs) && ValidLog(seller, LogOf(w, seller) + [e])
    ensures LogsOk(Append(w, seller, e).logs) && Grows(w.logs, Append(w, seller, e).logs)
  {
    hide ValidLog;
  }

  lemma AppendKeepsInv(w: World, seller: Id, e: SellerEntitlement, added: seq<Commit>)
    requires Inv(w) && ValidLog(seller, LogOf(w, seller) + [e])
    requires forall k :: 0 <= k < |added| ==> CommitOk(Append(w, seller, e).logs, added[k])
    ensures var v := Append(w, seller, e).(commits := w.commits + added); Inv(v) && Grows(w.logs, v.logs)
  {
    hide ValidLog, CallOk, LogsOk, HoldersOk, Names, CommitOk;
    AppendKeepsLogs(w, seller, e);
    var v := Append(w, seller, e).(commits := w.commits + added);
    EventsOkStable(w, v.logs);
    forall k | 0 <= k < |v.commits| ensures CommitOk(v.logs, v.commits[k]) {
      if k < |w.commits| {
        assert v.commits[k] == w.commits[k];
        assert CommitOk(v.logs, w.(logs := v.logs).commits[k]);
      } else {
        assert v.commits[k] == added[k - |w.commits|];
      }
    }
    forall d | d in v.calls ensures CallOk(v.logs, v.calls[d]) {
      CallOkStable(w.logs, v.logs, w.calls[d]);
    }
  }

  lemma CommitKeepsInv(w: World, c: nat, id: string, attempt: nat, candidate: Candidate, checked: nat,
                       snapshot: Option<SellerEntitlement>, seen: nat, at: Time, auditFails: bool)
    requires Inv(w) && c in w.calls && w.calls[c] == Snapshotted(id, attempt, candidate, checked, snapshot, seen)
    ensures Inv(DoCommit(w, c, id, attempt, candidate, checked, snapshot, at, auditFails))
  {
    hide Reconcile, WellFormed, ApplyAccepts, TrimSpace, HoldersOk, LogsOk, EventsOk;
    var seller := candidate.sellerId;
    var log := LogOf(w, seller);
    LogIsValid(w, seller);
    assert CallOk(w.logs, w.calls[c]);
    var write := ReconcileWrite(log, snapshot, candidate, at);
    match write {
      case Refused(_) => MoveKeepsInv(w, c, Failing(id));
      case Conflict => MoveKeepsInv(w, c, AfterConflict(id, attempt));
      case Written(e) =>
        WriteCommitsIffUnchanged(seller, log, seen, candidate, at);
        assert log == log[..seen];
        var v := Append(w, seller, e);
        assert In(v.logs, seller) == log + [e];
        assert (log + [e])[|log|] == e && e.version == |log| + 1;
        assert checked >= 1 ==> (log + [e])[checked - 1] == log[checked - 1];
        assert CommitOk(v.logs, Commit(id, seller, e.version, checked));
        var added := [Commit(id, seller, e.version, checked)];
        AppendKeepsInv(w, seller, e, added);
        var u := v.(commits := w.commits + added);
        MoveKeepsInv(u, c, if auditFails then Failing(id) else Settling(id, seller, e.version));
    }
  }

  lemma LogIsValid(w: World, seller: Id)
    requires LogsOk(w.logs)
    ensures ValidLog(seller, LogOf(w, seller)) && LogOf(w, seller) == In(w.logs, seller)
  {
  }

  lemma WriterKeepsInv(w: World, c: nat, seller: Id, snapshot: Option<SellerEntitlement>, seen: nat, candidate: Candidate, at: Time)
    requires Inv(w) && c in w.calls && w.calls[c] == OtherWriter(seller, snapshot, seen)
    ensures Inv(DoWriterCommit(w, c, seller, snapshot, candidate, at))
  {
    hide Reconcile, WellFormed, ApplyAccepts, TrimSpace, HoldersOk, LogsOk, EventsOk;
    var log := LogOf(w, seller);
    LogIsValid(w, seller);
    assert CallOk(w.logs, w.calls[c]);
    MoveKeepsInv(w, c, Done);
    if candidate.sellerId == seller {
      var write := ReconcileWrite(log, snapshot, candidate, at);
      if write.Written? {
        WriteCommitsIffUnchanged(seller, log, seen, candidate, at);
        AppendKeepsInv(w, seller, write.next, []);
        var u := Append(w, seller, write.next).(commits := w.commits + []);
        assert w.commits + [] == w.commits;
        MoveKeepsInv(u, c, Done);
      }
    }
  }

  lemma CheckKeepsInv(w: World, c: nat, id: string, attempt: nat, candidate: Candidate, readFails: bool)
    requires Inv(w) && c in w.calls && w.calls[c] == Proposed(id, attempt, candidate)
    ensures Inv(DoCheckCurrent(w, c, id, attempt, candidate, readFails))
  {
    hide HoldersOk, LogsOk, EventsOk, TrimSpace;
    var log := LogOf(w, candidate.sellerId);
    LogIsValid(w, candidate.sellerId);
    assert CallOk(w.logs, w.calls[c]);
    if readFails {
      MoveKeepsInv(w, c, Failing(id));
    } else if log != [] && log[|log| - 1].terms.lastEventId == id {
      StoredIsTrimmed(candidate.sellerId, log, |log| - 1);
      MoveKeepsInv(w, c, Settling(id, candidate.sellerId, |log|));
    } else {
      MoveKeepsInv(w, c, Unnamed(id, attempt, candidate, |log|));
    }
  }

  lemma StoredIsTrimmed(seller: Id, log: seq<SellerEntitlement>, i: nat)
    requires ValidLog(seller, log) && i < |log|
    ensures TrimSpace(log[i].terms.lastEventId) == log[i].terms.lastEventId
  {
    hide TrimSpace;
    assert WellFormed(log[i]);
  }

  lemma MarkProcessingKeepsInv(w: World, c: nat, id: string)
    requires Inv(w) && c in w.calls && w.calls[c] == Loaded(id)
    ensures Inv(DoMarkProcessing(w, c, id))
  {
    hide LogsOk, Names, CommitOk;
    MoveKeepsInv(w, c, Done);
    if id in w.events && (w.events[id].state == Received || w.events[id].state == Failed) {
      var v := DoMarkProcessing(w, c, id);
      assert EventsOk(v);
      assert HoldersOk(v.events, v.calls);
    }
  }

  lemma MarkKeepsInv(w: World, c: nat, id: string, mark: Mark)
    requires Inv(w) && c in w.calls && Held(w.calls[c]) == Some(id)
    requires mark.AsApplied? ==> Names(In(w.logs, mark.seller), mark.version, id)
    ensures Inv(DoMark(w, c, id, mark))
  {
    hide LogsOk, Names, CommitOk;
    MoveKeepsInv(w, c, Done);
    var v := DoMark(w, c, id, mark);
    assert EventsOk(v);
    assert HoldersOk(v.events, v.calls);
  }

  lemma IngestKeepsInv(w: World, id: string, payload: string)
    requires Inv(w)
    ensures Inv(DoIngest(w, id, payload))
  {
    hide LogsOk, Names, CommitOk, CallOk;
    var v := DoIngest(w, id, payload);
    assert EventsOk(v);
    assert HoldersOk(v.events, v.calls);
  }

  lemma StartKeepsInv(w: World, a: Action)
    requires Inv(w) && (a.Ingest? || a.call !in w.calls)
    ensures Inv(Start(w, a))
  {
    hide Inv, TrimSpace;
    match a {
      case Ingest(id, payload) => IngestKeepsInv(w, id, payload);
      case Load(c, id) =>
        MoveKeepsInv(w, c, Done);
        MoveKeepsInv(w, c, Loaded(id));
      case WriterRead(c, seller) =>
        var log := LogOf(w, seller);
        assert log[..|log|] == log;
        MoveKeepsInv(w, c, OtherWriter(seller, Stored(log), |log|));
      case _ =>
    }
  }

  lemma ContinueKeepsInv(w: World, a: Action, c: nat)
    requires Inv(w) && c in w.calls
    ensures Inv(Continue(w, a, c, w.calls[c]))
  {
    hide Inv, TrimSpace, DoCommit, DoMark, DoMarkProcessing, DoCheckCurrent, DoWriterCommit;
    var state := w.calls[c];
    CallIsOk(w, c);
    match a {
      case MarkProcessing(_) =>
        if state.Loaded? {
          MarkProcessingKeepsInv(w, c, state.event);
        }
      case ReadProvider(_, current) =>
        if state.Attempting? {
          MoveKeepsInv(w, c, Failing(state.event));
          if current.Some? {
            MoveKeepsInv(w, c, Proposed(state.event, state.attempt, Proposal(current.value, state.event)));
          }
        }
      case CheckCurrent(_, readFails) =>
        if state.Proposed? {
          CheckKeepsInv(w, c, state.event, state.attempt, state.candidate, readFails);
        }
      case TakeSnapshot(_) =>
        if state.Unnamed? {
          var log := LogOf(w, state.candidate.sellerId);
          assert log[..|log|] == log;
          MoveKeepsInv(w, c, Snapshotted(state.event, state.attempt, state.candidate, state.checked, Stored(log), |log|));
        }
      case CommitReconciliation(_, at, auditFails) =>
        if state.Snapshotted? {
          CommitKeepsInv(w, c, state.event, state.attempt, state.candidate, state.checked, state.snapshot, state.seen, at, auditFails);
        }
      case MarkApplied(_) =>
        if state.Settling? {
          MarkKeepsInv(w, c, state.event, AsApplied(state.seller, state.version));
        }
      case MarkFailed(_) =>
        if state.Failing? {
          MarkKeepsInv(w, c, state.event, AsFailed);
        }
      case WriterCommit(_, candidate, at) =>
        if state.OtherWriter? {
          WriterKeepsInv(w, c, state.seller, state.snapshot, state.seen, candidate, at);
        }
      case _ =>
    }
  }

  lemma CallIsOk(w: World, c: nat)
    requires Inv(w) && c in w.calls
    ensures CallOk(w.logs, w.calls[c])
  {
  }

  lemma {:induction false} RunKeepsInv(w: World, actions: seq<Action>)
    requires Inv(w)
    ensures Inv(Run(w, actions))
  {
    hide Inv, Start, Continue;
    if actions != [] {
      var k := |actions| - 1;
      RunKeepsInv(w, actions[..k]);
      var mid, a := Run(w, actions[..k]), actions[k];
      if a.Ingest? || a.call !in mid.calls {
        StartKeepsInv(mid, a);
      } else {
        ContinueKeepsInv(mid, a, a.call);
      }
    }
  }

  // ---- what holds in every run ----

  // An event marked applied at version v: that version of that seller's entitlement names
  // it as its last event. The stored name is trimmed, so it is the event's own identifier
  // exactly when that has no white space at its ends.
  lemma AppliedNamesEvent(actions: seq<Action>, id: string)
    requires var w := Run(START, actions); id in w.events && w.events[id].state == Applied
    ensures var w := Run(START, actions); var e := w.events[id]; var log := LogOf(w, e.seller);
            && 1 <= e.appliedVersion <= |log|
            && log[e.appliedVersion - 1].terms.lastEventId == TrimSpace(id)
            && (log[e.appliedVersion - 1].terms.lastEventId == id <==> !Untrimmed(id))
  {
    hide Run, TrimSpace;
    RunKeepsInv(START, actions);
    TrimFixedIff(id);
  }

  // Every version that reconciling an event stored was preceded by a look at an older
  // version that did not name the event: while the entitlement read still names it, a
  // retried event is not reconciled again.
  lemma StoredOnlyAfterUnnamedCheck(actions: seq<Action>, k: nat)
    requires k < |Run(START, actions).commits|
    ensures var w := Run(START, actions); var commit := w.commits[k]; var log := LogOf(w, commit.seller);
            && commit.checked < commit.version <= |log|
            && log[commit.version - 1].terms.lastEventId == TrimSpace(commit.event)
            && (commit.checked >= 1 ==> log[commit.checked - 1].terms.lastEventId != commit.event)
  {
    hide Run, TrimSpace, Inv;
    StartInv();
    RunKeepsInv(START, actions);
    CommitIsOk(Run(START, actions), k);
  }

  lemma CommitIsOk(w: World, k: nat)
    requires Inv(w) && k < |w.commits|
    ensures CommitOk(w.logs, w.commits[k])
  {
    hide CommitOk, CallOk, LogsOk, HoldersOk;
  }

  // At any moment at most one call works on an event, and within three attempts.
  lemma OneHolder(actions: seq<Action>, c: nat, d: nat)
    requires var w := Run(START, actions); c in w.calls && d in w.calls
    requires var w := Run(START, actions); Held(w.calls[c]).Some? && Held(w.calls[c]) == Held(w.calls[d])
    ensures c == d
    ensures var call := Run(START, actions).calls[c]; call.Attempting? ==> call.attempt < MAXIMUM_ATTEMPTS
  {
    hide Run;
    RunKeepsInv(START, actions);
    CallIsOk(Run(START, actions), c);
  }

  // An applied mark is never moved to another version and never undone except by quarantine.
  lemma AppliedIsFinal(w: World, a: Action, id: string)
    requires Inv(w) && id in w.events && w.events[id].state == Applied
    ensures var v := Exec(w, a);
            id in v.events && (v.events[id] == w.events[id] || v.events[id].state == Quarantined)
  {
    hide TrimSpace, ReconcileWrite, Names, CommitOk, LogsOk, CallOk;
    if !a.Ingest? && a.call in w.calls {
      assert Held(w.calls[a.call]) != Some(id);
    }
  }

  lemma {:induction false} AppliedStaysApplied(w: World, actions: seq<Action>, id: string)
    requires Inv(w) && id in w.events && (w.events[id].state == Applied || w.events[id].state == Quarantined)
    ensures var v := Run(w, actions);
            id in v.events && (v.events[id] == w.events[id] || v.events[id].state == Quarantined)
  {
    hide Inv, Exec;
    if actions != [] {
      var k := |actions| - 1;
      AppliedStaysApplied(w, actions[..k], id);
      var mid := Run(w, actions[..k]);
      RunKeepsInv(w, actions[..k]);
      if mid.events[id].state == Applied {
        AppliedIsFinal(mid, actions[k], id);
      } else {
        QuarantineIsFinal(mid, actions[k], id);
      }
    }
  }

  lemma QuarantineIsFinal(w: World, a: Action, id: string)
    requires id in w.events && w.events[id].state == Quarantined
    ensures var v := Exec(w, a); id in v.events && v.events[id].state == Quarantined
  {
    hide TrimSpace, ReconcileWrite;
  }

  // Over every run: an event once applied keeps its mark and its version for good, unless
  // a contradicting payload quarantines it.
  lemma AppliedForGood(before: seq<Action>, after: seq<Action>, id: string)
    requires var w := Run(START, before); id in w.events && w.events[id].state == Applied
    ensures var w := Run(START, before); var v := Run(w, after);
            id in v.events && (v.events[id] == w.events[id] || v.events[id].state == Quarantined)
  {
    hide Run, Inv;
    StartInv();
    RunKeepsInv(START, before);
    AppliedStaysApplied(Run(START, before), after, id);
  }

  lemma StartInv()
    ensures Inv(START)
  {
  }
}
