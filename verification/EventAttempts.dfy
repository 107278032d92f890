// The bounded retry of a provider event (internal/billing/provider_events.go): a lost write
// is retried, a call gives up only for cause, and an undisturbed attempt applies the event.
module EventAttempts {
  import opened Foundations
  import opened Entitlement
  import opened EntitlementStore
  import opened ProviderEvents
  import EventRetries

  // ---- a lost write ----

  // The step is the conditional write of call c, its reconciliation succeeds, and another
  // version was stored since the snapshot was read.
  predicate LosesRace(w: World, a: Action, c: nat) {
    && a.CommitReconciliation? && a.call == c && c in w.calls && w.calls[c].Snapshotted?
    && Reconcile(w.calls[c].snapshot, w.calls[c].candidate, a.at).Ok?
    && w.calls[c].seen != |LogOf(w, w.calls[c].candidate.sellerId)|
  }

  // How a conditional write ends, by what happened since its snapshot.
  lemma WriteEnds(w: World, c: nat, at: Time, auditFails: bool)
    requires Inv(w) && c in w.calls && w.calls[c].Snapshotted?
    ensures var s := w.calls[c]; var log := LogOf(w, s.candidate.sellerId); var r := Reconcile(s.snapshot, s.candidate, at);
            var v := Exec(w, CommitReconciliation(c, at, auditFails));
            if r.Err? then v == To(w, c, Failing(s.event))
            else if s.seen != |log| then v == To(w, c, AfterConflict(s.event, s.attempt))
            else
              && v.logs == w.logs[s.candidate.sellerId := log + [r.value.entitlement]] && v.events == w.events
              && v.commits == w.commits + [Commit(s.event, s.candidate.sellerId, |log| + 1, s.checked)]
              && v.calls == w.calls[c := if auditFails then Failing(s.event) else Settling(s.event, s.candidate.sellerId, |log| + 1)]
  {
    hide Inv, Exec, Reconcile, ValidLog, ReconcileWrite, TrimSpace, AfterConflict;
    var s := w.calls[c];
    var log := LogOf(w, s.candidate.sellerId);
    SnapshotIsPrefix(w, c);
    EventRetries.LogOfIsValid(w, s.candidate.sellerId);
    EventRetries.Writes(w, c, at, auditFails);
    if Reconcile(s.snapshot, s.candidate, at).Ok? {
      WriteCommitsIffUnchanged(s.candidate.sellerId, log, s.seen, s.candidate, at);
      if s.seen == |log| {
        assert log[..|log|] == log;
        EventRetries.CommitsNow(s.candidate.sellerId, log, s.candidate, at);
      }
    }
    WriteKinds(log, s.snapshot, s.candidate, at);
  }

  lemma WriteKinds(log: seq<SellerEntitlement>, snapshot: Option<SellerEntitlement>, candidate: Candidate, at: Time)
    ensures ReconcileWrite(log, snapshot, candidate, at).Refused? <==> Reconcile(snapshot, candidate, at).Err?
  {
    hide Reconcile, ApplyAccepts;
  }

  lemma SnapshotIsPrefix(w: World, c: nat)
    requires Inv(w) && c in w.calls && w.calls[c].Snapshotted?
    ensures var s := w.calls[c]; var log := LogOf(w, s.candidate.sellerId); s.seen <= |log| && s.snapshot == Stored(log[..s.seen])
    ensures w.calls[c].attempt < MAXIMUM_ATTEMPTS
  {
    hide EventsOk, HoldersOk, LogsOk, Stored, CheckedUnnamed;
    assert CallOk(w.logs, w.calls[c]);
  }

  // In every run a lost write changes nothing stored; on the first two attempts the call
  // goes on to the next one, while the event stays processing unless it was quarantined
  // meanwhile; the third time the call gives up.
  lemma LostWriteIsRetried(actions: seq<Action>, c: nat, a: Action)
    requires LosesRace(Run(START, actions), a, c)
    ensures var w := Run(START, actions); var s := w.calls[c]; var v := Exec(w, a);
            && v.logs == w.logs && v.commits == w.commits && v.events == w.events && s.attempt <= 2
            && v.calls == w.calls[c := if s.attempt <= 1 then Attempting(s.event, s.attempt + 1) else Failing(s.event)]
            && s.event in v.events && (v.events[s.event].state == Processing || v.events[s.event].state == Quarantined)
  {
    hide Run, Inv, Exec, Reconcile;
    StartInv();
    RunKeepsInv(START, actions);
    var w := Run(START, actions);
    SnapshotIsPrefix(w, c);
    WriteEnds(w, c, a.at, a.auditFails);
    HeldEvent(w, c);
  }

  lemma HeldEvent(w: World, c: nat)
    requires Inv(w) && c in w.calls && Held(w.calls[c]).Some?
    ensures w.calls[c].event in w.events
    ensures w.events[w.calls[c].event].state == Processing || w.events[w.calls[c].event].state == Quarantined
  {
    hide EventsOk, LogsOk, CallOk;
  }

  // ---- why a call gives up ----

  // How many writes of call c lost their race.
  function Losses(actions: seq<Action>, c: nat): nat {
    if actions == [] then 0
    else
      var before := actions[..|actions| - 1];
      Losses(before, c) + if LosesRace(Run(START, before), actions[|actions| - 1], c) then 1 else 0
  }

  // The cause for which this step makes call c give up, after so many lost writes.
  predicate Justifies(w: World, a: Action, c: nat, losses: nat) {
    && c in w.calls
    && (|| (a == ReadProvider(c, None) && w.calls[c].Attempting?)
        || (a == CheckCurrent(c, true) && w.calls[c].Proposed?)
        || (a.CommitReconciliation? && a.call == c && w.calls[c].Snapshotted?
            && (|| Reconcile(w.calls[c].snapshot, w.calls[c].candidate, a.at).Err?
                || (a.auditFails && w.calls[c].seen == |LogOf(w, w.calls[c].candidate.sellerId)|)
                || (LosesRace(w, a, c) && losses == 2))))
  }

  predicate Numbered(w: World, c: nat, losses: nat) {
    && (c !in w.calls || w.calls[c].Loaded? ==> losses == 0)
    && (c in w.calls && (w.calls[c].Attempting? || w.calls[c].Proposed? || w.calls[c].Unnamed? || w.calls[c].Snapshotted?) ==>
          w.calls[c].attempt == losses)
  }

  // One step, as it concerns call c.
  lemma StepOf(w: World, a: Action, c: nat, losses: nat)
    requires Inv(w) && Numbered(w, c, losses)
    ensures var v := Exec(w, a);
            && Numbered(v, c, losses + if LosesRace(w, a, c) then 1 else 0)
            && (c in v.calls && v.calls[c].Failing? ==> (c in w.calls && w.calls[c].Failing?) || Justifies(w, a, c, losses))
  {
    hide Inv, Reconcile, ReconcileWrite, Stored, TrimSpace;
    if a.CommitReconciliation? && a.call in w.calls && w.calls[a.call].Snapshotted? {
      hide Exec;
      SnapshotIsPrefix(w, a.call);
      WriteEnds(w, a.call, a.at, a.auditFails);
    } else {
      OtherStep(w, a, c, losses);
    }
  }

  lemma OtherStep(w: World, a: Action, c: nat, losses: nat)
    requires Numbered(w, c, losses) && !(a.CommitReconciliation? && a.call in w.calls && w.calls[a.call].Snapshotted?)
    ensures var v := Exec(w, a);
            && Numbered(v, c, losses)
            && (c in v.calls && v.calls[c].Failing? ==> (c in w.calls && w.calls[c].Failing?) || Justifies(w, a, c, losses))
  {
    hide Reconcile, ReconcileWrite, Stored, TrimSpace, DoCommit;
  }

  // In every run the attempt a call is at is the number of its lost writes.
  lemma {:induction false} AttemptCountsLosses(actions: seq<Action>, c: nat)
    ensures Numbered(Run(START, actions), c, Losses(actions, c))
  {
    hide Inv, Exec, LosesRace;
    if actions != [] {
      var k := |actions| - 1;
      AttemptCountsLosses(actions[..k], c);
      StartInv();
      RunKeepsInv(START, actions[..k]);
      StepOf(Run(START, actions[..k]), actions[k], c, Losses(actions[..k], c));
    }
  }

  // In every run a call that gives up did so at a step with a cause: the provider's state or
  // the stored entitlement could not be read, the reconciliation was refused, the audit of a
  // stored version failed, or a third write lost its race.
  lemma {:induction false} GivingUpHasCause(actions: seq<Action>, c: nat)
    requires var w := Run(START, actions); c in w.calls && w.calls[c].Failing?
    ensures exists k :: 0 <= k < |actions| && CauseAt(actions, c, k)
  {
    hide Inv, Exec, Justifies;
    if actions != [] {
      var k := |actions| - 1;
      var before := actions[..k];
      var w := Run(START, before);
      AttemptCountsLosses(before, c);
      StartInv();
      RunKeepsInv(START, before);
      StepOf(w, actions[k], c, Losses(before, c));
      if c in w.calls && w.calls[c].Failing? {
        GivingUpHasCause(before, c);
        var j :| 0 <= j < k && CauseAt(before, c, j);
        assert before[..j] == actions[..j] && before[j] == actions[j];
        assert CauseAt(actions, c, j);
      } else {
        assert CauseAt(actions, c, k);
      }
    }
  }

  predicate CauseAt(actions: seq<Action>, c: nat, k: nat)
    requires k < |actions|
  {
    Justifies(Run(START, actions[..k]), actions[k], c, Losses(actions[..k], c))
  }

  // ---- an undisturbed attempt ----

  // The five steps from the beginning of an attempt.
  function Attempt(w: World, c: nat, current: Candidate, at: Time): World {
    var snapshotted := Exec(Exec(Exec(w, ReadProvider(c, Some(current))), CheckCurrent(c, false)), TakeSnapshot(c));
    Exec(Exec(snapshotted, CommitReconciliation(c, at, false)), MarkApplied(c))
  }

  // In every run a call at any attempt, after as many lost writes, applies its event at the
  // next version if nothing disturbs it: the provider's state is acceptable, and the newest
  // version does not name the event already.
  lemma UndisturbedAttemptApplies(actions: seq<Action>, c: nat, current: Candidate, at: Time)
    requires var w := Run(START, actions);
             && c in w.calls && w.calls[c].Attempting?
             && w.calls[c].event in w.events && w.events[w.calls[c].event].state == Processing
    requires var w := Run(START, actions); var log := LogOf(w, current.sellerId); var id := w.calls[c].event;
             && (log == [] || log[|log| - 1].terms.lastEventId != id)
             && Reconcile(Stored(log), Proposal(current, id), at).Ok?
    ensures var w := Run(START, actions); var id := w.calls[c].event; var log := LogOf(w, current.sellerId);
            var v := Attempt(w, c, current, at);
            && w.calls[c].attempt == Losses(actions, c) <= 2
            && id in v.events && v.events[id].state == Applied && v.events[id].seller == current.sellerId
            && v.events[id].appliedVersion == |log| + 1
            && LogOf(v, current.sellerId) == log + [Reconcile(Stored(log), Proposal(current, id), at).value.entitlement]
  {
    hide Run, Inv, Exec, Reconcile, Stored, Losses;
    StartInv();
    RunKeepsInv(START, actions);
    AttemptCountsLosses(actions, c);
    var w := Run(START, actions);
    var id, log, p := w.calls[c].event, LogOf(w, current.sellerId), Proposal(current, w.calls[c].event);
    AttemptInRange(w, c);
    EventRetries.Reads(w, c, current);
    var w1 := Exec(w, ReadProvider(c, Some(current)));
    EventRetries.Reads(w1, c, current);
    var w2 := Exec(w1, CheckCurrent(c, false));
    assert w2 == To(w1, c, Unnamed(id, w.calls[c].attempt, p, |log|));
    EventRetries.Reads(w2, c, current);
    var w3 := Exec(w2, TakeSnapshot(c));
    KeepsInv(w, ReadProvider(c, Some(current)));
    KeepsInv(w1, CheckCurrent(c, false));
    KeepsInv(w2, TakeSnapshot(c));
    WriteEnds(w3, c, at, false);
    EventRetries.Writes(Exec(w3, CommitReconciliation(c, at, false)), c, at, false);
  }

  lemma AttemptInRange(w: World, c: nat)
    requires Inv(w) && c in w.calls && w.calls[c].Attempting?
    ensures w.calls[c].attempt <= 2 && w.calls[c].event in w.events
  {
    hide LogsOk, EventsOk;
    assert CallOk(w.logs, w.calls[c]);
  }

  lemma KeepsInv(w: World, a: Action)
    requires Inv(w)
    ensures Inv(Exec(w, a))
  {
    hide Inv, Start, Continue;
    if a.Ingest? || a.call !in w.calls {
      StartKeepsInv(w, a);
    } else {
      ContinueKeepsInv(w, a, a.call);
    }
  }
}
