// What white space around a provider event's identifier does to its retries
// (internal/billing/provider_events.go): entitlements store the identifier trimmed, the
// check before a reconciliation compares it untrimmed.
module EventRetries {
  import opened Foundations
  import opened Entitlement
  import opened EntitlementStore
  import opened ProviderEvents

  // A retried event is settled without a reconciliation exactly when the newest version
  // read names it; that can only happen to an identifier without white space at its ends.
  lemma SettledOnlyIfTrimmed(actions: seq<Action>, c: nat)
    requires var w := Run(START, actions); c in w.calls && w.calls[c].Proposed?
    ensures var w := Run(START, actions); var call := w.calls[c]; var log := LogOf(w, call.candidate.sellerId);
            var next := Exec(w, CheckCurrent(c, false)).calls[c];
            && (next.Settling? <==> log != [] && log[|log| - 1].terms.lastEventId == call.event)
            && (next.Settling? ==> !Untrimmed(call.event))
            && (!next.Settling? ==> next == Unnamed(call.event, call.attempt, call.candidate, |log|))
  {
    hide Run, TrimSpace, Inv, ValidLog, ReconcileWrite;
    StartInv();
    RunKeepsInv(START, actions);
    var w := Run(START, actions);
    var call := w.calls[c];
    var log := LogOf(w, call.candidate.sellerId);
    LogOfIsValid(w, call.candidate.sellerId);
    if log != [] {
      StoredIsTrimmed(call.candidate.sellerId, log, |log| - 1);
      TrimFixedIff(call.event);
    }
  }

  lemma LogOfIsValid(w: World, seller: Id)
    requires Inv(w)
    ensures ValidLog(seller, LogOf(w, seller))
  {
    hide CallOk, EventsOk, HoldersOk;
    LogIsValid(w, seller);
  }

  // In every run, when the newest version of the seller is one that reconciling the event
  // stored, its retry is settled there exactly if the identifier has no white space at its
  // ends; otherwise it is reconciled again.
  lemma RetrySettlesIffTrimmed(actions: seq<Action>, c: nat, k: nat)
    requires var w := Run(START, actions);
             && c in w.calls && w.calls[c].Proposed? && k < |w.commits|
             && w.commits[k].event == w.calls[c].event && w.commits[k].seller == w.calls[c].candidate.sellerId
             && w.commits[k].version == |LogOf(w, w.commits[k].seller)|
    ensures var w := Run(START, actions); var next := Exec(w, CheckCurrent(c, false)).calls[c];
            && (next.Settling? <==> !Untrimmed(w.calls[c].event))
            && (next.Unnamed? <==> Untrimmed(w.calls[c].event))
  {
    hide Run, TrimSpace, Exec;
    SettledOnlyIfTrimmed(actions, c);
    StoredOnlyAfterUnnamedCheck(actions, k);
    TrimFixedIff(Run(START, actions).calls[c].event);
  }

  // ---- the versions one event stores ----

  // A look at the seller's entitlement for this event saw the committed version or a newer one.
  predicate LooksPast(call: Call, commit: Commit) {
    ((call.Unnamed? || call.Snapshotted?) && call.event == commit.event && call.candidate.sellerId == commit.seller)
    ==> commit.version <= call.checked
  }

  predicate SameWork(a: Commit, b: Commit) { a.event == b.event && a.seller == b.seller }

  predicate Ordered(w: World) {
    && (forall j, k :: 0 <= j < k < |w.commits| && SameWork(w.commits[j], w.commits[k]) ==>
          w.commits[j].version <= w.commits[k].checked)
    && (forall c, k :: c in w.calls && 0 <= k < |w.commits| ==> LooksPast(w.calls[c], w.commits[k]))
  }

  lemma MoveOrdered(w: World, v: World, c: nat, state: Call)
    requires Ordered(w) && v.commits == w.commits && v.calls == w.calls[c := state]
    requires forall k :: 0 <= k < |w.commits| ==> LooksPast(state, w.commits[k])
    ensures Ordered(v)
  {
    hide LooksPast;
  }

  lemma CommittedBelow(w: World, k: nat)
    requires Inv(w) && k < |w.commits|
    ensures w.commits[k].version <= |LogOf(w, w.commits[k].seller)|
  {
    hide Inv, TrimSpace;
    CommitIsOk(w, k);
  }

  // The look is at everything stored so far.
  lemma CheckOrdered(w: World, c: nat, id: string, attempt: nat, candidate: Candidate, readFails: bool)
    requires Inv(w) && Ordered(w)
    ensures Ordered(DoCheckCurrent(w, c, id, attempt, candidate, readFails))
  {
    hide Inv, Ordered;
    var state := DoCheckCurrent(w, c, id, attempt, candidate, readFails).calls[c];
    forall k | 0 <= k < |w.commits| ensures LooksPast(state, w.commits[k]) {
      CommittedBelow(w, k);
    }
    MoveOrdered(w, DoCheckCurrent(w, c, id, attempt, candidate, readFails), c, state);
  }

  // Only the one holder of an event commits for it, and from a look past all its commits.
  lemma CommitOrdered(w: World, c: nat, at: Time, auditFails: bool)
    requires Inv(w) && Ordered(w) && c in w.calls && w.calls[c].Snapshotted?
    ensures var s := w.calls[c];
            Ordered(DoCommit(w, c, s.event, s.attempt, s.candidate, s.checked, s.snapshot, at, auditFails))
  {
    hide ReconcileWrite, TrimSpace, LogsOk, EventsOk, CallOk;
    var s := w.calls[c];
    var v := DoCommit(w, c, s.event, s.attempt, s.candidate, s.checked, s.snapshot, at, auditFails);
    if v.commits == w.commits {
      MoveOrdered(w, v, c, v.calls[c]);
    } else {
      var n := |w.commits|;
      var last := v.commits[n];
      assert v.commits == w.commits + [last] && last.event == s.event && last.seller == s.candidate.sellerId && last.checked == s.checked;
      forall j | 0 <= j < n && SameWork(w.commits[j], last) ensures w.commits[j].version <= last.checked {
        assert LooksPast(w.calls[c], w.commits[j]);
      }
      forall d, k | d in v.calls && 0 <= k <= n ensures LooksPast(v.calls[d], v.commits[k]) {
        if d != c && k < n {
          assert LooksPast(w.calls[d], w.commits[k]);
        } else if d != c {
          assert Held(w.calls[d]).Some? && Held(w.calls[d]) == Held(w.calls[c]) ==> c == d;
        }
      }
    }
  }

  lemma StartOrdered(w: World, a: Action)
    requires Ordered(w) && (a.Ingest? || a.call !in w.calls)
    ensures Ordered(Start(w, a))
  {
    hide Ordered, TrimSpace, Stored;
    var v := Start(w, a);
    if a.Load? || a.WriterRead? {
      MoveOrdered(w, v, a.call, v.calls[a.call]);
    } else {
      SameOrdered(w, v);
    }
  }

  lemma SameOrdered(w: World, v: World)
    requires Ordered(w) && v.commits == w.commits && v.calls == w.calls
    ensures Ordered(v)
  {
    hide LooksPast, SameWork;
  }

  // The steps that neither look nor commit.
  lemma OtherOrdered(w: World, c: nat, state: Call, v: World)
    requires Ordered(w) && v.commits == w.commits && v.calls == w.calls[c := state] && !state.Unnamed? && !state.Snapshotted?
    ensures Ordered(v)
  {
    hide Ordered;
    MoveOrdered(w, v, c, state);
  }

  lemma ContinueOrdered(w: World, a: Action, c: nat)
    requires Inv(w) && Ordered(w) && c in w.calls
    ensures Ordered(Continue(w, a, c, w.calls[c]))
  {
    hide Inv, Ordered, DoCheckCurrent, DoCommit, ReconcileWrite, Stored, Append, Marked;
    var state, v := w.calls[c], Continue(w, a, c, w.calls[c]);
    match a {
      case MarkProcessing(_) =>
        if state.Loaded? {
          OtherOrdered(w, c, v.calls[c], v);
        }
      case ReadProvider(_, _) =>
        if state.Attempting? {
          OtherOrdered(w, c, v.calls[c], v);
        }
      case CheckCurrent(_, readFails) =>
        if state.Proposed? {
          CheckOrdered(w, c, state.event, state.attempt, state.candidate, readFails);
        }
      case TakeSnapshot(_) =>
        if state.Unnamed? {
          SnapshotOrdered(w, c, v);
        }
      case CommitReconciliation(_, at, auditFails) =>
        if state.Snapshotted? {
          CommitOrdered(w, c, at, auditFails);
        }
      case MarkApplied(_) =>
        if state.Settling? {
          OtherOrdered(w, c, Done, v);
        }
      case MarkFailed(_) =>
        if state.Failing? {
          OtherOrdered(w, c, Done, v);
        }
      case WriterCommit(_, candidate, at) =>
        if state.OtherWriter? {
          WriterOrdered(w, c, state.seller, state.snapshot, candidate, at);
        }
      case _ =>
    }
  }

  lemma SnapshotOrdered(w: World, c: nat, v: World)
    requires Ordered(w) && c in w.calls && w.calls[c].Unnamed? && v.commits == w.commits
    requires c in v.calls && v.calls == w.calls[c := v.calls[c]] && v.calls[c].Snapshotted?
    requires v.calls[c].event == w.calls[c].event && v.calls[c].candidate == w.calls[c].candidate
             && v.calls[c].checked == w.calls[c].checked
    ensures Ordered(v)
  {
    forall k | 0 <= k < |w.commits| ensures LooksPast(v.calls[c], w.commits[k]) {
      assert LooksPast(w.calls[c], w.commits[k]);
    }
    hide LooksPast;
    MoveOrdered(w, v, c, v.calls[c]);
  }

  lemma WriterOrdered(w: World, c: nat, seller: Id, snapshot: Option<SellerEntitlement>, candidate: Candidate, at: Time)
    requires Ordered(w)
    ensures Ordered(DoWriterCommit(w, c, seller, snapshot, candidate, at))
  {
    hide Ordered, ReconcileWrite;
    if candidate.sellerId == seller {
      OtherOrdered(w, c, Done, DoWriterCommit(w, c, seller, snapshot, candidate, at));
    }
  }

  lemma {:induction false} RunOrdered(actions: seq<Action>)
    ensures Inv(Run(START, actions)) && Ordered(Run(START, actions))
  {
    hide Inv, Start, Continue;
    StartInv();
    RunKeepsInv(START, actions);
    if actions != [] {
      var k := |actions| - 1;
      RunOrdered(actions[..k]);
      var w, a := Run(START, actions[..k]), actions[k];
      hide Ordered;
      if a.Ingest? || a.call !in w.calls {
        StartOrdered(w, a);
      } else {
        ContinueOrdered(w, a, a.call);
      }
    }
  }

  // In every run, two versions that one event stored for one seller: before the later one
  // was stored its reconciliation looked at a version from the earlier one on that did not
  // name the event. So an event without white space at its ends is stored twice only when a
  // version between the two names another event.
  lemma StoredTwiceOnlyIfOverwritten(actions: seq<Action>, j: nat, k: nat)
    requires j < k < |Run(START, actions).commits| && SameWork(Run(START, actions).commits[j], Run(START, actions).commits[k])
    ensures var w := Run(START, actions); var first, second := w.commits[j], w.commits[k]; var log := LogOf(w, first.seller);
            && 1 <= first.version <= second.checked < second.version <= |log|
            && log[second.checked - 1].terms.lastEventId != first.event
            && (!Untrimmed(first.event) ==> first.version < second.checked)
  {
    hide Run, TrimSpace, Inv;
    RunOrdered(actions);
    StoredOnlyAfterUnnamedCheck(actions, j);
    StoredOnlyAfterUnnamedCheck(actions, k);
    TrimFixedIff(Run(START, actions).commits[j].event);
  }

  // ---- one whole attempt, uninterrupted ----

  function Attempt(c: nat, id: string, current: Candidate, at: Time, auditFails: bool): seq<Action> {
    [Load(c, id), MarkProcessing(c), ReadProvider(c, Some(current)), CheckCurrent(c, false), TakeSnapshot(c),
     CommitReconciliation(c, at, auditFails), if auditFails then MarkFailed(c) else MarkApplied(c)]
  }

  function Attempted(w: World, c: nat, id: string, current: Candidate, at: Time, auditFails: bool): World {
    var proposed := Exec(Exec(Exec(w, Load(c, id)), MarkProcessing(c)), ReadProvider(c, Some(current)));
    var snapshotted := Exec(Exec(proposed, CheckCurrent(c, false)), TakeSnapshot(c));
    Exec(Exec(snapshotted, CommitReconciliation(c, at, auditFails)), if auditFails then MarkFailed(c) else MarkApplied(c))
  }

  lemma RunOne(w: World, before: seq<Action>, a: Action)
    ensures Run(w, before + [a]) == Exec(Run(w, before), a)
  {
    hide Exec;
    assert (before + [a])[..|before|] == before;
  }

  lemma AttemptedIsRun(w: World, before: seq<Action>, c: nat, id: string, current: Candidate, at: Time, auditFails: bool)
    ensures Run(w, before + Attempt(c, id, current, at, auditFails)) == Attempted(Run(w, before), c, id, current, at, auditFails)
  {
    hide Exec, Run;
    var a := Attempt(c, id, current, at, auditFails);
    assert before + a[..0] == before;
    forall k | 0 <= k < 7 ensures Run(w, before + a[..k + 1]) == Exec(Run(w, before + a[..k]), a[k]) {
      RunOne(w, before + a[..k], a[k]);
      assert before + a[..k] + [a[k]] == before + a[..k + 1];
    }
    var r := seq(8, k requires 0 <= k < 8 => Run(w, before + a[..k]));
    assert r[1] == Exec(r[0], a[0]) && r[2] == Exec(r[1], a[1]) && r[3] == Exec(r[2], a[2]) && r[4] == Exec(r[3], a[3]);
    assert r[5] == Exec(r[4], a[4]) && r[6] == Exec(r[5], a[5]) && r[7] == Exec(r[6], a[6]);
    assert a[..7] == a;
  }

  // The state in which an attempt on an event can start afresh.
  predicate Due(w: World, c: nat, id: string) {
    c !in w.calls && id in w.events && (w.events[id].state == Received || w.events[id].state == Failed)
  }

  lemma CommitsNow(seller: Id, log: seq<SellerEntitlement>, p: Candidate, at: Time)
    requires ValidLog(seller, log) && p.sellerId == seller && Reconcile(Stored(log), p, at).Ok?
    ensures var e := Reconcile(Stored(log), p, at).value.entitlement;
            ReconcileWrite(log, Stored(log), p, at) == Written(e) && e.version == |log| + 1
            && e.terms.lastEventId == TrimSpace(p.lastEventId)
  {
    hide Reconcile, ReconcileWrite, TrimSpace, WellFormed, Follows;
    assert log[..|log|] == log;
    WriteCommitsIffUnchanged(seller, log, |log|, p, at);
    var e := Reconcile(Stored(log), p, at).value.entitlement;
    assert (log + [e])[|log|] == e;
  }

  // An attempt whose check does not see the event named stores a version for it.
  lemma AttemptStores(w: World, c: nat, id: string, current: Candidate, at: Time, auditFails: bool)
    requires Inv(w) && Due(w, c, id)
    requires var log := LogOf(w, current.sellerId);
             && (log == [] || log[|log| - 1].terms.lastEventId != id)
             && Reconcile(Stored(log), Proposal(current, id), at).Ok?
    ensures var seller := current.sellerId; var log := LogOf(w, seller);
            var v := Attempted(w, c, id, current, at, auditFails);
            var e := Reconcile(Stored(log), Proposal(current, id), at).value.entitlement;
            && v.logs == w.logs[seller := log + [e]] && e.terms.lastEventId == TrimSpace(id)
            && v.commits == w.commits + [Commit(id, seller, |log| + 1, |log|)]
            && v.calls == w.calls[c := Done]
            && id in v.events && v.events[id].state == (if auditFails then Failed else Applied)
            && (!auditFails ==> v.events[id].seller == seller && v.events[id].appliedVersion == |log| + 1)
  {
    hide Inv, Reconcile, TrimSpace, ValidLog, Exec;
    var seller, log := current.sellerId, LogOf(w, current.sellerId);
    LogOfIsValid(w, seller);
    CommitsNow(seller, log, Proposal(current, id), at);
    Snapshots(w, c, id, current);
    Commits(w, Snapshot(w, c, id, current), c, id, current, at, auditFails);
  }

  function Snapshot(w: World, c: nat, id: string, current: Candidate): World {
    var proposed := Exec(Exec(Exec(w, Load(c, id)), MarkProcessing(c)), ReadProvider(c, Some(current)));
    Exec(Exec(proposed, CheckCurrent(c, false)), TakeSnapshot(c))
  }

  // The reading half of an attempt.
  predicate SnapshotTaken(w: World, u: World, c: nat, id: string, current: Candidate) {
    var log := LogOf(w, current.sellerId);
    && u.logs == w.logs && u.commits == w.commits
    && u.calls == w.calls[c := Snapshotted(id, 0, Proposal(current, id), |log|, Stored(log), |log|)]
    && id in u.events && u.events[id].state == Processing
  }

  lemma Marks(w: World, c: nat, id: string)
    requires Due(w, c, id)
    ensures var u := Exec(Exec(w, Load(c, id)), MarkProcessing(c));
            && u.calls == w.calls[c := Attempting(id, 0)] && u.logs == w.logs && u.commits == w.commits
            && id in u.events && u.events[id].state == Processing
  {
    hide DoReadProvider, DoCheckCurrent, DoCommit, DoMark, DoWriterCommit, DoIngest;
  }

  lemma Reads(w: World, c: nat, current: Candidate)
    requires c in w.calls
    ensures w.calls[c].Attempting? ==>
              Exec(w, ReadProvider(c, Some(current)))
              == To(w, c, Proposed(w.calls[c].event, w.calls[c].attempt, Proposal(current, w.calls[c].event)))
    ensures w.calls[c].Proposed? ==>
              Exec(w, CheckCurrent(c, false))
              == DoCheckCurrent(w, c, w.calls[c].event, w.calls[c].attempt, w.calls[c].candidate, false)
    ensures w.calls[c].Unnamed? ==>
              var call := w.calls[c]; var log := LogOf(w, call.candidate.sellerId);
              Exec(w, TakeSnapshot(c))
              == To(w, c, Snapshotted(call.event, call.attempt, call.candidate, call.checked, Stored(log), |log|))
  {
    hide DoLoad, DoMarkProcessing, DoCheckCurrent, DoCommit, DoMark, DoWriterCommit, DoIngest, Stored;
  }

  lemma Snapshots(w: World, c: nat, id: string, current: Candidate)
    requires Due(w, c, id)
    requires var log := LogOf(w, current.sellerId); log == [] || log[|log| - 1].terms.lastEventId != id
    ensures SnapshotTaken(w, Snapshot(w, c, id, current), c, id, current)
  {
    hide Exec, Stored;
    Marks(w, c, id);
    var log, p := LogOf(w, current.sellerId), Proposal(current, id);
    var w2 := Exec(Exec(w, Load(c, id)), MarkProcessing(c));
    Reads(w2, c, current);
    var w3 := Exec(w2, ReadProvider(c, Some(current)));
    Reads(w3, c, current);
    var w4 := Exec(w3, CheckCurrent(c, false));
    assert w4 == To(w3, c, Unnamed(id, 0, p, |log|));
    Reads(w4, c, current);
  }

  // The writing half.
  lemma Commits(w: World, u: World, c: nat, id: string, current: Candidate, at: Time, auditFails: bool)
    requires SnapshotTaken(w, u, c, id, current)
    requires var log := LogOf(w, current.sellerId); ReconcileWrite(log, Stored(log), Proposal(current, id), at).Written?
    requires var log := LogOf(w, current.sellerId);
             ReconcileWrite(log, Stored(log), Proposal(current, id), at).next.version == |log| + 1
    ensures var seller := current.sellerId; var log := LogOf(w, seller);
            var v := Exec(Exec(u, CommitReconciliation(c, at, auditFails)), if auditFails then MarkFailed(c) else MarkApplied(c));
            && v.logs == w.logs[seller := log + [ReconcileWrite(log, Stored(log), Proposal(current, id), at).next]]
            && v.commits == w.commits + [Commit(id, seller, |log| + 1, |log|)]
            && v.calls == w.calls[c := Done]
            && id in v.events && v.events[id].state == (if auditFails then Failed else Applied)
            && (!auditFails ==> v.events[id].seller == seller && v.events[id].appliedVersion == |log| + 1)
  {
    hide ReconcileWrite, Stored, Exec;
    Writes(u, c, at, auditFails);
    var w6 := Exec(u, CommitReconciliation(c, at, auditFails));
    Writes(w6, c, at, auditFails);
  }

  lemma Writes(w: World, c: nat, at: Time, auditFails: bool)
    requires c in w.calls
    ensures w.calls[c].Snapshotted? ==>
              var call := w.calls[c];
              Exec(w, CommitReconciliation(c, at, auditFails))
              == DoCommit(w, c, call.event, call.attempt, call.candidate, call.checked, call.snapshot, at, auditFails)
    ensures w.calls[c].Settling? ==>
              Exec(w, MarkApplied(c)) == DoMark(w, c, w.calls[c].event, AsApplied(w.calls[c].seller, w.calls[c].version))
    ensures w.calls[c].Failing? ==> Exec(w, MarkFailed(c)) == DoMark(w, c, w.calls[c].event, AsFailed)
  {
    hide DoLoad, DoMarkProcessing, DoReadProvider, DoCheckCurrent, DoCommit, DoMark, DoWriterCommit, DoIngest, Stored;
  }

  // ---- the runs ----

  // An event with white space at its ends becomes applied, at a version that names another
  // identifier.
  lemma UntrimmedEventIsApplied(id: string, payload: string, current: Candidate, at: Time)
    requires Untrimmed(id) && TrimSpace(id) != "" && Reconcile(None, Proposal(current, id), at).Ok?
    ensures var w := Run(START, [Ingest(id, payload)] + Attempt(0, id, current, at, false));
            && id in w.events && w.events[id].state == Applied && w.events[id].appliedVersion == 1
            && w.events[id].seller == current.sellerId
            && |LogOf(w, current.sellerId)| == 1 && LogOf(w, current.sellerId)[0].terms.lastEventId == TrimSpace(id) != id
  {
    hide Run, Reconcile, TrimSpace, Attempted, Attempt;
    var w := Run(START, [Ingest(id, payload)]);
    Ingested(id, payload);
    AttemptedIsRun(START, [Ingest(id, payload)], 0, id, current, at, false);
    AttemptStores(w, 0, id, current, at, false);
    TrimFixedIff(id);
  }

  lemma Ingested(id: string, payload: string)
    requires TrimSpace(id) != ""
    ensures var w := Run(START, [Ingest(id, payload)]);
            && Inv(w) && w.logs == map[] && w.calls == map[] && w.commits == []
            && id in w.events && w.events[id].state == Received
  {
    hide Inv;
    StartInv();
    RunKeepsInv(START, [Ingest(id, payload)]);
    assert [Ingest(id, payload)][..0] == [];
  }

  // And its retry reconciles it again: after an attempt that stored a version and then
  // failed, the next attempt stores another version for the same event.
  lemma UntrimmedEventIsReconciledAgain(id: string, payload: string, current: Candidate, at: Time)
    requires Untrimmed(id) && TrimSpace(id) != "" && Reconcile(None, Proposal(current, id), at).Ok?
    ensures var w := Run(START, [Ingest(id, payload)] + Attempt(0, id, current, at, true) + Attempt(1, id, current, at, false));
            && id in w.events && w.events[id].state == Applied && w.events[id].appliedVersion == 2
            && w.commits == [Commit(id, current.sellerId, 1, 0), Commit(id, current.sellerId, 2, 1)]
  {
    hide Run, Reconcile, TrimSpace, Attempted, Attempt, Inv;
    var first := [Ingest(id, payload)];
    var second := first + Attempt(0, id, current, at, true);
    var w := Run(START, first);
    Ingested(id, payload);
    AttemptedIsRun(START, first, 0, id, current, at, true);
    AttemptStores(w, 0, id, current, at, true);
    TrimFixedIff(id);
    ReconcileAgainSucceeds(Proposal(current, id), at);
    StartInv();
    RunKeepsInv(START, second);
    AttemptedIsRun(START, second, 1, id, current, at, false);
    AttemptStores(Run(START, second), 1, id, current, at, false);
  }

  // A trimmed event is settled by its retry instead, at the version already stored.
  lemma TrimmedEventIsSettledByRetry(id: string, payload: string, current: Candidate, at: Time)
    requires !Untrimmed(id) && id != "" && Reconcile(None, Proposal(current, id), at).Ok?
    ensures var retry := [Load(1, id), MarkProcessing(1), ReadProvider(1, Some(current)), CheckCurrent(1, false)];
            var w := Run(START, [Ingest(id, payload)] + Attempt(0, id, current, at, true) + retry);
            1 in w.calls && w.calls[1] == Settling(id, current.sellerId, 1) && |w.commits| == 1
  {
    hide Run, Reconcile, TrimSpace, Attempted, Attempt, Inv;
    var first := [Ingest(id, payload)];
    var second := first + Attempt(0, id, current, at, true);
    TrimFixedIff(id);
    Ingested(id, payload);
    AttemptedIsRun(START, first, 0, id, current, at, true);
    AttemptStores(Run(START, first), 0, id, current, at, true);
    var retry := [Load(1, id), MarkProcessing(1), ReadProvider(1, Some(current)), CheckCurrent(1, false)];
    RunFour(START, second, retry);
  }

  lemma RunFour(w: World, before: seq<Action>, a: seq<Action>)
    requires |a| == 4
    ensures Run(w, before + a) == Exec(Exec(Exec(Exec(Run(w, before), a[0]), a[1]), a[2]), a[3])
  {
    hide Exec, Run;
    assert before + a[..0] == before;
    forall k | 0 <= k < 4 ensures Run(w, before + a[..k + 1]) == Exec(Run(w, before + a[..k]), a[k]) {
      RunOne(w, before + a[..k], a[k]);
      assert before + a[..k] + [a[k]] == before + a[..k + 1];
    }
    assert a[..4] == a;
  }

  // Candidates for these runs exist: any valid terms at any time before they end.
  lemma SuchCandidatesExist(seller: Id, id: string, at: Time)
    requires seller.prefix == SellerIds && at > ZERO_TIME
    ensures var current := Candidate(
              seller, Starter, 1, Active, at, at + 1, at + 1, false, BillingProvider, NoReason, Stripe, true, "");
            Reconcile(None, Proposal(current, id), at).Ok?
  {
    hide Reconcile;
    var current := Candidate(seller, Starter, 1, Active, at, at + 1, at + 1, false, BillingProvider, NoReason, Stripe, true, "");
    FirstReconcileSucceedsIff(Proposal(current, id), at);
  }
}
