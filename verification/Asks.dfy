// What the callers of a run asked for is among its actions: the histories kept beside the
// store name nothing that no action asked.
module Asks {
  import opened Foundations
  import opened Entitlement
  import opened EntitlementStore
  import opened Credentials
  import opened SellerHistory

  function AskOf(a: Action): Option<Ask> {
    match a
    case ExchangeRead(_, id, scopes, _, presented) => Some(ExchangeAsk(id, presented, scopes))
    case RotateLoad(_, request) => Some(RotateAsk(request))
    case _ => None
  }

  ghost predicate AskedIn(actions: seq<Action>, ask: Ask) { exists k :: 0 <= k < |actions| && AskOf(actions[k]) == Some(ask) }

  lemma {:induction false} AskedByActions(resolver: bool, seller: Id, actions: seq<Action>, ask: Ask)
    requires ask in Run(Init(resolver, seller), actions).asked
    ensures AskedIn(actions, ask)
  {
    if actions != [] {
      var k := |actions| - 1;
      var before := actions[..k];
      var w := Run(Init(resolver, seller), before);
      AskedStep(w, actions[k], ask);
      if ask in w.asked {
        AskedByActions(resolver, seller, before, ask);
        var j :| 0 <= j < k && AskOf(before[j]) == Some(ask);
        assert AskOf(actions[j]) == Some(ask);
      } else {
        assert AskOf(actions[k]) == Some(ask);
      }
    }
  }

  // Only an exchange and a rotation add to what was asked.
  lemma AskedStep(w: World, a: Action, ask: Ask)
    ensures ask in Exec(w, a).asked ==> ask in w.asked || AskOf(a) == Some(ask)
  {
    hide Start, ContinueWrites, ContinueTokens;
    StartAsks(w, a);
    if a.call in w.calls {
      WritesAskNothing(w, a, w.calls[a.call]);
      TokensAskNothing(w, a, w.calls[a.call]);
    }
  }

  lemma StartAsks(w: World, a: Action)
    ensures Start(w, a).asked == if AskOf(a).Some? then w.asked + {AskOf(a).value} else w.asked
  {
    hide CredentialAdmits, ExchangeAdmits, IssuanceEpoch, ReplayOutcome, Stored;
  }

  lemma WritesAskNothing(w: World, a: Action, state: Call)
    ensures ContinueWrites(w, a, state).asked == w.asked
  {
    hide DoReconcileCommit, DoIssueCommit, DoRotateStamp, DoRotateCommit, DoRotateReload, DoUpdate, GetOutcome, Revoke;
    match a {
      case ReconcileCommit(c, candidate, at) =>
        if state.Reconciling? {
          ReconcileAsksNothing(w, c, state.snapshot, candidate, at);
        }
      case IssueCommit(c) =>
        if state.Issuing? {
          IssueAsksNothing(w, c, state.identity, state.stamp);
        }
      case RotateStamp(c) =>
        if state.RotateLoaded? {
          StampAsksNothing(w, c, state.request, state.predecessor);
        }
      case RotateCommit(c) =>
        if state.RotateStamped? {
          CommitAsksNothing(w, c, state.request, state.predecessor, state.successor, state.stamp);
        }
      case RotateReload(c) =>
        if state.RotateLost? {
          ReloadAsksNothing(w, c, state.request);
        }
      case RevokeCommit(c) =>
        if state.Revoking? {
          UpdateAsksNothing(w, c, Revoke(state.credential, state.at), state.expected, Finished);
        }
      case _ =>
    }
  }

  lemma ReconcileAsksNothing(w: World, c: nat, snapshot: Option<SellerEntitlement>, candidate: Candidate, at: Time)
    ensures DoReconcileCommit(w, c, snapshot, candidate, at).asked == w.asked
  {
    hide ReconcileWrite;
  }

  lemma IssueAsksNothing(w: World, c: nat, identity: Identity, stamp: nat)
    ensures DoIssueCommit(w, c, identity, stamp).asked == w.asked
  {
    hide NewCredential;
  }

  lemma UpdateAsksNothing(w: World, c: nat, updated: Result<Snapshot, CredentialError>, expected: nat, next: Call)
    ensures DoUpdate(w, c, updated, expected, next).asked == w.asked
  {
    hide UpdateAccepts;
  }

  lemma StampAsksNothing(w: World, c: nat, request: RotateRequest, p: Snapshot)
    ensures DoRotateStamp(w, c, request, p).asked == w.asked
  {
    hide NewCredential, IssuanceEpoch, SuccessorIdentity, Replace;
  }

  lemma CommitAsksNothing(w: World, c: nat, request: RotateRequest, p: Snapshot, s: Snapshot, stamp: nat)
    ensures DoRotateCommit(w, c, request, p, s, stamp).asked == w.asked
  {
    hide Replace, UpdateAccepts;
  }

  lemma ReloadAsksNothing(w: World, c: nat, request: RotateRequest)
    ensures DoRotateReload(w, c, request).asked == w.asked
  {
    hide ReplayOutcome;
  }

  lemma TokensAskNothing(w: World, a: Action, state: Call)
    ensures ContinueTokens(w, a, state).asked == w.asked
  {
    hide EntitlementAdmits, CredentialAdmits, MarkUsed, DoUpdate, Stored;
    if state.ExchangeEntitled? {
      UpdateAsksNothing(w, a.call, MarkUsed(state.credential, state.at), state.credential.version,
                            ExchangeMarked(state.credential.identity.id, state.scopes, state.epoch));
    }
  }
}
