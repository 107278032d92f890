// Entitlement epochs as a fence: in every run of the seller history, an access token is
// accepted only while the entitlement has been active in every version stored since the
// one its credential was stamped from.
module EpochFence {
  import opened Foundations
  import opened Decimal
  import opened Entitlement
  import opened EntitlementStore
  import opened Credentials
  import opened SellerHistory

  // The epoch was read from version number stamp, and that version was active.
  predicate StampOk(w: World, epoch: nat, stamp: nat) {
    w.resolver ==>
      && 1 <= stamp <= |w.log|
      && w.log[stamp - 1].terms.status == Active && w.log[stamp - 1].epoch == epoch
  }

  // The epoch is a stored credential's, and an exchange that presented its secret asked for
  // exactly these scopes, which it may have.
  predicate Known(w: World, id: Id, scopes: seq<Scope>, epoch: nat) {
    && w.resolver && id in w.credentials && w.credentials[id].identity.epoch == epoch
    && ExchangeScopes(scopes, w.credentials[id].identity.scopes)
    && ExchangeAsk(id, w.credentials[id].identity.secret, scopes) in w.asked
  }

  // The call may exchange this credential for these scopes.
  predicate MayExchange(w: World, c: Snapshot, scopes: seq<Scope>) {
    && w.resolver && SameIdentity(w, c) && ExchangeScopes(scopes, c.identity.scopes)
    && ExchangeAsk(c.identity.id, c.identity.secret, scopes) in w.asked
  }

  // Every version from number first to number last was active.
  predicate ActiveThroughout(log: seq<SellerEntitlement>, first: nat, last: nat) {
    && 1 <= first <= last <= |log|
    && forall m :: first - 1 <= m < last ==> log[m].terms.status == Active
  }

  predicate AcceptanceOk(w: World, token: Token, seen: nat) {
    token.credential in w.credentials && token.credential in w.stamps && ActiveThroughout(w.log, w.stamps[token.credential], seen)
  }

  predicate CallOk(w: World, call: Call) {
    match call
    case Reconciling(snapshot, seen) => seen <= |w.log| && snapshot == Stored(w.log[..seen])
    case Issuing(identity, stamp) => StampOk(w, identity.epoch, stamp)
    case RotateLoaded(_, predecessor) => SameIdentity(w, predecessor)
    case RotateStamped(_, predecessor, successor, stamp) =>
      SameIdentity(w, predecessor) && StampOk(w, successor.identity.epoch, stamp)
    case Revoking(credential, _, _) => SameIdentity(w, credential)
    case Exchanging(credential, scopes) => MayExchange(w, credential, scopes)
    case ExchangeEntitled(credential, scopes, epoch, _) => MayExchange(w, credential, scopes) && epoch == credential.identity.epoch
    case ExchangeMarked(id, scopes, epoch) => Known(w, id, scopes, epoch)
    case ExchangeRechecked(id, scopes, epoch) => Known(w, id, scopes, epoch)
    case Accepting(token, _) => token in w.tokens
    case Accepted(token, seen) => AcceptanceOk(w, token, seen)
    case _ => true
  }

  predicate SameIdentity(w: World, c: Snapshot) {
    c.identity.id in w.credentials && w.credentials[c.identity.id].identity == c.identity
  }

  predicate CredentialOk(w: World, id: Id)
    requires id in w.credentials
  {
    && w.credentials[id].identity.id == id
    && id in w.stamps && StampOk(w, w.credentials[id].identity.epoch, w.stamps[id])
  }

  predicate StoreOk(w: World) {
    && ValidLog(w.seller, w.log)
    && (forall id :: id in w.credentials ==> CredentialOk(w, id))
    && (forall t :: t in w.tokens ==> Known(w, t.credential, t.scopes, t.epoch))
  }

  predicate Fence(w: World) {
    StoreOk(w) && forall c :: c in w.calls ==> CallOk(w, w.calls[c])
  }

  // What no step ever takes back.
  predicate Extends(w: World, v: World) {
    && v.resolver == w.resolver && v.seller == w.seller && w.log <= v.log && w.tokens <= v.tokens && w.asked <= v.asked
    && (forall id :: id in w.credentials ==> id in v.credentials && v.credentials[id].identity == w.credentials[id].identity)
    && (forall id :: id in w.credentials && id in w.stamps ==> id in v.stamps && v.stamps[id] == w.stamps[id])
  }

  lemma CallOkStable(w: World, v: World, call: Call)
    requires Extends(w, v) && CallOk(w, call)
    ensures CallOk(v, call)
  {
    if call.Reconciling? {
      assert v.log[..call.seen] == w.log[..call.seen];
    }
  }

  lemma CallsDoNotMatter(u: World, calls: map<nat, Call>)
    requires StoreOk(u)
    ensures var v := u.(calls := calls); StoreOk(v) && Extends(u, v)
  {
    hide ValidLog;
    var v := u.(calls := calls);
    forall id | id in v.credentials ensures CredentialOk(v, id) {
      assert CredentialOk(u, id);
    }
  }

  // A step that extends the store and then moves one call keeps the fence.
  lemma StepKeepsFence(w: World, u: World, c: nat, state: Call)
    requires Fence(w) && Extends(w, u) && StoreOk(u) && u.calls == w.calls && CallOk(u, state)
    ensures Fence(To(u, c, state)) && Extends(w, To(u, c, state))
  {
    hide CallOk, StoreOk, Extends;
    var v := To(u, c, state);
    CallsDoNotMatter(u, v.calls);
    ExtendsTransitive(w, u, v);
    forall d | d in v.calls ensures CallOk(v, v.calls[d]) {
      if d == c {
        CallOkStable(u, v, state);
      } else {
        CallOkStable(w, v, w.calls[d]);
      }
    }
  }

  lemma MoveKeepsFence(w: World, c: nat, state: Call)
    requires Fence(w) && CallOk(w, state)
    ensures Fence(To(w, c, state)) && Extends(w, To(w, c, state))
  {
    hide CallOk, StoreOk;
    assert Extends(w, w);
    StepKeepsFence(w, w, c, state);
  }

  lemma FinishKeepsFence(w: World, c: nat)
    requires Fence(w)
    ensures Fence(To(w, c, Finished)) && Extends(w, To(w, c, Finished))
  {
    hide StoreOk;
    MoveKeepsFence(w, c, Finished);
  }

  // ---- what each kind of write does to the store ----

  lemma AppendOk(w: World, e: SellerEntitlement)
    requires StoreOk(w) && ValidLog(w.seller, w.log + [e])
    ensures var u := w.(log := w.log + [e]); StoreOk(u) && Extends(w, u)
  {
    hide ValidLog;
  }

  lemma InsertOk(w: World, s: Snapshot, stamp: nat)
    requires StoreOk(w) && s.identity.id !in w.credentials && StampOk(w, s.identity.epoch, stamp)
    ensures var u := Insert(w, s, stamp); StoreOk(u) && Extends(w, u)
  {
    hide ValidLog;
    var u := Insert(w, s, stamp);
    forall id | id in u.credentials ensures CredentialOk(u, id) {
      if id != s.identity.id {
        assert CredentialOk(w, id);
      }
    }
  }

  lemma UpdateOk(w: World, s: Snapshot)
    requires StoreOk(w) && SameIdentity(w, s)
    ensures var u := w.(credentials := w.credentials[s.identity.id := s]); StoreOk(u) && Extends(w, u)
  {
    hide ValidLog;
    var u := w.(credentials := w.credentials[s.identity.id := s]);
    forall id | id in u.credentials ensures CredentialOk(u, id) {
      assert CredentialOk(w, id);
    }
  }

  lemma TokenOk(w: World, token: Token)
    requires StoreOk(w) && Known(w, token.credential, token.scopes, token.epoch)
    ensures var u := w.(tokens := w.tokens + {token}); StoreOk(u) && Extends(w, u)
  {
    hide ValidLog;
  }

  lemma ReplaysOk(w: World, replays: map<ReplayKey, Replay>)
    requires StoreOk(w)
    ensures var u := w.(replays := replays); StoreOk(u) && Extends(w, u)
  {
    hide ValidLog;
  }

  lemma ExtendsTransitive(u: World, v: World, w: World)
    requires Extends(u, v) && Extends(v, w)
    ensures Extends(u, w)
  {
  }

  // ---- the steps ----

  lemma StampNow(w: World, now: Time)
    requires IssuanceEpoch(w.resolver, Stored(w.log), now).Some?
    ensures StampOk(w, IssuanceEpoch(w.resolver, Stored(w.log), now).value, |w.log|)
  {
  }

  lemma ReconcileKeepsFence(w: World, c: nat, snapshot: Option<SellerEntitlement>, seen: nat, candidate: Candidate, at: Time)
    requires Fence(w) && seen <= |w.log| && snapshot == Stored(w.log[..seen])
    ensures var v := DoReconcileCommit(w, c, snapshot, candidate, at); Fence(v) && Extends(w, v)
  {
    hide Reconcile, WellFormed, ApplyAccepts, TrimSpace;
    FinishKeepsFence(w, c);
    var write := ReconcileWrite(w.log, snapshot, candidate, at);
    if candidate.sellerId == w.seller && write.Written? {
      WriteCommitsIffUnchanged(w.seller, w.log, seen, candidate, at);
      AppendOk(w, write.next);
      StepKeepsFence(w, w.(log := w.log + [write.next]), c, Finished);
    }
  }

  lemma DoUpdateKeepsFence(w: World, c: nat, updated: Result<Snapshot, CredentialError>, expected: nat, next: Call)
    requires Fence(w) && (updated.Ok? ==> SameIdentity(w, updated.value))
    requires updated.Ok? ==> CallOk(w.(credentials := w.credentials[updated.value.identity.id := updated.value]), next)
    ensures var v := DoUpdate(w, c, updated, expected, next); Fence(v) && Extends(w, v)
  {
    hide StoreOk, CallOk, Extends;
    FinishKeepsFence(w, c);
    if updated.Ok? {
      UpdateOk(w, updated.value);
      StepKeepsFence(w, w.(credentials := w.credentials[updated.value.identity.id := updated.value]), c, next);
    }
  }

  lemma IssueKeepsFence(w: World, c: nat, identity: Identity, stamp: nat)
    requires Fence(w) && StampOk(w, identity.epoch, stamp)
    ensures var v := DoIssueCommit(w, c, identity, stamp); Fence(v) && Extends(w, v)
  {
    hide TrimSpace, StoreOk, Extends, Insert;
    FinishKeepsFence(w, c);
    if NewCredential(identity).Ok? && NewCredential(identity).value.identity.id !in w.credentials {
      var s := NewCredential(identity).value;
      InsertOk(w, s, stamp);
      InsertCalls(w, s, stamp);
      StepKeepsFence(w, Insert(w, s, stamp), c, Finished);
    }
  }

  lemma InsertCalls(w: World, s: Snapshot, stamp: nat)
    ensures Insert(w, s, stamp).calls == w.calls
  {
  }

  lemma RotateStampKeepsFence(w: World, c: nat, request: RotateRequest, predecessor: Snapshot)
    requires Fence(w) && SameIdentity(w, predecessor)
    ensures var v := DoRotateStamp(w, c, request, predecessor); Fence(v) && Extends(w, v)
  {
    hide TrimSpace, StoreOk, Extends, StampOk, Replace, ValidIdentity;
    var epoch := IssuanceEpoch(w.resolver, Stored(w.log), request.now);
    MoveKeepsFence(w, c, RotationRefused(OtherError));
    if epoch.Some? {
      StampNow(w, request.now);
      var successor := NewCredential(SuccessorIdentity(w.seller, request, predecessor, epoch.value));
      if successor.Ok? {
        MoveKeepsFence(w, c, RotateStamped(request, predecessor, successor.value, |w.log|));
      }
    }
  }

  lemma CommitRotationOk(w: World, request: RotateRequest, replaced: Snapshot, successor: Snapshot, stamp: nat)
    requires StoreOk(w) && SameIdentity(w, replaced) && StampOk(w, successor.identity.epoch, stamp)
    requires successor.identity.id !in w.credentials
    ensures var u := CommitRotation(w, request, replaced, successor, stamp);
            StoreOk(u) && Extends(w, u) && u.calls == w.calls
  {
    hide StoreOk, Extends, Insert, StampOk;
    var rotation := RotationOf(request, replaced, successor);
    var w0 := w.(credentials := w.credentials[replaced.identity.id := replaced]);
    var w1 := w0.(replays := w.replays[request.key := Replay(request.body, rotation, rotation.secretReplayExpiresAt)]);
    UpdateOk(w, replaced);
    ReplaysOk(w0, w1.replays);
    ExtendsTransitive(w, w0, w1);
    StampStable(w, w1, successor.identity.epoch, stamp);
    InsertOk(w1, successor, stamp);
    InsertCalls(w1, successor, stamp);
    ExtendsTransitive(w, w1, Insert(w1, successor, stamp));
  }

  lemma RotateCommitKeepsFence(w: World, c: nat, request: RotateRequest, predecessor: Snapshot, successor: Snapshot, stamp: nat)
    requires Fence(w) && SameIdentity(w, predecessor) && StampOk(w, successor.identity.epoch, stamp)
    ensures var v := DoRotateCommit(w, c, request, predecessor, successor, stamp); Fence(v) && Extends(w, v)
  {
    hide StoreOk, Extends, CommitRotation, StampOk, Fence, UpdateAccepts;
    MoveKeepsFence(w, c, RotationRefused(OtherError));
    MoveKeepsFence(w, c, RotateLost(request));
    var replaced := Replace(predecessor, request.successor, request.now);
    if replaced.Ok? && successor.identity.id !in w.credentials {
      FenceStore(w);
      CommitRotationOk(w, request, replaced.value, successor, stamp);
      StepKeepsFence(w, CommitRotation(w, request, replaced.value, successor, stamp), c,
                     RotationReturned(request.key, request.body, RotationOf(request, replaced.value, successor)));
    }
  }

  lemma FenceStore(w: World)
    requires Fence(w)
    ensures StoreOk(w)
  {
  }

  lemma StampStable(w: World, v: World, epoch: nat, stamp: nat)
    requires Extends(w, v) && StampOk(w, epoch, stamp)
    ensures StampOk(v, epoch, stamp)
  {
  }

  lemma TokenKeepsFence(w: World, c: nat, token: Token)
    requires Fence(w) && Known(w, token.credential, token.scopes, token.epoch)
    ensures var v := To(w.(tokens := w.tokens + {token}), c, Finished); Fence(v) && Extends(w, v)
  {
    hide StoreOk, Extends;
    TokenOk(w, token);
    StepKeepsFence(w, w.(tokens := w.tokens + {token}), c, Finished);
  }

  lemma EpochIsPositive(seller: Id, log: seq<SellerEntitlement>, i: nat)
    requires ValidLog(seller, log) && i < |log|
    ensures log[i].epoch >= 1
  {
  }

  // The check at acceptance passes exactly when every version stored since the stamp is
  // active and the access period has not ended.
  lemma AcceptanceIff(w: World, token: Token, now: Time)
    requires Fence(w) && token in w.tokens
    ensures EntitlementAdmits(Stored(w.log), token.epoch, now)
            <==> ActiveThroughout(w.log, w.stamps[token.credential], |w.log|)
                 && now < w.log[|w.log| - 1].terms.accessEndsAt
  {
    hide ValidLog, ActiveThroughout, EntitlementAdmits, ExchangeScopes;
    CredentialEntitledIff(w, token.credential, now);
  }

  // The same of a stored credential.
  lemma CredentialEntitledIff(w: World, id: Id, now: Time)
    requires StoreOk(w) && w.resolver && id in w.credentials
    ensures id in w.stamps
    ensures EntitlementAdmits(Stored(w.log), w.credentials[id].identity.epoch, now)
            <==> ActiveThroughout(w.log, w.stamps[id], |w.log|) && now < w.log[|w.log| - 1].terms.accessEndsAt
  {
    hide WellFormed;
    var n := |w.log|;
    assert CredentialOk(w, id);
    var stamp := w.stamps[id];
    EpochIsPositive(w.seller, w.log, stamp - 1);
    if EntitlementAdmits(Stored(w.log), w.credentials[id].identity.epoch, now) {
      forall m | stamp - 1 <= m < n ensures w.log[m].terms.status == Active {
        EqualEpochsSameStatus(w.seller, w.log, stamp - 1, m, n - 1);
      }
    }
    if ActiveThroughout(w.log, stamp, n) {
      ActiveStretchKeepsEpoch(w.seller, w.log, stamp - 1, n - 1);
    }
  }

  lemma AcceptKeepsFence(w: World, c: nat, token: Token, at: Time)
    requires Fence(w) && token in w.tokens && EntitlementAdmits(Stored(w.log), token.epoch, at)
    ensures var v := To(w, c, Accepted(token, |w.log|)); Fence(v) && Extends(w, v)
  {
    hide ValidLog;
    AcceptanceIff(w, token, at);
    MoveKeepsFence(w, c, Accepted(token, |w.log|));
  }

  // ---- every step, every run ----

  lemma AskingOk(w: World, ask: Ask)
    requires StoreOk(w)
    ensures StoreOk(Asking(w, ask)) && Extends(w, Asking(w, ask))
  {
    hide ValidLog, ExchangeScopes;
    var u := Asking(w, ask);
    forall i | i in u.credentials ensures CredentialOk(u, i) {
      assert CredentialOk(w, i);
    }
  }

  lemma ExchangeReadKeepsFence(w: World, c: nat, id: Id, scopes: seq<Scope>, at: Time, presented: string)
    requires Fence(w)
    ensures var v := DoExchangeRead(w, c, id, scopes, at, presented); Fence(v) && Extends(w, v)
  {
    hide StoreOk, Extends, ExchangeScopes, Unexpired;
    var u := Asking(w, ExchangeAsk(id, presented, scopes));
    AskingOk(w, ExchangeAsk(id, presented, scopes));
    if ExchangeAdmits(w, id, scopes, at, presented) {
      StoredIdentity(w, id);
      StoredUnderItsId(w, id);
      StepKeepsFence(w, u, c, Exchanging(w.credentials[id], scopes));
    } else {
      StepKeepsFence(w, u, c, Finished);
    }
  }

  lemma StoredUnderItsId(w: World, id: Id)
    requires StoreOk(w) && id in w.credentials
    ensures w.credentials[id].identity.id == id
  {
    hide ValidLog;
    assert CredentialOk(w, id);
  }

  lemma StartKeepsFence(w: World, a: Action)
    requires Fence(w)
    ensures Fence(Start(w, a)) && Extends(w, Start(w, a))
  {
    hide Fence, StoreOk, Extends, StampOk, DoRotateLoad, ReplayOutcome, CredentialAdmits, DoExchangeRead;
    var c := a.call;
    NothingExtends(w);
    FinishKeepsFence(w, c);
    FenceStore(w);
    match a {
      case ReconcileRead(_) =>
        assert w.log[..|w.log|] == w.log;
        MoveKeepsFence(w, c, Reconciling(Stored(w.log), |w.log|));
      case IssueRead(_, identity) =>
        var epoch := IssuanceEpoch(w.resolver, Stored(w.log), identity.createdAt);
        if epoch.Some? {
          StampNow(w, identity.createdAt);
          MoveKeepsFence(w, c, Issuing(identity.(epoch := epoch.value, sellerId := w.seller), |w.log|));
        }
      case RotateLoad(_, request) => RotateReadsKeepFence(w, c, request);
      case RevokeRead(_, id, expected, at) =>
        if id in w.credentials {
          StoredIdentity(w, id);
          MoveKeepsFence(w, c, Revoking(w.credentials[id], expected, at));
        }
      case ExchangeRead(_, id, scopes, at, presented) => ExchangeReadKeepsFence(w, c, id, scopes, at, presented);
      case AcceptRead(_, token, at) =>
        if token in w.tokens {
          MoveKeepsFence(w, c, Accepting(token, at));
        }
      case _ =>
    }
  }

  lemma RotationsKeepFence(w: World, a: Action, state: Call)
    requires Fence(w) && CallOk(w, state) && (a.RotateGet? || a.RotateStamp? || a.RotateCommit? || a.RotateReload?)
    ensures var v := ContinueWrites(w, a, state); Fence(v) && Extends(w, v)
  {
    hide Fence, StoreOk, Extends, StampOk, DoRotateStamp, DoRotateCommit, DoRotateReload, ActiveThroughout;
    var c := a.call;
    NothingExtends(w);
    match a {
      case RotateGet(_) =>
        if state.RotateUnreplayed? {
          FenceStore(w);
          if state.request.key.credential in w.credentials {
            StoredIdentity(w, state.request.key.credential);
          }
          MoveKeepsFence(w, c, GetOutcome(w.credentials, state.request));
        }
      case RotateStamp(_) =>
        if state.RotateLoaded? {
          RotateStampKeepsFence(w, c, state.request, state.predecessor);
        }
      case RotateCommit(_) =>
        if state.RotateStamped? {
          RotateCommitKeepsFence(w, c, state.request, state.predecessor, state.successor, state.stamp);
        }
      case RotateReload(_) =>
        if state.RotateLost? {
          RotateReadsKeepFence(w, c, state.request);
        }
    }
  }

  lemma WritesKeepFence(w: World, a: Action, state: Call)
    requires Fence(w) && CallOk(w, state)
    ensures var v := ContinueWrites(w, a, state); Fence(v) && Extends(w, v)
  {
    hide Fence, StoreOk, Extends, StampOk, DoReconcileCommit, DoIssueCommit, DoRotateStamp, DoRotateCommit, DoUpdate,
         DoRotateReload, Revoke, ActiveThroughout, GetOutcome;
    var c := a.call;
    NothingExtends(w);
    match a {
      case ReconcileCommit(_, candidate, at) =>
        if state.Reconciling? {
          ReconcileKeepsFence(w, c, state.snapshot, state.seen, candidate, at);
        }
      case IssueCommit(_) =>
        if state.Issuing? {
          IssueKeepsFence(w, c, state.identity, state.stamp);
        }
      case RevokeCommit(_) =>
        if state.Revoking? {
          UpdatesKeepIdentity(state.credential, state.at);
          DoUpdateKeepsFence(w, c, Revoke(state.credential, state.at), state.expected, Finished);
        }
      case _ =>
        if a.RotateGet? || a.RotateStamp? || a.RotateCommit? || a.RotateReload? {
          RotationsKeepFence(w, a, state);
        }
    }
  }

  lemma TokensKeepFence(w: World, a: Action, state: Call)
    requires Fence(w) && CallOk(w, state)
    ensures var v := ContinueTokens(w, a, state); Fence(v) && Extends(w, v)
  {
    hide Fence, StoreOk, Extends, StampOk, DoUpdate, MarkUsed, EntitlementAdmits, CredentialAdmits, ActiveThroughout;
    var c := a.call;
    NothingExtends(w);
    FinishKeepsFence(w, c);
    match a {
      case ExchangeEntitlement(_, at) =>
        if state.Exchanging? {
          MoveKeepsFence(w, c, ExchangeEntitled(state.credential, state.scopes, state.credential.identity.epoch, at));
        }
      case ExchangeMark(_) =>
        if state.ExchangeEntitled? {
          UpdatesKeepIdentity(state.credential, state.at);
          DoUpdateKeepsFence(w, c, MarkUsed(state.credential, state.at), state.credential.version,
                             ExchangeMarked(state.credential.identity.id, state.scopes, state.epoch));
        }
      case ExchangeRecheck(_, at) =>
        if state.ExchangeMarked? {
          MoveKeepsFence(w, c, ExchangeRechecked(state.id, state.scopes, state.epoch));
        }
      case ExchangeToken(_, jti, at) =>
        if state.ExchangeRechecked? {
          TokenKeepsFence(w, c, Token(jti, state.id, state.scopes, state.epoch));
        }
      case AcceptEntitlement(_) =>
        if state.Accepting? && EntitlementAdmits(Stored(w.log), state.token.epoch, state.at) {
          AcceptKeepsFence(w, c, state.token, state.at);
        }
      case _ =>
    }
  }

  lemma ExecKeepsFence(w: World, a: Action)
    requires Fence(w)
    ensures Fence(Exec(w, a)) && Extends(w, Exec(w, a))
  {
    hide Fence, Extends, CallOk, Start, ContinueWrites, ContinueTokens;
    FenceCalls(w, a.call);
    if a.call !in w.calls {
      StartKeepsFence(w, a);
    } else {
      WritesKeepFence(w, a, w.calls[a.call]);
      TokensKeepFence(w, a, w.calls[a.call]);
    }
  }

  lemma FenceCalls(w: World, c: nat)
    requires Fence(w)
    ensures c in w.calls ==> CallOk(w, w.calls[c])
  {
  }

  lemma NothingExtends(w: World)
    ensures Extends(w, w)
  {
  }

  lemma StoredIdentity(w: World, id: Id)
    requires StoreOk(w) && id in w.credentials
    ensures SameIdentity(w, w.credentials[id])
  {
    hide ValidLog;
    assert CredentialOk(w, id);
  }

  lemma UpdatesKeepIdentity(c: Snapshot, at: Time)
    ensures Revoke(c, at).Ok? ==> Revoke(c, at).value.identity == c.identity
    ensures MarkUsed(c, at).Ok? ==> MarkUsed(c, at).value.identity == c.identity
  {
  }

  lemma RotateReadsKeepFence(w: World, c: nat, request: RotateRequest)
    requires Fence(w)
    ensures var v := DoRotateLoad(w, c, request); Fence(v) && Extends(w, v)
    ensures var v := DoRotateReload(w, c, request); Fence(v) && Extends(w, v)
  {
    hide Fence, Extends, StoreOk;
    FenceStore(w);
    var u := Asking(w, RotateAsk(request));
    AskingOk(w, RotateAsk(request));
    MoveKeepsFence(w, c, RotationRefused(ConditionFailed));
    if request.key in w.replays {
      var answer := ReplayOutcome(w.replays[request.key], request);
      MoveKeepsFence(w, c, answer);
      StepKeepsFence(w, u, c, answer);
    } else {
      StepKeepsFence(w, u, c, RotateUnreplayed(request));
    }
  }

  lemma InitKeepsFence(resolver: bool, seller: Id)
    ensures Fence(Init(resolver, seller))
  {
  }

  lemma {:induction false} RunKeepsFence(w: World, actions: seq<Action>)
    requires Fence(w)
    ensures Fence(Run(w, actions)) && Extends(w, Run(w, actions))
  {
    hide Fence, Extends, Exec;
    if actions == [] {
      NothingExtends(w);
    } else {
      var k := |actions| - 1;
      RunKeepsFence(w, actions[..k]);
      ExecKeepsFence(Run(w, actions[..k]), actions[k]);
      ExtendsTransitive(w, Run(w, actions[..k]), Run(w, actions));
    }
  }

  // The epoch fence: over every run, whatever was accepted was accepted while the
  // entitlement had been active in every version from the one its credential was stamped
  // from to the one read at acceptance.
  lemma AcceptedOnlyWhileActive(resolver: bool, seller: Id, actions: seq<Action>, c: nat)
    requires var w := Run(Init(resolver, seller), actions); c in w.calls && w.calls[c].Accepted?
    ensures var w := Run(Init(resolver, seller), actions); var token := w.calls[c].token;
            && token.credential in w.stamps
            && ActiveThroughout(w.log, w.stamps[token.credential], w.calls[c].seen)
  {
    hide Run, StoreOk;
    InitKeepsFence(resolver, seller);
    RunKeepsFence(Init(resolver, seller), actions);
  }

  // After a version that is not active, a credential stamped before it is dead for good: no
  // later step accepts any of its tokens against that version or a newer one.
  lemma DeadForever(resolver: bool, seller: Id, before: seq<Action>, after: seq<Action>, id: Id, inactive: nat, c: nat)
    requires var w := Run(Init(resolver, seller), before);
             id in w.stamps && id in w.credentials && w.stamps[id] <= inactive < |w.log| && w.log[inactive].terms.status != Active
    requires var v := Run(Init(resolver, seller), before + after);
             c in v.calls && v.calls[c].Accepted? && v.calls[c].token.credential == id
    ensures Run(Init(resolver, seller), before + after).calls[c].seen <= inactive
  {
    hide Run, StoreOk, CallOk, Exec, Fence;
    var start := Init(resolver, seller);
    InitKeepsFence(resolver, seller);
    RunKeepsFence(start, before);
    RunConcat(start, before, after);
    RunKeepsFence(Run(start, before), after);
    AcceptedOnlyWhileActive(resolver, seller, before + after, c);
  }

  // The same over runs, both ways: at any moment the entitlement check passes for a token
  // exactly when every version stored since its credential was stamped is active and the
  // access period of the newest has not ended.
  lemma TokenAdmittedIffActiveSince(resolver: bool, seller: Id, actions: seq<Action>, token: Token, now: Time)
    requires token in Run(Init(resolver, seller), actions).tokens
    ensures var w := Run(Init(resolver, seller), actions);
            && token.credential in w.stamps
            && (EntitlementAdmits(Stored(w.log), token.epoch, now)
                <==> ActiveThroughout(w.log, w.stamps[token.credential], |w.log|)
                     && now < w.log[|w.log| - 1].terms.accessEndsAt)
  {
    hide Run, CallOk;
    InitKeepsFence(resolver, seller);
    RunKeepsFence(Init(resolver, seller), actions);
    AcceptanceIff(Run(Init(resolver, seller), actions), token, now);
  }

  // In every run from no entitlement: the i-th stored version is numbered i, which is the
  // number its source revision spells; 1 <= epoch <= version, and neither ever wraps; and
  // two versions of one epoch have one status, with every version between them.
  lemma VersionsInEveryRun(resolver: bool, seller: Id, actions: seq<Action>, i: nat, m: nat, j: nat)
    requires i <= m <= j < |Run(Init(resolver, seller), actions).log|
    ensures var log := Run(Init(resolver, seller), actions).log;
            && log[i].version == i + 1 < UINT64_MOD && ParseUint(log[i].sourceRevision) == Some(log[i].version)
            && 1 <= log[i].epoch <= log[i].version && log[i].epoch <= log[j].epoch
            && (log[i].epoch == log[j].epoch ==> log[m].terms.status == log[i].terms.status && log[m].epoch == log[i].epoch)
  {
    hide Run, CallOk, Reconcile, ValidParams, ValidTerms, ParseUint, PrintPadded;
    InitKeepsFence(resolver, seller);
    RunKeepsFence(Init(resolver, seller), actions);
    var log := Run(Init(resolver, seller), actions).log;
    EpochsAscend(seller, log, i, j);
    WellFormedCounts(log[i]);
    if log[i].epoch == log[j].epoch {
      EqualEpochsSameStatus(seller, log, i, m, j);
    }
  }

  // In every run a closed seller stays closed on the same terms.
  lemma ClosedInEveryRun(resolver: bool, seller: Id, actions: seq<Action>, i: nat, j: nat)
    requires i < j < |Run(Init(resolver, seller), actions).log|
    requires Run(Init(resolver, seller), actions).log[i].terms.status == Closed
    ensures var log := Run(Init(resolver, seller), actions).log;
            log[j].terms.status == Closed && log[j].terms == ClosedTerms(log[i].terms, log[j].terms.lastEventId)
  {
    hide Run, CallOk, WellFormed;
    InitKeepsFence(resolver, seller);
    RunKeepsFence(Init(resolver, seller), actions);
    ClosedForGood(seller, Run(Init(resolver, seller), actions).log, i, j);
  }

  // In every run, no step of the billing provider lifts or changes a fraud quarantine, and a
  // quarantine differs first at a version that another source stored.
  lemma QuarantineInEveryRun(resolver: bool, seller: Id, actions: seq<Action>, i: nat, j: nat)
    requires i <= j < |Run(Init(resolver, seller), actions).log|
    requires Quarantined(Run(Init(resolver, seller), actions).log[i].terms)
    ensures var log := Run(Init(resolver, seller), actions).log;
            (SameTerms(log[i].terms, log[j].terms) && log[j].epoch == log[i].epoch)
            || exists m :: i < m <= j && LiftedAt(log, i, m)
  {
    hide Run, CallOk, WellFormed, LiftedAt;
    InitKeepsFence(resolver, seller);
    RunKeepsFence(Init(resolver, seller), actions);
    QuarantineUntilOtherSource(seller, Run(Init(resolver, seller), actions).log, i, j);
  }

  lemma WellFormedCounts(e: SellerEntitlement)
    requires WellFormed(e)
    ensures 1 <= e.epoch <= e.version < UINT64_MOD && ParseUint(e.sourceRevision) == Some(e.version)
  {
    hide NewSellerEntitlement, ParseUint, PrintPadded;
    RevisionRoundTrip(e.version);
  }
}
