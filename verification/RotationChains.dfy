// Credential rotation over every run of the seller history: successors form disjoint
// acyclic chains whose only possibly live member is the last, and a rotation replay is
// answered the same way for ever.
module RotationChains {
  import opened Foundations
  import opened Entitlement
  import opened EntitlementStore
  import opened Credentials
  import opened SellerHistory

  // A snapshot read earlier: the store has not moved back, and at the same version it still holds it.
  predicate Coherent(w: World, c: Snapshot) {
    && c.identity.id in w.credentials
    && var stored := w.credentials[c.identity.id];
    && c.identity == stored.identity && c.version <= stored.version && (c.version == stored.version ==> c == stored)
  }

  predicate CredentialOk(w: World, id: Id)
    requires id in w.credentials
  {
    var c := w.credentials[id];
    && c.identity.id == id && TrimSpace(c.identity.name) == c.identity.name && id in w.births && w.births[id] < w.created
    && (c.replacedBy.Some? ==>
          && c.revokedAt.Some?
          && c.replacedBy.value in w.credentials && c.replacedBy.value in w.births
          && w.births[id] < w.births[c.replacedBy.value])
  }

  predicate OnePredecessor(w: World) {
    forall p, q ::
      (p in w.credentials && q in w.credentials && w.credentials[p].replacedBy.Some?
       && w.credentials[p].replacedBy == w.credentials[q].replacedBy) ==> p == q
  }

  // The successor has the name, scopes and expiry that were asked for, and where none were
  // asked for those of its predecessor.
  predicate Fits(request: RotateRequest, p: Identity, s: Identity) {
    var name := TrimSpace(request.name);
    && s.id == request.successor && s.secret == request.token && s.createdAt == request.now
    && (name != [] ==> s.name == name) && (name == [] ==> s.name == p.name)
    && (request.scopes != [] ==> s.scopes == request.scopes) && (request.scopes == [] ==> s.scopes == p.scopes)
    && (request.expiresAt.Some? ==> s.expiresAt == request.expiresAt) && (request.expiresAt.None? ==> s.expiresAt == p.expiresAt)
  }

  // The rotation is what this request asked for.
  predicate MadeFor(request: RotateRequest, key: ReplayKey, body: string, r: Rotation) {
    && request.key == key && request.body == body && r.token == request.token
    && r.predecessor.revokedAt == Some(request.now) && r.secretReplayExpiresAt == request.now + 10 * MINUTE
    && Fits(request, r.predecessor.identity, r.successor.identity)
  }

  predicate Requested(asked: set<Ask>, key: ReplayKey, body: string, r: Rotation) {
    exists ask :: ask in asked && ask.RotateAsk? && MadeFor(ask.request, key, body, r)
  }

  // A recorded replay describes a rotation that was asked for and is still in force.
  predicate ReplayOk(w: World, key: ReplayKey, replay: Replay) {
    var p, s := replay.rotation.predecessor, replay.rotation.successor.identity.id;
    && p.identity.id == key.credential
    && key.credential in w.credentials && w.credentials[key.credential] == p
    && p.revokedAt.Some? && p.replacedBy == Some(s)
    && s in w.credentials && w.credentials[s].identity == replay.rotation.successor.identity
    && replay.rotation.token == w.credentials[s].identity.secret
    && replay.expiresAt == replay.rotation.secretReplayExpiresAt
    && Requested(w.asked, key, replay.body, replay.rotation)
  }

  predicate CallOk(w: World, call: Call) {
    match call
    case RotateUnreplayed(request) => RotateAsk(request) in w.asked
    case RotateLoaded(request, p) => RotateAsk(request) in w.asked && Coherent(w, p) && p.identity.id == request.key.credential
    case RotateStamped(request, p, s, _) =>
      && RotateAsk(request) in w.asked && Coherent(w, p) && p.identity.id == request.key.credential
      && s.revokedAt.None? && s.replacedBy.None? && TrimSpace(s.identity.name) == s.identity.name
      && Fits(request, p.identity, s.identity)
    case Revoking(c, _, _) => Coherent(w, c)
    case Exchanging(c, _) => Coherent(w, c)
    case ExchangeEntitled(c, _, _, _) => Coherent(w, c)
    case RotationReturned(key, body, rotation) =>
      key in w.replays && w.replays[key].body == body && w.replays[key].rotation == rotation
    case _ => true
  }

  predicate StoreOk(w: World) {
    && (forall id :: id in w.credentials ==> CredentialOk(w, id))
    && OnePredecessor(w)
    && (forall k :: k in w.replays ==> ReplayOk(w, k, w.replays[k]))
  }

  predicate Chained(w: World) {
    StoreOk(w) && forall c :: c in w.calls ==> CallOk(w, w.calls[c])
  }

  // What no step takes back: versions only grow, one version has one content, a revoked
  // credential never changes again, and neither does a recorded replay.
  predicate Moves(w: World, v: World) {
    && (forall id :: id in w.credentials ==> id in v.credentials && Advances(w.credentials[id], v.credentials[id]))
    && (forall k :: k in w.replays ==> k in v.replays && v.replays[k] == w.replays[k])
    && w.asked <= v.asked
  }

  predicate Advances(c: Snapshot, d: Snapshot) {
    c.version <= d.version && (c.version == d.version ==> c == d) && (c.revokedAt.Some? ==> c == d)
    && c.identity == d.identity
  }

  lemma MovesTransitive(u: World, v: World, w: World)
    requires Moves(u, v) && Moves(v, w)
    ensures Moves(u, w)
  {
    forall id | id in u.credentials ensures id in w.credentials && Advances(u.credentials[id], w.credentials[id]) {
      assert Advances(u.credentials[id], v.credentials[id]) && Advances(v.credentials[id], w.credentials[id]);
    }
  }

  lemma NothingMoves(w: World)
    ensures Moves(w, w)
  {
  }

  lemma CallOkStable(w: World, v: World, call: Call)
    requires Moves(w, v) && CallOk(w, call)
    ensures CallOk(v, call)
  {
    forall id | id in w.credentials ensures Advances(w.credentials[id], v.credentials[id]) {}
  }

  lemma CallsDoNotMatter(u: World, calls: map<nat, Call>)
    requires StoreOk(u)
    ensures var v := u.(calls := calls); StoreOk(v) && Moves(u, v)
  {
    var v := u.(calls := calls);
    forall id | id in v.credentials ensures CredentialOk(v, id) {
      assert CredentialOk(u, id);
    }
    forall k | k in v.replays ensures ReplayOk(v, k, v.replays[k]) {
      assert ReplayOk(u, k, u.replays[k]);
    }
  }

  // A step that moves the store forward and then one call keeps the invariant.
  lemma StepKeepsChains(w: World, u: World, c: nat, state: Call)
    requires Chained(w) && Moves(w, u) && StoreOk(u) && u.calls == w.calls && CallOk(u, state)
    ensures Chained(To(u, c, state)) && Moves(w, To(u, c, state))
  {
    hide CallOk, StoreOk, Moves;
    var v := To(u, c, state);
    CallsDoNotMatter(u, v.calls);
    MovesTransitive(w, u, v);
    forall d | d in v.calls ensures CallOk(v, v.calls[d]) {
      if d == c {
        CallOkStable(u, v, state);
      } else {
        CallOkStable(w, v, w.calls[d]);
      }
    }
  }

  lemma MoveKeepsChains(w: World, c: nat, state: Call)
    requires Chained(w) && CallOk(w, state)
    ensures Chained(To(w, c, state)) && Moves(w, To(w, c, state))
  {
    hide CallOk, StoreOk, Moves;
    NothingMoves(w);
    StepKeepsChains(w, w, c, state);
  }

  lemma FinishKeepsChains(w: World, c: nat)
    requires Chained(w)
    ensures Chained(To(w, c, Finished)) && Moves(w, To(w, c, Finished))
  {
    hide StoreOk;
    MoveKeepsChains(w, c, Finished);
  }

  lemma ChainedStore(w: World, c: nat)
    requires Chained(w)
    ensures StoreOk(w) && (c in w.calls ==> CallOk(w, w.calls[c]))
  {
  }

  lemma StoredCoherent(w: World, id: Id)
    requires StoreOk(w) && id in w.credentials
    ensures Coherent(w, w.credentials[id]) && w.credentials[id].identity.id == id
  {
    assert CredentialOk(w, id);
  }

  // ---- what each kind of write does to the store ----

  lemma InsertOk(w: World, s: Snapshot, stamp: nat)
    requires StoreOk(w) && s.identity.id !in w.credentials && s.replacedBy.None?
    requires TrimSpace(s.identity.name) == s.identity.name
    ensures var u := Insert(w, s, stamp); StoreOk(u) && Moves(w, u) && u.calls == w.calls
  {
    hide TrimSpace, Requested, OnePredecessor, CredentialOk, ReplayOk;
    var u := Insert(w, s, stamp);
    forall id | id in u.credentials ensures CredentialOk(u, id) {
      InsertedCredential(w, s, stamp, id);
    }
    forall k | k in u.replays ensures ReplayOk(u, k, u.replays[k]) {
      InsertKeepsReplay(w, s, stamp, k);
    }
    InsertKeepsPredecessors(w, s, stamp);
  }

  lemma InsertedCredential(w: World, s: Snapshot, stamp: nat, id: Id)
    requires StoreOk(w) && s.identity.id !in w.credentials && s.replacedBy.None?
    requires TrimSpace(s.identity.name) == s.identity.name && id in Insert(w, s, stamp).credentials
    ensures CredentialOk(Insert(w, s, stamp), id)
  {
    hide TrimSpace, ReplayOk, OnePredecessor;
    if id != s.identity.id {
      assert CredentialOk(w, id);
    }
  }

  lemma InsertKeepsReplay(w: World, s: Snapshot, stamp: nat, k: ReplayKey)
    requires StoreOk(w) && s.identity.id !in w.credentials && k in w.replays
    ensures var u := Insert(w, s, stamp); ReplayOk(u, k, u.replays[k])
  {
    hide Requested, CredentialOk, OnePredecessor;
    assert ReplayOk(w, k, w.replays[k]);
  }

  lemma InsertKeepsPredecessors(w: World, s: Snapshot, stamp: nat)
    requires StoreOk(w) && s.identity.id !in w.credentials && s.replacedBy.None?
    ensures OnePredecessor(Insert(w, s, stamp))
  {
    hide CredentialOk, ReplayOk;
  }

  // An accepted conditional write replaces exactly the version that was read.
  lemma AcceptedUpdateReplacesRead(w: World, read: Snapshot, n: Snapshot, successor: Id, at: Time, expected: nat)
    requires Coherent(w, read) && UpdateAccepts(w.credentials, n, expected)
    requires MarkUsed(read, at) == Ok(n) || Revoke(read, at) == Ok(n) || Replace(read, successor, at) == Ok(n)
    ensures w.credentials[read.identity.id] == read && read.revokedAt.None? && n.identity == read.identity
            && n.version == read.version + 1
  {
  }

  lemma UpdateOk(w: World, read: Snapshot, n: Snapshot)
    requires StoreOk(w) && read.identity.id in w.credentials && w.credentials[read.identity.id] == read
    requires read.revokedAt.None? && n.identity == read.identity && n.version == read.version + 1
    requires n.replacedBy == read.replacedBy
    ensures var u := w.(credentials := w.credentials[n.identity.id := n]); StoreOk(u) && Moves(w, u)
  {
    hide TrimSpace, Requested, OnePredecessor, ReplayOk;
    var u := w.(credentials := w.credentials[n.identity.id := n]);
    assert CredentialOk(w, read.identity.id);
    forall id | id in u.credentials ensures CredentialOk(u, id) {
      assert CredentialOk(w, id);
    }
    hide CredentialOk;
    forall k | k in u.replays ensures ReplayOk(u, k, u.replays[k]) {
      UpdateKeepsReplay(w, read, n, k);
    }
    UpdateKeepsPredecessors(w, n);
  }

  lemma UpdateKeepsReplay(w: World, read: Snapshot, n: Snapshot, k: ReplayKey)
    requires StoreOk(w) && read.identity.id in w.credentials && w.credentials[read.identity.id] == read
    requires read.revokedAt.None? && n.identity == read.identity && k in w.replays
    ensures var u := w.(credentials := w.credentials[n.identity.id := n]); ReplayOk(u, k, u.replays[k])
  {
    hide TrimSpace, Requested, OnePredecessor;
    assert ReplayOk(w, k, w.replays[k]) && CredentialOk(w, read.identity.id);
  }

  lemma UpdateKeepsPredecessors(w: World, n: Snapshot)
    requires OnePredecessor(w) && n.identity.id in w.credentials && n.replacedBy == w.credentials[n.identity.id].replacedBy
    ensures OnePredecessor(w.(credentials := w.credentials[n.identity.id := n]))
  {
  }

  // The situation in which a rotation commits.
  predicate Rotatable(w: World, request: RotateRequest, read: Snapshot, replaced: Snapshot, s: Snapshot) {
    && StoreOk(w) && read.identity.id in w.credentials && w.credentials[read.identity.id] == read
    && Replace(read, request.successor, request.now) == Ok(replaced)
    && read.identity.id == request.key.credential && request.key !in w.replays
    && s.identity.id == request.successor && s.identity.id !in w.credentials && s.replacedBy.None?
    && TrimSpace(s.identity.name) == s.identity.name
    && RotateAsk(request) in w.asked && Fits(request, read.identity, s.identity)
  }

  lemma CommittedCredentials(w: World, request: RotateRequest, read: Snapshot, replaced: Snapshot, s: Snapshot, stamp: nat, id: Id)
    requires Rotatable(w, request, read, replaced, s)
    requires id in CommitRotation(w, request, replaced, s, stamp).credentials
    ensures CredentialOk(CommitRotation(w, request, replaced, s, stamp), id)
  {
    hide OnePredecessor, ReplayOk, TrimSpace, Fits;
    assert CredentialOk(w, read.identity.id);
    if id != s.identity.id {
      assert CredentialOk(w, id);
    }
  }

  lemma CommittedPredecessors(w: World, request: RotateRequest, read: Snapshot, replaced: Snapshot, s: Snapshot, stamp: nat)
    requires Rotatable(w, request, read, replaced, s)
    ensures OnePredecessor(CommitRotation(w, request, replaced, s, stamp))
  {
    hide ReplayOk, RotationOf;
    var u := CommitRotation(w, request, replaced, s, stamp);
    forall p | p in w.credentials ensures w.credentials[p].replacedBy != Some(s.identity.id) {
      assert CredentialOk(w, p);
    }
  }

  lemma CommittedReplays(w: World, request: RotateRequest, read: Snapshot, replaced: Snapshot, s: Snapshot, stamp: nat, k: ReplayKey)
    requires Rotatable(w, request, read, replaced, s)
    requires k in CommitRotation(w, request, replaced, s, stamp).replays
    ensures var u := CommitRotation(w, request, replaced, s, stamp); ReplayOk(u, k, u.replays[k])
  {
    hide OnePredecessor, CredentialOk, TrimSpace, Fits, Requested, RotationOf;
    if k != request.key {
      assert ReplayOk(w, k, w.replays[k]);
    } else {
      CommittedReplay(w, request, read, replaced, s, stamp);
    }
  }

  lemma CommittedReplay(w: World, request: RotateRequest, read: Snapshot, replaced: Snapshot, s: Snapshot, stamp: nat)
    requires Rotatable(w, request, read, replaced, s)
    ensures var u := CommitRotation(w, request, replaced, s, stamp);
            request.key in u.replays && ReplayOk(u, request.key, u.replays[request.key])
  {
    hide OnePredecessor, CredentialOk, TrimSpace;
    var u := CommitRotation(w, request, replaced, s, stamp);
    var ask := RotateAsk(request);
    assert replaced.identity == read.identity;
    assert ask in u.asked && MadeFor(ask.request, request.key, request.body, u.replays[request.key].rotation);
  }

  lemma CommittedMoves(w: World, request: RotateRequest, read: Snapshot, replaced: Snapshot, s: Snapshot, stamp: nat)
    requires Rotatable(w, request, read, replaced, s)
    ensures Moves(w, CommitRotation(w, request, replaced, s, stamp))
  {
    hide StoreOk, RotationOf;
  }

  lemma CommitRotationOk(w: World, request: RotateRequest, read: Snapshot, replaced: Snapshot, s: Snapshot, stamp: nat)
    requires Rotatable(w, request, read, replaced, s)
    ensures var u := CommitRotation(w, request, replaced, s, stamp);
            StoreOk(u) && Moves(w, u) && u.calls == w.calls
  {
    hide Rotatable, CredentialOk, ReplayOk, OnePredecessor, Moves, RotationOf;
    var u := CommitRotation(w, request, replaced, s, stamp);
    forall id | id in u.credentials ensures CredentialOk(u, id) {
      CommittedCredentials(w, request, read, replaced, s, stamp, id);
    }
    forall k | k in u.replays ensures ReplayOk(u, k, u.replays[k]) {
      CommittedReplays(w, request, read, replaced, s, stamp, k);
    }
    CommittedPredecessors(w, request, read, replaced, s, stamp);
    CommittedMoves(w, request, read, replaced, s, stamp);
  }

  // ---- the steps ----

  lemma IssueKeepsChains(w: World, c: nat, identity: Identity, stamp: nat)
    requires Chained(w)
    ensures var v := DoIssueCommit(w, c, identity, stamp); Chained(v) && Moves(w, v)
  {
    hide TrimSpace, StoreOk, Moves, Insert, ValidIdentity;
    FinishKeepsChains(w, c);
    if NewCredential(identity).Ok? && NewCredential(identity).value.identity.id !in w.credentials {
      var s := NewCredential(identity).value;
      TrimIdempotent(identity.name);
      InsertOk(w, s, stamp);
      StepKeepsChains(w, Insert(w, s, stamp), c, Finished);
    }
  }

  lemma SuccessorFits(w: World, request: RotateRequest, p: Snapshot, epoch: nat)
    requires StoreOk(w) && Coherent(w, p)
    requires NewCredential(SuccessorIdentity(w.seller, request, p, epoch)).Ok?
    ensures var s := NewCredential(SuccessorIdentity(w.seller, request, p, epoch)).value.identity;
            Fits(request, p.identity, s) && TrimSpace(s.name) == s.name
  {
    hide TrimSpace, ReplayOk, OnePredecessor, ValidIdentity;
    assert CredentialOk(w, p.identity.id);
    TrimIdempotent(request.name);
    TrimIdempotent(p.identity.name);
  }

  lemma RotateStampKeepsChains(w: World, c: nat, request: RotateRequest, p: Snapshot)
    requires Chained(w) && CallOk(w, RotateLoaded(request, p))
    ensures var v := DoRotateStamp(w, c, request, p); Chained(v) && Moves(w, v)
  {
    hide TrimSpace, StoreOk, Moves, Replace, NewCredential, SuccessorIdentity, Coherent, IssuanceEpoch, Fits;
    MoveKeepsChains(w, c, RotationRefused(OtherError));
    var epoch := IssuanceEpoch(w.resolver, Stored(w.log), request.now);
    if epoch.Some? {
      var successor := NewCredential(SuccessorIdentity(w.seller, request, p, epoch.value));
      if successor.Ok? {
        ChainedStore(w, c);
        SuccessorFits(w, request, p, epoch.value);
        NewIsLive(SuccessorIdentity(w.seller, request, p, epoch.value));
        MoveKeepsChains(w, c, RotateStamped(request, p, successor.value, |w.log|));
      }
    }
  }

  lemma NewIsLive(identity: Identity)
    requires NewCredential(identity).Ok?
    ensures NewCredential(identity).value.revokedAt.None? && NewCredential(identity).value.replacedBy.None?
  {
    hide TrimSpace, ValidIdentity;
  }

  lemma RotateCommitKeepsChains(w: World, c: nat, request: RotateRequest, p: Snapshot, s: Snapshot, stamp: nat)
    requires Chained(w) && CallOk(w, RotateStamped(request, p, s, stamp))
    ensures var v := DoRotateCommit(w, c, request, p, s, stamp); Chained(v) && Moves(w, v)
  {
    hide Chained, StoreOk, Moves, CommitRotation, Replace, UpdateAccepts, Coherent;
    MoveKeepsChains(w, c, RotationRefused(OtherError));
    MoveKeepsChains(w, c, RotateLost(request));
    ChainedStore(w, c);
    var replaced := Replace(p, request.successor, request.now);
    if replaced.Ok? && UpdateAccepts(w.credentials, replaced.value, request.expectedVersion)
       && s.identity.id !in w.credentials && request.key !in w.replays
    {
      AcceptedUpdateReplacesRead(w, p, replaced.value, request.successor, request.now, request.expectedVersion);
      CoherentStored(w, p);
      CommitRotationOk(w, request, p, replaced.value, s, stamp);
      var rotation := RotationOf(request, replaced.value, s);
      CommittedReturn(w, request, replaced.value, s, stamp);
      StepKeepsChains(w, CommitRotation(w, request, replaced.value, s, stamp), c,
                      RotationReturned(request.key, request.body, rotation));
    }
  }

  lemma CoherentStored(w: World, c: Snapshot)
    requires Coherent(w, c)
    ensures c.identity.id in w.credentials
  {
  }

  lemma CommittedReturn(w: World, request: RotateRequest, replaced: Snapshot, s: Snapshot, stamp: nat)
    ensures CallOk(CommitRotation(w, request, replaced, s, stamp),
                   RotationReturned(request.key, request.body, RotationOf(request, replaced, s)))
  {
  }

  // Conditional updates that do not rotate: marking used and revoking.
  lemma UpdateKeepsChains(w: World, c: nat, read: Snapshot, at: Time, updated: Result<Snapshot, CredentialError>, expected: nat, next: Call)
    requires Chained(w) && Coherent(w, read) && (updated == MarkUsed(read, at) || updated == Revoke(read, at))
    requires next.Finished? || next.ExchangeMarked?
    ensures var v := DoUpdate(w, c, updated, expected, next); Chained(v) && Moves(w, v)
  {
    hide Chained, StoreOk, Moves, UpdateAccepts, Coherent;
    FinishKeepsChains(w, c);
    ChainedStore(w, c);
    if updated.Ok? && UpdateAccepts(w.credentials, updated.value, expected) {
      AcceptedUpdateReplacesRead(w, read, updated.value, read.identity.id, at, expected);
      CoherentStored(w, read);
      UpdateOk(w, read, updated.value);
      StepKeepsChains(w, w.(credentials := w.credentials[updated.value.identity.id := updated.value]), c, next);
    }
  }

  lemma AppendOk(w: World, log: seq<SellerEntitlement>)
    requires StoreOk(w)
    ensures var u := w.(log := log); StoreOk(u) && Moves(w, u)
  {
    hide TrimSpace, Requested;
    var u := w.(log := log);
    forall id | id in u.credentials ensures CredentialOk(u, id) {
      assert CredentialOk(w, id);
    }
    forall k | k in u.replays ensures ReplayOk(u, k, u.replays[k]) {
      assert ReplayOk(w, k, w.replays[k]);
    }
  }

  lemma TokensOk(w: World, tokens: set<Token>)
    requires StoreOk(w)
    ensures var u := w.(tokens := tokens); StoreOk(u) && Moves(w, u)
  {
    hide TrimSpace, Requested;
    var u := w.(tokens := tokens);
    forall id | id in u.credentials ensures CredentialOk(u, id) {
      assert CredentialOk(w, id);
    }
    forall k | k in u.replays ensures ReplayOk(u, k, u.replays[k]) {
      assert ReplayOk(w, k, w.replays[k]);
    }
  }

  lemma ReconcileKeepsChains(w: World, c: nat, snapshot: Option<SellerEntitlement>, candidate: Candidate, at: Time)
    requires Chained(w)
    ensures var v := DoReconcileCommit(w, c, snapshot, candidate, at); Chained(v) && Moves(w, v)
  {
    hide StoreOk, Moves, ReconcileWrite;
    NothingMoves(w);
    FinishKeepsChains(w, c);
    var write := ReconcileWrite(w.log, snapshot, candidate, at);
    if write.Written? {
      AppendOk(w, w.log + [write.next]);
      StepKeepsChains(w, w.(log := w.log + [write.next]), c, Finished);
    }
  }

  lemma RotateReadsKeepChains(w: World, c: nat, request: RotateRequest)
    requires Chained(w)
    ensures var v := DoRotateLoad(w, c, request); Chained(v) && Moves(w, v)
    ensures var v := DoRotateReload(w, c, request); Chained(v) && Moves(w, v)
  {
    hide Chained, Moves, StoreOk, Coherent;
    MoveKeepsChains(w, c, RotationRefused(ConditionFailed));
    var u := Asking(w, RotateAsk(request));
    ChainedStore(w, c);
    AskingOk(w, RotateAsk(request));
    if request.key in w.replays {
      MoveKeepsChains(w, c, ReplayOutcome(w.replays[request.key], request));
      StepKeepsChains(w, u, c, ReplayOutcome(w.replays[request.key], request));
    } else {
      StepKeepsChains(w, u, c, RotateUnreplayed(request));
    }
  }

  lemma RotateGetKeepsChains(w: World, c: nat, request: RotateRequest)
    requires Chained(w) && CallOk(w, RotateUnreplayed(request))
    ensures var v := To(w, c, GetOutcome(w.credentials, request)); Chained(v) && Moves(w, v)
  {
    hide Chained, Moves, StoreOk, Coherent;
    if request.key.credential in w.credentials {
      ChainedStore(w, c);
      StoredCoherent(w, request.key.credential);
    }
    MoveKeepsChains(w, c, GetOutcome(w.credentials, request));
  }

  lemma AskingOk(w: World, ask: Ask)
    requires StoreOk(w)
    ensures var u := Asking(w, ask); StoreOk(u) && Moves(w, u)
  {
    hide MadeFor, TrimSpace;
    var u := Asking(w, ask);
    forall i | i in u.credentials ensures CredentialOk(u, i) {
      assert CredentialOk(w, i);
    }
    forall k | k in u.replays ensures ReplayOk(u, k, u.replays[k]) {
      assert ReplayOk(w, k, w.replays[k]);
    }
  }

  lemma ExchangeReadKeepsChains(w: World, c: nat, id: Id, scopes: seq<Scope>, at: Time, presented: string)
    requires Chained(w)
    ensures var v := DoExchangeRead(w, c, id, scopes, at, presented); Chained(v) && Moves(w, v)
  {
    hide Chained, StoreOk, Moves, ExchangeScopes, Unexpired;
    var u := Asking(w, ExchangeAsk(id, presented, scopes));
    ChainedStore(w, c);
    AskingOk(w, ExchangeAsk(id, presented, scopes));
    if ExchangeAdmits(w, id, scopes, at, presented) {
      StoredCoherent(w, id);
      StepKeepsChains(w, u, c, Exchanging(w.credentials[id], scopes));
    } else {
      StepKeepsChains(w, u, c, Finished);
    }
  }

  lemma StartKeepsChains(w: World, a: Action)
    requires Chained(w)
    ensures Chained(Start(w, a)) && Moves(w, Start(w, a))
  {
    hide Chained, StoreOk, Moves, Coherent, DoRotateLoad, CredentialAdmits, DoExchangeRead, IssuanceEpoch;
    var c := a.call;
    NothingMoves(w);
    FinishKeepsChains(w, c);
    ChainedStore(w, c);
    match a {
      case ReconcileRead(_) => MoveKeepsChains(w, c, Reconciling(Stored(w.log), |w.log|));
      case IssueRead(_, identity) =>
        var epoch := IssuanceEpoch(w.resolver, Stored(w.log), identity.createdAt);
        if epoch.Some? {
          MoveKeepsChains(w, c, Issuing(identity.(epoch := epoch.value, sellerId := w.seller), |w.log|));
        }
      case RotateLoad(_, request) => RotateReadsKeepChains(w, c, request);
      case RevokeRead(_, id, expected, at) =>
        if id in w.credentials {
          StoredCoherent(w, id);
          MoveKeepsChains(w, c, Revoking(w.credentials[id], expected, at));
        }
      case ExchangeRead(_, id, scopes, at, presented) => ExchangeReadKeepsChains(w, c, id, scopes, at, presented);
      case AcceptRead(_, token, at) => MoveKeepsChains(w, c, Accepting(token, at));
      case _ =>
    }
  }

  lemma WritesKeepChains(w: World, a: Action, state: Call)
    requires Chained(w) && CallOk(w, state)
    ensures var v := ContinueWrites(w, a, state); Chained(v) && Moves(w, v)
  {
    hide Chained, StoreOk, Moves, Coherent, DoReconcileCommit, DoIssueCommit, DoRotateStamp, DoRotateCommit, DoUpdate,
         DoRotateReload, Revoke, GetOutcome;
    var c := a.call;
    NothingMoves(w);
    match a {
      case ReconcileCommit(_, candidate, at) =>
        if state.Reconciling? {
          ReconcileKeepsChains(w, c, state.snapshot, candidate, at);
        }
      case IssueCommit(_) =>
        if state.Issuing? {
          IssueKeepsChains(w, c, state.identity, state.stamp);
        }
      case RotateGet(_) =>
        if state.RotateUnreplayed? {
          RotateGetKeepsChains(w, c, state.request);
        }
      case RotateStamp(_) =>
        if state.RotateLoaded? {
          RotateStampKeepsChains(w, c, state.request, state.predecessor);
        }
      case RotateCommit(_) =>
        if state.RotateStamped? {
          RotateCommitKeepsChains(w, c, state.request, state.predecessor, state.successor, state.stamp);
        }
      case RotateReload(_) =>
        if state.RotateLost? {
          RotateReadsKeepChains(w, c, state.request);
        }
      case RevokeCommit(_) =>
        if state.Revoking? {
          UpdateKeepsChains(w, c, state.credential, state.at, Revoke(state.credential, state.at), state.expected, Finished);
        }
      case _ =>
    }
  }

  lemma TokensKeepChains(w: World, a: Action, state: Call)
    requires Chained(w) && CallOk(w, state)
    ensures var v := ContinueTokens(w, a, state); Chained(v) && Moves(w, v)
  {
    hide Chained, StoreOk, Moves, Coherent, DoUpdate, MarkUsed, EntitlementAdmits, CredentialAdmits;
    var c := a.call;
    NothingMoves(w);
    FinishKeepsChains(w, c);
    match a {
      case ExchangeEntitlement(_, at) =>
        if state.Exchanging? {
          MoveKeepsChains(w, c, ExchangeEntitled(state.credential, state.scopes, state.credential.identity.epoch, at));
        }
      case ExchangeMark(_) =>
        if state.ExchangeEntitled? {
          UpdateKeepsChains(w, c, state.credential, state.at, MarkUsed(state.credential, state.at), state.credential.version,
                            ExchangeMarked(state.credential.identity.id, state.scopes, state.epoch));
        }
      case ExchangeRecheck(_, at) =>
        if state.ExchangeMarked? {
          MoveKeepsChains(w, c, ExchangeRechecked(state.id, state.scopes, state.epoch));
        }
      case ExchangeToken(_, jti, at) =>
        if state.ExchangeRechecked? {
          var tokens := w.tokens + {Token(jti, state.id, state.scopes, state.epoch)};
          ChainedStore(w, c);
          TokensOk(w, tokens);
          StepKeepsChains(w, w.(tokens := tokens), c, Finished);
        }
      case AcceptEntitlement(_) =>
        if state.Accepting? {
          MoveKeepsChains(w, c, Accepted(state.token, |w.log|));
        }
      case _ =>
    }
  }

  lemma ExecKeepsChains(w: World, a: Action)
    requires Chained(w)
    ensures Chained(Exec(w, a)) && Moves(w, Exec(w, a))
  {
    hide Chained, Moves, CallOk, Start, ContinueWrites, ContinueTokens;
    ChainedStore(w, a.call);
    if a.call !in w.calls {
      StartKeepsChains(w, a);
    } else {
      WritesKeepChains(w, a, w.calls[a.call]);
      TokensKeepChains(w, a, w.calls[a.call]);
    }
  }

  lemma {:induction false} RunKeepsChains(w: World, actions: seq<Action>)
    requires Chained(w)
    ensures Chained(Run(w, actions)) && Moves(w, Run(w, actions))
  {
    hide Chained, Moves, Exec;
    if actions == [] {
      NothingMoves(w);
    } else {
      var k := |actions| - 1;
      RunKeepsChains(w, actions[..k]);
      ExecKeepsChains(Run(w, actions[..k]), actions[k]);
      MovesTransitive(w, Run(w, actions[..k]), Run(w, actions));
    }
  }

  lemma InitChained(resolver: bool, seller: Id)
    ensures Chained(Init(resolver, seller))
  {
  }

  // ---- chains ----

  function Successor(w: World, id: Id): Option<Id> {
    if id in w.credentials then w.credentials[id].replacedBy else None
  }

  // A run of successors.
  predicate IsChain(w: World, chain: seq<Id>) {
    && (forall i :: 0 <= i < |chain| ==> chain[i] in w.credentials)
    && (forall i :: 0 <= i < |chain| - 1 ==> Successor(w, chain[i]) == Some(chain[i + 1]))
  }

  predicate IsRoot(w: World, id: Id) {
    forall p :: p in w.credentials ==> Successor(w, p) != Some(id)
  }

  lemma {:induction false} BirthsAscend(w: World, chain: seq<Id>, i: nat, j: nat)
    requires StoreOk(w) && IsChain(w, chain) && i < j < |chain|
    ensures chain[i] in w.births && chain[j] in w.births && w.births[chain[i]] < w.births[chain[j]]
  {
    hide OnePredecessor, ReplayOk;
    if i < j - 1 {
      BirthsAscend(w, chain, i, j - 1);
    }
    assert CredentialOk(w, chain[j - 1]) && Successor(w, chain[j - 1]) == Some(chain[j]);
  }

  lemma {:induction false} ChainsMeetAtRoots(w: World, p: seq<Id>, q: seq<Id>, i: nat, j: nat)
    requires StoreOk(w) && IsChain(w, p) && IsChain(w, q) && i < |p| && j < |q| && p[i] == q[j]
    requires IsRoot(w, p[0]) && IsRoot(w, q[0])
    ensures p[0] == q[0]
    decreases i
  {
    hide CredentialOk, ReplayOk;
    if i > 0 {
      assert Successor(w, p[i - 1]) == Some(p[i]);
    }
    if j > 0 {
      assert Successor(w, q[j - 1]) == Some(q[j]);
      if i > 0 {
        ChainsMeetAtRoots(w, p, q, i - 1, j - 1);
      }
    }
  }

  // In every run: following successors never returns, every member but the last is
  // revoked, and two chains that share a credential start at the same one.
  lemma RotationsFormChains(resolver: bool, seller: Id, actions: seq<Action>, p: seq<Id>)
    requires IsChain(Run(Init(resolver, seller), actions), p)
    ensures var w := Run(Init(resolver, seller), actions);
            && (forall i, j :: 0 <= i < j < |p| ==> p[i] != p[j])
            && (forall i :: 0 <= i < |p| - 1 ==> w.credentials[p[i]].revokedAt.Some?)
            && (forall q, i, j ::
                  (IsChain(w, q) && 0 <= i < |p| && 0 <= j < |q| && p[i] == q[j] && IsRoot(w, p[0]) && IsRoot(w, q[0]))
                  ==> p[0] == q[0])
  {
    hide Run, OnePredecessor, ReplayOk;
    var w := Run(Init(resolver, seller), actions);
    InitChained(resolver, seller);
    RunKeepsChains(Init(resolver, seller), actions);
    forall i, j | 0 <= i < j < |p| ensures p[i] != p[j] {
      BirthsAscend(w, p, i, j);
    }
    forall i | 0 <= i < |p| - 1 ensures w.credentials[p[i]].revokedAt.Some? {
      assert CredentialOk(w, p[i]) && Successor(w, p[i]) == Some(p[i + 1]);
    }
    forall q, i, j | IsChain(w, q) && 0 <= i < |p| && 0 <= j < |q| && p[i] == q[j] && IsRoot(w, p[0]) && IsRoot(w, q[0])
      ensures p[0] == q[0]
    {
      ChainsMeetAtRoots(w, p, q, i, j);
    }
  }

  // A credential gets at most one successor, ever: once replaced, its record is final.
  lemma SuccessorIsFinal(resolver: bool, seller: Id, before: seq<Action>, after: seq<Action>, id: Id)
    requires var w := Run(Init(resolver, seller), before); id in w.credentials && w.credentials[id].replacedBy.Some?
    ensures var w, v := Run(Init(resolver, seller), before), Run(Init(resolver, seller), before + after);
            id in v.credentials && v.credentials[id] == w.credentials[id]
  {
    hide Run, OnePredecessor, ReplayOk;
    var start := Init(resolver, seller);
    InitChained(resolver, seller);
    RunKeepsChains(start, before);
    RunConcat(start, before, after);
    RunKeepsChains(Run(start, before), after);
    assert CredentialOk(Run(start, before), id);
    assert Advances(Run(start, before).credentials[id], Run(start, before + after).credentials[id]);
  }

  // ---- replays ----

  // Once a rotation is recorded under a key, every later call with that key is answered
  // from the record: another body is refused, the same body gets the same rotation inside
  // the window and the successor's name after it. The recorded token is the secret stored
  // for the successor, then and ever after.
  lemma RetryIsAnsweredFromRecord(resolver: bool, seller: Id, before: seq<Action>, after: seq<Action>, c: nat, request: RotateRequest)
    requires request.key in Run(Init(resolver, seller), before).replays
    requires var v := Run(Init(resolver, seller), before + after); c !in v.calls || v.calls[c] == RotateLost(request)
    ensures var w, v := Run(Init(resolver, seller), before), Run(Init(resolver, seller), before + after);
            var replay := w.replays[request.key];
            var answer := Exec(v, if c in v.calls then RotateReload(c) else RotateLoad(c, request));
            && c in answer.calls
            && answer.calls[c] ==
               if replay.body != request.body then RotationRefused(IdempotencyConflict)
               else if request.now < replay.expiresAt then RotationReturned(request.key, request.body, replay.rotation)
               else RotationRefused(NoLongerRecoverable(replay.rotation.successor.identity.id))
    ensures var v := Run(Init(resolver, seller), before + after);
            var rotation := Run(Init(resolver, seller), before).replays[request.key].rotation;
            rotation.successor.identity.id in v.credentials
            && v.credentials[rotation.successor.identity.id].identity.secret == rotation.token
  {
    hide Run, StoreOk;
    var start := Init(resolver, seller);
    InitChained(resolver, seller);
    RunKeepsChains(start, before);
    RunConcat(start, before, after);
    RunKeepsChains(Run(start, before), after);
    RecordedToken(Run(start, before + after), request.key);
  }

  lemma RecordedToken(w: World, key: ReplayKey)
    requires Chained(w) && key in w.replays
    ensures var r := w.replays[key].rotation;
            r.successor.identity.id in w.credentials && w.credentials[r.successor.identity.id].identity.secret == r.token
  {
    hide CredentialOk, OnePredecessor, CallOk;
    assert ReplayOk(w, key, w.replays[key]);
  }

  // All calls that ever return a rotation under one key return the same rotation for the
  // same body, and that rotation is in force: its predecessor is revoked in favour of its
  // successor, and its token is the secret stored for the successor.
  lemma OneRotationPerKey(resolver: bool, seller: Id, actions: seq<Action>, c: nat, d: nat)
    requires var w := Run(Init(resolver, seller), actions);
             && c in w.calls && d in w.calls && w.calls[c].RotationReturned? && w.calls[d].RotationReturned?
             && w.calls[c].key == w.calls[d].key
    ensures var w := Run(Init(resolver, seller), actions); var r := w.calls[c].rotation;
            && w.calls[c] == w.calls[d]
            && r.predecessor.identity.id in w.credentials && w.credentials[r.predecessor.identity.id] == r.predecessor
            && r.predecessor.identity.id == w.calls[c].key.credential
            && r.predecessor.revokedAt.Some? && r.predecessor.replacedBy == Some(r.successor.identity.id)
            && r.successor.identity.id in w.credentials
            && w.credentials[r.successor.identity.id].identity == r.successor.identity
            && r.token == w.credentials[r.successor.identity.id].identity.secret
  {
    hide Run, OnePredecessor, CredentialOk;
    var w := Run(Init(resolver, seller), actions);
    InitChained(resolver, seller);
    RunKeepsChains(Init(resolver, seller), actions);
    assert CallOk(w, w.calls[c]) && CallOk(w, w.calls[d]);
    assert ReplayOk(w, w.calls[c].key, w.replays[w.calls[c].key]);
  }
}
