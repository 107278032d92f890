// One seller's whole history as interleaved steps: reconciliations of the entitlement,
// issuing, rotating and revoking credentials, exchanging them for access tokens, and
// accepting those tokens. Every read, decision, conditional write and re-read is its own
// step, so any number of calls may run between two steps of another.
module SellerHistory {
  import opened Foundations
  import opened Entitlement
  import opened EntitlementStore
  import opened Credentials

  const REPLAY_WINDOW: int := 10 * MINUTE

  // The replay scope names the owner, the seller and the credential; the seller is fixed here.
  datatype ReplayKey = ReplayKey(owner: string, credential: Id, key: string)
  datatype Rotation = Rotation(predecessor: Snapshot, successor: Snapshot, token: string, secretReplayExpiresAt: Time)
  datatype Replay = Replay(body: string, rotation: Rotation, expiresAt: Time)

  // successor and token are what the identifier and token generators will return.
  datatype RotateRequest = RotateRequest(
    key: ReplayKey, body: string, expectedVersion: nat, name: string, scopes: seq<Scope>, expiresAt: Option<Time>,
    successor: Id, token: string, now: Time)

  datatype Token = Token(jti: Id, credential: Id, scopes: seq<Scope>, epoch: nat)

  datatype RotationRefusal = IdempotencyConflict | NoLongerRecoverable(successor: Id) | ConditionFailed | AlreadyRevoked | OtherError

  // How far each call has come.
  datatype Call =
    | Reconciling(snapshot: Option<SellerEntitlement>, seen: nat)
    | Issuing(identity: Identity, stamp: nat)
    | RotateUnreplayed(request: RotateRequest)
    | RotateLoaded(request: RotateRequest, predecessor: Snapshot)
    | RotateStamped(request: RotateRequest, predecessor: Snapshot, successor: Snapshot, stamp: nat)
    | RotateLost(request: RotateRequest)
    | Revoking(credential: Snapshot, expected: nat, at: Time)
    | Exchanging(credential: Snapshot, scopes: seq<Scope>)
    | ExchangeEntitled(credential: Snapshot, scopes: seq<Scope>, epoch: nat, at: Time)
    | ExchangeMarked(id: Id, scopes: seq<Scope>, epoch: nat)
    | ExchangeRechecked(id: Id, scopes: seq<Scope>, epoch: nat)
    | Accepting(token: Token, at: Time)
    | Accepted(token: Token, seen: nat)
    | RotationReturned(key: ReplayKey, body: string, rotation: Rotation)
    | RotationRefused(refusal: RotationRefusal)
    | Finished

  // What a caller asked for: scopes for a credential, presenting a secret; or a rotation.
  datatype Ask = ExchangeAsk(id: Id, secret: string, scopes: seq<Scope>) | RotateAsk(request: RotateRequest)

  // resolver says whether the entitlement resolver is wired. stamps records, for each
  // credential, how many entitlement versions were stored when its epoch was read, and
  // births the order of creation; asked holds what every exchange and every rotation asked
  // for. These only serve to state properties.
  datatype World = World(
    resolver: bool, seller: Id, log: seq<SellerEntitlement>, credentials: map<Id, Snapshot>,
    stamps: map<Id, nat>, births: map<Id, nat>, created: nat,
    replays: map<ReplayKey, Replay>, tokens: set<Token>, asked: set<Ask>, calls: map<nat, Call>)

  function Init(resolver: bool, seller: Id): World {
    World(resolver, seller, [], map[], map[], map[], 0, map[], {}, {}, map[])
  }

  datatype Action =
    | ReconcileRead(call: nat)
    | ReconcileCommit(call: nat, candidate: Candidate, at: Time)
    | IssueRead(call: nat, identity: Identity)
    | IssueCommit(call: nat)
    | RotateLoad(call: nat, request: RotateRequest)
    | RotateGet(call: nat)
    | RotateStamp(call: nat)
    | RotateCommit(call: nat)
    | RotateReload(call: nat)
    | RevokeRead(call: nat, id: Id, expected: nat, at: Time)
    | RevokeCommit(call: nat)
    | ExchangeRead(call: nat, id: Id, scopes: seq<Scope>, at: Time, presented: string)
    | ExchangeEntitlement(call: nat, at: Time)
    | ExchangeMark(call: nat)
    | ExchangeRecheck(call: nat, at: Time)
    | ExchangeToken(call: nat, jti: Id, at: Time)
    | AcceptRead(call: nat, token: Token, at: Time)
    | AcceptEntitlement(call: nat)

  // ---- the decisions ----

  predicate ActiveAt(e: SellerEntitlement, now: Time) {
    e.terms.status == Active && now < e.terms.accessEndsAt
  }

  // credentialIssuanceEpoch
  function IssuanceEpoch(resolver: bool, stored: Option<SellerEntitlement>, now: Time): Option<nat> {
    if !resolver then Some(1)
    else if stored.Some? && ActiveAt(stored.value, now) then Some(stored.value.epoch)
    else None
  }

  // authorizeCurrentEntitlement, and the entitlement half of authorizeCurrentCapabilityState
  predicate EntitlementAdmits(stored: Option<SellerEntitlement>, epoch: nat, now: Time) {
    stored.Some? && ActiveAt(stored.value, now) && epoch != 0 && stored.value.epoch == epoch
  }

  predicate Unexpired(c: Snapshot, now: Time) {
    c.identity.expiresAt.Some? ==> now < c.identity.expiresAt.value
  }

  predicate ExchangeScopes(scopes: seq<Scope>, granted: seq<Scope>) {
    && ValidScopes(scopes) && RotateScope !in scopes
    && forall s :: s in scopes ==> s in granted
  }

  // The credential half of authorizeCurrentCapabilityState
  predicate CredentialAdmits(credentials: map<Id, Snapshot>, id: Id, scopes: seq<Scope>, epoch: nat, now: Time) {
    && id in credentials
    && var c := credentials[id];
    && c.revokedAt.None? && c.identity.epoch == epoch && Unexpired(c, now)
    && forall s :: s in scopes ==> s in c.identity.scopes
  }

  // replayCredentialRotation
  function ReplayOutcome(replay: Replay, request: RotateRequest): Call {
    if replay.body != request.body then RotationRefused(IdempotencyConflict)
    else if request.now >= replay.expiresAt then
      RotationRefused(NoLongerRecoverable(replay.rotation.successor.identity.id))
    else RotationReturned(request.key, request.body, replay.rotation)
  }

  function SuccessorIdentity(seller: Id, request: RotateRequest, predecessor: Snapshot, epoch: nat): Identity {
    var name := TrimSpace(request.name);
    Identity(request.successor, seller,
             if name == [] then predecessor.identity.name else name,
             if request.scopes == [] then predecessor.identity.scopes else request.scopes,
             epoch,
             if request.expiresAt.None? then predecessor.identity.expiresAt else request.expiresAt,
             request.now, request.token)
  }

  // ---- the steps ----

  function To(w: World, call: nat, state: Call): World { w.(calls := w.calls[call := state]) }

  function DoReconcileCommit(w: World, call: nat, snapshot: Option<SellerEntitlement>, candidate: Candidate, at: Time): World {
    if candidate.sellerId != w.seller then w
    else match ReconcileWrite(w.log, snapshot, candidate, at)
      case Written(e) => To(w.(log := w.log + [e]), call, Finished)
      case _ => To(w, call, Finished)
  }

  function Insert(w: World, c: Snapshot, stamp: nat): World {
    w.(credentials := w.credentials[c.identity.id := c], stamps := w.stamps[c.identity.id := stamp],
       births := w.births[c.identity.id := w.created], created := w.created + 1)
  }

  function DoIssueRead(w: World, call: nat, identity: Identity): World {
    match IssuanceEpoch(w.resolver, Stored(w.log), identity.createdAt)
    case None => To(w, call, Finished)
    case Some(epoch) => To(w, call, Issuing(identity.(epoch := epoch, sellerId := w.seller), |w.log|))
  }

  function DoIssueCommit(w: World, call: nat, identity: Identity, stamp: nat): World {
    match NewCredential(identity)
    case Err(_) => To(w, call, Finished)
    case Ok(c) =>
      if c.identity.id in w.credentials then To(w, call, Finished)
      else To(Insert(w, c, stamp), call, Finished)
  }

  function Asking(w: World, ask: Ask): World { w.(asked := w.asked + {ask}) }

  function DoRotateLoad(w: World, call: nat, request: RotateRequest): World {
    To(Asking(w, RotateAsk(request)), call,
       if request.key in w.replays then ReplayOutcome(w.replays[request.key], request) else RotateUnreplayed(request))
  }

  // The predecessor as Rotate finds it.
  function GetOutcome(credentials: map<Id, Snapshot>, request: RotateRequest): Call {
    var id := request.key.credential;
    if id !in credentials then RotationRefused(OtherError)
    else if credentials[id].version != request.expectedVersion then RotationRefused(ConditionFailed)
    else if credentials[id].revokedAt.None? then RotateLoaded(request, credentials[id])
    else if credentials[id].replacedBy.Some? then RotationRefused(NoLongerRecoverable(credentials[id].replacedBy.value))
    else RotationRefused(AlreadyRevoked)
  }

  function DoRotateStamp(w: World, call: nat, request: RotateRequest, predecessor: Snapshot): World {
    match IssuanceEpoch(w.resolver, Stored(w.log), request.now)
    case None => To(w, call, RotationRefused(OtherError))
    case Some(epoch) =>
      match NewCredential(SuccessorIdentity(w.seller, request, predecessor, epoch))
      case Err(_) => To(w, call, RotationRefused(OtherError))
      case Ok(successor) =>
        if Replace(predecessor, request.successor, request.now).Err? then To(w, call, RotationRefused(OtherError))
        else To(w, call, RotateStamped(request, predecessor, successor, |w.log|))
  }

  // The conditions of the repository's Rotate: ConditionFailed sends the caller back to the replays.
  function DoRotateCommit(w: World, call: nat, request: RotateRequest, predecessor: Snapshot, successor: Snapshot, stamp: nat): World {
    match Replace(predecessor, request.successor, request.now)
    case Err(_) => To(w, call, RotationRefused(OtherError))
    case Ok(replaced) =>
      if !UpdateAccepts(w.credentials, replaced, request.expectedVersion) then To(w, call, RotateLost(request))
      else if successor.identity.id in w.credentials then To(w, call, RotationRefused(OtherError))
      else if request.key in w.replays then To(w, call, RotateLost(request))
      else
        To(CommitRotation(w, request, replaced, successor, stamp), call,
           RotationReturned(request.key, request.body, RotationOf(request, replaced, successor)))
  }

  function RotationOf(request: RotateRequest, replaced: Snapshot, successor: Snapshot): Rotation {
    Rotation(replaced, successor, request.token, request.now + REPLAY_WINDOW)
  }

  // The predecessor is revoked, its successor created and the replay recorded in one write.
  function CommitRotation(w: World, request: RotateRequest, replaced: Snapshot, successor: Snapshot, stamp: nat): World {
    var rotation := RotationOf(request, replaced, successor);
    var w1 := w.(credentials := w.credentials[replaced.identity.id := replaced],
                 replays := w.replays[request.key := Replay(request.body, rotation, rotation.secretReplayExpiresAt)]);
    Insert(w1, successor, stamp)
  }

  function DoRotateReload(w: World, call: nat, request: RotateRequest): World {
    if request.key in w.replays then To(w, call, ReplayOutcome(w.replays[request.key], request))
    else To(w, call, RotationRefused(ConditionFailed))
  }

  // A conditional write of one updated credential.
  function DoUpdate(w: World, call: nat, updated: Result<Snapshot, CredentialError>, expected: nat, next: Call): World {
    match updated
    case Err(_) => To(w, call, Finished)
    case Ok(c) =>
      if UpdateAccepts(w.credentials, c, expected)
      then To(w.(credentials := w.credentials[c.identity.id := c]), call, next)
      else To(w, call, Finished)
  }

  // authenticateCredential and the checks before the entitlement is read
  predicate ExchangeAdmits(w: World, id: Id, scopes: seq<Scope>, at: Time, presented: string) {
    && w.resolver && id in w.credentials && w.credentials[id].identity.secret == presented
    && w.credentials[id].revokedAt.None? && Unexpired(w.credentials[id], at)
    && ExchangeScopes(scopes, w.credentials[id].identity.scopes)
  }

  function DoExchangeRead(w: World, call: nat, id: Id, scopes: seq<Scope>, at: Time, presented: string): World {
    To(Asking(w, ExchangeAsk(id, presented, scopes)), call,
       if ExchangeAdmits(w, id, scopes, at, presented) then Exchanging(w.credentials[id], scopes) else Finished)
  }

  // The first step of a call.
  function Start(w: World, a: Action): World {
    match a
    case ReconcileRead(c) => To(w, c, Reconciling(Stored(w.log), |w.log|))
    case IssueRead(c, identity) => DoIssueRead(w, c, identity)
    case RotateLoad(c, request) => DoRotateLoad(w, c, request)
    case RevokeRead(c, id, expected, at) =>
      if id in w.credentials then To(w, c, Revoking(w.credentials[id], expected, at)) else w
    case ExchangeRead(c, id, scopes, at, presented) => DoExchangeRead(w, c, id, scopes, at, presented)
    case AcceptRead(c, token, at) =>
      if token in w.tokens && CredentialAdmits(w.credentials, token.credential, token.scopes, token.epoch, at)
      then To(w, c, Accepting(token, at)) else To(w, c, Finished)
    case _ => w
  }

  // The next step of a call that writes the entitlement or credentials.
  function ContinueWrites(w: World, a: Action, state: Call): World {
    match a
    case ReconcileCommit(c, candidate, at) =>
      if state.Reconciling? then DoReconcileCommit(w, c, state.snapshot, candidate, at) else w
    case IssueCommit(c) => if state.Issuing? then DoIssueCommit(w, c, state.identity, state.stamp) else w
    case RotateGet(c) => if state.RotateUnreplayed? then To(w, c, GetOutcome(w.credentials, state.request)) else w
    case RotateStamp(c) => if state.RotateLoaded? then DoRotateStamp(w, c, state.request, state.predecessor) else w
    case RotateCommit(c) =>
      if state.RotateStamped? then DoRotateCommit(w, c, state.request, state.predecessor, state.successor, state.stamp) else w
    case RotateReload(c) => if state.RotateLost? then DoRotateReload(w, c, state.request) else w
    case RevokeCommit(c) =>
      if state.Revoking? then DoUpdate(w, c, Revoke(state.credential, state.at), state.expected, Finished) else w
    case _ => w
  }

  // The next step of a call that exchanges a credential or accepts a token.
  function ContinueTokens(w: World, a: Action, state: Call): World {
    match a
    case ExchangeEntitlement(c, at) =>
      if !state.Exchanging? then w
      else if EntitlementAdmits(Stored(w.log), state.credential.identity.epoch, at)
      then To(w, c, ExchangeEntitled(state.credential, state.scopes, state.credential.identity.epoch, at))
      else To(w, c, Finished)
    case ExchangeMark(c) =>
      if !state.ExchangeEntitled? then w
      else DoUpdate(w, c, MarkUsed(state.credential, state.at), state.credential.version,
                    ExchangeMarked(state.credential.identity.id, state.scopes, state.epoch))
    case ExchangeRecheck(c, at) =>
      if !state.ExchangeMarked? then w
      else if CredentialAdmits(w.credentials, state.id, state.scopes, state.epoch, at)
      then To(w, c, ExchangeRechecked(state.id, state.scopes, state.epoch)) else To(w, c, Finished)
    case ExchangeToken(c, jti, at) =>
      if !state.ExchangeRechecked? then w
      else if EntitlementAdmits(Stored(w.log), state.epoch, at)
      then To(w.(tokens := w.tokens + {Token(jti, state.id, state.scopes, state.epoch)}), c, Finished)
      else To(w, c, Finished)
    case AcceptEntitlement(c) =>
      if !state.Accepting? then w
      else if EntitlementAdmits(Stored(w.log), state.token.epoch, state.at)
      then To(w, c, Accepted(state.token, |w.log|)) else To(w, c, Finished)
    case _ => w
  }

  predicate TouchesTokens(a: Action) {
    a.ExchangeEntitlement? || a.ExchangeMark? || a.ExchangeRecheck? || a.ExchangeToken? || a.AcceptEntitlement?
  }

  function Exec(w: World, a: Action): World {
    if a.call !in w.calls then Start(w, a)
    else if TouchesTokens(a) then ContinueTokens(w, a, w.calls[a.call])
    else ContinueWrites(w, a, w.calls[a.call])
  }

  function Run(w: World, actions: seq<Action>): World {
    if actions == [] then w else Exec(Run(w, actions[..|actions| - 1]), actions[|actions| - 1])
  }

  lemma {:induction false} RunConcat(w: World, a: seq<Action>, b: seq<Action>)
    ensures Run(Run(w, a), b) == Run(w, a + b)
  {
    hide Exec;
    if b == [] {
      assert a + b == a;
    } else {
      var k := |b| - 1;
      RunConcat(w, a, b[..k]);
      assert (a + b)[..|a + b| - 1] == a + b[..k] && (a + b)[|a + b| - 1] == b[k];
    }
  }
}
