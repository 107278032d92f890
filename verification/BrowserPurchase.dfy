// Browser purchase sessions (internal/browserpurchase/service.go over
// internal/persistence/memory/browser_purchase_sessions.go): claiming the one
// transaction, completing, and wallet-proved recovery, with every read and every
// conditional write a separate step, for any number of sessions and callers.
module BrowserPurchase {
  import opened Foundations

  const COMMERCE_LIFETIME: int := 10 * MINUTE
  const CHALLENGE_LIFETIME: int := 5 * MINUTE
  const REMEDIATION_LIFETIME: int := 30 * 24 * HOUR

  datatype SessionId = SessionId(body: string)
  datatype ChallengeId = ChallengeId(body: string)

  // Secrets stand for their own hashes, and a wallet for its binding hash.
  type Secret = string
  datatype Wallet = Wallet(network: string, address: string)

  datatype Status = Active | Completed | Expired | Revoked

  datatype Facts = Facts(seller: Id, route: Id, productSlug: string, requestBodyHash: string, maximumAmount: nat)

  datatype Session = Session(
    id: SessionId, facts: Facts, grant: Secret, wallet: Option<Wallet>, transaction: Option<Id>, status: Status,
    commerceExpiresAt: Time, accessExpiresAt: Time, createdAt: Time, updatedAt: Time)

  // The text the wallet signs; it determines every part.
  datatype Message = Message(session: SessionId, challenge: ChallengeId, wallet: Wallet, nonce: Secret, expiresAt: Time)

  // A proof is a signature: it verifies for one wallet and one message.
  datatype Proof = Proof(signer: Wallet, text: Message)

  datatype Challenge = Challenge(
    id: ChallengeId, session: SessionId, expectedWallet: Wallet, wallet: Wallet, nonce: Secret, message: Message,
    expiresAt: Time, usedAt: Option<Time>)

  datatype Outcome =
    | Claimed(transaction: Id) | Finished(transaction: Id, wallet: Wallet) | Challenged | Recovered(grant: Secret)
    | NotFound | AlreadyExists | Invalid | CommerceConsumed | CommerceExpired | AccessExpired | WalletNotBound
    | WalletMismatch | ChallengeConsumed | ChallengeExpired | ProofInvalid

  datatype Call =
    | Claiming(session: SessionId, claim: Id)
    | Completing(updated: Session)
    | Challenging(read: Session, requested: Wallet)
    | RecoverRead(read: Session, challenge: ChallengeId, requested: Wallet, proof: Proof)
    | Recovering(updated: Session, previous: Secret, spent: Challenge, proof: Proof)
    | Done(session: SessionId, outcome: Outcome)

  // A committed recovery and the proof its caller presented.
  datatype Recovery = Recovery(session: SessionId, challenge: ChallengeId, previous: Secret, next: Secret, proof: Proof)

  datatype World = World(
    sessions: map<SessionId, Session>, index: map<Secret, SessionId>, challenges: map<ChallengeId, Challenge>,
    calls: map<nat, Call>, tokens: set<Secret>, recoveries: seq<Recovery>)

  const START := World(map[], map[], map[], map[], {}, [])

  // A token argument is what the generator returned; it never repeats a value.
  datatype Action =
    | Create(id: SessionId, facts: Facts, token: Secret, now: Time)
    | ClaimGet(call: nat, id: SessionId, transaction: Id, now: Time)
    | ClaimWrite(call: nat, now: Time)
    | CompleteGet(call: nat, id: SessionId, wallet: Wallet, transaction: Id, terminalAt: Time, now: Time, later: Time)
    | CompleteWrite(call: nat)
    | ChallengeGet(call: nat, id: SessionId, wallet: Wallet, now: Time)
    | ChallengeWrite(call: nat, challenge: ChallengeId, nonce: Secret, now: Time)
    | RecoverGet(call: nat, id: SessionId, challenge: ChallengeId, wallet: Wallet, proof: Proof)
    | RecoverCheck(call: nat, token: Secret, now: Time)
    | RecoverWrite(call: nat)

  // ---- authorization ----

  datatype Authority = Commerce | Read | Remediation

  // The spelling of an amount in a requirement.
  datatype AmountText = Absent | Malformed | Canonical(amount: nat)

  datatype Requirement = Requirement(
    authority: Authority, seller: Option<Id>, route: Option<Id>, productSlug: Option<string>,
    requestBodyHash: Option<string>, transaction: Option<Id>, maximumAmount: AmountText)

  datatype Denial = InvalidGrant | GrantRevoked | GrantExpired | CommerceWasConsumed | CommerceHasExpired | BindingMismatch

  predicate Matches<T(==)>(required: Option<T>, actual: T) { required.None? || required.value == actual }

  // validateAuthorizationBinding
  predicate BindingHolds(s: Session, r: Requirement) {
    && Matches(r.seller, s.facts.seller) && Matches(r.route, s.facts.route)
    && Matches(r.productSlug, s.facts.productSlug) && Matches(r.requestBodyHash, s.facts.requestBodyHash)
    && (r.transaction.Some? ==> s.transaction == r.transaction)
    && (r.maximumAmount != Absent ==> r.maximumAmount == Canonical(s.facts.maximumAmount))
  }

  // Authorize, for an arbitrary grant index.
  function Authorize(
    index: map<Secret, SessionId>, sessions: map<SessionId, Session>, grant: Secret, r: Requirement, now: Time
  ): Result<Session, Denial>
  {
    if |grant| < 32 || |grant| > 256 || grant !in index || index[grant] !in sessions then Err(InvalidGrant) else
    var s := sessions[index[grant]];
    if s.grant != grant then Err(InvalidGrant)
    else if s.status == Revoked then Err(GrantRevoked)
    else if s.status == Expired then Err(GrantExpired)
    else if r.authority == Commerce && s.status != Active then Err(CommerceWasConsumed)
    else if r.authority == Commerce && now >= s.commerceExpiresAt then Err(CommerceHasExpired)
    else if r.authority != Commerce && now >= s.accessExpiresAt then Err(GrantExpired)
    else if !BindingHolds(s, r) then Err(BindingMismatch)
    else Ok(s)
  }

  // ---- the steps ----

  function To(w: World, call: nat, state: Call): World { w.(calls := w.calls[call := state]) }

  function DoCreate(w: World, id: SessionId, facts: Facts, token: Secret, now: Time): World {
    if token in w.tokens then w
    else if id in w.sessions || token in w.index then w.(tokens := w.tokens + {token})
    else
      var expiry := now + COMMERCE_LIFETIME;
      w.(sessions := w.sessions[id := Session(id, facts, token, None, None, Active, expiry, expiry, now, now)],
         index := w.index[token := id], tokens := w.tokens + {token})
  }

  // ClaimTransaction up to the repository call
  function ClaimDecide(w: World, id: SessionId, transaction: Id, now: Time): Call {
    if transaction.prefix != TransactionIds then Done(id, Invalid)
    else if id !in w.sessions then Done(id, NotFound)
    else if w.sessions[id].status != Active then Done(id, CommerceConsumed)
    else if now >= w.sessions[id].commerceExpiresAt then Done(id, CommerceExpired)
    else Claiming(id, transaction)
  }

  function DoClaimWrite(w: World, c: nat, id: SessionId, transaction: Id, now: Time): World {
    if id !in w.sessions then To(w, c, Done(id, NotFound)) else
    var s := w.sessions[id];
    if s.status != Active then To(w, c, Done(id, CommerceConsumed))
    else if s.transaction.Some? then
      To(w, c, Done(id, if s.transaction.value == transaction then Claimed(transaction) else CommerceConsumed))
    else
      var claimed := s.(transaction := Some(transaction), updatedAt := now);
      To(w.(sessions := w.sessions[id := claimed]), c, Done(id, Claimed(transaction)))
  }

  // Complete up to its conditional write
  function CompleteDecide(w: World, id: SessionId, wallet: Wallet, transaction: Id, terminalAt: Time, now: Time, later: Time): Call {
    if transaction.prefix != TransactionIds then Done(id, Invalid)
    else if id !in w.sessions then Done(id, NotFound)
    else
      var s := w.sessions[id];
      if s.status == Completed then
        Done(id, if s.transaction == Some(transaction) && s.wallet == Some(wallet) then Finished(transaction, wallet) else CommerceConsumed)
      else if s.status != Active || (s.transaction.Some? && s.transaction.value != transaction) then Done(id, CommerceConsumed)
      else if now >= s.commerceExpiresAt then Done(id, CommerceExpired)
      else if terminalAt == ZERO_TIME || terminalAt < s.createdAt || terminalAt > later then Done(id, Invalid)
      else Completing(s.(
        wallet := Some(wallet), transaction := Some(transaction), status := Completed,
        accessExpiresAt := terminalAt + REMEDIATION_LIFETIME, updatedAt := later))
  }

  predicate CompleteAccepts(stored: Session, updated: Session) {
    && stored.status == Active && (stored.transaction.Some? ==> stored.transaction == updated.transaction)
    && updated.status == Completed && updated.transaction.Some? && updated.wallet.Some?
  }

  function DoCompleteWrite(w: World, c: nat, updated: Session): World {
    if updated.id !in w.sessions then To(w, c, Done(updated.id, NotFound))
    else if updated.transaction.Some? && updated.wallet.Some? && CompleteAccepts(w.sessions[updated.id], updated) then
      To(w.(sessions := w.sessions[updated.id := updated]), c,
         Done(updated.id, Finished(updated.transaction.value, updated.wallet.value)))
    else To(w, c, Done(updated.id, CommerceConsumed))
  }

  // CreateRecoveryChallenge
  function ChallengeDecide(w: World, id: SessionId, wallet: Wallet, now: Time): Call {
    if id !in w.sessions then Done(id, NotFound)
    else
      var s := w.sessions[id];
      if s.status != Completed || s.wallet.None? || s.transaction.None? then Done(id, WalletNotBound)
      else if now >= s.accessExpiresAt then Done(id, AccessExpired)
      else if s.wallet.value != wallet then Done(id, WalletMismatch)
      else Challenging(s, wallet)
  }

  function NewChallenge(s: Session, wallet: Wallet, id: ChallengeId, nonce: Secret, now: Time): Challenge {
    var expiry := if s.accessExpiresAt < now + CHALLENGE_LIFETIME then s.accessExpiresAt else now + CHALLENGE_LIFETIME;
    Challenge(id, s.id, wallet, wallet, nonce, Message(s.id, id, wallet, nonce, expiry), expiry, None)
  }

  function DoChallengeWrite(w: World, c: nat, read: Session, wallet: Wallet, id: ChallengeId, nonce: Secret, now: Time): World {
    if nonce in w.tokens then w else
    var u := w.(tokens := w.tokens + {nonce});
    if read.id !in w.sessions then To(u, c, Done(read.id, NotFound))
    else if id in w.challenges then To(u, c, Done(read.id, AlreadyExists))
    else To(u.(challenges := w.challenges[id := NewChallenge(read, wallet, id, nonce, now)]), c, Done(read.id, Challenged))
  }

  // Recover between its two reads and its conditional write
  function RecoverDecide(w: World, s: Session, challenge: ChallengeId, wallet: Wallet, proof: Proof, token: Secret, now: Time): Call {
    if challenge !in w.challenges || w.challenges[challenge].session != s.id then Done(s.id, NotFound)
    else
      var ch := w.challenges[challenge];
      var text := Message(s.id, challenge, wallet, ch.nonce, ch.expiresAt);
      if ch.usedAt.Some? then Done(s.id, ChallengeConsumed)
      else if now >= ch.expiresAt then Done(s.id, ChallengeExpired)
      else if now >= s.accessExpiresAt then Done(s.id, AccessExpired)
      else if s.status != Completed || s.wallet.None? || s.transaction.None? then Done(s.id, WalletNotBound)
      else if wallet != ch.expectedWallet || wallet != s.wallet.value || ch.wallet != wallet then Done(s.id, WalletMismatch)
      else if ch.message != text then Done(s.id, Invalid)
      else if proof != Proof(wallet, text) then Done(s.id, ProofInvalid)
      else Recovering(s.(grant := token, updatedAt := now), s.grant, ch.(usedAt := Some(now)), proof)
  }

  function DoRecoverCheck(w: World, c: nat, call: Call, token: Secret, now: Time): World
    requires call.RecoverRead?
  {
    if token in w.tokens then w
    else To(w.(tokens := w.tokens + {token}), c,
            RecoverDecide(w, call.read, call.challenge, call.requested, call.proof, token, now))
  }

  predicate RecoverAccepts(w: World, updated: Session, previous: Secret, spent: Challenge) {
    && updated.id in w.sessions && spent.id in w.challenges
    && var stored := w.sessions[updated.id]; var ch := w.challenges[spent.id];
    && stored.grant == previous && stored.status == Completed
    && ch.session == updated.id && ch.usedAt.None? && spent.usedAt.Some?
    && ch.message == spent.message && ch.expectedWallet == spent.expectedWallet
    && (updated.grant in w.index ==> w.index[updated.grant] == updated.id)
  }

  // The committing write of a recovery.
  function Commit(w: World, u: Session, previous: Secret, spent: Challenge, proof: Proof): World {
    w.(sessions := w.sessions[u.id := u],
       index := (w.index - {previous})[u.grant := u.id],
       challenges := w.challenges[spent.id := spent],
       recoveries := w.recoveries + [Recovery(u.id, spent.id, previous, u.grant, proof)])
  }

  function DoRecoverWrite(w: World, c: nat, updated: Session, previous: Secret, spent: Challenge, proof: Proof): World {
    if updated.id !in w.sessions || spent.id !in w.challenges then To(w, c, Done(updated.id, NotFound))
    else if !RecoverAccepts(w, updated, previous, spent) then To(w, c, Done(updated.id, ChallengeConsumed))
    else
      To(Commit(w, updated, previous, spent, proof), c, Done(updated.id, Recovered(updated.grant)))
  }

  function Exec(w: World, a: Action): World {
    match a
    case Create(id, facts, token, now) => DoCreate(w, id, facts, token, now)
    case ClaimGet(c, id, transaction, now) => if c in w.calls then w else To(w, c, ClaimDecide(w, id, transaction, now))
    case ClaimWrite(c, now) =>
      if c in w.calls && w.calls[c].Claiming? then DoClaimWrite(w, c, w.calls[c].session, w.calls[c].claim, now) else w
    case CompleteGet(c, id, wallet, transaction, terminalAt, now, later) =>
      if c in w.calls then w else To(w, c, CompleteDecide(w, id, wallet, transaction, terminalAt, now, later))
    case CompleteWrite(c) =>
      if c in w.calls && w.calls[c].Completing? then DoCompleteWrite(w, c, w.calls[c].updated) else w
    case ChallengeGet(c, id, wallet, now) => if c in w.calls then w else To(w, c, ChallengeDecide(w, id, wallet, now))
    case ChallengeWrite(c, challenge, nonce, now) =>
      if c in w.calls && w.calls[c].Challenging? then
        DoChallengeWrite(w, c, w.calls[c].read, w.calls[c].requested, challenge, nonce, now)
      else w
    case RecoverGet(c, id, challenge, wallet, proof) =>
      if c in w.calls then w
      else To(w, c, if id in w.sessions then RecoverRead(w.sessions[id], challenge, wallet, proof) else Done(id, NotFound))
    case RecoverCheck(c, token, now) =>
      if c in w.calls && w.calls[c].RecoverRead? then DoRecoverCheck(w, c, w.calls[c], token, now) else w
    case RecoverWrite(c) =>
      if c in w.calls && w.calls[c].Recovering? then
        DoRecoverWrite(w, c, w.calls[c].updated, w.calls[c].previous, w.calls[c].spent, w.calls[c].proof)
      else w
  }

  function Run(w: World, actions: seq<Action>): World {
    if actions == [] then w else Exec(Run(w, actions[..|actions| - 1]), actions[|actions| - 1])
  }

  // The repository object: each method is the write of the step above it names, on the
  // object's own maps.
  class SessionRepository {
    var sessions: map<SessionId, Session>
    var grantIndex: map<Secret, SessionId>
    var challenges: map<ChallengeId, Challenge>

    constructor ()
      ensures sessions == START.sessions && grantIndex == START.index && challenges == START.challenges
    {
      sessions, grantIndex, challenges := map[], map[], map[];
    }

    // The repository as it takes part in a world.
    ghost function In(w: World): World
      reads this
    {
      w.(sessions := sessions, index := grantIndex, challenges := challenges)
    }

    method ClaimTransaction(id: SessionId, transaction: Id, now: Time, ghost w: World, ghost c: nat) returns (outcome: Outcome)
      modifies this
      ensures In(w).(calls := w.calls[c := Done(id, outcome)]) == DoClaimWrite(old(In(w)), c, id, transaction, now)
    {
      if id !in sessions {
        return NotFound;
      }
      var session := sessions[id];
      if session.status != Active {
        return CommerceConsumed;
      }
      if session.transaction.Some? {
        if session.transaction.value == transaction {
          return Claimed(transaction);
        }
        return CommerceConsumed;
      }
      session := session.(transaction := Some(transaction), updatedAt := now);
      sessions := sessions[id := session];
      return Claimed(transaction);
    }

    method Complete(updated: Session, ghost w: World, ghost c: nat) returns (outcome: Outcome)
      modifies this
      ensures In(w).(calls := w.calls[c := Done(updated.id, outcome)]) == DoCompleteWrite(old(In(w)), c, updated)
    {
      if updated.id !in sessions {
        return NotFound;
      }
      var stored := sessions[updated.id];
      if stored.status != Active || updated.transaction.None?
         || (stored.transaction.Some? && stored.transaction.value != updated.transaction.value)
         || updated.status != Completed || updated.wallet.None?
      {
        return CommerceConsumed;
      }
      sessions := sessions[updated.id := updated];
      return Finished(updated.transaction.value, updated.wallet.value);
    }

    // The repository never sees the proof: whatever the caller verified, the maps change alike.
    method Recover(updated: Session, previous: Secret, spent: Challenge, ghost w: World, ghost c: nat, ghost proof: Proof)
      returns (outcome: Outcome)
      modifies this
      ensures var v := DoRecoverWrite(old(In(w)), c, updated, previous, spent, proof);
              In(v) == v && v.calls[c] == Done(updated.id, outcome)
    {
      if updated.id !in sessions || spent.id !in challenges {
        return NotFound;
      }
      var session, challenge := sessions[updated.id], challenges[spent.id];
      if session.grant != previous || session.status != Completed || challenge.session != updated.id
         || challenge.usedAt.Some? || spent.usedAt.None? || challenge.message != spent.message
         || challenge.expectedWallet != spent.expectedWallet
      {
        return ChallengeConsumed;
      }
      if updated.grant in grantIndex && grantIndex[updated.grant] != updated.id {
        return ChallengeConsumed;
      }
      grantIndex := grantIndex - {previous};
      sessions := sessions[updated.id := updated];
      grantIndex := grantIndex[updated.grant := updated.id];
      challenges := challenges[spent.id := spent];
      return Recovered(updated.grant);
    }
  }

  // ---- what a step may do to one session, one challenge, the whole store ----

  // Everything but grant and update time is written once.
  predicate Evolves(s: Session, t: Session) {
    && t.id == s.id && t.facts == s.facts && t.createdAt == s.createdAt && t.commerceExpiresAt == s.commerceExpiresAt
    && (s.transaction.Some? ==> t.transaction == s.transaction)
    && (s.status != Active ==>
          t.status == s.status && t.wallet == s.wallet && t.transaction == s.transaction && t.accessExpiresAt == s.accessExpiresAt)
    && (t.status == Active ==> t.grant == s.grant)
  }

  predicate Spends(ch: Challenge, after: Challenge) {
    && after.(usedAt := ch.usedAt) == ch && (ch.usedAt.Some? ==> after == ch)
  }

  predicate Retired(recoveries: seq<Recovery>, grant: Secret) {
    exists k :: 0 <= k < |recoveries| && recoveries[k].previous == grant
  }

  predicate Grew(before: seq<Recovery>, after: seq<Recovery>) { |before| <= |after| && after[..|before|] == before }

  // A recovery of id was committed between the two logs.
  predicate RecoveredSince(before: seq<Recovery>, after: seq<Recovery>, id: SessionId) {
    exists k :: |before| <= k < |after| && after[k].session == id
  }

  predicate Moves(w: World, v: World) {
    && (forall id :: id in w.sessions ==> id in v.sessions && Evolves(w.sessions[id], v.sessions[id]))
    && (forall id :: id in w.challenges ==> id in v.challenges && Spends(w.challenges[id], v.challenges[id]))
    && Grew(w.recoveries, v.recoveries)
    && (forall id :: id in w.sessions && RecoveredSince(w.recoveries, v.recoveries, id) ==>
          Retired(v.recoveries, w.sessions[id].grant))
    && (forall id :: id in w.sessions && !RecoveredSince(w.recoveries, v.recoveries, id) ==>
          v.sessions[id].grant == w.sessions[id].grant)
  }

  // ---- the invariant ----

  predicate SessionOk(s: Session, id: SessionId) {
    && s.id == id && (s.status == Active || s.status == Completed)
    && (s.status == Active ==> s.wallet.None?) && (s.status == Completed ==> s.wallet.Some? && s.transaction.Some?)
    && (s.transaction.Some? ==> s.transaction.value.prefix == TransactionIds)
    && (s.status == Completed ==> s.accessExpiresAt >= s.createdAt + REMEDIATION_LIFETIME)
  }

  predicate GrantsOk(w: World) {
    && (forall id :: id in w.sessions ==>
          && w.sessions[id].grant in w.tokens && !Retired(w.recoveries, w.sessions[id].grant)
          && w.sessions[id].grant in w.index && w.index[w.sessions[id].grant] == id)
    && w.index.Keys <= w.tokens
    && (forall k :: 0 <= k < |w.recoveries| ==> w.recoveries[k].previous in w.tokens)
  }

  predicate ChallengeOk(sessions: map<SessionId, Session>, ch: Challenge, id: ChallengeId) {
    && ch.id == id && ch.session in sessions && sessions[ch.session].status == Completed
    && sessions[ch.session].wallet == Some(ch.wallet) && ch.expectedWallet == ch.wallet
    && ch.message == Message(ch.session, id, ch.wallet, ch.nonce, ch.expiresAt)
  }

  // The proof signs the challenge's own message with the session's bound wallet, and the
  // challenge was used before it and the session's access expired.
  predicate ProvedInTime(sessions: map<SessionId, Session>, ch: Challenge, proof: Proof) {
    && ch.session in sessions && sessions[ch.session].status == Completed
    && sessions[ch.session].wallet == Some(proof.signer) && proof.text == ch.message
    && ch.usedAt.Some? && ch.usedAt.value < ch.expiresAt && ch.usedAt.value < sessions[ch.session].accessExpiresAt
  }

  predicate LogOk(w: World) {
    && (forall k :: 0 <= k < |w.recoveries| ==>
          var r := w.recoveries[k];
          && r.challenge in w.challenges && ProvedInTime(w.sessions, w.challenges[r.challenge], r.proof)
          && w.challenges[r.challenge].session == r.session)
    && (forall j, k :: 0 <= j < k < |w.recoveries| ==> w.recoveries[j].challenge != w.recoveries[k].challenge)
  }

  predicate StoreOk(w: World) {
    && (forall id :: id in w.sessions ==> SessionOk(w.sessions[id], id))
    && GrantsOk(w)
    && (forall id :: id in w.challenges ==> ChallengeOk(w.sessions, w.challenges[id], id))
    && LogOk(w)
  }

  predicate CallOk(sessions: map<SessionId, Session>, challenges: map<ChallengeId, Challenge>, call: Call) {
    match call
    case Claiming(_, claim) => claim.prefix == TransactionIds
    case Completing(u) =>
      && u.status == Completed && SessionOk(u, u.id) && u.id in sessions
      && (sessions[u.id].status == Active ==>
            && u.grant == sessions[u.id].grant && u.facts == sessions[u.id].facts
            && u.createdAt == sessions[u.id].createdAt && u.commerceExpiresAt == sessions[u.id].commerceExpiresAt)
    case Challenging(read, wallet) =>
      read.id in sessions && Evolves(read, sessions[read.id]) && read.status == Completed && read.wallet == Some(wallet)
    case RecoverRead(read, _, _, _) => read.id in sessions && Evolves(read, sessions[read.id]) && SessionOk(read, read.id)
    case Recovering(u, _, spent, proof) =>
      && u.id in sessions && u.status == Completed && SessionOk(u, u.id) && Evolves(u, sessions[u.id])
      && ProvedInTime(sessions, spent, proof)
      && spent.id in challenges && spent.(usedAt := None) == challenges[spent.id].(usedAt := None)
    case Done(id, outcome) =>
      && (outcome.Claimed? ==> id in sessions && sessions[id].transaction == Some(outcome.transaction))
      && (outcome.Finished? ==>
            && id in sessions && sessions[id].status == Completed
            && sessions[id].transaction == Some(outcome.transaction) && sessions[id].wallet == Some(outcome.wallet))
  }

  // A generated token that no session has held yet.
  predicate Unspent(w: World, grant: Secret) {
    && grant in w.tokens && !Retired(w.recoveries, grant)
    && forall id :: id in w.sessions ==> w.sessions[id].grant != grant
  }

  predicate PendingOk(w: World) {
    && (forall c :: c in w.calls && w.calls[c].Recovering? ==> Unspent(w, w.calls[c].updated.grant))
    && (forall c, d :: c in w.calls && d in w.calls && c != d && w.calls[c].Recovering? && w.calls[d].Recovering? ==>
          w.calls[c].updated.grant != w.calls[d].updated.grant)
  }

  predicate CallsOk(w: World) { forall c :: c in w.calls ==> CallOk(w.sessions, w.challenges, w.calls[c]) }

  predicate Inv(w: World) { StoreOk(w) && CallsOk(w) && PendingOk(w) }

  // ---- preservation ----

  lemma InvSession(w: World, id: SessionId)
    requires Inv(w) && id in w.sessions
    ensures SessionOk(w.sessions[id], id)
  {
  }

  lemma CallsStable(w: World, v: World)
    requires CallsOk(w) && Moves(w, v) && w.calls == v.calls
    ensures CallsOk(v)
  {
    forall c | c in v.calls ensures CallOk(v.sessions, v.challenges, v.calls[c]) {
      var call := w.calls[c];
      assert CallOk(w.sessions, w.challenges, call);
      match call {
        case Claiming(_, _) =>
        case Completing(u) => assert Evolves(w.sessions[u.id], v.sessions[u.id]);
        case Challenging(read, _) => assert Evolves(w.sessions[read.id], v.sessions[read.id]);
        case RecoverRead(read, _, _, _) => assert Evolves(w.sessions[read.id], v.sessions[read.id]);
        case Recovering(u, _, spent, _) =>
          assert Evolves(w.sessions[u.id], v.sessions[u.id]) && Spends(w.challenges[spent.id], v.challenges[spent.id]);
          assert Evolves(w.sessions[spent.session], v.sessions[spent.session]);
        case Done(id, outcome) =>
          if outcome.Claimed? || outcome.Finished? {
            assert Evolves(w.sessions[id], v.sessions[id]);
          }
      }
    }
  }

  lemma MovesWithoutRecovery(w: World, v: World)
    requires w.recoveries == v.recoveries
    requires forall id :: id in w.sessions ==>
               id in v.sessions && Evolves(w.sessions[id], v.sessions[id]) && v.sessions[id].grant == w.sessions[id].grant
    requires forall id :: id in w.challenges ==> id in v.challenges && Spends(w.challenges[id], v.challenges[id])
    ensures Moves(w, v)
  {
    hide Evolves, Spends, Retired;
  }

  // Moving one call, without a new recovery grant.
  lemma MoveKeepsInv(w: World, c: nat, state: Call)
    requires Inv(w) && CallOk(w.sessions, w.challenges, state) && !state.Recovering?
    ensures Inv(To(w, c, state)) && Moves(w, To(w, c, state))
  {
    hide CallOk, ChallengeOk, SessionOk, Retired;
  }

  lemma MovesCompose(w: World, u: World, v: World)
    requires Moves(w, u) && Moves(u, v)
    ensures Moves(w, v)
  {
    forall id | id in w.sessions
      ensures id in v.sessions && Evolves(w.sessions[id], v.sessions[id])
    {
      assert Evolves(w.sessions[id], u.sessions[id]) && Evolves(u.sessions[id], v.sessions[id]);
    }
    forall id | id in w.challenges
      ensures id in v.challenges && Spends(w.challenges[id], v.challenges[id])
    {
      assert Spends(w.challenges[id], u.challenges[id]) && Spends(u.challenges[id], v.challenges[id]);
    }
    var n, m := |w.recoveries|, |u.recoveries|;
    assert v.recoveries[..n] == v.recoveries[..m][..n];
    forall id | id in w.sessions
      ensures RecoveredSince(w.recoveries, v.recoveries, id) ==> Retired(v.recoveries, w.sessions[id].grant)
      ensures !RecoveredSince(w.recoveries, v.recoveries, id) ==> v.sessions[id].grant == w.sessions[id].grant
    {
      GrantsCompose(w, u, v, id);
    }
  }

  lemma GrantsCompose(w: World, u: World, v: World, id: SessionId)
    requires Moves(w, u) && Moves(u, v) && id in w.sessions
    ensures RecoveredSince(w.recoveries, v.recoveries, id) ==> Retired(v.recoveries, w.sessions[id].grant)
    ensures !RecoveredSince(w.recoveries, v.recoveries, id) ==> v.sessions[id].grant == w.sessions[id].grant
  {
    hide Evolves, Spends;
    var n, m := |w.recoveries|, |u.recoveries|;
    assert forall k :: 0 <= k < m ==> v.recoveries[..m][k] == v.recoveries[k];
    if RecoveredSince(w.recoveries, u.recoveries, id) {
      var k :| n <= k < m && u.recoveries[k].session == id;
      assert v.recoveries[k].session == id;
      var j :| 0 <= j < m && u.recoveries[j].previous == w.sessions[id].grant;
      assert v.recoveries[j].previous == w.sessions[id].grant;
    } else {
      assert u.sessions[id].grant == w.sessions[id].grant;
      if RecoveredSince(w.recoveries, v.recoveries, id) {
        var k :| n <= k < |v.recoveries| && v.recoveries[k].session == id;
        assert k >= m;
      }
    }
  }

  // A write that changes one session and nothing about grants, recoveries or challenges.
  lemma SessionWriteGrants(w: World, id: SessionId, t: Session)
    requires GrantsOk(w) && PendingOk(w) && id in w.sessions && t.grant == w.sessions[id].grant
    ensures var v := w.(sessions := w.sessions[id := t]); GrantsOk(v) && PendingOk(v)
  {
    hide Retired;
    var v := w.(sessions := w.sessions[id := t]);
    assert forall i :: i in v.sessions ==> v.sessions[i].grant == w.sessions[i].grant;
  }

  lemma SessionWriteLog(w: World, id: SessionId, t: Session)
    requires LogOk(w) && id in w.sessions && Evolves(w.sessions[id], t)
    ensures LogOk(w.(sessions := w.sessions[id := t]))
  {
  }

  lemma SessionWriteKeepsInv(w: World, id: SessionId, t: Session)
    requires Inv(w) && id in w.sessions && Evolves(w.sessions[id], t) && SessionOk(t, id) && t.grant == w.sessions[id].grant
    ensures var v := w.(sessions := w.sessions[id := t]); Inv(v) && Moves(w, v)
  {
    hide CallOk, CallsOk, GrantsOk, LogOk, PendingOk, Moves;
    var v := w.(sessions := w.sessions[id := t]);
    SessionWriteGrants(w, id, t);
    SessionWriteLog(w, id, t);
    MovesWithoutRecovery(w, v);
    CallsStable(w, v);
    forall ch | ch in v.challenges ensures ChallengeOk(v.sessions, v.challenges[ch], ch) {
      assert ChallengeOk(w.sessions, w.challenges[ch], ch);
    }
  }

  // A newly generated token that no session receives.
  lemma TokenKeepsInv(w: World, token: Secret)
    requires Inv(w)
    ensures var v := w.(tokens := w.tokens + {token}); Inv(v) && Moves(w, v)
  {
    hide CallOk, ChallengeOk, SessionOk, Retired;
  }

  lemma NewSessionGrants(w: World, s: Session, token: Secret)
    requires GrantsOk(w) && PendingOk(w)
    requires s.id !in w.sessions && token !in w.tokens && token !in w.index && s.grant == token
    ensures var v := w.(sessions := w.sessions[s.id := s], index := w.index[token := s.id], tokens := w.tokens + {token});
            GrantsOk(v) && PendingOk(v)
  {
    assert !Retired(w.recoveries, token);
    hide Retired;
  }

  lemma NewSessionKeepsInv(w: World, s: Session, token: Secret)
    requires Inv(w) && s.id !in w.sessions && token !in w.tokens && token !in w.index && s.grant == token && SessionOk(s, s.id)
    ensures var v := w.(sessions := w.sessions[s.id := s], index := w.index[token := s.id], tokens := w.tokens + {token});
            Inv(v) && Moves(w, v)
  {
    hide CallOk, Moves, CallsOk, GrantsOk, PendingOk;
    var v := w.(sessions := w.sessions[s.id := s], index := w.index[token := s.id], tokens := w.tokens + {token});
    NewSessionGrants(w, s, token);
    MovesWithoutRecovery(w, v);
    CallsStable(w, v);
    forall ch | ch in v.challenges ensures ChallengeOk(v.sessions, v.challenges[ch], ch) {
      assert ChallengeOk(w.sessions, w.challenges[ch], ch);
    }
  }

  lemma CreateKeepsInv(w: World, id: SessionId, facts: Facts, token: Secret, now: Time)
    requires Inv(w)
    ensures var v := DoCreate(w, id, facts, token, now); Inv(v) && Moves(w, v)
  {
    hide Inv, Moves;
    TokenKeepsInv(w, token);
    if token in w.tokens {
      assert w.(tokens := w.tokens + {token}) == w;
    } else if id !in w.sessions && token !in w.index {
      NewSessionKeepsInv(w, DoCreate(w, id, facts, token, now).sessions[id], token);
    }
  }

  lemma ClaimWriteKeepsInv(w: World, c: nat, id: SessionId, transaction: Id, now: Time)
    requires Inv(w) && transaction.prefix == TransactionIds
    ensures var v := DoClaimWrite(w, c, id, transaction, now); Inv(v) && Moves(w, v)
  {
    hide Inv, Moves;
    var state := DoClaimWrite(w, c, id, transaction, now).calls[c];
    if id in w.sessions && w.sessions[id].status == Active && w.sessions[id].transaction.None? {
      var claimed := w.sessions[id].(transaction := Some(transaction), updatedAt := now);
      InvSession(w, id);
      SessionWriteKeepsInv(w, id, claimed);
      var u := w.(sessions := w.sessions[id := claimed]);
      MoveKeepsInv(u, c, state);
      MovesCompose(w, u, To(u, c, state));
    } else {
      MoveKeepsInv(w, c, state);
    }
  }

  lemma CompleteWriteKeepsInv(w: World, c: nat, updated: Session)
    requires Inv(w) && CallOk(w.sessions, w.challenges, Completing(updated))
    ensures var v := DoCompleteWrite(w, c, updated); Inv(v) && Moves(w, v)
  {
    hide Inv, Moves;
    var state := DoCompleteWrite(w, c, updated).calls[c];
    if CompleteAccepts(w.sessions[updated.id], updated) {
      InvSession(w, updated.id);
      SessionWriteKeepsInv(w, updated.id, updated);
      var u := w.(sessions := w.sessions[updated.id := updated]);
      MoveKeepsInv(u, c, state);
      MovesCompose(w, u, To(u, c, state));
    } else {
      MoveKeepsInv(w, c, state);
    }
  }

  lemma ChallengeWriteKeepsInv(w: World, c: nat, read: Session, wallet: Wallet, id: ChallengeId, nonce: Secret, now: Time)
    requires Inv(w) && CallOk(w.sessions, w.challenges, Challenging(read, wallet))
    ensures var v := DoChallengeWrite(w, c, read, wallet, id, nonce, now); Inv(v) && Moves(w, v)
  {
    hide Inv, Moves;
    TokenKeepsInv(w, nonce);
    var u := w.(tokens := w.tokens + {nonce});
    if nonce in w.tokens {
      assert u == w;
      assert DoChallengeWrite(w, c, read, wallet, id, nonce, now) == w;
    } else if id in w.challenges {
      MoveKeepsInv(u, c, Done(read.id, AlreadyExists));
      MovesCompose(w, u, To(u, c, Done(read.id, AlreadyExists)));
    } else {
      var ch := NewChallenge(read, wallet, id, nonce, now);
      NewChallengeKeepsInv(u, ch);
      var t := u.(challenges := u.challenges[ch.id := ch]);
      MovesCompose(w, u, t);
      MoveKeepsInv(t, c, Done(read.id, Challenged));
      MovesCompose(w, t, To(t, c, Done(read.id, Challenged)));
    }
  }

  lemma NewChallengeKeepsInv(w: World, ch: Challenge)
    requires Inv(w) && ch.id !in w.challenges && ChallengeOk(w.sessions, ch, ch.id)
    ensures var v := w.(challenges := w.challenges[ch.id := ch]); Inv(v) && Moves(w, v)
  {
    var v := w.(challenges := w.challenges[ch.id := ch]);
    hide CallOk, Moves, CallsOk, Retired, SessionOk, ChallengeOk, ProvedInTime;
    MovesWithoutRecovery(w, v);
    CallsStable(w, v);
    assert PendingOk(v) && GrantsOk(v);
    assert LogOk(v);
    hide PendingOk, GrantsOk, LogOk;
  }

  lemma RecoverCheckKeepsInv(w: World, c: nat, token: Secret, now: Time)
    requires Inv(w) && c in w.calls && w.calls[c].RecoverRead?
    ensures var v := DoRecoverCheck(w, c, w.calls[c], token, now); Inv(v) && Moves(w, v)
  {
    hide Moves, StoreOk, PendingOk;
    TokenKeepsInv(w, token);
    var u := w.(tokens := w.tokens + {token});
    var call := w.calls[c];
    var state := RecoverDecide(w, call.read, call.challenge, call.requested, call.proof, token, now);
    if token in w.tokens {
      assert u == w;
    } else {
      assert CallOk(w.sessions, w.challenges, call);
      if state.Recovering? {
        DecidedRecovery(w, call, token, now);
        StartRecoveryKeepsInv(w, c, state, token);
      } else {
        MoveKeepsInv(u, c, state);
      }
      MovesCompose(w, u, To(u, c, state));
    }
  }

  lemma DecidedRecovery(w: World, call: Call, token: Secret, now: Time)
    requires StoreOk(w) && call.RecoverRead? && CallOk(w.sessions, w.challenges, call)
    ensures var state := RecoverDecide(w, call.read, call.challenge, call.requested, call.proof, token, now);
            state.Recovering? ==> CallOk(w.sessions, w.challenges, state) && state.updated.grant == token
  {
    hide GrantsOk, LogOk;
    if call.challenge in w.challenges {
      assert ChallengeOk(w.sessions, w.challenges[call.challenge], call.challenge);
    }
  }

  lemma StartRecoveryKeepsInv(w: World, c: nat, state: Call, token: Secret)
    requires Inv(w) && token !in w.tokens && state.Recovering? && state.updated.grant == token
    requires CallOk(w.sessions, w.challenges, state)
    ensures var u := w.(tokens := w.tokens + {token}); Inv(To(u, c, state)) && Moves(u, To(u, c, state))
  {
    hide CallOk, ChallengeOk, SessionOk;
    var u := w.(tokens := w.tokens + {token});
    assert !Retired(w.recoveries, token);
    hide Retired;
  }

  predicate MayCommit(w: World, u: Session, previous: Secret, spent: Challenge, proof: Proof) {
    && RecoverAccepts(w, u, previous, spent) && Unspent(w, u.grant)
    && CallOk(w.sessions, w.challenges, Recovering(u, previous, spent, proof))
    && (forall c :: c in w.calls && w.calls[c].Recovering? ==> w.calls[c].updated.grant != u.grant)
  }

  lemma RetiredAfter(recoveries: seq<Recovery>, r: Recovery, grant: Secret)
    ensures Retired(recoveries + [r], grant) <==> Retired(recoveries, grant) || grant == r.previous
  {
    var after := recoveries + [r];
    if Retired(recoveries, grant) {
      var k :| 0 <= k < |recoveries| && recoveries[k].previous == grant;
      assert after[k].previous == grant;
    }
    assert after[|recoveries|] == r;
  }

  lemma CommitMoves(w: World, u: Session, previous: Secret, spent: Challenge, proof: Proof)
    requires StoreOk(w) && MayCommit(w, u, previous, spent, proof)
    ensures Moves(w, Commit(w, u, previous, spent, proof))
  {
    hide GrantsOk, LogOk, ChallengeOk, Unspent;
    var v := Commit(w, u, previous, spent, proof);
    var n := |w.recoveries|;
    assert v.recoveries[..n] == w.recoveries;
    assert v.recoveries[n].session == u.id && v.recoveries[n].previous == w.sessions[u.id].grant;
    assert SessionOk(w.sessions[u.id], u.id);
    assert Evolves(w.sessions[u.id], v.sessions[u.id]);
  }

  lemma CommitGrants(w: World, u: Session, previous: Secret, spent: Challenge, proof: Proof)
    requires StoreOk(w) && MayCommit(w, u, previous, spent, proof)
    ensures GrantsOk(Commit(w, u, previous, spent, proof))
  {
    hide LogOk, ChallengeOk, Retired, SessionOk, CallOk;
    var v := Commit(w, u, previous, spent, proof);
    var r := v.recoveries[|w.recoveries|];
    forall id | id in v.sessions
      ensures v.sessions[id].grant in v.tokens && !Retired(v.recoveries, v.sessions[id].grant)
      ensures v.sessions[id].grant in v.index && v.index[v.sessions[id].grant] == id
    {
      RetiredAfter(w.recoveries, r, v.sessions[id].grant);
    }
  }

  lemma CommitChallenges(w: World, u: Session, previous: Secret, spent: Challenge, proof: Proof)
    requires StoreOk(w) && MayCommit(w, u, previous, spent, proof)
    ensures var v := Commit(w, u, previous, spent, proof);
            forall id :: id in v.challenges ==> ChallengeOk(v.sessions, v.challenges[id], id)
  {
    hide GrantsOk, Unspent, Retired, LogOk, ProvedInTime;
    var v := Commit(w, u, previous, spent, proof);
    assert ChallengeOk(w.sessions, w.challenges[spent.id], spent.id);
    forall id | id in v.challenges ensures ChallengeOk(v.sessions, v.challenges[id], id) {
      assert ChallengeOk(w.sessions, w.challenges[id], id);
    }
  }

  lemma ProvedKept(before: map<SessionId, Session>, id: SessionId, t: Session, ch: Challenge, proof: Proof)
    requires id in before && Evolves(before[id], t) && ProvedInTime(before, ch, proof)
    ensures ProvedInTime(before[id := t], ch, proof)
  {
  }

  lemma CommitLog(w: World, u: Session, previous: Secret, spent: Challenge, proof: Proof)
    requires StoreOk(w) && MayCommit(w, u, previous, spent, proof)
    ensures LogOk(Commit(w, u, previous, spent, proof))
  {
    var v, n := Commit(w, u, previous, spent, proof), |w.recoveries|;
    assert Evolves(w.sessions[u.id], u) && ProvedInTime(w.sessions, spent, proof) && spent.session == u.id by {
      hide GrantsOk, Unspent, LogOk, ProvedInTime, Retired;
      assert ChallengeOk(w.sessions, w.challenges[spent.id], spent.id) && SessionOk(w.sessions[u.id], u.id);
    }
    assert forall k :: 0 <= k < n ==> w.recoveries[k].challenge != spent.id by {
      hide GrantsOk, Unspent, Retired, CallOk, ChallengeOk, SessionOk;
    }
    hide GrantsOk, Unspent, CallOk, ChallengeOk, SessionOk, ProvedInTime, Evolves;
    forall k | 0 <= k < |v.recoveries|
      ensures var r := v.recoveries[k];
              && r.challenge in v.challenges && ProvedInTime(v.sessions, v.challenges[r.challenge], r.proof)
              && v.challenges[r.challenge].session == r.session
    {
      var r := v.recoveries[k];
      if k < n {
        assert r == w.recoveries[k] && r.challenge in w.challenges;
      }
      ProvedKept(w.sessions, u.id, u, v.challenges[r.challenge], r.proof);
    }
  }

  lemma CommitPending(w: World, u: Session, previous: Secret, spent: Challenge, proof: Proof)
    requires PendingOk(w) && MayCommit(w, u, previous, spent, proof)
    ensures PendingOk(Commit(w, u, previous, spent, proof))
  {
    hide Retired, CallOk;
    var v := Commit(w, u, previous, spent, proof);
    var r := v.recoveries[|w.recoveries|];
    forall c | c in v.calls && v.calls[c].Recovering? ensures Unspent(v, v.calls[c].updated.grant) {
      assert Unspent(w, w.calls[c].updated.grant);
      RetiredAfter(w.recoveries, r, v.calls[c].updated.grant);
    }
  }

  lemma CommitSessions(w: World, u: Session, previous: Secret, spent: Challenge, proof: Proof)
    requires StoreOk(w) && MayCommit(w, u, previous, spent, proof)
    ensures var v := Commit(w, u, previous, spent, proof); forall id :: id in v.sessions ==> SessionOk(v.sessions[id], id)
  {
    hide GrantsOk, Unspent, Retired, LogOk, ChallengeOk;
  }

  lemma CommitKeepsInv(w: World, u: Session, previous: Secret, spent: Challenge, proof: Proof)
    requires Inv(w) && MayCommit(w, u, previous, spent, proof)
    ensures Inv(Commit(w, u, previous, spent, proof)) && Moves(w, Commit(w, u, previous, spent, proof))
  {
    hide GrantsOk, LogOk, ChallengeOk, PendingOk, CallsOk, Moves, SessionOk, MayCommit;
    CommitMoves(w, u, previous, spent, proof);
    CommitGrants(w, u, previous, spent, proof);
    CommitChallenges(w, u, previous, spent, proof);
    CommitLog(w, u, previous, spent, proof);
    CommitSessions(w, u, previous, spent, proof);
    CommitPending(w, u, previous, spent, proof);
    CallsStable(w, Commit(w, u, previous, spent, proof));
  }

  lemma HarmlessOutcome(w: World, id: SessionId, outcome: Outcome)
    requires !outcome.Claimed? && !outcome.Finished?
    ensures CallOk(w.sessions, w.challenges, Done(id, outcome))
  {
  }

  lemma RecoverWriteKeepsInv(w: World, c: nat, u: Session, previous: Secret, spent: Challenge, proof: Proof)
    requires Inv(w) && c in w.calls && w.calls[c] == Recovering(u, previous, spent, proof)
    ensures var v := DoRecoverWrite(w, c, u, previous, spent, proof); Inv(v) && Moves(w, v)
  {
    hide StoreOk, Moves, CallOk;
    var state := DoRecoverWrite(w, c, u, previous, spent, proof).calls[c];
    HarmlessOutcome(w, u.id, state.outcome);
    MoveKeepsInv(w, c, state);
    if RecoverAccepts(w, u, previous, spent) {
      var t := To(w, c, state);
      assert MayCommit(t, u, previous, spent, proof);
      CommitKeepsInv(t, u, previous, spent, proof);
      MovesCompose(w, t, Commit(t, u, previous, spent, proof));
    }
  }

  lemma ExecKeepsInv(w: World, a: Action)
    requires Inv(w)
    ensures Inv(Exec(w, a)) && Moves(w, Exec(w, a))
  {
    hide StoreOk, PendingOk, Moves, DoCreate, DoClaimWrite, DoCompleteWrite, DoChallengeWrite, DoRecoverCheck, DoRecoverWrite;
    assert Moves(w, w) by { MovesReflexive(w); }
    match a {
      case Create(id, facts, token, now) => CreateKeepsInv(w, id, facts, token, now);
      case ClaimGet(c, id, transaction, now) => MoveKeepsInv(w, c, ClaimDecide(w, id, transaction, now));
      case ClaimWrite(c, now) =>
        if c in w.calls && w.calls[c].Claiming? {
          ClaimWriteKeepsInv(w, c, w.calls[c].session, w.calls[c].claim, now);
        }
      case CompleteGet(c, id, wallet, transaction, terminalAt, now, later) =>
        CompleteDecided(w, id, wallet, transaction, terminalAt, now, later);
        MoveKeepsInv(w, c, CompleteDecide(w, id, wallet, transaction, terminalAt, now, later));
      case CompleteWrite(c) =>
        if c in w.calls && w.calls[c].Completing? {
          CompleteWriteKeepsInv(w, c, w.calls[c].updated);
        }
      case ChallengeGet(c, id, wallet, now) =>
        if id in w.sessions {
          InvSession(w, id);
        }
        MoveKeepsInv(w, c, ChallengeDecide(w, id, wallet, now));
      case ChallengeWrite(c, challenge, nonce, now) =>
        if c in w.calls && w.calls[c].Challenging? {
          ChallengeWriteKeepsInv(w, c, w.calls[c].read, w.calls[c].requested, challenge, nonce, now);
        }
      case RecoverGet(c, id, challenge, wallet, proof) =>
        if id in w.sessions {
          InvSession(w, id);
          MoveKeepsInv(w, c, RecoverRead(w.sessions[id], challenge, wallet, proof));
        } else {
          MoveKeepsInv(w, c, Done(id, NotFound));
        }
      case RecoverCheck(c, token, now) =>
        if c in w.calls && w.calls[c].RecoverRead? {
          RecoverCheckKeepsInv(w, c, token, now);
        }
      case RecoverWrite(c) =>
        if c in w.calls && w.calls[c].Recovering? {
          RecoverWriteKeepsInv(w, c, w.calls[c].updated, w.calls[c].previous, w.calls[c].spent, w.calls[c].proof);
        }
    }
  }

  lemma MovesReflexive(w: World)
    ensures Moves(w, w)
  {
    hide Retired;
  }

  lemma CompleteDecided(w: World, id: SessionId, wallet: Wallet, transaction: Id, terminalAt: Time, now: Time, later: Time)
    requires Inv(w)
    ensures var state := CompleteDecide(w, id, wallet, transaction, terminalAt, now, later);
            !state.Recovering? && CallOk(w.sessions, w.challenges, state)
  {
    hide Inv;
    if id in w.sessions {
      InvSession(w, id);
    }
  }

  lemma {:induction false} RunKeepsInv(w: World, actions: seq<Action>)
    requires Inv(w)
    ensures Inv(Run(w, actions)) && Moves(w, Run(w, actions))
  {
    hide Inv, Exec, Moves;
    if actions == [] {
      MovesReflexive(w);
    } else {
      var mid := Run(w, actions[..|actions| - 1]);
      RunKeepsInv(w, actions[..|actions| - 1]);
      ExecKeepsInv(mid, actions[|actions| - 1]);
      MovesCompose(w, mid, Run(w, actions));
    }
  }

  // A world that some run from the empty store produces.
  ghost predicate Reachable(w: World) { exists actions: seq<Action> :: w == Run(START, actions) }

  lemma StartInv()
    ensures Inv(START)
  {
  }

  lemma ReachableInv(w: World)
    requires Reachable(w)
    ensures Inv(w)
  {
    hide Run, Inv;
    var actions: seq<Action> :| w == Run(START, actions);
    StartInv();
    RunKeepsInv(START, actions);
  }

  // ---- what holds in every run ----

  // All claims and completions that ever succeed on one session name one transaction,
  // the stored one, and it is never replaced.
  lemma OneTransactionPerSession(w: World, actions: seq<Action>, c: nat, d: nat)
    requires Reachable(w) && c in w.calls && w.calls[c].Done?
    requires w.calls[c].outcome.Claimed? || w.calls[c].outcome.Finished?
    requires var v := Run(w, actions);
             && d in v.calls && v.calls[d].Done? && v.calls[d].session == w.calls[c].session
             && (v.calls[d].outcome.Claimed? || v.calls[d].outcome.Finished?)
    ensures var v := Run(w, actions); var id := w.calls[c].session;
            && v.calls[d].outcome.transaction == w.calls[c].outcome.transaction
            && id in v.sessions && v.sessions[id].transaction == Some(w.calls[c].outcome.transaction)
  {
    hide Run, StoreOk, PendingOk;
    ReachableInv(w);
    RunKeepsInv(w, actions);
    var v := Run(w, actions);
    var id := w.calls[c].session;
    assert CallOk(w.sessions, w.challenges, w.calls[c]);
    assert CallOk(v.sessions, v.challenges, v.calls[d]);
    assert Evolves(w.sessions[id], v.sessions[id]);
  }

  // A completed session stays completed with wallet, transaction and access period
  // fixed, and under no grant, index or time does it give commerce authority again.
  lemma CompletedIsFinal(
    w: World, actions: seq<Action>, id: SessionId, index: map<Secret, SessionId>, grant: Secret, r: Requirement, now: Time)
    requires Reachable(w) && id in w.sessions && w.sessions[id].status == Completed
    ensures var s := w.sessions[id]; var v := Run(w, actions);
            && id in v.sessions && s.wallet.Some? && s.transaction.Some? && s.transaction.value.prefix == TransactionIds
            && s.accessExpiresAt >= s.createdAt + REMEDIATION_LIFETIME
            && v.sessions[id] == s.(grant := v.sessions[id].grant, updatedAt := v.sessions[id].updatedAt)
            && (r.authority == Commerce ==>
                  var answer := Authorize(index, v.sessions, grant, r, now); answer.Ok? ==> answer.value.id != id)
  {
    hide Run, Inv, BindingHolds;
    ReachableInv(w);
    RunKeepsInv(w, actions);
    InvSession(w, id);
    var v := Run(w, actions);
    assert Evolves(w.sessions[id], v.sessions[id]);
    hide Moves;
    if grant in index && index[grant] in v.sessions {
      InvSession(v, index[grant]);
    }
  }

  // Each challenge is spent at most once; and every committed recovery presented a proof
  // signed by the session's bound wallet over the message of the challenge it spent, before
  // the challenge and the session's access expired.
  lemma ChallengeSpentOnce(w: World, j: nat, k: nat)
    requires Reachable(w) && j < |w.recoveries| && k < |w.recoveries|
    ensures w.recoveries[j].challenge == w.recoveries[k].challenge ==> j == k
    ensures var r := w.recoveries[k];
            && r.session in w.sessions && w.sessions[r.session].wallet == Some(r.proof.signer)
            && r.challenge in w.challenges
            && var ch := w.challenges[r.challenge];
            && r.proof.text == Message(r.session, r.challenge, r.proof.signer, ch.nonce, ch.expiresAt)
            && ch.usedAt.Some? && ch.usedAt.value < ch.expiresAt && ch.usedAt.value < w.sessions[r.session].accessExpiresAt
  {
    hide Run, PendingOk, CallsOk, GrantsOk;
    ReachableInv(w);
    var r := w.recoveries[k];
    assert ChallengeOk(w.sessions, w.challenges[r.challenge], r.challenge);
  }

  // After a recovery of a session every grant it held before is refused, whatever the
  // grant index still says; without one the session's grant is the same.
  lemma RecoveryKillsEarlierGrants(
    w: World, actions: seq<Action>, id: SessionId, index: map<Secret, SessionId>, r: Requirement, now: Time)
    requires Reachable(w) && id in w.sessions
    ensures var v := Run(w, actions);
            if RecoveredSince(w.recoveries, v.recoveries, id)
            then Authorize(index, v.sessions, w.sessions[id].grant, r, now) == Err(InvalidGrant)
            else id in v.sessions && v.sessions[id].grant == w.sessions[id].grant
  {
    hide Run, PendingOk, CallsOk, LogOk, BindingHolds, RecoveredSince, Evolves, Spends;
    ReachableInv(w);
    RunKeepsInv(w, actions);
  }

  // What a requirement asks of a session, field by field: whatever it names is the session's.
  predicate Admits(s: Session, r: Requirement, now: Time) {
    && (r.seller.Some? ==> s.facts.seller == r.seller.value) && (r.route.Some? ==> s.facts.route == r.route.value)
    && (r.productSlug.Some? ==> s.facts.productSlug == r.productSlug.value)
    && (r.requestBodyHash.Some? ==> s.facts.requestBodyHash == r.requestBodyHash.value)
    && (r.transaction.Some? ==> s.transaction.Some? && s.transaction.value == r.transaction.value)
    && (r.maximumAmount.Canonical? ==> s.facts.maximumAmount == r.maximumAmount.amount) && !r.maximumAmount.Malformed?
    && InTime(s, r.authority, now)
  }

  // The repository's own index answers for exactly the grants that sessions now hold.
  lemma AuthorizedIffCurrentGrant(w: World, grant: Secret, r: Requirement, now: Time)
    requires Reachable(w)
    ensures Authorize(w.index, w.sessions, grant, r, now).Ok? <==>
            && 32 <= |grant| <= 256
            && exists id :: id in w.sessions && w.sessions[id].grant == grant && Admits(w.sessions[id], r, now)
  {
    hide Run, PendingOk, CallsOk, LogOk, Retired, ChallengeOk, BindingHolds, Admits;
    ReachableInv(w);
    forall id | id in w.sessions
      ensures Admits(w.sessions[id], r, now) <==> BindingHolds(w.sessions[id], r) && InTime(w.sessions[id], r.authority, now)
    {
      AdmitsIff(w.sessions[id], r, now);
    }
  }

  predicate InTime(s: Session, authority: Authority, now: Time) {
    if authority == Commerce then s.status == Active && now < s.commerceExpiresAt else now < s.accessExpiresAt
  }

  lemma AdmitsIff(s: Session, r: Requirement, now: Time)
    ensures Admits(s, r, now) <==> BindingHolds(s, r) && InTime(s, r.authority, now)
  {
  }

  // Whatever the index says, an authorization speaks of a session that holds the presented
  // grant and is bound to the transaction the requirement names.
  lemma AuthorizedForItsTransaction(
    index: map<Secret, SessionId>, sessions: map<SessionId, Session>, grant: Secret, r: Requirement, now: Time)
    requires Authorize(index, sessions, grant, r, now).Ok?
    ensures var s := Authorize(index, sessions, grant, r, now).value;
            && s.grant == grant && (exists id :: id in sessions && sessions[id] == s)
            && (r.transaction.Some? ==> s.transaction == r.transaction)
            && (r.seller.Some? ==> s.facts.seller == r.seller.value) && (r.route.Some? ==> s.facts.route == r.route.value)
  {
    assert index[grant] in sessions;
  }

  // In every run no grant of one session is admitted for a transaction that only another
  // session is bound to, under no index, authority or time.
  lemma OthersTransactionIsRefused(
    w: World, mine: SessionId, theirs: SessionId, index: map<Secret, SessionId>, r: Requirement, now: Time)
    requires Reachable(w) && mine in w.sessions && theirs in w.sessions && mine != theirs
    requires r.transaction.Some? && w.sessions[theirs].transaction == r.transaction
    requires forall id :: id in w.sessions && w.sessions[id].transaction == r.transaction ==> id == theirs
    ensures Authorize(index, w.sessions, w.sessions[mine].grant, r, now).Err?
  {
    hide Run, PendingOk, CallsOk, LogOk, Retired, ChallengeOk;
    ReachableInv(w);
    var grant := w.sessions[mine].grant;
    if grant in index && index[grant] in w.sessions && w.sessions[index[grant]].grant == grant {
      assert index[grant] == mine;
    }
  }
}
