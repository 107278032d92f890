// When an access token of a run is accepted, both halves of the check together: the
// credential (internal/authorization/access_tokens.go, authorizeCurrentCapabilityState)
// and the entitlement.
module TokenLife {
  import opened Foundations
  import opened Entitlement
  import opened EntitlementStore
  import opened Credentials
  import opened SellerHistory
  import opened Asks
  import EpochFence
  import RotationChains

  // The credential is neither revoked nor replaced, and not expired.
  predicate Live(credentials: map<Id, Snapshot>, id: Id, now: Time) {
    id in credentials && credentials[id].revokedAt.None? && Unexpired(credentials[id], now)
  }

  // In every run a token's scopes and epoch are its credential's, so the credential half of
  // the check admits it exactly while the credential is live.
  lemma CredentialAdmitsIffLive(resolver: bool, seller: Id, actions: seq<Action>, token: Token, now: Time)
    requires token in Run(Init(resolver, seller), actions).tokens
    ensures var w := Run(Init(resolver, seller), actions);
            CredentialAdmits(w.credentials, token.credential, token.scopes, token.epoch, now)
            <==> Live(w.credentials, token.credential, now)
  {
    hide Run, EpochFence.CallOk, ValidLog, Unexpired;
    EpochFence.InitKeepsFence(resolver, seller);
    EpochFence.RunKeepsFence(Init(resolver, seller), actions);
    var w := Run(Init(resolver, seller), actions);
    assert EpochFence.Known(w, token.credential, token.scopes, token.epoch);
  }

  // An acceptance that nothing interrupts succeeds exactly for an issued token whose
  // credential is live and whose seller was active in every version since its stamp, before
  // access ends.
  lemma AcceptedIff(resolver: bool, seller: Id, actions: seq<Action>, c: nat, token: Token, now: Time)
    requires c !in Run(Init(resolver, seller), actions).calls
    ensures var w := Run(Init(resolver, seller), actions);
            var v := Exec(Exec(w, AcceptRead(c, token, now)), AcceptEntitlement(c));
            (c in v.calls && v.calls[c].Accepted?) <==>
              && token in w.tokens && Live(w.credentials, token.credential, now) && token.credential in w.stamps
              && EpochFence.ActiveThroughout(w.log, w.stamps[token.credential], |w.log|)
              && now < w.log[|w.log| - 1].terms.accessEndsAt
  {
    hide Run, CredentialAdmits, EntitlementAdmits, EpochFence.ActiveThroughout, Live;
    var w := Run(Init(resolver, seller), actions);
    AcceptanceSteps(w, c, token, now);
    if token in w.tokens {
      CredentialAdmitsIffLive(resolver, seller, actions, token, now);
      EpochFence.TokenAdmittedIffActiveSince(resolver, seller, actions, token, now);
    }
  }

  lemma AcceptanceSteps(w: World, c: nat, token: Token, now: Time)
    requires c !in w.calls
    ensures var v := Exec(Exec(w, AcceptRead(c, token, now)), AcceptEntitlement(c));
            (c in v.calls && v.calls[c].Accepted?) <==>
              && token in w.tokens
              && CredentialAdmits(w.credentials, token.credential, token.scopes, token.epoch, now)
              && EntitlementAdmits(Stored(w.log), token.epoch, now)
  {
    hide CredentialAdmits, EntitlementAdmits, Exec;
    FirstStep(w, c, token, now);
    SecondStep(Exec(w, AcceptRead(c, token, now)), c);
  }

  lemma FirstStep(w: World, c: nat, token: Token, now: Time)
    requires c !in w.calls
    ensures Exec(w, AcceptRead(c, token, now)) == To(w, c,
              if token in w.tokens && CredentialAdmits(w.credentials, token.credential, token.scopes, token.epoch, now)
              then Accepting(token, now) else Finished)
  {
    hide CredentialAdmits;
  }

  lemma SecondStep(w: World, c: nat)
    requires c in w.calls
    ensures Exec(w, AcceptEntitlement(c)) ==
            if !w.calls[c].Accepting? then w
            else if EntitlementAdmits(Stored(w.log), w.calls[c].token.epoch, w.calls[c].at)
            then To(w, c, Accepted(w.calls[c].token, |w.log|)) else To(w, c, Finished)
  {
    hide EntitlementAdmits;
  }

  // Once a credential is revoked or replaced, it is dead for every continuation: no later
  // step begins to accept one of its tokens, begins an exchange of it, or lets an exchange
  // in progress pass its last look at the credential.
  lemma RevokedIsDead(
    resolver: bool, seller: Id, before: seq<Action>, after: seq<Action>, id: Id, c: nat, token: Token,
    scopes: seq<Scope>, secret: string, now: Time)
    requires var w := Run(Init(resolver, seller), before); id in w.credentials && w.credentials[id].revokedAt.Some?
    ensures var v := Run(Init(resolver, seller), before + after);
            && id in v.credentials && v.credentials[id].revokedAt.Some?
            && (c !in v.calls && token.credential == id ==> Exec(v, AcceptRead(c, token, now)) == To(v, c, Finished))
            && (c !in v.calls ==> Exec(v, ExchangeRead(c, id, scopes, now, secret)).calls == v.calls[c := Finished])
            && (c in v.calls && v.calls[c].ExchangeMarked? && v.calls[c].id == id ==>
                  Exec(v, ExchangeRecheck(c, now)) == To(v, c, Finished))
  {
    hide Run, RotationChains.Chained;
    var start := Init(resolver, seller);
    RotationChains.InitChained(resolver, seller);
    RotationChains.RunKeepsChains(start, before);
    RunConcat(start, before, after);
    RotationChains.RunKeepsChains(Run(start, before), after);
    var w, v := Run(start, before), Run(start, before + after);
    assert RotationChains.Advances(w.credentials[id], v.credentials[id]);
    RefusedSteps(v, id, c, token, scopes, secret, now);
  }

  lemma RefusedSteps(v: World, id: Id, c: nat, token: Token, scopes: seq<Scope>, secret: string, now: Time)
    requires id in v.credentials && v.credentials[id].revokedAt.Some?
    ensures c !in v.calls && token.credential == id ==> Exec(v, AcceptRead(c, token, now)) == To(v, c, Finished)
    ensures c !in v.calls ==> Exec(v, ExchangeRead(c, id, scopes, now, secret)).calls == v.calls[c := Finished]
    ensures c in v.calls && v.calls[c].ExchangeMarked? && v.calls[c].id == id ==>
              Exec(v, ExchangeRecheck(c, now)) == To(v, c, Finished)
  {
    hide Unexpired, ExchangeScopes, EntitlementAdmits, DoIssueRead, DoRotateLoad, DoUpdate;
  }

  // ---- tokens are what was asked for ----

  // In every run a token exists only for a stored credential, and only if some exchange of
  // that credential presented exactly the secret stored for it and asked for exactly the
  // token's scopes: supported ones, each once, all granted, and not the scope to rotate.
  lemma TokenNeedsSecret(resolver: bool, seller: Id, actions: seq<Action>, token: Token)
    requires token in Run(Init(resolver, seller), actions).tokens
    ensures var w := Run(Init(resolver, seller), actions); var id := token.credential;
            && id in w.credentials
            && (exists k :: 0 <= k < |actions| && Presents(actions[k], id, w.credentials[id].identity.secret, token.scopes))
            && token.scopes != [] && UnsupportedScope !in token.scopes && RotateScope !in token.scopes
            && (forall i, j :: 0 <= i < j < |token.scopes| ==> token.scopes[i] != token.scopes[j])
            && (forall s :: s in token.scopes ==> s in w.credentials[id].identity.scopes)
  {
    hide Run, EpochFence.CallOk, ValidLog;
    EpochFence.InitKeepsFence(resolver, seller);
    EpochFence.RunKeepsFence(Init(resolver, seller), actions);
    var w, id := Run(Init(resolver, seller), actions), token.credential;
    assert EpochFence.Known(w, id, token.scopes, token.epoch);
    var ask := ExchangeAsk(id, w.credentials[id].identity.secret, token.scopes);
    AskedByActions(resolver, seller, actions, ask);
    var k :| 0 <= k < |actions| && AskOf(actions[k]) == Some(ask);
    assert Presents(actions[k], id, w.credentials[id].identity.secret, token.scopes);
  }

  predicate Presents(a: Action, id: Id, secret: string, scopes: seq<Scope>) {
    a.ExchangeRead? && a.id == id && a.presented == secret && a.scopes == scopes
  }

  // ---- one whole exchange ----

  // The five steps of an exchange that nothing interrupts, at one moment.
  function Exchange(w: World, c: nat, id: Id, scopes: seq<Scope>, secret: string, jti: Id, now: Time): World {
    var marked := Exec(Exec(Exec(w, ExchangeRead(c, id, scopes, now, secret)), ExchangeEntitlement(c, now)), ExchangeMark(c));
    Exec(Exec(marked, ExchangeRecheck(c, now)), ExchangeToken(c, jti, now))
  }

  // Who may have a token for which scopes.
  ghost predicate Entitled(w: World, id: Id, scopes: seq<Scope>, secret: string, now: Time) {
    && w.resolver && id in w.credentials && w.credentials[id].identity.secret == secret && Live(w.credentials, id, now)
    && scopes != [] && UnsupportedScope !in scopes && RotateScope !in scopes
    && (forall i, j :: 0 <= i < j < |scopes| ==> scopes[i] != scopes[j])
    && (forall s :: s in scopes ==> s in w.credentials[id].identity.scopes)
    && w.credentials[id].updatedAt <= now
    && id in w.stamps && EpochFence.ActiveThroughout(w.log, w.stamps[id], |w.log|)
    && now < w.log[|w.log| - 1].terms.accessEndsAt
  }

  // In every run an uninterrupted exchange adds exactly the token that was asked for, for
  // the credential and its epoch, if the caller is entitled to it, and no token otherwise.
  lemma ExchangeIssuesIff(
    resolver: bool, seller: Id, actions: seq<Action>, c: nat, id: Id, scopes: seq<Scope>, secret: string, jti: Id, now: Time)
    requires c !in Run(Init(resolver, seller), actions).calls
    ensures var w := Run(Init(resolver, seller), actions);
            Exchange(w, c, id, scopes, secret, jti, now).tokens ==
              w.tokens + if Entitled(w, id, scopes, secret, now)
                         then {Token(jti, id, scopes, w.credentials[id].identity.epoch)} else {}
  {
    hide Run, Exchange, Entitled, EpochFence.Fence;
    EpochFence.InitKeepsFence(resolver, seller);
    EpochFence.RunKeepsFence(Init(resolver, seller), actions);
    ExchangeFrom(Run(Init(resolver, seller), actions), c, id, scopes, secret, jti, now);
  }

  // Each step of an exchange, by the state of its call.
  lemma ExchangeSteps(u: World, c: nat, jti: Id, now: Time)
    requires c in u.calls
    ensures Exec(u, ExchangeEntitlement(c, now)) ==
              if !u.calls[c].Exchanging? then u
              else if EntitlementAdmits(Stored(u.log), u.calls[c].credential.identity.epoch, now)
              then To(u, c, ExchangeEntitled(u.calls[c].credential, u.calls[c].scopes, u.calls[c].credential.identity.epoch, now))
              else To(u, c, Finished)
    ensures Exec(u, ExchangeRecheck(c, now)) ==
              if !u.calls[c].ExchangeMarked? then u
              else if CredentialAdmits(u.credentials, u.calls[c].id, u.calls[c].scopes, u.calls[c].epoch, now)
              then To(u, c, ExchangeRechecked(u.calls[c].id, u.calls[c].scopes, u.calls[c].epoch)) else To(u, c, Finished)
    ensures Exec(u, ExchangeToken(c, jti, now)) ==
              if !u.calls[c].ExchangeRechecked? then u
              else if EntitlementAdmits(Stored(u.log), u.calls[c].epoch, now)
              then To(u.(tokens := u.tokens + {Token(jti, u.calls[c].id, u.calls[c].scopes, u.calls[c].epoch)}), c, Finished)
              else To(u, c, Finished)
  {
    hide EntitlementAdmits, CredentialAdmits, DoUpdate, Stored;
  }

  // Marking the stored credential as used.
  lemma MarkStep(u: World, c: nat)
    requires c in u.calls && (u.calls[c].ExchangeEntitled? ==> u.calls[c].credential.identity.id in u.credentials)
    requires u.calls[c].ExchangeEntitled? ==> u.credentials[u.calls[c].credential.identity.id] == u.calls[c].credential
    ensures var v, s := Exec(u, ExchangeMark(c)), u.calls[c];
            if !s.ExchangeEntitled? then v == u
            else if s.credential.revokedAt.Some? || s.at < s.credential.updatedAt then v == To(u, c, Finished)
            else
              && v.log == u.log && v.tokens == u.tokens
              && v.calls == u.calls[c := ExchangeMarked(s.credential.identity.id, s.scopes, s.epoch)]
              && s.credential.identity.id in v.credentials
              && v.credentials[s.credential.identity.id].identity == s.credential.identity
              && v.credentials[s.credential.identity.id].revokedAt == s.credential.revokedAt
  {
  }

  lemma ReadStep(w: World, c: nat, id: Id, scopes: seq<Scope>, secret: string, now: Time)
    requires c !in w.calls
    ensures Exec(w, ExchangeRead(c, id, scopes, now, secret)) ==
            To(Asking(w, ExchangeAsk(id, secret, scopes)), c,
               if ExchangeAdmits(w, id, scopes, now, secret) then Exchanging(w.credentials[id], scopes) else Finished)
  {
    hide ExchangeAdmits;
  }

  lemma ExchangeFrom(w: World, c: nat, id: Id, scopes: seq<Scope>, secret: string, jti: Id, now: Time)
    requires EpochFence.Fence(w) && c !in w.calls
    ensures Exchange(w, c, id, scopes, secret, jti, now).tokens ==
              w.tokens + if Entitled(w, id, scopes, secret, now)
                         then {Token(jti, id, scopes, w.credentials[id].identity.epoch)} else {}
  {
    hide Exec, EpochFence.StoreOk, EpochFence.CallOk, EpochFence.ActiveThroughout, Entitled, MarkTaken;
    UpToMark(w, c, id, scopes, secret, now);
    var u3 := Exec(Exec(Exec(w, ExchangeRead(c, id, scopes, now, secret)), ExchangeEntitlement(c, now)), ExchangeMark(c));
    FromMark(w, u3, c, id, scopes, secret, jti, now);
    EntitledIff(w, id, scopes, secret, now);
  }

  predicate Passes(w: World, id: Id, scopes: seq<Scope>, secret: string, now: Time) {
    && ExchangeAdmits(w, id, scopes, now, secret) && w.credentials[id].updatedAt <= now
    && EntitlementAdmits(Stored(w.log), w.credentials[id].identity.epoch, now)
  }

  // After three steps the credential is marked for a caller that passes, and nothing else
  // that matters has changed.
  predicate MarkTaken(w: World, u: World, c: nat, id: Id, scopes: seq<Scope>, secret: string, now: Time) {
    && u.log == w.log && u.tokens == w.tokens && c in u.calls
    && (if Passes(w, id, scopes, secret, now)
        then
          && u.calls[c] == ExchangeMarked(id, scopes, w.credentials[id].identity.epoch) && id in u.credentials
          && u.credentials[id].identity == w.credentials[id].identity && u.credentials[id].revokedAt.None?
        else u.calls[c] == Finished)
  }

  lemma UpToMark(w: World, c: nat, id: Id, scopes: seq<Scope>, secret: string, now: Time)
    requires EpochFence.Fence(w) && c !in w.calls
    ensures MarkTaken(w, Exec(Exec(Exec(w, ExchangeRead(c, id, scopes, now, secret)), ExchangeEntitlement(c, now)), ExchangeMark(c)),
                      c, id, scopes, secret, now)
  {
    hide Exec, EpochFence.StoreOk, EpochFence.CallOk, EntitlementAdmits, ExchangeAdmits, Stored;
    ReadStep(w, c, id, scopes, secret, now);
    var u1 := Exec(w, ExchangeRead(c, id, scopes, now, secret));
    ExchangeSteps(u1, c, Id(NoPrefix, ""), now);
    if ExchangeAdmits(w, id, scopes, now, secret) {
      AdmittedStored(w, id, scopes, secret, now);
    }
    MarkStep(Exec(u1, ExchangeEntitlement(c, now)), c);
  }

  lemma FromMark(w: World, u: World, c: nat, id: Id, scopes: seq<Scope>, secret: string, jti: Id, now: Time)
    requires MarkTaken(w, u, c, id, scopes, secret, now)
    ensures Exec(Exec(u, ExchangeRecheck(c, now)), ExchangeToken(c, jti, now)).tokens ==
              w.tokens + if Passes(w, id, scopes, secret, now)
                         then {Token(jti, id, scopes, w.credentials[id].identity.epoch)} else {}
  {
    hide Exec, EntitlementAdmits, ExchangeAdmits, CredentialAdmits, Stored;
    ExchangeSteps(u, c, jti, now);
    if Passes(w, id, scopes, secret, now) {
      StillAdmitted(w, u, id, scopes, secret, now);
    }
    ExchangeSteps(Exec(u, ExchangeRecheck(c, now)), c, jti, now);
  }

  lemma AdmittedStored(w: World, id: Id, scopes: seq<Scope>, secret: string, now: Time)
    requires EpochFence.StoreOk(w) && ExchangeAdmits(w, id, scopes, now, secret)
    ensures id in w.credentials && w.credentials[id].identity.id == id && w.credentials[id].revokedAt.None?
  {
    hide EpochFence.StoreOk, Unexpired, ExchangeScopes;
    EpochFence.StoredUnderItsId(w, id);
  }

  // The conditions of the steps are those of the entitlement to a token.
  lemma EntitledIff(w: World, id: Id, scopes: seq<Scope>, secret: string, now: Time)
    requires EpochFence.StoreOk(w)
    ensures Entitled(w, id, scopes, secret, now) <==> Passes(w, id, scopes, secret, now)
  {
    hide EpochFence.StoreOk, EpochFence.ActiveThroughout, EntitlementAdmits, Unexpired, Stored;
    if w.resolver && id in w.credentials {
      EpochFence.CredentialEntitledIff(w, id, now);
    }
  }

  lemma StillAdmitted(w: World, v: World, id: Id, scopes: seq<Scope>, secret: string, now: Time)
    requires ExchangeAdmits(w, id, scopes, now, secret) && id in v.credentials
    requires v.credentials[id].identity == w.credentials[id].identity && v.credentials[id].revokedAt.None?
    ensures CredentialAdmits(v.credentials, id, scopes, w.credentials[id].identity.epoch, now)
  {
  }
}
