// What the calls on a browser purchase session answer when nothing interrupts them
// (internal/browserpurchase/service.go): exactly when a claim, a completion or a recovery
// succeeds, and what is then stored.
module BrowserAnswers {
  import opened Foundations
  import opened BrowserPurchase

  // A claim that nothing interrupts succeeds exactly on an active, unexpired session that is
  // not bound to another transaction, and binds it.
  lemma ClaimAnswers(w: World, c: nat, id: SessionId, transaction: Id, now: Time)
    requires c !in w.calls
    ensures var v := Exec(Exec(w, ClaimGet(c, id, transaction, now)), ClaimWrite(c, now));
            && c in v.calls
            && (v.calls[c] == Done(id, Claimed(transaction)) <==>
                  && transaction.prefix == TransactionIds && id in w.sessions && w.sessions[id].status == Active
                  && now < w.sessions[id].commerceExpiresAt
                  && (w.sessions[id].transaction.None? || w.sessions[id].transaction == Some(transaction)))
            && (v.calls[c] == Done(id, Claimed(transaction)) ==>
                  id in v.sessions && v.sessions[id].transaction == Some(transaction) && v.sessions[id].status == Active)
            && (v.calls[c] != Done(id, Claimed(transaction)) ==> v.sessions == w.sessions)
  {
    hide ClaimDecide, DoClaimWrite;
    ClaimSteps(w, c, id, transaction, now);
    ClaimEnds(w, c, id, transaction, now);
  }

  lemma ClaimSteps(w: World, c: nat, id: SessionId, transaction: Id, now: Time)
    requires c !in w.calls
    ensures var state := ClaimDecide(w, id, transaction, now); var u := To(w, c, state);
            Exec(Exec(w, ClaimGet(c, id, transaction, now)), ClaimWrite(c, now)) ==
              if state.Claiming? then DoClaimWrite(u, c, state.session, state.claim, now) else u
  {
    hide ClaimDecide, DoClaimWrite;
  }

  lemma ClaimEnds(w: World, c: nat, id: SessionId, transaction: Id, now: Time)
    ensures var state := ClaimDecide(w, id, transaction, now); var u := To(w, c, state);
            var v := if state.Claiming? then DoClaimWrite(u, c, state.session, state.claim, now) else u;
            && c in v.calls
            && (v.calls[c] == Done(id, Claimed(transaction)) <==>
                  && transaction.prefix == TransactionIds && id in w.sessions && w.sessions[id].status == Active
                  && now < w.sessions[id].commerceExpiresAt
                  && (w.sessions[id].transaction.None? || w.sessions[id].transaction == Some(transaction)))
            && (v.calls[c] == Done(id, Claimed(transaction)) ==>
                  id in v.sessions && v.sessions[id].transaction == Some(transaction) && v.sessions[id].status == Active)
            && (v.calls[c] != Done(id, Claimed(transaction)) ==> v.sessions == w.sessions)
  {
  }

  // Completed just so before, or ready to be: active, unexpired, not bound to another
  // transaction, and ended between its creation and now.
  predicate MayComplete(s: Session, wallet: Wallet, transaction: Id, terminalAt: Time, now: Time, later: Time) {
    || (s.status == Completed && s.transaction == Some(transaction) && s.wallet == Some(wallet))
    || (s.status == Active && (s.transaction.None? || s.transaction == Some(transaction))
        && now < s.commerceExpiresAt && terminalAt != ZERO_TIME && s.createdAt <= terminalAt <= later)
  }

  // The session as it is completed, readable for thirty days from its end.
  function CompletedAs(s: Session, wallet: Wallet, transaction: Id, terminalAt: Time, later: Time): Session {
    Session(s.id, s.facts, s.grant, Some(wallet), Some(transaction), Completed, s.commerceExpiresAt,
            terminalAt + 30 * 24 * HOUR, s.createdAt, later)
  }

  // In every run a completion that nothing interrupts succeeds exactly if it may, and then
  // the session is completed as asked; otherwise nothing changes.
  lemma CompleteAnswers(
    w: World, c: nat, id: SessionId, wallet: Wallet, transaction: Id, terminalAt: Time, now: Time, later: Time)
    requires Reachable(w) && c !in w.calls
    ensures var v := Exec(Exec(w, CompleteGet(c, id, wallet, transaction, terminalAt, now, later)), CompleteWrite(c));
            && c in v.calls
            && (v.calls[c] == Done(id, Finished(transaction, wallet)) <==>
                  && transaction.prefix == TransactionIds && id in w.sessions
                  && MayComplete(w.sessions[id], wallet, transaction, terminalAt, now, later))
            && v.sessions ==
               if v.calls[c] == Done(id, Finished(transaction, wallet)) && w.sessions[id].status == Active
               then w.sessions[id := CompletedAs(w.sessions[id], wallet, transaction, terminalAt, later)] else w.sessions
  {
    hide Run, Inv, Exec, CompleteDecide, DoCompleteWrite, MayComplete, CompletedAs;
    ReachableInv(w);
    CompleteSteps(w, c, id, wallet, transaction, terminalAt, now, later);
    if id in w.sessions {
      InvSession(w, id);
    }
    CompleteEnds(w, c, id, wallet, transaction, terminalAt, now, later);
  }

  lemma CompleteSteps(
    w: World, c: nat, id: SessionId, wallet: Wallet, transaction: Id, terminalAt: Time, now: Time, later: Time)
    requires c !in w.calls
    ensures var state := CompleteDecide(w, id, wallet, transaction, terminalAt, now, later); var u := To(w, c, state);
            Exec(Exec(w, CompleteGet(c, id, wallet, transaction, terminalAt, now, later)), CompleteWrite(c)) ==
              if state.Completing? then DoCompleteWrite(u, c, state.updated) else u
  {
    hide CompleteDecide, DoCompleteWrite;
  }

  lemma CompleteEnds(
    w: World, c: nat, id: SessionId, wallet: Wallet, transaction: Id, terminalAt: Time, now: Time, later: Time)
    requires id in w.sessions ==> SessionOk(w.sessions[id], id)
    ensures var state := CompleteDecide(w, id, wallet, transaction, terminalAt, now, later); var u := To(w, c, state);
            var v := if state.Completing? then DoCompleteWrite(u, c, state.updated) else u;
            && c in v.calls
            && (v.calls[c] == Done(id, Finished(transaction, wallet)) <==>
                  && transaction.prefix == TransactionIds && id in w.sessions
                  && MayComplete(w.sessions[id], wallet, transaction, terminalAt, now, later))
            && v.sessions ==
               if v.calls[c] == Done(id, Finished(transaction, wallet)) && w.sessions[id].status == Active
               then w.sessions[id := CompletedAs(w.sessions[id], wallet, transaction, terminalAt, later)] else w.sessions
  {
  }

  // What a recovery must show: a completed session still readable, an unused unexpired
  // challenge of it, and the bound wallet's proof over exactly that challenge.
  predicate MayRecover(w: World, id: SessionId, challenge: ChallengeId, wallet: Wallet, proof: Proof, now: Time) {
    && id in w.sessions && w.sessions[id].status == Completed && w.sessions[id].wallet == Some(wallet)
    && now < w.sessions[id].accessExpiresAt
    && challenge in w.challenges && w.challenges[challenge].session == id && w.challenges[challenge].usedAt.None?
    && now < w.challenges[challenge].expiresAt
    && proof == Proof(wallet, Message(id, challenge, wallet, w.challenges[challenge].nonce, w.challenges[challenge].expiresAt))
  }

  // In every run a recovery that nothing interrupts, with a new token, succeeds exactly if it
  // shows that; then the token is the session's one grant and the challenge is spent.
  lemma RecoverAnswers(
    w: World, c: nat, id: SessionId, challenge: ChallengeId, wallet: Wallet, proof: Proof, token: Secret, now: Time)
    requires Reachable(w) && c !in w.calls && token !in w.tokens
    ensures var read := Exec(w, RecoverGet(c, id, challenge, wallet, proof));
            var v := Exec(Exec(read, RecoverCheck(c, token, now)), RecoverWrite(c));
            && c in v.calls
            && (v.calls[c] == Done(id, Recovered(token)) <==> MayRecover(w, id, challenge, wallet, proof, now))
            && (if v.calls[c] == Done(id, Recovered(token))
                then
                  && v.sessions == w.sessions[id := w.sessions[id].(grant := token, updatedAt := now)]
                  && v.challenges == w.challenges[challenge := w.challenges[challenge].(usedAt := Some(now))]
                  && token in v.index && v.index[token] == id
                else v.sessions == w.sessions && v.challenges == w.challenges && v.index == w.index)
  {
    hide Run, Inv, Exec, RecoverDecide, DoRecoverWrite, MayRecover;
    ReachableInv(w);
    RecoverSteps(w, c, id, challenge, wallet, proof, token, now);
    if id in w.sessions {
      RecoverDecided(w, id, challenge, wallet, proof, token, now);
      if MayRecover(w, id, challenge, wallet, proof, now) {
        var state := RecoverDecide(w, w.sessions[id], challenge, wallet, proof, token, now);
        RecoverCommits(w, To(w.(tokens := w.tokens + {token}), c, state), c, id, challenge, wallet, proof, token, now);
      }
    } else {
      NoSessionNoRecovery(w, id, challenge, wallet, proof, now);
    }
  }

  lemma NoSessionNoRecovery(w: World, id: SessionId, challenge: ChallengeId, wallet: Wallet, proof: Proof, now: Time)
    requires id !in w.sessions
    ensures !MayRecover(w, id, challenge, wallet, proof, now)
  {
  }

  lemma RecoverSteps(
    w: World, c: nat, id: SessionId, challenge: ChallengeId, wallet: Wallet, proof: Proof, token: Secret, now: Time)
    requires c !in w.calls && token !in w.tokens
    ensures var read := Exec(w, RecoverGet(c, id, challenge, wallet, proof));
            var v := Exec(Exec(read, RecoverCheck(c, token, now)), RecoverWrite(c));
            if id !in w.sessions then v == To(w, c, Done(id, NotFound))
            else
              var state := RecoverDecide(w, w.sessions[id], challenge, wallet, proof, token, now);
              var u := To(w.(tokens := w.tokens + {token}), c, state);
              v == if state.Recovering? then DoRecoverWrite(u, c, state.updated, state.previous, state.spent, state.proof) else u
  {
    hide DoRecoverWrite, RecoverDecide, Exec;
    var found := if id in w.sessions then RecoverRead(w.sessions[id], challenge, wallet, proof) else Done(id, NotFound);
    RecoverStep(w, c, id, challenge, wallet, proof, token, now);
    var u1 := To(w, c, found);
    RecoverStep(u1, c, id, challenge, wallet, proof, token, now);
    var u2 := Exec(u1, RecoverCheck(c, token, now));
    RecoverStep(u2, c, id, challenge, wallet, proof, token, now);
    if id in w.sessions {
      SameDecision(w, u1, w.sessions[id], challenge, wallet, proof, token, now);
      var state := RecoverDecide(w, w.sessions[id], challenge, wallet, proof, token, now);
      assert u2 == To(w.(tokens := w.tokens + {token}), c, state);
    }
  }

  lemma SameDecision(
    w: World, u: World, s: Session, challenge: ChallengeId, wallet: Wallet, proof: Proof, token: Secret, now: Time)
    requires u.challenges == w.challenges
    ensures RecoverDecide(u, s, challenge, wallet, proof, token, now) == RecoverDecide(w, s, challenge, wallet, proof, token, now)
  {
  }

  // Each step of a recovery, by the state of its call.
  lemma RecoverStep(
    u: World, c: nat, id: SessionId, challenge: ChallengeId, wallet: Wallet, proof: Proof, token: Secret, now: Time)
    ensures c !in u.calls ==>
              Exec(u, RecoverGet(c, id, challenge, wallet, proof)) ==
                To(u, c, if id in u.sessions then RecoverRead(u.sessions[id], challenge, wallet, proof) else Done(id, NotFound))
    ensures c in u.calls ==>
              Exec(u, RecoverCheck(c, token, now)) ==
                if u.calls[c].RecoverRead? then DoRecoverCheck(u, c, u.calls[c], token, now) else u
    ensures c in u.calls ==>
              Exec(u, RecoverWrite(c)) ==
                if u.calls[c].Recovering?
                then DoRecoverWrite(u, c, u.calls[c].updated, u.calls[c].previous, u.calls[c].spent, u.calls[c].proof) else u
  {
    hide DoRecoverWrite, DoRecoverCheck;
  }

  // The decision, on stored sessions and challenges.
  lemma RecoverDecided(w: World, id: SessionId, challenge: ChallengeId, wallet: Wallet, proof: Proof, token: Secret, now: Time)
    requires Inv(w) && id in w.sessions
    ensures var state := RecoverDecide(w, w.sessions[id], challenge, wallet, proof, token, now);
            if MayRecover(w, id, challenge, wallet, proof, now)
            then state == Recovering(
                   w.sessions[id].(grant := token, updatedAt := now), w.sessions[id].grant,
                   w.challenges[challenge].(usedAt := Some(now)), proof)
            else state.Done? && !state.outcome.Recovered?
  {
    hide GrantsOk, LogOk, PendingOk, CallsOk;
    assert SessionOk(w.sessions[id], id);
    if challenge in w.challenges {
      assert ChallengeOk(w.sessions, w.challenges[challenge], challenge);
    }
  }

  lemma RecoverCommits(
    w: World, u: World, c: nat, id: SessionId, challenge: ChallengeId, wallet: Wallet, proof: Proof, token: Secret, now: Time)
    requires Inv(w) && MayRecover(w, id, challenge, wallet, proof, now) && token !in w.tokens
    requires u.sessions == w.sessions && u.challenges == w.challenges && u.index == w.index
    ensures var s := w.sessions[id].(grant := token, updatedAt := now);
            var spent := w.challenges[challenge].(usedAt := Some(now));
            var v := DoRecoverWrite(u, c, s, w.sessions[id].grant, spent, proof);
            && c in v.calls && v.calls[c] == Done(id, Recovered(token))
            && v.sessions == w.sessions[id := s] && v.challenges == w.challenges[challenge := spent]
            && token in v.index && v.index[token] == id
  {
    hide LogOk, PendingOk, CallsOk, Retired;
    assert SessionOk(w.sessions[id], id) && ChallengeOk(w.sessions, w.challenges[challenge], challenge);
  }
}
