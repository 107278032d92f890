// What a rotation gives its caller (internal/integrations/service.go, Rotate): the successor
// that was asked for, and, undisturbed, exactly when the predecessor is live at the version
// named and the successor is acceptable.
module RotationAnswers {
  import opened Foundations
  import opened Entitlement
  import opened EntitlementStore
  import opened Credentials
  import opened SellerHistory
  import opened Asks
  import RotationChains

  // In every run a returned rotation is what some rotation among the actions asked for, with
  // that key and body: its token, identifier and time; its name, scopes and expiry where
  // given, and the predecessor's where not.
  lemma RotationIsAsAsked(resolver: bool, seller: Id, actions: seq<Action>, c: nat)
    requires var w := Run(Init(resolver, seller), actions); c in w.calls && w.calls[c].RotationReturned?
    ensures var call := Run(Init(resolver, seller), actions).calls[c];
            exists k :: 0 <= k < |actions| && AskedFor(actions[k], call.key, call.body, call.rotation)
  {
    hide Run, RotationChains.OnePredecessor, RotationChains.CredentialOk, RotationChains.MadeFor, AskedIn;
    RotationChains.InitChained(resolver, seller);
    RotationChains.RunKeepsChains(Init(resolver, seller), actions);
    var w := Run(Init(resolver, seller), actions);
    var call := w.calls[c];
    assert RotationChains.CallOk(w, call);
    assert RotationChains.ReplayOk(w, call.key, w.replays[call.key]);
    var ask :| ask in w.asked && ask.RotateAsk? && RotationChains.MadeFor(ask.request, call.key, call.body, call.rotation);
    AskedByActions(resolver, seller, actions, ask);
    AskedAction(actions, ask, call);
  }

  predicate AskedFor(a: Action, key: ReplayKey, body: string, r: Rotation) {
    a.RotateLoad? && RotationChains.MadeFor(a.request, key, body, r)
  }

  lemma AskedAction(actions: seq<Action>, ask: Ask, call: Call)
    requires AskedIn(actions, ask) && ask.RotateAsk? && call.RotationReturned?
    requires RotationChains.MadeFor(ask.request, call.key, call.body, call.rotation)
    ensures exists k :: 0 <= k < |actions| && AskedFor(actions[k], call.key, call.body, call.rotation)
  {
    hide RotationChains.MadeFor;
    var k :| 0 <= k < |actions| && AskOf(actions[k]) == Some(ask);
    assert AskedFor(actions[k], call.key, call.body, call.rotation);
  }

  // ---- one whole rotation ----

  // The four steps of a rotation that nothing interrupts.
  function Rotate(w: World, c: nat, request: RotateRequest): World {
    var loaded := Exec(Exec(w, RotateLoad(c, request)), RotateGet(c));
    Exec(Exec(loaded, RotateStamp(c)), RotateCommit(c))
  }

  // An acceptable successor: as asked for, stamped with the seller's current epoch.
  ghost predicate Acceptable(w: World, request: RotateRequest, p: Identity, s: Identity) {
    && RotationChains.Fits(request, p, s) && s.sellerId == w.seller && ValidIdentity(s)
    && (if w.resolver
        then
          && w.log != [] && w.log[|w.log| - 1].terms.status == Active && request.now < w.log[|w.log| - 1].terms.accessEndsAt
          && s.epoch == w.log[|w.log| - 1].epoch
        else s.epoch == 1)
  }

  // The predecessor is live at the version named and the successor's identifier is free.
  predicate Rotatable(w: World, request: RotateRequest) {
    var id := request.key.credential;
    && id in w.credentials && w.credentials[id].version == request.expectedVersion
    && w.credentials[id].revokedAt.None? && w.credentials[id].updatedAt <= request.now
    && request.successor.prefix == CredentialIds && request.successor !in w.credentials
  }

  // The committed rotation: the predecessor revoked in favour of the successor, the
  // successor stored, everything else as it was.
  predicate Committed(w: World, v: World, c: nat, request: RotateRequest, s: Identity) {
    var id := request.key.credential;
    && id in w.credentials && c in v.calls && v.calls[c].RotationReturned? && v.calls[c].key == request.key
    && var r := v.calls[c].rotation;
    && r.token == request.token && r.successor == Snapshot(s, None, None, None, request.now, 1)
    && r.predecessor == w.credentials[id].(
         revokedAt := Some(request.now), replacedBy := Some(s.id), updatedAt := request.now, version := request.expectedVersion + 1)
    && v.credentials == w.credentials[id := r.predecessor][s.id := r.successor]
  }

  // In every run, a rotation under a new key that nothing interrupts commits exactly when
  // its predecessor is rotatable and an acceptable successor exists, and then it commits
  // that successor; otherwise it is refused and changes no credential.
  lemma RotationCommitsIff(resolver: bool, seller: Id, actions: seq<Action>, c: nat, request: RotateRequest, s: Identity)
    requires var w := Run(Init(resolver, seller), actions); c !in w.calls && request.key !in w.replays
    ensures var w := Run(Init(resolver, seller), actions); var v := Rotate(w, c, request);
            && (Rotatable(w, request) && Acceptable(w, request, w.credentials[request.key.credential].identity, s)
                ==> Committed(w, v, c, request, s))
            && (c in v.calls && v.calls[c].RotationReturned? ==>
                  && Rotatable(w, request)
                  && Acceptable(w, request, w.credentials[request.key.credential].identity, v.calls[c].rotation.successor.identity))
            && (!(c in v.calls && v.calls[c].RotationReturned?) ==> v.credentials == w.credentials && v.replays == w.replays)
  {
    hide Run, Rotate, Rotatable, Acceptable, Committed, RotationChains.Chained;
    RotationChains.InitChained(resolver, seller);
    RotationChains.RunKeepsChains(Init(resolver, seller), actions);
    RotationFrom(Run(Init(resolver, seller), actions), c, request, s);
  }

  // What a rotation comes to.
  predicate Comes(w: World, v: World, c: nat, request: RotateRequest, p: Snapshot, made: Snapshot) {
    && c in v.calls && v.calls[c].RotationReturned? && v.calls[c].key == request.key
    && v.calls[c].rotation.token == request.token && v.calls[c].rotation.successor == made
    && Replace(p, request.successor, request.now) == Ok(v.calls[c].rotation.predecessor)
    && v.credentials == w.credentials[p.identity.id := v.calls[c].rotation.predecessor][made.identity.id := made]
  }

  predicate Stays(w: World, v: World, c: nat) {
    c in v.calls && !v.calls[c].RotationReturned? && v.credentials == w.credentials && v.replays == w.replays
  }

  function Made(w: World, request: RotateRequest, p: Snapshot): Option<Snapshot> {
    match IssuanceEpoch(w.resolver, Stored(w.log), request.now)
    case None => None
    case Some(epoch) =>
      match NewCredential(SuccessorIdentity(w.seller, request, p, epoch))
      case Err(_) => None
      case Ok(made) => Some(made)
  }

  lemma RotationFrom(w: World, c: nat, request: RotateRequest, s: Identity)
    requires RotationChains.Chained(w) && c !in w.calls && request.key !in w.replays
    ensures var v := Rotate(w, c, request);
            && (Rotatable(w, request) && Acceptable(w, request, w.credentials[request.key.credential].identity, s)
                ==> Committed(w, v, c, request, s))
            && (c in v.calls && v.calls[c].RotationReturned? ==>
                  && Rotatable(w, request)
                  && Acceptable(w, request, w.credentials[request.key.credential].identity, v.calls[c].rotation.successor.identity))
            && (!(c in v.calls && v.calls[c].RotationReturned?) ==> v.credentials == w.credentials && v.replays == w.replays)
  {
    hide Rotate, RotationChains.Chained, Acceptable, Made, Replace, Comes;
    var v := Rotate(w, c, request);
    var id := request.key.credential;
    RotateEnds(w, c, request);
    if id in w.credentials {
      var p := w.credentials[id];
      RotationChains.ChainedStore(w, c);
      RotationChains.StoredCoherent(w, id);
      AcceptableIff(w, request, p, s);
      ReplaceIff(p, request);
      if Made(w, request, p).Some? {
        AcceptableIff(w, request, p, Made(w, request, p).value.identity);
        MadeIsNew(w, request, p);
        if p.version == request.expectedVersion && p.revokedAt.None? && Replace(p, request.successor, request.now).Ok?
           && request.successor !in w.credentials
        {
          ComesToCommitted(w, v, c, request, p);
        }
      }
    }
  }

  // Acceptable successors are the one that would be made.
  lemma AcceptableIff(w: World, request: RotateRequest, p: Snapshot, s: Identity)
    requires RotationChains.StoreOk(w) && p.identity.id in w.credentials && w.credentials[p.identity.id] == p
    ensures Acceptable(w, request, p.identity, s) <==>
            Made(w, request, p) == Some(Snapshot(s, None, None, None, request.now, 1))
  {
    hide TrimSpace, RotationChains.ReplayOk, RotationChains.OnePredecessor;
    assert RotationChains.CredentialOk(w, p.identity.id);
    TrimIdempotent(request.name);
    TrimIdempotent(p.identity.name);
  }

  lemma MadeIsNew(w: World, request: RotateRequest, p: Snapshot)
    requires Made(w, request, p).Some?
    ensures var made := Made(w, request, p).value;
            made == Snapshot(made.identity, None, None, None, request.now, 1) && made.identity.id == request.successor
  {
    hide TrimSpace, ValidIdentity;
  }

  lemma ReplaceIff(p: Snapshot, request: RotateRequest)
    ensures Replace(p, request.successor, request.now).Ok? <==>
            && request.successor.prefix == CredentialIds && request.successor != p.identity.id
            && p.revokedAt.None? && p.updatedAt <= request.now
    ensures Replace(p, request.successor, request.now).Ok? ==>
              Replace(p, request.successor, request.now).value == p.(
                revokedAt := Some(request.now), replacedBy := Some(request.successor), updatedAt := request.now, version := p.version + 1)
  {
  }

  lemma ComesToCommitted(w: World, v: World, c: nat, request: RotateRequest, p: Snapshot)
    requires request.key.credential in w.credentials && p == w.credentials[request.key.credential]
    requires p.identity.id == request.key.credential && p.version == request.expectedVersion
    requires Made(w, request, p).Some? && Comes(w, v, c, request, p, Made(w, request, p).value)
    ensures Committed(w, v, c, request, Made(w, request, p).value.identity)
  {
    hide Replace, Made;
    ReplaceIff(p, request);
    MadeIsNew(w, request, p);
  }

  // The four steps together.
  lemma RotateEnds(w: World, c: nat, request: RotateRequest)
    requires RotationChains.Chained(w) && c !in w.calls && request.key !in w.replays
    ensures var v := Rotate(w, c, request); var id := request.key.credential;
            if id in w.credentials && w.credentials[id].version == request.expectedVersion && w.credentials[id].revokedAt.None?
               && Made(w, request, w.credentials[id]).Some? && Replace(w.credentials[id], request.successor, request.now).Ok?
               && request.successor !in w.credentials
            then Comes(w, v, c, request, w.credentials[id], Made(w, request, w.credentials[id]).value)
            else Stays(w, v, c)
  {
    hide Exec, RotationChains.Chained, Made, Replace, GetOutcome, DoRotateStamp, DoRotateCommit, Stays, Comes;
    LoadStep(w, c, request);
    var u1 := Exec(w, RotateLoad(c, request));
    RotateSteps(u1, c);
    GetEnds(u1, request);
    var u2 := Exec(u1, RotateGet(c));
    RotateSteps(u2, c);
    var u3 := Exec(u2, RotateStamp(c));
    if u2.calls[c].RotateLoaded? {
      var p := u2.calls[c].predecessor;
      RotationChains.ChainedStore(w, c);
      RotationChains.StoredCoherent(w, request.key.credential);
      StampEnds(w, u2, c, request, p);
      RotateSteps(u3, c);
      if u3.calls[c].RotateStamped? {
        CommitEnds(w, u3, c, request, p);
      } else {
        RefusedStays(w, u3, c);
      }
    } else {
      RotateSteps(u3, c);
      RefusedStays(w, u3, c);
    }
  }

  lemma RefusedStays(w: World, v: World, c: nat)
    requires c in v.calls && v.calls[c].RotationRefused? && v.credentials == w.credentials && v.replays == w.replays
    ensures Stays(w, v, c)
  {
  }

  lemma GetEnds(u: World, request: RotateRequest)
    ensures var id := request.key.credential;
            if id in u.credentials && u.credentials[id].version == request.expectedVersion && u.credentials[id].revokedAt.None?
            then GetOutcome(u.credentials, request) == RotateLoaded(request, u.credentials[id])
            else GetOutcome(u.credentials, request).RotationRefused?
  {
  }

  lemma StampEnds(w: World, u: World, c: nat, request: RotateRequest, p: Snapshot)
    requires u.resolver == w.resolver && u.log == w.log && u.seller == w.seller
    ensures DoRotateStamp(u, c, request, p) == To(u, c,
              if Made(w, request, p).Some? && Replace(p, request.successor, request.now).Ok?
              then RotateStamped(request, p, Made(w, request, p).value, |w.log|) else RotationRefused(OtherError))
  {
    hide NewCredential, SuccessorIdentity, Replace, IssuanceEpoch;
  }

  lemma CommitEnds(w: World, u: World, c: nat, request: RotateRequest, p: Snapshot)
    requires u.credentials == w.credentials && u.replays == w.replays && request.key !in w.replays
    requires p.identity.id in w.credentials && w.credentials[p.identity.id] == p && p.version == request.expectedVersion
    requires Made(w, request, p).Some? && Replace(p, request.successor, request.now).Ok?
    ensures var made := Made(w, request, p).value; var v := DoRotateCommit(u, c, request, p, made, |w.log|);
            if request.successor !in w.credentials then Comes(w, v, c, request, p, made) else Stays(w, v, c)
  {
    hide Made;
    MadeIsNew(w, request, p);
    ReplaceIff(p, request);
    hide Replace;
  }

  lemma LoadStep(w: World, c: nat, request: RotateRequest)
    requires c !in w.calls && request.key !in w.replays
    ensures Exec(w, RotateLoad(c, request)) == To(Asking(w, RotateAsk(request)), c, RotateUnreplayed(request))
  {
  }

  // Each later step, by the state of its call.
  lemma RotateSteps(u: World, c: nat)
    requires c in u.calls
    ensures Exec(u, RotateGet(c)) ==
            if u.calls[c].RotateUnreplayed? then To(u, c, GetOutcome(u.credentials, u.calls[c].request)) else u
    ensures Exec(u, RotateStamp(c)) ==
            if u.calls[c].RotateLoaded? then DoRotateStamp(u, c, u.calls[c].request, u.calls[c].predecessor) else u
    ensures Exec(u, RotateCommit(c)) ==
            if u.calls[c].RotateStamped?
            then DoRotateCommit(u, c, u.calls[c].request, u.calls[c].predecessor, u.calls[c].successor, u.calls[c].stamp) else u
  {
    hide GetOutcome, DoRotateStamp, DoRotateCommit;
  }
}
