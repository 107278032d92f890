// An access token as a whole (internal/authorization/access_tokens.go): one system in which
// the seller's history and the signing key ring run side by side, exchanges sign only what
// their state check admitted, and AuthorizeAccessToken asks for the key, the claims, the
// credential and the entitlement together.
module WholeToken {
  import opened Foundations
  import opened EntitlementStore
  import opened Credentials
  import opened ScopeClaims
  import SellerHistory
  import EpochFence
  import TokenLife
  import KeyRing

  // ---- scopes in claims ----

  function ScopeName(s: Scope): string {
    match s
    case ReadScope => "read"
    case ConfigureScope => "configure"
    case PublishScope => "publish"
    case ValidateScope => "validate"
    case RotateScope => "rotate"
    case UnsupportedScope => ""
  }

  function ScopeOf(name: string): Scope {
    match name
    case "read" => ReadScope
    case "configure" => ConfigureScope
    case "publish" => PublishScope
    case "validate" => ValidateScope
    case "rotate" => RotateScope
    case _ => UnsupportedScope
  }

  // The scopes a claim names.
  function ScopesIn(claim: string): (r: seq<Scope>)
    ensures ParseScopeClaim(claim).Some? ==>
              |r| == |ParseScopeClaim(claim).value| && forall i :: 0 <= i < |r| ==> r[i] == ScopeOf(ParseScopeClaim(claim).value[i])
  {
    var names := ParseScopeClaim(claim);
    if names.None? then [] else seq(|names.value|, i requires 0 <= i < |names.value| => ScopeOf(names.value[i]))
  }

  predicate Named(scopes: seq<Scope>, name: string) { exists i :: 0 <= i < |scopes| && ScopeName(scopes[i]) == name }

  // The claim names exactly these scopes.
  predicate Spells(claim: string, scopes: seq<Scope>) {
    var names := ParseScopeClaim(claim);
    && names.Some?
    && (forall i :: 0 <= i < |scopes| ==> ScopeName(scopes[i]) in names.value)
    && (forall i :: 0 <= i < |names.value| ==> Named(scopes, names.value[i]))
  }

  lemma NameIdentifies(s: Scope)
    ensures ScopeOf(ScopeName(s)) == s
  {
  }

  lemma SpelledScopes(claim: string, scopes: seq<Scope>, s: Scope)
    requires Spells(claim, scopes)
    ensures s in ScopesIn(claim) <==> s in scopes
  {
    hide ParseScopeClaim, ScopeName, ScopeOf;
    NameIdentifies(s);
    var names, read := ParseScopeClaim(claim).value, ScopesIn(claim);
    if s in scopes {
      var i :| 0 <= i < |scopes| && scopes[i] == s;
      var j :| 0 <= j < |names| && names[j] == ScopeName(s);
      assert read[j] == s;
    }
    if s in read {
      var j :| 0 <= j < |read| && read[j] == s;
      assert Named(scopes, names[j]);
      var i :| 0 <= i < |scopes| && ScopeName(scopes[i]) == names[j];
      NameIdentifies(scopes[i]);
      assert scopes[i] == s;
    }
  }

  // ---- the joint system ----

  datatype World = World(history: SellerHistory.World, keys: KeyRing.World)

  datatype Action = Seller(step: SellerHistory.Action) | Keys(act: KeyRing.Action)

  // The claims are those of this admitted token.
  predicate Carries(seller: Id, claims: KeyRing.Claims, token: SellerHistory.Token) {
    && claims.seller == seller && claims.credential == token.credential && claims.epoch == token.epoch
    && claims.jti == token.jti && Spells(claims.scope, token.scopes)
  }

  predicate Admitted(history: SellerHistory.World, claims: KeyRing.Claims) {
    exists token :: token in history.tokens && Carries(history.seller, claims, token)
  }

  // An exchange signs only claims whose state check passed.
  predicate MaySign(w: World, c: nat) {
    c in w.keys.calls && w.keys.calls[c].Keyed? ==> Admitted(w.history, w.keys.calls[c].claims)
  }

  function Exec(config: KeyRing.Config, w: World, a: Action): World {
    match a
    case Seller(step) => w.(history := SellerHistory.Exec(w.history, step))
    case Keys(act) =>
      if act.IssueSign? && !MaySign(w, act.call) then w else w.(keys := KeyRing.Exec(config, w.keys, act))
  }

  function Run(config: KeyRing.Config, w: World, actions: seq<Action>): World {
    if actions == [] then w else Exec(config, Run(config, w, actions[..|actions| - 1]), actions[|actions| - 1])
  }

  function Start(resolver: bool, seller: Id, first: string, start: Time): World {
    World(SellerHistory.Init(resolver, seller), KeyRing.Start(first, start))
  }

  // ---- each half runs on its own ----

  ghost predicate HistoryOf(resolver: bool, seller: Id, h: SellerHistory.World) {
    exists steps :: h == SellerHistory.Run(SellerHistory.Init(resolver, seller), steps)
  }

  ghost predicate KeysOf(config: KeyRing.Config, first: string, start: Time, k: KeyRing.World) {
    exists acts :: k == KeyRing.Run(config, KeyRing.Start(first, start), acts)
  }

  lemma HistoryGoesOn(resolver: bool, seller: Id, h: SellerHistory.World, step: SellerHistory.Action)
    requires HistoryOf(resolver, seller, h)
    ensures HistoryOf(resolver, seller, SellerHistory.Exec(h, step))
  {
    hide SellerHistory.Exec;
    var steps :| h == SellerHistory.Run(SellerHistory.Init(resolver, seller), steps);
    assert (steps + [step])[..|steps|] == steps;
    assert SellerHistory.Exec(h, step) == SellerHistory.Run(SellerHistory.Init(resolver, seller), steps + [step]);
  }

  lemma KeysGoOn(config: KeyRing.Config, first: string, start: Time, k: KeyRing.World, act: KeyRing.Action)
    requires KeysOf(config, first, start, k)
    ensures KeysOf(config, first, start, KeyRing.Exec(config, k, act))
  {
    hide KeyRing.Exec;
    var acts :| k == KeyRing.Run(config, KeyRing.Start(first, start), acts);
    assert (acts + [act])[..|acts|] == acts;
    assert KeyRing.Exec(config, k, act) == KeyRing.Run(config, KeyRing.Start(first, start), acts + [act]);
  }

  // Every signed token carries an admitted one.
  predicate Backed(w: World) { forall t :: t in w.keys.issued ==> Admitted(w.history, t.claims) }

  lemma HistoryKeepsAdmitted(resolver: bool, seller: Id, h: SellerHistory.World, step: SellerHistory.Action, claims: KeyRing.Claims)
    requires HistoryOf(resolver, seller, h) && Admitted(h, claims)
    ensures Admitted(SellerHistory.Exec(h, step), claims)
  {
    hide SellerHistory.Exec, SellerHistory.Run, Carries, EpochFence.Fence;
    var steps :| h == SellerHistory.Run(SellerHistory.Init(resolver, seller), steps);
    EpochFence.InitKeepsFence(resolver, seller);
    EpochFence.RunKeepsFence(SellerHistory.Init(resolver, seller), steps);
    EpochFence.ExecKeepsFence(h, step);
    var token :| token in h.tokens && Carries(h.seller, claims, token);
    assert token in SellerHistory.Exec(h, step).tokens;
  }

  lemma KeysIssue(config: KeyRing.Config, k: KeyRing.World, act: KeyRing.Action, t: KeyRing.Token)
    requires t in KeyRing.Exec(config, k, act).issued && t !in k.issued
    ensures act.IssueSign? && act.call in k.calls && k.calls[act.call].Keyed? && k.calls[act.call].claims == t.claims
  {
    hide KeyRing.Rotated, KeyRing.AfterLookup, KeyRing.Active, KeyRing.ClaimsFor, KeyRing.Exchangeable;
  }

  lemma {:induction false} RunKeeps(
    config: KeyRing.Config, resolver: bool, seller: Id, first: string, start: Time, actions: seq<Action>)
    ensures var w := Run(config, Start(resolver, seller, first, start), actions);
            HistoryOf(resolver, seller, w.history) && KeysOf(config, first, start, w.keys) && Backed(w)
  {
    hide SellerHistory.Exec, KeyRing.Exec, HistoryOf, KeysOf, Admitted;
    if actions == [] {
      StartKeeps(config, resolver, seller, first, start);
    } else {
      var k := |actions| - 1;
      RunKeeps(config, resolver, seller, first, start, actions[..k]);
      var w, a := Run(config, Start(resolver, seller, first, start), actions[..k]), actions[k];
      var v := Exec(config, w, a);
      match a {
        case Seller(step) =>
          HistoryGoesOn(resolver, seller, w.history, step);
          forall t | t in v.keys.issued ensures Admitted(v.history, t.claims) {
            HistoryKeepsAdmitted(resolver, seller, w.history, step, t.claims);
          }
        case Keys(act) =>
          KeysGoOn(config, first, start, w.keys, act);
          forall t | t in v.keys.issued ensures Admitted(v.history, t.claims) {
            if t !in w.keys.issued {
              KeysIssue(config, w.keys, act, t);
            }
          }
      }
    }
  }

  lemma StartKeeps(config: KeyRing.Config, resolver: bool, seller: Id, first: string, start: Time)
    ensures var w := Start(resolver, seller, first, start);
            HistoryOf(resolver, seller, w.history) && KeysOf(config, first, start, w.keys) && Backed(w)
  {
    assert SellerHistory.Init(resolver, seller) == SellerHistory.Run(SellerHistory.Init(resolver, seller), []);
    assert KeyRing.Start(first, start) == KeyRing.Run(config, KeyRing.Start(first, start), []);
  }

  // ---- acceptance ----

  // AuthorizeAccessToken: a signature verifies for the tokens that were signed.
  predicate Authorizes(config: KeyRing.Config, w: World, t: KeyRing.Token, now: Time) {
    && KeyRing.Finds(w.keys.ring, t.keyId, w.keys.now) && t in w.keys.issued
    && KeyRing.ValidateClaims(config, t.claims, now) == KeyRing.Valid
    && t.claims.seller == w.history.seller
    && SellerHistory.CredentialAdmits(w.history.credentials, t.claims.credential, ScopesIn(t.claims.scope), t.claims.epoch, now)
    && SellerHistory.EntitlementAdmits(Stored(w.history.log), t.claims.epoch, now)
  }

  // In every run of the whole system a token is accepted exactly when it was signed by an
  // exchange, has not expired, its credential is neither revoked nor expired, and its seller
  // was active in every version since the credential's stamp, before access ends. No
  // rotation of keys, and nothing else, comes into it.
  lemma AuthorizedIff(
    config: KeyRing.Config, resolver: bool, seller: Id, first: string, start: Time, actions: seq<Action>,
    t: KeyRing.Token, now: Time)
    requires Run(config, Start(resolver, seller, first, start), actions).keys.now <= now
    ensures var w := Run(config, Start(resolver, seller, first, start), actions); var id := t.claims.credential;
            Authorizes(config, w, t, now) <==>
              && t in w.keys.issued && t.claims.issuedAt > 0 && KeyRing.Unix(now) < t.claims.expiresAt
              && TokenLife.Live(w.history.credentials, id, now) && id in w.history.stamps
              && EpochFence.ActiveThroughout(w.history.log, w.history.stamps[id], |w.history.log|)
              && now < w.history.log[|w.history.log| - 1].terms.accessEndsAt
  {
    hide Run, TokenLife.Live, EpochFence.ActiveThroughout, KeyRing.Finds, KeyRing.ValidateClaims, KeyRing.Unix,
         SellerHistory.Run, KeyRing.Run, SellerHistory.CredentialAdmits, SellerHistory.EntitlementAdmits, Spells, KeysOf, HistoryOf;
    var w := Run(config, Start(resolver, seller, first, start), actions);
    RunKeeps(config, resolver, seller, first, start, actions);
    if t in w.keys.issued {
      KeyHalf(config, first, start, w.keys, t, now);
      var token :| token in w.history.tokens && Carries(w.history.seller, t.claims, token);
      StateHalf(resolver, seller, w.history, token, t.claims.scope, now);
    }
  }

  lemma KeyHalf(config: KeyRing.Config, first: string, start: Time, k: KeyRing.World, t: KeyRing.Token, now: Time)
    requires KeysOf(config, first, start, k) && t in k.issued && k.now <= now
    ensures (KeyRing.Finds(k.ring, t.keyId, k.now) && KeyRing.ValidateClaims(config, t.claims, now) == KeyRing.Valid) <==>
            (t.claims.issuedAt > 0 && KeyRing.Unix(now) < t.claims.expiresAt)
  {
    hide KeyRing.Run, KeyRing.Finds, KeyRing.ValidateClaims, KeyRing.Unix;
    var acts :| k == KeyRing.Run(config, KeyRing.Start(first, start), acts);
    KeyRing.IssuedTokenAcceptedUntilExpiry(config, first, start, acts, t, now);
  }

  lemma StateHalf(resolver: bool, seller: Id, h: SellerHistory.World, token: SellerHistory.Token, claim: string, now: Time)
    requires HistoryOf(resolver, seller, h) && token in h.tokens && Spells(claim, token.scopes)
    ensures SellerHistory.CredentialAdmits(h.credentials, token.credential, ScopesIn(claim), token.epoch, now) <==>
            TokenLife.Live(h.credentials, token.credential, now)
    ensures token.credential in h.stamps
    ensures SellerHistory.EntitlementAdmits(Stored(h.log), token.epoch, now) <==>
            && EpochFence.ActiveThroughout(h.log, h.stamps[token.credential], |h.log|)
            && now < h.log[|h.log| - 1].terms.accessEndsAt
  {
    hide SellerHistory.Run, TokenLife.Live, EpochFence.ActiveThroughout, SellerHistory.EntitlementAdmits, Spells,
         SellerHistory.Unexpired;
    var steps :| h == SellerHistory.Run(SellerHistory.Init(resolver, seller), steps);
    TokenLife.CredentialAdmitsIffLive(resolver, seller, steps, token, now);
    EpochFence.TokenAdmittedIffActiveSince(resolver, seller, steps, token, now);
    forall s ensures s in ScopesIn(claim) <==> s in token.scopes {
      SpelledScopes(claim, token.scopes, s);
    }
  }
}
