// The signing key ring with overlap, and the life of an access token under it
// (internal/authorization/access_tokens.go). The clock never goes back; issuing reads
// the clock, the current key id and the signer in separate steps, with rotations,
// lookups and publications of the key set anywhere between them.
module KeyRing {
  import opened Foundations
  import opened Sorting
  import opened ScopeClaims

  const MINIMUM_LIFETIME: int := 2 * MINUTE
  const MAXIMUM_LIFETIME: int := 5 * MINUTE
  const MCP_AUDIENCE := "urn:agentpay:mcp"

  // The Unix epoch, counted from Go's zero time.
  const UNIX_EPOCH: Time := 62_135_596_800 * SECOND

  function Unix(t: Time): int { (t - UNIX_EPOCH) / SECOND }

  // A key id stands for its key pair.
  datatype Key = Key(id: string, publishUntil: Time)

  datatype Ring = Ring(current: Key, retired: seq<Key>)

  // ---- the ring, specified ----

  function Active(keys: seq<Key>, now: Time): seq<Key> {
    if keys == [] then []
    else
      var rest := Active(keys[..|keys| - 1], now);
      var key := keys[|keys| - 1];
      if now < key.publishUntil then rest + [key] else rest
  }

  function Rotated(ring: Ring, id: string, now: Time, later: Time): Ring {
    Ring(Key(id, ZERO_TIME), [ring.current.(publishUntil := now + MAXIMUM_LIFETIME)] + Active(ring.retired, later))
  }

  predicate Holds(keys: seq<Key>, id: string) { exists i :: 0 <= i < |keys| && keys[i].id == id }

  // VerificationKey finds a key.
  predicate Finds(ring: Ring, id: string, now: Time) { ring.current.id == id || Holds(Active(ring.retired, now), id) }

  function AfterLookup(ring: Ring, id: string, now: Time): Ring {
    if ring.current.id == id then ring else ring.(retired := Active(ring.retired, now))
  }

  // ---- the ring, as the source updates it ----

  class LocalES256KeyRing {
    var current: Key
    var retired: seq<Key>

    constructor (id: string)
      ensures View() == Ring(Key(id, ZERO_TIME), [])
    {
      current := Key(id, ZERO_TIME);
      retired := [];
    }

    function View(): Ring
      reads this
    {
      Ring(current, retired)
    }

    // activeRetiredLocked
    method ActiveRetired(now: Time) returns (active: seq<Key>)
      ensures active == Active(retired, now)
    {
      active := [];
      for i := 0 to |retired|
        invariant active == Active(retired[..i], now)
      {
        assert retired[..i + 1][..i] == retired[..i];
        if now < retired[i].publishUntil {
          active := active + [retired[i]];
        }
      }
      assert retired[..|retired|] == retired;
    }

    method Rotate(id: string, now: Time, later: Time)
      modifies this
      ensures View() == Rotated(old(View()), id, now, later)
    {
      var previous := current;
      previous := previous.(publishUntil := now + MAXIMUM_LIFETIME);
      var active := ActiveRetired(later);
      retired := [previous] + active;
      current := Key(id, ZERO_TIME);
    }

    method VerificationKey(id: string, now: Time) returns (found: bool)
      modifies this
      ensures found == Finds(old(View()), id, now)
      ensures View() == AfterLookup(old(View()), id, now)
    {
      if current.id == id {
        return true;
      }
      retired := ActiveRetired(now);
      for i := 0 to |retired|
        invariant forall k :: 0 <= k < i ==> retired[k].id != id
        invariant View() == AfterLookup(old(View()), id, now)
      {
        if retired[i].id == id {
          return true;
        }
      }
      return false;
    }
  }

  // ---- tokens ----

  datatype Config = Config(issuer: string, audience: string, lifetime: int)

  datatype Claims = Claims(
    issuer: string, audience: string, subject: Id, seller: Id, credential: Id, scope: string, epoch: nat, jti: Id,
    issuedAt: int, expiresAt: int)

  // A signed token: its key id and claims.
  datatype Token = Token(keyId: string, claims: Claims)

  datatype Judgement = Valid | Invalid | TokenExpired

  // The 64-bit product time.Duration(n) * time.Second
  function SecondsAsDuration(n: int): int {
    var wrapped := (n * SECOND) % UINT64_MOD;
    if wrapped < UINT64_MOD / 2 then wrapped else wrapped - UINT64_MOD
  }

  function ValidateClaims(config: Config, c: Claims, now: Time): Judgement {
    if c.seller.prefix != SellerIds || c.credential.prefix != CredentialIds || c.jti.prefix != CapabilityIds then Invalid
    else if c.issuer != config.issuer || c.audience != config.audience || c.subject != c.credential then Invalid
    else if c.epoch == 0 || c.issuedAt <= 0 || c.expiresAt <= c.issuedAt then Invalid
    else
      var lifetime := SecondsAsDuration(c.expiresAt - c.issuedAt);
      if lifetime < MINIMUM_LIFETIME || lifetime > MAXIMUM_LIFETIME || c.issuedAt > Unix(now) then Invalid
      else if Unix(now) >= c.expiresAt then TokenExpired
      else if ParseScopeClaim(c.scope).None? then Invalid
      else Valid
  }

  // What Exchange may be asked to sign: an authorized credential and its epoch.
  datatype Grant = Grant(seller: Id, credential: Id, epoch: nat, jti: Id, scopes: seq<string>)

  predicate Exchangeable(config: Config, g: Grant) {
    && config.audience == MCP_AUDIENCE && MINIMUM_LIFETIME <= config.lifetime <= MAXIMUM_LIFETIME
    && g.seller.prefix == SellerIds && g.credential.prefix == CredentialIds && g.jti.prefix == CapabilityIds
    && g.epoch > 0 && Acceptable(g.scopes)
  }

  function ClaimsFor(config: Config, g: Grant, now: Time): Claims {
    Claims(config.issuer, config.audience, g.credential, g.seller, g.credential, JoinSpaced(Sort(LexLess, g.scopes)),
           g.epoch, g.jti, Unix(now), Unix(now + config.lifetime))
  }

  // Truncating both ends to seconds keeps the lifetime within its bounds.
  lemma TruncatedLifetime(now: Time, lifetime: int)
    requires MINIMUM_LIFETIME <= lifetime <= MAXIMUM_LIFETIME
    ensures var seconds := Unix(now + lifetime) - Unix(now);
            seconds > 0 && MINIMUM_LIFETIME <= SecondsAsDuration(seconds) <= MAXIMUM_LIFETIME
  {
  }

  // The claims of an exchange pass every check from the moment of issue up to expiry,
  // and fail only by expiring, exactly when the clock stood past the Unix epoch.
  lemma IssuedClaimsValidIff(config: Config, g: Grant, issued: Time, now: Time)
    requires Exchangeable(config, g) && issued <= now
    ensures var c := ClaimsFor(config, g, issued);
            ValidateClaims(config, c, now) ==
              if Unix(issued) <= 0 then Invalid else if Unix(now) < c.expiresAt then Valid else TokenExpired
  {
    hide SecondsAsDuration, Sort, LexLess, JoinSpaced, ParseScopeClaim, Acceptable;
    TruncatedLifetime(issued, config.lifetime);
    ScopeClaimRoundTrip(g.scopes);
    assert Unix(issued) <= Unix(now);
  }

  // ---- runs ----

  datatype Call = Claimed(claims: Claims) | Keyed(claims: Claims, keyId: string) | Done

  // retiredAt and issued record rotations and issued tokens; generated, every key id made.
  datatype World = World(
    ring: Ring, now: Time, generated: set<string>, retiredAt: map<string, Time>, issued: set<Token>, calls: map<nat, Call>)

  function Start(id: string, now: Time): World { World(Ring(Key(id, ZERO_TIME), []), now, {id}, map[], {}, map[]) }

  // Key ids are random and do not repeat.
  datatype Action =
    | Tick(to: Time)
    | RotateKey(id: string, later: Time)
    | Lookup(id: string)
    | PublishKeys
    | IssueClaims(call: nat, grant: Grant)
    | IssueKey(call: nat)
    | IssueSign(call: nat)

  function Exec(config: Config, w: World, a: Action): World {
    match a
    case Tick(to) => if to < w.now then w else w.(now := to)
    case RotateKey(id, later) =>
      if id in w.generated || later < w.now then w
      else w.(ring := Rotated(w.ring, id, w.now, later), now := later, generated := w.generated + {id},
              retiredAt := w.retiredAt[w.ring.current.id := w.now])
    case Lookup(id) => w.(ring := AfterLookup(w.ring, id, w.now))
    case PublishKeys => w.(ring := w.ring.(retired := Active(w.ring.retired, w.now)))
    case IssueClaims(c, g) =>
      if c in w.calls || !Exchangeable(config, g) then w else w.(calls := w.calls[c := Claimed(ClaimsFor(config, g, w.now))])
    case IssueKey(c) =>
      if c in w.calls && w.calls[c].Claimed? then w.(calls := w.calls[c := Keyed(w.calls[c].claims, w.ring.current.id)]) else w
    case IssueSign(c) =>
      if c !in w.calls || !w.calls[c].Keyed? then w
      else if w.calls[c].keyId != w.ring.current.id then w.(calls := w.calls[c := Done])
      else w.(calls := w.calls[c := Done], issued := w.issued + {Token(w.calls[c].keyId, w.calls[c].claims)})
  }

  function Run(config: Config, w: World, actions: seq<Action>): World {
    if actions == [] then w else Exec(config, Run(config, w, actions[..|actions| - 1]), actions[|actions| - 1])
  }

  // ---- the invariant ----

  // Everything a lookup could need is still in the ring; nothing wrong is.
  predicate RingOk(w: World) {
    && w.ring.current.id in w.generated && w.ring.current.id !in w.retiredAt
    && (forall i :: 0 <= i < |w.ring.retired| ==>
          w.ring.retired[i].id in w.retiredAt
          && w.ring.retired[i].publishUntil == w.retiredAt[w.ring.retired[i].id] + MAXIMUM_LIFETIME)
    && (forall id :: id in w.retiredAt ==>
          id in w.generated && (w.now < w.retiredAt[id] + MAXIMUM_LIFETIME ==> Holds(w.ring.retired, id)))
    && (forall id :: id in w.generated ==> id == w.ring.current.id || id in w.retiredAt)
  }

  // Claims that an exchange formed at some moment up to now.
  ghost predicate Formed(config: Config, c: Claims, now: Time) {
    exists g, t :: Exchangeable(config, g) && t <= now && c == ClaimsFor(config, g, t)
  }

  // The moment a token stops being valid.
  function Expiry(c: Claims): Time { UNIX_EPOCH + c.expiresAt * SECOND }

  ghost predicate IssuedOk(config: Config, w: World, token: Token) {
    && Formed(config, token.claims, w.now)
    && if token.keyId in w.retiredAt then Expiry(token.claims) <= w.retiredAt[token.keyId] + MAXIMUM_LIFETIME
       else token.keyId == w.ring.current.id
  }

  ghost predicate CallOk(config: Config, w: World, call: Call) { !call.Done? ==> Formed(config, call.claims, w.now) }

  ghost predicate Inv(config: Config, w: World) {
    && RingOk(w)
    && (forall token :: token in w.issued ==> IssuedOk(config, w, token))
    && (forall c :: c in w.calls ==> CallOk(config, w, w.calls[c]))
  }

  lemma FormedExpiry(config: Config, c: Claims, now: Time)
    requires Formed(config, c, now)
    ensures Expiry(c) <= now + MAXIMUM_LIFETIME
  {
    hide Sort, LexLess, JoinSpaced;
    var g, t :| Exchangeable(config, g) && t <= now && c == ClaimsFor(config, g, t);
  }

  lemma FormedLater(config: Config, c: Claims, now: Time, later: Time)
    requires Formed(config, c, now) && now <= later
    ensures Formed(config, c, later)
  {
    hide ClaimsFor, Exchangeable;
    var g, t :| Exchangeable(config, g) && t <= now && c == ClaimsFor(config, g, t);
    assert t <= later;
  }

  // ---- filtering ----

  lemma {:induction false} ActiveHolds(keys: seq<Key>, now: Time, id: string)
    ensures Holds(Active(keys, now), id) <==> exists i :: 0 <= i < |keys| && keys[i].id == id && now < keys[i].publishUntil
  {
    if keys != [] {
      var n := |keys| - 1;
      ActiveHolds(keys[..n], now, id);
      var rest, all := Active(keys[..n], now), Active(keys, now);
      if Holds(all, id) {
        var i :| 0 <= i < |all| && all[i].id == id;
        if i < |rest| {
          assert rest[i].id == id;
          var j :| 0 <= j < n && keys[..n][j].id == id && now < keys[..n][j].publishUntil;
          assert keys[j] == keys[..n][j];
        } else {
          assert all[i] == keys[n];
        }
      }
      if j :| 0 <= j < |keys| && keys[j].id == id && now < keys[j].publishUntil {
        if j < n {
          assert keys[..n][j] == keys[j];
          var i :| 0 <= i < |rest| && rest[i].id == id;
          assert all[i] == rest[i];
        } else {
          assert all[|all| - 1] == keys[n];
        }
      }
    }
  }

  lemma {:induction false} ActiveFrom(keys: seq<Key>, now: Time)
    ensures forall i :: 0 <= i < |Active(keys, now)| ==> Active(keys, now)[i] in keys && now < Active(keys, now)[i].publishUntil
  {
    if keys != [] {
      ActiveFrom(keys[..|keys| - 1], now);
    }
  }

  // ---- preservation ----

  // The clock moves forward and retirements are permanent.
  predicate Advances(w: World, v: World) {
    w.now <= v.now && forall id :: id in w.retiredAt ==> id in v.retiredAt && v.retiredAt[id] == w.retiredAt[id]
  }

  lemma PruneKeeps(w: World)
    requires RingOk(w)
    ensures RingOk(w.(ring := w.ring.(retired := Active(w.ring.retired, w.now))))
  {
    hide Holds;
    var v := w.(ring := w.ring.(retired := Active(w.ring.retired, w.now)));
    ActiveFrom(w.ring.retired, w.now);
    forall id | id in v.retiredAt && v.now < v.retiredAt[id] + MAXIMUM_LIFETIME ensures Holds(v.ring.retired, id) {
      KeptKey(w, id, w.now);
    }
  }

  // A key that may still be needed survives the filter.
  lemma KeptKey(w: World, id: string, now: Time)
    requires RingOk(w) && id in w.retiredAt && w.now <= now < w.retiredAt[id] + MAXIMUM_LIFETIME
    ensures Holds(Active(w.ring.retired, now), id)
  {
    ActiveHolds(w.ring.retired, now, id);
    var i :| 0 <= i < |w.ring.retired| && w.ring.retired[i].id == id;
    assert now < w.ring.retired[i].publishUntil;
  }

  lemma RotateKeeps(w: World, id: string, later: Time)
    requires RingOk(w) && id !in w.generated && w.now <= later
    ensures RingOk(w.(ring := Rotated(w.ring, id, w.now, later), now := later, generated := w.generated + {id},
                      retiredAt := w.retiredAt[w.ring.current.id := w.now]))
  {
    var retiring := w.ring.current.id;
    var v := w.(ring := Rotated(w.ring, id, w.now, later), now := later, generated := w.generated + {id},
                retiredAt := w.retiredAt[retiring := w.now]);
    var active := Active(w.ring.retired, later);
    ActiveFrom(w.ring.retired, later);
    forall k | k in v.retiredAt && v.now < v.retiredAt[k] + MAXIMUM_LIFETIME ensures Holds(v.ring.retired, k) {
      if k == retiring {
        assert v.ring.retired[0].id == k;
      } else {
        KeptKey(w, k, later);
        var i :| 0 <= i < |active| && active[i].id == k;
        assert v.ring.retired[i + 1] == active[i];
      }
    }
    forall i | 0 <= i < |v.ring.retired|
      ensures v.ring.retired[i].id in v.retiredAt
      ensures v.ring.retired[i].publishUntil == v.retiredAt[v.ring.retired[i].id] + MAXIMUM_LIFETIME
    {
      if i > 0 {
        assert v.ring.retired[i] == active[i - 1];
      }
    }
  }

  // Retiring the current key leaves its tokens verifiable until they expire.
  lemma TokensKept(config: Config, w: World, v: World)
    requires Inv(config, w) && Advances(w, v) && v.issued == w.issued
    requires v.ring.current.id == w.ring.current.id
             || (w.ring.current.id in v.retiredAt && v.retiredAt[w.ring.current.id] >= w.now)
    requires v.retiredAt.Keys <= w.retiredAt.Keys + {w.ring.current.id}
    requires v.ring.current.id == w.ring.current.id ==> v.retiredAt == w.retiredAt
    ensures forall token :: token in v.issued ==> IssuedOk(config, v, token)
  {
    hide RingOk, CallOk;
    forall token | token in v.issued ensures IssuedOk(config, v, token) {
      assert IssuedOk(config, w, token);
      FormedExpiry(config, token.claims, w.now);
      FormedLater(config, token.claims, w.now, v.now);
    }
  }

  lemma CallsKept(config: Config, w: World, v: World)
    requires Inv(config, w) && w.now <= v.now && v.calls == w.calls
    ensures forall c :: c in v.calls ==> CallOk(config, v, v.calls[c])
  {
    hide RingOk, IssuedOk;
    forall c | c in v.calls ensures CallOk(config, v, v.calls[c]) {
      assert CallOk(config, w, w.calls[c]);
      if !w.calls[c].Done? {
        FormedLater(config, w.calls[c].claims, w.now, v.now);
      }
    }
  }

  lemma ClockAndRingKeepInv(config: Config, w: World, a: Action)
    requires Inv(config, w) && (a.Tick? || a.RotateKey? || a.Lookup? || a.PublishKeys?)
    ensures Inv(config, Exec(config, w, a)) && Advances(w, Exec(config, w, a))
  {
    hide Active, Holds, IssuedOk, CallOk;
    var v := Exec(config, w, a);
    if a.RotateKey? && a.id !in w.generated && w.now <= a.later {
      RotateKeeps(w, a.id, a.later);
    }
    if a.Lookup? || a.PublishKeys? {
      PruneKeeps(w);
    }
    TokensKept(config, w, v);
    CallsKept(config, w, v);
  }

  lemma IssuingKeepsInv(config: Config, w: World, a: Action)
    requires Inv(config, w) && (a.IssueClaims? || a.IssueKey? || a.IssueSign?)
    ensures Inv(config, Exec(config, w, a)) && Advances(w, Exec(config, w, a))
  {
    hide Active, Holds, Exchangeable, ClaimsFor;
    var v := Exec(config, w, a);
    forall token | token in v.issued ensures IssuedOk(config, v, token) {
      if token in w.issued {
        assert IssuedOk(config, w, token);
      } else {
        assert CallOk(config, w, w.calls[a.call]);
      }
    }
    forall c | c in v.calls ensures CallOk(config, v, v.calls[c]) {
      if c in w.calls {
        assert CallOk(config, w, w.calls[c]);
      }
    }
  }

  lemma {:induction false} RunKeepsInv(config: Config, w: World, actions: seq<Action>)
    requires Inv(config, w)
    ensures Inv(config, Run(config, w, actions)) && Advances(w, Run(config, w, actions))
  {
    hide Inv, Exec;
    if actions != [] {
      var k := |actions| - 1;
      var mid := Run(config, w, actions[..k]);
      RunKeepsInv(config, w, actions[..k]);
      var a := actions[k];
      if a.Tick? || a.RotateKey? || a.Lookup? || a.PublishKeys? {
        ClockAndRingKeepInv(config, mid, a);
      } else {
        IssuingKeepsInv(config, mid, a);
      }
    }
  }

  // ---- what holds in every run ----

  // A key is found exactly while it is current or was retired less than the maximum
  // token lifetime ago, through any number of rotations and lookups.
  lemma KeyFoundIff(config: Config, first: string, start: Time, actions: seq<Action>, id: string)
    ensures var w := Run(config, Start(first, start), actions);
            Finds(w.ring, id, w.now) <==>
              id == w.ring.current.id || (id in w.retiredAt && w.now < w.retiredAt[id] + MAXIMUM_LIFETIME)
  {
    hide Run, IssuedOk, CallOk, Holds, Active;
    RunKeepsInv(config, Start(first, start), actions);
    var w := Run(config, Start(first, start), actions);
    FoundIff(w, id);
  }

  lemma FoundIff(w: World, id: string)
    requires RingOk(w)
    ensures Finds(w.ring, id, w.now) <==>
              id == w.ring.current.id || (id in w.retiredAt && w.now < w.retiredAt[id] + MAXIMUM_LIFETIME)
  {
    ActiveHolds(w.ring.retired, w.now, id);
    if id in w.retiredAt && w.now < w.retiredAt[id] + MAXIMUM_LIFETIME {
      KeptKey(w, id, w.now);
    }
  }

  // Once the maximum lifetime has passed since its retirement a key verifies nothing,
  // then or ever after.
  lemma RetiredKeyVerifiesNothing(
    config: Config, first: string, start: Time, before: seq<Action>, after: seq<Action>, id: string)
    requires id in Run(config, Start(first, start), before).retiredAt
    ensures var w := Run(config, Start(first, start), before); var v := Run(config, w, after);
            w.retiredAt[id] + MAXIMUM_LIFETIME <= v.now ==> !Finds(v.ring, id, v.now)
  {
    hide Run, IssuedOk, CallOk, Holds, Active;
    RunKeepsInv(config, Start(first, start), before);
    var w := Run(config, Start(first, start), before);
    RunKeepsInv(config, w, after);
    FoundIff(Run(config, w, after), id);
  }

  // Every token an exchange returned is accepted, key and claims, at every moment before
  // it expires and at none after; the key lookup reads the clock first, the claim check
  // later. (A clock at or before the Unix epoch would make the claims unusable.)
  lemma IssuedTokenAcceptedUntilExpiry(
    config: Config, first: string, start: Time, actions: seq<Action>, token: Token, later: Time)
    requires var w := Run(config, Start(first, start), actions); token in w.issued && w.now <= later
    ensures var w := Run(config, Start(first, start), actions);
            (Finds(w.ring, token.keyId, w.now) && ValidateClaims(config, token.claims, later) == Valid) <==>
            (token.claims.issuedAt > 0 && Unix(later) < token.claims.expiresAt)
  {
    hide Run, CallOk, Holds, Active, ValidateClaims, Exchangeable, Sort, LexLess, JoinSpaced;
    RunKeepsInv(config, Start(first, start), actions);
    var w := Run(config, Start(first, start), actions);
    FoundIff(w, token.keyId);
    assert IssuedOk(config, w, token);
    var g, t :| Exchangeable(config, g) && t <= w.now && token.claims == ClaimsFor(config, g, t);
    IssuedClaimsValidIff(config, g, t, later);
    assert Unix(later) < token.claims.expiresAt ==> later < Expiry(token.claims);
  }

  // ---- one whole issue ----

  // An exchange that nothing interrupts signs, under the current key, exactly the claims of
  // what it was asked for: for the configured audience, a lifetime of two to five minutes,
  // and acceptable scopes; and nothing otherwise.
  lemma IssueAnswers(config: Config, w: World, c: nat, g: Grant)
    requires c !in w.calls
    ensures var v := Exec(config, Exec(config, Exec(config, w, IssueClaims(c, g)), IssueKey(c)), IssueSign(c));
            v.issued == w.issued +
              if config.audience == "urn:agentpay:mcp" && 120 * SECOND <= config.lifetime <= 300 * SECOND
                 && g.seller.prefix == SellerIds && g.credential.prefix == CredentialIds && g.jti.prefix == CapabilityIds
                 && g.epoch > 0 && Acceptable(g.scopes)
              then {Token(w.ring.current.id, Claims(
                      config.issuer, "urn:agentpay:mcp", g.credential, g.seller, g.credential,
                      JoinSpaced(Sort(LexLess, g.scopes)), g.epoch, g.jti, Unix(w.now), Unix(w.now + config.lifetime)))}
              else {}
  {
    hide Acceptable, Sort, LexLess, JoinSpaced, Active, Rotated, AfterLookup, Unix;
  }
}
