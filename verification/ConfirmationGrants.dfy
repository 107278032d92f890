// One-time confirmation grants (internal/authorization/confirmation_grants.go and its
// repository): issuing replaces an unused grant of the same binding, and any number of
// consuming calls interleave their read, conditional write and re-read.
module ConfirmationGrants {
  import opened Foundations

  const MAXIMUM_LIFETIME: int := 5 * MINUTE

  // What a grant authorizes: the fields hashed into the binding hash.
  datatype Binding = Binding(
    seller: Id, credential: Id, tool: string, targetType: string, target: Id, arguments: string, expectedVersion: nat)

  // The idempotency digest, symbolically: a digest of the credential and the key that
  // determines both. The empty hash of an unconsumed grant is None.
  datatype KeyDigest = KeyDigest(credential: Id, key: string)

  datatype Grant = Grant(
    id: Id, binding: Binding, secret: string, issuedAt: Time, expiresAt: Time,
    consumedAt: Option<Time>, consumedBy: Option<KeyDigest>, revokedAt: Option<Time>, version: nat)

  datatype Result = Granted | Denied | Replayed | BadKey

  // What a consuming call presented, and when it looked at the grant.
  datatype Request = Request(id: Id, presented: string, binding: Binding, key: string, now: Time)

  function Digest(r: Request): KeyDigest { KeyDigest(r.binding.credential, r.key) }

  datatype Call = Writing(read: Grant, request: Request) | Lost(request: Request) | Done(request: Request, result: Result)

  // consumptions lists the committed unconsumed-to-consumed writes.
  datatype World = World(
    grants: map<Id, Grant>, bindings: map<Binding, Id>, calls: map<nat, Call>, consumptions: seq<(Id, KeyDigest)>)

  const START := World(map[], map[], map[], [])

  datatype Action =
    | Create(id: Id, binding: Binding, secret: string, now: Time)
    | ConsumeGet(call: nat, request: Request)
    | ConsumeWrite(call: nat, now: Time)
    | ConsumeReread(call: nat)

  // domain.ParseIdempotencyKey
  predicate ValidKey(key: string) {
    && 8 <= |key| <= 128
    && forall i :: 0 <= i < |key| ==>
         'A' <= key[i] <= 'Z' || 'a' <= key[i] <= 'z' || '0' <= key[i] <= '9'
         || key[i] == '.' || key[i] == '_' || key[i] == ':' || key[i] == '-'
  }

  function NewGrant(id: Id, binding: Binding, secret: string, now: Time): Grant {
    Grant(id, binding, secret, now, now + MAXIMUM_LIFETIME, None, None, None, 1)
  }

  predicate Unused(g: Grant) { g.consumedAt.None? && g.revokedAt.None? }

  // CreateReplacing
  function DoCreate(w: World, id: Id, binding: Binding, secret: string, now: Time): World {
    if id in w.grants then w else
    var revoked :=
      if binding in w.bindings && w.bindings[binding] in w.grants && Unused(w.grants[w.bindings[binding]]) then
        var previous := w.grants[w.bindings[binding]];
        w.grants[w.bindings[binding] := previous.(revokedAt := Some(now), version := previous.version + 1)]
      else w.grants;
    w.(grants := revoked[id := NewGrant(id, binding, secret, now)], bindings := w.bindings[binding := id])
  }

  // Consume up to its write.
  function Decide(g: Grant, r: Request): Call {
    if g.secret != r.presented || g.binding != r.binding || g.revokedAt.Some? || g.expiresAt <= r.now then Done(r, Denied)
    else if !ValidKey(r.key) then Done(r, BadKey)
    else if g.consumedAt.Some? then Done(r, if g.consumedBy == Some(Digest(r)) then Granted else Replayed)
    else Writing(g, r)
  }

  function To(w: World, call: nat, state: Call): World { w.(calls := w.calls[call := state]) }

  function DoGet(w: World, c: nat, r: Request): World {
    To(w, c, if r.id in w.grants then Decide(w.grants[r.id], r) else Done(r, Denied))
  }

  function Consumed(g: Grant, digest: KeyDigest, now: Time): Grant {
    g.(consumedAt := Some(now), consumedBy := Some(digest), version := g.version + 1)
  }

  // The repository's conditions.
  predicate ConsumeAccepts(w: World, updated: Grant, expected: nat) {
    && updated.id in w.grants
    && var stored := w.grants[updated.id];
    && stored.version == expected && updated.version == expected + 1 && Unused(stored)
    && stored.binding in w.bindings && w.bindings[stored.binding] == stored.id
  }

  function DoWrite(w: World, c: nat, read: Grant, r: Request, now: Time): World {
    var updated := Consumed(read, Digest(r), now);
    if ConsumeAccepts(w, updated, read.version) then
      To(w.(grants := w.grants[read.id := updated], consumptions := w.consumptions + [(read.id, Digest(r))]),
         c, Done(r, Granted))
    else To(w, c, Lost(r))
  }

  function DoReread(w: World, c: nat, r: Request): World {
    To(w, c, Done(r,
      if r.id in w.grants && w.grants[r.id].consumedBy == Some(Digest(r)) then Granted
      else if r.id in w.grants && w.grants[r.id].consumedAt.None? then Denied
      else Replayed))
  }

  function Exec(w: World, a: Action): World {
    match a
    case Create(id, binding, secret, now) => DoCreate(w, id, binding, secret, now)
    case ConsumeGet(c, r) => if c in w.calls then w else DoGet(w, c, r)
    case ConsumeWrite(c, now) =>
      if c in w.calls && w.calls[c].Writing? then DoWrite(w, c, w.calls[c].read, w.calls[c].request, now) else w
    case ConsumeReread(c) =>
      if c in w.calls && w.calls[c].Lost? then DoReread(w, c, w.calls[c].request) else w
  }

  function Run(w: World, actions: seq<Action>): World {
    if actions == [] then w else Exec(Run(w, actions[..|actions| - 1]), actions[|actions| - 1])
  }

  // The repository object: issuing and consuming as they update its maps.
  class GrantRepository {
    var grants: map<Id, Grant>
    var bindings: map<Binding, Id>

    constructor ()
      ensures grants == START.grants && bindings == START.bindings
    {
      grants, bindings := map[], map[];
    }

    ghost function In(w: World): World
      reads this
    {
      w.(grants := grants, bindings := bindings)
    }

    method CreateReplacing(id: Id, binding: Binding, secret: string, now: Time, ghost w: World) returns (ok: bool)
      modifies this
      ensures ok <==> id !in old(grants)
      ensures In(w) == DoCreate(old(In(w)), id, binding, secret, now)
    {
      if id in grants {
        return false;
      }
      if binding in bindings && bindings[binding] in grants {
        var previous := grants[bindings[binding]];
        if previous.consumedAt.None? && previous.revokedAt.None? {
          previous := previous.(revokedAt := Some(now));
          previous := previous.(version := previous.version + 1);
          grants := grants[bindings[binding] := previous];
        }
      }
      grants := grants[id := NewGrant(id, binding, secret, now)];
      bindings := bindings[binding := id];
      return true;
    }

    method Consume(updated: Grant, expected: nat) returns (ok: bool)
      modifies this
      ensures ok <==> ConsumeAccepts(old(In(START)), updated, expected)
      ensures bindings == old(bindings)
      ensures grants == if ok then old(grants)[updated.id := updated] else old(grants)
    {
      if updated.id !in grants {
        return false;
      }
      var stored := grants[updated.id];
      if stored.version != expected || updated.version != expected + 1 || stored.consumedAt.Some? || stored.revokedAt.Some?
         || stored.binding !in bindings || bindings[stored.binding] != stored.id
      {
        return false;
      }
      grants := grants[updated.id := updated];
      return true;
    }
  }

  // ---- the invariant ----

  predicate GrantOk(g: Grant, id: Id) {
    && g.id == id
    && (g.consumedAt.Some? <==> g.consumedBy.Some?)
    && (g.consumedBy.Some? ==> g.revokedAt.None? && g.consumedBy.value.credential == g.binding.credential)
  }

  // The request presented the grant's own secret and binding in time, under a valid key.
  predicate Proper(g: Grant, r: Request) {
    g.id == r.id && g.secret == r.presented && g.binding == r.binding && r.now < g.expiresAt && ValidKey(r.key)
  }

  predicate CallOk(grants: map<Id, Grant>, call: Call) {
    match call
    case Writing(read, r) =>
      && r.id in grants && Proper(grants[r.id], r) && read.id == r.id && Unused(read) && read.consumedBy.None?
      && read.version <= grants[r.id].version && (read.version == grants[r.id].version ==> read == grants[r.id])
    case Lost(r) => r.id in grants && Proper(grants[r.id], r)
    case Done(r, result) =>
      result == Granted ==> r.id in grants && Proper(grants[r.id], r) && grants[r.id].consumedBy == Some(Digest(r))
  }

  // Each binding points at a grant of its own, and every unused grant is the one its binding
  // points at.
  predicate BindingsOk(w: World) {
    && (forall b :: b in w.bindings ==> w.bindings[b] in w.grants && w.grants[w.bindings[b]].binding == b)
    && (forall id :: id in w.grants && Unused(w.grants[id]) ==>
          w.grants[id].binding in w.bindings && w.bindings[w.grants[id].binding] == id)
  }

  predicate Inv(w: World) {
    && BindingsOk(w)
    && (forall id :: id in w.grants ==> GrantOk(w.grants[id], id))
    && (forall c :: c in w.calls ==> CallOk(w.grants, w.calls[c]))
    && (forall k :: 0 <= k < |w.consumptions| ==>
          w.consumptions[k].0 in w.grants && w.grants[w.consumptions[k].0].consumedBy == Some(w.consumptions[k].1))
    && (forall j, k :: 0 <= j < k < |w.consumptions| ==> w.consumptions[j].0 != w.consumptions[k].0)
  }

  // What a step may do to a grant: nothing to a used one, one version at a time to an unused one.
  predicate Evolves(g: Grant, h: Grant) {
    && h.id == g.id && h.binding == g.binding && h.secret == g.secret && h.expiresAt == g.expiresAt
    && (h == g || (Unused(g) && g.version < h.version && !Unused(h)))
  }

  predicate AllEvolve(before: map<Id, Grant>, after: map<Id, Grant>) {
    forall id :: id in before ==> id in after && Evolves(before[id], after[id])
  }

  lemma CallOkStable(before: map<Id, Grant>, after: map<Id, Grant>, call: Call)
    requires AllEvolve(before, after) && CallOk(before, call) && (forall id :: id in before ==> GrantOk(before[id], id))
    ensures CallOk(after, call)
  {
    hide ValidKey;
    match call {
      case Writing(_, r) => assert Evolves(before[r.id], after[r.id]);
      case Lost(r) => assert Evolves(before[r.id], after[r.id]);
      case Done(r, result) =>
        if result == Granted {
          assert Evolves(before[r.id], after[r.id]) && GrantOk(before[r.id], r.id);
        }
    }
  }

  lemma MoveKeepsInv(w: World, c: nat, state: Call)
    requires Inv(w) && CallOk(w.grants, state)
    ensures Inv(To(w, c, state))
  {
    hide CallOk, GrantOk;
  }

  lemma CreateKeepsBindings(w: World, id: Id, binding: Binding, secret: string, now: Time)
    requires BindingsOk(w) && forall i :: i in w.grants ==> GrantOk(w.grants[i], i)
    ensures BindingsOk(DoCreate(w, id, binding, secret, now))
  {
  }

  lemma CreateKeepsInv(w: World, id: Id, binding: Binding, secret: string, now: Time)
    requires Inv(w)
    ensures var v := DoCreate(w, id, binding, secret, now); Inv(v) && AllEvolve(w.grants, v.grants)
  {
    hide CallOk, BindingsOk;
    var v := DoCreate(w, id, binding, secret, now);
    CreateKeepsBindings(w, id, binding, secret, now);
    forall i | i in w.grants ensures i in v.grants && Evolves(w.grants[i], v.grants[i]) {
      assert GrantOk(w.grants[i], i);
    }
    assert AllEvolve(w.grants, v.grants);
    forall d | d in v.calls ensures CallOk(v.grants, v.calls[d]) {
      CallOkStable(w.grants, v.grants, w.calls[d]);
    }
    forall k | 0 <= k < |v.consumptions|
      ensures v.consumptions[k].0 in v.grants && v.grants[v.consumptions[k].0].consumedBy == Some(v.consumptions[k].1)
    {
      var used := w.consumptions[k].0;
      assert GrantOk(w.grants[used], used) && Evolves(w.grants[used], v.grants[used]);
    }
  }

  lemma SameBindings(w: World, consumptions: seq<(Id, KeyDigest)>)
    requires BindingsOk(w)
    ensures BindingsOk(w.(consumptions := consumptions))
  {
  }

  lemma ConsumeKeepsBindings(w: World, updated: Grant)
    requires BindingsOk(w) && updated.id in w.grants && updated.binding == w.grants[updated.id].binding && !Unused(updated)
    ensures BindingsOk(w.(grants := w.grants[updated.id := updated]))
  {
  }

  lemma WriteKeepsInv(w: World, c: nat, read: Grant, r: Request, now: Time)
    requires Inv(w) && CallOk(w.grants, Writing(read, r))
    ensures var v := DoWrite(w, c, read, r, now); Inv(v) && AllEvolve(w.grants, v.grants)
  {
    hide ValidKey, BindingsOk;
    var updated := Consumed(read, Digest(r), now);
    if ConsumeAccepts(w, updated, read.version) {
      ConsumeKeepsBindings(w, updated);
      SameBindings(w.(grants := w.grants[read.id := updated]), w.consumptions + [(read.id, Digest(r))]);
      var grants := w.grants[read.id := updated];
      assert AllEvolve(w.grants, grants);
      var u := w.(grants := grants, consumptions := w.consumptions + [(read.id, Digest(r))]);
      forall d | d in u.calls ensures CallOk(grants, u.calls[d]) {
        CallOkStable(w.grants, grants, w.calls[d]);
      }
      assert Inv(u);
      MoveKeepsInv(u, c, Done(r, Granted));
    } else {
      MoveKeepsInv(w, c, Lost(r));
    }
  }

  lemma ExecKeepsInv(w: World, a: Action)
    requires Inv(w)
    ensures Inv(Exec(w, a)) && AllEvolve(w.grants, Exec(w, a).grants)
  {
    hide ValidKey, DoCreate, DoWrite;
    match a {
      case Create(id, binding, secret, now) => CreateKeepsInv(w, id, binding, secret, now);
      case ConsumeGet(c, r) =>
        if r.id in w.grants {
          assert GrantOk(w.grants[r.id], r.id);
          MoveKeepsInv(w, c, Decide(w.grants[r.id], r));
        } else {
          MoveKeepsInv(w, c, Done(r, Denied));
        }
      case ConsumeWrite(c, now) =>
        if c in w.calls && w.calls[c].Writing? {
          WriteKeepsInv(w, c, w.calls[c].read, w.calls[c].request, now);
        }
      case ConsumeReread(c) =>
        if c in w.calls && w.calls[c].Lost? {
          MoveKeepsInv(w, c, DoReread(w, c, w.calls[c].request).calls[c]);
        }
    }
  }

  lemma {:induction false} RunKeepsInv(w: World, actions: seq<Action>)
    requires Inv(w)
    ensures Inv(Run(w, actions)) && AllEvolve(w.grants, Run(w, actions).grants)
  {
    hide Inv, Exec;
    if actions != [] {
      var k := |actions| - 1;
      RunKeepsInv(w, actions[..k]);
      var mid := Run(w, actions[..k]);
      ExecKeepsInv(mid, actions[k]);
      forall id | id in w.grants ensures id in Run(w, actions).grants && Evolves(w.grants[id], Run(w, actions).grants[id]) {
        assert Evolves(w.grants[id], mid.grants[id]) && Evolves(mid.grants[id], Run(w, actions).grants[id]);
      }
    }
  }

  // ---- what holds in every run ----

  // All successful calls on one grant carry the same credential and idempotency key, and
  // the grant is consumed by exactly that key.
  lemma OneKeyPerGrant(actions: seq<Action>, c: nat, d: nat)
    requires var w := Run(START, actions);
             && c in w.calls && d in w.calls && w.calls[c].Done? && w.calls[d].Done?
             && w.calls[c].result == Granted && w.calls[d].result == Granted && w.calls[c].request.id == w.calls[d].request.id
    ensures var w := Run(START, actions); var r := w.calls[c].request;
            && r.binding.credential == w.calls[d].request.binding.credential && r.key == w.calls[d].request.key
            && r.id in w.grants && w.grants[r.id].consumedBy == Some(KeyDigest(r.binding.credential, r.key))
            && w.grants[r.id].revokedAt.None?
  {
    hide Run;
    StartInv();
    RunKeepsInv(START, actions);
    var w := Run(START, actions);
    assert CallOk(w.grants, w.calls[c]) && CallOk(w.grants, w.calls[d]);
    assert GrantOk(w.grants[w.calls[c].request.id], w.calls[c].request.id);
  }

  // A call succeeds only if it presented the grant's own secret, for exactly the bound
  // seller, credential, tool, target, arguments and version, before the grant expired, and
  // under a valid key.
  lemma GrantedOnlyOnProof(actions: seq<Action>, c: nat)
    requires var w := Run(START, actions); c in w.calls && w.calls[c].Done? && w.calls[c].result == Granted
    ensures var w := Run(START, actions); var r := w.calls[c].request;
            && r.id in w.grants && r.presented == w.grants[r.id].secret && r.binding == w.grants[r.id].binding
            && r.now < w.grants[r.id].expiresAt && ValidKey(r.key)
  {
    hide Run, ValidKey;
    StartInv();
    RunKeepsInv(START, actions);
    var w := Run(START, actions);
    assert CallOk(w.grants, w.calls[c]);
  }

  // The write that consumes a grant happens at most once.
  lemma ConsumedAtMostOnce(actions: seq<Action>, j: nat, k: nat)
    requires var n := |Run(START, actions).consumptions|; j < n && k < n
    requires Run(START, actions).consumptions[j].0 == Run(START, actions).consumptions[k].0
    ensures j == k
  {
    hide Run;
    StartInv();
    RunKeepsInv(START, actions);
  }

  // Consumption and revocation exclude each other for good: whichever came first, the
  // record of the grant never changes again.
  lemma {:induction false} UsedGrantIsFinal(before: seq<Action>, after: seq<Action>, id: Id)
    requires var w := Run(START, before); id in w.grants && !Unused(w.grants[id])
    ensures var w := Run(START, before); var v := Run(w, after); id in v.grants && v.grants[id] == w.grants[id]
  {
    hide Run, Inv;
    StartInv();
    RunKeepsInv(START, before);
    var w := Run(START, before);
    RunKeepsInv(w, after);
    assert Evolves(w.grants[id], Run(w, after).grants[id]);
  }

  lemma StartInv()
    ensures Inv(START)
  {
  }

  // ---- one whole call ----

  // In every run a consuming call that nothing interrupts is granted exactly if it presents
  // the secret and the binding of an unexpired grant that is not revoked, under a valid key,
  // and the grant is unconsumed or was consumed under this very key; with another key it is
  // a replay. A first consumption is written down, a repeated one changes nothing.
  lemma ConsumeAnswers(actions: seq<Action>, c: nat, r: Request, now: Time)
    requires c !in Run(START, actions).calls
    ensures var w := Run(START, actions); var v := Exec(Exec(w, ConsumeGet(c, r)), ConsumeWrite(c, now));
            && c in v.calls && v.calls[c].Done?
            && (v.calls[c].result == Granted <==>
                  && MayConsume(w, r)
                  && (w.grants[r.id].consumedBy.None? || w.grants[r.id].consumedBy == Some(KeyDigest(r.binding.credential, r.key))))
            && (v.calls[c].result == Replayed <==>
                  && MayConsume(w, r) && w.grants[r.id].consumedBy.Some?
                  && w.grants[r.id].consumedBy != Some(KeyDigest(r.binding.credential, r.key)))
            && v.grants ==
               if v.calls[c].result == Granted && w.grants[r.id].consumedBy.None?
               then w.grants[r.id := w.grants[r.id].(
                      consumedAt := Some(now), consumedBy := Some(KeyDigest(r.binding.credential, r.key)),
                      version := w.grants[r.id].version + 1)]
               else w.grants
  {
    hide Run, ValidKey, CallOk, Exec;
    StartInv();
    RunKeepsInv(START, actions);
    var w := Run(START, actions);
    ConsumeSteps(w, c, r, now);
    if r.id in w.grants {
      assert GrantOk(w.grants[r.id], r.id);
    }
  }

  // Who may consume a grant.
  predicate MayConsume(w: World, r: Request) {
    && r.id in w.grants
    && var g := w.grants[r.id];
    g.secret == r.presented && g.binding == r.binding && g.revokedAt.None? && r.now < g.expiresAt && ValidKey(r.key)
  }

  lemma ConsumeSteps(w: World, c: nat, r: Request, now: Time)
    requires c !in w.calls
    ensures var u := DoGet(w, c, r);
            && c in u.calls
            && Exec(Exec(w, ConsumeGet(c, r)), ConsumeWrite(c, now)) ==
               if u.calls[c].Writing? then DoWrite(u, c, u.calls[c].read, u.calls[c].request, now) else u
  {
    hide ValidKey, DoWrite, Decide;
  }
}
