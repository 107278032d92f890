// Concurrent evidence recorders (internal/evidence/service.go) over the object store of
// internal/evidencestore/s3.go. A recorder lists the keys of a transaction, loads the
// objects, and creates the next object only if it is absent; any number of recorders
// interleave these three steps, for any number of transactions.
module EvidenceRecorder {
  import opened Foundations
  import opened Decimal
  import opened Sorting
  import opened EvidenceChain

  const MAXIMUM_OBJECTS: nat := 1000

  // ---- object keys ----

  predicate HasPrefix(s: string, prefix: string) { |prefix| <= |s| && s[..|prefix|] == prefix }
  predicate HasSuffix(s: string, suffix: string) { |suffix| <= |s| && s[|s| - |suffix|..] == suffix }

  // A transaction identifier: its prefix and the 26 characters of a ULID.
  predicate IsTransactionId(id: Id) { id.prefix == TransactionIds && |id.body| == 26 }

  function KeyPrefix(transaction: Id): string { "transactions/txn_" + transaction.body + "/events/" }

  function KeyTail(sequence: nat): string { PrintPadded(sequence, 6) + ".json" }

  function ObjectKey(transaction: Id, sequence: nat): string { KeyPrefix(transaction) + KeyTail(sequence) }

  lemma {:induction false} LexUnderPrefix(p: string, a: string, b: string)
    ensures LexLess(p + a, p + b) <==> LexLess(a, b)
  {
    if p == [] {
      assert p + a == a && p + b == b;
    } else {
      assert (p + a)[1..] == p[1..] + a && (p + b)[1..] == p[1..] + b;
      LexUnderPrefix(p[1..], a, b);
    }
  }

  lemma {:induction false} LexOverSuffix(a: string, b: string, s: string)
    requires |a| == |b|
    ensures LexLess(a + s, b + s) <==> LexLess(a, b)
  {
    if a == [] {
      assert a + s == s && b + s == s;
      LexTotal(s, s);
    } else {
      assert (a + s)[1..] == a[1..] + s && (b + s)[1..] == b[1..] + s;
      LexOverSuffix(a[1..], b[1..], s);
    }
  }

  // Below a million, keys of one transaction sort as their sequence numbers do.
  lemma KeyOrder(transaction: Id, m: nat, n: nat)
    requires m < 1_000_000 && n < 1_000_000
    ensures LexLess(ObjectKey(transaction, m), ObjectKey(transaction, n)) <==> m < n
    ensures ObjectKey(transaction, m) == ObjectKey(transaction, n) <==> m == n
  {
    hide PrintPadded, LexLess, KeyPrefix;
    SixDigits(m);
    SixDigits(n);
    PaddedOrder(m, n, 6);
    LexUnderPrefix(KeyPrefix(transaction), KeyTail(m), KeyTail(n));
    LexOverSuffix(PrintPadded(m, 6), PrintPadded(n, 6), ".json");
    if ObjectKey(transaction, m) == ObjectKey(transaction, n) {
      var k := |KeyPrefix(transaction)|;
      assert ObjectKey(transaction, m)[k..] == KeyTail(m) && ObjectKey(transaction, n)[k..] == KeyTail(n);
      assert KeyTail(m)[..6] == PrintPadded(m, 6) && KeyTail(n)[..6] == PrintPadded(n, 6);
    }
  }

  lemma SixDigits(n: nat)
    requires n < 1_000_000
    ensures n < Pow10(6) && |PrintPadded(n, 6)| == 6
  {
    assert Pow10(6) == 1_000_000;
    PrintedPadded(n, 6);
  }

  // A key lies under the prefix of its own transaction only.
  lemma KeyOwner(transaction: Id, sequence: nat, other: Id)
    requires IsTransactionId(transaction) && IsTransactionId(other)
    ensures HasPrefix(ObjectKey(transaction, sequence), KeyPrefix(other)) <==> transaction == other
    ensures HasSuffix(ObjectKey(transaction, sequence), ".json")
  {
    hide PrintPadded;
    var key := ObjectKey(transaction, sequence);
    var k := |KeyPrefix(other)|;
    assert key[..k] == KeyPrefix(transaction);
    assert KeyPrefix(transaction)[17..43] == transaction.body && KeyPrefix(other)[17..43] == other.body;
    assert key[|key| - 5..] == ".json";
  }

  // ---- the recorders ----

  datatype Setup = Setup(hash: HashFunction, signer: Signer)

  datatype Outcome = Recorded | AlreadyRecorded | Conflict | LimitExceeded | ChainBroken | AppendFailed | LostRace

  datatype Fact = Fact(transaction: Id, kind: EventType, payload: Payload)

  datatype Call =
    | Listed(fact: Fact, keys: seq<string>)
    | Writing(fact: Fact, params: Params, event: Event)
    | Done(fact: Fact, outcome: Outcome)

  // chains lists the committed writes of each transaction in order.
  datatype World = World(objects: map<string, Event>, calls: map<nat, Call>, chains: map<Id, seq<Event>>)

  const START := World(map[], map[], map[])

  datatype Action =
    | List(call: nat, fact: Fact, contents: seq<string>)
    | Load(call: nat, eventId: Id, now: Time)
    | Write(call: nat)

  // appendOnce serves these two, append the other recorded kinds.
  predicate OncePerChain(kind: EventType) { kind.PaymentChallenged? || kind.PaymentVerified? }

  predicate Recordable(kind: EventType) {
    OncePerChain(kind) || kind.ProxyForwarded? || kind.DeliverySucceeded? || kind.DeliveryFailed?
  }

  // The store lists each object under the prefix once, in an order of its own.
  predicate Lists(objects: map<string, Event>, prefix: string, contents: seq<string>) {
    && Distinct(contents)
    && (forall i :: 0 <= i < |contents| ==> contents[i] in objects && HasPrefix(contents[i], prefix))
    && (forall key :: key in objects && HasPrefix(key, prefix) ==> key in contents)
  }

  // The filtering loop over the listed objects.
  function JsonKeys(contents: seq<string>, prefix: string): seq<string> {
    if contents == [] then []
    else
      var rest := JsonKeys(contents[..|contents| - 1], prefix);
      var key := contents[|contents| - 1];
      if HasPrefix(key, prefix) && HasSuffix(key, ".json") then rest + [key] else rest
  }

  function DoList(w: World, c: nat, fact: Fact, contents: seq<string>): World {
    var prefix := KeyPrefix(fact.transaction);
    if !Lists(w.objects, prefix, contents) || !IsTransactionId(fact.transaction) || !Recordable(fact.kind) then w
    else if |contents| > MAXIMUM_OBJECTS then To(w, c, Done(fact, LimitExceeded))
    else To(w, c, Listed(fact, Sort(LexLess, JsonKeys(contents, prefix))))
  }

  function To(w: World, c: nat, state: Call): World { w.(calls := w.calls[c := state]) }

  function Objects(objects: map<string, Event>, keys: seq<string>): (r: Option<seq<Event>>)
    ensures r.Some? ==> |r.value| == |keys| && forall i :: 0 <= i < |keys| ==> keys[i] in objects && r.value[i] == objects[keys[i]]
    ensures r.None? ==> exists i :: 0 <= i < |keys| && keys[i] !in objects
  {
    if forall i :: 0 <= i < |keys| ==> keys[i] in objects
    then Some(seq(|keys|, i requires 0 <= i < |keys| => objects[keys[i]]))
    else None
  }

  predicate InSequence(events: seq<Event>, transaction: Id) {
    forall i :: 0 <= i < |events| ==> events[i].transaction == transaction && events[i].sequence == (i + 1) % UINT64_MOD
  }

  // The first event of a kind.
  function FirstOf(events: seq<Event>, kind: EventType, from: nat): (r: Option<Event>)
    requires from <= |events|
    ensures r.None? ==> forall i :: from <= i < |events| ==> events[i].eventType != kind
    ensures r.Some? ==> r.value.eventType == kind && r.value in events
    decreases |events| - from
  {
    if from == |events| then None
    else if events[from].eventType == kind then Some(events[from])
    else FirstOf(events, kind, from + 1)
  }

  function NextParams(fact: Fact, events: seq<Event>, eventId: Id, now: Time): Params {
    Params(eventId, fact.transaction, (|events| + 1) % UINT64_MOD, fact.kind, System, "", fact.payload, now)
  }

  function Decide(setup: Setup, fact: Fact, events: seq<Event>, eventId: Id, now: Time): Call {
    var known := FirstOf(events, fact.kind, 0);
    if OncePerChain(fact.kind) && known.Some? then
      Done(fact, if known.value.payload == fact.payload then AlreadyRecorded else Conflict)
    else
      var params := NextParams(fact, events, eventId, now);
      var event := Append(setup.hash, setup.signer, params, Last(events));
      if event.Err? then Done(fact, AppendFailed) else Writing(fact, params, event.value)
  }

  function DoLoad(setup: Setup, w: World, c: nat, fact: Fact, keys: seq<string>, eventId: Id, now: Time): World {
    var events := Objects(w.objects, keys);
    if events.None? || !InSequence(events.value, fact.transaction) then To(w, c, Done(fact, ChainBroken))
    else To(w, c, Decide(setup, fact, events.value, eventId, now))
  }

  function Chain(w: World, transaction: Id): seq<Event> {
    if transaction in w.chains then w.chains[transaction] else []
  }

  function Store(w: World, event: Event): World {
    w.(objects := w.objects[ObjectKey(event.transaction, event.sequence) := event],
       chains := w.chains[event.transaction := Chain(w, event.transaction) + [event]])
  }

  // Create if absent
  function DoWrite(w: World, c: nat, fact: Fact, event: Event): World {
    if ObjectKey(event.transaction, event.sequence) in w.objects then To(w, c, Done(fact, LostRace))
    else To(Store(w, event), c, Done(fact, Recorded))
  }

  function Exec(setup: Setup, w: World, a: Action): World {
    match a
    case List(c, fact, contents) => if c in w.calls then w else DoList(w, c, fact, contents)
    case Load(c, eventId, now) =>
      if c in w.calls && w.calls[c].Listed? then DoLoad(setup, w, c, w.calls[c].fact, w.calls[c].keys, eventId, now) else w
    case Write(c) =>
      if c in w.calls && w.calls[c].Writing? then DoWrite(w, c, w.calls[c].fact, w.calls[c].event) else w
  }

  function Run(setup: Setup, w: World, actions: seq<Action>): World {
    if actions == [] then w else Exec(setup, Run(setup, w, actions[..|actions| - 1]), actions[|actions| - 1])
  }

  // The repository object: the conditional put, and the listing with its loops.
  class S3Repository {
    var objects: map<string, Event>

    constructor ()
      ensures objects == START.objects
    {
      objects := map[];
    }

    method Append(event: Event) returns (ok: bool)
      modifies this
      ensures ok <==> ObjectKey(event.transaction, event.sequence) !in old(objects)
      ensures objects == if ok then old(objects)[ObjectKey(event.transaction, event.sequence) := event] else old(objects)
    {
      var key := ObjectKey(event.transaction, event.sequence);
      if key in objects {
        return false;
      }
      objects := objects[key := event];
      return true;
    }

    method CheckSequence(events: seq<Event>, transaction: Id) returns (ok: bool)
      ensures ok <==> InSequence(events, transaction)
    {
      var i := 0;
      while i < |events|
        invariant 0 <= i <= |events|
        invariant forall j :: 0 <= j < i ==> events[j].transaction == transaction && events[j].sequence == (j + 1) % UINT64_MOD
      {
        if events[i].transaction != transaction || events[i].sequence != (i + 1) % UINT64_MOD {
          return false;
        }
        i := i + 1;
      }
      return true;
    }

    // Any listing order gives the same answer as the recorder's list and load steps.
    method ListByTransaction(transaction: Id, contents: seq<string>) returns (r: Result<seq<Event>, Outcome>)
      requires Lists(objects, KeyPrefix(transaction), contents)
      ensures |contents| > MAXIMUM_OBJECTS ==> r == Err(LimitExceeded)
      ensures |contents| <= MAXIMUM_OBJECTS ==>
                var events := Objects(objects, Sort(LexLess, JsonKeys(contents, KeyPrefix(transaction))));
                r == if events.None? || !InSequence(events.value, transaction) then Err(ChainBroken) else Ok(events.value)
    {
      if |contents| > MAXIMUM_OBJECTS {
        return Err(LimitExceeded);
      }
      var prefix := KeyPrefix(transaction);
      var found: seq<string> := [];
      var i := 0;
      while i < |contents|
        invariant 0 <= i <= |contents|
        invariant found == JsonKeys(contents[..i], prefix)
      {
        assert contents[..i + 1][..i] == contents[..i];
        if HasPrefix(contents[i], prefix) && HasSuffix(contents[i], ".json") {
          found := found + [contents[i]];
        }
        i := i + 1;
      }
      assert contents[..i] == contents;
      var keys := Sort(LexLess, found);
      var events: seq<Event> := [];
      i := 0;
      while i < |keys|
        invariant 0 <= i <= |keys| && |events| == i
        invariant forall j :: 0 <= j < i ==> keys[j] in objects && events[j] == objects[keys[j]]
      {
        if keys[i] !in objects {
          return Err(ChainBroken);
        }
        events := events + [objects[keys[i]]];
        i := i + 1;
      }
      assert Objects(objects, keys).Some? && Objects(objects, keys).value == events;
      var inSequence := CheckSequence(events, transaction);
      if !inSequence {
        return Err(ChainBroken);
      }
      return Ok(events);
    }
  }

  // ---- the invariant ----

  ghost predicate Fit(setup: Setup) { Correct(setup.signer) && NeverBlank(setup.signer) }

  predicate KeysOf(transaction: Id, keys: seq<string>, n: nat) {
    |keys| == n && forall i :: 0 <= i < n ==> keys[i] == ObjectKey(transaction, i + 1)
  }

  predicate AtMostOne(events: seq<Event>, kind: EventType) {
    forall i, j :: 0 <= i < j < |events| ==> !(events[i].eventType == kind && events[j].eventType == kind)
  }

  predicate ChainOk(setup: Setup, transaction: Id, events: seq<Event>) {
    && IsTransactionId(transaction) && |events| <= MAXIMUM_OBJECTS + 1
    && (events == [] || ValidChain(setup.hash, setup.signer, events)) && InSequence(events, transaction)
    && AtMostOne(events, PaymentChallenged) && AtMostOne(events, PaymentVerified)
  }

  ghost predicate Owned(chains: map<Id, seq<Event>>, key: string) {
    exists t: Id, n: nat :: t in chains && 1 <= n <= |chains[t]| && key == ObjectKey(t, n)
  }

  // The objects are the events of the chains, each under its own key.
  ghost predicate Mirrors(objects: map<string, Event>, chains: map<Id, seq<Event>>) {
    && (forall key :: key in objects ==> Owned(chains, key))
    && (forall t, i :: t in chains && 0 <= i < |chains[t]| ==> Placed(objects, t, i, chains[t][i]))
  }

  predicate Placed(objects: map<string, Event>, t: Id, i: nat, event: Event) {
    ObjectKey(t, i + 1) in objects && objects[ObjectKey(t, i + 1)] == event
  }

  predicate Holds(events: seq<Event>, fact: Fact) {
    exists i :: 0 <= i < |events| && events[i].eventType == fact.kind && events[i].payload == fact.payload
  }

  predicate Contradicts(events: seq<Event>, fact: Fact) {
    exists i :: 0 <= i < |events| && events[i].eventType == fact.kind && events[i].payload != fact.payload
  }

  predicate CallOk(setup: Setup, chain: seq<Event>, call: Call) {
    match call
    case Listed(fact, keys) =>
      IsTransactionId(fact.transaction) && |keys| <= MAXIMUM_OBJECTS && |keys| <= |chain| && KeysOf(fact.transaction, keys, |keys|)
    case Writing(fact, params, event) =>
      && IsTransactionId(fact.transaction) && 1 <= event.sequence <= MAXIMUM_OBJECTS + 1 && event.sequence <= |chain| + 1
      && event.transaction == fact.transaction && event.eventType == fact.kind && event.payload == fact.payload
      && Append(setup.hash, setup.signer, params, Last(chain[..event.sequence - 1])) == Ok(event)
      && (OncePerChain(fact.kind) ==> forall i :: 0 <= i < event.sequence - 1 ==> chain[i].eventType != fact.kind)
    case Done(fact, outcome) =>
      && (outcome == Recorded || outcome == AlreadyRecorded ==> Holds(chain, fact))
      && (outcome == Conflict ==> Contradicts(chain, fact))
  }

  ghost predicate Inv(setup: Setup, w: World) {
    && Mirrors(w.objects, w.chains)
    && (forall t :: t in w.chains ==> ChainOk(setup, t, w.chains[t]))
    && (forall c :: c in w.calls ==> CallOk(setup, Chain(w, w.calls[c].fact.transaction), w.calls[c]))
  }

  // Chains only grow at the end.
  predicate Extends(longer: seq<Event>, events: seq<Event>) { |events| <= |longer| && longer[..|events|] == events }

  ghost predicate Grows(w: World, v: World) { forall t :: Extends(Chain(v, t), Chain(w, t)) }

  lemma CallOkStable(setup: Setup, chain: seq<Event>, longer: seq<Event>, call: Call)
    requires CallOk(setup, chain, call) && Extends(longer, chain)
    ensures CallOk(setup, longer, call)
  {
    hide Append, KeysOf;
    assert forall i :: 0 <= i < |chain| ==> longer[i] == chain[i];
    match call {
      case Listed(_, _) =>
      case Writing(_, _, event) => assert longer[..event.sequence - 1] == chain[..event.sequence - 1];
      case Done(fact, outcome) =>
        if outcome == Recorded || outcome == AlreadyRecorded {
          var i :| 0 <= i < |chain| && chain[i].eventType == fact.kind && chain[i].payload == fact.payload;
          assert longer[i] == chain[i];
        }
        if outcome == Conflict {
          var i :| 0 <= i < |chain| && chain[i].eventType == fact.kind && chain[i].payload != fact.payload;
          assert longer[i] == chain[i];
        }
    }
  }

  lemma MoveKeepsInv(setup: Setup, w: World, c: nat, state: Call)
    requires Inv(setup, w) && CallOk(setup, Chain(w, state.fact.transaction), state)
    ensures Inv(setup, To(w, c, state)) && Grows(w, To(w, c, state))
  {
    hide CallOk, ChainOk, Mirrors;
  }

  // ---- listing ----

  // The objects under a prefix are the keys 1..n of that transaction's chain.
  lemma UnderPrefix(setup: Setup, w: World, t: Id, key: string)
    requires Inv(setup, w) && IsTransactionId(t) && key in w.objects && HasPrefix(key, KeyPrefix(t))
    ensures exists n :: 1 <= n <= |Chain(w, t)| && key == ObjectKey(t, n)
    ensures HasSuffix(key, ".json")
  {
    hide KeyPrefix, KeyTail, ObjectKey, CallOk;
    assert Owned(w.chains, key);
    var u, n :| u in w.chains && 1 <= n <= |w.chains[u]| && key == ObjectKey(u, n);
    assert ChainOk(setup, u, w.chains[u]);
    KeyOwner(u, n, t);
  }

  lemma {:induction false} JsonKeysKeepsAll(contents: seq<string>, prefix: string)
    requires forall i :: 0 <= i < |contents| ==> HasPrefix(contents[i], prefix) && HasSuffix(contents[i], ".json")
    ensures JsonKeys(contents, prefix) == contents
  {
    if contents != [] {
      JsonKeysKeepsAll(contents[..|contents| - 1], prefix);
    }
  }

  function KeysUpTo(t: Id, n: nat): (keys: seq<string>)
    ensures KeysOf(t, keys, n)
  {
    seq(n, i requires i >= 0 => ObjectKey(t, i + 1))
  }

  // Whatever order the store lists in, sorting gives the keys in sequence order.
  lemma ListingInSequence(setup: Setup, w: World, t: Id, contents: seq<string>)
    requires Inv(setup, w) && IsTransactionId(t) && Lists(w.objects, KeyPrefix(t), contents)
    ensures Sort(LexLess, JsonKeys(contents, KeyPrefix(t))) == KeysUpTo(t, |Chain(w, t)|)
    ensures |contents| == |Chain(w, t)|
  {
    hide KeyPrefix, ObjectKey, CallOk, LexLess, Inv, ValidChain;
    var n := |Chain(w, t)|;
    var keys := KeysUpTo(t, n);
    forall i | 0 <= i < |contents| ensures HasSuffix(contents[i], ".json") {
      UnderPrefix(setup, w, t, contents[i]);
    }
    JsonKeysKeepsAll(contents, KeyPrefix(t));
    KeysAscend(setup, w, t);
    forall x ensures x in contents <==> x in keys {
      if x in contents {
        UnderPrefix(setup, w, t, x);
        var m :| 1 <= m <= n && x == ObjectKey(t, m);
        assert keys[m - 1] == x;
      }
      if x in keys {
        KeyStored(setup, w, t, x);
      }
    }
    LexIsStrictOrder();
    SortAscends(LexLess, contents);
    AscendingUnique(LexLess, Sort(LexLess, contents), keys);
  }

  lemma KeyStored(setup: Setup, w: World, t: Id, x: string)
    requires Inv(setup, w) && IsTransactionId(t) && x in KeysUpTo(t, |Chain(w, t)|)
    ensures x in w.objects && HasPrefix(x, KeyPrefix(t))
  {
    hide ObjectKey, KeyPrefix, CallOk;
    var keys := KeysUpTo(t, |Chain(w, t)|);
    var i :| 0 <= i < |keys| && keys[i] == x;
    assert Placed(w.objects, t, i, w.chains[t][i]);
    KeyOwner(t, i + 1, t);
  }

  lemma KeysAscend(setup: Setup, w: World, t: Id)
    requires Inv(setup, w)
    ensures Ascending(LexLess, KeysUpTo(t, |Chain(w, t)|))
  {
    hide ObjectKey, LexLess, CallOk;
    var keys := KeysUpTo(t, |Chain(w, t)|);
    assert |keys| <= MAXIMUM_OBJECTS + 1;
    forall i, j | 0 <= i < j < |keys| ensures LexLess(keys[i], keys[j]) {
      KeyOrder(t, i + 1, j + 1);
    }
  }

  // ---- preservation ----

  lemma ListKeepsInv(setup: Setup, w: World, c: nat, fact: Fact, contents: seq<string>)
    requires Inv(setup, w)
    ensures var v := DoList(w, c, fact, contents); Inv(setup, v) && Grows(w, v)
  {
    hide Inv, Lists, KeyPrefix, ObjectKey, JsonKeys;
    var t := fact.transaction;
    if Lists(w.objects, KeyPrefix(t), contents) && IsTransactionId(t) && Recordable(fact.kind) {
      ListingInSequence(setup, w, t, contents);
      if |contents| <= MAXIMUM_OBJECTS {
        MoveKeepsInv(setup, w, c, Listed(fact, KeysUpTo(t, |Chain(w, t)|)));
      } else {
        MoveKeepsInv(setup, w, c, Done(fact, LimitExceeded));
      }
    }
  }

  // Objects listed earlier are still the first events of the chain.
  lemma LoadedPrefix(setup: Setup, w: World, fact: Fact, keys: seq<string>)
    requires Inv(setup, w) && CallOk(setup, Chain(w, fact.transaction), Listed(fact, keys))
    ensures Objects(w.objects, keys) == Some(Chain(w, fact.transaction)[..|keys|])
  {
    hide ObjectKey, ChainOk, CallOk;
    CallOkListed(setup, Chain(w, fact.transaction), fact, keys);
    var chain := Chain(w, fact.transaction);
    forall i | 0 <= i < |keys| ensures keys[i] in w.objects && w.objects[keys[i]] == chain[i] {
      assert Placed(w.objects, fact.transaction, i, w.chains[fact.transaction][i]);
    }
    assert Objects(w.objects, keys).Some? && Objects(w.objects, keys).value == chain[..|keys|];
  }

  lemma CallOkListed(setup: Setup, chain: seq<Event>, fact: Fact, keys: seq<string>)
    requires CallOk(setup, chain, Listed(fact, keys))
    ensures |keys| <= |chain| && KeysOf(fact.transaction, keys, |keys|)
  {
  }

  lemma DecideOk(setup: Setup, chain: seq<Event>, fact: Fact, n: nat, eventId: Id, now: Time)
    requires n <= |chain| && n <= MAXIMUM_OBJECTS && IsTransactionId(fact.transaction)
    ensures var state := Decide(setup, fact, chain[..n], eventId, now);
            state.fact == fact && CallOk(setup, chain, state)
  {
    hide TrimSpace, ParamsValid;
    var events := chain[..n];
    var known := FirstOf(events, fact.kind, 0);
    if OncePerChain(fact.kind) && known.Some? {
      var i :| 0 <= i < |events| && events[i] == known.value;
      assert chain[i] == events[i];
      assert Holds(chain, fact) || Contradicts(chain, fact);
    } else {
      assert forall i :: 0 <= i < n ==> chain[i] == events[i];
    }
  }

  lemma LoadKeepsInv(setup: Setup, w: World, c: nat, fact: Fact, keys: seq<string>, eventId: Id, now: Time)
    requires Inv(setup, w) && CallOk(setup, Chain(w, fact.transaction), Listed(fact, keys))
    ensures var v := DoLoad(setup, w, c, fact, keys, eventId, now); Inv(setup, v) && Grows(w, v)
  {
    hide Inv, Decide, Objects, InSequence, KeysOf, Append;
    LoadedPrefix(setup, w, fact, keys);
    var chain := Chain(w, fact.transaction);
    DecideOk(setup, chain, fact, |keys|, eventId, now);
    if InSequence(chain[..|keys|], fact.transaction) {
      MoveKeepsInv(setup, w, c, Decide(setup, fact, chain[..|keys|], eventId, now));
    } else {
      MoveKeepsInv(setup, w, c, Done(fact, ChainBroken));
    }
  }

  // A write that finds its key absent continues the chain.
  lemma StoreContinues(setup: Setup, w: World, fact: Fact, params: Params, event: Event)
    requires Inv(setup, w) && CallOk(setup, Chain(w, fact.transaction), Writing(fact, params, event))
    requires ObjectKey(event.transaction, event.sequence) !in w.objects
    ensures event.sequence == |Chain(w, fact.transaction)| + 1
  {
    hide ObjectKey, ChainOk, Append;
    var chain := Chain(w, fact.transaction);
    assert forall i :: 0 <= i < |chain| ==> Placed(w.objects, fact.transaction, i, chain[i]);
    assert event.sequence <= |chain| ==> Placed(w.objects, fact.transaction, event.sequence - 1, chain[event.sequence - 1]);
  }

  lemma ChainOkExtended(setup: Setup, chain: seq<Event>, fact: Fact, params: Params, event: Event)
    requires Fit(setup) && ChainOk(setup, fact.transaction, chain) && |chain| <= MAXIMUM_OBJECTS
    requires CallOk(setup, chain, Writing(fact, params, event)) && event.sequence == |chain| + 1
    ensures ChainOk(setup, fact.transaction, chain + [event])
  {
    hide ValidChain, TrimSpace, ParamsValid, Blank;
    assert chain[..|chain|] == chain;
    AppendExtends(setup.hash, setup.signer, chain, params);
    var longer := chain + [event];
    assert forall i :: 0 <= i < |chain| ==> longer[i] == chain[i];
    if OncePerChain(fact.kind) {
      assert forall i :: 0 <= i < |chain| ==> chain[i].eventType != fact.kind;
    }
  }

  lemma MirrorsAfter(objects: map<string, Event>, chains: map<Id, seq<Event>>, event: Event, chain: seq<Event>)
    requires Mirrors(objects, chains) && ObjectKey(event.transaction, event.sequence) !in objects
    requires chain == (if event.transaction in chains then chains[event.transaction] else []) && event.sequence == |chain| + 1
    ensures Mirrors(objects[ObjectKey(event.transaction, event.sequence) := event], chains[event.transaction := chain + [event]])
  {
    hide ObjectKey;
    var key := ObjectKey(event.transaction, event.sequence);
    var objects', chains' := objects[key := event], chains[event.transaction := chain + [event]];
    forall k | k in objects' ensures Owned(chains', k) {
      if k == key {
        assert chains'[event.transaction] == chain + [event];
      } else {
        assert Owned(chains, k);
        var t, n :| t in chains && 1 <= n <= |chains[t]| && k == ObjectKey(t, n);
        assert t in chains' && n <= |chains'[t]|;
      }
    }
    forall t, i | t in chains' && 0 <= i < |chains'[t]| ensures Placed(objects', t, i, chains'[t][i]) {
      if t != event.transaction || i < |chain| {
        assert Placed(objects, t, i, chains[t][i]);
      }
    }
  }

  lemma WriteKeepsInv(setup: Setup, w: World, c: nat, fact: Fact, params: Params, event: Event)
    requires Fit(setup) && Inv(setup, w) && CallOk(setup, Chain(w, fact.transaction), Writing(fact, params, event))
    ensures var v := DoWrite(w, c, fact, event); Inv(setup, v) && Grows(w, v)
  {
    hide ObjectKey, Append, ChainOk, Mirrors;
    if ObjectKey(event.transaction, event.sequence) in w.objects {
      MoveKeepsInv(setup, w, c, Done(fact, LostRace));
    } else {
      StoreKeepsInv(setup, w, fact, params, event);
      var u := Store(w, event);
      var chain := Chain(u, fact.transaction);
      assert chain[|chain| - 1] == event;
      assert Holds(chain, fact);
      MoveKeepsInv(setup, u, c, Done(fact, Recorded));
    }
  }

  lemma StoreKeepsInv(setup: Setup, w: World, fact: Fact, params: Params, event: Event)
    requires Fit(setup) && Inv(setup, w) && CallOk(setup, Chain(w, fact.transaction), Writing(fact, params, event))
    requires ObjectKey(event.transaction, event.sequence) !in w.objects
    ensures Inv(setup, Store(w, event)) && Grows(w, Store(w, event))
  {
    hide ObjectKey, Append, ChainOk, Mirrors;
    StoreContinues(setup, w, fact, params, event);
    var v := Store(w, event);
    var chain := Chain(w, fact.transaction);
    MirrorsAfter(w.objects, w.chains, event, chain);
    ChainOkBefore(setup, w, fact.transaction);
    ChainOkExtended(setup, chain, fact, params, event);
    hide CallOk;
    forall t ensures Extends(Chain(v, t), Chain(w, t)) {
    }
    forall d | d in v.calls ensures CallOk(setup, Chain(v, v.calls[d].fact.transaction), v.calls[d]) {
      var t := w.calls[d].fact.transaction;
      assert Extends(Chain(v, t), Chain(w, t));
      CallOkStable(setup, Chain(w, t), Chain(v, t), w.calls[d]);
    }
  }

  lemma ChainOkBefore(setup: Setup, w: World, t: Id)
    requires Inv(setup, w) && IsTransactionId(t)
    ensures ChainOk(setup, t, Chain(w, t))
  {
    hide CallOk;
  }

  lemma ExecKeepsInv(setup: Setup, w: World, a: Action)
    requires Fit(setup) && Inv(setup, w)
    ensures Inv(setup, Exec(setup, w, a)) && Grows(w, Exec(setup, w, a))
  {
    hide DoList, DoLoad, DoWrite, CallOk, ChainOk, Mirrors;
    match a {
      case List(c, fact, contents) => ListKeepsInv(setup, w, c, fact, contents);
      case Load(c, eventId, now) =>
        if c in w.calls && w.calls[c].Listed? {
          LoadKeepsInv(setup, w, c, w.calls[c].fact, w.calls[c].keys, eventId, now);
        }
      case Write(c) =>
        if c in w.calls && w.calls[c].Writing? {
          WriteKeepsInv(setup, w, c, w.calls[c].fact, w.calls[c].params, w.calls[c].event);
        }
    }
  }

  lemma {:induction false} RunKeepsInv(setup: Setup, w: World, actions: seq<Action>)
    requires Fit(setup) && Inv(setup, w)
    ensures Inv(setup, Run(setup, w, actions)) && Grows(w, Run(setup, w, actions))
  {
    hide Inv, Exec, Fit;
    if actions != [] {
      var k := |actions| - 1;
      RunKeepsInv(setup, w, actions[..k]);
      var mid, v := Run(setup, w, actions[..k]), Run(setup, w, actions);
      ExecKeepsInv(setup, mid, actions[k]);
      forall t ensures Extends(Chain(v, t), Chain(w, t)) {
        assert Extends(Chain(v, t), Chain(mid, t)) && Extends(Chain(mid, t), Chain(w, t));
        assert Chain(v, t)[..|Chain(w, t)|] == Chain(v, t)[..|Chain(mid, t)|][..|Chain(w, t)|];
      }
    }
  }

  lemma StartInv(setup: Setup)
    ensures Inv(setup, START)
  {
  }

  // ---- what holds in every run ----

  // The objects stored for a transaction are always one contiguous chain under the keys
  // 1, 2, ..., n: verifiable, with at most one challenge and one verification.
  lemma StoredObjectsAreOneChain(setup: Setup, actions: seq<Action>, t: Id)
    requires Fit(setup) && IsTransactionId(t)
    ensures var w := Run(setup, START, actions); var chain := Chain(w, t);
            && (forall key :: key in w.objects && HasPrefix(key, KeyPrefix(t)) <==> key in KeysUpTo(t, |chain|))
            && (forall i :: 0 <= i < |chain| ==> Placed(w.objects, t, i, chain[i]))
            && (chain != [] ==> ValidChain(setup.hash, setup.signer, chain)) && InSequence(chain, t)
            && AtMostOne(chain, PaymentChallenged) && AtMostOne(chain, PaymentVerified)
            && |chain| <= MAXIMUM_OBJECTS + 1
  {
    hide Run, ObjectKey, KeyPrefix, CallOk, ValidChain, InSequence;
    StartInv(setup);
    RunKeepsInv(setup, START, actions);
    var w := Run(setup, START, actions);
    var keys := KeysUpTo(t, |Chain(w, t)|);
    forall key ensures key in w.objects && HasPrefix(key, KeyPrefix(t)) <==> key in keys {
      if key in w.objects && HasPrefix(key, KeyPrefix(t)) {
        UnderPrefix(setup, w, t, key);
        var n :| 1 <= n <= |Chain(w, t)| && key == ObjectKey(t, n);
        assert keys[n - 1] == key;
      }
      if key in keys {
        KeyStored(setup, w, t, key);
      }
    }
    ChainOkBefore(setup, w, t);
  }

  // Whatever order the store lists in, a listing within the limit loads the whole chain.
  lemma ListingLoadsChain(setup: Setup, actions: seq<Action>, t: Id, contents: seq<string>)
    requires Fit(setup) && IsTransactionId(t) && Lists(Run(setup, START, actions).objects, KeyPrefix(t), contents)
    ensures var w := Run(setup, START, actions);
            && |contents| == |Chain(w, t)|
            && Objects(w.objects, Sort(LexLess, JsonKeys(contents, KeyPrefix(t)))) == Some(Chain(w, t))
  {
    hide Run, ObjectKey, KeyPrefix, CallOk, Lists, JsonKeys, ChainOk;
    StartInv(setup);
    RunKeepsInv(setup, START, actions);
    var w := Run(setup, START, actions);
    ListingInSequence(setup, w, t, contents);
    var keys := KeysUpTo(t, |Chain(w, t)|);
    forall i | 0 <= i < |keys| ensures keys[i] in w.objects && w.objects[keys[i]] == Chain(w, t)[i] {
      assert Placed(w.objects, t, i, Chain(w, t)[i]);
    }
    assert Objects(w.objects, keys).Some? && Objects(w.objects, keys).value == Chain(w, t);
  }

  // A recorder that reports success, now or before, finds its fact in the chain for
  // good; one that reports a conflict was contradicted by a stored event.
  lemma ReportsAreTrue(setup: Setup, before: seq<Action>, after: seq<Action>, c: nat)
    requires Fit(setup)
    requires var w := Run(setup, START, before); c in w.calls && w.calls[c].Done?
    ensures var w := Run(setup, START, before); var call := w.calls[c];
            var chain := Chain(Run(setup, w, after), call.fact.transaction);
            && (call.outcome == Recorded || call.outcome == AlreadyRecorded ==> Holds(chain, call.fact))
            && (call.outcome == Conflict ==> Contradicts(chain, call.fact))
  {
    hide Run, Mirrors, ChainOk, Extends;
    StartInv(setup);
    RunKeepsInv(setup, START, before);
    var w := Run(setup, START, before);
    RunKeepsInv(setup, w, after);
    var t := w.calls[c].fact.transaction;
    CallOkStable(setup, Chain(w, t), Chain(Run(setup, w, after), t), w.calls[c]);
  }

  // The listing limit also bounds the chain: the event after the last listable one is
  // stored, and then the chain is frozen because it can no longer be listed.
  lemma FullChainIsFrozen(setup: Setup, before: seq<Action>, after: seq<Action>, t: Id, contents: seq<string>)
    requires Fit(setup) && IsTransactionId(t) && |Chain(Run(setup, START, before), t)| == MAXIMUM_OBJECTS + 1
    ensures var w := Run(setup, START, before); var v := Run(setup, w, after);
            && Chain(v, t) == Chain(w, t)
            && (Lists(v.objects, KeyPrefix(t), contents) ==> |contents| > MAXIMUM_OBJECTS)
  {
    hide Run, Mirrors, CallOk, KeyPrefix, Lists, JsonKeys;
    StartInv(setup);
    RunKeepsInv(setup, START, before);
    var w := Run(setup, START, before);
    RunKeepsInv(setup, w, after);
    var v := Run(setup, w, after);
    ChainOkBefore(setup, v, t);
    assert Extends(Chain(v, t), Chain(w, t));
    if Lists(v.objects, KeyPrefix(t), contents) {
      ListingInSequence(setup, v, t, contents);
    }
  }

  // The three steps of one recorder in a row.
  function Alone(setup: Setup, w: World, c: nat, fact: Fact, contents: seq<string>, eventId: Id, now: Time): World {
    Exec(setup, Exec(setup, Exec(setup, w, List(c, fact, contents)), Load(c, eventId, now)), Write(c))
  }

  // A recorder may start: its call is new, the store can list its transaction, the fact is
  // not recorded yet if it may be only once, and the event can be signed.
  predicate MayRecord(setup: Setup, w: World, c: nat, fact: Fact, contents: seq<string>, eventId: Id, now: Time) {
    var chain := Chain(w, fact.transaction);
    && c !in w.calls && IsTransactionId(fact.transaction) && Recordable(fact.kind)
    && Lists(w.objects, KeyPrefix(fact.transaction), contents) && |contents| <= MAXIMUM_OBJECTS
    && (OncePerChain(fact.kind) ==> forall i :: 0 <= i < |chain| ==> chain[i].eventType != fact.kind)
    && Append(setup.hash, setup.signer, NextParams(fact, chain, eventId, now), Last(chain)).Ok?
  }

  // In every run, a recorder nobody interrupts adds its event, at any length the store can
  // still list.
  lemma UninterruptedRecorderRecords(
    setup: Setup, before: seq<Action>, c: nat, fact: Fact, contents: seq<string>, eventId: Id, now: Time)
    requires Fit(setup) && MayRecord(setup, Run(setup, START, before), c, fact, contents, eventId, now)
    ensures var w := Run(setup, START, before); var chain := Chain(w, fact.transaction);
            var v := Alone(setup, w, c, fact, contents, eventId, now);
            && c in v.calls && v.calls[c] == Done(fact, Recorded)
            && Append(setup.hash, setup.signer, NextParams(fact, chain, eventId, now), Last(chain)).Ok?
            && Chain(v, fact.transaction) ==
               chain + [Append(setup.hash, setup.signer, NextParams(fact, chain, eventId, now), Last(chain)).value]
  {
    hide Run, Inv, Alone, Append, Lists, Fit;
    StartInv(setup);
    RunKeepsInv(setup, START, before);
    AloneRecords(setup, Run(setup, START, before), c, fact, contents, eventId, now);
  }

  lemma AloneRecords(setup: Setup, w: World, c: nat, fact: Fact, contents: seq<string>, eventId: Id, now: Time)
    requires Fit(setup) && Inv(setup, w) && MayRecord(setup, w, c, fact, contents, eventId, now)
    ensures var chain := Chain(w, fact.transaction);
            var event := Append(setup.hash, setup.signer, NextParams(fact, chain, eventId, now), Last(chain)).value;
            var v := Alone(setup, w, c, fact, contents, eventId, now);
            c in v.calls && v.calls[c] == Done(fact, Recorded) && Chain(v, fact.transaction) == chain + [event]
  {
    hide Inv, Lists, KeyPrefix, ObjectKey, JsonKeys, Objects, Append, CallOk, ValidChain, InSequence, FirstOf, Sort, AtMostOne, KeysOf;
    var t := fact.transaction;
    var chain := Chain(w, t);
    ListingInSequence(setup, w, t, contents);
    var keys := KeysUpTo(t, |chain|);
    var listed := Exec(setup, w, List(c, fact, contents));
    assert listed == To(w, c, Listed(fact, keys));
    ExecKeepsInv(setup, w, List(c, fact, contents));
    ListedOk(setup, listed, c);
    LoadedPrefix(setup, listed, fact, keys);
    assert chain[..|keys|] == chain;
    ChainOkBefore(setup, w, t);
    var loaded := Exec(setup, listed, Load(c, eventId, now));
    var params := NextParams(fact, chain, eventId, now);
    var event := Append(setup.hash, setup.signer, params, Last(chain)).value;
    assert loaded == To(listed, c, Writing(fact, params, event));
    ExecKeepsInv(setup, listed, Load(c, eventId, now));
    AppendedFields(setup, params, Last(chain));
    KeyAbsent(setup, loaded, t);
  }

  lemma ListedOk(setup: Setup, w: World, c: nat)
    requires Inv(setup, w) && c in w.calls
    ensures CallOk(setup, Chain(w, w.calls[c].fact.transaction), w.calls[c])
  {
    hide CallOk, ChainOk, Mirrors;
  }

  lemma AppendedFields(setup: Setup, params: Params, previous: Option<Event>)
    requires Append(setup.hash, setup.signer, params, previous).Ok?
    ensures var e := Append(setup.hash, setup.signer, params, previous).value;
            e.transaction == params.transaction && e.sequence == params.sequence
  {
    hide TrimSpace;
  }

  // The key after the last one is free.
  lemma KeyAbsent(setup: Setup, w: World, t: Id)
    requires Inv(setup, w) && IsTransactionId(t)
    ensures ObjectKey(t, |Chain(w, t)| + 1) !in w.objects
  {
    hide ObjectKey, KeyPrefix, CallOk;
    var n := |Chain(w, t)|;
    var key := ObjectKey(t, n + 1);
    KeyOwner(t, n + 1, t);
    ChainOkBefore(setup, w, t);
    if key in w.objects {
      UnderPrefix(setup, w, t, key);
      var m :| 1 <= m <= n && key == ObjectKey(t, m);
      KeyOrder(t, m, n + 1);
    }
  }

  // ---- the limit is reached ----

  ghost predicate AlwaysSigns(setup: Setup) { forall d :: setup.signer.sign(d).Some? }

  const FORWARDED_AT: Time := 1

  function Forwarded(t: Id): Fact { Fact(t, ProxyForwarded, Text("{}")) }

  // n recorders one after the other, each listing the keys stored before it.
  function Recorders(t: Id, n: nat): seq<Action> {
    if n == 0 then []
    else Recorders(t, n - 1) + [List(n - 1, Forwarded(t), KeysUpTo(t, n - 1)), Load(n - 1, Id(EvidenceIds, ""), FORWARDED_AT), Write(n - 1)]
  }

  lemma RunOne(setup: Setup, w: World, before: seq<Action>, a: Action)
    ensures Run(setup, w, before + [a]) == Exec(setup, Run(setup, w, before), a)
  {
    hide Exec;
    assert (before + [a])[..|before|] == before;
  }

  lemma RunThree(setup: Setup, w: World, before: seq<Action>, a: Action, b: Action, c: Action)
    ensures Run(setup, w, before + [a, b, c]) == Exec(setup, Exec(setup, Exec(setup, Run(setup, w, before), a), b), c)
  {
    hide Exec, Run;
    RunOne(setup, w, before, a);
    RunOne(setup, w, before + [a], b);
    RunOne(setup, w, before + [a] + [b], c);
    assert before + [a] + [b] + [c] == before + [a, b, c];
  }

  // What is stored lists as its keys in sequence.
  lemma ListsInSequence(setup: Setup, actions: seq<Action>, t: Id)
    requires Fit(setup) && IsTransactionId(t)
    ensures var w := Run(setup, START, actions); Lists(w.objects, KeyPrefix(t), KeysUpTo(t, |Chain(w, t)|))
  {
    hide Run, ObjectKey, KeyPrefix, Fit, ValidChain, InSequence, AtMostOne, LexLess, Inv;
    StoredObjectsAreOneChain(setup, actions, t);
    var w := Run(setup, START, actions);
    var keys := KeysUpTo(t, |Chain(w, t)|);
    forall i, j | 0 <= i < j < |keys| ensures keys[i] != keys[j] {
      KeyOrder(t, i + 1, j + 1);
    }
    assert forall i :: 0 <= i < |keys| ==> keys[i] in keys;
  }

  // After n recorders: n events, all at one moment, and nothing but their calls.
  predicate Grown(w: World, t: Id, n: nat) {
    && |Chain(w, t)| == n && InSequence(Chain(w, t), t)
    && (forall i :: 0 <= i < n ==> Chain(w, t)[i].createdAt == FORWARDED_AT)
    && (forall c :: c in w.calls ==> c < n)
  }

  lemma NextEventSigns(setup: Setup, w: World, t: Id, n: nat)
    requires Fit(setup) && AlwaysSigns(setup) && IsTransactionId(t) && Grown(w, t, n) && n <= MAXIMUM_OBJECTS
    ensures var chain := Chain(w, t); var p := NextParams(Forwarded(t), chain, Id(EvidenceIds, ""), FORWARDED_AT);
            var r := Append(setup.hash, setup.signer, p, Last(chain));
            && r.Ok? && r.value.createdAt == FORWARDED_AT && r.value.transaction == t && r.value.sequence == n + 1
  {
    var chain := Chain(w, t);
    var p := NextParams(Forwarded(t), chain, Id(EvidenceIds, ""), FORWARDED_AT);
    assert ParamsValid(p, Last(chain));
    var digest := setup.hash(Fields(Unsigned(p, Last(chain))));
    var signature := setup.signer.sign(digest);
    assert signature.Some? && !Blank(signature.value.keyId) && !Blank(signature.value.value);
    assert Blank("");
  }

  lemma {:induction false} RecordersGrow(setup: Setup, t: Id, n: nat)
    requires Fit(setup) && AlwaysSigns(setup) && IsTransactionId(t) && n <= MAXIMUM_OBJECTS + 1
    ensures Grown(Run(setup, START, Recorders(t, n)), t, n)
  {
    if n > 0 {
      var k, before := n - 1, Recorders(t, n - 1);
      var fact, id := Forwarded(t), Id(EvidenceIds, "");
      assert Recorders(t, n) == before + [List(k, fact, KeysUpTo(t, k)), Load(k, id, FORWARDED_AT), Write(k)];
      hide Run, Recorders, Fit, AlwaysSigns, Exec, Grown, ObjectKey;
      RecordersGrow(setup, t, k);
      RunThree(setup, START, before, List(k, fact, KeysUpTo(t, k)), Load(k, id, FORWARDED_AT), Write(k));
      OneMoreGrown(setup, before, t, k);
    }
  }

  lemma OneMoreGrown(setup: Setup, before: seq<Action>, t: Id, n: nat)
    requires Fit(setup) && AlwaysSigns(setup) && IsTransactionId(t) && n <= MAXIMUM_OBJECTS
    requires Grown(Run(setup, START, before), t, n)
    ensures var w := Run(setup, START, before);
            Grown(Alone(setup, w, n, Forwarded(t), KeysUpTo(t, n), Id(EvidenceIds, ""), FORWARDED_AT), t, n + 1)
  {
    hide Run, Append, Fit, AlwaysSigns, Lists, KeyPrefix, Alone, ObjectKey, KeysOf;
    var w, fact, id := Run(setup, START, before), Forwarded(t), Id(EvidenceIds, "");
    NextEventSigns(setup, w, t, n);
    ListsInSequence(setup, before, t);
    UninterruptedRecorderRecords(setup, before, n, fact, KeysUpTo(t, n), id, FORWARDED_AT);
    AloneCalls(setup, w, n, fact, KeysUpTo(t, n), id, FORWARDED_AT);
  }

  lemma ExecCalls(setup: Setup, w: World, a: Action)
    ensures Exec(setup, w, a).calls.Keys <= w.calls.Keys + {a.call}
  {
    hide Lists, Sort, JsonKeys, Objects, InSequence, Decide, ObjectKey, KeyPrefix;
  }

  lemma AloneCalls(setup: Setup, w: World, c: nat, fact: Fact, contents: seq<string>, eventId: Id, now: Time)
    ensures Alone(setup, w, c, fact, contents, eventId, now).calls.Keys <= w.calls.Keys + {c}
  {
    hide Exec;
    var listed := Exec(setup, w, List(c, fact, contents));
    var loaded := Exec(setup, listed, Load(c, eventId, now));
    ExecCalls(setup, w, List(c, fact, contents));
    ExecCalls(setup, listed, Load(c, eventId, now));
    ExecCalls(setup, loaded, Write(c));
  }

  // The bound is tight: under any fit signer that always signs, some run stores one event
  // more than can be listed, and so freezes its chain.
  lemma FullChainIsReachable(setup: Setup, t: Id)
    requires Fit(setup) && AlwaysSigns(setup) && IsTransactionId(t)
    ensures |Chain(Run(setup, START, Recorders(t, MAXIMUM_OBJECTS + 1)), t)| == MAXIMUM_OBJECTS + 1
  {
    hide Run, Recorders, Fit, AlwaysSigns;
    RecordersGrow(setup, t, MAXIMUM_OBJECTS + 1);
  }

  // The local signer is such a signer.
  lemma LocalSetupFits(hash: HashFunction, keyId: string, secretLength: nat, mac: Digest -> string)
    requires NewLocalSigner(keyId, secretLength, mac).Ok? && forall d :: !Blank(mac(d))
    ensures var setup := Setup(hash, NewLocalSigner(keyId, secretLength, mac).value); Fit(setup) && AlwaysSigns(setup)
  {
    hide TrimSpace;
    LocalSignerIsCorrect(keyId, secretLength, mac);
  }
}
