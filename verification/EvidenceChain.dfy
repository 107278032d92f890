// The signed evidence chain of one transaction (internal/evidence/service.go): what
// Append produces, what VerifyChain accepts, and what an accepted chain pins down.
module EvidenceChain {
  import opened Foundations

  type Digest = string

  datatype EventType =
    | IntentCreated | ApprovalRequested | ApprovalDecided | ApprovalResolved | PaymentChallenged | PaymentVerified
    | ProxyForwarded | DeliverySucceeded | DeliveryFailed | DisputeOpened | DisputeClassified | DisputeResolved
    | UnknownType(name: string)

  datatype ActorType = System | Seller | Buyer | Approver | UnknownActor(name: string)

  // A payload by its canonical JSON text; a value with none cannot be hashed.
  datatype Payload = Absent | Uncanonical | Text(canonical: string)

  datatype Params = Params(
    eventId: Id, transaction: Id, sequence: nat, eventType: EventType, actorType: ActorType, actorId: string,
    payload: Payload, createdAt: Time)

  datatype Event = Event(
    eventId: Id, transaction: Id, sequence: nat, eventType: EventType, actorType: ActorType, actorId: string,
    payload: Payload, previousHash: Option<Digest>, eventHash: Digest, keyId: string, signature: string, createdAt: Time)

  // hashPayload: everything the digest covers.
  datatype Hashed = Hashed(
    eventId: Id, transaction: Id, sequence: nat, eventType: EventType, actorType: ActorType, actorId: string,
    payload: Payload, previousHash: Option<Digest>, createdAt: Time)

  type HashFunction = Hashed -> Digest

  datatype Signature = Signature(keyId: string, value: string)

  datatype Verdict = Valid | Invalid | Unavailable

  datatype Signer = Signer(sign: Digest -> Option<Signature>, verify: (string, Digest, string) -> Verdict)

  ghost predicate Injective(hash: HashFunction) { forall a, b :: hash(a) == hash(b) ==> a == b }

  // Every signature the signer makes, it accepts.
  ghost predicate Correct(signer: Signer) {
    forall d :: signer.sign(d).Some? ==> signer.verify(signer.sign(d).value.keyId, d, signer.sign(d).value.value) == Valid
  }

  predicate Blank(s: string) { TrimSpace(s) == "" }

  ghost predicate NeverBlank(signer: Signer) {
    forall d :: signer.sign(d).Some? ==> !Blank(signer.sign(d).value.keyId) && !Blank(signer.sign(d).value.value)
  }

  function Fields(e: Event): Hashed {
    Hashed(e.eventId, e.transaction, e.sequence, e.eventType, e.actorType, e.actorId, e.payload, e.previousHash, e.createdAt)
  }

  // calculateHash
  function CalculateHash(hash: HashFunction, e: Event): Option<Digest> {
    if e.payload.Uncanonical? then None else Some(hash(Fields(e)))
  }

  // ---- Append ----

  datatype AppendError = BadParams | BadPayload | SignerFailed | SignatureMissing

  predicate ParamsValid(p: Params, previous: Option<Event>) {
    && p.eventId.prefix == EvidenceIds && p.transaction.prefix == TransactionIds
    && !p.eventType.UnknownType? && !p.actorType.UnknownActor? && !p.payload.Absent? && p.createdAt != ZERO_TIME
    && match previous
       case None => p.sequence == 1
       case Some(e) => p.transaction == e.transaction && p.sequence == (e.sequence + 1) % UINT64_MOD && p.createdAt >= e.createdAt
  }

  function Unsigned(p: Params, previous: Option<Event>): Event {
    Event(p.eventId, p.transaction, p.sequence, p.eventType, p.actorType, TrimSpace(p.actorId), p.payload,
          if previous.Some? then Some(previous.value.eventHash) else None, "", "", "", p.createdAt)
  }

  function Append(hash: HashFunction, signer: Signer, p: Params, previous: Option<Event>): Result<Event, AppendError> {
    if !ParamsValid(p, previous) then Err(BadParams) else
    var event := Unsigned(p, previous);
    var digest := CalculateHash(hash, event);
    if digest.None? then Err(BadPayload) else
    var signature := signer.sign(digest.value);
    if signature.None? then Err(SignerFailed)
    else if signature.value.keyId == "" || signature.value.value == "" then Err(SignatureMissing)
    else Ok(event.(eventHash := digest.value, keyId := signature.value.keyId, signature := signature.value.value))
  }

  // Exactly what Append accepts, and the event it makes.
  lemma AppendSucceedsIff(hash: HashFunction, signer: Signer, p: Params, previous: Option<Event>)
    ensures var unsigned := Hashed(p.eventId, p.transaction, p.sequence, p.eventType, p.actorType, TrimSpace(p.actorId), p.payload,
                                   if previous.None? then None else Some(previous.value.eventHash), p.createdAt);
            var signature := signer.sign(hash(unsigned));
            var r := Append(hash, signer, p, previous);
            && (r.Ok? <==>
                  && p.eventId.prefix == EvidenceIds && p.transaction.prefix == TransactionIds
                  && !p.eventType.UnknownType? && !p.actorType.UnknownActor? && p.payload.Text? && p.createdAt != ZERO_TIME
                  && (previous.None? ==> p.sequence == 1)
                  && (previous.Some? ==>
                        && p.transaction == previous.value.transaction && p.createdAt >= previous.value.createdAt
                        && p.sequence == (previous.value.sequence + 1) % UINT64_MOD)
                  && signature.Some? && signature.value.keyId != "" && signature.value.value != "")
            && (r.Ok? ==>
                  && Fields(r.value) == unsigned && r.value.eventHash == hash(unsigned)
                  && r.value.keyId == signature.value.keyId && r.value.signature == signature.value.value)
  {
    hide TrimSpace;
  }

  // ---- VerifyChain ----

  // validateStoredEvent at position i
  predicate StoredOk(events: seq<Event>, i: nat)
    requires i < |events|
  {
    && events[i].sequence == (i + 1) % UINT64_MOD && !Blank(events[i].keyId) && !Blank(events[i].signature)
    && if i == 0 then events[i].previousHash.None?
       else
         && events[i].transaction == events[i - 1].transaction
         && events[i].previousHash == Some(events[i - 1].eventHash) && events[i].createdAt >= events[i - 1].createdAt
  }

  predicate HashedOk(hash: HashFunction, events: seq<Event>, i: nat)
    requires i < |events|
  {
    StoredOk(events, i) && CalculateHash(hash, events[i]) == Some(events[i].eventHash)
  }

  function VerdictAt(signer: Signer, events: seq<Event>, i: nat): Verdict
    requires i < |events|
  {
    signer.verify(events[i].keyId, events[i].eventHash, events[i].signature)
  }

  predicate LinkOk(hash: HashFunction, signer: Signer, events: seq<Event>, i: nat)
    requires i < |events|
  {
    HashedOk(hash, events, i) && VerdictAt(signer, events, i) == Valid
  }

  predicate ValidChain(hash: HashFunction, signer: Signer, events: seq<Event>) {
    events != [] && forall i :: 0 <= i < |events| ==> LinkOk(hash, signer, events, i)
  }

  datatype Verification = Verified | ChainInvalid | VerifierFailed

  // The events before k pass; the event at k passes all but its signature, which could
  // not be checked.
  predicate FirstUnchecked(hash: HashFunction, signer: Signer, events: seq<Event>, k: nat)
    requires k < |events|
  {
    && HashedOk(hash, events, k) && VerdictAt(signer, events, k) == Unavailable
    && forall i :: 0 <= i < k ==> LinkOk(hash, signer, events, i)
  }

  // VerifyChain accepts exactly the valid chains, and blames the verifier only when the
  // first bad event is well linked and hashed but could not be checked.
  method VerifyChain(hash: HashFunction, events: seq<Event>, verifier: Option<Signer>) returns (r: Verification)
    ensures r == Verified <==> verifier.Some? && ValidChain(hash, verifier.value, events)
    ensures r == VerifierFailed <==>
            verifier.Some? && exists k :: 0 <= k < |events| && FirstUnchecked(hash, verifier.value, events, k)
  {
    hide Blank, CalculateHash;
    if events == [] || verifier.None? {
      return ChainInvalid;
    }
    var index := 0;
    while index < |events|
      invariant 0 <= index <= |events|
      invariant forall i :: 0 <= i < index ==> LinkOk(hash, verifier.value, events, i)
      invariant forall i :: 0 <= i < index ==> !FirstUnchecked(hash, verifier.value, events, i)
    {
      assert forall k :: index < k < |events| && FirstUnchecked(hash, verifier.value, events, k) ==>
          LinkOk(hash, verifier.value, events, index);
      if !StoredOk(events, index) {
        assert !LinkOk(hash, verifier.value, events, index);
        return ChainInvalid;
      }
      var digest := CalculateHash(hash, events[index]);
      if digest.None? || digest.value != events[index].eventHash {
        assert !LinkOk(hash, verifier.value, events, index);
        return ChainInvalid;
      }
      var verdict := verifier.value.verify(events[index].keyId, digest.value, events[index].signature);
      assert verdict == VerdictAt(verifier.value, events, index) && HashedOk(hash, events, index);
      if verdict == Unavailable {
        assert FirstUnchecked(hash, verifier.value, events, index) && !LinkOk(hash, verifier.value, events, index);
        return VerifierFailed;
      }
      if verdict == Invalid {
        assert !LinkOk(hash, verifier.value, events, index);
        return ChainInvalid;
      }
      index := index + 1;
    }
    return Verified;
  }

  // ---- tamper evidence ----

  // Two accepted chains that agree on the last event hash agree on every hashed field of
  // every event, and on every event hash; so they have the same length.
  lemma {:induction false} SameTipSameChain(hash: HashFunction, s: Signer, t: Signer, a: seq<Event>, b: seq<Event>)
    requires Injective(hash) && ValidChain(hash, s, a) && ValidChain(hash, t, b)
    requires a[|a| - 1].eventHash == b[|b| - 1].eventHash
    ensures |a| == |b|
    ensures forall i :: 0 <= i < |a| ==> Fields(a[i]) == Fields(b[i]) && a[i].eventHash == b[i].eventHash
    decreases |a|
  {
    hide Blank;
    var m, n := |a| - 1, |b| - 1;
    assert LinkOk(hash, s, a, m) && LinkOk(hash, t, b, n);
    assert Fields(a[m]) == Fields(b[n]);
    if m > 0 && n > 0 {
      PrefixValid(hash, s, a, m);
      PrefixValid(hash, t, b, n);
      SameTipSameChain(hash, s, t, a[..m], b[..n]);
    }
  }

  lemma PrefixValid(hash: HashFunction, signer: Signer, events: seq<Event>, n: nat)
    requires 0 < n <= |events| && ValidChain(hash, signer, events)
    ensures ValidChain(hash, signer, events[..n])
  {
    hide Blank;
    forall i | 0 <= i < n ensures LinkOk(hash, signer, events[..n], i) {
      assert LinkOk(hash, signer, events, i);
    }
  }

  // So editing, dropping, inserting or reordering events of an accepted chain changes
  // its last hash or makes it unacceptable.
  lemma TamperingShows(hash: HashFunction, s: Signer, t: Signer, genuine: seq<Event>, altered: seq<Event>)
    requires Injective(hash) && ValidChain(hash, s, genuine) && genuine != [] && altered != []
    requires |genuine| != |altered| || exists i :: 0 <= i < |genuine| && Fields(genuine[i]) != Fields(altered[i])
    ensures altered[|altered| - 1].eventHash != genuine[|genuine| - 1].eventHash || !ValidChain(hash, t, altered)
  {
    hide ValidChain;
    if altered[|altered| - 1].eventHash == genuine[|genuine| - 1].eventHash && ValidChain(hash, t, altered) {
      SameTipSameChain(hash, s, t, genuine, altered);
    }
  }

  // ---- chains built by Append ----

  function Last(events: seq<Event>): Option<Event> {
    if events == [] then None else Some(events[|events| - 1])
  }

  // Appending one event after another; the first refusal ends it.
  function AppendAll(hash: HashFunction, signer: Signer, all: seq<Params>): Result<seq<Event>, AppendError> {
    if all == [] then Ok([]) else
    var built := AppendAll(hash, signer, all[..|all| - 1]);
    if built.Err? then Err(built.error) else
    var next := Append(hash, signer, all[|all| - 1], Last(built.value));
    if next.Err? then Err(next.error) else Ok(built.value + [next.value])
  }

  predicate SignedVisibly(e: Event) { !Blank(e.keyId) && !Blank(e.signature) }

  // A valid chain (or none yet) and an appended event that is visibly signed.
  lemma AppendExtends(hash: HashFunction, signer: Signer, events: seq<Event>, p: Params)
    requires Correct(signer) && (events == [] || ValidChain(hash, signer, events)) && |events| + 1 < UINT64_MOD
    requires Append(hash, signer, p, Last(events)).Ok?
    ensures var e := Append(hash, signer, p, Last(events)).value;
            ValidChain(hash, signer, events + [e]) <==> SignedVisibly(e)
  {
    hide Blank, TrimSpace;
    var n := |events|;
    var e := Append(hash, signer, p, Last(events)).value;
    var longer := events + [e];
    assert n > 0 ==> LinkOk(hash, signer, events, n - 1);
    forall i | 0 <= i < n ensures LinkOk(hash, signer, longer, i) {
      assert LinkOk(hash, signer, events, i);
    }
    if SignedVisibly(e) {
      assert LinkOk(hash, signer, longer, n);
    } else {
      assert !LinkOk(hash, signer, longer, n);
    }
  }

  // A chain built by Append under a correct signer is accepted exactly when no key id
  // and no signature is blank; Append itself refuses only empty ones.
  lemma {:induction false} AppendedChainAcceptedIff(hash: HashFunction, signer: Signer, all: seq<Params>)
    requires Correct(signer) && all != [] && |all| < UINT64_MOD && AppendAll(hash, signer, all).Ok?
    ensures var events := AppendAll(hash, signer, all).value;
            && |events| == |all|
            && (ValidChain(hash, signer, events) <==> forall i :: 0 <= i < |events| ==> SignedVisibly(events[i]))
  {
    hide Blank, Append, ValidChain;
    var k := |all| - 1;
    var before := AppendAll(hash, signer, all[..k]).value;
    var events := AppendAll(hash, signer, all).value;
    var e := events[|before|];
    assert events == before + [e];
    if k > 0 {
      AppendedChainAcceptedIff(hash, signer, all[..k]);
    }
    if before == [] || ValidChain(hash, signer, before) {
      AppendExtends(hash, signer, before, all[k]);
      assert forall i :: 0 <= i < k ==> events[i] == before[i];
    } else {
      var i :| 0 <= i < |before| && !SignedVisibly(before[i]);
      assert events[i] == before[i];
      assert events[..k] == before;
      if ValidChain(hash, signer, events) {
        PrefixValid(hash, signer, events, k);
      }
    }
  }

  // With a signer that never returns blanks every chain built is accepted.
  lemma {:induction false} AppendedChainAccepted(hash: HashFunction, signer: Signer, all: seq<Params>)
    requires Correct(signer) && NeverBlank(signer) && all != [] && |all| < UINT64_MOD && AppendAll(hash, signer, all).Ok?
    ensures ValidChain(hash, signer, AppendAll(hash, signer, all).value)
  {
    hide Blank, ValidChain;
    AppendedChainAcceptedIff(hash, signer, all);
    if |all| > 1 {
      AppendedChainAccepted(hash, signer, all[..|all| - 1]);
      AppendedChainAcceptedIff(hash, signer, all[..|all| - 1]);
    }
  }

  // A correct signer whose key id is one space: Append accepts, VerifyChain does not.
  lemma BlankKeyIdIsRefusedLate(hash: HashFunction)
    ensures var signer := Signer(d => Some(Signature(" ", "s")), (k, d, s) => Valid);
            var p := Params(Id(EvidenceIds, ""), Id(TransactionIds, ""), 1, PaymentChallenged, System, "", Text("{}"), 1);
            && Correct(signer) && AppendAll(hash, signer, [p]).Ok?
            && !ValidChain(hash, signer, AppendAll(hash, signer, [p]).value)
  {
    var signer := Signer(d => Some(Signature(" ", "s")), (k, d, s) => Valid);
    var p := Params(Id(EvidenceIds, ""), Id(TransactionIds, ""), 1, PaymentChallenged, System, "", Text("{}"), 1);
    var all := [p];
    assert all[..|all| - 1] == [];
    assert AppendAll(hash, signer, all[..|all| - 1]) == Ok([]);
    assert ParamsValid(p, None) && Append(hash, signer, p, None).Ok?;
    var events := AppendAll(hash, signer, [p]).value;
    assert events[0].keyId == " ";
    TrimTrims(" ");
    assert !LinkOk(hash, signer, events, 0);
  }

  // ---- the local signer ----

  // LocalHMACSigner with the keyed digest as a function.
  function LocalSigner(keyId: string, mac: Digest -> string): Signer {
    Signer(d => Some(Signature(keyId, mac(d))), (k, d, s) => if k == keyId && s == mac(d) then Valid else Invalid)
  }

  function NewLocalSigner(keyId: string, secretLength: nat, mac: Digest -> string): Result<Signer, string> {
    if TrimSpace(keyId) == "" then Err("evidenceKeyId")
    else if secretLength < 32 then Err("evidenceSigningSecret")
    else Ok(LocalSigner(TrimSpace(keyId), mac))
  }

  // The constructor's own checks make the local signer correct, never blank as long as
  // encoded digests are not, and deaf to every other key and signature.
  lemma LocalSignerIsCorrect(keyId: string, secretLength: nat, mac: Digest -> string)
    requires NewLocalSigner(keyId, secretLength, mac).Ok? && forall d :: !Blank(mac(d))
    ensures var signer := NewLocalSigner(keyId, secretLength, mac).value;
            && Correct(signer) && NeverBlank(signer)
            && forall k, d, s :: signer.verify(k, d, s) == Valid ==> signer.sign(d) == Some(Signature(k, s))
  {
    TrimIdempotent(keyId);
    hide TrimSpace;
  }
}
