// Integration credentials (internal/integrations): the stored snapshot, its three
// in-place updates, and the conditional writes of the credential repository.
module Credentials {
  import opened Foundations

  datatype Scope = ReadScope | ConfigureScope | PublishScope | ValidateScope | RotateScope | UnsupportedScope

  // The part of a credential that never changes after creation. The secret is the raw token
  // that was generated for it; the source stores its digest.
  datatype Identity = Identity(
    id: Id, sellerId: Id, name: string, scopes: seq<Scope>, epoch: nat, expiresAt: Option<Time>, createdAt: Time,
    secret: string)

  datatype Snapshot = Snapshot(
    identity: Identity, lastUsedAt: Option<Time>, replacedBy: Option<Id>, revokedAt: Option<Time>,
    updatedAt: Time, version: nat)

  datatype CredentialError = Revoked | Chronology | BadSuccessor | InvalidCredential

  const MAXIMUM_LABEL: nat := 80

  predicate ValidScopes(scopes: seq<Scope>) {
    && scopes != [] && UnsupportedScope !in scopes
    && forall i, j :: 0 <= i < j < |scopes| ==> scopes[i] != scopes[j]
  }

  // validateCredentialParams
  predicate ValidIdentity(p: Identity) {
    && p.id.prefix == CredentialIds && p.sellerId.prefix == SellerIds
    && 1 <= |TrimSpace(p.name)| <= MAXIMUM_LABEL
    && ValidScopes(p.scopes)
    && p.epoch != 0
    && p.createdAt != ZERO_TIME
    && (p.expiresAt.Some? ==> p.createdAt < p.expiresAt.value)
  }

  // NewCredential for a fresh credential
  function NewCredential(p: Identity): Result<Snapshot, CredentialError> {
    if !ValidIdentity(p) then Err(InvalidCredential)
    else Ok(Snapshot(p.(name := TrimSpace(p.name)), None, None, None, p.createdAt, 1))
  }

  // ---- what the three updates do to a snapshot ----

  function MarkUsed(c: Snapshot, at: Time): Result<Snapshot, CredentialError> {
    if c.revokedAt.Some? then Err(Revoked)
    else if at < c.updatedAt then Err(Chronology)
    else Ok(c.(lastUsedAt := Some(at), updatedAt := at, version := c.version + 1))
  }

  function Revoke(c: Snapshot, at: Time): Result<Snapshot, CredentialError> {
    if c.revokedAt.Some? then Err(Revoked)
    else if at < c.updatedAt then Err(Chronology)
    else Ok(c.(revokedAt := Some(at), updatedAt := at, version := c.version + 1))
  }

  function Replace(c: Snapshot, successor: Id, at: Time): Result<Snapshot, CredentialError> {
    if successor.prefix != CredentialIds || successor == c.identity.id then Err(BadSuccessor)
    else match Revoke(c, at)
      case Err(e) => Err(e)
      case Ok(revoked) => Ok(revoked.(replacedBy := Some(successor)))
  }

  // The credential object of the source, whose methods update its fields.
  class Credential {
    const identity: Identity
    var lastUsedAt: Option<Time>
    var replacedBy: Option<Id>
    var revokedAt: Option<Time>
    var updatedAt: Time
    var version: nat

    function Value(): Snapshot
      reads this
    {
      Snapshot(identity, lastUsedAt, replacedBy, revokedAt, updatedAt, version)
    }

    // RestoreCredential
    constructor (s: Snapshot)
      ensures Value() == s
    {
      identity := s.identity;
      lastUsedAt, replacedBy, revokedAt, updatedAt, version := s.lastUsedAt, s.replacedBy, s.revokedAt, s.updatedAt, s.version;
    }

    method RecordUse(usedAt: Time) returns (error: Option<CredentialError>)
      modifies this
      ensures match MarkUsed(old(Value()), usedAt)
              case Ok(n) => error == None && Value() == n
              case Err(e) => error == Some(e) && Value() == old(Value())
    {
      if revokedAt.Some? {
        return Some(Revoked);
      }
      if usedAt < updatedAt {
        return Some(Chronology);
      }
      lastUsedAt := Some(usedAt);
      updatedAt := usedAt;
      version := version + 1;
      return None;
    }

    method MarkRevoked(at: Time) returns (error: Option<CredentialError>)
      modifies this
      ensures match Revoke(old(Value()), at)
              case Ok(n) => error == None && Value() == n
              case Err(e) => error == Some(e) && Value() == old(Value())
    {
      if revokedAt.Some? {
        return Some(Revoked);
      }
      if at < updatedAt {
        return Some(Chronology);
      }
      revokedAt := Some(at);
      updatedAt := at;
      version := version + 1;
      return None;
    }

    method ReplaceWith(successor: Id, at: Time) returns (error: Option<CredentialError>)
      modifies this
      ensures match Replace(old(Value()), successor, at)
              case Ok(n) => error == None && Value() == n
              case Err(e) => error == Some(e) && Value() == old(Value())
    {
      if successor.prefix != CredentialIds || successor == identity.id {
        return Some(BadSuccessor);
      }
      error := MarkRevoked(at);
      if error.Some? {
        return;
      }
      replacedBy := Some(successor);
    }
  }

  // ---- the repository (internal/persistence/memory/integration_credentials.go) ----

  // The compare-and-swap condition of a write: same seller, the version that was read, one more.
  predicate UpdateAccepts(stored: map<Id, Snapshot>, c: Snapshot, expected: nat) {
    && c.identity.id in stored && stored[c.identity.id].identity.sellerId == c.identity.sellerId
    && stored[c.identity.id].version == expected && c.version == expected + 1
  }
}
