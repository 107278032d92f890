// Shared vocabulary: optional values, results, machine-integer bounds, Go's
// notion of white space, and byte-wise string order.
module Foundations {

  datatype Option<T> = None | Some(value: T)

  datatype Result<T, E> = Ok(value: T) | Err(error: E)

  const UINT32_MOD: nat := 0x1_0000_0000
  const UINT64_MOD: nat := 0x1_0000_0000_0000_0000

  // Instants and durations are nanosecond counts. The zero instant is Go's zero time.
  type Time = int
  const ZERO_TIME: Time := 0
  const SECOND: int := 1_000_000_000
  const MINUTE: int := 60 * SECOND
  const HOUR: int := 60 * MINUTE

  // unicode.IsSpace
  predicate IsSpace(c: char) {
    var n := c as int;
    9 <= n <= 13 || n == 32 || n == 0x85 || n == 0xA0 || n == 0x1680 || 0x2000 <= n <= 0x200A
    || n == 0x2028 || n == 0x2029 || n == 0x202F || n == 0x205F || n == 0x3000
  }

  // How many leading (trailing) characters of s are white space.
  function LeadingSpaces(s: string, from: nat): (n: nat)
    requires from <= |s|
    ensures from <= n <= |s|
    decreases |s| - from
  {
    if from < |s| && IsSpace(s[from]) then LeadingSpaces(s, from + 1) else from
  }

  function TrailingStart(s: string, low: nat, to: nat): (n: nat)
    requires low <= to <= |s|
    ensures low <= n <= to
  {
    if low < to && IsSpace(s[to - 1]) then TrailingStart(s, low, to - 1) else to
  }

  // strings.TrimSpace
  function TrimSpace(s: string): string {
    var low := LeadingSpaces(s, 0);
    s[low..TrailingStart(s, low, |s|)]
  }

  predicate Untrimmed(s: string) { s != [] && (IsSpace(s[0]) || IsSpace(s[|s| - 1])) }

  lemma {:induction false} LeadingSpacesStop(s: string, from: nat)
    requires from <= |s|
    ensures var n := LeadingSpaces(s, from); n == |s| || !IsSpace(s[n])
    decreases |s| - from
  {
    if from < |s| && IsSpace(s[from]) {
      LeadingSpacesStop(s, from + 1);
    }
  }

  lemma {:induction false} TrailingStartStop(s: string, low: nat, to: nat)
    requires low <= to <= |s|
    ensures var n := TrailingStart(s, low, to); n == low || !IsSpace(s[n - 1])
  {
    if low < to && IsSpace(s[to - 1]) {
      TrailingStartStop(s, low, to - 1);
    }
  }

  lemma TrimTrims(s: string)
    ensures !Untrimmed(TrimSpace(s))
  {
    var low := LeadingSpaces(s, 0);
    LeadingSpacesStop(s, 0);
    TrailingStartStop(s, low, |s|);
  }

  lemma TrimIdempotent(s: string)
    ensures TrimSpace(TrimSpace(s)) == TrimSpace(s)
  {
    TrimTrims(s);
  }

  // A string is its own trim exactly when neither end is white space.
  lemma TrimFixedIff(s: string)
    ensures TrimSpace(s) == s <==> !Untrimmed(s)
  {
    TrimTrims(s);
  }

  // Go's < on strings.
  predicate LexLess(a: string, b: string) {
    b != [] && (a == [] || a[0] < b[0] || (a[0] == b[0] && LexLess(a[1..], b[1..])))
  }

  lemma {:induction false} LexTransitive(a: string, b: string, c: string)
    requires LexLess(a, b) && LexLess(b, c)
    ensures LexLess(a, c)
  {
    if a != [] && a[0] == b[0] && b[0] == c[0] {
      LexTransitive(a[1..], b[1..], c[1..]);
    }
  }

  lemma {:induction false} LexTotal(a: string, b: string)
    ensures a == b || LexLess(a, b) || LexLess(b, a)
    ensures !(LexLess(a, b) && LexLess(b, a))
    ensures !LexLess(a, a)
  {
    if a != [] && b != [] && a[0] == b[0] {
      LexTotal(a[1..], b[1..]);
      if a[1..] == b[1..] {
        assert a == [a[0]] + a[1..] && b == [b[0]] + b[1..];
      }
    }
    if a != [] {
      LexTotal(a[1..], a[1..]);
    }
  }

  // Identifiers: one of the known prefixes, or none, and the text after it.
  datatype IdPrefix =
    | SellerIds | CredentialIds | CapabilityIds | GrantIds | RouteIds | IntentIds | TransactionIds
    | EvidenceIds | WebhookSubscriptionIds | WebhookDeliveryIds | NoPrefix

  datatype Id = Id(prefix: IdPrefix, body: string)
}
