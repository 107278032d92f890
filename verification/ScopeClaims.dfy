// The scope claim of an access token (internal/authorization/access_tokens.go): the
// requested scopes validated and sorted, joined by single spaces, and read back.
module ScopeClaims {
  import opened Foundations
  import opened Sorting

  const TOKEN_SCOPES: set<string> := {"read", "configure", "publish", "validate"}

  predicate Acceptable(scopes: seq<string>) {
    scopes != [] && Distinct(scopes) && forall i :: 0 <= i < |scopes| ==> scopes[i] in TOKEN_SCOPES
  }

  // validatedAccessScopes: refused unless acceptable, then sorted.
  method ValidatedScopes(scopes: seq<string>) returns (r: Option<seq<string>>)
    ensures r == if Acceptable(scopes) then Some(Sort(LexLess, scopes)) else None
  {
    if scopes == [] {
      return None;
    }
    var seen: set<string> := {};
    for i := 0 to |scopes|
      invariant forall k :: 0 <= k < i ==> scopes[k] in TOKEN_SCOPES && scopes[k] in seen
      invariant forall x :: x in seen ==> x in scopes[..i]
      invariant Distinct(scopes[..i])
    {
      if scopes[i] !in TOKEN_SCOPES {
        return None;
      }
      if scopes[i] in seen {
        return None;
      }
      seen := seen + {scopes[i]};
      assert scopes[..i + 1] == scopes[..i] + [scopes[i]];
    }
    assert scopes[..|scopes|] == scopes;
    return Some(Sort(LexLess, scopes));
  }

  // strings.Join(parts, " ")
  function JoinSpaced(parts: seq<string>): string {
    if parts == [] then "" else if |parts| == 1 then parts[0] else parts[0] + " " + JoinSpaced(parts[1..])
  }

  // strings.Split(s, " "), given the part read so far
  function SplitSpaced(part: string, s: string): seq<string>
    decreases |s|
  {
    if s == "" then [part]
    else if s[0] == ' ' then [part] + SplitSpaced("", s[1..])
    else SplitSpaced(part + [s[0]], s[1..])
  }

  function ParseScopeClaim(claim: string): Option<seq<string>> {
    var parts := SplitSpaced("", claim);
    if Acceptable(parts) && JoinSpaced(Sort(LexLess, parts)) == claim then Some(Sort(LexLess, parts)) else None
  }

  predicate Unspaced(s: string) { ' ' !in s }

  // Splitting reads one unspaced word and stops at the following space or at the end.
  lemma {:induction false} SplitWord(part: string, word: string, rest: string)
    requires Unspaced(word)
    ensures SplitSpaced(part, word + " " + rest) == [part + word] + SplitSpaced("", rest)
    ensures SplitSpaced(part, word) == [part + word]
    decreases |word|
  {
    if word == "" {
      assert word + " " + rest == " " + rest;
      assert (" " + rest)[1..] == rest;
      assert part + word == part;
    } else {
      SplitWord(part + [word[0]], word[1..], rest);
      assert (word + " " + rest)[1..] == word[1..] + " " + rest;
      assert part + [word[0]] + word[1..] == part + word;
    }
  }

  lemma {:induction false} SplitJoin(parts: seq<string>)
    requires parts != [] && forall i :: 0 <= i < |parts| ==> Unspaced(parts[i])
    ensures SplitSpaced("", JoinSpaced(parts)) == parts
  {
    SplitWord("", parts[0], if |parts| == 1 then "" else JoinSpaced(parts[1..]));
    assert "" + parts[0] == parts[0];
    if |parts| > 1 {
      SplitJoin(parts[1..]);
      assert parts == [parts[0]] + parts[1..];
    }
  }

  lemma AcceptableSorted(scopes: seq<string>)
    requires Acceptable(scopes)
    ensures var sorted := Sort(LexLess, scopes);
            && Acceptable(sorted) && Sort(LexLess, sorted) == sorted
            && forall i :: 0 <= i < |sorted| ==> Unspaced(sorted[i])
  {
    hide LexLess;
    LexIsStrictOrder();
    SortAscends(LexLess, scopes);
    var sorted := Sort(LexLess, scopes);
    forall i | 0 <= i < |sorted| ensures sorted[i] in TOKEN_SCOPES && Unspaced(sorted[i]) {
      assert sorted[i] in sorted;
      assert sorted[i] in scopes;
    }
    SortAscends(LexLess, sorted);
    AscendingUnique(LexLess, Sort(LexLess, sorted), sorted);
  }

  // The claim written by an exchange reads back as the sorted scopes.
  lemma ScopeClaimRoundTrip(scopes: seq<string>)
    requires Acceptable(scopes)
    ensures var sorted := Sort(LexLess, scopes); ParseScopeClaim(JoinSpaced(sorted)) == Some(sorted)
  {
    hide Sort, LexLess, Acceptable;
    AcceptableSorted(scopes);
    SplitAcceptable(Sort(LexLess, scopes));
  }

  lemma SplitAcceptable(sorted: seq<string>)
    requires Acceptable(sorted) && forall i :: 0 <= i < |sorted| ==> Unspaced(sorted[i])
    ensures SplitSpaced("", JoinSpaced(sorted)) == sorted
  {
    SplitJoin(sorted);
  }

  // A claim is readable exactly when it is the joined, sorted form of acceptable scopes.
  lemma ReadableClaims(claim: string)
    ensures ParseScopeClaim(claim).Some? <==>
            exists scopes :: Acceptable(scopes) && claim == JoinSpaced(Sort(LexLess, scopes))
  {
    hide Sort, LexLess, Acceptable, JoinSpaced, SplitSpaced;
    forall scopes | Acceptable(scopes) && claim == JoinSpaced(Sort(LexLess, scopes)) ensures ParseScopeClaim(claim).Some? {
      ScopeClaimRoundTrip(scopes);
    }
  }
}
