// Product slugs (internal/catalog/service.go): the scanning loops that build them and
// the pattern ^[a-z0-9]+(?:-[a-z0-9]+)*$ that purchases accept.
module Slugs {
  import opened Foundations

  const MINIMUM_LENGTH: nat := 3
  const MAXIMUM_LENGTH: nat := 80

  predicate SlugChar(c: char) { 'a' <= c <= 'z' || '0' <= c <= '9' }
  predicate Upper(c: char) { 'A' <= c <= 'Z' }

  function AsciiLower(c: char): char { if Upper(c) then (c as int + 32) as char else c }

  // ---- reference: words, and words joined by single hyphens ----

  // The maximal runs of slug characters, and whether the last run is still open.
  datatype Runs = Runs(words: seq<string>, open: bool)

  function Scan(s: string): Runs {
    if s == [] then Runs([], false)
    else
      var before, c := Scan(s[..|s| - 1]), s[|s| - 1];
      if !SlugChar(c) then Runs(before.words, false)
      else if before.open && before.words != [] then
        var k := |before.words| - 1;
        Runs(before.words[..k] + [before.words[k] + [c]], true)
      else Runs(before.words + [[c]], true)
  }

  function Words(s: string): seq<string> { Scan(s).words }

  function Hyphenated(words: seq<string>): string {
    if words == [] then ""
    else if |words| == 1 then words[0]
    else Hyphenated(words[..|words| - 1]) + "-" + words[|words| - 1]
  }

  predicate Run(s: string) { s != [] && forall i :: 0 <= i < |s| ==> SlugChar(s[i]) }

  // The pattern: one or more runs joined by single hyphens.
  ghost predicate MatchesPattern(s: string) {
    exists words: seq<string> :: words != [] && (forall i :: 0 <= i < |words| ==> Run(words[i])) && s == Hyphenated(words)
  }

  // The same by characters: no hyphen first, last or twice in a row.
  predicate SlugShape(s: string) {
    && s != [] && s[0] != '-' && s[|s| - 1] != '-'
    && (forall i :: 0 <= i < |s| ==> SlugChar(s[i]) || s[i] == '-')
    && (forall i :: 0 <= i < |s| - 1 ==> !(s[i] == '-' && s[i + 1] == '-'))
  }

  // ---- the loops ----

  // The scan that every slug loop makes: a pending separator is written as one hyphen
  // before the next slug character.
  lemma {:induction false} ScanStep(s: string, c: char)
    ensures var before, after := Scan(s), Scan(s + [c]);
            && (SlugChar(c) ==>
                  after.open && Hyphenated(after.words) ==
                    if before.open then Hyphenated(before.words) + [c]
                    else if before.words == [] then [c]
                    else Hyphenated(before.words) + ['-', c])
            && (!SlugChar(c) ==> after == Runs(before.words, false))
            && (before.open ==> before.words != []) && (Hyphenated(before.words) == "" <==> before.words == [])
  {
    assert (s + [c])[..|s|] == s;
    ScanOpen(s);
    var before := Scan(s);
    HyphenatedEmpty(before.words);
    hide Hyphenated;
    if before.open {
      LastWordGrows(before.words, c);
    } else if before.words != [] {
      WordAdded(before.words, c);
    } else {
      HyphenatedOne([c]);
    }
  }

  lemma HyphenatedOne(word: string)
    ensures Hyphenated([word]) == word
  {
  }

  lemma LastWordGrows(words: seq<string>, c: char)
    requires words != []
    ensures var k := |words| - 1; Hyphenated(words[..k] + [words[k] + [c]]) == Hyphenated(words) + [c]
  {
    var k := |words| - 1;
    var grown := words[..k] + [words[k] + [c]];
    assert grown[..k] == words[..k];
    if k > 0 {
      var front := Hyphenated(words[..k]) + "-";
      hide Hyphenated;
      assert front + (words[k] + [c]) == front + words[k] + [c];
    }
  }

  lemma WordAdded(words: seq<string>, c: char)
    requires words != []
    ensures Hyphenated(words + [[c]]) == Hyphenated(words) + ['-', c]
  {
    assert (words + [[c]])[..|words|] == words;
    assert Hyphenated(words) + "-" + [c] == Hyphenated(words) + ['-', c];
  }

  lemma {:induction false} ScanOpen(s: string)
    ensures Scan(s).open ==> Scan(s).words != []
    ensures forall i :: 0 <= i < |Scan(s).words| ==> Run(Scan(s).words[i])
  {
    if s != [] {
      ScanOpen(s[..|s| - 1]);
    }
  }

  lemma {:induction false} HyphenatedEmpty(words: seq<string>)
    requires forall i :: 0 <= i < |words| ==> Run(words[i])
    ensures Hyphenated(words) == "" <==> words == []
  {
  }

  lemma EmptyScan()
    ensures Scan("") == Runs([], false) && Hyphenated([]) == ""
  {
  }

  // legacySlugBase, after lowering
  method LegacySlugBase(lowered: string) returns (base: string)
    ensures base == Hyphenated(Words(lowered))
  {
    hide Scan, Hyphenated;
    EmptyScan();
    base := "";
    var separatorPending := false;
    for i := 0 to |lowered|
      invariant base == Hyphenated(Words(lowered[..i]))
      invariant separatorPending <==> !Scan(lowered[..i]).open && Words(lowered[..i]) != []
    {
      assert lowered[..i + 1] == lowered[..i] + [lowered[i]];
      ScanStep(lowered[..i], lowered[i]);
      if SlugChar(lowered[i]) {
        if separatorPending && |base| > 0 {
          base := base + "-";
        }
        separatorPending := false;
        base := base + [lowered[i]];
        continue;
      }
      separatorPending := |base| > 0;
    }
    assert lowered[..|lowered|] == lowered;
  }

  predicate Accepted(c: char) { Upper(c) || SlugChar(c) || c == '-' || c == '_' || IsSpace(c) }

  function Lowered(s: string): string {
    if s == [] then [] else Lowered(s[..|s| - 1]) + [AsciiLower(s[|s| - 1])]
  }

  lemma {:induction false} LoweredAt(s: string)
    ensures |Lowered(s)| == |s| && forall i :: 0 <= i < |s| ==> Lowered(s)[i] == AsciiLower(s[i])
  {
    if s != [] {
      LoweredAt(s[..|s| - 1]);
    }
  }

  lemma EmptyLowered()
    ensures Lowered("") == ""
  {
  }

  // The two loops' step on the lowered characters before position i.
  lemma LoweredStep(s: string, i: nat)
    requires i < |s|
    ensures Lowered(s[..i + 1]) == Lowered(s[..i]) + [AsciiLower(s[i])]
  {
    assert s[..i + 1][..i] == s[..i];
  }

  // normalizeProductSlug: refused exactly when some character is neither alphanumeric
  // nor a separator, otherwise the lowered words joined by hyphens.
  function Normalize(value: string): Option<string> {
    var trimmed := TrimSpace(value);
    if forall i :: 0 <= i < |trimmed| ==> Accepted(trimmed[i]) then Some(Hyphenated(Words(Lowered(trimmed)))) else None
  }

  method NormalizeProductSlug(value: string) returns (r: Option<string>)
    ensures r == Normalize(value)
  {
    hide TrimSpace, Scan, Hyphenated, IsSpace, Lowered;
    EmptyScan();
    EmptyLowered();
    var trimmed := TrimSpace(value);
    var normalized, separatorPending := "", false;
    for i := 0 to |trimmed|
      invariant forall k :: 0 <= k < i ==> Accepted(trimmed[k])
      invariant normalized == Hyphenated(Words(Lowered(trimmed[..i])))
      invariant separatorPending <==> !Scan(Lowered(trimmed[..i])).open && Words(Lowered(trimmed[..i])) != []
    {
      var c := trimmed[i];
      LoweredStep(trimmed, i);
      ScanStep(Lowered(trimmed[..i]), AsciiLower(c));
      if Upper(c) {
        if separatorPending && |normalized| > 0 {
          normalized := normalized + "-";
        }
        separatorPending := false;
        normalized := normalized + [(c as int + 32) as char];
      } else if SlugChar(c) {
        if separatorPending && |normalized| > 0 {
          normalized := normalized + "-";
        }
        separatorPending := false;
        normalized := normalized + [c];
      } else if c == '-' || c == '_' || IsSpace(c) {
        separatorPending := |normalized| > 0;
      } else {
        return None;
      }
    }
    assert trimmed[..|trimmed|] == trimmed;
    return Some(normalized);
  }

  // ---- the pattern ----

  // A beginning of a slug: it may end in one hyphen.
  predicate Beginning(s: string) {
    && (s != [] ==> s[0] != '-')
    && (forall i :: 0 <= i < |s| ==> SlugChar(s[i]) || s[i] == '-')
    && (forall i :: 0 <= i < |s| - 1 ==> !(s[i] == '-' && s[i + 1] == '-'))
  }

  // Reading a beginning of a slug gives it back, but for a hyphen at the end.
  lemma {:induction false} ScanBeginning(s: string)
    requires Beginning(s)
    ensures var r := Scan(s);
            if s == [] then r.words == []
            else if s[|s| - 1] == '-' then !r.open && r.words != [] && Hyphenated(r.words) == s[..|s| - 1]
            else r.open && Hyphenated(r.words) == s
  {
    if s != [] {
      var k := |s| - 1;
      var before := s[..k];
      hide Scan, Hyphenated;
      ScanBeginning(before);
      ScanStep(before, s[k]);
      EmptyScan();
      assert s == before + [s[k]];
    }
  }

  lemma {:induction false} HyphenatedShape(words: seq<string>)
    requires words != [] && forall i :: 0 <= i < |words| ==> Run(words[i])
    ensures SlugShape(Hyphenated(words))
  {
    var k := |words| - 1;
    if k > 0 {
      HyphenatedShape(words[..k]);
      JoinShape(Hyphenated(words[..k]), words[k]);
    }
  }

  lemma JoinShape(a: string, b: string)
    requires SlugShape(a) && SlugShape(b)
    ensures SlugShape(a + "-" + b)
  {
    var s := a + "-" + b;
    forall i | 0 <= i < |s| - 1 ensures !(s[i] == '-' && s[i + 1] == '-') {
      if i < |a| - 1 {
        assert s[i] == a[i] && s[i + 1] == a[i + 1];
      } else if i > |a| {
        assert s[i] == b[i - |a| - 1] && s[i + 1] == b[i - |a|];
      }
    }
  }

  // The pattern by runs and the shape by characters are the same.
  lemma PatternIffShape(s: string)
    ensures MatchesPattern(s) <==> SlugShape(s)
  {
    hide Hyphenated, Scan;
    if MatchesPattern(s) {
      var words: seq<string> :| words != [] && (forall i :: 0 <= i < |words| ==> Run(words[i])) && s == Hyphenated(words);
      HyphenatedShape(words);
    }
    if SlugShape(s) {
      ScanBeginning(s);
      ScanOpen(s);
      assert Scan(s).words != [] && s == Hyphenated(Scan(s).words);
    }
  }

  // ---- normalization ----

  // A normalized slug is empty or matches the pattern.
  lemma NormalizedShape(value: string)
    requires Normalize(value).Some? && Normalize(value).value != ""
    ensures MatchesPattern(Normalize(value).value) && SlugShape(Normalize(value).value)
  {
    hide Hyphenated, Scan, Lowered, TrimSpace, Accepted, SlugShape;
    var words := Words(Lowered(TrimSpace(value)));
    ScanOpen(Lowered(TrimSpace(value)));
    HyphenatedEmpty(words);
    assert MatchesPattern(Hyphenated(words));
    PatternIffShape(Hyphenated(words));
  }

  // The fixed points are the empty string and the slugs.
  lemma NormalizeFixedIff(s: string)
    ensures Normalize(s) == Some(s) <==> s == "" || SlugShape(s)
  {
    hide Hyphenated, Scan, Lowered, TrimSpace;
    if Normalize(s) == Some(s) && s != "" {
      NormalizedShape(s);
    }
    if SlugShape(s) {
      TrimFixedIff(s);
      LoweredAt(s);
      assert Lowered(s) == s;
      ScanBeginning(s);
    }
    if s == "" {
      TrimFixedIff(s);
      EmptyLowered();
      EmptyScan();
    }
  }

  lemma NormalizeIdempotent(value: string)
    requires Normalize(value).Some?
    ensures Normalize(Normalize(value).value) == Normalize(value)
  {
    hide Normalize, SlugShape, MatchesPattern;
    if Normalize(value).value != "" {
      NormalizedShape(value);
    }
    NormalizeFixedIff(Normalize(value).value);
  }

  // ---- legacy slugs ----

  // unicode.ToLower, of which only the ASCII part is fixed here.
  ghost predicate LowersAscii(lower: char -> char) { forall c :: Upper(c) || SlugChar(c) ==> lower(c) == AsciiLower(c) }

  function LowerAll(lower: char -> char, s: string): (r: string)
    ensures |r| == |s| && forall i :: 0 <= i < |s| ==> r[i] == lower(s[i])
  {
    if s == [] then [] else LowerAll(lower, s[..|s| - 1]) + [lower(s[|s| - 1])]
  }

  // strings.Trim(s, "-")
  function TrimHyphens(s: string): string
    decreases |s|
  {
    if s != [] && s[0] == '-' then TrimHyphens(s[1..])
    else if s != [] && s[|s| - 1] == '-' then TrimHyphens(s[..|s| - 1])
    else s
  }

  // legacyProductSlug, from the display name and the route identifier's text
  method LegacyProductSlug(lower: char -> char, displayName: string, routeId: string) returns (slug: string)
    ensures slug == LegacySlug(lower, displayName, routeId)
  {
    var base := LegacySlugBase(LowerAll(lower, displayName));
    var suffix := LowerAll(lower, routeId);
    if |suffix| > 9 {
      suffix := suffix[|suffix| - 9..];
    }
    var maximumBaseLength := MAXIMUM_LENGTH - |suffix| - 1;
    if |base| > maximumBaseLength {
      base := TrimHyphens(base[..maximumBaseLength]);
    }
    if |base| < MINIMUM_LENGTH {
      base := "product";
    }
    return base + "-" + suffix;
  }

  function Suffix(lower: char -> char, routeId: string): (r: string)
    ensures |r| <= 9
  {
    var lowered := LowerAll(lower, routeId);
    if |lowered| > 9 then lowered[|lowered| - 9..] else lowered
  }

  // The base of a legacy slug: the words of the name, cut to size, or a stand-in.
  function LegacyBase(lowered: string, maximum: nat): string {
    var words := Hyphenated(Words(lowered));
    var base := if |words| > maximum then TrimHyphens(words[..maximum]) else words;
    if |base| < MINIMUM_LENGTH then "product" else base
  }

  function LegacySlug(lower: char -> char, displayName: string, routeId: string): string {
    var suffix := Suffix(lower, routeId);
    LegacyBase(LowerAll(lower, displayName), MAXIMUM_LENGTH - |suffix| - 1) + "-" + suffix
  }

  // The text of a well-formed route identifier: its prefix and an alphanumeric ULID.
  predicate RouteIdText(s: string) {
    |s| == 30 && s[..4] == "rte_" && forall i :: 4 <= i < 30 ==> Upper(s[i]) || SlugChar(s[i])
  }

  // Cutting a slug and trimming hyphens leaves a slug, one character shorter at most.
  lemma CutSlug(s: string, n: nat)
    requires SlugShape(s) && 2 <= n < |s|
    ensures var cut := TrimHyphens(s[..n]); SlugShape(cut) && n - 1 <= |cut| <= n
  {
    var cut := s[..n];
    if cut[n - 1] == '-' {
      assert cut[..n - 1] == s[..n - 1] && s[n - 2] != '-';
      assert TrimHyphens(cut) == TrimHyphens(s[..n - 1]);
      assert TrimHyphens(s[..n - 1]) == s[..n - 1];
    }
  }

  lemma LegacyBaseShape(lowered: string, maximum: nat)
    requires maximum >= 7
    ensures var base := LegacyBase(lowered, maximum); SlugShape(base) && MINIMUM_LENGTH <= |base| <= maximum
  {
    hide Hyphenated, Scan, TrimHyphens, SlugShape;
    var words := Hyphenated(Words(lowered));
    ScanOpen(lowered);
    HyphenatedEmpty(Words(lowered));
    if words != "" {
      HyphenatedShape(Words(lowered));
      if |words| > maximum {
        CutSlug(words, maximum);
      }
    }
    ProductShape();
  }

  lemma ProductShape()
    ensures SlugShape("product")
  {
  }

  // What the slug says: the words of the display name joined by hyphens, whole if they have
  // 3 to 70 characters, their first 69 or 70 characters if more, "product" if fewer; then a
  // hyphen and the last nine characters of the route identifier, lowered.
  lemma LegacySlugContent(lower: char -> char, displayName: string, routeId: string)
    requires LowersAscii(lower) && RouteIdText(routeId)
    ensures var name := Hyphenated(Words(LowerAll(lower, displayName))); var slug := LegacySlug(lower, displayName, routeId);
            && |slug| >= 10 && slug[|slug| - 10] == '-'
            && slug[|slug| - 9..] == Lowered(routeId[21..])
            && var base := slug[..|slug| - 10];
            && (3 <= |name| <= 70 ==> base == name)
            && (|name| > 70 ==> base == if name[69] == '-' then name[..69] else name[..70])
            && (|name| < 3 ==> base == "product")
  {
    hide Hyphenated, Scan, LowersAscii, Lowered;
    var lowered := LowerAll(lower, displayName);
    var name := Hyphenated(Words(lowered));
    var suffix := Suffix(lower, routeId);
    assert |suffix| == 9 && forall i :: 0 <= i < 9 ==> suffix[i] == lower(routeId[21 + i]);
    RouteIdLowers(lower, routeId, suffix);
    var base := LegacyBase(lowered, 70);
    BaseContent(lowered);
    var slug := LegacySlug(lower, displayName, routeId);
    assert slug == base + "-" + suffix && slug[..|slug| - 10] == base && slug[|slug| - 9..] == suffix;
  }

  lemma RouteIdLowers(lower: char -> char, routeId: string, suffix: string)
    requires LowersAscii(lower) && RouteIdText(routeId)
    requires |suffix| == 9 && forall i :: 0 <= i < 9 ==> suffix[i] == lower(routeId[21 + i])
    ensures suffix == Lowered(routeId[21..])
  {
    hide Lowered;
    LoweredAt(routeId[21..]);
  }

  lemma BaseContent(lowered: string)
    ensures var name := Hyphenated(Words(lowered)); var base := LegacyBase(lowered, 70);
            && (3 <= |name| <= 70 ==> base == name)
            && (|name| > 70 ==> base == if name[69] == '-' then name[..69] else name[..70])
            && (|name| < 3 ==> base == "product")
  {
    hide Hyphenated, Scan, SlugShape;
    var name := Hyphenated(Words(lowered));
    ScanOpen(lowered);
    HyphenatedEmpty(Words(lowered));
    if |name| > 70 {
      HyphenatedShape(Words(lowered));
      CutContent(name);
    }
  }

  lemma CutContent(s: string)
    requires SlugShape(s) && |s| > 70
    ensures TrimHyphens(s[..70]) == if s[69] == '-' then s[..69] else s[..70]
  {
    var cut := s[..70];
    if cut[69] == '-' {
      assert s[68] != '-' && cut[..69] == s[..69];
      assert TrimHyphens(cut) == TrimHyphens(s[..69]);
    }
  }

  // For every display name and every well-formed route identifier the legacy slug is a
  // slug of 3 to 80 characters, and so a fixed point of normalization.
  lemma LegacySlugValid(lower: char -> char, displayName: string, routeId: string)
    requires LowersAscii(lower) && RouteIdText(routeId)
    ensures var slug := LegacySlug(lower, displayName, routeId);
            && MatchesPattern(slug) && MINIMUM_LENGTH <= |slug| <= MAXIMUM_LENGTH && Normalize(slug) == Some(slug)
  {
    hide LegacyBase, MatchesPattern, Normalize;
    var suffix := Suffix(lower, routeId);
    assert |suffix| == 9 && forall i :: 0 <= i < 9 ==> suffix[i] == lower(routeId[21 + i]);
    assert SlugShape(suffix);
    var base := LegacyBase(LowerAll(lower, displayName), 70);
    hide SlugShape;
    LegacyBaseShape(LowerAll(lower, displayName), 70);
    JoinShape(base, suffix);
    PatternIffShape(base + "-" + suffix);
    NormalizeFixedIff(base + "-" + suffix);
  }
}
