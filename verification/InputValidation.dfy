// The recursive input validator (internal/catalog/input_validation.go) and the closed
// schema language it serves (internal/catalog/product_contract.go). A schema is a JSON
// value, as it is in the source; an absent or non-object schema reads as the empty one.
module InputValidation {
  import opened Foundations
  import opened Decimal
  import opened Sorting

  // A number is its spelling.
  datatype Json =
    | JNull | JBool(truth: bool) | JNumber(spelling: string) | JString(text: string)
    | JArray(items: seq<Json>) | JObject(members: map<string, Json>)

  // How schema numbers read as integers and as limits, how document numbers read,
  // regular expressions, and string formats.
  datatype Oracle = Oracle(
    integer: string -> int, limit: string -> Option<real>, rational: string -> Option<real>,
    matches: (string, string) -> bool, format: (string, string) -> bool)

  datatype Rule =
    | Const | Enum | AllOf | AnyOf | OneOf | Type | Required | Unknown | MinItems | MaxItems
    | MinLength | MaxLength | Pattern | Format | Minimum | Maximum

  datatype Issue = Issue(field: string, rule: Rule)

  // ---- reading a schema ----

  function Members(j: Json): map<string, Json> { if j.JObject? then j.members else map[] }

  function Get(schema: Json, key: string): (r: Option<Json>)
    ensures r.Some? ==> (schema decreases to r.value)
  {
    if key in Members(schema) then Some(Members(schema)[key]) else None
  }

  function ListAt(schema: Json, key: string): (r: Option<seq<Json>>)
    ensures r.Some? ==> forall i :: 0 <= i < |r.value| ==> (schema decreases to r.value[i])
  {
    var v := Get(schema, key);
    if v.Some? && v.value.JArray? then Some(v.value.items) else None
  }

  function ObjectAt(schema: Json, key: string): (r: map<string, Json>)
    ensures forall name :: name in r ==> (schema decreases to r[name])
  {
    var v := Get(schema, key);
    if v.Some? && v.value.JObject? then v.value.members else map[]
  }

  function StringAt(schema: Json, key: string): Option<string> {
    var v := Get(schema, key);
    if v.Some? && v.value.JString? then Some(v.value.text) else None
  }

  function NumberAt(schema: Json, key: string): Option<string> {
    var v := Get(schema, key);
    if v.Some? && v.value.JNumber? then Some(v.value.spelling) else None
  }

  function TypeName(schema: Json): string {
    var t := StringAt(schema, "type");
    if t.Some? then t.value else ""
  }

  // A required entry that is not a string reads as the empty name.
  function NameOf(j: Json): string { if j.JString? then j.text else "" }

  predicate MatchesType(typeName: string, value: Json) {
    match typeName
    case "object" => value.JObject?
    case "array" => value.JArray?
    case "string" => value.JString?
    case "number" => value.JNumber?
    case "integer" =>
      value.JNumber? && '.' !in value.spelling && 'e' !in value.spelling && 'E' !in value.spelling
    case "boolean" => value.JBool?
    case "null" => value.JNull?
    case _ => false
  }

  // The type names: every value has exactly one of the six kinds, an integer is a number
  // spelled without point or exponent, and no other name matches anything.
  lemma TypesDistinguish(value: Json, name: string)
    ensures MatchesType(name, value) <==>
            || (name == "null" && value == JNull)
            || (name == "boolean" && (value == JBool(true) || value == JBool(false)))
            || (name == "number" && exists s :: value == JNumber(s))
            || (name == "integer" && exists s :: value == JNumber(s) && forall i :: 0 <= i < |s| ==> s[i] != '.' && s[i] != 'e' && s[i] != 'E')
            || (name == "string" && exists s :: value == JString(s))
            || (name == "array" && exists s :: value == JArray(s))
            || (name == "object" && exists m :: value == JObject(m))
  {
    match value {
      case JNumber(s) => assert value == JNumber(s);
      case JString(s) => assert value == JString(s);
      case JArray(s) => assert value == JArray(s);
      case JObject(m) => assert value == JObject(m);
      case _ =>
    }
  }

  // ---- what it means to satisfy a schema ----

  predicate TypeOk(schema: Json, value: Json) { TypeName(schema) == "" || MatchesType(TypeName(schema), value) }

  predicate ConstOk(schema: Json, value: Json) { Get(schema, "const").Some? ==> Get(schema, "const").value == value }

  predicate EnumOk(schema: Json, value: Json) { ListAt(schema, "enum").Some? ==> value in ListAt(schema, "enum").value }

  predicate StringOk(o: Oracle, schema: Json, s: string) {
    && (NumberAt(schema, "minLength").Some? ==> |s| >= o.integer(NumberAt(schema, "minLength").value))
    && (NumberAt(schema, "maxLength").Some? ==> |s| <= o.integer(NumberAt(schema, "maxLength").value))
    && (StringAt(schema, "pattern").Some? ==> o.matches(StringAt(schema, "pattern").value, s))
    && (StringAt(schema, "format").Some? ==> o.format(StringAt(schema, "format").value, s))
  }

  predicate AtLeast(o: Oracle, spelling: string, limit: Option<string>) {
    limit.Some? && o.rational(spelling).Some? && o.limit(limit.value).Some? ==>
      o.rational(spelling).value >= o.limit(limit.value).value
  }

  predicate AtMost(o: Oracle, spelling: string, limit: Option<string>) {
    limit.Some? && o.rational(spelling).Some? && o.limit(limit.value).Some? ==>
      o.rational(spelling).value <= o.limit(limit.value).value
  }

  predicate LengthOk(o: Oracle, schema: Json, n: nat) {
    && (NumberAt(schema, "minItems").Some? ==> n >= o.integer(NumberAt(schema, "minItems").value))
    && (NumberAt(schema, "maxItems").Some? ==> n <= o.integer(NumberAt(schema, "maxItems").value))
  }

  predicate RequiredOk(schema: Json, members: map<string, Json>) {
    ListAt(schema, "required").Some? ==>
      forall i :: 0 <= i < |ListAt(schema, "required").value| ==> NameOf(ListAt(schema, "required").value[i]) in members
  }

  predicate HasObject(schema: Json, key: string) { Get(schema, key).Some? && Get(schema, key).value.JObject? }

  // The schemas listed under a keyword: every one, some one, exactly one is satisfied.
  ghost predicate EveryOne(o: Oracle, schema: Json, key: string, value: Json)
    decreases schema, 0
  {
    ListAt(schema, key).Some? ==>
      forall i :: 0 <= i < |ListAt(schema, key).value| ==> Satisfies(o, ListAt(schema, key).value[i], value)
  }

  ghost predicate SomeOne(o: Oracle, schema: Json, key: string, value: Json)
    decreases schema, 0
  {
    ListAt(schema, key).Some? ==>
      exists i :: 0 <= i < |ListAt(schema, key).value| && Satisfies(o, ListAt(schema, key).value[i], value)
  }

  ghost predicate OnlyAt(o: Oracle, schema: Json, key: string, i: int, value: Json)
    requires ListAt(schema, key).Some?
    decreases schema, 0
  {
    && 0 <= i < |ListAt(schema, key).value|
    && forall j :: 0 <= j < |ListAt(schema, key).value| ==> (Satisfies(o, ListAt(schema, key).value[j], value) <==> j == i)
  }

  ghost predicate ExactlyOne(o: Oracle, schema: Json, key: string, value: Json)
    decreases schema, 1
  {
    ListAt(schema, key).Some? ==> exists i :: OnlyAt(o, schema, key, i, value)
  }

  // Every key of an object must be declared.
  ghost predicate ValueOk(o: Oracle, schema: Json, value: Json)
    decreases schema, 0
  {
    match value
    case JObject(members) =>
      && RequiredOk(schema, members)
      && forall name :: name in members ==>
           name in ObjectAt(schema, "properties") && Satisfies(o, ObjectAt(schema, "properties")[name], members[name])
    case JArray(items) =>
      && LengthOk(o, schema, |items|)
      && (HasObject(schema, "items") ==> forall i :: 0 <= i < |items| ==> Satisfies(o, Get(schema, "items").value, items[i]))
    case JString(text) => StringOk(o, schema, text)
    case JNumber(spelling) =>
      AtLeast(o, spelling, NumberAt(schema, "minimum")) && AtMost(o, spelling, NumberAt(schema, "maximum"))
    case _ => true
  }

  // value satisfies schema
  ghost predicate Satisfies(o: Oracle, schema: Json, value: Json)
    decreases schema, 2
  {
    && ConstOk(schema, value) && EnumOk(schema, value) && TypeOk(schema, value)
    && EveryOne(o, schema, "allOf", value) && SomeOne(o, schema, "anyOf", value) && ExactlyOne(o, schema, "oneOf", value)
    && ValueOk(o, schema, value)
  }

  // ---- the validator as a function ----

  function Display(path: string): string { if path == "" then "Request body" else path }

  function Join(path: string, name: string): string { if path == "" then name else path + "." + name }

  function At(path: string, index: nat): string { path + "[" + Plain(index) + "]" }

  function Flatten(lists: seq<seq<Issue>>): seq<Issue> {
    if lists == [] then [] else Flatten(lists[..|lists| - 1]) + lists[|lists| - 1]
  }

  // How many alternatives reported nothing.
  function Passing(lists: seq<seq<Issue>>): nat {
    if lists == [] then 0
    else Passing(lists[..|lists| - 1]) + if lists[|lists| - 1] == [] then 1 else 0
  }

  // The ascending enumeration of a set of names.
  ghost function Ordered(names: set<string>): (r: seq<string>)
    ensures forall x :: x in r <==> x in names
  {
    SortElements(LexLess, AnyOrder(names));
    assert forall x :: x in Sort(LexLess, AnyOrder(names)) <==> x in AnyOrder(names);
    Sort(LexLess, AnyOrder(names))
  }

  function If(holds: bool, path: string, rule: Rule): seq<Issue> { if holds then [] else [Issue(Display(path), rule)] }

  function RequiredIssues(required: seq<Json>, members: map<string, Json>, path: string): seq<Issue> {
    if required == [] then []
    else
      var name := NameOf(required[|required| - 1]);
      RequiredIssues(required[..|required| - 1], members, path)
      + if name in members then [] else [Issue(Join(path, name), Required)]
  }

  function UnknownIssues(unknown: seq<string>, path: string): (r: seq<Issue>)
    ensures |r| == |unknown| && forall i :: 0 <= i < |r| ==> r[i] == Issue(Join(path, unknown[i]), Unknown)
  {
    if unknown == [] then []
    else UnknownIssues(unknown[..|unknown| - 1], path) + [Issue(Join(path, unknown[|unknown| - 1]), Unknown)]
  }

  function StringIssues(o: Oracle, schema: Json, s: string, path: string): seq<Issue> {
    If(NumberAt(schema, "minLength").Some? ==> |s| >= o.integer(NumberAt(schema, "minLength").value), path, MinLength)
    + If(NumberAt(schema, "maxLength").Some? ==> |s| <= o.integer(NumberAt(schema, "maxLength").value), path, MaxLength)
    + If(StringAt(schema, "pattern").Some? ==> o.matches(StringAt(schema, "pattern").value, s), path, Pattern)
    + If(StringAt(schema, "format").Some? ==> o.format(StringAt(schema, "format").value, s), path, Format)
  }

  function NumberIssues(o: Oracle, schema: Json, spelling: string, path: string): seq<Issue> {
    If(AtLeast(o, spelling, NumberAt(schema, "minimum")), path, Minimum)
    + If(AtMost(o, spelling, NumberAt(schema, "maximum")), path, Maximum)
  }

  function LengthIssues(o: Oracle, schema: Json, n: nat, path: string): seq<Issue> {
    If(NumberAt(schema, "minItems").Some? ==> n >= o.integer(NumberAt(schema, "minItems").value), path, MinItems)
    + If(NumberAt(schema, "maxItems").Some? ==> n <= o.integer(NumberAt(schema, "maxItems").value), path, MaxItems)
  }

  ghost function Undeclared(schema: Json, members: map<string, Json>): set<string> {
    set name | name in members && name !in ObjectAt(schema, "properties")
  }

  // The issue lists of the first n alternatives.
  ghost function Each(o: Oracle, list: Json, n: nat, value: Json, path: string): seq<seq<Issue>>
    requires list.JArray? && n <= |list.items|
    decreases list, n
  {
    if n == 0 then [] else Each(o, list, n - 1, value, path) + [Issues(o, list.items[n - 1], value, path)]
  }

  ghost function Results(o: Oracle, schema: Json, key: string, value: Json, path: string): seq<seq<Issue>>
    requires ListAt(schema, key).Some?
    decreases schema, 0
  {
    Each(o, Get(schema, key).value, |ListAt(schema, key).value|, value, path)
  }

  // validateCompositions
  ghost function CompositionIssues(o: Oracle, schema: Json, value: Json, path: string): seq<Issue>
    decreases schema, 1
  {
    (if ListAt(schema, "allOf").Some? then Flatten(Results(o, schema, "allOf", value, path)) else [])
    + (if ListAt(schema, "anyOf").Some? then If(Passing(Results(o, schema, "anyOf", value, path)) != 0, path, AnyOf) else [])
    + (if ListAt(schema, "oneOf").Some? then If(Passing(Results(o, schema, "oneOf", value, path)) == 1, path, OneOf) else [])
  }

  // The issues of the first n declared properties that are present.
  ghost function PropertyIssues(
    o: Oracle, properties: Json, names: seq<string>, n: nat, members: map<string, Json>, path: string): seq<Issue>
    requires properties.JObject? && n <= |names| && forall i :: 0 <= i < |names| ==> names[i] in properties.members
    decreases properties, n
  {
    if n == 0 then []
    else
      PropertyIssues(o, properties, names, n - 1, members, path)
      + if names[n - 1] in members
        then Issues(o, properties.members[names[n - 1]], members[names[n - 1]], Join(path, names[n - 1]))
        else []
  }

  ghost function ItemIssues(o: Oracle, item: Json, items: seq<Json>, n: nat, path: string): seq<Issue>
    requires n <= |items|
    decreases item, n + 2
  {
    if n == 0 then [] else ItemIssues(o, item, items, n - 1, path) + Issues(o, item, items[n - 1], At(path, n - 1))
  }

  ghost function ValueIssues(o: Oracle, schema: Json, value: Json, path: string): seq<Issue>
    decreases schema, 0
  {
    match value
    case JObject(members) =>
      (if ListAt(schema, "required").Some? then RequiredIssues(ListAt(schema, "required").value, members, path) else [])
      + UnknownIssues(Ordered(Undeclared(schema, members)), path)
      + (if HasObject(schema, "properties") then
           var properties := Get(schema, "properties").value;
           var names := Ordered(properties.members.Keys);
           PropertyIssues(o, properties, names, |names|, members, path)
         else [])
    case JArray(items) =>
      LengthIssues(o, schema, |items|, path)
      + if HasObject(schema, "items") then ItemIssues(o, Get(schema, "items").value, items, |items|, path) else []
    case JString(text) => StringIssues(o, schema, text, path)
    case JNumber(spelling) => NumberIssues(o, schema, spelling, path)
    case _ => []
  }

  // validateJSONValue
  ghost function Issues(o: Oracle, schema: Json, value: Json, path: string): seq<Issue>
    decreases schema, 2
  {
    if !ConstOk(schema, value) then [Issue(Display(path), Const)]
    else if !EnumOk(schema, value) then [Issue(Display(path), Enum)]
    else if !TypeOk(schema, value) then CompositionIssues(o, schema, value, path) + [Issue(Display(path), Type)]
    else CompositionIssues(o, schema, value, path) + ValueIssues(o, schema, value, path)
  }

  // ---- no issues exactly when satisfied ----

  lemma {:induction false} FlattenEmpty(lists: seq<seq<Issue>>)
    ensures Flatten(lists) == [] <==> forall i :: 0 <= i < |lists| ==> lists[i] == []
  {
    if lists != [] {
      var k := |lists| - 1;
      FlattenEmpty(lists[..k]);
      assert forall i :: 0 <= i < k ==> lists[..k][i] == lists[i];
    }
  }

  predicate OnlyEmpty(lists: seq<seq<Issue>>, i: nat)
    requires i < |lists|
  {
    lists[i] == [] && forall j :: 0 <= j < |lists| && lists[j] == [] ==> j == i
  }

  lemma {:induction false} PassingCounts(lists: seq<seq<Issue>>)
    ensures Passing(lists) == 0 <==> forall i :: 0 <= i < |lists| ==> lists[i] != []
    ensures Passing(lists) == 1 <==> exists i :: 0 <= i < |lists| && OnlyEmpty(lists, i)
  {
    if lists != [] {
      var k := |lists| - 1;
      var init := lists[..k];
      PassingCounts(init);
      if lists[k] != [] {
        assert forall i :: 0 <= i < k ==> (OnlyEmpty(lists, i) <==> OnlyEmpty(init, i));
        assert !OnlyEmpty(lists, k);
      } else if Passing(init) == 0 {
        assert OnlyEmpty(lists, k);
      } else {
        var i :| 0 <= i < k && init[i] == [];
        assert lists[i] == [];
        assert forall m :: 0 <= m < |lists| ==> !OnlyEmpty(lists, m);
      }
    }
  }

  lemma {:induction false} EachAt(o: Oracle, list: Json, n: nat, value: Json, path: string)
    requires list.JArray? && n <= |list.items|
    ensures |Each(o, list, n, value, path)| == n
    ensures forall i :: 0 <= i < n ==> Each(o, list, n, value, path)[i] == Issues(o, list.items[i], value, path)
    decreases n
  {
    hide Issues;
    if n > 0 {
      EachAt(o, list, n - 1, value, path);
    }
  }

  // The answer for one schema and one value.
  ghost predicate Agrees(o: Oracle, schema: Json, value: Json, path: string) {
    Issues(o, schema, value, path) == [] <==> Satisfies(o, schema, value)
  }

  lemma {:induction false} RequiredAgrees(required: seq<Json>, members: map<string, Json>, path: string)
    ensures RequiredIssues(required, members, path) == [] <==> forall i :: 0 <= i < |required| ==> NameOf(required[i]) in members
  {
    if required != [] {
      RequiredAgrees(required[..|required| - 1], members, path);
    }
  }

  lemma {:induction false} ItemsAgree(o: Oracle, item: Json, items: seq<Json>, n: nat, path: string)
    requires n <= |items| && forall i, q :: 0 <= i < n ==> Agrees(o, item, items[i], q)
    ensures ItemIssues(o, item, items, n, path) == [] <==> forall i :: 0 <= i < n ==> Satisfies(o, item, items[i])
    decreases n
  {
    hide Issues, Satisfies, At;
    if n > 0 {
      ItemsAgree(o, item, items, n - 1, path);
      assert Agrees(o, item, items[n - 1], At(path, n - 1));
    }
  }

  lemma {:induction false} PropertiesAgree(
    o: Oracle, properties: Json, names: seq<string>, n: nat, members: map<string, Json>, path: string)
    requires properties.JObject? && n <= |names| && forall i :: 0 <= i < |names| ==> names[i] in properties.members
    requires forall name, q :: name in properties.members && name in members ==>
               Agrees(o, properties.members[name], members[name], q)
    ensures PropertyIssues(o, properties, names, n, members, path) == [] <==>
            forall i :: 0 <= i < n && names[i] in members ==> Satisfies(o, properties.members[names[i]], members[names[i]])
    decreases n
  {
    hide Issues, Satisfies, Join;
    if n > 0 {
      PropertiesAgree(o, properties, names, n - 1, members, path);
      if names[n - 1] in members {
        assert Agrees(o, properties.members[names[n - 1]], members[names[n - 1]], Join(path, names[n - 1]));
      }
    }
  }

  // The induction hypothesis: the validator is right about every schema inside schema.
  ghost predicate RightInside(o: Oracle, schema: Json) {
    forall inner, v, q | schema decreases to inner :: Agrees(o, inner, v, q)
  }

  // An alternative has no issues exactly when it is satisfied.
  lemma AlternativesAgree(o: Oracle, schema: Json, key: string, value: Json, path: string)
    requires RightInside(o, schema) && ListAt(schema, key).Some?
    ensures var lists, list := Results(o, schema, key, value, path), ListAt(schema, key).value;
            |lists| == |list| && forall i :: 0 <= i < |list| ==> (lists[i] == [] <==> Satisfies(o, list[i], value))
  {
    hide Issues, Satisfies, Each;
    var list := ListAt(schema, key).value;
    EachAt(o, Get(schema, key).value, |list|, value, path);
    assert forall i :: 0 <= i < |list| ==> Agrees(o, list[i], value, path);
  }

  lemma EveryOneAgrees(o: Oracle, schema: Json, key: string, value: Json, path: string)
    requires RightInside(o, schema) && ListAt(schema, key).Some?
    ensures Flatten(Results(o, schema, key, value, path)) == [] <==> EveryOne(o, schema, key, value)
  {
    hide Satisfies, Flatten, Results, RightInside, ListAt;
    AlternativesAgree(o, schema, key, value, path);
    FlattenEmpty(Results(o, schema, key, value, path));
  }

  lemma SomeOneAgrees(o: Oracle, schema: Json, key: string, value: Json, path: string)
    requires RightInside(o, schema) && ListAt(schema, key).Some?
    ensures Passing(Results(o, schema, key, value, path)) != 0 <==> SomeOne(o, schema, key, value)
  {
    hide Satisfies, Passing, Results, RightInside, ListAt, OnlyEmpty;
    AlternativesAgree(o, schema, key, value, path);
    PassingCounts(Results(o, schema, key, value, path));
  }

  lemma OnlyAgrees(o: Oracle, schema: Json, key: string, i: nat, value: Json, path: string)
    requires RightInside(o, schema) && ListAt(schema, key).Some? && i < |ListAt(schema, key).value|
    ensures var lists := Results(o, schema, key, value, path);
            i < |lists| && (OnlyEmpty(lists, i) <==> OnlyAt(o, schema, key, i, value))
  {
    hide Satisfies, Results, RightInside, ListAt;
    AlternativesAgree(o, schema, key, value, path);
  }

  lemma ExactlyOneAgrees(o: Oracle, schema: Json, key: string, value: Json, path: string)
    requires RightInside(o, schema) && ListAt(schema, key).Some?
    ensures Passing(Results(o, schema, key, value, path)) == 1 <==> ExactlyOne(o, schema, key, value)
  {
    hide Satisfies, Passing, Results, RightInside, ListAt, OnlyEmpty;
    var lists := Results(o, schema, key, value, path);
    PassingCounts(lists);
    AlternativesAgree(o, schema, key, value, path);
    forall i | 0 <= i < |lists| ensures OnlyEmpty(lists, i) <==> OnlyAt(o, schema, key, i, value) {
      OnlyAgrees(o, schema, key, i, value, path);
    }
  }

  lemma CompositionsAgree(o: Oracle, schema: Json, value: Json, path: string)
    requires RightInside(o, schema)
    ensures CompositionIssues(o, schema, value, path) == [] <==>
            EveryOne(o, schema, "allOf", value) && SomeOne(o, schema, "anyOf", value) && ExactlyOne(o, schema, "oneOf", value)
  {
    hide Satisfies, Flatten, Passing, Results, RightInside, ListAt;
    if ListAt(schema, "allOf").Some? {
      EveryOneAgrees(o, schema, "allOf", value, path);
    }
    if ListAt(schema, "anyOf").Some? {
      SomeOneAgrees(o, schema, "anyOf", value, path);
    }
    if ListAt(schema, "oneOf").Some? {
      ExactlyOneAgrees(o, schema, "oneOf", value, path);
    }
  }

  lemma NoneUndeclared(schema: Json, members: map<string, Json>, path: string)
    ensures UnknownIssues(Ordered(Undeclared(schema, members)), path) == [] <==>
            forall name :: name in members ==> name in ObjectAt(schema, "properties")
  {
    hide ObjectAt, Ordered;
    var unknown := Ordered(Undeclared(schema, members));
    if name :| name in members && name !in ObjectAt(schema, "properties") {
      assert name in Undeclared(schema, members);
      assert name in unknown;
    }
    if unknown != [] {
      assert unknown[0] in unknown;
    }
  }

  lemma ObjectsAgree(o: Oracle, schema: Json, members: map<string, Json>, path: string)
    requires RightInside(o, schema)
    ensures ValueIssues(o, schema, JObject(members), path) == [] <==> ValueOk(o, schema, JObject(members))
  {
    hide Issues, Satisfies, Agrees, Ordered, PropertyIssues, RequiredIssues, UnknownIssues, Undeclared;
    if ListAt(schema, "required").Some? {
      RequiredAgrees(ListAt(schema, "required").value, members, path);
    }
    NoneUndeclared(schema, members, path);
    if HasObject(schema, "properties") {
      var properties := Get(schema, "properties").value;
      var names := Ordered(properties.members.Keys);
      PropertiesAgree(o, properties, names, |names|, members, path);
      assert forall name :: name in properties.members ==> name in names;
    }
  }

  lemma ValuesAgree(o: Oracle, schema: Json, value: Json, path: string)
    requires RightInside(o, schema)
    ensures ValueIssues(o, schema, value, path) == [] <==> ValueOk(o, schema, value)
  {
    hide Issues, Satisfies, Agrees, Ordered, PropertyIssues, RequiredIssues, UnknownIssues, NumberAt, StringAt;
    match value {
      case JObject(members) => ObjectsAgree(o, schema, members, path);
      case JArray(items) =>
        if HasObject(schema, "items") {
          ItemsAgree(o, Get(schema, "items").value, items, |items|, path);
        }
      case _ =>
    }
  }

  // For every schema and value the validator reports nothing exactly when the value
  // satisfies the schema.
  lemma {:induction false} IssuesIffUnsatisfied(o: Oracle, schema: Json, value: Json, path: string)
    ensures Issues(o, schema, value, path) == [] <==> Satisfies(o, schema, value)
    decreases schema
  {
    hide ConstOk, EnumOk, TypeOk, EveryOne, SomeOne, ExactlyOne, ValueOk, CompositionIssues, ValueIssues;
    forall inner, v, q | schema decreases to inner ensures Agrees(o, inner, v, q) {
      IssuesIffUnsatisfied(o, inner, v, q);
    }
    CompositionsAgree(o, schema, value, path);
    ValuesAgree(o, schema, value, path);
  }

  // ---- satisfaction, keyword by keyword ----

  predicate HasText(m: map<string, Json>, key: string) { key in m && m[key].JString? }
  predicate HasNumber(m: map<string, Json>, key: string) { key in m && m[key].JNumber? }
  predicate HasList(m: map<string, Json>, key: string) { key in m && m[key].JArray? }

  // What the keywords of a schema object say of any value.
  ghost predicate SaysOfAny(o: Oracle, m: map<string, Json>, v: Json) {
    && ("const" in m ==> v == m["const"])
    && (HasList(m, "enum") ==> v in m["enum"].items)
    && (HasText(m, "type") && m["type"].text != "" ==> MatchesType(m["type"].text, v))
    && (HasList(m, "allOf") ==> forall i :: 0 <= i < |m["allOf"].items| ==> Satisfies(o, m["allOf"].items[i], v))
    && (HasList(m, "anyOf") ==> exists i :: 0 <= i < |m["anyOf"].items| && Satisfies(o, m["anyOf"].items[i], v))
    && (HasList(m, "oneOf") ==> exists i :: IsTheOne(o, m["oneOf"].items, v, i))
  }

  ghost predicate IsTheOne(o: Oracle, schemas: seq<Json>, v: Json, i: int) {
    0 <= i < |schemas| && Satisfies(o, schemas[i], v)
    && forall j :: 0 <= j < |schemas| && j != i ==> !Satisfies(o, schemas[j], v)
  }

  // What they say of a string, a number, an array and an object.
  ghost predicate SaysOfKind(o: Oracle, m: map<string, Json>, v: Json) {
    match v
    case JString(s) =>
      && (HasNumber(m, "minLength") ==> |s| >= o.integer(m["minLength"].spelling))
      && (HasNumber(m, "maxLength") ==> |s| <= o.integer(m["maxLength"].spelling))
      && (HasText(m, "pattern") ==> o.matches(m["pattern"].text, s))
      && (HasText(m, "format") ==> o.format(m["format"].text, s))
    case JNumber(n) =>
      && (HasNumber(m, "minimum") && o.limit(m["minimum"].spelling).Some? && o.rational(n).Some? ==>
            o.rational(n).value >= o.limit(m["minimum"].spelling).value)
      && (HasNumber(m, "maximum") && o.limit(m["maximum"].spelling).Some? && o.rational(n).Some? ==>
            o.rational(n).value <= o.limit(m["maximum"].spelling).value)
    case JArray(items) =>
      && (HasNumber(m, "minItems") ==> |items| >= o.integer(m["minItems"].spelling))
      && (HasNumber(m, "maxItems") ==> |items| <= o.integer(m["maxItems"].spelling))
      && ("items" in m && m["items"].JObject? ==> forall i :: 0 <= i < |items| ==> Satisfies(o, m["items"], items[i]))
    case JObject(members) =>
      && (HasList(m, "required") ==>
            forall i :: 0 <= i < |m["required"].items| ==>
              (if m["required"].items[i].JString? then m["required"].items[i].text else "") in members)
      && (forall name :: name in members ==>
            && "properties" in m && m["properties"].JObject? && name in m["properties"].members
            && Satisfies(o, m["properties"].members[name], members[name]))
    case _ => true
  }

  // A value satisfies a schema object exactly if every keyword in it that the language reads
  // holds; other members of the schema, and keywords of another kind, say nothing.
  lemma SatisfiesMeans(o: Oracle, m: map<string, Json>, v: Json)
    ensures Satisfies(o, JObject(m), v) <==> SaysOfAny(o, m, v) && SaysOfKind(o, m, v)
  {
    hide EveryOne, SomeOne, ExactlyOne, ValueOk, SaysOfAny, SaysOfKind;
    AnyMeans(o, m, v);
    KindMeans(o, m, v);
  }

  lemma KindMeans(o: Oracle, m: map<string, Json>, v: Json)
    ensures ValueOk(o, JObject(m), v) <==> SaysOfKind(o, m, v)
  {
    hide Satisfies;
  }

  lemma AnyMeans(o: Oracle, m: map<string, Json>, v: Json)
    ensures var s := JObject(m);
            (ConstOk(s, v) && EnumOk(s, v) && TypeOk(s, v)
             && EveryOne(o, s, "allOf", v) && SomeOne(o, s, "anyOf", v) && ExactlyOne(o, s, "oneOf", v))
            <==> SaysOfAny(o, m, v)
  {
    hide Satisfies, MatchesType, IsTheOne, ExactlyOne;
    OneMeans(o, m, v);
  }

  lemma OneMeans(o: Oracle, m: map<string, Json>, v: Json)
    ensures ExactlyOne(o, JObject(m), "oneOf", v) <==> (HasList(m, "oneOf") ==> exists i :: IsTheOne(o, m["oneOf"].items, v, i))
  {
    hide Satisfies;
    var s := JObject(m);
    if HasList(m, "oneOf") {
      forall i ensures OnlyAt(o, s, "oneOf", i, v) <==> IsTheOne(o, m["oneOf"].items, v, i) {
      }
    }
  }
}
