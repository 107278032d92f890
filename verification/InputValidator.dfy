// The validator as it runs (internal/catalog/input_validation.go): maps are visited in
// an arbitrary order, issues accumulate in loops. Every method returns exactly the
// issue list of its specification, so the order of map iteration never shows.
module InputValidator {
  import opened Foundations
  import opened Sorting
  import opened InputValidation

  // Collecting the names of a map in whatever order it yields them, then sorting.
  method SortedNames(names: set<string>) returns (r: seq<string>)
    ensures r == Ordered(names)
  {
    var rest, found := names, [];
    while rest != {}
      invariant rest <= names && Distinct(found)
      invariant forall x :: x in found <==> x in names && x !in rest
      decreases |rest|
    {
      var x :| x in rest;
      rest := rest - {x};
      found := found + [x];
    }
    LexIsStrictOrder();
    SortForgetsOrder(LexLess, found, AnyOrder(names));
    return Sort(LexLess, found);
  }

  method Choose(choices: seq<Json>, value: Json) returns (matched: bool)
    ensures matched <==> value in choices
  {
    matched := false;
    for i := 0 to |choices|
      invariant !matched && value !in choices[..i]
    {
      if choices[i] == value {
        return true;
      }
    }
  }

  // The loop over one composition keyword.
  method ValidateEach(o: Oracle, list: Json, value: Json, path: string) returns (issues: seq<Issue>, validCount: nat)
    requires list.JArray?
    ensures var lists := Each(o, list, |list.items|, value, path); issues == Flatten(lists) && validCount == Passing(lists)
    decreases list, 0
  {
    hide Issues;
    issues, validCount := [], 0;
    for i := 0 to |list.items|
      invariant issues == Flatten(Each(o, list, i, value, path)) && validCount == Passing(Each(o, list, i, value, path))
    {
      var found := ValidateValue(o, list.items[i], value, path);
      var before, after := Each(o, list, i, value, path), Each(o, list, i + 1, value, path);
      assert after[..|after| - 1] == before;
      if found == [] {
        validCount := validCount + 1;
      }
      issues := issues + found;
    }
  }

  method ValidateCompositions(o: Oracle, schema: Json, value: Json, path: string) returns (issues: seq<Issue>)
    ensures issues == CompositionIssues(o, schema, value, path)
    decreases schema, 1
  {
    hide Each, Flatten, Passing;
    issues := [];
    if ListAt(schema, "allOf").Some? {
      var found, _ := ValidateEach(o, Get(schema, "allOf").value, value, path);
      issues := issues + found;
    }
    if ListAt(schema, "anyOf").Some? {
      var _, validCount := ValidateEach(o, Get(schema, "anyOf").value, value, path);
      if validCount == 0 {
        issues := issues + [Issue(Display(path), AnyOf)];
      }
    }
    if ListAt(schema, "oneOf").Some? {
      var _, validCount := ValidateEach(o, Get(schema, "oneOf").value, value, path);
      if validCount != 1 {
        issues := issues + [Issue(Display(path), OneOf)];
      }
    }
  }

  method CheckRequired(required: seq<Json>, members: map<string, Json>, path: string) returns (issues: seq<Issue>)
    ensures issues == RequiredIssues(required, members, path)
  {
    issues := [];
    for i := 0 to |required|
      invariant issues == RequiredIssues(required[..i], members, path)
    {
      assert required[..i + 1][..i] == required[..i];
      var name := NameOf(required[i]);
      if name !in members {
        issues := issues + [Issue(Join(path, name), Required)];
      }
    }
    assert required[..|required|] == required;
  }

  method CheckUnknown(schema: Json, members: map<string, Json>, path: string) returns (issues: seq<Issue>)
    ensures issues == UnknownIssues(Ordered(Undeclared(schema, members)), path)
  {
    hide Join;
    var unknown := SortedNames(set name | name in members && name !in ObjectAt(schema, "properties"));
    assert unknown == Ordered(Undeclared(schema, members));
    issues := [];
    for i := 0 to |unknown|
      invariant |issues| == i && forall j :: 0 <= j < i ==> issues[j] == Issue(Join(path, unknown[j]), Unknown)
    {
      issues := issues + [Issue(Join(path, unknown[i]), Unknown)];
    }
  }

  method ValidateProperties(o: Oracle, properties: Json, members: map<string, Json>, path: string) returns (issues: seq<Issue>)
    requires properties.JObject?
    ensures var names := Ordered(properties.members.Keys);
            issues == PropertyIssues(o, properties, names, |names|, members, path)
    decreases properties, 0
  {
    hide Issues, Ordered, Join;
    var names := SortedNames(properties.members.Keys);
    assert forall i :: 0 <= i < |names| ==> names[i] in names;
    issues := [];
    for i := 0 to |names|
      invariant issues == PropertyIssues(o, properties, names, i, members, path)
    {
      if names[i] in members {
        var found := ValidateValue(o, properties.members[names[i]], members[names[i]], Join(path, names[i]));
        issues := issues + found;
      }
    }
  }

  method ValidateItems(o: Oracle, item: Json, items: seq<Json>, path: string) returns (issues: seq<Issue>)
    ensures issues == ItemIssues(o, item, items, |items|, path)
    decreases item, 4
  {
    hide Issues, At;
    issues := [];
    for i := 0 to |items|
      invariant issues == ItemIssues(o, item, items, i, path)
    {
      var found := ValidateValue(o, item, items[i], At(path, i));
      issues := issues + found;
    }
  }

  // The part of validateJSONValue that switches on the kind of value.
  method ValidateByKind(o: Oracle, schema: Json, value: Json, path: string) returns (issues: seq<Issue>)
    ensures issues == ValueIssues(o, schema, value, path)
    decreases schema, 2
  {
    hide Issues, RequiredIssues, UnknownIssues, PropertyIssues, ItemIssues, Ordered, Undeclared, AtLeast, AtMost, NumberAt, StringAt;
    issues := [];
    match value {
      case JObject(members) =>
        if ListAt(schema, "required").Some? {
          issues := CheckRequired(ListAt(schema, "required").value, members, path);
        }
        var unknown := CheckUnknown(schema, members, path);
        issues := issues + unknown;
        if HasObject(schema, "properties") {
          var found := ValidateProperties(o, Get(schema, "properties").value, members, path);
          issues := issues + found;
        }
      case JArray(items) =>
        issues := CheckLength(o, schema, |items|, path);
        if HasObject(schema, "items") {
          var found := ValidateItems(o, Get(schema, "items").value, items, path);
          issues := issues + found;
        }
      case JString(text) => issues := CheckString(o, schema, text, path);
      case JNumber(spelling) => issues := CheckNumber(o, schema, spelling, path);
      case _ =>
    }
  }

  method CheckLength(o: Oracle, schema: Json, n: nat, path: string) returns (issues: seq<Issue>)
    ensures issues == LengthIssues(o, schema, n, path)
  {
    issues := [];
    var minimum, maximum := NumberAt(schema, "minItems"), NumberAt(schema, "maxItems");
    if minimum.Some? && n < o.integer(minimum.value) {
      issues := issues + [Issue(Display(path), MinItems)];
    }
    if maximum.Some? && n > o.integer(maximum.value) {
      issues := issues + [Issue(Display(path), MaxItems)];
    }
  }

  method CheckString(o: Oracle, schema: Json, text: string, path: string) returns (issues: seq<Issue>)
    ensures issues == StringIssues(o, schema, text, path)
  {
    hide NumberAt, StringAt;
    issues := [];
    var minimum, maximum := NumberAt(schema, "minLength"), NumberAt(schema, "maxLength");
    if minimum.Some? && |text| < o.integer(minimum.value) {
      issues := issues + [Issue(Display(path), MinLength)];
    }
    if maximum.Some? && |text| > o.integer(maximum.value) {
      issues := issues + [Issue(Display(path), MaxLength)];
    }
    var pattern, format := StringAt(schema, "pattern"), StringAt(schema, "format");
    if pattern.Some? && !o.matches(pattern.value, text) {
      issues := issues + [Issue(Display(path), Pattern)];
    }
    if format.Some? && !o.format(format.value, text) {
      issues := issues + [Issue(Display(path), Format)];
    }
  }

  method CheckNumber(o: Oracle, schema: Json, spelling: string, path: string) returns (issues: seq<Issue>)
    ensures issues == NumberIssues(o, schema, spelling, path)
  {
    issues := [];
    var minimum, maximum := NumberAt(schema, "minimum"), NumberAt(schema, "maximum");
    var number := o.rational(spelling);
    if minimum.Some? && o.limit(minimum.value).Some? && number.Some? && number.value < o.limit(minimum.value).value {
      issues := issues + [Issue(Display(path), Minimum)];
    }
    if maximum.Some? && o.limit(maximum.value).Some? && number.Some? && number.value > o.limit(maximum.value).value {
      issues := issues + [Issue(Display(path), Maximum)];
    }
  }

  // validateJSONValue: the specified issues, and none exactly when the value satisfies
  // the schema.
  method ValidateValue(o: Oracle, schema: Json, value: Json, path: string) returns (issues: seq<Issue>)
    ensures issues == Issues(o, schema, value, path)
    ensures issues == [] <==> Satisfies(o, schema, value)
    decreases schema, 3
  {
    hide CompositionIssues, ValueIssues, Satisfies, MatchesType;
    IssuesIffUnsatisfied(o, schema, value, path);
    var expected := Get(schema, "const");
    if expected.Some? && expected.value != value {
      return [Issue(Display(path), Const)];
    }
    var choices := ListAt(schema, "enum");
    if choices.Some? {
      var matched := Choose(choices.value, value);
      if !matched {
        return [Issue(Display(path), Enum)];
      }
    }
    var typeName := TypeName(schema);
    issues := ValidateCompositions(o, schema, value, path);
    if typeName != "" && !MatchesType(typeName, value) {
      return issues + [Issue(Display(path), Type)];
    }
    var found := ValidateByKind(o, schema, value, path);
    return issues + found;
  }

  // ---- request bodies ----

  datatype Body = Empty | Malformed | Document(value: Json)

  datatype Verdict = WrongContentType | NotJson | SchemaUnreadable | Checked(issues: seq<Issue>)

  // ValidateJSONAgainstSchema: an empty body is the empty object, whatever its media type.
  method ValidateBody(o: Oracle, schema: Json, body: Body, jsonMediaType: bool) returns (r: Verdict)
    ensures r.Checked? && r.issues == [] <==>
            && (schema.JObject? || schema.JNull?) && (body.Document? ==> jsonMediaType) && !body.Malformed?
            && Satisfies(o, schema, if body.Document? then body.value else JObject(map[]))
    ensures r.Checked? && r.issues != [] <==>
            && (schema.JObject? || schema.JNull?) && (body.Document? ==> jsonMediaType) && !body.Malformed?
            && !Satisfies(o, schema, if body.Document? then body.value else JObject(map[]))
  {
    hide Satisfies, Issues;
    if !body.Empty? && !jsonMediaType {
      return WrongContentType;
    }
    if body.Malformed? {
      return NotJson;
    }
    if !schema.JObject? && !schema.JNull? {
      return SchemaUnreadable;
    }
    var issues := ValidateValue(o, schema, if body.Document? then body.value else JObject(map[]), "");
    return Checked(issues);
  }
}
