// Which schemas may be published (internal/catalog/product_contract.go), and what that
// means for the documents the validator then accepts.
module ClosedSchemas {
  import opened Foundations
  import opened Sorting
  import opened InputValidation

  const KEYWORDS: set<string> := {
    "type", "additionalProperties", "properties", "required", "description", "format", "enum", "const", "items",
    "minLength", "maxLength", "minimum", "maximum", "minItems", "maxItems", "pattern", "oneOf", "anyOf", "allOf" }

  predicate DescribesObject(node: Json) {
    TypeName(node) == "object" || (Get(node, "properties").Some? && !Get(node, "properties").value.JNull?)
  }

  predicate RequiredClosed(node: Json) {
    Get(node, "required").Some? ==>
      && ListAt(node, "required").Some?
      && var names := ListAt(node, "required").value;
      && Distinct(names)
      && forall i :: 0 <= i < |names| ==> names[i].JString? && names[i].text in ObjectAt(node, "properties")
  }

  predicate ListClosed(node: Json, key: string)
    decreases node, 0
  {
    Get(node, key).Some? ==>
      && ListAt(node, key).Some? && ListAt(node, key).value != []
      && forall i :: 0 <= i < |ListAt(node, key).value| ==>
           ListAt(node, key).value[i].JObject? && Closed(ListAt(node, key).value[i], false)
  }

  predicate ItemsClosed(node: Json)
    decreases node, 0
  {
    Get(node, "items").Some? ==> Get(node, "items").value.JObject? && Closed(Get(node, "items").value, false)
  }

  predicate ObjectClosed(node: Json)
    decreases node, 0
  {
    DescribesObject(node) ==>
      && Get(node, "additionalProperties") == Some(JBool(false)) && HasObject(node, "properties")
      && (var properties := ObjectAt(node, "properties");
          forall name :: name in properties ==> properties[name].JObject? && Closed(properties[name], false))
      && RequiredClosed(node)
  }

  // What validateClosedSchemaNode accepts.
  predicate Closed(node: Json, root: bool)
    decreases node, 1
  {
    && Members(node).Keys <= KEYWORDS && (root ==> TypeName(node) == "object")
    && ObjectClosed(node) && ItemsClosed(node)
    && ListClosed(node, "oneOf") && ListClosed(node, "anyOf") && ListClosed(node, "allOf")
  }

  // ---- the check as it runs ----

  method CheckRequired(names: seq<Json>, properties: map<string, Json>) returns (ok: bool)
    ensures ok <==>
            && Distinct(names)
            && forall i :: 0 <= i < |names| ==> names[i].JString? && names[i].text in properties
  {
    var seen: set<string> := {};
    for i := 0 to |names|
      invariant Distinct(names[..i])
      invariant forall k :: 0 <= k < i ==> names[k].JString? && names[k].text in properties && names[k].text in seen
      invariant forall name :: name in seen ==> JString(name) in names[..i]
    {
      if !names[i].JString? || names[i].text !in properties {
        return false;
      }
      assert names[..i + 1] == names[..i] + [names[i]];
      if names[i].text in seen {
        assert names[i] in names[..i];
        return false;
      }
      seen := seen + {names[i].text};
    }
    assert names[..|names|] == names;
    return true;
  }

  // The children of a properties map, in any order.
  method CheckProperties(properties: Json) returns (ok: bool)
    requires properties.JObject?
    ensures ok <==> forall name :: name in properties.members ==>
              properties.members[name].JObject? && Closed(properties.members[name], false)
    decreases properties, 0
  {
    hide Closed;
    var rest := properties.members.Keys;
    while rest != {}
      invariant rest <= properties.members.Keys
      invariant forall name :: name in properties.members && name !in rest ==>
                  properties.members[name].JObject? && Closed(properties.members[name], false)
      decreases |rest|
    {
      var name :| name in rest;
      rest := rest - {name};
      if !properties.members[name].JObject? {
        return false;
      }
      var childOk := CheckNode(properties.members[name], false);
      if !childOk {
        return false;
      }
    }
    return true;
  }

  method CheckList(list: Json) returns (ok: bool)
    ensures ok <==>
            && list.JArray? && list.items != []
            && forall i :: 0 <= i < |list.items| ==> list.items[i].JObject? && Closed(list.items[i], false)
    decreases list, 0
  {
    hide Closed;
    if !list.JArray? || list.items == [] {
      return false;
    }
    for i := 0 to |list.items|
      invariant forall k :: 0 <= k < i ==> list.items[k].JObject? && Closed(list.items[k], false)
    {
      if !list.items[i].JObject? {
        return false;
      }
      var childOk := CheckNode(list.items[i], false);
      if !childOk {
        return false;
      }
    }
    return true;
  }

  method CheckObject(node: Json) returns (ok: bool)
    ensures ok <==> ObjectClosed(node)
    decreases node, 0
  {
    hide Closed;
    if !DescribesObject(node) {
      return true;
    }
    if Get(node, "additionalProperties") != Some(JBool(false)) || !HasObject(node, "properties") {
      return false;
    }
    assert ObjectAt(node, "properties") == Get(node, "properties").value.members;
    var childrenOk := CheckProperties(Get(node, "properties").value);
    if !childrenOk {
      return false;
    }
    if Get(node, "required").Some? {
      if ListAt(node, "required").None? {
        return false;
      }
      var requiredOk := CheckRequired(ListAt(node, "required").value, ObjectAt(node, "properties"));
      return requiredOk;
    }
    return true;
  }

  // validateClosedSchemaNode
  method CheckNode(node: Json, root: bool) returns (ok: bool)
    ensures ok <==> Closed(node, root)
    decreases node, 1
  {
    hide ObjectClosed;
    if !(Members(node).Keys <= KEYWORDS) || (root && TypeName(node) != "object") {
      return false;
    }
    var objectOk := CheckObject(node);
    if !objectOk {
      return false;
    }
    if Get(node, "items").Some? {
      if !Get(node, "items").value.JObject? {
        return false;
      }
      var itemsOk := CheckNode(Get(node, "items").value, false);
      if !itemsOk {
        return false;
      }
    }
    var oneOk := CheckKeyword(node, "oneOf");
    if !oneOk {
      return false;
    }
    var anyOk := CheckKeyword(node, "anyOf");
    if !anyOk {
      return false;
    }
    var allOk := CheckKeyword(node, "allOf");
    return allOk;
  }

  method CheckKeyword(node: Json, key: string) returns (ok: bool)
    ensures ok <==> ListClosed(node, key)
    decreases node, 0
  {
    hide Closed;
    if Get(node, key).None? {
      return true;
    }
    var listOk := CheckList(Get(node, key).value);
    return listOk;
  }

  // ---- what a published schema means for documents ----

  lemma PresentList(schema: Json, key: string)
    ensures ListAt(schema, key).Some? ==> Get(schema, key).Some?
  {
  }

  // A document accepted under a published schema is an object, has every required key,
  // and no key outside the declared ones; nor outside those of any allOf branch, because
  // each branch is closed on its own.
  lemma AcceptedDocument(o: Oracle, schema: Json, value: Json)
    requires Closed(schema, true) && Satisfies(o, schema, value)
    ensures value.JObject?
    ensures value.members.Keys <= ObjectAt(schema, "properties").Keys
    ensures ListAt(schema, "required").Some? ==>
              forall i :: 0 <= i < |ListAt(schema, "required").value| ==>
                ListAt(schema, "required").value[i].JString? && ListAt(schema, "required").value[i].text in value.members
    ensures ListAt(schema, "allOf").Some? ==>
              forall i :: 0 <= i < |ListAt(schema, "allOf").value| ==>
                value.members.Keys <= ObjectAt(ListAt(schema, "allOf").value[i], "properties").Keys
  {
    hide ListClosed, ItemsClosed, EnumOk, ConstOk, SomeOne, ExactlyOne, ListAt, Get, ObjectAt, Members;
    PresentList(schema, "required");
    assert MatchesType("object", value);
    assert ValueOk(o, schema, value);
    if ListAt(schema, "allOf").Some? {
      forall i | 0 <= i < |ListAt(schema, "allOf").value|
        ensures value.members.Keys <= ObjectAt(ListAt(schema, "allOf").value[i], "properties").Keys
      {
        assert Satisfies(o, ListAt(schema, "allOf").value[i], value);
        assert ValueOk(o, ListAt(schema, "allOf").value[i], value);
      }
    }
  }

  lemma JoinInjective(path: string, a: string, b: string)
    ensures Join(path, a) == Join(path, b) ==> a == b
  {
    if path != "" && Join(path, a) == Join(path, b) {
      assert Join(path, a)[|path| + 1..] == a && Join(path, b)[|path| + 1..] == b;
    }
  }

  // Which names the required check reports, in order.
  lemma {:induction false} RequiredReports(required: seq<Json>, members: map<string, Json>, path: string, k: nat)
    requires k < |RequiredIssues(required, members, path)|
    ensures exists i :: 0 <= i < |required| && NameOf(required[i]) !in members
              && RequiredIssues(required, members, path)[k] == Issue(Join(path, NameOf(required[i])), Required)
  {
    hide Join;
    var n := |required| - 1;
    var before := RequiredIssues(required[..n], members, path);
    if k < |before| {
      RequiredReports(required[..n], members, path, k);
    } else {
      assert NameOf(required[n]) !in members;
    }
  }

  // Under a published schema an absent required key and an unaccepted key are never
  // confused: no field is reported both as required and as unknown.
  lemma RequiredXorUnknown(schema: Json, members: map<string, Json>, path: string, j: nat, k: nat)
    requires Closed(schema, true) && ListAt(schema, "required").Some?
    requires j < |RequiredIssues(ListAt(schema, "required").value, members, path)|
    requires k < |UnknownIssues(Ordered(Undeclared(schema, members)), path)|
    ensures RequiredIssues(ListAt(schema, "required").value, members, path)[j].field
            != UnknownIssues(Ordered(Undeclared(schema, members)), path)[k].field
  {
    hide ListClosed, ItemsClosed, Join, RequiredIssues, UnknownIssues, Ordered, Get, ListAt, ObjectAt, Members;
    PresentList(schema, "required");
    var required := ListAt(schema, "required").value;
    RequiredReports(required, members, path, j);
    var i :| 0 <= i < |required| && NameOf(required[i]) !in members
             && RequiredIssues(required, members, path)[j] == Issue(Join(path, NameOf(required[i])), Required);
    var unknown := Ordered(Undeclared(schema, members));
    assert unknown[k] in unknown;
    JoinInjective(path, NameOf(required[i]), unknown[k]);
  }
}
