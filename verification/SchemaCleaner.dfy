/** `_clean_for_openai_strict`: what it keeps of a JSON schema, and that it only relaxes it. */
module SchemaCleaner {
  import opened Wallet

  datatype Json =
    | Null
    | Bool(b: bool)
    | Num(n: int)
    | Str(s: string)
    | Arr(items: seq<Json>)
    | Obj(fields: seq<Field>)

  datatype Field = Field(name: string, value: Json)

  /** Keywords whose meaning depends only on their own value. */
  const LEAVES: set<string> := {"type", "required", "description", "enum", "const"}

  predicate IsMap(key: string) { key == "properties" || key == "$defs" }

  predicate Allowed(key: string) {
    IsMap(key) || key in LEAVES || key == "items" || key == "anyOf" || key == "additionalProperties" || key == "$ref"
  }

  /** What the code demands of its input: maps under `properties` and `$defs`, a list under `anyOf`. */
  ghost predicate Shaped(s: Json) {
    s.Obj? ==> forall i :: 0 <= i < |s.fields| ==> ShapedField(s.fields[i])
  }

  ghost predicate ShapedField(f: Field) {
    if IsMap(f.name) then f.value.Obj? && forall j :: 0 <= j < |f.value.fields| ==> Shaped(f.value.fields[j].value)
    else if f.name == "anyOf" then f.value.Arr? && forall j :: 0 <= j < |f.value.items| ==> Shaped(f.value.items[j])
    else if f.name == "items" && f.value.Arr? then forall j :: 0 <= j < |f.value.items| ==> Shaped(f.value.items[j])
    else if f.name == "items" || f.name == "additionalProperties" then Shaped(f.value)
    else true
  }

  function Clean(s: Json): Json {
    if s.Obj? then Obj(CleanFields(s.fields)) else s
  }

  /** The fields with an allowed keyword, each cleaned; names under a map are data and all stay. */
  function CleanFields(fields: seq<Field>): seq<Field> {
    if fields == [] then []
    else
      var n := |fields| - 1;
      CleanFields(fields[..n]) + if Allowed(fields[n].name) then [CleanField(fields[n])] else []
  }

  function CleanField(f: Field): Field {
    if IsMap(f.name) && f.value.Obj? then
      Field(f.name, Obj(seq(|f.value.fields|, i requires 0 <= i < |f.value.fields| =>
                              Field(f.value.fields[i].name, Clean(f.value.fields[i].value)))))
    else if (f.name == "anyOf" || f.name == "items") && f.value.Arr? then
      Field(f.name, Arr(seq(|f.value.items|, i requires 0 <= i < |f.value.items| => Clean(f.value.items[i]))))
    else if f.name == "items" || f.name == "additionalProperties" then
      Field(f.name, Clean(f.value))
    else f
  }

  // ---- meaning of a schema ----

  /** The parts of JSON Schema that the cleaner cannot see into, as arbitrary predicates: `leaf` for a
      keyword that reads only its own value, `other` for any keyword outside the allowlist, `pattern`
      for a `patternProperties` value that covers a name. */
  datatype Dialect = Dialect(
    leaf: (string, Json, Json) -> bool,
    other: (Json, Field, Json) -> bool,
    pattern: (Json, string) -> bool)

  predicate Named(fields: seq<Field>, name: string) {
    exists i :: 0 <= i < |fields| && fields[i].name == name
  }

  /** A name that `properties` of the same schema object covers. */
  predicate Declared(fields: seq<Field>, name: string) {
    exists i :: 0 <= i < |fields| && fields[i].name == "properties" && fields[i].value.Obj?
        && Named(fields[i].value.fields, name)
  }

  predicate Patterned(d: Dialect, fields: seq<Field>, name: string) {
    exists i :: 0 <= i < |fields| && fields[i].name == "patternProperties" && d.pattern(fields[i].value, name)
  }

  /** How many leading elements `prefixItems` of the same schema object takes away from `items`. */
  function Prefix(fields: seq<Field>): nat {
    if fields == [] then 0
    else
      var last := fields[|fields| - 1];
      if last.name == "prefixItems" && last.value.Arr? then |last.value.items| else Prefix(fields[..|fields| - 1])
  }

  function Lookup(fields: seq<Field>, name: string): (r: Option<Json>)
    ensures r.Some? ==> exists i :: 0 <= i < |fields| && fields[i] == Field(name, r.value)
  {
    if fields == [] then None
    else if fields[|fields| - 1].name == name then Some(fields[|fields| - 1].value)
    else Lookup(fields[..|fields| - 1], name)
  }

  const DEFS := "#/$defs/"

  /** A reference into `$defs` of the root schema. */
  function Resolve(root: Json, ref: Json): Option<Json> {
    if ref.Str? && |DEFS| <= |ref.s| && ref.s[..|DEFS|] == DEFS && root.Obj? then
      match Lookup(root.fields, "$defs")
      case Some(Obj(defs)) => Lookup(defs, ref.s[|DEFS|..])
      case _ => None
    else None
  }

  /** Validity with at most `k` nested references followed; a value is valid when it is so for every
      `k`, which gives recursive schemas their usual meaning. */
  ghost predicate Valid(d: Dialect, k: nat, root: Json, s: Json, v: Json)
    decreases k, s, 1
  {
    match s
    case Bool(b) => b
    case Obj(fields) => forall i :: 0 <= i < |fields| ==> Holds(d, k, root, s, fields[i], v)
    case _ => d.leaf("", s, v)
  }

  /** One keyword of a schema object. */
  ghost predicate Holds(d: Dialect, k: nat, root: Json, s: Json, f: Field, v: Json)
    requires s.Obj? && f in s.fields
    decreases k, s, 0
  {
    if f.name == "properties" then
      f.value.Obj? && v.Obj? ==>
        forall i, j ::
          0 <= i < |f.value.fields| && 0 <= j < |v.fields| && v.fields[j].name == f.value.fields[i].name ==>
          Valid(d, k, root, f.value.fields[i].value, v.fields[j].value)
    else if f.name == "items" && f.value.Arr? then
      v.Arr? ==> forall i :: 0 <= i < |v.items| && i < |f.value.items| ==>
          Valid(d, k, root, f.value.items[i], v.items[i])
    else if f.name == "items" then
      v.Arr? ==> forall i :: Prefix(s.fields) <= i < |v.items| ==> Valid(d, k, root, f.value, v.items[i])
    else if f.name == "additionalProperties" then
      v.Obj? ==>
        forall j ::
          0 <= j < |v.fields| && !Declared(s.fields, v.fields[j].name) && !Patterned(d, s.fields, v.fields[j].name) ==>
          Valid(d, k, root, f.value, v.fields[j].value)
    else if f.name == "anyOf" then
      f.value.Arr? && exists i :: 0 <= i < |f.value.items| && Valid(d, k, root, f.value.items[i], v)
    else if f.name == "$ref" then
      match Resolve(root, f.value)
      case Some(t) => k > 0 ==> Valid(d, k - 1, root, t, v)
      case None => d.leaf("$ref", f.value, v)
    else if f.name == "$defs" then true
    else if f.name in LEAVES then d.leaf(f.name, f.value, v)
    else d.other(s, f, v)
  }

  /** Dropping a keyword may move names or elements under a sibling that stays: the only two cases are
      `patternProperties` beside `additionalProperties` and `prefixItems` beside `items`. */
  ghost predicate NoClash(s: Json) {
    s.Obj? ==>
      && !(Named(s.fields, "additionalProperties") && Named(s.fields, "patternProperties"))
      && !(Named(s.fields, "items") && Named(s.fields, "prefixItems"))
      && forall i :: 0 <= i < |s.fields| ==> NoClashField(s.fields[i])
  }

  ghost predicate NoClashField(f: Field) {
    if IsMap(f.name) && f.value.Obj? then forall j :: 0 <= j < |f.value.fields| ==> NoClash(f.value.fields[j].value)
    else if (f.name == "anyOf" || f.name == "items") && f.value.Arr? then
      forall j :: 0 <= j < |f.value.items| ==> NoClash(f.value.items[j])
    else if f.name == "items" || f.name == "additionalProperties" then NoClash(f.value)
    else true
  }

  // ---- the cleaned fields ----

  /** Every cleaned field comes from an allowed one. */
  lemma {:induction false} Source(fields: seq<Field>, i: nat) returns (j: nat)
    requires i < |CleanFields(fields)|
    ensures j < |fields| && Allowed(fields[j].name) && CleanFields(fields)[i] == CleanField(fields[j])
  {
    hide CleanField, Allowed;
    var n := |fields| - 1;
    if i < |CleanFields(fields[..n])| {
      j := Source(fields[..n], i);
    } else {
      j := n;
    }
  }

  /** Every allowed field survives. */
  lemma {:induction false} Survives(fields: seq<Field>, j: nat) returns (i: nat)
    requires j < |fields| && Allowed(fields[j].name)
    ensures i < |CleanFields(fields)| && CleanFields(fields)[i] == CleanField(fields[j])
  {
    hide CleanField, Allowed;
    var n := |fields| - 1;
    if j < n {
      i := Survives(fields[..n], j);
    } else {
      i := |CleanFields(fields[..n])|;
    }
  }

  lemma {:induction false} CleanKeepsName(f: Field)
    ensures CleanField(f).name == f.name
  {
    hide Clean;
  }

  /** Every property name stays declared, and no other becomes so. */
  lemma {:induction false} CleanKeepsDeclared(fields: seq<Field>, name: string)
    ensures Declared(CleanFields(fields), name) <==> Declared(fields, name)
  {
    hide Clean, CleanFields, Named;
    var cleaned := CleanFields(fields);
    if Declared(cleaned, name) {
      var i :| 0 <= i < |cleaned| && cleaned[i].name == "properties" && cleaned[i].value.Obj?
          && Named(cleaned[i].value.fields, name);
      var j := Source(fields, i);
      CleanKeepsName(fields[j]);
      CleanKeepsMembers(fields[j], name);
    }
    if Declared(fields, name) {
      var j :| 0 <= j < |fields| && fields[j].name == "properties" && fields[j].value.Obj?
          && Named(fields[j].value.fields, name);
      var i := Survives(fields, j);
      CleanKeepsMembers(fields[j], name);
    }
  }

  lemma {:induction false} CleanKeepsMembers(f: Field, name: string)
    requires f.name == "properties"
    ensures CleanField(f).value.Obj? <==> f.value.Obj?
    ensures f.value.Obj? ==> (Named(CleanField(f).value.fields, name) <==> Named(f.value.fields, name))
  {
    hide Clean;
    if f.value.Obj? {
      var a, b := f.value.fields, CleanField(f).value.fields;
      assert |a| == |b| && forall i :: 0 <= i < |a| ==> b[i].name == a[i].name;
      if Named(a, name) {
        var i :| 0 <= i < |a| && a[i].name == name;
        assert b[i].name == name;
      }
    }
  }

  /** Only allowlisted keywords remain, and all of them. */
  lemma {:induction false} CleanNames(fields: seq<Field>, name: string)
    ensures Named(CleanFields(fields), name) <==> Allowed(name) && Named(fields, name)
  {
    hide CleanField, CleanFields, Allowed;
    var cleaned := CleanFields(fields);
    if Named(cleaned, name) {
      var i :| 0 <= i < |cleaned| && cleaned[i].name == name;
      var j := Source(fields, i);
      CleanKeepsName(fields[j]);
    }
    if Allowed(name) && Named(fields, name) {
      var j :| 0 <= j < |fields| && fields[j].name == name;
      var i := Survives(fields, j);
      CleanKeepsName(fields[j]);
    }
  }

  /** The allowlist, written out: exactly these keywords remain, `required` among them, and those that hold
      no schema keep their value. */
  lemma {:induction false} AllowlistIs(fields: seq<Field>, name: string)
    ensures Named(CleanFields(fields), name) <==>
            && Named(fields, name)
            && name in {"type", "properties", "items", "required", "additionalProperties", "description",
                        "enum", "const", "anyOf", "$ref", "$defs"}
    ensures name in {"type", "required", "description", "enum", "const", "$ref"} ==>
              Lookup(CleanFields(fields), name) == Lookup(fields, name)
  {
    hide CleanFields, Lookup;
    CleanNames(fields, name);
    if name in {"type", "required", "description", "enum", "const", "$ref"} { LookupCleaned(fields, name); }
  }

  lemma {:induction false} NoPrefix(fields: seq<Field>)
    requires !Named(fields, "prefixItems")
    ensures Prefix(fields) == 0
  {
    if fields != [] {
      var n := |fields| - 1;
      assert fields[n].name != "prefixItems";
      assert forall i :: 0 <= i < n ==> fields[..n][i] == fields[i];
      NoPrefix(fields[..n]);
    }
  }

  // ---- references ----

  /** The definition found under a name, cleaned. */
  lemma {:induction false} LookupCleanMap(f: Field, name: string)
    requires IsMap(f.name) && f.value.Obj?
    ensures Lookup(CleanField(f).value.fields, name) ==
            match Lookup(f.value.fields, name) { case Some(s) => Some(Clean(s)) case None => None }
  {
    LookupMapped(f.value.fields, CleanField(f).value.fields, name);
  }

  lemma {:induction false} LookupMapped(a: seq<Field>, b: seq<Field>, name: string)
    requires |a| == |b| && forall i :: 0 <= i < |a| ==> b[i] == Field(a[i].name, Clean(a[i].value))
    ensures Lookup(b, name) == match Lookup(a, name) { case Some(s) => Some(Clean(s)) case None => None }
  {
    hide Clean;
    if a != [] {
      var n := |a| - 1;
      if a[n].name != name {
        assert forall i :: 0 <= i < n ==> b[..n][i] == b[i] && a[..n][i] == a[i];
        LookupMapped(a[..n], b[..n], name);
      }
    }
  }

  lemma {:induction false} LookupCleaned(fields: seq<Field>, name: string)
    requires Allowed(name)
    ensures Lookup(CleanFields(fields), name) ==
            match Lookup(fields, name) { case Some(v) => Some(CleanField(Field(name, v)).value) case None => None }
  {
    hide CleanField, Allowed;
    if fields != [] {
      var n := |fields| - 1;
      LookupCleaned(fields[..n], name);
      CleanKeepsName(fields[n]);
      var before, all := CleanFields(fields[..n]), CleanFields(fields);
      if Allowed(fields[n].name) {
        assert all[..|all| - 1] == before && all[|all| - 1] == CleanField(fields[n]);
      } else {
        assert all == before;
      }
    }
  }

  /** References resolve to the cleaned definition in the cleaned root. */
  lemma {:induction false} ResolveCleaned(root: Json, ref: Json)
    requires Shaped(root)
    ensures Resolve(Clean(root), ref) ==
            match Resolve(root, ref) { case Some(t) => Some(Clean(t)) case None => None }
  {
    if root.Obj? {
      LookupCleaned(root.fields, "$defs");
      match Lookup(root.fields, "$defs") {
        case Some(defs) =>
          assert Field("$defs", defs) in root.fields;
          assert ShapedField(Field("$defs", defs));
          if ref.Str? && |DEFS| <= |ref.s| { LookupCleanMap(Field("$defs", defs), ref.s[|DEFS|..]); }
        case None =>
      }
    }
  }

  lemma {:induction false} ResolveGood(root: Json, ref: Json)
    requires Shaped(root) && NoClash(root) && Resolve(root, ref).Some?
    ensures Shaped(Resolve(root, ref).value) && NoClash(Resolve(root, ref).value)
  {
    hide NoClash, Shaped;
    assert root.Obj?;
    var defs := Lookup(root.fields, "$defs").value;
    var i :| 0 <= i < |root.fields| && root.fields[i] == Field("$defs", defs);
    assert ShapedField(root.fields[i]) && NoClashField(root.fields[i]) by { Parts(root, i); }
    var name := ref.s[|DEFS|..];
    var j :| 0 <= j < |defs.fields| && defs.fields[j] == Field(name, Resolve(root, ref).value);
  }

  lemma {:induction false} Parts(s: Json, i: nat)
    requires Shaped(s) && NoClash(s) && s.Obj? && i < |s.fields|
    ensures ShapedField(s.fields[i]) && NoClashField(s.fields[i])
  {
  }

  // ---- cleaning only relaxes ----

  lemma {:induction false} CleanRelaxes(d: Dialect, k: nat, root: Json, s: Json, v: Json)
    requires Shaped(root) && NoClash(root) && Shaped(s) && NoClash(s)
    requires Valid(d, k, root, s, v)
    ensures Valid(d, k, Clean(root), Clean(s), v)
    decreases k, s, 1
  {
    hide CleanFields, CleanField, Holds, Shaped, NoClash, Allowed;
    if s.Obj? {
      var t := Clean(s);
      forall i | 0 <= i < |t.fields| ensures Holds(d, k, Clean(root), t, t.fields[i], v) {
        var j := Source(s.fields, i);
        assert Holds(d, k, root, s, s.fields[j], v);
        FieldRelaxes(d, k, root, s, j, v);
      }
    }
  }

  lemma {:induction false} FieldRelaxes(d: Dialect, k: nat, root: Json, s: Json, j: nat, v: Json)
    requires Shaped(root) && NoClash(root) && Shaped(s) && NoClash(s)
    requires s.Obj? && j < |s.fields| && Allowed(s.fields[j].name) && Holds(d, k, root, s, s.fields[j], v)
    requires CleanField(s.fields[j]) in Clean(s).fields
    ensures Holds(d, k, Clean(root), Clean(s), CleanField(s.fields[j]), v)
    decreases k, s, 0
  {
    hide Valid, Shaped, NoClash, Clean, Prefix, Resolve, Declared, Patterned;
    var f := s.fields[j];
    CleanKeepsName(f);
    if f.name == "properties" {
      PropertiesRelax(d, k, root, s, j, v);
    } else if f.name == "items" {
      ItemsRelax(d, k, root, s, j, v);
    } else if f.name == "additionalProperties" {
      AdditionalRelax(d, k, root, s, j, v);
    } else if f.name == "anyOf" {
      AnyOfRelax(d, k, root, s, j, v);
    } else if f.name == "$ref" {
      RefRelax(d, k, root, s, j, v);
    } else if f.name != "$defs" {
      assert f.name in LEAVES && CleanField(f) == f;
    }
  }

  ghost predicate At(d: Dialect, k: nat, root: Json, s: Json, j: nat, v: Json, name: string) {
    && Shaped(root) && NoClash(root) && Shaped(s) && NoClash(s)
    && s.Obj? && j < |s.fields| && s.fields[j].name == name && Holds(d, k, root, s, s.fields[j], v)
    && CleanField(s.fields[j]) in Clean(s).fields
  }

  lemma {:induction false} PropertiesRelax(d: Dialect, k: nat, root: Json, s: Json, j: nat, v: Json)
    requires At(d, k, root, s, j, v, "properties")
    ensures Holds(d, k, Clean(root), Clean(s), CleanField(s.fields[j]), v)
    decreases k, s, 0, 0
  {
    hide Valid, Shaped, NoClash, Clean;
    Parts(s, j);
    var f := s.fields[j];
    if f.value.Obj? && v.Obj? {
      forall i, m | 0 <= i < |f.value.fields| && 0 <= m < |v.fields| && v.fields[m].name == f.value.fields[i].name
        ensures Valid(d, k, Clean(root), Clean(f.value.fields[i].value), v.fields[m].value)
      {
        CleanRelaxes(d, k, root, f.value.fields[i].value, v.fields[m].value);
      }
    }
  }

  lemma {:induction false} ItemsRelax(d: Dialect, k: nat, root: Json, s: Json, j: nat, v: Json)
    requires At(d, k, root, s, j, v, "items")
    ensures Holds(d, k, Clean(root), Clean(s), CleanField(s.fields[j]), v)
    decreases k, s, 0, 0
  {
    hide Valid, Shaped, NoClash, Clean, Prefix;
    Parts(s, j);
    var f := s.fields[j];
    if v.Arr? {
      if f.value.Arr? {
        forall i | 0 <= i < |v.items| && i < |f.value.items|
          ensures Valid(d, k, Clean(root), Clean(f.value.items[i]), v.items[i])
        {
          CleanRelaxes(d, k, root, f.value.items[i], v.items[i]);
        }
      } else {
        CleanIsArr(f.value);
        assert Named(s.fields, "items");
        assert !Named(s.fields, "prefixItems") by { Siblings(s); }
        NoPrefix(s.fields);
        forall i | 0 <= i < |v.items| ensures Valid(d, k, Clean(root), Clean(f.value), v.items[i]) {
          CleanRelaxes(d, k, root, f.value, v.items[i]);
        }
      }
    }
  }

  lemma {:induction false} CleanIsArr(s: Json)
    ensures Clean(s).Arr? <==> s.Arr?
  {
  }

  lemma {:induction false} Siblings(s: Json)
    requires NoClash(s) && s.Obj?
    ensures Named(s.fields, "additionalProperties") ==> !Named(s.fields, "patternProperties")
    ensures Named(s.fields, "items") ==> !Named(s.fields, "prefixItems")
  {
  }

  lemma {:induction false} AdditionalRelax(d: Dialect, k: nat, root: Json, s: Json, j: nat, v: Json)
    requires At(d, k, root, s, j, v, "additionalProperties")
    ensures Holds(d, k, Clean(root), Clean(s), CleanField(s.fields[j]), v)
    decreases k, s, 0, 0
  {
    hide Valid, Shaped, NoClash, CleanFields, Declared;
    Parts(s, j);
    var f := s.fields[j];
    if v.Obj? {
      assert Named(s.fields, "additionalProperties");
      Siblings(s);
      forall m | 0 <= m < |v.fields| && !Declared(Clean(s).fields, v.fields[m].name)
        ensures Valid(d, k, Clean(root), Clean(f.value), v.fields[m].value)
      {
        CleanKeepsDeclared(s.fields, v.fields[m].name);
        assert !Patterned(d, s.fields, v.fields[m].name);
        CleanRelaxes(d, k, root, f.value, v.fields[m].value);
      }
    }
  }

  lemma {:induction false} AnyOfRelax(d: Dialect, k: nat, root: Json, s: Json, j: nat, v: Json)
    requires At(d, k, root, s, j, v, "anyOf")
    ensures Holds(d, k, Clean(root), Clean(s), CleanField(s.fields[j]), v)
    decreases k, s, 0, 0
  {
    hide Valid, Shaped, NoClash, Clean;
    Parts(s, j);
    var f := s.fields[j];
    var i :| 0 <= i < |f.value.items| && Valid(d, k, root, f.value.items[i], v);
    CleanRelaxes(d, k, root, f.value.items[i], v);
    assert CleanField(f).value.items[i] == Clean(f.value.items[i]);
  }

  lemma {:induction false} RefRelax(d: Dialect, k: nat, root: Json, s: Json, j: nat, v: Json)
    requires At(d, k, root, s, j, v, "$ref")
    ensures Holds(d, k, Clean(root), Clean(s), CleanField(s.fields[j]), v)
    decreases k, s, 0, 0
  {
    hide Valid, Shaped, NoClash, Clean, Resolve;
    var f := s.fields[j];
    ResolveCleaned(root, f.value);
    if Resolve(root, f.value).Some? && k > 0 {
      ResolveGood(root, f.value);
      CleanRelaxes(d, k - 1, root, Resolve(root, f.value).value, v);
    }
  }

  /** Every value that a schema admits, its cleaned form admits: through properties, items, anyOf,
      additionalProperties and references into `$defs`, at every depth of recursion. */
  lemma {:induction false} CleaningOnlyRelaxes(d: Dialect, schema: Json, v: Json)
    requires Shaped(schema) && NoClash(schema)
    requires forall k: nat :: Valid(d, k, schema, schema, v)
    ensures forall k: nat :: Valid(d, k, Clean(schema), Clean(schema), v)
  {
    hide Valid, Clean, Shaped, NoClash;
    forall k: nat ensures Valid(d, k, Clean(schema), Clean(schema), v) {
      CleanRelaxes(d, k, schema, schema, v);
    }
  }

  // ---- the result: allowlisted at every depth, and stable ----

  /** Only allowlisted keywords, here and in every nested schema; names under maps are free. */
  ghost predicate Strict(s: Json) {
    s.Obj? ==> forall i :: 0 <= i < |s.fields| ==> Allowed(s.fields[i].name) && StrictField(s.fields[i])
  }

  ghost predicate StrictField(f: Field) {
    if IsMap(f.name) && f.value.Obj? then forall j :: 0 <= j < |f.value.fields| ==> Strict(f.value.fields[j].value)
    else if (f.name == "anyOf" || f.name == "items") && f.value.Arr? then
      forall j :: 0 <= j < |f.value.items| ==> Strict(f.value.items[j])
    else if f.name == "items" || f.name == "additionalProperties" then Strict(f.value)
    else true
  }

  lemma {:induction false} CleanIsStrict(s: Json)
    ensures Strict(Clean(s))
    decreases s
  {
    hide Allowed, CleanField, CleanFields, StrictField;
    if s.Obj? {
      var t := CleanFields(s.fields);
      forall i | 0 <= i < |t| ensures Allowed(t[i].name) && StrictField(t[i]) {
        var j := Source(s.fields, i);
        CleanKeepsName(s.fields[j]);
        FieldIsStrict(s.fields[j]);
      }
    }
  }

  lemma {:induction false} FieldIsStrict(f: Field)
    ensures StrictField(CleanField(f))
    decreases f
  {
    hide Clean, Strict;
    if IsMap(f.name) && f.value.Obj? {
      forall j | 0 <= j < |f.value.fields| ensures Strict(Clean(f.value.fields[j].value)) {
        CleanIsStrict(f.value.fields[j].value);
      }
    } else if (f.name == "anyOf" || f.name == "items") && f.value.Arr? {
      forall j | 0 <= j < |f.value.items| ensures Strict(Clean(f.value.items[j])) { CleanIsStrict(f.value.items[j]); }
    } else if f.name == "items" || f.name == "additionalProperties" {
      CleanIsArr(f.value);
      CleanIsStrict(f.value);
    }
  }

  /** A schema with nothing to remove stays as it is; no other schema does. */
  lemma {:induction false} StrictIsFixed(s: Json)
    ensures Strict(s) <==> Clean(s) == s
    decreases s
  {
    hide Allowed, CleanField, CleanFields, StrictField;
    if Strict(s) && s.Obj? {
      forall i | 0 <= i < |s.fields| ensures CleanField(s.fields[i]) == s.fields[i] { FieldIsFixed(s.fields[i]); }
      AllKept(s.fields);
    }
    CleanIsStrict(s);
  }

  lemma {:induction false} FieldIsFixed(f: Field)
    requires StrictField(f)
    ensures CleanField(f) == f
    decreases f
  {
    hide Clean, Strict;
    if IsMap(f.name) && f.value.Obj? {
      forall j | 0 <= j < |f.value.fields| ensures Clean(f.value.fields[j].value) == f.value.fields[j].value {
        StrictIsFixed(f.value.fields[j].value);
      }
      assert CleanField(f).value.fields == f.value.fields;
    } else if (f.name == "anyOf" || f.name == "items") && f.value.Arr? {
      forall j | 0 <= j < |f.value.items| ensures Clean(f.value.items[j]) == f.value.items[j] {
        StrictIsFixed(f.value.items[j]);
      }
      assert CleanField(f).value.items == f.value.items;
    } else if f.name == "items" || f.name == "additionalProperties" {
      StrictIsFixed(f.value);
    }
  }

  lemma {:induction false} AllKept(fields: seq<Field>)
    requires forall i :: 0 <= i < |fields| ==> Allowed(fields[i].name) && CleanField(fields[i]) == fields[i]
    ensures CleanFields(fields) == fields
  {
    hide Allowed, CleanField;
    if fields != [] { AllKept(fields[..|fields| - 1]); }
  }

  lemma {:induction false} CleanIsIdempotent(s: Json)
    ensures Clean(Clean(s)) == Clean(s)
  {
    hide Clean, Strict;
    CleanIsStrict(s);
    StrictIsFixed(Clean(s));
  }

  // ---- why the two clashes are excluded ----

  const ANY := Dialect((k, x, v) => true, (s, f, v) => true, (p, n) => true)

  function PatternSchema(): Json {
    Obj([Field("patternProperties", Null), Field("additionalProperties", Bool(false))])
  }

  lemma {:induction false} DropFirst(f: Field, g: Field)
    requires !Allowed(f.name) && Allowed(g.name)
    ensures Clean(Obj([f, g])) == Obj([CleanField(g)])
  {
    hide Allowed, CleanField;
    var fields := [f, g];
    assert fields[..1] == [f] && [f][..0] == [];
    assert CleanFields([f]) == [];
  }

  lemma {:induction false} PatternAdmits(k: nat)
    ensures Valid(ANY, k, PatternSchema(), PatternSchema(), Obj([Field("x", Null)]))
  {
    var s, v := PatternSchema(), Obj([Field("x", Null)]);
    assert Patterned(ANY, s.fields, "x") by { assert s.fields[0].name == "patternProperties"; }
  }

  lemma {:induction false} ClosedRejects(k: nat)
    ensures var t := Obj([Field("additionalProperties", Bool(false))]); !Valid(ANY, k, t, t, Obj([Field("x", Null)]))
  {
    var t, v := Obj([Field("additionalProperties", Bool(false))]), Obj([Field("x", Null)]);
    assert !Declared(t.fields, "x") && !Patterned(ANY, t.fields, "x");
    assert !Holds(ANY, k, t, t, t.fields[0], v) by { assert v.fields[0].name == "x"; }
  }

  /** Without its `patternProperties`, `additionalProperties: false` rejects what it let through. */
  lemma {:induction false} PatternClash(k: nat)
    ensures var v := Obj([Field("x", Null)]);
            Valid(ANY, k, PatternSchema(), PatternSchema(), v)
                && !Valid(ANY, k, Clean(PatternSchema()), Clean(PatternSchema()), v)
  {
    hide Valid;
    DropFirst(PatternSchema().fields[0], PatternSchema().fields[1]);
    PatternAdmits(k);
    ClosedRejects(k);
  }

  function PrefixSchema(): Json {
    Obj([Field("prefixItems", Arr([Bool(true)])), Field("items", Bool(false))])
  }

  lemma {:induction false} PrefixAdmits(k: nat)
    ensures Valid(ANY, k, PrefixSchema(), PrefixSchema(), Arr([Null]))
  {
    var s := PrefixSchema();
    assert Prefix(s.fields) == 1 by { assert s.fields[..1] == [s.fields[0]]; }
  }

  lemma {:induction false} EmptyRejects(k: nat)
    ensures var t := Obj([Field("items", Bool(false))]); !Valid(ANY, k, t, t, Arr([Null]))
  {
    var t, v := Obj([Field("items", Bool(false))]), Arr([Null]);
    assert Prefix(t.fields) == 0 by { assert t.fields[..0] == []; }
    assert !Holds(ANY, k, t, t, t.fields[0], v) by { assert !Valid(ANY, k, t, Bool(false), v.items[0]); }
  }

  /** Without its `prefixItems`, `items: false` rejects the elements that were positional. */
  lemma {:induction false} PrefixClash(k: nat)
    ensures var v := Arr([Null]);
            Valid(ANY, k, PrefixSchema(), PrefixSchema(), v)
                && !Valid(ANY, k, Clean(PrefixSchema()), Clean(PrefixSchema()), v)
  {
    hide Valid;
    DropFirst(PrefixSchema().fields[0], PrefixSchema().fields[1]);
    PrefixAdmits(k);
    EmptyRejects(k);
  }

  // ---- the function as it is written ----

  /** Fills the new dictionary field by field; nested schemas are cleaned by the same method. */
  method CleanForOpenAiStrict(node: Json) returns (cleaned: Json)
    ensures cleaned == Clean(node)
    decreases node
  {
    if !node.Obj? { return node; }
    var out: seq<Field> := [];
    for i := 0 to |node.fields|
      invariant out == CleanFields(node.fields[..i])
    {
      var f := node.fields[i];
      assert node.fields[..i + 1][..i] == node.fields[..i];
      if Allowed(f.name) {
        var value := CleanKeyword(f);
        out := out + [Field(f.name, value)];
      }
    }
    assert node.fields[..|node.fields|] == node.fields;
    return Obj(out);
  }

  method CleanKeyword(f: Field) returns (value: Json)
    ensures Field(f.name, value) == CleanField(f)
    decreases f
  {
    if IsMap(f.name) && f.value.Obj? {
      var entries: seq<Field> := [];
      for i := 0 to |f.value.fields|
        invariant |entries| == i
        invariant forall j :: 0 <= j < i ==> entries[j] == Field(f.value.fields[j].name, Clean(f.value.fields[j].value))
      {
        var s := CleanForOpenAiStrict(f.value.fields[i].value);
        entries := entries + [Field(f.value.fields[i].name, s)];
      }
      assert entries == CleanField(f).value.fields;
      return Obj(entries);
    } else if (f.name == "anyOf" || f.name == "items") && f.value.Arr? {
      var list: seq<Json> := [];
      for i := 0 to |f.value.items|
        invariant |list| == i
        invariant forall j :: 0 <= j < i ==> list[j] == Clean(f.value.items[j])
      {
        var s := CleanForOpenAiStrict(f.value.items[i]);
        list := list + [s];
      }
      assert list == CleanField(f).value.items;
      return Arr(list);
    } else if f.name == "items" || f.name == "additionalProperties" {
      value := CleanForOpenAiStrict(f.value);
    } else {
      value := f.value;
    }
  }
}
