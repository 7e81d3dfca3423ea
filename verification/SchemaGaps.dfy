/**
 Where the verdict of `schema_diff` says less than its guards: the changes it does not call
 breaking although instances are lost, each with the exact condition under which none is.
 */
module SchemaGaps {
  import opened Options
  import opened Orders
  import opened SchemaDiff
  import opened SchemaMeaning

  /** Every instance the first schema accepts, the second accepts. */
  ghost predicate Keeps(r: Reading, before: Json, after: Json)
    requires before.Obj? && after.Obj?
  {
    forall v :: Valid(r, before, v) ==> Valid(r, after, v)
  }

  function ConstSchema(x: Json): Json {
    Obj(map["const" := x])
  }

  /** `const` read as section 6.1.3 of the JSON Schema validation vocabulary reads it. */
  function ConstReading(): Reading {
    Reading((a: Assertions, v: Json) => "const" in a.exact ==> v == a.exact["const"], (t: Json, n: string) => false)
  }

  /** A schema object that says nothing but `properties`, `additionalProperties` and exact keywords. */
  ghost predicate Bare(o: Object) {
    && "type" !in o && "enum" !in o && "required" !in o && "$defs" !in o && "definitions" !in o && "items" !in o
    && forall k | k in ORDERED :: k !in o
  }

  lemma BareCompares(before: Json, after: Json, path: Path)
    requires before.Obj? && after.Obj? && Bare(before.fields) && Bare(after.fields)
    requires CompareProperties(before, after, path).Ok? && CompareAdditional(before, after, path).Ok?
    ensures CompareSchema(before, after, path).Ok?
  {
    ConstraintsAgree(before.fields, after.fields, path, ORDERED);
    AllParts(before, after, path, false);
  }

  lemma BareAlike(before: Json, after: Json)
    requires before.Obj? && after.Obj? && Bare(before.fields) && Bare(after.fields)
    requires AlikeNamed(before, after, "properties", false) && AlikeAdditional(before, after, false)
    ensures Alike(before, after, false) <==> forall k | k in EXACT :: SameKeyword(before.fields, after.fields, k)
  {
    assert AllAlike(before, map[], map[], {}, false);
  }

  lemma BareAccepts(r: Reading, schema: Json, v: Json)
    requires schema.Obj? && Bare(schema.fields)
    ensures Valid(r, schema, v)
      <==> r.holds(AssertionsOf(schema.fields), v)
           && (v.Obj? ==> forall k | k in v.fields :: ValidMember(r, schema, k, v.fields[k]))
  {
    NoLimits(schema.fields, v);
  }

  lemma NoLimits(o: Object, v: Json)
    requires forall k | k in ORDERED :: k !in o
    ensures ValidLimits(o, v)
  {
    VocabularyCompared();
    assert forall k | k in LIMITS :: Get(o, k).Null?;
  }

  /** A schema whose only keyword is `const`. */
  ghost predicate OnlyConst(schema: Json, x: Json) {
    && schema.Obj? && Bare(schema.fields)
    && "properties" !in schema.fields && Additional(schema.fields) == Bool(true)
    && "const" in EXACT && "const" in schema.fields && schema.fields["const"] == x
    && forall k | k in EXACT && k in schema.fields :: k == "const"
  }

  lemma ConstSchemaIs(x: Json)
    ensures OnlyConst(ConstSchema(x), x)
  {
    assert forall k | k in ORDERED :: k != "const";
    assert EXACT[1] == "const";
  }

  lemma ConstVerdict(before: Json, after: Json, x: Json, y: Json, path: Path)
    requires OnlyConst(before, x) && OnlyConst(after, y)
    ensures CompareSchema(before, after, path).Ok?
    ensures IsBreaking(CompareSchema(before, after, path).value) <==> !PyEq(x, y)
  {
    EmptyProperties(before, after, path);
    BareCompares(before, after, path);
    BareAlike(before, after);
    ConstExact(before, after, x, y);
    SchemaQuiet(before, after, path, false);
  }

  lemma ConstExact(before: Json, after: Json, x: Json, y: Json)
    requires OnlyConst(before, x) && OnlyConst(after, y)
    ensures (forall k | k in EXACT :: SameKeyword(before.fields, after.fields, k)) <==> PyEq(x, y)
  {
    assert SameKeyword(before.fields, after.fields, "const") <==> PyEq(x, y);
  }

  lemma EmptyProperties(before: Json, after: Json, path: Path)
    requires before.Obj? && after.Obj? && Bare(before.fields) && Bare(after.fields)
    requires "properties" !in before.fields && "properties" !in after.fields
    ensures CompareProperties(before, after, path).Ok? && AlikeNamed(before, after, "properties", false)
  {
  }

  lemma ConstAccepts(schema: Json, x: Json, v: Json)
    requires OnlyConst(schema, x)
    ensures Valid(ConstReading(), schema, v) <==> v == x
  {
    BareAccepts(ConstReading(), schema, v);
    assert AssertionsOf(schema.fields).exact["const"] == x;
  }

  /** A non-breaking change of `const` keeps the instances exactly when no boolean took the place of a number. */
  lemma ConstKeepsExactlyWhen(before: Json, after: Json, x: Json, y: Json, path: Path)
    requires OnlyConst(before, x) && OnlyConst(after, y)
    requires CompareSchema(before, after, path).Ok? && !IsBreaking(CompareSchema(before, after, path).value)
    ensures Keeps(ConstReading(), before, after) <==> SameKinds(x, y)
  {
    ConstVerdict(before, after, x, y, path);
    PyEqMeans(x, y);
    ConstAccepts(before, x, x);
    forall v ensures (Valid(ConstReading(), before, v) <==> v == x) && (Valid(ConstReading(), after, v) <==> v == y) {
      ConstAccepts(before, x, v);
      ConstAccepts(after, y, v);
    }
  }

  /** `const` moving from 1 to `true` is not reported, and the instance 1 is lost. */
  lemma ConstClash(path: Path)
    ensures CompareSchema(ConstSchema(Num(1.0)), ConstSchema(Bool(true)), path).Ok?
    ensures !IsBreaking(CompareSchema(ConstSchema(Num(1.0)), ConstSchema(Bool(true)), path).value)
    ensures !Keeps(ConstReading(), ConstSchema(Num(1.0)), ConstSchema(Bool(true)))
  {
    ConstSchemaIs(Num(1.0));
    ConstSchemaIs(Bool(true));
    ConstVerdict(ConstSchema(Num(1.0)), ConstSchema(Bool(true)), Num(1.0), Bool(true), path);
    ConstKeepsExactlyWhen(ConstSchema(Num(1.0)), ConstSchema(Bool(true)), Num(1.0), Bool(true), path);
  }

  /** An object schema whose only keyword is `additionalProperties`. */
  ghost predicate OnlyPolicy(schema: Json, open: bool) {
    && schema.Obj? && Bare(schema.fields)
    && "properties" !in schema.fields && Additional(schema.fields) == Bool(open)
    && forall k | k in EXACT :: k !in schema.fields
  }

  /** The same with one property, described by its type alone. */
  ghost predicate OnlyProperty(schema: Json, open: bool, name: string, type_: string) {
    && schema.Obj? && Bare(schema.fields)
    && Additional(schema.fields) == Bool(open)
    && (forall k | k in EXACT :: k !in schema.fields)
    && SchemaMap(Get(schema.fields, "properties")) == Ok(map[name := Obj(map["type" := Str(type_)])])
  }

  /** Optional properties may be gained, whatever their schemas, without a breaking change. */
  lemma GainVerdict(before: Json, after: Json, open: bool, path: Path)
    requires OnlyPolicy(before, open)
    requires after.Obj? && Bare(after.fields) && Additional(after.fields) == Bool(open)
    requires forall k | k in EXACT :: k !in after.fields
    requires SchemaMap(Get(after.fields, "properties")).Ok?
    ensures CompareSchema(before, after, path).Ok? && !IsBreaking(CompareSchema(before, after, path).value)
  {
    GainedProperty(before, after, path);
    BareCompares(before, after, path);
    BareAlike(before, after);
    SchemaQuiet(before, after, path, false);
  }

  lemma GainedProperty(before: Json, after: Json, path: Path)
    requires before.Obj? && after.Obj? && Bare(before.fields) && Bare(after.fields)
    requires "properties" !in before.fields && SchemaMap(Get(after.fields, "properties")).Ok?
    ensures CompareProperties(before, after, path).Ok? && AlikeNamed(before, after, "properties", false)
  {
    var was, now := SchemaMap(Get(before.fields, "properties")).value, SchemaMap(Get(after.fields, "properties")).value;
    assert was.Keys * now.Keys == {};
    assert InOrder(was.Keys * now.Keys) == [];
  }

  function PlainReading(): Reading {
    Reading((a: Assertions, v: Json) => true, (t: Json, n: string) => false)
  }

  lemma PolicyAccepts(schema: Json, open: bool, v: Json)
    requires OnlyPolicy(schema, open)
    ensures Valid(PlainReading(), schema, v) <==> (v.Obj? && v.fields != map[] ==> open)
  {
    BareAccepts(PlainReading(), schema, v);
    if v.Obj? && v.fields != map[] {
      var k :| k in v.fields;
      assert ValidMember(PlainReading(), schema, k, v.fields[k]) <==> open;
    }
  }

  lemma PropertyRejects(schema: Json, name: string, type_: string, v: Json)
    requires OnlyProperty(schema, true, name, type_)
    requires v.Obj? && name in v.fields && !HasType(v.fields[name], type_)
    ensures !Valid(PlainReading(), schema, v)
  {
    var inner := map["type" := Str(type_)];
    assert Types(Get(inner, "type")) == Ok(Some({type_}));
    assert !ValidType(inner, v.fields[name]);
    assert !ValidMember(PlainReading(), schema, name, v.fields[name]);
  }

  /** Gaining an optional typed property keeps the instances exactly when the baseline was closed. */
  lemma GainKeepsExactlyWhenClosed(before: Json, after: Json, open: bool, name: string, type_: string)
    requires OnlyPolicy(before, open) && OnlyProperty(after, open, name, type_)
    ensures Keeps(PlainReading(), before, after) <==> !open
  {
    if open {
      var v := Obj(map[name := if type_ == "null" then Bool(true) else Null]);
      PolicyAccepts(before, open, v);
      PropertyRejects(after, name, type_, v);
    } else {
      forall v | Valid(PlainReading(), before, v) ensures Valid(PlainReading(), after, v) {
        PolicyAccepts(before, open, v);
        BareAccepts(PlainReading(), after, v);
      }
    }
  }

  function PolicySchema(open: bool): Json {
    Obj(map["additionalProperties" := Bool(open)])
  }

  function PropertySchema(open: bool, name: string, type_: string): Json {
    Obj(map["additionalProperties" := Bool(open), "properties" := Obj(map[name := Obj(map["type" := Str(type_)])])])
  }

  lemma PolicySchemaIs(open: bool)
    ensures OnlyPolicy(PolicySchema(open), open)
  {
    assert forall k | k in ORDERED :: k != "additionalProperties";
    assert forall k | k in EXACT :: k != "additionalProperties";
  }

  lemma TableKeywords()
    ensures forall k | k in ORDERED :: k != "additionalProperties" && k != "properties"
    ensures forall k | k in EXACT :: k != "additionalProperties" && k != "properties"
  {
  }

  lemma PropertySchemaIs(open: bool, name: string, type_: string)
    ensures OnlyProperty(PropertySchema(open, name, type_), open, name, type_)
  {
    TableKeywords();
    PropertyShape(PropertySchema(open, name, type_).fields, open, map[name := Obj(map["type" := Str(type_)])]);
  }

  lemma PropertyShape(o: Object, open: bool, properties: Object)
    requires o == map["additionalProperties" := Bool(open), "properties" := Obj(properties)]
    requires forall k | k in ORDERED :: k != "additionalProperties" && k != "properties"
    requires forall k | k in EXACT :: k != "additionalProperties" && k != "properties"
    requires forall k | k in properties :: properties[k].Obj?
    ensures Bare(o) && Additional(o) == Bool(open) && forall k | k in EXACT :: k !in o
    ensures SchemaMap(Get(o, "properties")) == Ok(properties)
  {
  }

  /**
   An open object that gains the optional property `p` of type string is not reported as broken, and
   loses `{"p": null}`.
   */
  lemma GainClash(path: Path)
    ensures CompareSchema(PolicySchema(true), PropertySchema(true, "p", "string"), path).Ok?
    ensures !IsBreaking(CompareSchema(PolicySchema(true), PropertySchema(true, "p", "string"), path).value)
    ensures !Keeps(PlainReading(), PolicySchema(true), PropertySchema(true, "p", "string"))
  {
    PolicySchemaIs(true);
    PropertySchemaIs(true, "p", "string");
    GainVerdict(PolicySchema(true), PropertySchema(true, "p", "string"), true, path);
    GainKeepsExactlyWhenClosed(PolicySchema(true), PropertySchema(true, "p", "string"), true, "p", "string");
  }

  /** `items: null` is reported as a change against itself. */
  lemma NullItemsDiffer(path: Path)
    ensures CompareSchema(Obj(map["items" := Null]), Obj(map["items" := Null]), path) != Ok([])
  {
    SelfCompare(Obj(map["items" := Null]), path);
  }

  // ----- references

  function RefTo(name: string): Json {
    Str("#/$defs/" + name)
  }

  /** A document that says one thing, by reference to its only definition, plainly or under `not`. */
  ghost predicate OnlyRef(schema: Json, name: string, definition: Json, negated: bool) {
    && schema.Obj? && definition.Obj?
    && RefShell(schema.fields)
    && SchemaMap(Get(schema.fields, "$defs")) == Ok(map[name := definition])
    && var keyword := if negated then "not" else "$ref";
       && keyword in EXACT && keyword in schema.fields
       && schema.fields[keyword] == (if negated then Obj(map["$ref" := RefTo(name)]) else RefTo(name))
       && forall k | k in EXACT && k in schema.fields :: k == keyword
  }

  ghost predicate RefShell(o: Object) {
    && "type" !in o && "enum" !in o && "required" !in o && "properties" !in o && "definitions" !in o && "items" !in o
    && Additional(o) == Bool(true)
    && forall k | k in ORDERED :: k !in o
  }

  /** The reading of such a document: its reference means its definition. */
  function Resolving(name: string, definition: Json): Reading
    requires definition.Obj?
  {
    Reading(
      (a: Assertions, v: Json) =>
        && ("$ref" in a.exact && a.exact["$ref"] == RefTo(name) ==> Valid(PlainReading(), definition, v))
        && ("not" in a.exact && a.exact["not"] == Obj(map["$ref" := RefTo(name)]) ==>
            !Valid(PlainReading(), definition, v)),
      (t: Json, n: string) => false)
  }

  /** Readings of this kind differ only in what the reference means, so the soundness theorem is about them too. */
  lemma ResolvingDiffersInRefs(name: string, d: Json, e: Json)
    requires d.Obj? && e.Obj?
    ensures SameButRefs(Resolving(name, d), Resolving(name, e))
  {
    forall a, v | RefFree(a) ensures Resolving(name, d).holds(a, v) && Resolving(name, e).holds(a, v) {
      if "not" in a.exact {
        assert NoRefs(a.exact["not"]);
        assert !NoRefs(Obj(map["$ref" := RefTo(name)]));
      }
    }
  }

  lemma {:induction false} NamedComparable(before: Json, was: Object, now: Object, path: Path, names: seq<string>)
    requires before.Obj? && forall n | n in names ::
      n in was && n in now && was[n].Obj? && now[n].Obj? && was[n] < before
    requires forall n | n in names :: CompareSchema(was[n], now[n], path + [n]).Ok?
    ensures CompareNamed(before, was, now, path, names).Ok?
  {
    if names != [] {
      assert names[0] in names && forall n | n in names[1..] :: n in names;
      NamedComparable(before, was, now, path, names[1..]);
    }
  }

  lemma DefinitionCompares(before: Json, after: Json, name: string, d: Json, e: Json, path: Path)
    requires before.Obj? && after.Obj? && d.Obj? && e.Obj?
    requires SchemaMap(Get(before.fields, "$defs")) == Ok(map[name := d])
    requires SchemaMap(Get(after.fields, "$defs")) == Ok(map[name := e])
    requires CompareSchema(d, e, path + ["$defs"] + [name]).Ok?
    ensures CompareDefinitions(before, after, path, "$defs").Ok?
  {
    var was, now := map[name := d], map[name := e];
    assert was.Keys == {name} && now.Keys == {name};
    NamedComparable(before, was, now, path + ["$defs"], InOrder(was.Keys * now.Keys));
  }

  lemma RefCompares(before: Json, after: Json, name: string, d: Json, e: Json, negated: bool, path: Path)
    requires OnlyRef(before, name, d, negated) && OnlyRef(after, name, e, negated)
    requires CompareSchema(d, e, path + ["$defs"] + [name]).Ok?
    ensures CompareSchema(before, after, path).Ok?
  {
    DefinitionCompares(before, after, name, d, e, path);
    ShellCompares(before, after, path);
  }

  lemma ShellCompares(before: Json, after: Json, path: Path)
    requires before.Obj? && after.Obj? && RefShell(before.fields) && RefShell(after.fields)
    requires CompareDefinitions(before, after, path, "$defs").Ok?
    ensures CompareSchema(before, after, path).Ok?
  {
    NoTables(before, after, path);
    ShellParts(before, after, path);
    AllParts(before, after, path, false);
  }

  lemma ShellParts(before: Json, after: Json, path: Path)
    requires before.Obj? && after.Obj? && RefShell(before.fields) && RefShell(after.fields)
    ensures CompareType(before.fields, after.fields, path).Ok? && CompareEnum(before.fields, after.fields, path).Ok?
    ensures CompareConstraints(before.fields, after.fields, path, ORDERED).Ok?
    ensures CompareAdditional(before, after, path).Ok? && CompareItems(before, after, path).Ok?
  {
    ConstraintsAgree(before.fields, after.fields, path, ORDERED);
  }

  lemma NoTables(before: Json, after: Json, path: Path)
    requires before.Obj? && after.Obj? && RefShell(before.fields) && RefShell(after.fields)
    ensures CompareProperties(before, after, path).Ok? && CompareDefinitions(before, after, path, "definitions").Ok?
    ensures AlikeNamed(before, after, "properties", false) && AlikeNamed(before, after, "definitions", false)
  {
  }

  lemma DefinitionAlike(before: Json, after: Json, name: string, d: Json, e: Json)
    requires before.Obj? && after.Obj? && d.Obj? && e.Obj?
    requires SchemaMap(Get(before.fields, "$defs")) == Ok(map[name := d])
    requires SchemaMap(Get(after.fields, "$defs")) == Ok(map[name := e])
    ensures AlikeNamed(before, after, "$defs", false) <==> Alike(d, e, false)
  {
    var was, now := map[name := d], map[name := e];
    assert was.Keys == {name} && now.Keys == {name};
    assert name in was && was[name] == d && now[name] == e;
  }

  lemma RefAlike(before: Json, after: Json, name: string, d: Json, e: Json, negated: bool)
    requires OnlyRef(before, name, d, negated) && OnlyRef(after, name, e, negated)
    ensures Alike(before, after, false) <==> Alike(d, e, false)
  {
    NoTables(before, after, []);
    DefinitionAlike(before, after, name, d, e);
    RefKeywords(before.fields, after.fields, if negated then "not" else "$ref");
    ShellAlike(before, after);
  }

  lemma ShellAlike(before: Json, after: Json)
    requires before.Obj? && after.Obj? && RefShell(before.fields) && RefShell(after.fields)
    requires AlikeNamed(before, after, "properties", false) && AlikeNamed(before, after, "definitions", false)
    requires forall k | k in EXACT :: SameKeyword(before.fields, after.fields, k)
    requires forall k | k in ORDERED :: PyEq(Get(before.fields, k), Get(after.fields, k))
    ensures Alike(before, after, false) <==> AlikeNamed(before, after, "$defs", false)
  {
    ShellPlain(before, after);
  }

  lemma ShellPlain(before: Json, after: Json)
    requires before.Obj? && after.Obj? && RefShell(before.fields) && RefShell(after.fields)
    ensures Types(Get(after.fields, "type")) == Types(Get(before.fields, "type"))
    ensures EnumValues(Get(after.fields, "enum")) == EnumValues(Get(before.fields, "enum"))
    ensures AlikeRequired(before.fields, after.fields)
    ensures AlikeAdditional(before, after, false) && AlikeItems(before, after, false)
  {
  }

  lemma RefKeywords(b: Object, a: Object, keyword: string)
    requires keyword in b && keyword in a && b[keyword] == a[keyword]
    requires (forall k | k in EXACT && k in b :: k == keyword) && (forall k | k in EXACT && k in a :: k == keyword)
    requires (forall k | k in ORDERED :: k !in b) && (forall k | k in ORDERED :: k !in a)
    ensures (forall k | k in EXACT :: SameKeyword(b, a, k)) && (forall k | k in ORDERED :: PyEq(Get(b, k), Get(a, k)))
  {
    PyEqReflexive(b[keyword]);
  }

  /** Such a document is reported as broken exactly when its definition is. */
  lemma RefVerdict(before: Json, after: Json, name: string, d: Json, e: Json, negated: bool, path: Path)
    requires OnlyRef(before, name, d, negated) && OnlyRef(after, name, e, negated)
    requires CompareSchema(d, e, path + ["$defs"] + [name]).Ok?
    ensures CompareSchema(before, after, path).Ok?
    ensures IsBreaking(CompareSchema(before, after, path).value) <==>
      IsBreaking(CompareSchema(d, e, path + ["$defs"] + [name]).value)
  {
    RefCompares(before, after, name, d, e, negated, path);
    RefAlike(before, after, name, d, e, negated);
    SchemaQuiet(before, after, path, false);
    SchemaQuiet(d, e, path + ["$defs"] + [name], false);
  }

  lemma RefHolds(o: Object, name: string, definition: Json, negated: bool, v: Json)
    requires definition.Obj? && OnlyRef(Obj(o), name, definition, negated)
    ensures Resolving(name, definition).holds(AssertionsOf(o), v) <==> Valid(PlainReading(), definition, v) != negated
  {
    var a := AssertionsOf(o);
    assert negated ==> "$ref" !in a.exact && a.exact["not"] == Obj(map["$ref" := RefTo(name)]);
    assert !negated ==> "not" !in a.exact && a.exact["$ref"] == RefTo(name);
  }

  lemma ShellAccepts(r: Reading, schema: Json, v: Json)
    requires schema.Obj? && RefShell(schema.fields)
    ensures Valid(r, schema, v) <==> r.holds(AssertionsOf(schema.fields), v)
  {
    NoLimits(schema.fields, v);
    if v.Obj? {
      forall k | k in v.fields ensures ValidMember(r, schema, k, v.fields[k]) {
      }
    }
  }

  lemma RefAccepts(schema: Json, name: string, definition: Json, negated: bool, v: Json)
    requires OnlyRef(schema, name, definition, negated)
    ensures Valid(Resolving(name, definition), schema, v) <==> Valid(PlainReading(), definition, v) != negated
  {
    RefHolds(schema.fields, name, definition, negated, v);
    ShellAccepts(Resolving(name, definition), schema, v);
  }

  /** Every instance the first document accepts under its reading, the second accepts under its own. */
  ghost predicate KeepsAcross(r: Reading, before: Json, q: Reading, after: Json)
    requires before.Obj? && after.Obj?
  {
    forall v :: Valid(r, before, v) ==> Valid(q, after, v)
  }

  lemma KeptInstance(r: Reading, before: Json, q: Reading, after: Json, v: Json)
    requires before.Obj? && after.Obj? && KeepsAcross(r, before, q, after) && Valid(r, before, v)
    ensures Valid(q, after, v)
  {
  }

  /**
   What a reference keeps is what its definition keeps; under `not` it is the other way round, so there
   every instance the definition gains is lost.
   */
  lemma RefKeepsExactlyWhen(before: Json, after: Json, name: string, d: Json, e: Json, negated: bool)
    requires OnlyRef(before, name, d, negated) && OnlyRef(after, name, e, negated)
    ensures KeepsAcross(Resolving(name, d), before, Resolving(name, e), after)
      <==> if negated then Keeps(PlainReading(), e, d) else Keeps(PlainReading(), d, e)
  {
    if KeepsAcross(Resolving(name, d), before, Resolving(name, e), after) {
      RefKeepsDefinition(before, after, name, d, e, negated);
    }
    if if negated then Keeps(PlainReading(), e, d) else Keeps(PlainReading(), d, e) {
      DefinitionKeepsRef(before, after, name, d, e, negated);
    }
  }

  lemma RefKeepsDefinition(before: Json, after: Json, name: string, d: Json, e: Json, negated: bool)
    requires OnlyRef(before, name, d, negated) && OnlyRef(after, name, e, negated)
    requires KeepsAcross(Resolving(name, d), before, Resolving(name, e), after)
    ensures if negated then Keeps(PlainReading(), e, d) else Keeps(PlainReading(), d, e)
  {
    var r := PlainReading();
    forall v ensures if negated then Valid(r, e, v) ==> Valid(r, d, v) else Valid(r, d, v) ==> Valid(r, e, v) {
      RefAccepts(before, name, d, negated, v);
      RefAccepts(after, name, e, negated, v);
      if Valid(Resolving(name, d), before, v) {
        KeptInstance(Resolving(name, d), before, Resolving(name, e), after, v);
      }
    }
  }

  lemma DefinitionKeepsRef(before: Json, after: Json, name: string, d: Json, e: Json, negated: bool)
    requires OnlyRef(before, name, d, negated) && OnlyRef(after, name, e, negated)
    requires if negated then Keeps(PlainReading(), e, d) else Keeps(PlainReading(), d, e)
    ensures KeepsAcross(Resolving(name, d), before, Resolving(name, e), after)
  {
    forall v | Valid(Resolving(name, d), before, v) ensures Valid(Resolving(name, e), after, v) {
      RefAccepts(before, name, d, negated, v);
      RefAccepts(after, name, e, negated, v);
    }
  }

  function RefSchema(name: string, definition: Json, negated: bool): Json {
    if negated then Obj(map["not" := Obj(map["$ref" := RefTo(name)]), "$defs" := Obj(map[name := definition])])
    else Obj(map["$ref" := RefTo(name), "$defs" := Obj(map[name := definition])])
  }

  lemma RefSchemaIs(name: string, definition: Json, negated: bool)
    requires definition.Obj?
    ensures OnlyRef(RefSchema(name, definition, negated), name, definition, negated)
  {
    KeywordsApart();
  }

  lemma KeywordsApart()
    ensures forall k | k in ORDERED :: k != "$ref" && k != "$defs" && k != "not"
    ensures forall k | k in EXACT :: k != "$defs"
    ensures "$ref" in EXACT && "not" in EXACT
  {
    assert EXACT[0] == "$ref" && EXACT[|EXACT| - 1] == "not";
  }

  /**
   A closed definition that gains a property keeps all its own instances, but a document that refers to
   it under `not` loses one, and the report has no breaking change.
   */
  lemma NegatedGainLoses(before: Json, after: Json, name: string, d: Json, e: Json, property: string, type_: string,
                         x: Json, path: Path)
    requires OnlyRef(before, name, d, true) && OnlyRef(after, name, e, true)
    requires OnlyPolicy(d, false) && OnlyProperty(e, false, property, type_) && HasType(x, type_)
    ensures CompareSchema(before, after, path).Ok? && !IsBreaking(CompareSchema(before, after, path).value)
    ensures !KeepsAcross(Resolving(name, d), before, Resolving(name, e), after)
  {
    GainVerdict(d, e, false, path + ["$defs"] + [name]);
    RefVerdict(before, after, name, d, e, true, path);
    RefKeepsExactlyWhen(before, after, name, d, e, true);
    GainWidens(d, e, property, type_, x);
  }

  lemma GainWidens(d: Json, e: Json, property: string, type_: string, x: Json)
    requires OnlyPolicy(d, false) && OnlyProperty(e, false, property, type_) && HasType(x, type_)
    ensures !Keeps(PlainReading(), e, d)
  {
    var v := Obj(map[property := x]);
    PolicyAccepts(d, false, v);
    PropertyAccepts(e, property, type_, v);
  }

  /** A reference to an open definition that gains a typed property loses what the definition loses. */
  lemma ReferredGainLoses(before: Json, after: Json, name: string, d: Json, e: Json, property: string, type_: string,
                          path: Path)
    requires OnlyRef(before, name, d, false) && OnlyRef(after, name, e, false)
    requires OnlyPolicy(d, true) && OnlyProperty(e, true, property, type_)
    ensures CompareSchema(before, after, path).Ok? && !IsBreaking(CompareSchema(before, after, path).value)
    ensures !KeepsAcross(Resolving(name, d), before, Resolving(name, e), after)
  {
    GainVerdict(d, e, true, path + ["$defs"] + [name]);
    RefVerdict(before, after, name, d, e, false, path);
    RefKeepsExactlyWhen(before, after, name, d, e, false);
    GainKeepsExactlyWhenClosed(d, e, true, property, type_);
  }

  /** For instance `$ref` to an open definition that gains the property `p`, of type string. */
  lemma OpenRefClash(path: Path)
    ensures var d, e := PolicySchema(true), PropertySchema(true, "p", "string");
            var before, after := RefSchema("X", d, false), RefSchema("X", e, false);
            && CompareSchema(before, after, path).Ok? && !IsBreaking(CompareSchema(before, after, path).value)
            && !KeepsAcross(Resolving("X", d), before, Resolving("X", e), after)
  {
    var d, e := PolicySchema(true), PropertySchema(true, "p", "string");
    PolicySchemaIs(true);
    PropertySchemaIs(true, "p", "string");
    RefSchemaIs("X", d, false);
    RefSchemaIs("X", e, false);
    ReferredGainLoses(RefSchema("X", d, false), RefSchema("X", e, false), "X", d, e, "p", "string", path);
  }

  /** For instance `not` of a definition that gains the property `p`, of type string: `{"p": ""}` is lost. */
  lemma RefClash(path: Path)
    ensures var d, e := PolicySchema(false), PropertySchema(false, "p", "string");
            var before, after := RefSchema("X", d, true), RefSchema("X", e, true);
            && CompareSchema(before, after, path).Ok? && !IsBreaking(CompareSchema(before, after, path).value)
            && !KeepsAcross(Resolving("X", d), before, Resolving("X", e), after)
  {
    var d, e := PolicySchema(false), PropertySchema(false, "p", "string");
    PolicySchemaIs(false);
    PropertySchemaIs(false, "p", "string");
    RefSchemaIs("X", d, true);
    RefSchemaIs("X", e, true);
    NegatedGainLoses(RefSchema("X", d, true), RefSchema("X", e, true), "X", d, e, "p", "string", Str(""), path);
  }

  lemma PropertyAccepts(schema: Json, name: string, type_: string, v: Json)
    requires OnlyProperty(schema, false, name, type_)
    requires v.Obj? && v.fields.Keys == {name} && HasType(v.fields[name], type_)
    ensures Valid(PlainReading(), schema, v)
  {
    BareAccepts(PlainReading(), schema, v);
    TypeAccepts(type_, v.fields[name]);
  }

  lemma TypeAccepts(type_: string, x: Json)
    requires HasType(x, type_)
    ensures Valid(PlainReading(), Obj(map["type" := Str(type_)]), x)
  {
    var inner := map["type" := Str(type_)];
    assert Types(Get(inner, "type")) == Ok(Some({type_}));
    assert ValidType(inner, x);
  }
}
