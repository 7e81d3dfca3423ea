/**
 What the verdict of `schema_diff` means for instances. `Valid` is JSON Schema validation
 (the draft 2020-12 vocabulary); the keywords the comparison treats as opaque are read by an
 arbitrary `Reading`. Each document has a reading of its own, because a reference means what
 the definitions of its document say; the two agree on keywords that hold no reference.
 */
module SchemaMeaning {
  import opened Options
  import opened Orders
  import opened SchemaDiff

  // ----- validation

  /** The numeric limits of section 6 of the validation vocabulary. */
  const LIMITS: set<string> := {
    "minimum", "maximum", "exclusiveMinimum", "exclusiveMaximum", "minLength", "maxLength",
    "minItems", "maxItems", "minProperties", "maxProperties", "minContains", "maxContains"}

  /** The other keywords with which a schema object can reject an instance and that are not modelled below. */
  const OPAQUE: set<string> := WHOLE + {"$dynamicRef"}

  const WHOLE: set<string> := {
    "$ref", "const", "multipleOf", "pattern", "format", "uniqueItems", "contains", "prefixItems",
    "additionalItems", "unevaluatedItems", "patternProperties", "propertyNames", "unevaluatedProperties",
    "dependentRequired", "dependentSchemas", "if", "then", "else", "allOf", "anyOf", "oneOf", "not"}

  /** What such keywords of one object say; the two counts belong to `contains`. */
  datatype Assertions = Assertions(minContains: Json, maxContains: Json, exact: map<string, Json>)

  function AssertionsOf(o: Object): Assertions {
    Assertions(Get(o, "minContains"), Get(o, "maxContains"), map k | k in OPAQUE && k in o :: o[k])
  }

  /** A reading of those keywords, and of which names a `patternProperties` table matches. */
  datatype Reading = Reading(holds: (Assertions, Json) -> bool, matches: (Json, string) -> bool)

  /** No object inside the value refers elsewhere. */
  predicate NoRefs(j: Json) {
    match j
    case Arr(items) => forall i | 0 <= i < |items| :: NoRefs(items[i])
    case Obj(f) => "$ref" !in f && "$dynamicRef" !in f && forall k | k in f :: NoRefs(f[k])
    case _ => true
  }

  predicate RefFree(a: Assertions) {
    "$ref" !in a.exact && "$dynamicRef" !in a.exact && forall k | k in a.exact :: NoRefs(a.exact[k])
  }

  /** The readings of two documents differ at most where a reference is followed. */
  ghost predicate SameButRefs(r: Reading, q: Reading) {
    && (forall a, v | RefFree(a) :: r.holds(a, v) == q.holds(a, v))
    && (forall t, n :: r.matches(t, n) == q.matches(t, n))
  }

  predicate HasType(v: Json, name: string) {
    match v
    case Null => name == "null"
    case Bool(_) => name == "boolean"
    case Num(n) => name == "number" || (name == "integer" && n.Floor as real == n)
    case Str(_) => name == "string"
    case Arr(_) => name == "array"
    case Obj(_) => name == "object"
  }

  predicate ValidType(o: Object, v: Json) {
    match Get(o, "type")
    case Str(name) => HasType(v, name)
    case Arr(names) => exists i | 0 <= i < |names| :: names[i].Str? && HasType(v, names[i].s)
    case _ => true
  }

  predicate ValidEnum(o: Object, v: Json) {
    match Get(o, "enum")
    case Arr(values) => v in values
    case _ => true
  }

  predicate ValidRequired(o: Object, v: Json) {
    match Get(o, "required")
    case Arr(names) => v.Obj? ==> forall i | 0 <= i < |names| && names[i].Str? :: names[i].s in v.fields
    case _ => true
  }

  predicate AtLeast(limit: Json, n: real) { limit.Num? ==> limit.n <= n }

  predicate AtMost(limit: Json, n: real) { limit.Num? ==> n <= limit.n }

  predicate Above(limit: Json, n: real) { limit.Num? ==> limit.n < n }

  predicate Below(limit: Json, n: real) { limit.Num? ==> n < limit.n }

  predicate Counted(o: Object, least: string, most: string, size: nat) {
    AtLeast(Get(o, least), size as real) && AtMost(Get(o, most), size as real)
  }

  predicate ValidLimits(o: Object, v: Json) {
    match v
    case Num(n) =>
      && AtLeast(Get(o, "minimum"), n) && AtMost(Get(o, "maximum"), n)
      && Above(Get(o, "exclusiveMinimum"), n) && Below(Get(o, "exclusiveMaximum"), n)
    case Str(s) => Counted(o, "minLength", "maxLength", |s|)
    case Arr(items) => Counted(o, "minItems", "maxItems", |items|)
    case Obj(f) => Counted(o, "minProperties", "maxProperties", |f|)
    case _ => true
  }

  predicate Valid(r: Reading, schema: Json, v: Json)
    requires schema.Obj?
    decreases schema, 1
  {
    var o := schema.fields;
    && ValidType(o, v)
    && ValidEnum(o, v)
    && ValidRequired(o, v)
    && ValidLimits(o, v)
    && r.holds(AssertionsOf(o), v)
    && (v.Obj? ==> forall k | k in v.fields :: ValidMember(r, schema, k, v.fields[k]))
    && (v.Arr? && Get(o, "items").Obj? ==>
          forall i | PrefixLength(o) <= i < |v.items| :: Valid(r, Get(o, "items"), v.items[i]))
  }

  /** A member is checked by its own property schema, or by `additionalProperties` if no pattern matches it. */
  predicate ValidMember(r: Reading, schema: Json, name: string, x: Json)
    requires schema.Obj?
    decreases schema, 0, 1
  {
    var properties := Get(schema.fields, "properties");
    if properties.Obj? && name in properties.fields && properties.fields[name].Obj?
    then Valid(r, properties.fields[name], x)
    else ValidOther(r, schema, name, x)
  }

  predicate ValidOther(r: Reading, schema: Json, name: string, x: Json)
    requires schema.Obj?
    decreases schema, 0, 0
  {
    var o := schema.fields;
    if "patternProperties" in o && r.matches(o["patternProperties"], name) then true
    else
      match Get(o, "additionalProperties")
      case Bool(b) => b
      case Obj(_) => Valid(r, Get(o, "additionalProperties"), x)
      case _ => true
  }

  /** `items` applies after the positions that `prefixItems` describes. */
  function PrefixLength(o: Object): nat {
    if Get(o, "prefixItems").Arr? then |Get(o, "prefixItems").items| else 0
  }

  // ----- Python equality against JSON equality

  /** No boolean of one value faces a number of the other. */
  predicate SameKinds(a: Json, b: Json) {
    && (a.Bool? <==> b.Bool?)
    && (a.Arr? && b.Arr? && |a.items| == |b.items| ==>
        forall i | 0 <= i < |a.items| :: SameKinds(a.items[i], b.items[i]))
    && (a.Obj? && b.Obj? ==> forall k | k in a.fields && k in b.fields :: SameKinds(a.fields[k], b.fields[k]))
  }

  /** Values Python calls equal are the same JSON value exactly when no boolean faces a number. */
  lemma {:induction false} PyEqMeans(a: Json, b: Json)
    requires PyEq(a, b)
    ensures a == b <==> SameKinds(a, b)
  {
    match a
    case Arr(xs) =>
      forall i | 0 <= i < |xs| ensures xs[i] == b.items[i] <==> SameKinds(xs[i], b.items[i]) {
        PyEqMeans(xs[i], b.items[i]);
      }
      if SameKinds(a, b) {
        assert xs == b.items;
      }
    case Obj(f) =>
      forall k | k in f ensures f[k] == b.fields[k] <==> SameKinds(f[k], b.fields[k]) {
        PyEqMeans(f[k], b.fields[k]);
      }
      if SameKinds(a, b) {
        assert f == b.fields;
      }
    case _ =>
  }

  // ----- soundness

  /**
   What a caller has to look at besides the report: no boolean stands where the other document has
   a number, nothing is said by reference, no keyword depends on which members were evaluated, and a
   property is gained only by an object that the baseline closed.
   */
  ghost predicate Guarded(before: Json, after: Json)
    requires before.Obj? && after.Obj?
    decreases before, 1
  {
    var b, a := before.fields, after.fields;
    && (forall k | k in LIMITS :: SameKinds(Get(b, k), Get(a, k)))
    && (forall k | k in OPAQUE :: SameKinds(Get(b, k), Get(a, k)))
    && SameKinds(Additional(b), Additional(a))
    && RefFree(AssertionsOf(b)) && NoRefs(Additional(b)) && "$dynamicRef" !in b && "$dynamicRef" !in a
    && "unevaluatedItems" !in b && "unevaluatedProperties" !in b
    && GuardedProperties(before, after)
    && (Get(b, "items").Obj? && Get(a, "items").Obj? ==> Guarded(Get(b, "items"), Get(a, "items")))
  }

  ghost predicate GuardedProperties(before: Json, after: Json)
    requires before.Obj? && after.Obj?
    decreases before, 0
  {
    var was, now := SchemaMap(Get(before.fields, "properties")), SchemaMap(Get(after.fields, "properties"));
    was.Ok? && now.Ok? ==>
      && (now.value.Keys <= was.value.Keys
          || (Additional(before.fields) == Bool(false) && "patternProperties" !in before.fields))
      && forall n | n in was.value && n in now.value :: Guarded(was.value[n], now.value[n])
  }

  /** The comparison looks at every keyword that can reject an instance, except `$dynamicRef`. */
  lemma VocabularyCompared()
    ensures forall k :: k in ORDERED <==> k in LIMITS
    ensures forall k :: k in EXACT <==> k in WHOLE
  {
    assert ORDERED[0] == "minimum";
    assert ORDERED[1] == "exclusiveMinimum";
    assert ORDERED[2] == "minLength";
    assert ORDERED[3] == "minItems";
    assert ORDERED[4] == "minProperties";
    assert ORDERED[5] == "minContains";
    assert ORDERED[6] == "maximum";
    assert ORDERED[7] == "exclusiveMaximum";
    assert ORDERED[8] == "maxLength";
    assert ORDERED[9] == "maxItems";
    assert ORDERED[10] == "maxProperties";
    assert ORDERED[11] == "maxContains";
    assert EXACT[0] == "$ref";
    assert EXACT[1] == "const";
    assert EXACT[2] == "pattern";
    assert EXACT[3] == "format";
    assert EXACT[4] == "multipleOf";
    assert EXACT[5] == "uniqueItems";
    assert EXACT[6] == "contains";
    assert EXACT[7] == "patternProperties";
    assert EXACT[8] == "if";
    assert EXACT[9] == "then";
    assert EXACT[10] == "else";
    assert EXACT[11] == "additionalItems";
    assert EXACT[12] == "unevaluatedItems";
    assert EXACT[13] == "dependentRequired";
    assert EXACT[14] == "dependentSchemas";
    assert EXACT[15] == "propertyNames";
    assert EXACT[16] == "unevaluatedProperties";
    assert EXACT[17] == "prefixItems";
    assert EXACT[18] == "oneOf";
    assert EXACT[19] == "anyOf";
    assert EXACT[20] == "allOf";
    assert EXACT[21] == "not";
  }

  lemma SameKeywords(b: Object, a: Object)
    requires (forall k | k in ORDERED :: PyEq(Get(b, k), Get(a, k))) && (forall k | k in EXACT :: SameKeyword(b, a, k))
    requires (forall k | k in LIMITS :: SameKinds(Get(b, k), Get(a, k)))
    requires (forall k | k in OPAQUE :: SameKinds(Get(b, k), Get(a, k)))
    requires "$dynamicRef" !in b && "$dynamicRef" !in a
    ensures forall k | k in LIMITS :: Get(b, k) == Get(a, k)
    ensures forall k | k in OPAQUE :: (k in b <==> k in a) && Get(b, k) == Get(a, k)
  {
    VocabularyCompared();
    forall k | k in LIMITS ensures Get(b, k) == Get(a, k) {
      PyEqMeans(Get(b, k), Get(a, k));
    }
    forall k | k in OPAQUE ensures (k in b <==> k in a) && Get(b, k) == Get(a, k) {
      if k != "$dynamicRef" {
        assert SameKeyword(b, a, k);
        PyEqMeans(Get(b, k), Get(a, k));
      }
    }
  }

  lemma EqualAssertions(b: Object, a: Object)
    requires forall k | k in LIMITS :: Get(b, k) == Get(a, k)
    requires forall k | k in OPAQUE :: (k in b <==> k in a) && Get(b, k) == Get(a, k)
    ensures AssertionsOf(b) == AssertionsOf(a)
    ensures forall v :: ValidLimits(b, v) == ValidLimits(a, v)
  {
    assert AssertionsOf(b).exact == AssertionsOf(a).exact;
  }

  lemma SameAssertions(before: Json, after: Json)
    requires before.Obj? && after.Obj? && Alike(before, after, false) && Guarded(before, after)
    ensures AssertionsOf(before.fields) == AssertionsOf(after.fields)
    ensures forall v :: ValidLimits(before.fields, v) == ValidLimits(after.fields, v)
    ensures forall k | k in OPAQUE ::
      (k in before.fields <==> k in after.fields) && Get(before.fields, k) == Get(after.fields, k)
  {
    SameKeywords(before.fields, after.fields);
    EqualAssertions(before.fields, after.fields);
  }

  /** What the comparison reads from `type`, `enum` and `required` is what they say. */
  lemma TypeRead(o: Object, v: Json)
    requires Types(Get(o, "type")).Ok?
    ensures var types := Types(Get(o, "type")).value;
      ValidType(o, v) <==> (types.Some? ==> exists t :: t in types.value && HasType(v, t))
  {
    var types := Types(Get(o, "type")).value;
    match Get(o, "type")
    case Arr(names) =>
      if i :| 0 <= i < |names| && HasType(v, names[i].s) {
        assert names[i].s in types.value;
      }
    case _ =>
  }

  lemma EnumRead(o: Object, v: Json)
    requires EnumValues(Get(o, "enum")).Ok?
    ensures var values := EnumValues(Get(o, "enum")).value;
      ValidEnum(o, v) <==> (values.Some? ==> v in values.value)
  {
  }

  lemma RequiredRead(o: Object, v: Json)
    requires Required(Get(o, "required")).Ok?
    ensures ValidRequired(o, v) <==> (v.Obj? ==> Required(Get(o, "required")).value <= v.fields.Keys)
  {
    match Get(o, "required")
    case Arr(names) =>
      if v.Obj? && Required(Get(o, "required")).value <= v.fields.Keys {
        forall i | 0 <= i < |names| ensures names[i].s in v.fields {
          assert names[i].s in Texts(names);
        }
      }
    case _ =>
  }

  lemma SameReaders(before: Json, after: Json, v: Json)
    requires before.Obj? && after.Obj? && Alike(before, after, false)
    ensures ValidType(before.fields, v) == ValidType(after.fields, v)
    ensures ValidEnum(before.fields, v) == ValidEnum(after.fields, v)
    ensures ValidRequired(before.fields, v) == ValidRequired(after.fields, v)
  {
    TypeRead(before.fields, v);
    TypeRead(after.fields, v);
    EnumRead(before.fields, v);
    EnumRead(after.fields, v);
    RequiredRead(before.fields, v);
    RequiredRead(after.fields, v);
  }

  /** A property the baseline describes is compared and guarded; one it does not describe is new to a closed object. */
  lemma PropertyCases(before: Json, after: Json, name: string)
    requires before.Obj? && after.Obj? && AlikeNamed(before, after, "properties", false)
    requires GuardedProperties(before, after)
    ensures var was, now := SchemaMap(Get(before.fields, "properties")), SchemaMap(Get(after.fields, "properties"));
            was.Ok? && now.Ok?
            && (if name in was.value then
                  && name in now.value && Alike(was.value[name], now.value[name], false)
                  && Guarded(was.value[name], now.value[name])
                else
                  name in now.value ==>
                    Additional(before.fields) == Bool(false) && "patternProperties" !in before.fields)
  {
  }

  /** A schema without references accepts the same instances under both readings. */
  lemma {:induction false} RefFreeSame(r: Reading, q: Reading, schema: Json, v: Json)
    requires schema.Obj? && NoRefs(schema) && SameButRefs(r, q)
    ensures Valid(r, schema, v) <==> Valid(q, schema, v)
    decreases schema, 1
  {
    var o := schema.fields;
    AssertionsRefFree(schema);
    if v.Obj? {
      forall k | k in v.fields
        ensures ValidMember(r, schema, k, v.fields[k]) <==> ValidMember(q, schema, k, v.fields[k])
      {
        RefFreeMember(r, q, schema, k, v.fields[k]);
      }
    }
    if v.Arr? && Get(o, "items").Obj? {
      forall i | PrefixLength(o) <= i < |v.items|
        ensures Valid(r, Get(o, "items"), v.items[i]) <==> Valid(q, Get(o, "items"), v.items[i])
      {
        RefFreeSame(r, q, Get(o, "items"), v.items[i]);
      }
    }
  }

  lemma AssertionsRefFree(schema: Json)
    requires schema.Obj? && NoRefs(schema)
    ensures RefFree(AssertionsOf(schema.fields))
  {
  }

  lemma RefFreeMember(r: Reading, q: Reading, schema: Json, name: string, x: Json)
    requires schema.Obj? && NoRefs(schema) && SameButRefs(r, q)
    ensures ValidMember(r, schema, name, x) <==> ValidMember(q, schema, name, x)
    decreases schema, 0
  {
    var properties := Get(schema.fields, "properties");
    if properties.Obj? && name in properties.fields && properties.fields[name].Obj? {
      assert NoRefs(properties);
      RefFreeSame(r, q, properties.fields[name], x);
    } else if Additional(schema.fields).Obj? {
      RefFreeSame(r, q, Additional(schema.fields), x);
    }
  }

  lemma OtherSound(r: Reading, q: Reading, before: Json, after: Json, name: string, x: Json)
    requires before.Obj? && after.Obj? && Alike(before, after, false) && Guarded(before, after) && SameButRefs(r, q)
    requires ValidOther(r, before, name, x)
    ensures ValidOther(q, after, name, x)
  {
    SameAssertions(before, after);
    assert "patternProperties" in OPAQUE;
    AdditionalSame(before, after);
    if Additional(before.fields).Obj? {
      RefFreeSame(r, q, Additional(before.fields), x);
    }
  }

  lemma MemberRead(r: Reading, schema: Json, name: string, x: Json)
    requires schema.Obj? && SchemaMap(Get(schema.fields, "properties")).Ok?
    ensures var table := SchemaMap(Get(schema.fields, "properties")).value;
      ValidMember(r, schema, name, x) <==>
        if name in table then Valid(r, table[name], x) else ValidOther(r, schema, name, x)
  {
  }

  lemma MemberSound(r: Reading, q: Reading, before: Json, after: Json, name: string, x: Json)
    requires before.Obj? && after.Obj? && Alike(before, after, false) && Guarded(before, after) && SameButRefs(r, q)
    requires ValidMember(r, before, name, x)
    ensures ValidMember(q, after, name, x)
    decreases before, 0, 1
  {
    if name in SchemaMap(Get(before.fields, "properties")).value {
      MemberRead(r, before, name, x);
      DescribedSound(r, q, before, after, name, x);
      Carried(q, after, name, x);
    } else {
      if ValidOther(r, before, name, x) {
        OtherSound(r, q, before, after, name, x);
      }
      UndescribedSound(r, q, before, after, name, x);
    }
  }

  lemma DescribedSound(r: Reading, q: Reading, before: Json, after: Json, name: string, x: Json)
    requires before.Obj? && after.Obj? && AlikeNamed(before, after, "properties", false)
    requires GuardedProperties(before, after) && SameButRefs(r, q)
    requires name in SchemaMap(Get(before.fields, "properties")).value
    requires Valid(r, SchemaMap(Get(before.fields, "properties")).value[name], x)
    ensures name in SchemaMap(Get(after.fields, "properties")).value
    ensures Valid(q, SchemaMap(Get(after.fields, "properties")).value[name], x)
    decreases before, 0, 0
  {
    var was, now := CommonProperty(before, after, name);
    AdditionsKeep(r, q, was, now, x);
  }

  lemma CommonProperty(before: Json, after: Json, name: string) returns (was: Json, now: Json)
    requires before.Obj? && after.Obj? && AlikeNamed(before, after, "properties", false)
    requires GuardedProperties(before, after) && name in SchemaMap(Get(before.fields, "properties")).value
    ensures name in SchemaMap(Get(after.fields, "properties")).value
    ensures was == SchemaMap(Get(before.fields, "properties")).value[name]
    ensures now == SchemaMap(Get(after.fields, "properties")).value[name]
    ensures was.Obj? && now.Obj? && was < before && Alike(was, now, false) && Guarded(was, now)
  {
    PropertyCases(before, after, name);
    was := SchemaMap(Get(before.fields, "properties")).value[name];
    now := SchemaMap(Get(after.fields, "properties")).value[name];
  }

  /** A name that only the candidate describes belongs to an object the baseline closed. */
  lemma UndescribedSound(r: Reading, q: Reading, before: Json, after: Json, name: string, x: Json)
    requires before.Obj? && after.Obj? && AlikeNamed(before, after, "properties", false)
    requires GuardedProperties(before, after)
    requires name !in SchemaMap(Get(before.fields, "properties")).value && ValidMember(r, before, name, x)
    requires ValidOther(r, before, name, x) ==> ValidOther(q, after, name, x)
    ensures ValidMember(q, after, name, x)
  {
    PropertyCases(before, after, name);
    MemberRead(r, before, name, x);
    Carried(q, after, name, x);
  }

  lemma Carried(q: Reading, schema: Json, name: string, x: Json)
    requires schema.Obj? && SchemaMap(Get(schema.fields, "properties")).Ok?
    requires var table := SchemaMap(Get(schema.fields, "properties")).value;
      if name in table then Valid(q, table[name], x) else ValidOther(q, schema, name, x)
    ensures ValidMember(q, schema, name, x)
  {
    MemberRead(q, schema, name, x);
  }

  lemma AdditionalSame(before: Json, after: Json)
    requires before.Obj? && after.Obj? && Alike(before, after, false) && Guarded(before, after)
    ensures Additional(before.fields) == Additional(after.fields)
         || (Additional(before.fields) == Bool(false) && Additional(after.fields) == Bool(true))
  {
    if PyEq(Additional(before.fields), Additional(after.fields)) {
      PyEqMeans(Additional(before.fields), Additional(after.fields));
    }
  }

  lemma {:induction false} AdditionsKeep(r: Reading, q: Reading, before: Json, after: Json, v: Json)
    requires before.Obj? && after.Obj? && Alike(before, after, false) && Guarded(before, after) && SameButRefs(r, q)
    requires Valid(r, before, v)
    ensures Valid(q, after, v)
    decreases before, 1
  {
    var b, a := before.fields, after.fields;
    SameAssertions(before, after);
    SameReaders(before, after, v);
    if v.Obj? {
      forall k | k in v.fields ensures ValidMember(q, after, k, v.fields[k]) {
        MemberSound(r, q, before, after, k, v.fields[k]);
      }
    }
    if v.Arr? && Get(a, "items").Obj? {
      assert "prefixItems" in OPAQUE;
      assert AlikeItems(before, after, false);
      forall i | PrefixLength(a) <= i < |v.items| ensures Valid(q, Get(a, "items"), v.items[i]) {
        AdditionsKeep(r, q, Get(b, "items"), Get(a, "items"), v.items[i]);
      }
    }
  }

  /**
   A report without a breaking change keeps every instance: whatever the baseline accepts, the
   candidate accepts, under every two readings of the opaque keywords that differ only in what
   references mean.
   */
  lemma NonBreakingIsSound(r: Reading, q: Reading, before: Json, after: Json, path: Path, v: Json)
    requires before.Obj? && after.Obj? && Guarded(before, after) && SameButRefs(r, q)
    requires CompareSchema(before, after, path).Ok? && Highest(CompareSchema(before, after, path).value) != Breaking
    requires Valid(r, before, v)
    ensures Valid(q, after, v)
  {
    SchemaQuiet(before, after, path, false);
    AdditionsKeep(r, q, before, after, v);
  }

  lemma {:induction false} PyEqSymmetric(a: Json, b: Json)
    requires PyEq(a, b)
    ensures PyEq(b, a)
  {
    match a
    case Arr(xs) =>
      forall i | 0 <= i < |xs| ensures PyEq(b.items[i], xs[i]) {
        PyEqSymmetric(xs[i], b.items[i]);
      }
    case Obj(f) =>
      forall k | k in f ensures PyEq(b.fields[k], f[k]) {
        PyEqSymmetric(f[k], b.fields[k]);
      }
    case _ =>
  }

  lemma {:induction false} SameKindsSymmetric(a: Json, b: Json)
    requires SameKinds(a, b)
    ensures SameKinds(b, a)
  {
    if a.Arr? && b.Arr? && |a.items| == |b.items| {
      forall i | 0 <= i < |a.items| ensures SameKinds(b.items[i], a.items[i]) {
        SameKindsSymmetric(a.items[i], b.items[i]);
      }
    }
    if a.Obj? && b.Obj? {
      forall k | k in a.fields && k in b.fields ensures SameKinds(b.fields[k], a.fields[k]) {
        SameKindsSymmetric(a.fields[k], b.fields[k]);
      }
    }
  }

  lemma NamedSymmetric(before: Json, after: Json, keyword: string)
    requires before.Obj? && after.Obj? && AlikeNamed(before, after, keyword, true)
    ensures AlikeNamed(after, before, keyword, true)
    decreases before, 0
  {
    var was, now := SchemaMap(Get(before.fields, keyword)).value, SchemaMap(Get(after.fields, keyword)).value;
    forall n | n in now ensures Alike(now[n], was[n], true) {
      assert Alike(was[n], now[n], true);
      AlikeSymmetric(was[n], now[n]);
    }
  }

  lemma RequiredSymmetric(before: Json, after: Json)
    requires before.Obj? && after.Obj? && AlikeRequired(before.fields, after.fields)
    requires AlikeNamed(before, after, "properties", true)
    ensures AlikeRequired(after.fields, before.fields)
  {
  }

  /** Exact agreement does not depend on which document is the baseline. */
  lemma {:induction false} AlikeSymmetric(before: Json, after: Json)
    requires before.Obj? && after.Obj? && Alike(before, after, true)
    ensures Alike(after, before, true)
    decreases before, 1
  {
    var b, a := before.fields, after.fields;
    RequiredSymmetric(before, after);
    NamedSymmetric(before, after, "properties");
    NamedSymmetric(before, after, "$defs");
    NamedSymmetric(before, after, "definitions");
    PyEqSymmetric(Additional(b), Additional(a));
    if Additional(b).Obj? {
      AlikeSymmetric(Additional(b), Additional(a));
    }
    KeywordsSymmetric(b, a);
    if Get(b, "items").Obj? && Get(a, "items").Obj? {
      AlikeSymmetric(Get(b, "items"), Get(a, "items"));
    }
  }

  lemma KeywordsSymmetric(b: Object, a: Object)
    requires (forall k | k in ORDERED :: PyEq(Get(b, k), Get(a, k))) && (forall k | k in EXACT :: SameKeyword(b, a, k))
    ensures (forall k | k in ORDERED :: PyEq(Get(a, k), Get(b, k))) && (forall k | k in EXACT :: SameKeyword(a, b, k))
  {
    forall k | k in ORDERED ensures PyEq(Get(a, k), Get(b, k)) {
      PyEqSymmetric(Get(b, k), Get(a, k));
    }
    forall k | k in EXACT ensures SameKeyword(a, b, k) {
      assert SameKeyword(b, a, k);
      PyEqSymmetric(Get(b, k), Get(a, k));
    }
  }

  lemma KindsSymmetric(b: Object, a: Object)
    requires forall k | k in EXACT :: SameKeyword(b, a, k)
    requires (forall k | k in LIMITS :: SameKinds(Get(b, k), Get(a, k)))
    requires (forall k | k in OPAQUE :: SameKinds(Get(b, k), Get(a, k)))
    requires SameKinds(Additional(b), Additional(a))
    ensures (forall k | k in LIMITS :: SameKinds(Get(a, k), Get(b, k)))
    ensures (forall k | k in OPAQUE :: SameKinds(Get(a, k), Get(b, k)))
    ensures SameKinds(Additional(a), Additional(b))
    ensures "unevaluatedItems" in a <==> "unevaluatedItems" in b
    ensures "unevaluatedProperties" in a <==> "unevaluatedProperties" in b
  {
    forall k | k in LIMITS ensures SameKinds(Get(a, k), Get(b, k)) {
      SameKindsSymmetric(Get(b, k), Get(a, k));
    }
    forall k | k in OPAQUE ensures SameKinds(Get(a, k), Get(b, k)) {
      SameKindsSymmetric(Get(b, k), Get(a, k));
    }
    SameKindsSymmetric(Additional(b), Additional(a));
    assert "unevaluatedItems" in EXACT && "unevaluatedProperties" in EXACT by { VocabularyCompared(); }
  }

  lemma ReferencesSymmetric(b: Object, a: Object)
    requires (forall k | k in ORDERED :: PyEq(Get(b, k), Get(a, k))) && (forall k | k in EXACT :: SameKeyword(b, a, k))
    requires (forall k | k in LIMITS :: SameKinds(Get(b, k), Get(a, k)))
    requires (forall k | k in OPAQUE :: SameKinds(Get(b, k), Get(a, k)))
    requires "$dynamicRef" !in b && "$dynamicRef" !in a
    requires PyEq(Additional(b), Additional(a)) && SameKinds(Additional(b), Additional(a))
    ensures AssertionsOf(a) == AssertionsOf(b) && Additional(a) == Additional(b)
  {
    SameKeywords(b, a);
    EqualAssertions(b, a);
    PyEqMeans(Additional(b), Additional(a));
  }

  lemma GuardedPropertiesSymmetric(before: Json, after: Json)
    requires before.Obj? && after.Obj? && AlikeNamed(before, after, "properties", true)
    requires GuardedProperties(before, after)
    ensures GuardedProperties(after, before)
    decreases before, 0
  {
    var was, now := SchemaMap(Get(before.fields, "properties")).value, SchemaMap(Get(after.fields, "properties")).value;
    forall n | n in now ensures Guarded(now[n], was[n]) {
      assert Alike(was[n], now[n], true);
      GuardedSymmetric(was[n], now[n]);
    }
  }

  lemma {:induction false} GuardedSymmetric(before: Json, after: Json)
    requires before.Obj? && after.Obj? && Alike(before, after, true) && Guarded(before, after)
    ensures Guarded(after, before)
    decreases before, 1
  {
    var b, a := before.fields, after.fields;
    KindsSymmetric(b, a);
    ReferencesSymmetric(b, a);
    GuardedPropertiesSymmetric(before, after);
    if Get(b, "items").Obj? && Get(a, "items").Obj? {
      assert AlikeItems(before, after, true);
      GuardedSymmetric(Get(b, "items"), Get(a, "items"));
    }
  }

  lemma {:induction false} ExactlyIsAlso(before: Json, after: Json)
    requires before.Obj? && after.Obj? && Alike(before, after, true)
    ensures Alike(before, after, false)
    decreases before, 1
  {
    NamedAlso(before, after, "properties");
    NamedAlso(before, after, "$defs");
    NamedAlso(before, after, "definitions");
    if Additional(before.fields).Obj? {
      ExactlyIsAlso(Additional(before.fields), Additional(after.fields));
    }
    if Get(before.fields, "items").Obj? && Get(after.fields, "items").Obj? {
      ExactlyIsAlso(Get(before.fields, "items"), Get(after.fields, "items"));
    }
  }

  lemma NamedAlso(before: Json, after: Json, keyword: string)
    requires before.Obj? && after.Obj? && AlikeNamed(before, after, keyword, true)
    ensures AlikeNamed(before, after, keyword, false)
    decreases before, 0
  {
    var was, now := SchemaMap(Get(before.fields, keyword)).value, SchemaMap(Get(after.fields, keyword)).value;
    forall n | n in was ensures Alike(was[n], now[n], false) {
      assert Alike(was[n], now[n], true);
      ExactlyIsAlso(was[n], now[n]);
    }
  }

  /** An empty report means the two documents accept the same instances. */
  lemma EmptyReportKeepsMeaning(r: Reading, q: Reading, before: Json, after: Json, path: Path, v: Json)
    requires before.Obj? && after.Obj? && Guarded(before, after) && SameButRefs(r, q)
    requires CompareSchema(before, after, path) == Ok([])
    ensures Valid(r, before, v) <==> Valid(q, after, v)
  {
    SchemaQuiet(before, after, path, true);
    AlikeSymmetric(before, after);
    GuardedSymmetric(before, after);
    ExactlyIsAlso(before, after);
    ExactlyIsAlso(after, before);
    if Valid(r, before, v) {
      AdditionsKeep(r, q, before, after, v);
    }
    if Valid(q, after, v) {
      AdditionsKeep(q, r, after, before, v);
    }
  }
}
