/**
 `schema_diff`: the recursive comparison of two JSON Schema documents, and what its
 verdict means for the instances they accept. A change carries the key path of the
 place it was found at; its pointer is the rendering of that path (module JsonPointer).
 */
module SchemaDiff {
  import opened Options
  import opened Orders

  /** `Err` is `SchemaDiffError`: the documents cannot be compared safely. */
  datatype Result<+T> = Ok(value: T) | Err {
    predicate IsFailure() { Err? }
    function PropagateFailure<U>(): Result<U> requires Err? { Err }
    function Extract(): T requires Ok? { value }
  }

  datatype Json =
    | Null | Bool(b: bool) | Num(n: real) | Str(s: string) | Arr(items: seq<Json>) | Obj(fields: map<string, Json>)

  type Object = map<string, Json>

  /** `table.get(key)`: an absent key and a JSON null read the same. */
  function Get(o: Object, key: string): Json {
    if key in o then o[key] else Null
  }

  // ----- Python's `==` on JSON values: `True == 1` and `False == 0`

  function AsNumber(j: Json): Option<real> {
    match j
    case Num(n) => Some(n)
    case Bool(b) => Some(if b then 1.0 else 0.0)
    case _ => None
  }

  predicate PyEq(a: Json, b: Json)
    decreases a
  {
    match a
    case Null => b.Null?
    case Str(s) => b == a
    case Bool(_) => AsNumber(a) == AsNumber(b)
    case Num(_) => AsNumber(a) == AsNumber(b)
    case Arr(xs) => b.Arr? && |xs| == |b.items| && forall i | 0 <= i < |xs| :: PyEq(xs[i], b.items[i])
    case Obj(f) => b.Obj? && f.Keys == b.fields.Keys && forall k | k in f :: PyEq(f[k], b.fields[k])
  }

  lemma PyEqReflexive(a: Json)
    ensures PyEq(a, a)
  {
  }

  // ----- changes

  datatype Compatibility = Compatible | Additive | Breaking

  datatype Kind =
    | TypesAdded | TypeChanged | EnumAdded | EnumRemoved | EnumValuesAdded | EnumValuesRemoved
    | PropertyRemoved | RequiredPropertyAdded | OptionalPropertyAdded | BecameRequired | BecameOptional
    | RequiredNameAdded | RequiredNameRemoved | SchemaRemoved | SchemaAdded
    | AdditionalAllowed | AdditionalChanged | ConstraintChanged | KeywordChanged | ItemsChanged

  type Path = seq<string>

  datatype Change = Change(kind: Kind, compatibility: Compatibility, path: Path)

  predicate IsBreaking(changes: seq<Change>) {
    exists c | c in changes :: c.compatibility == Breaking
  }

  function Highest(changes: seq<Change>): Compatibility {
    if IsBreaking(changes) then Breaking else if changes != [] then Additive else Compatible
  }

  // ----- readers of single keywords

  predicate AllText(items: seq<Json>) {
    forall i | 0 <= i < |items| :: items[i].Str?
  }

  function Texts(items: seq<Json>): set<string>
    requires AllText(items)
  {
    set i | 0 <= i < |items| :: items[i].s
  }

  function Types(v: Json): Result<Option<set<string>>> {
    match v
    case Null => Ok(None)
    case Str(s) => Ok(Some({s}))
    case Arr(items) => if AllText(items) then Ok(Some(Texts(items))) else Err
    case _ => Err
  }

  function EnumValues(v: Json): Result<Option<set<Json>>> {
    match v
    case Null => Ok(None)
    case Arr(items) => Ok(Some(set x | x in items))
    case _ => Err
  }

  function Required(v: Json): Result<set<string>> {
    match v
    case Null => Ok({})
    case Arr(items) => if AllText(items) then Ok(Texts(items)) else Err
    case _ => Err
  }

  /** A table of schemas; every entry has to be an object. */
  function SchemaMap(v: Json): (r: Result<Object>)
    ensures r.Ok? ==> forall k | k in r.value :: r.value[k].Obj?
    ensures r.Ok? ==> (v.Null? && r.value.Keys == {}) || (v.Obj? && r.value == v.fields)
  {
    match v
    case Null => Ok(map[])
    case Obj(f) => if forall k | k in f :: f[k].Obj? then Ok(f) else Err
    case _ => Err
  }

  // ----- one keyword at a time

  function CompareType(b: Object, a: Object, path: Path): Result<seq<Change>> {
    var was :- Types(Get(b, "type"));
    var now :- Types(Get(a, "type"));
    if was == now then Ok([])
    else if was.Some? && now.Some? && was.value < now.value then Ok([Change(TypesAdded, Breaking, path + ["type"])])
    else Ok([Change(TypeChanged, Breaking, path + ["type"])])
  }

  function CompareEnum(b: Object, a: Object, path: Path): Result<seq<Change>> {
    var was :- EnumValues(Get(b, "enum"));
    var now :- EnumValues(Get(a, "enum"));
    if was == now then Ok([])
    else if now.None? then Ok([Change(EnumRemoved, Breaking, path + ["enum"])])
    else if was.None? then Ok([Change(EnumAdded, Breaking, path + ["enum"])])
    else Ok(
      (if was.value - now.value != {} then [Change(EnumValuesRemoved, Breaking, path + ["enum"])] else [])
      + (if now.value - was.value != {} then [Change(EnumValuesAdded, Breaking, path + ["enum"])] else []))
  }

  /** One change per name, in order. */
  function Each(names: set<string>, change: string -> Change): seq<Change> {
    var listed := InOrder(names);
    seq(|listed|, i requires 0 <= i < |listed| => change(listed[i]))
  }

  lemma EachIs(names: set<string>, change: string -> Change)
    ensures forall c | c in Each(names, change) :: exists n :: n in names && c == change(n)
    ensures forall n | n in names :: change(n) in Each(names, change)
    ensures Each(names, change) == [] <==> names == {}
  {
    var listed, r := InOrder(names), Each(names, change);
    assert forall i :: 0 <= i < |listed| ==> r[i] == change(listed[i]) && listed[i] in names;
    assert forall n | n in names :: n in listed;
    assert listed == [] ==> names == {};
  }

  const ORDERED: seq<string> := [
    "minimum", "exclusiveMinimum", "minLength", "minItems", "minProperties", "minContains",
    "maximum", "exclusiveMaximum", "maxLength", "maxItems", "maxProperties", "maxContains"]

  const EXACT: seq<string> := [
    "$ref", "const", "pattern", "format", "multipleOf", "uniqueItems", "contains", "patternProperties",
    "if", "then", "else", "additionalItems", "unevaluatedItems", "dependentRequired", "dependentSchemas",
    "propertyNames", "unevaluatedProperties", "prefixItems", "oneOf", "anyOf", "allOf", "not"]

  function CompareConstraints(b: Object, a: Object, path: Path, keywords: seq<string>): Result<seq<Change>> {
    if keywords == [] then Ok([])
    else
      var was, now := Get(b, keywords[0]), Get(a, keywords[0]);
      if PyEq(was, now) then CompareConstraints(b, a, path, keywords[1..])
      else if !was.Null? && !now.Null? && (AsNumber(was).None? || AsNumber(now).None?) then Err
      else
        var rest :- CompareConstraints(b, a, path, keywords[1..]);
        Ok([Change(ConstraintChanged, Breaking, path + [keywords[0]])] + rest)
  }

  predicate SameKeyword(b: Object, a: Object, keyword: string) {
    (keyword in b <==> keyword in a) && PyEq(Get(b, keyword), Get(a, keyword))
  }

  function CompareExact(b: Object, a: Object, path: Path, keywords: seq<string>): seq<Change> {
    if keywords == [] then []
    else
      (if SameKeyword(b, a, keywords[0]) then [] else [Change(KeywordChanged, Breaking, path + [keywords[0]])])
      + CompareExact(b, a, path, keywords[1..])
  }

  function Additional(o: Object): Json {
    if "additionalProperties" in o then o["additionalProperties"] else Bool(true)
  }

  /** The reports of the parts from `k` on, one after the other; the first error ends the comparison. */
  function Gather(parts: seq<Result<seq<Change>>>, k: nat): Result<seq<Change>>
    requires k <= |parts|
    decreases |parts| - k
  {
    if k == |parts| then Ok([])
    else
      var first :- parts[k];
      var rest :- Gather(parts, k + 1);
      Ok(first + rest)
  }

  // ----- the recursion

  function CompareSchema(before: Json, after: Json, path: Path): Result<seq<Change>>
    requires before.Obj? && after.Obj?
    decreases before, 3
  {
    Gather(Parts(before, after, path), 0)
  }

  /** The comparators of one schema, in the order they run. */
  function Parts(before: Json, after: Json, path: Path): seq<Result<seq<Change>>>
    requires before.Obj? && after.Obj?
    decreases before, 2
  {
    var b, a := before.fields, after.fields;
    [ CompareType(b, a, path),
      CompareEnum(b, a, path),
      CompareProperties(before, after, path),
      CompareDefinitions(before, after, path, "$defs"),
      CompareDefinitions(before, after, path, "definitions"),
      CompareAdditional(before, after, path),
      CompareConstraints(b, a, path, ORDERED),
      Ok(CompareExact(b, a, path, EXACT)),
      CompareItems(before, after, path)]
  }

  function CompareProperties(before: Json, after: Json, path: Path): Result<seq<Change>>
    requires before.Obj? && after.Obj?
    decreases before, 1
  {
    var was :- SchemaMap(Get(before.fields, "properties"));
    var now :- SchemaMap(Get(after.fields, "properties"));
    var oldRequired :- Required(Get(before.fields, "required"));
    var newRequired :- Required(Get(after.fields, "required"));
    var common :- CompareCommon(before, was, now, oldRequired, newRequired, path, InOrder(was.Keys * now.Keys));
    Ok(PropertyReport(was.Keys, now.Keys, oldRequired, newRequired, path, common))
  }

  function PropertyReport(was: set<string>, now: set<string>, oldRequired: set<string>, newRequired: set<string>,
                          path: Path, common: seq<Change>): seq<Change> {
    Lost(was, now, path) + Gained(was, now, newRequired, path) + common
    + NewlyRequired(now, oldRequired, newRequired, path) + NoLongerRequired(was, oldRequired, newRequired, path)
  }

  function Lost(was: set<string>, now: set<string>, path: Path): seq<Change> {
    Each(was - now, name => Change(PropertyRemoved, Breaking, path + ["properties", name]))
  }

  function Gained(was: set<string>, now: set<string>, newRequired: set<string>, path: Path): seq<Change> {
    Each(now - was, name =>
      if name in newRequired then Change(RequiredPropertyAdded, Breaking, path + ["properties", name])
      else Change(OptionalPropertyAdded, Additive, path + ["properties", name]))
  }

  function NewlyRequired(now: set<string>, oldRequired: set<string>, newRequired: set<string>,
                         path: Path): seq<Change> {
    Each((newRequired - oldRequired) - now, name => Change(RequiredNameAdded, Breaking, path + ["required"]))
  }

  function NoLongerRequired(was: set<string>, oldRequired: set<string>, newRequired: set<string>,
                            path: Path): seq<Change> {
    Each((oldRequired - newRequired) - was, name => Change(RequiredNameRemoved, Breaking, path + ["required"]))
  }

  function Requiredness(name: string, oldRequired: set<string>, newRequired: set<string>, path: Path): seq<Change> {
    if name !in oldRequired && name in newRequired then [Change(BecameRequired, Breaking, path + ["required"])]
    else if name in oldRequired && name !in newRequired then [Change(BecameOptional, Breaking, path + ["required"])]
    else []
  }

  /** Properties both documents have: the change of requiredness, then the schemas. */
  function CompareCommon(before: Json, was: Object, now: Object, oldRequired: set<string>, newRequired: set<string>,
                         path: Path, names: seq<string>): Result<seq<Change>>
    requires before.Obj? && forall n | n in names :: n in was && n in now && was[n].Obj? && now[n].Obj?
    requires forall n | n in names :: was[n] < before
    decreases before, 0, |names|
  {
    if names == [] then Ok([])
    else
      var name := names[0];
      var inner :- CompareSchema(was[name], now[name], path + ["properties", name]);
      var rest :- CompareCommon(before, was, now, oldRequired, newRequired, path, names[1..]);
      Ok(Requiredness(name, oldRequired, newRequired, path) + inner + rest)
  }

  function CompareDefinitions(before: Json, after: Json, path: Path, keyword: string): Result<seq<Change>>
    requires before.Obj? && after.Obj?
    decreases before, 1
  {
    var was :- SchemaMap(Get(before.fields, keyword));
    var now :- SchemaMap(Get(after.fields, keyword));
    var common :- CompareNamed(before, was, now, path + [keyword], InOrder(was.Keys * now.Keys));
    Ok(DefinitionNames(was.Keys, now.Keys, path + [keyword]) + common)
  }

  function DefinitionNames(was: set<string>, now: set<string>, path: Path): seq<Change> {
    Each(was - now, name => Change(SchemaRemoved, Breaking, path + [name]))
    + Each(now - was, name => Change(SchemaAdded, Additive, path + [name]))
  }

  function CompareNamed(before: Json, was: Object, now: Object, path: Path, names: seq<string>): Result<seq<Change>>
    requires before.Obj? && forall n | n in names :: n in was && n in now && was[n].Obj? && now[n].Obj?
    requires forall n | n in names :: was[n] < before
    decreases before, 0, |names|
  {
    if names == [] then Ok([])
    else
      var inner :- CompareSchema(was[names[0]], now[names[0]], path + [names[0]]);
      var rest :- CompareNamed(before, was, now, path, names[1..]);
      Ok(inner + rest)
  }

  function CompareAdditional(before: Json, after: Json, path: Path): Result<seq<Change>>
    requires before.Obj? && after.Obj?
    decreases before, 1
  {
    var was, now := Additional(before.fields), Additional(after.fields);
    var at := path + ["additionalProperties"];
    if PyEq(was, now) then
      if was.Obj? then CompareSchema(was, now, at) else Ok([])
    else if was == Bool(false) && now == Bool(true) then Ok([Change(AdditionalAllowed, Additive, at)])
    else Ok([Change(AdditionalChanged, Breaking, at)])
  }

  function CompareItems(before: Json, after: Json, path: Path): Result<seq<Change>>
    requires before.Obj? && after.Obj?
    decreases before, 1
  {
    if "items" !in before.fields && "items" !in after.fields then Ok([])
    else
      var was, now := Get(before.fields, "items"), Get(after.fields, "items");
      if was.Null? || now.Null? then
        Ok([Change(ItemsChanged, if now.Null? then Additive else Breaking, path + ["items"])])
      else if was.Obj? && now.Obj? then CompareSchema(was, now, path + ["items"])
      else Err
  }

  // ----- what the verdict says

  /** The verdict asked for: an empty report (`exactly`), or a report without a breaking change. */
  ghost predicate Quiet(changes: seq<Change>, exactly: bool) {
    if exactly then changes == [] else !IsBreaking(changes)
  }

  /**
   The two documents agree on everything compared, here and below; unless `exactly`, the
   candidate may also gain properties and definitions, open a closed object and drop `items`.
   */
  ghost predicate Alike(before: Json, after: Json, exactly: bool)
    requires before.Obj? && after.Obj?
    decreases before, 2
  {
    var b, a := before.fields, after.fields;
    && Types(Get(a, "type")) == Types(Get(b, "type")) && Types(Get(b, "type")).Ok?
    && EnumValues(Get(a, "enum")) == EnumValues(Get(b, "enum")) && EnumValues(Get(b, "enum")).Ok?
    && AlikeRequired(b, a)
    && AlikeNamed(before, after, "properties", exactly)
    && AlikeNamed(before, after, "$defs", exactly)
    && AlikeNamed(before, after, "definitions", exactly)
    && AlikeAdditional(before, after, exactly)
    && (forall k | k in ORDERED :: PyEq(Get(b, k), Get(a, k)))
    && (forall k | k in EXACT :: SameKeyword(b, a, k))
    && AlikeItems(before, after, exactly)
  }

  /** The same names are required, and none of them is a property only the candidate describes. */
  ghost predicate AlikeRequired(b: Object, a: Object) {
    var was, now := SchemaMap(Get(b, "properties")), SchemaMap(Get(a, "properties"));
    && Required(Get(a, "required")) == Required(Get(b, "required")) && Required(Get(b, "required")).Ok?
    && (was.Ok? && now.Ok? && Required(Get(a, "required")).Ok?
        ==> (now.value.Keys - was.value.Keys) * Required(Get(a, "required")).value == {})
  }

  /** No entry of the table is lost, none is gained if `exactly`, and common entries are alike. */
  ghost predicate AlikeNamed(before: Json, after: Json, keyword: string, exactly: bool)
    requires before.Obj? && after.Obj?
    decreases before, 1
  {
    var was, now := SchemaMap(Get(before.fields, keyword)), SchemaMap(Get(after.fields, keyword));
    && was.Ok? && now.Ok?
    && was.value.Keys <= now.value.Keys
    && (exactly ==> now.value.Keys <= was.value.Keys)
    && AllAlike(before, was.value, now.value, was.value.Keys, exactly)
  }

  ghost predicate AllAlike(before: Json, was: Object, now: Object, names: set<string>, exactly: bool)
    requires forall n | n in names :: n in was && n in now && was[n].Obj? && now[n].Obj? && was[n] < before
    decreases before, 0
  {
    forall n {:trigger Alike(was[n], now[n], exactly)} | n in names :: Alike(was[n], now[n], exactly)
  }

  ghost predicate AlikeAdditional(before: Json, after: Json, exactly: bool)
    requires before.Obj? && after.Obj?
    decreases before, 0
  {
    var was, now := Additional(before.fields), Additional(after.fields);
    || (PyEq(was, now) && (was.Obj? ==> Alike(was, now, exactly)))
    || (!exactly && was == Bool(false) && now == Bool(true))
  }

  ghost predicate AlikeItems(before: Json, after: Json, exactly: bool)
    requires before.Obj? && after.Obj?
    decreases before, 0
  {
    var was, now := Get(before.fields, "items"), Get(after.fields, "items");
    || ("items" !in before.fields && "items" !in after.fields)
    || (!exactly && now.Null?)
    || (was.Obj? && now.Obj? && Alike(was, now, exactly))
  }

  lemma QuietParts(x: seq<Change>, y: seq<Change>, exactly: bool)
    ensures Quiet(x + y, exactly) <==> Quiet(x, exactly) && Quiet(y, exactly)
  {
    assert forall c :: c in x + y <==> c in x || c in y;
  }

  /** A comparison whose every change is breaking, empty exactly when the two sides are the same. */
  ghost predicate Tells(changes: seq<Change>, same: bool) {
    (changes == [] <==> same) && (IsBreaking(changes) <==> !same)
  }

  lemma {:induction false} ConstraintsTell(b: Object, a: Object, path: Path, keywords: seq<string>)
    requires CompareConstraints(b, a, path, keywords).Ok?
    ensures Tells(CompareConstraints(b, a, path, keywords).value,
      forall k | k in keywords :: PyEq(Get(b, k), Get(a, k)))
  {
    if keywords != [] {
      assert keywords[0] in keywords;
      ConstraintsTell(b, a, path, keywords[1..]);
      if !PyEq(Get(b, keywords[0]), Get(a, keywords[0])) {
        assert CompareConstraints(b, a, path, keywords).value[0].compatibility == Breaking;
      }
    }
  }

  lemma {:induction false} ExactTells(b: Object, a: Object, path: Path, keywords: seq<string>)
    ensures Tells(CompareExact(b, a, path, keywords), forall k | k in keywords :: SameKeyword(b, a, k))
  {
    if keywords != [] {
      assert keywords[0] in keywords;
      ExactTells(b, a, path, keywords[1..]);
      if !SameKeyword(b, a, keywords[0]) {
        assert CompareExact(b, a, path, keywords)[0].compatibility == Breaking;
      } else {
        assert CompareExact(b, a, path, keywords) == CompareExact(b, a, path, keywords[1..]);
      }
    }
  }

  lemma TypeTells(b: Object, a: Object, path: Path)
    requires CompareType(b, a, path).Ok?
    ensures Tells(CompareType(b, a, path).value, Types(Get(a, "type")) == Types(Get(b, "type")))
  {
    var changes := CompareType(b, a, path).value;
    if changes != [] {
      assert changes[0].compatibility == Breaking;
    }
  }

  lemma EnumTells(b: Object, a: Object, path: Path)
    requires CompareEnum(b, a, path).Ok?
    ensures Tells(CompareEnum(b, a, path).value, EnumValues(Get(a, "enum")) == EnumValues(Get(b, "enum")))
  {
    var changes := CompareEnum(b, a, path).value;
    var was, now := EnumValues(Get(b, "enum")).value, EnumValues(Get(a, "enum")).value;
    if changes != [] {
      assert changes[0].compatibility == Breaking;
    } else if was.Some? && now.Some? {
      assert was.value == now.value;
    }
  }

  lemma EachTells(names: set<string>, change: string -> Change)
    requires forall n :: change(n).compatibility == Breaking
    ensures Tells(Each(names, change), names == {})
  {
    EachIs(names, change);
    if names != {} {
      var n :| n in names;
      assert change(n) in Each(names, change);
    }
  }

  lemma EmptyDifference(x: set<string>, y: set<string>)
    ensures x - y == {} <==> x <= y
  {
    assert forall e :: e in x - y <==> e in x && e !in y;
    assert x - y != {} ==> exists e :: e in x - y;
  }

  lemma GainedBreaks(was: set<string>, now: set<string>, newRequired: set<string>, path: Path)
    ensures IsBreaking(Gained(was, now, newRequired, path)) <==> (now - was) * newRequired != {}
    ensures Gained(was, now, newRequired, path) == [] <==> now <= was
  {
    EachIs(now - was, name =>
      if name in newRequired then Change(RequiredPropertyAdded, Breaking, path + ["properties", name])
      else Change(OptionalPropertyAdded, Additive, path + ["properties", name]));
    if (now - was) * newRequired != {} {
      var n :| n in (now - was) * newRequired;
      assert Change(RequiredPropertyAdded, Breaking, path + ["properties", n]) in Gained(was, now, newRequired, path);
    }
    EmptyDifference(now, was);
  }

  lemma NamesTell(was: set<string>, now: set<string>, oldRequired: set<string>, newRequired: set<string>, path: Path)
    ensures Tells(Lost(was, now, path), was <= now)
    ensures Tells(NewlyRequired(now, oldRequired, newRequired, path), newRequired - oldRequired <= now)
    ensures Tells(NoLongerRequired(was, oldRequired, newRequired, path), oldRequired - newRequired <= was)
  {
    EachTells(was - now, name => Change(PropertyRemoved, Breaking, path + ["properties", name]));
    EachTells((newRequired - oldRequired) - now, name => Change(RequiredNameAdded, Breaking, path + ["required"]));
    EachTells((oldRequired - newRequired) - was, name => Change(RequiredNameRemoved, Breaking, path + ["required"]));
    EmptyDifference(was, now);
    EmptyDifference(newRequired - oldRequired, now);
    EmptyDifference(oldRequired - newRequired, was);
  }

  // ----- the verdict, for every pair of documents

  lemma RequirednessTells(name: string, oldRequired: set<string>, newRequired: set<string>, path: Path)
    ensures Tells(Requiredness(name, oldRequired, newRequired, path), name in oldRequired <==> name in newRequired)
  {
    var changes := Requiredness(name, oldRequired, newRequired, path);
    if changes != [] {
      assert changes[0].compatibility == Breaking;
    }
  }

  function Listed(names: seq<string>): set<string> {
    set n | n in names
  }

  lemma {:induction false} CommonQuiet(before: Json, was: Object, now: Object, oldRequired: set<string>,
                                       newRequired: set<string>,
                                       path: Path, names: seq<string>, exactly: bool)
    requires before.Obj? && forall n | n in names :: n in was && n in now && was[n].Obj? && now[n].Obj?
    requires forall n | n in names :: was[n] < before
    requires CompareCommon(before, was, now, oldRequired, newRequired, path, names).Ok?
    ensures Quiet(CompareCommon(before, was, now, oldRequired, newRequired, path, names).value, exactly)
      <==> Listed(names) * oldRequired == Listed(names) * newRequired
           && AllAlike(before, was, now, Listed(names), exactly)
    decreases before, 0, |names|
  {
    if names != [] {
      var name := names[0];
      assert name in names && Listed(names) == {name} + Listed(names[1..]);
      CommonQuiet(before, was, now, oldRequired, newRequired, path, names[1..], exactly);
      SchemaQuiet(was[name], now[name], path + ["properties", name], exactly);
      RequirednessTells(name, oldRequired, newRequired, path);
      var requiredness := Requiredness(name, oldRequired, newRequired, path);
      var inner := CompareSchema(was[name], now[name], path + ["properties", name]).value;
      QuietParts(requiredness, inner, exactly);
      QuietParts(requiredness + inner,
        CompareCommon(before, was, now, oldRequired, newRequired, path, names[1..]).value, exactly);
      AllAlikeMore(before, was, now, name, Listed(names[1..]), exactly);
      SameOn(name, Listed(names[1..]), oldRequired, newRequired);
    }
  }

  lemma AllAlikeMore(before: Json, was: Object, now: Object, name: string, names: set<string>, exactly: bool)
    requires forall n | n in {name} + names :: n in was && n in now && was[n].Obj? && now[n].Obj? && was[n] < before
    ensures AllAlike(before, was, now, {name} + names, exactly)
      <==> Alike(was[name], now[name], exactly) && AllAlike(before, was, now, names, exactly)
  {
    assert name in {name} + names;
  }

  lemma SameOn(name: string, names: set<string>, x: set<string>, y: set<string>)
    ensures ({name} + names) * x == ({name} + names) * y <==> (name in x <==> name in y) && names * x == names * y
  {
    if ({name} + names) * x == ({name} + names) * y {
      assert name in x <==> name in ({name} + names) * x;
      forall n ensures n in names * x <==> n in names * y {
        assert n in names ==> (n in x <==> n in ({name} + names) * x);
      }
    }
    if (name in x <==> name in y) && names * x == names * y {
      forall n ensures n in ({name} + names) * x <==> n in ({name} + names) * y {
        assert n in names ==> (n in x <==> n in names * x);
      }
    }
  }

  lemma ListedCommon(was: set<string>, now: set<string>)
    ensures Listed(InOrder(was * now)) == was * now
    ensures was <= now ==> was * now == was
  {
  }

  lemma PropertyNamesQuiet(was: set<string>, now: set<string>, oldRequired: set<string>, newRequired: set<string>,
                           path: Path,
                           common: seq<Change>, exactly: bool)
    ensures Quiet(PropertyReport(was, now, oldRequired, newRequired, path, common), exactly)
      <==> (was <= now && (exactly ==> now <= was) && Quiet(common, exactly) && (now - was) * newRequired == {}
            && newRequired - oldRequired <= now && oldRequired - newRequired <= was)
  {
    NamesTell(was, now, oldRequired, newRequired, path);
    GainedBreaks(was, now, newRequired, path);
    QuietFive(Lost(was, now, path), Gained(was, now, newRequired, path), common,
              NewlyRequired(now, oldRequired, newRequired, path),
              NoLongerRequired(was, oldRequired, newRequired, path), exactly);
    assert now <= was ==> now - was == {};
  }

  lemma PropertiesAddUp(was: set<string>, now: set<string>, oldRequired: set<string>, newRequired: set<string>,
                        path: Path,
                        common: seq<Change>, alike: bool, exactly: bool)
    requires Quiet(common, exactly) <==> (was * now) * oldRequired == (was * now) * newRequired && alike
    ensures Quiet(PropertyReport(was, now, oldRequired, newRequired, path, common), exactly)
      <==> (&& was <= now && (exactly ==> now <= was) && alike
            && oldRequired == newRequired && (now - was) * newRequired == {})
  {
    PropertyNamesQuiet(was, now, oldRequired, newRequired, path, common, exactly);
    if was <= now {
      assert was * now == was;
      RequiredFromParts(was, now, oldRequired, newRequired);
    }
  }

  lemma PropertiesQuiet(before: Json, after: Json, path: Path, exactly: bool)
    requires before.Obj? && after.Obj?
    requires CompareProperties(before, after, path).Ok?
    ensures Quiet(CompareProperties(before, after, path).value, exactly)
      <==> AlikeNamed(before, after, "properties", exactly) && AlikeRequired(before.fields, after.fields)
    decreases before, 1
  {
    var was, now := SchemaMap(Get(before.fields, "properties")).value, SchemaMap(Get(after.fields, "properties")).value;
    var oldRequired, newRequired := Required(Get(before.fields, "required")).value, Required(Get(after.fields,
      "required")).value;
    TablesQuiet(before, was, now, oldRequired, newRequired, path, exactly);
  }

  lemma TablesQuiet(before: Json, was: Object, now: Object, oldRequired: set<string>, newRequired: set<string>,
                    path: Path, exactly: bool)
    requires before.Obj? && forall n | n in was && n in now :: was[n].Obj? && now[n].Obj? && was[n] < before
    requires CompareCommon(before, was, now, oldRequired, newRequired, path, InOrder(was.Keys * now.Keys)).Ok?
    ensures Quiet(PropertyReport(was.Keys, now.Keys, oldRequired, newRequired, path,
                                 CompareCommon(before, was, now, oldRequired, newRequired, path,
                                   InOrder(was.Keys * now.Keys)).value), exactly)
      <==> (was.Keys <= now.Keys && (exactly ==> now.Keys <= was.Keys) && AllAlike(before, was, now, was.Keys, exactly)
            && oldRequired == newRequired && (now.Keys - was.Keys) * newRequired == {})
    decreases before, 0
  {
    var names := InOrder(was.Keys * now.Keys);
    var common := CompareCommon(before, was, now, oldRequired, newRequired, path, names).value;
    CommonQuiet(before, was, now, oldRequired, newRequired, path, names, exactly);
    ListedCommon(was.Keys, now.Keys);
    PropertiesAddUp(was.Keys, now.Keys, oldRequired, newRequired, path, common,
                    AllAlike(before, was, now, Listed(names), exactly), exactly);
  }

  lemma QuietFive(v: seq<Change>, w: seq<Change>, x: seq<Change>, y: seq<Change>, z: seq<Change>, exactly: bool)
    ensures Quiet(v + w + x + y + z, exactly)
      <==> Quiet(v, exactly) && Quiet(w, exactly) && Quiet(x, exactly) && Quiet(y, exactly) && Quiet(z, exactly)
  {
    QuietParts(v, w, exactly);
    QuietParts(v + w, x, exactly);
    QuietParts(v + w + x, y, exactly);
    QuietParts(v + w + x + y, z, exactly);
  }

  /** The separate reports about names add up to equality of the required names. */
  lemma RequiredFromParts(was: set<string>, now: set<string>, oldRequired: set<string>, newRequired: set<string>)
    requires was <= now
    ensures (now - was) * newRequired == {} && newRequired - oldRequired <= now && oldRequired - newRequired <= was
            && was * oldRequired == was * newRequired
      <==> oldRequired == newRequired && (now - was) * newRequired == {}
  {
    if (now - was) * newRequired == {} && newRequired - oldRequired <= now && oldRequired - newRequired <= was
       && was * oldRequired == was * newRequired {
      forall n ensures n in oldRequired <==> n in newRequired {
        assert n in now - was ==> (n in newRequired <==> n in (now - was) * newRequired);
        assert n in newRequired && n !in oldRequired ==> n in newRequired - oldRequired;
        assert n in oldRequired && n !in newRequired ==> n in oldRequired - newRequired;
        assert n in was ==> (n in oldRequired <==> n in was * oldRequired);
      }
    }
  }

  lemma {:induction false} NamedQuiet(before: Json, was: Object, now: Object, path: Path, names: seq<string>,
                                      exactly: bool)
    requires before.Obj? && forall n | n in names :: n in was && n in now && was[n].Obj? && now[n].Obj?
    requires forall n | n in names :: was[n] < before
    requires CompareNamed(before, was, now, path, names).Ok?
    ensures Quiet(CompareNamed(before, was, now, path, names).value, exactly)
      <==> AllAlike(before, was, now, Listed(names), exactly)
    decreases before, 0, |names|
  {
    if names != [] {
      var name := names[0];
      assert name in names && Listed(names) == {name} + Listed(names[1..]);
      AllAlikeMore(before, was, now, name, Listed(names[1..]), exactly);
      NamedQuiet(before, was, now, path, names[1..], exactly);
      SchemaQuiet(was[name], now[name], path + [name], exactly);
      QuietParts(CompareSchema(was[name], now[name], path + [name]).value,
                 CompareNamed(before, was, now, path, names[1..]).value, exactly);
    }
  }

  lemma DefinitionNamesQuiet(was: set<string>, now: set<string>, path: Path, exactly: bool)
    ensures Quiet(DefinitionNames(was, now, path), exactly) <==> was <= now && (exactly ==> now <= was)
  {
    var lost := Each(was - now, name => Change(SchemaRemoved, Breaking, path + [name]));
    var gained := Each(now - was, name => Change(SchemaAdded, Additive, path + [name]));
    EachTells(was - now, name => Change(SchemaRemoved, Breaking, path + [name]));
    EachIs(now - was, name => Change(SchemaAdded, Additive, path + [name]));
    EmptyDifference(was, now);
    EmptyDifference(now, was);
    QuietParts(lost, gained, exactly);
  }

  lemma DefinitionsQuiet(before: Json, after: Json, path: Path, keyword: string, exactly: bool)
    requires before.Obj? && after.Obj?
    requires CompareDefinitions(before, after, path, keyword).Ok?
    ensures Quiet(CompareDefinitions(before, after, path, keyword).value, exactly) <==>
      AlikeNamed(before, after, keyword, exactly)
    decreases before, 1
  {
    var was, now := SchemaMap(Get(before.fields, keyword)).value, SchemaMap(Get(after.fields, keyword)).value;
    var names := InOrder(was.Keys * now.Keys);
    NamedQuiet(before, was, now, path + [keyword], names, exactly);
    DefinitionNamesQuiet(was.Keys, now.Keys, path + [keyword], exactly);
    QuietParts(DefinitionNames(was.Keys, now.Keys, path + [keyword]),
      CompareNamed(before, was, now, path + [keyword], names).value, exactly);
    ListedCommon(was.Keys, now.Keys);
  }

  lemma AdditionalQuiet(before: Json, after: Json, path: Path, exactly: bool)
    requires before.Obj? && after.Obj?
    requires CompareAdditional(before, after, path).Ok?
    ensures Quiet(CompareAdditional(before, after, path).value, exactly) <==> AlikeAdditional(before, after, exactly)
    decreases before, 1
  {
    var was, now := Additional(before.fields), Additional(after.fields);
    var changes := CompareAdditional(before, after, path).value;
    if PyEq(was, now) {
      if was.Obj? {
        SchemaQuiet(was, now, path + ["additionalProperties"], exactly);
      }
    } else {
      assert changes[0] in changes;
    }
  }

  lemma ItemsQuiet(before: Json, after: Json, path: Path, exactly: bool)
    requires before.Obj? && after.Obj?
    requires CompareItems(before, after, path).Ok?
    ensures Quiet(CompareItems(before, after, path).value, exactly) <==> AlikeItems(before, after, exactly)
    decreases before, 1
  {
    var was, now := Get(before.fields, "items"), Get(after.fields, "items");
    var changes := CompareItems(before, after, path).value;
    if was.Obj? && now.Obj? {
      SchemaQuiet(was, now, path + ["items"], exactly);
    } else if "items" in before.fields || "items" in after.fields {
      assert changes[0] in changes;
    }
  }

  lemma {:induction false} GatherQuiet(parts: seq<Result<seq<Change>>>, k: nat, exactly: bool)
    requires k <= |parts|
    ensures Gather(parts, k).Ok? <==> forall i | k <= i < |parts| :: parts[i].Ok?
    ensures Gather(parts, k).Ok? ==>
      (Quiet(Gather(parts, k).value, exactly) <==>
       forall i | k <= i < |parts| :: parts[i].Ok? && Quiet(parts[i].value, exactly))
    decreases |parts| - k
  {
    if k < |parts| {
      GatherQuiet(parts, k + 1, exactly);
      if Gather(parts, k).Ok? {
        QuietParts(parts[k].value, Gather(parts, k + 1).value, exactly);
      }
    }
  }

  /** The comparison succeeds, and is quiet, exactly when every part of it is. */
  lemma AllParts(before: Json, after: Json, path: Path, exactly: bool)
    requires before.Obj? && after.Obj?
    ensures QuietResult(CompareSchema(before, after, path), exactly)
      <==> (QuietResult(CompareType(before.fields, after.fields, path), exactly)
            && QuietResult(CompareEnum(before.fields, after.fields, path), exactly)
            && QuietResult(CompareProperties(before, after, path), exactly)
            && QuietResult(CompareDefinitions(before, after, path, "$defs"), exactly)
            && QuietResult(CompareDefinitions(before, after, path, "definitions"), exactly)
            && QuietResult(CompareAdditional(before, after, path), exactly)
            && QuietResult(CompareConstraints(before.fields, after.fields, path, ORDERED), exactly)
            && Quiet(CompareExact(before.fields, after.fields, path, EXACT), exactly)
            && QuietResult(CompareItems(before, after, path), exactly))
    ensures CompareSchema(before, after, path).Ok?
      <==> (CompareType(before.fields, after.fields, path).Ok? && CompareEnum(before.fields, after.fields, path).Ok?
            && CompareProperties(before, after, path).Ok? && CompareDefinitions(before, after, path, "$defs").Ok?
            && CompareDefinitions(before, after, path, "definitions").Ok? && CompareAdditional(before, after, path).Ok?
            && CompareConstraints(before.fields, after.fields, path, ORDERED).Ok?
            && CompareItems(before, after, path).Ok?)
  {
    NineParts(CompareType(before.fields, after.fields, path), CompareEnum(before.fields, after.fields, path),
              CompareProperties(before, after, path), CompareDefinitions(before, after, path, "$defs"),
              CompareDefinitions(before, after, path, "definitions"), CompareAdditional(before, after, path),
              CompareConstraints(before.fields, after.fields, path, ORDERED),
              Ok(CompareExact(before.fields, after.fields, path, EXACT)),
              CompareItems(before, after, path), exactly);
  }

  ghost predicate QuietResult(r: Result<seq<Change>>, exactly: bool) {
    r.Ok? && Quiet(r.value, exactly)
  }

  lemma NineParts(a: Result<seq<Change>>, b: Result<seq<Change>>, c: Result<seq<Change>>, d: Result<seq<Change>>,
                  e: Result<seq<Change>>,
                  f: Result<seq<Change>>, g: Result<seq<Change>>, h: Result<seq<Change>>, i: Result<seq<Change>>,
                  exactly: bool)
    ensures QuietResult(Gather([a, b, c, d, e, f, g, h, i], 0), exactly)
      <==> (QuietResult(a, exactly) && QuietResult(b, exactly) && QuietResult(c, exactly) && QuietResult(d, exactly)
            && QuietResult(e, exactly) && QuietResult(f, exactly) && QuietResult(g, exactly) && QuietResult(h, exactly)
            && QuietResult(i, exactly))
    ensures Gather([a, b, c, d, e, f, g, h, i], 0).Ok?
      <==> a.Ok? && b.Ok? && c.Ok? && d.Ok? && e.Ok? && f.Ok? && g.Ok? && h.Ok? && i.Ok?
  {
    var parts := [a, b, c, d, e, f, g, h, i];
    GatherQuiet(parts, 0, exactly);
    assert parts[0] == a && parts[1] == b && parts[2] == c && parts[3] == d && parts[4] == e;
    assert parts[5] == f && parts[6] == g && parts[7] == h && parts[8] == i;
  }

  /**
   The verdict on any two documents that can be compared, at any place: the report is empty
   exactly when the documents agree, and free of breaking changes exactly when the candidate
   only adds to the baseline.
   */
  lemma {:induction false} SchemaQuiet(before: Json, after: Json, path: Path, exactly: bool)
    requires before.Obj? && after.Obj?
    requires CompareSchema(before, after, path).Ok?
    ensures Quiet(CompareSchema(before, after, path).value, exactly) <==> Alike(before, after, exactly)
    decreases before, 2
  {
    var b, a := before.fields, after.fields;
    AllParts(before, after, path, exactly);
    TypeTells(b, a, path);
    EnumTells(b, a, path);
    PropertiesQuiet(before, after, path, exactly);
    DefinitionsQuiet(before, after, path, "$defs", exactly);
    DefinitionsQuiet(before, after, path, "definitions", exactly);
    AdditionalQuiet(before, after, path, exactly);
    ConstraintsTell(b, a, path, ORDERED);
    ExactTells(b, a, path, EXACT);
    ItemsQuiet(before, after, path, exactly);
  }

  // ----- a document against itself

  /** Every part of the document that the comparison reads has the shape it requires. */
  ghost predicate WellFormed(schema: Json)
    requires schema.Obj?
    decreases schema, 1
  {
    var o := schema.fields;
    && Types(Get(o, "type")).Ok? && EnumValues(Get(o, "enum")).Ok? && Required(Get(o, "required")).Ok?
    && WellNamed(schema, "properties") && WellNamed(schema, "$defs") && WellNamed(schema, "definitions")
    && (Additional(o).Obj? ==> WellFormed(Additional(o)))
    && ("items" in o ==> o["items"].Obj? && WellFormed(o["items"]))
  }

  ghost predicate WellNamed(schema: Json, keyword: string)
    requires schema.Obj?
    decreases schema, 0
  {
    var table := SchemaMap(Get(schema.fields, keyword));
    table.Ok? && forall n | n in table.value :: WellFormed(table.value[n])
  }

  lemma {:induction false} ConstraintsAgree(b: Object, a: Object, path: Path, keywords: seq<string>)
    requires forall k | k in keywords :: PyEq(Get(b, k), Get(a, k))
    ensures CompareConstraints(b, a, path, keywords) == Ok([])
  {
    if keywords != [] {
      assert keywords[0] in keywords;
      ConstraintsAgree(b, a, path, keywords[1..]);
    }
  }

  ghost predicate AllWell(before: Json, table: Object, names: set<string>)
    requires forall n | n in names :: n in table && table[n].Obj? && table[n] < before
  {
    forall n {:trigger WellFormed(table[n])} | n in names :: WellFormed(table[n])
  }

  lemma AllWellMore(before: Json, table: Object, name: string, names: set<string>)
    requires forall n | n in {name} + names :: n in table && table[n].Obj? && table[n] < before
    ensures AllWell(before, table, {name} + names) <==> WellFormed(table[name]) && AllWell(before, table, names)
  {
    assert name in {name} + names;
  }

  lemma {:induction false} SelfCommon(before: Json, table: Object, required: set<string>, path: Path,
                                      names: seq<string>)
    requires before.Obj? && forall n | n in names :: n in table && table[n].Obj? && table[n] < before
    ensures CompareCommon(before, table, table, required, required, path, names) == Ok([]) <==>
      AllWell(before, table, Listed(names))
    decreases before, 0, |names|
  {
    if names != [] {
      assert names[0] in names && Listed(names) == {names[0]} + Listed(names[1..]);
      AllWellMore(before, table, names[0], Listed(names[1..]));
      SelfCommon(before, table, required, path, names[1..]);
      SelfCompare(table[names[0]], path + ["properties", names[0]]);
    }
  }

  lemma {:induction false} SelfNamed(before: Json, table: Object, path: Path, names: seq<string>)
    requires before.Obj? && forall n | n in names :: n in table && table[n].Obj? && table[n] < before
    ensures CompareNamed(before, table, table, path, names) == Ok([]) <==> AllWell(before, table, Listed(names))
    decreases before, 0, |names|
  {
    if names != [] {
      assert names[0] in names && Listed(names) == {names[0]} + Listed(names[1..]);
      AllWellMore(before, table, names[0], Listed(names[1..]));
      SelfNamed(before, table, path, names[1..]);
      SelfCompare(table[names[0]], path + [names[0]]);
    }
  }

  lemma SelfReport(names: set<string>, required: set<string>, path: Path, common: seq<Change>)
    ensures PropertyReport(names, names, required, required, path, common) == common
    ensures DefinitionNames(names, names, path) == []
  {
    assert names - names == {} && (required - required) - names == {};
  }

  lemma SelfProperties(schema: Json, path: Path)
    requires schema.Obj?
    ensures CompareProperties(schema, schema, path) == Ok([])
      <==> WellNamed(schema, "properties") && Required(Get(schema.fields, "required")).Ok?
    decreases schema, 1
  {
    var table, required := SchemaMap(Get(schema.fields, "properties")), Required(Get(schema.fields, "required"));
    if table.Ok? && required.Ok? {
      var names := InOrder(table.value.Keys * table.value.Keys);
      SelfCommon(schema, table.value, required.value, path, names);
      ListedCommon(table.value.Keys, table.value.Keys);
      var common := CompareCommon(schema, table.value, table.value, required.value, required.value, path, names);
      if common.Ok? {
        SelfReport(table.value.Keys, required.value, path, common.value);
      }
    }
  }

  lemma SelfDefinitions(schema: Json, path: Path, keyword: string)
    requires schema.Obj?
    ensures CompareDefinitions(schema, schema, path, keyword) == Ok([]) <==> WellNamed(schema, keyword)
    decreases schema, 1
  {
    var table := SchemaMap(Get(schema.fields, keyword));
    if table.Ok? {
      var names := InOrder(table.value.Keys * table.value.Keys);
      SelfNamed(schema, table.value, path + [keyword], names);
      ListedCommon(table.value.Keys, table.value.Keys);
      SelfReport(table.value.Keys, {}, path + [keyword], []);
    }
  }

  /**
   A document compared with itself gives an empty report exactly when it is well formed; an
   `items` that is JSON null is reported as a change even against itself.
   */
  lemma {:induction false} SelfCompare(schema: Json, path: Path)
    requires schema.Obj?
    ensures CompareSchema(schema, schema, path) == Ok([]) <==> WellFormed(schema)
    decreases schema, 2
  {
    var o := schema.fields;
    AllParts(schema, schema, path, true);
    SelfProperties(schema, path);
    SelfDefinitions(schema, path, "$defs");
    SelfDefinitions(schema, path, "definitions");
    SelfKeywords(o, path);
    SelfAdditional(schema, path);
    SelfItems(schema, path);
  }

  lemma SelfAdditional(schema: Json, path: Path)
    requires schema.Obj?
    ensures CompareAdditional(schema, schema, path) == Ok([])
      <==> (Additional(schema.fields).Obj? ==> WellFormed(Additional(schema.fields)))
    decreases schema, 1
  {
    PyEqReflexive(Additional(schema.fields));
    if Additional(schema.fields).Obj? {
      SelfCompare(Additional(schema.fields), path + ["additionalProperties"]);
    }
  }

  lemma SelfItems(schema: Json, path: Path)
    requires schema.Obj?
    ensures CompareItems(schema, schema, path) == Ok([])
      <==> ("items" in schema.fields ==> schema.fields["items"].Obj? && WellFormed(schema.fields["items"]))
    decreases schema, 1
  {
    if Get(schema.fields, "items").Obj? {
      SelfCompare(Get(schema.fields, "items"), path + ["items"]);
    }
  }

  lemma SelfKeywords(o: Object, path: Path)
    ensures CompareConstraints(o, o, path, ORDERED) == Ok([]) && CompareExact(o, o, path, EXACT) == []
    ensures CompareType(o, o, path) == Ok([]) <==> Types(Get(o, "type")).Ok?
    ensures CompareEnum(o, o, path) == Ok([]) <==> EnumValues(Get(o, "enum")).Ok?
  {
    forall k ensures PyEq(Get(o, k), Get(o, k)) {
      PyEqReflexive(Get(o, k));
    }
    ConstraintsAgree(o, o, path, ORDERED);
    ExactTells(o, o, path, EXACT);
  }
}
