/**
 `schema_diff` as it runs: the comparators recurse and append to one shared list of
 changes. Each is proved to append exactly what the function of the same name in
 SchemaDiff returns, and to fail exactly when that function does.
 */
module SchemaReport {
  import opened Options
  import opened Orders
  import opened SchemaDiff

  /** The list that `compare_schema_fragment` passes down. */
  class Changes {
    var all: seq<Change>

    constructor ()
      ensures all == []
    {
      all := [];
    }
  }

  /** What a comparator owes its caller: `extra` appended, or a failure. */
  ghost predicate Appended(before: seq<Change>, after: seq<Change>, ok: bool, extra: Result<seq<Change>>) {
    (ok <==> extra.Ok?) && (ok ==> after == before + extra.value)
  }

  /** Part of a report, then the rest of it. */
  ghost function Then(part: Result<seq<Change>>, rest: Result<seq<Change>>): Result<seq<Change>> {
    if part.Err? || rest.Err? then Err else Ok(part.value + rest.value)
  }

  /** With `rest` still to come, the list started at `start` will have gained `whole`. */
  ghost predicate Remaining(start: seq<Change>, whole: Result<seq<Change>>, now: seq<Change>,
                            rest: Result<seq<Change>>) {
    (whole.Ok? <==> rest.Ok?) && (whole.Ok? ==> start + whole.value == now + rest.value)
  }

  lemma Advance(start: seq<Change>, whole: Result<seq<Change>>, now: seq<Change>, next: seq<Change>, ok: bool,
                part: Result<seq<Change>>, rest: Result<seq<Change>>)
    requires Remaining(start, whole, now, Then(part, rest)) && Appended(now, next, ok, part)
    ensures if ok then Remaining(start, whole, next, rest) else whole.Err?
  {
    if whole.Ok? {
      assert now + (part.value + rest.value) == next + rest.value;
    }
  }

  lemma Finish(start: seq<Change>, whole: Result<seq<Change>>, now: seq<Change>)
    requires Remaining(start, whole, now, Ok([]))
    ensures Appended(start, now, true, whole)
  {
    assert now + [] == now;
  }

  method AppendEach(changes: Changes, names: set<string>, change: string -> Change)
    modifies changes
    ensures changes.all == old(changes.all) + Each(names, change)
  {
    AppendListed(changes, InOrder(names), change);
  }

  method AppendListed(changes: Changes, listed: seq<string>, change: string -> Change)
    modifies changes
    ensures changes.all == old(changes.all) + seq(|listed|, i requires 0 <= i < |listed| => change(listed[i]))
  {
    for i := 0 to |listed|
      invariant changes.all == old(changes.all) + seq(i, j requires 0 <= j < i => change(listed[j]))
    {
      changes.all := changes.all + [change(listed[i])];
    }
  }

  method CompareConstraintsInto(changes: Changes, b: Object, a: Object, path: Path, keywords: seq<string>)
    returns (ok: bool)
    modifies changes
    ensures Appended(old(changes.all), changes.all, ok, CompareConstraints(b, a, path, keywords))
  {
    ok := true;
    var i := 0;
    assert keywords[0..] == keywords;
    while i < |keywords|
      invariant 0 <= i <= |keywords|
      invariant CompareConstraints(b, a, path, keywords).Ok? <==> CompareConstraints(b, a, path, keywords[i..]).Ok?
      invariant CompareConstraints(b, a, path, keywords).Ok? ==>
        old(changes.all) + CompareConstraints(b, a, path, keywords).value
        == changes.all + CompareConstraints(b, a, path, keywords[i..]).value
    {
      var keyword := keywords[i];
      assert keywords[i..][1..] == keywords[i + 1..];
      var was, now := Get(b, keyword), Get(a, keyword);
      if !PyEq(was, now) {
        if !was.Null? && !now.Null? && (AsNumber(was).None? || AsNumber(now).None?) {
          return false;
        }
        changes.all := changes.all + [Change(ConstraintChanged, Breaking, path + [keyword])];
      }
      i := i + 1;
    }
  }

  method CompareExactInto(changes: Changes, b: Object, a: Object, path: Path, keywords: seq<string>)
    modifies changes
    ensures changes.all == old(changes.all) + CompareExact(b, a, path, keywords)
  {
    var i := 0;
    assert keywords[0..] == keywords;
    while i < |keywords|
      invariant 0 <= i <= |keywords|
      invariant old(changes.all) + CompareExact(b, a, path, keywords)
           == changes.all + CompareExact(b, a, path, keywords[i..])
    {
      assert keywords[i..][1..] == keywords[i + 1..];
      if !SameKeyword(b, a, keywords[i]) {
        changes.all := changes.all + [Change(KeywordChanged, Breaking, path + [keywords[i]])];
      }
      i := i + 1;
    }
  }

  method CompareTypeInto(changes: Changes, b: Object, a: Object, path: Path) returns (ok: bool)
    modifies changes
    ensures Appended(old(changes.all), changes.all, ok, CompareType(b, a, path))
  {
    var was, now := Types(Get(b, "type")), Types(Get(a, "type"));
    if was.Err? || now.Err? {
      return false;
    }
    if was.value != now.value {
      var kind := if was.value.Some? && now.value.Some? && was.value.value < now.value.value then TypesAdded
        else TypeChanged;
      changes.all := changes.all + [Change(kind, Breaking, path + ["type"])];
    }
    return true;
  }

  method CompareEnumInto(changes: Changes, b: Object, a: Object, path: Path) returns (ok: bool)
    modifies changes
    ensures Appended(old(changes.all), changes.all, ok, CompareEnum(b, a, path))
  {
    var was, now := EnumValues(Get(b, "enum")), EnumValues(Get(a, "enum"));
    if was.Err? || now.Err? {
      return false;
    }
    if was.value == now.value {
      return true;
    }
    if was.value.None? || now.value.None? {
      var kind := if now.value.None? then EnumRemoved else EnumAdded;
      changes.all := changes.all + [Change(kind, Breaking, path + ["enum"])];
      return true;
    }
    if was.value.value - now.value.value != {} {
      changes.all := changes.all + [Change(EnumValuesRemoved, Breaking, path + ["enum"])];
    }
    if now.value.value - was.value.value != {} {
      changes.all := changes.all + [Change(EnumValuesAdded, Breaking, path + ["enum"])];
    }
    return true;
  }

  // ----- the recursion

  lemma CommonStep(before: Json, was: Object, now: Object, oldRequired: set<string>, newRequired: set<string>,
                   path: Path, names: seq<string>, i: nat)
    requires before.Obj? && forall n | n in names ::
      n in was && n in now && was[n].Obj? && now[n].Obj? && was[n] < before
    requires i < |names|
    ensures CompareCommon(before, was, now, oldRequired, newRequired, path, names[i..])
         == Then(CommonPart(was[names[i]], now[names[i]], oldRequired, newRequired, path, names[i]),
                 CompareCommon(before, was, now, oldRequired, newRequired, path, names[i + 1..]))
  {
    assert names[i..][0] == names[i] && names[i..][1..] == names[i + 1..];
  }

  ghost function CommonPart(was: Json, now: Json, oldRequired: set<string>, newRequired: set<string>, path: Path,
                            name: string): Result<seq<Change>>
    requires was.Obj? && now.Obj?
  {
    Then(Ok(Requiredness(name, oldRequired, newRequired, path)), CompareSchema(was, now, path + ["properties", name]))
  }

  method CompareCommonInto(changes: Changes, before: Json, was: Object, now: Object, oldRequired: set<string>,
                           newRequired: set<string>,
                           path: Path, names: seq<string>) returns (ok: bool)
    requires before.Obj? && forall n | n in names ::
      n in was && n in now && was[n].Obj? && now[n].Obj? && was[n] < before
    modifies changes
    ensures Appended(old(changes.all), changes.all, ok,
      CompareCommon(before, was, now, oldRequired, newRequired, path, names))
    decreases before, 0, 0
  {
    ghost var whole := CompareCommon(before, was, now, oldRequired, newRequired, path, names);
    assert names[0..] == names;
    for i := 0 to |names|
      invariant Remaining(old(changes.all), whole, changes.all,
        CompareCommon(before, was, now, oldRequired, newRequired, path, names[i..]))
    {
      CommonStep(before, was, now, oldRequired, newRequired, path, names, i);
      ghost var start := changes.all;
      ok := CompareOneInto(changes, was[names[i]], now[names[i]], oldRequired, newRequired, path, names[i]);
      Advance(old(changes.all), whole, start, changes.all, ok,
        CommonPart(was[names[i]], now[names[i]], oldRequired, newRequired, path, names[i]),
              CompareCommon(before, was, now, oldRequired, newRequired, path, names[i + 1..]));
      if !ok {
        return;
      }
    }
    Finish(old(changes.all), whole, changes.all);
    return true;
  }

  /** A property both documents have: the change of requiredness, then the schemas. */
  method CompareOneInto(changes: Changes, was: Json, now: Json, oldRequired: set<string>, newRequired: set<string>,
                        path: Path, name: string)
    returns (ok: bool)
    requires was.Obj? && now.Obj?
    modifies changes
    ensures Appended(old(changes.all), changes.all, ok, CommonPart(was, now, oldRequired, newRequired, path, name))
    decreases was, 4
  {
    if name !in oldRequired && name in newRequired {
      changes.all := changes.all + [Change(BecameRequired, Breaking, path + ["required"])];
    } else if name in oldRequired && name !in newRequired {
      changes.all := changes.all + [Change(BecameOptional, Breaking, path + ["required"])];
    }
    ghost var mid := changes.all;
    assert mid == old(changes.all) + Requiredness(name, oldRequired, newRequired, path);
    ok := CompareInto(changes, was, now, path + ["properties", name]);
    Compose(old(changes.all), mid, changes.all, ok, Requiredness(name, oldRequired, newRequired, path),
            CompareSchema(was, now, path + ["properties", name]));
  }

  lemma Compose(start: seq<Change>, mid: seq<Change>, next: seq<Change>, ok: bool, first: seq<Change>,
                second: Result<seq<Change>>)
    requires mid == start + first && Appended(mid, next, ok, second)
    ensures Appended(start, next, ok, Then(Ok(first), second))
  {
    if ok {
      assert start + first + second.value == start + (first + second.value);
    }
  }

  lemma NamedStep(before: Json, was: Object, now: Object, path: Path, names: seq<string>, i: nat)
    requires before.Obj? && forall n | n in names ::
      n in was && n in now && was[n].Obj? && now[n].Obj? && was[n] < before
    requires i < |names|
    ensures CompareNamed(before, was, now, path, names[i..])
         == Then(CompareSchema(was[names[i]], now[names[i]], path + [names[i]]),
           CompareNamed(before, was, now, path, names[i + 1..]))
  {
    assert names[i..][0] == names[i] && names[i..][1..] == names[i + 1..];
  }

  method CompareNamedInto(changes: Changes, before: Json, was: Object, now: Object, path: Path, names: seq<string>)
    returns (ok: bool)
    requires before.Obj? && forall n | n in names ::
      n in was && n in now && was[n].Obj? && now[n].Obj? && was[n] < before
    modifies changes
    ensures Appended(old(changes.all), changes.all, ok, CompareNamed(before, was, now, path, names))
    decreases before, 0, 0
  {
    ghost var whole := CompareNamed(before, was, now, path, names);
    assert names[0..] == names;
    for i := 0 to |names|
      invariant Remaining(old(changes.all), whole, changes.all, CompareNamed(before, was, now, path, names[i..]))
    {
      NamedStep(before, was, now, path, names, i);
      ghost var start := changes.all;
      ok := CompareInto(changes, was[names[i]], now[names[i]], path + [names[i]]);
      Advance(old(changes.all), whole, start, changes.all, ok,
        CompareSchema(was[names[i]], now[names[i]], path + [names[i]]),
              CompareNamed(before, was, now, path, names[i + 1..]));
      if !ok {
        return;
      }
    }
    Finish(old(changes.all), whole, changes.all);
    return true;
  }

  method ComparePropertiesInto(changes: Changes, before: Json, after: Json, path: Path) returns (ok: bool)
    requires before.Obj? && after.Obj?
    modifies changes
    ensures Appended(old(changes.all), changes.all, ok, CompareProperties(before, after, path))
    decreases before, 1
  {
    var was, now := SchemaMap(Get(before.fields, "properties")), SchemaMap(Get(after.fields, "properties"));
    var oldRequired, newRequired := Required(Get(before.fields, "required")), Required(Get(after.fields, "required"));
    if was.Err? || now.Err? || oldRequired.Err? || newRequired.Err? {
      return false;
    }
    ok := CompareTablesInto(changes, before, was.value, now.value, oldRequired.value, newRequired.value, path);
  }

  method CompareTablesInto(changes: Changes, before: Json, was: Object, now: Object, oldRequired: set<string>,
                           newRequired: set<string>,
                           path: Path) returns (ok: bool)
    requires before.Obj? && forall n | n in was && n in now :: was[n].Obj? && now[n].Obj? && was[n] < before
    modifies changes
    ensures Appended(old(changes.all), changes.all, ok,
                     TableReport(was.Keys, now.Keys, oldRequired, newRequired, path,
                                 CompareCommon(before, was, now, oldRequired, newRequired, path,
                                   InOrder(was.Keys * now.Keys))))
    decreases before, 0, 1
  {
    AppendPropertyNames(changes, was.Keys, now.Keys, newRequired, path);
    ok := CompareCommonInto(changes, before, was, now, oldRequired, newRequired, path, InOrder(was.Keys * now.Keys));
    if ok {
      AppendRequiredNames(changes, was.Keys, now.Keys, oldRequired, newRequired, path);
      AddUp(old(changes.all), was.Keys, now.Keys, oldRequired, newRequired, path,
            CompareCommon(before, was, now, oldRequired, newRequired, path, InOrder(was.Keys * now.Keys)).value);
    }
  }

  method AppendPropertyNames(changes: Changes, was: set<string>, now: set<string>, newRequired: set<string>, path: Path)
    modifies changes
    ensures changes.all == old(changes.all) + (Lost(was, now, path) + Gained(was, now, newRequired, path))
  {
    AppendEach(changes, was - now, name => Change(PropertyRemoved, Breaking, path + ["properties", name]));
    AppendEach(changes, now - was, name =>
      if name in newRequired then Change(RequiredPropertyAdded, Breaking, path + ["properties", name])
      else Change(OptionalPropertyAdded, Additive, path + ["properties", name]));
    Associate(old(changes.all), Lost(was, now, path), Gained(was, now, newRequired, path));
  }

  method AppendRequiredNames(changes: Changes, was: set<string>, now: set<string>, oldRequired: set<string>,
                             newRequired: set<string>, path: Path)
    modifies changes
    ensures changes.all
         == old(changes.all) + (NewlyRequired(now, oldRequired, newRequired, path)
                                + NoLongerRequired(was, oldRequired, newRequired, path))
  {
    AppendEach(changes, (newRequired - oldRequired) - now,
      name => Change(RequiredNameAdded, Breaking, path + ["required"]));
    AppendEach(changes, (oldRequired - newRequired) - was,
      name => Change(RequiredNameRemoved, Breaking, path + ["required"]));
    Associate(old(changes.all), NewlyRequired(now, oldRequired, newRequired, path),
      NoLongerRequired(was, oldRequired, newRequired, path));
  }

  method AppendDefinitionNames(changes: Changes, was: set<string>, now: set<string>, path: Path)
    modifies changes
    ensures changes.all == old(changes.all) + DefinitionNames(was, now, path)
  {
    AppendEach(changes, was - now, name => Change(SchemaRemoved, Breaking, path + [name]));
    AppendEach(changes, now - was, name => Change(SchemaAdded, Additive, path + [name]));
    Associate(old(changes.all), Each(was - now, name => Change(SchemaRemoved, Breaking, path + [name])),
              Each(now - was, name => Change(SchemaAdded, Additive, path + [name])));
  }

  lemma Associate(x: seq<Change>, y: seq<Change>, z: seq<Change>)
    ensures x + y + z == x + (y + z)
  {
  }

  lemma AddUp(start: seq<Change>, was: set<string>, now: set<string>, oldRequired: set<string>,
              newRequired: set<string>, path: Path,
              common: seq<Change>)
    ensures start + (Lost(was, now, path) + Gained(was, now, newRequired, path)) + common
            + (NewlyRequired(now, oldRequired, newRequired, path)
               + NoLongerRequired(was, oldRequired, newRequired, path))
         == start + PropertyReport(was, now, oldRequired, newRequired, path, common)
  {
    FivePieces(start, Lost(was, now, path), Gained(was, now, newRequired, path), common,
               NewlyRequired(now, oldRequired, newRequired, path), NoLongerRequired(was, oldRequired, newRequired,
                 path));
  }

  lemma FivePieces(start: seq<Change>, v: seq<Change>, w: seq<Change>, x: seq<Change>, y: seq<Change>, z: seq<Change>)
    ensures start + (v + w) + x + (y + z) == start + (v + w + x + y + z)
  {
  }

  ghost function TableReport(was: set<string>, now: set<string>, oldRequired: set<string>, newRequired: set<string>,
                             path: Path,
                             common: Result<seq<Change>>): Result<seq<Change>> {
    if common.Ok? then Ok(PropertyReport(was, now, oldRequired, newRequired, path, common.value)) else Err
  }

  method CompareDefinitionsInto(changes: Changes, before: Json, after: Json, path: Path, keyword: string)
    returns (ok: bool)
    requires before.Obj? && after.Obj?
    modifies changes
    ensures Appended(old(changes.all), changes.all, ok, CompareDefinitions(before, after, path, keyword))
    decreases before, 1
  {
    var was, now := SchemaMap(Get(before.fields, keyword)), SchemaMap(Get(after.fields, keyword));
    if was.Err? || now.Err? {
      return false;
    }
    ok := CompareNamedTablesInto(changes, before, was.value, now.value, path + [keyword]);
  }

  method CompareNamedTablesInto(changes: Changes, before: Json, was: Object, now: Object, path: Path) returns (ok: bool)
    requires before.Obj? && forall n | n in was && n in now :: was[n].Obj? && now[n].Obj? && was[n] < before
    modifies changes
    ensures Appended(old(changes.all), changes.all, ok,
                     Then(Ok(DefinitionNames(was.Keys, now.Keys, path)),
                       CompareNamed(before, was, now, path, InOrder(was.Keys * now.Keys))))
    decreases before, 0, 1
  {
    AppendDefinitionNames(changes, was.Keys, now.Keys, path);
    ghost var mid := changes.all;
    ok := CompareNamedInto(changes, before, was, now, path, InOrder(was.Keys * now.Keys));
    Compose(old(changes.all), mid, changes.all, ok, DefinitionNames(was.Keys, now.Keys, path),
            CompareNamed(before, was, now, path, InOrder(was.Keys * now.Keys)));
  }

  method CompareAdditionalInto(changes: Changes, before: Json, after: Json, path: Path) returns (ok: bool)
    requires before.Obj? && after.Obj?
    modifies changes
    ensures Appended(old(changes.all), changes.all, ok, CompareAdditional(before, after, path))
    decreases before, 1
  {
    var was, now := Additional(before.fields), Additional(after.fields);
    var at := path + ["additionalProperties"];
    if PyEq(was, now) {
      if was.Obj? && now.Obj? {
        ok := CompareInto(changes, was, now, at);
        return;
      }
      return true;
    }
    if was == Bool(false) && now == Bool(true) {
      changes.all := changes.all + [Change(AdditionalAllowed, Additive, at)];
      return true;
    }
    changes.all := changes.all + [Change(AdditionalChanged, Breaking, at)];
    return true;
  }

  method CompareItemsInto(changes: Changes, before: Json, after: Json, path: Path) returns (ok: bool)
    requires before.Obj? && after.Obj?
    modifies changes
    ensures Appended(old(changes.all), changes.all, ok, CompareItems(before, after, path))
    decreases before, 1
  {
    if "items" !in before.fields && "items" !in after.fields {
      return true;
    }
    var was, now := Get(before.fields, "items"), Get(after.fields, "items");
    if was.Null? || now.Null? {
      changes.all := changes.all + [Change(ItemsChanged, if now.Null? then Additive else Breaking, path + ["items"])];
      return true;
    }
    if !was.Obj? || !now.Obj? {
      return false;
    }
    ok := CompareInto(changes, was, now, path + ["items"]);
  }

  /** What is still to come before each comparator, the last entry after all of them. */
  lemma Rests(before: Json, after: Json, path: Path) returns (rests: seq<Result<seq<Change>>>)
    requires before.Obj? && after.Obj?
    ensures |rests| == 10 && rests[0] == CompareSchema(before, after, path) && rests[9] == Ok([])
    ensures rests[0] == Then(CompareType(before.fields, after.fields, path), rests[1])
    ensures rests[1] == Then(CompareEnum(before.fields, after.fields, path), rests[2])
    ensures rests[2] == Then(CompareProperties(before, after, path), rests[3])
    ensures rests[3] == Then(CompareDefinitions(before, after, path, "$defs"), rests[4])
    ensures rests[4] == Then(CompareDefinitions(before, after, path, "definitions"), rests[5])
    ensures rests[5] == Then(CompareAdditional(before, after, path), rests[6])
    ensures rests[6] == Then(CompareConstraints(before.fields, after.fields, path, ORDERED), rests[7])
    ensures rests[7] == Then(Ok(CompareExact(before.fields, after.fields, path, EXACT)), rests[8])
    ensures rests[8] == Then(CompareItems(before, after, path), rests[9])
  {
    var b, a := before.fields, after.fields;
    rests := RestsOfNine(CompareType(b, a, path), CompareEnum(b, a, path), CompareProperties(before, after, path),
      CompareDefinitions(before, after, path, "$defs"), CompareDefinitions(before, after, path, "definitions"),
      CompareAdditional(before, after, path), CompareConstraints(b, a, path, ORDERED),
      Ok(CompareExact(b, a, path, EXACT)), CompareItems(before, after, path));
  }

  lemma RestsOfNine(a: Result<seq<Change>>, b: Result<seq<Change>>, c: Result<seq<Change>>, d: Result<seq<Change>>,
                    e: Result<seq<Change>>, f: Result<seq<Change>>, g: Result<seq<Change>>, h: Result<seq<Change>>,
                    i: Result<seq<Change>>) returns (rests: seq<Result<seq<Change>>>)
    ensures |rests| == 10 && rests[0] == Gather([a, b, c, d, e, f, g, h, i], 0) && rests[9] == Ok([])
    ensures rests[0] == Then(a, rests[1]) && rests[1] == Then(b, rests[2]) && rests[2] == Then(c, rests[3])
    ensures rests[3] == Then(d, rests[4]) && rests[4] == Then(e, rests[5]) && rests[5] == Then(f, rests[6])
    ensures rests[6] == Then(g, rests[7]) && rests[7] == Then(h, rests[8]) && rests[8] == Then(i, rests[9])
  {
    var parts := [a, b, c, d, e, f, g, h, i];
    rests := RestsOf(parts);
    assert parts[0] == a && parts[1] == b && parts[2] == c && parts[3] == d && parts[4] == e;
    assert parts[5] == f && parts[6] == g && parts[7] == h && parts[8] == i;
  }

  lemma RestsOf(parts: seq<Result<seq<Change>>>) returns (rests: seq<Result<seq<Change>>>)
    ensures |rests| == |parts| + 1 && rests[0] == Gather(parts, 0) && rests[|parts|] == Ok([])
    ensures forall k :: 0 <= k < |parts| ==> rests[k] == Then(parts[k], rests[k + 1])
  {
    rests := seq(|parts| + 1, k requires 0 <= k <= |parts| => Gather(parts, k));
  }

  /** One schema against another: the comparators in the source's order, each appending to the same list. */
  method CompareInto(changes: Changes, before: Json, after: Json, path: Path) returns (ok: bool)
    requires before.Obj? && after.Obj?
    modifies changes
    ensures Appended(old(changes.all), changes.all, ok, CompareSchema(before, after, path))
    decreases before, 3
  {
    ghost var start := changes.all;
    ghost var rests := Rests(before, after, path);
    ghost var whole := rests[0];
    ok := TypeStep(changes, before, after, path, start, whole, rests[1]);
    if !ok { return; }
    ok := EnumStep(changes, before, after, path, start, whole, rests[2]);
    if !ok { return; }
    ok := PropertiesStep(changes, before, after, path, start, whole, rests[3]);
    if !ok { return; }
    ok := DefinitionsStep(changes, before, after, path, "$defs", start, whole, rests[4]);
    if !ok { return; }
    ok := DefinitionsStep(changes, before, after, path, "definitions", start, whole, rests[5]);
    if !ok { return; }
    ok := AdditionalStep(changes, before, after, path, start, whole, rests[6]);
    if !ok { return; }
    ok := ConstraintsStep(changes, before, after, path, start, whole, rests[7]);
    if !ok { return; }
    ok := ExactStep(changes, before, after, path, start, whole, rests[8]);
    if !ok { return; }
    ok := ItemsStep(changes, before, after, path, start, whole, rests[9]);
    if !ok { return; }
    Finish(start, whole, changes.all);
  }

  method TypeStep(changes: Changes, before: Json, after: Json, path: Path,
    ghost start: seq<Change>, ghost whole: Result<seq<Change>>, ghost rest: Result<seq<Change>>) returns (ok: bool)
    requires before.Obj? && after.Obj?
    requires Remaining(start, whole, changes.all, Then(CompareType(before.fields, after.fields, path), rest))
    modifies changes
    ensures if ok then Remaining(start, whole, changes.all, rest) else whole.Err?
  {
    ghost var now := changes.all;
    ok := CompareTypeInto(changes, before.fields, after.fields, path);
    Advance(start, whole, now, changes.all, ok, CompareType(before.fields, after.fields, path), rest);
  }

  method EnumStep(changes: Changes, before: Json, after: Json, path: Path,
    ghost start: seq<Change>, ghost whole: Result<seq<Change>>, ghost rest: Result<seq<Change>>) returns (ok: bool)
    requires before.Obj? && after.Obj?
    requires Remaining(start, whole, changes.all, Then(CompareEnum(before.fields, after.fields, path), rest))
    modifies changes
    ensures if ok then Remaining(start, whole, changes.all, rest) else whole.Err?
  {
    ghost var now := changes.all;
    ok := CompareEnumInto(changes, before.fields, after.fields, path);
    Advance(start, whole, now, changes.all, ok, CompareEnum(before.fields, after.fields, path), rest);
  }

  method PropertiesStep(changes: Changes, before: Json, after: Json, path: Path,
    ghost start: seq<Change>, ghost whole: Result<seq<Change>>, ghost rest: Result<seq<Change>>) returns (ok: bool)
    requires before.Obj? && after.Obj?
    requires Remaining(start, whole, changes.all, Then(CompareProperties(before, after, path), rest))
    modifies changes
    ensures if ok then Remaining(start, whole, changes.all, rest) else whole.Err?
    decreases before, 2
  {
    ghost var now := changes.all;
    ok := ComparePropertiesInto(changes, before, after, path);
    Advance(start, whole, now, changes.all, ok, CompareProperties(before, after, path), rest);
  }

  method DefinitionsStep(changes: Changes, before: Json, after: Json, path: Path, keyword: string,
    ghost start: seq<Change>, ghost whole: Result<seq<Change>>, ghost rest: Result<seq<Change>>) returns (ok: bool)
    requires before.Obj? && after.Obj?
    requires Remaining(start, whole, changes.all, Then(CompareDefinitions(before, after, path, keyword), rest))
    modifies changes
    ensures if ok then Remaining(start, whole, changes.all, rest) else whole.Err?
    decreases before, 2
  {
    ghost var now := changes.all;
    ok := CompareDefinitionsInto(changes, before, after, path, keyword);
    Advance(start, whole, now, changes.all, ok, CompareDefinitions(before, after, path, keyword), rest);
  }

  method AdditionalStep(changes: Changes, before: Json, after: Json, path: Path,
    ghost start: seq<Change>, ghost whole: Result<seq<Change>>, ghost rest: Result<seq<Change>>) returns (ok: bool)
    requires before.Obj? && after.Obj?
    requires Remaining(start, whole, changes.all, Then(CompareAdditional(before, after, path), rest))
    modifies changes
    ensures if ok then Remaining(start, whole, changes.all, rest) else whole.Err?
    decreases before, 2
  {
    ghost var now := changes.all;
    ok := CompareAdditionalInto(changes, before, after, path);
    Advance(start, whole, now, changes.all, ok, CompareAdditional(before, after, path), rest);
  }

  method ConstraintsStep(changes: Changes, before: Json, after: Json, path: Path,
    ghost start: seq<Change>, ghost whole: Result<seq<Change>>, ghost rest: Result<seq<Change>>) returns (ok: bool)
    requires before.Obj? && after.Obj?
    requires Remaining(start, whole, changes.all,
      Then(CompareConstraints(before.fields, after.fields, path, ORDERED), rest))
    modifies changes
    ensures if ok then Remaining(start, whole, changes.all, rest) else whole.Err?
  {
    ghost var now := changes.all;
    ok := CompareConstraintsInto(changes, before.fields, after.fields, path, ORDERED);
    Advance(start, whole, now, changes.all, ok, CompareConstraints(before.fields, after.fields, path, ORDERED), rest);
  }

  method ExactStep(changes: Changes, before: Json, after: Json, path: Path,
    ghost start: seq<Change>, ghost whole: Result<seq<Change>>, ghost rest: Result<seq<Change>>) returns (ok: bool)
    requires before.Obj? && after.Obj?
    requires Remaining(start, whole, changes.all,
      Then(Ok(CompareExact(before.fields, after.fields, path, EXACT)), rest))
    modifies changes
    ensures if ok then Remaining(start, whole, changes.all, rest) else whole.Err?
  {
    ghost var now := changes.all;
    CompareExactInto(changes, before.fields, after.fields, path, EXACT);
    ok := true;
    Advance(start, whole, now, changes.all, ok, Ok(CompareExact(before.fields, after.fields, path, EXACT)), rest);
  }

  method ItemsStep(changes: Changes, before: Json, after: Json, path: Path,
    ghost start: seq<Change>, ghost whole: Result<seq<Change>>, ghost rest: Result<seq<Change>>) returns (ok: bool)
    requires before.Obj? && after.Obj?
    requires Remaining(start, whole, changes.all, Then(CompareItems(before, after, path), rest))
    modifies changes
    ensures if ok then Remaining(start, whole, changes.all, rest) else whole.Err?
    decreases before, 2
  {
    ghost var now := changes.all;
    ok := CompareItemsInto(changes, before, after, path);
    Advance(start, whole, now, changes.all, ok, CompareItems(before, after, path), rest);
  }

  lemma FromEmpty(all: seq<Change>, ok: bool, whole: Result<seq<Change>>)
    requires Appended([], all, ok, whole)
    ensures whole == if ok then Ok(all) else Err
  {
    assert ok ==> [] + whole.value == whole.value;
  }

  /** `compare_schema_fragment`: both documents have to be objects; the list starts empty. */
  method CompareFragment(baseline: Json, candidate: Json, path: Path) returns (r: Result<seq<Change>>)
    ensures r == if baseline.Obj? && candidate.Obj? then CompareSchema(baseline, candidate, path) else Err
  {
    if !baseline.Obj? || !candidate.Obj? {
      return Err;
    }
    var changes := new Changes();
    var ok := CompareInto(changes, baseline, candidate, path);
    FromEmpty(changes.all, ok, CompareSchema(baseline, candidate, path));
    return if ok then Ok(changes.all) else Err;
  }
}
