/**
 What a report of `schema_diff` lists, place by place. `Differs` says which change two documents
 deserve at a place, without the comparators; the report of any two comparable documents is proved
 to hold exactly those changes, and the comparison to fail exactly on documents that cannot be read.
 */
module SchemaChanges {
  import opened Options
  import opened Orders
  import opened SchemaDiff
  import opened SchemaMeaning

  // ----- the changes two documents deserve

  ghost predicate TypeDiffers(b: Object, a: Object, at: Path, kind: Kind) {
    var was, now := Types(Get(b, "type")), Types(Get(a, "type"));
    && at == ["type"] && was.Ok? && now.Ok? && was != now
    && kind == if was.value.Some? && now.value.Some? && was.value.value <= now.value.value then TypesAdded
               else TypeChanged
  }

  ghost predicate EnumDiffers(b: Object, a: Object, at: Path, kind: Kind) {
    var was, now := EnumValues(Get(b, "enum")), EnumValues(Get(a, "enum"));
    && at == ["enum"] && was.Ok? && now.Ok?
    && (|| (kind == EnumRemoved && was.value.Some? && now.value.None?)
        || (kind == EnumAdded && was.value.None? && now.value.Some?)
        || (kind == EnumValuesRemoved && was.value.Some? && now.value.Some? && !(was.value.value <= now.value.value))
        || (kind == EnumValuesAdded && was.value.Some? && now.value.Some? && !(now.value.value <= was.value.value)))
  }

  ghost predicate LimitDiffers(b: Object, a: Object, at: Path, kind: Kind) {
    kind == ConstraintChanged && |at| == 1 && at[0] in LIMITS && !PyEq(Get(b, at[0]), Get(a, at[0]))
  }

  ghost predicate KeywordDiffers(b: Object, a: Object, at: Path, kind: Kind) {
    && kind == KeywordChanged && |at| == 1 && at[0] in WHOLE
    && ((at[0] in b) != (at[0] in a) || !PyEq(Get(b, at[0]), Get(a, at[0])))
  }

  /** A property that only one of the documents describes. */
  ghost predicate PropertyDiffers(was: set<string>, now: set<string>, newRequired: set<string>, at: Path, kind: Kind,
                                  compatibility: Compatibility)
  {
    |at| == 2 && at[0] == "properties" &&
    var name := at[1];
    || (name in was && name !in now && kind == PropertyRemoved && compatibility == Breaking)
    || (name in now && name !in was && name in newRequired
        && kind == RequiredPropertyAdded && compatibility == Breaking)
    || (name in now && name !in was && name !in newRequired
        && kind == OptionalPropertyAdded && compatibility == Additive)
  }

  /** A name whose requiredness changed: of a property both documents describe, or of one that is not described. */
  ghost predicate RequiredDiffers(was: set<string>, now: set<string>, oldRequired: set<string>,
                                  newRequired: set<string>, at: Path, kind: Kind)
  {
    at == ["required"] && exists name :: NameDiffers(was, now, oldRequired, newRequired, kind, name)
  }

  ghost predicate NameDiffers(was: set<string>, now: set<string>, oldRequired: set<string>, newRequired: set<string>,
                              kind: Kind, name: string)
  {
    || (kind == BecameRequired && name in was * now && name in newRequired && name !in oldRequired)
    || (kind == BecameOptional && name in was * now && name in oldRequired && name !in newRequired)
    || (kind == RequiredNameAdded && name !in now && name in newRequired && name !in oldRequired)
    || (kind == RequiredNameRemoved && name !in was && name in oldRequired && name !in newRequired)
  }

  /** A definition that only one of the documents has. */
  ghost predicate DefinitionDiffers(was: set<string>, now: set<string>, keyword: string, at: Path, kind: Kind,
                                    compatibility: Compatibility)
  {
    |at| == 2 && at[0] == keyword &&
    var name := at[1];
    || (name in was && name !in now && kind == SchemaRemoved && compatibility == Breaking)
    || (name in now && name !in was && kind == SchemaAdded && compatibility == Additive)
  }

  /** The change of this kind and compatibility is due at this place, here or below. */
  ghost predicate Differs(before: Json, after: Json, at: Path, kind: Kind, compatibility: Compatibility)
    requires before.Obj? && after.Obj?
    decreases before, 2
  {
    var b, a := before.fields, after.fields;
    || (compatibility == Breaking && TypeDiffers(b, a, at, kind))
    || (compatibility == Breaking && EnumDiffers(b, a, at, kind))
    || PropertiesDiffer(before, after, at, kind, compatibility)
    || DefinitionsDiffer(before, after, "$defs", at, kind, compatibility)
    || DefinitionsDiffer(before, after, "definitions", at, kind, compatibility)
    || AdditionalDiffers(before, after, at, kind, compatibility)
    || (compatibility == Breaking && LimitDiffers(b, a, at, kind))
    || (compatibility == Breaking && KeywordDiffers(b, a, at, kind))
    || ItemsDiffer(before, after, at, kind, compatibility)
  }

  ghost predicate PropertiesDiffer(before: Json, after: Json, at: Path, kind: Kind, compatibility: Compatibility)
    requires before.Obj? && after.Obj?
    decreases before, 1
  {
    var was, now := SchemaMap(Get(before.fields, "properties")), SchemaMap(Get(after.fields, "properties"));
    var oldRequired, newRequired := Required(Get(before.fields, "required")), Required(Get(after.fields, "required"));
    && was.Ok? && now.Ok? && oldRequired.Ok? && newRequired.Ok?
    && (|| PropertyDiffers(was.value.Keys, now.value.Keys, newRequired.value, at, kind, compatibility)
        || (compatibility == Breaking
            && RequiredDiffers(was.value.Keys, now.value.Keys, oldRequired.value, newRequired.value, at, kind))
        || (|at| >= 2 && at[0] == "properties"
            && EntryDiffers(before, was.value, now.value, at[1], at[2..], kind, compatibility)))
  }

  /** Both tables have the entry, and its schemas differ there. */
  ghost predicate EntryDiffers(before: Json, was: Object, now: Object, name: string, at: Path, kind: Kind,
                               compatibility: Compatibility)
    decreases before, 0
  {
    && name in was && name in now && was[name].Obj? && now[name].Obj? && was[name] < before
    && Differs(was[name], now[name], at, kind, compatibility)
  }

  ghost predicate DefinitionsDiffer(before: Json, after: Json, keyword: string, at: Path, kind: Kind,
                                    compatibility: Compatibility)
    requires before.Obj? && after.Obj?
    decreases before, 1
  {
    var was, now := SchemaMap(Get(before.fields, keyword)), SchemaMap(Get(after.fields, keyword));
    && was.Ok? && now.Ok?
    && (|| DefinitionDiffers(was.value.Keys, now.value.Keys, keyword, at, kind, compatibility)
        || (|at| >= 2 && at[0] == keyword
            && EntryDiffers(before, was.value, now.value, at[1], at[2..], kind, compatibility)))
  }

  ghost predicate AdditionalDiffers(before: Json, after: Json, at: Path, kind: Kind, compatibility: Compatibility)
    requires before.Obj? && after.Obj?
    decreases before, 1
  {
    var was, now := Additional(before.fields), Additional(after.fields);
    && at != [] && at[0] == "additionalProperties"
    && if PyEq(was, now) then was.Obj? && Differs(was, now, at[1..], kind, compatibility)
       else
         && |at| == 1
         && if was == Bool(false) && now == Bool(true) then kind == AdditionalAllowed && compatibility == Additive
            else kind == AdditionalChanged && compatibility == Breaking
  }

  ghost predicate ItemsDiffer(before: Json, after: Json, at: Path, kind: Kind, compatibility: Compatibility)
    requires before.Obj? && after.Obj?
    decreases before, 1
  {
    var was, now := Get(before.fields, "items"), Get(after.fields, "items");
    && ("items" in before.fields || "items" in after.fields)
    && at != [] && at[0] == "items"
    && (|| (|at| == 1 && now.Null? && kind == ItemsChanged && compatibility == Additive)
        || (|at| == 1 && was.Null? && !now.Null? && kind == ItemsChanged && compatibility == Breaking)
        || (was.Obj? && now.Obj? && Differs(was, now, at[1..], kind, compatibility)))
  }

  // ----- paths

  lemma SamePlace(path: Path, x: Path, y: Path)
    ensures path + x == path + y <==> x == y
  {
    if path + x == path + y {
      assert x == (path + x)[|path|..] && y == (path + y)[|path|..];
    }
  }

  /** Every change of the list lies below the place. */
  ghost predicate Below(changes: seq<Change>, path: Path) {
    forall c | c in changes :: path <= c.path
  }

  /** A change of a list below `path + [step]`, seen from `path`. */
  lemma OneStep(changes: seq<Change>, path: Path, step: string, at: Path, kind: Kind, compatibility: Compatibility)
    requires Below(changes, path + [step])
    ensures Change(kind, compatibility, path + at) in changes <==>
      at != [] && at[0] == step && Change(kind, compatibility, path + [step] + at[1..]) in changes
  {
    var c := Change(kind, compatibility, path + at);
    if c in changes {
      assert path + [step] <= path + at;
      assert (path + at)[|path|] == step && |at| >= 1;
    }
    if at != [] && at[0] == step {
      assert path + [step] + at[1..] == path + at;
    }
  }

  lemma TwoSteps(changes: seq<Change>, path: Path, first: string, second: string, at: Path, kind: Kind,
                 compatibility: Compatibility)
    requires Below(changes, path + [first, second])
    ensures Change(kind, compatibility, path + at) in changes <==>
      |at| >= 2 && at[0] == first && at[1] == second
      && Change(kind, compatibility, path + [first, second] + at[2..]) in changes
  {
    var c := Change(kind, compatibility, path + at);
    if c in changes {
      assert path + [first, second] <= path + at;
      assert (path + at)[|path|] == first && (path + at)[|path| + 1] == second && |at| >= 2;
    }
    if |at| >= 2 && at[0] == first && at[1] == second {
      assert path + [first, second] + at[2..] == path + at;
    }
  }

  // ----- the parts that do not recurse

  lemma TypeReports(b: Object, a: Object, path: Path, at: Path, kind: Kind, compatibility: Compatibility)
    requires CompareType(b, a, path).Ok?
    ensures Change(kind, compatibility, path + at) in CompareType(b, a, path).value <==>
      compatibility == Breaking && TypeDiffers(b, a, at, kind)
    ensures Below(CompareType(b, a, path).value, path)
  {
    SamePlace(path, at, ["type"]);
    var was, now := Types(Get(b, "type")).value, Types(Get(a, "type")).value;
    if was.Some? && now.Some? {
      assert was.value < now.value <==> was.value <= now.value && was.value != now.value;
    }
  }

  lemma EnumReports(b: Object, a: Object, path: Path, at: Path, kind: Kind, compatibility: Compatibility)
    requires CompareEnum(b, a, path).Ok?
    ensures Change(kind, compatibility, path + at) in CompareEnum(b, a, path).value <==>
      compatibility == Breaking && EnumDiffers(b, a, at, kind)
    ensures Below(CompareEnum(b, a, path).value, path)
  {
    SamePlace(path, at, ["enum"]);
    var was, now := EnumValues(Get(b, "enum")).value, EnumValues(Get(a, "enum")).value;
    if was.Some? && now.Some? {
      SetMinus(was.value, now.value);
      SetMinus(now.value, was.value);
    }
  }

  lemma SetMinus<T>(x: set<T>, y: set<T>)
    ensures x - y != {} <==> !(x <= y)
  {
    assert forall e :: e in x - y <==> e in x && e !in y;
  }

  lemma {:induction false} LimitsReport(b: Object, a: Object, path: Path, keywords: seq<string>, at: Path, kind: Kind,
                                        compatibility: Compatibility)
    requires CompareConstraints(b, a, path, keywords).Ok?
    ensures Change(kind, compatibility, path + at) in CompareConstraints(b, a, path, keywords).value <==>
      && kind == ConstraintChanged && compatibility == Breaking
      && |at| == 1 && at[0] in keywords && !PyEq(Get(b, at[0]), Get(a, at[0]))
    ensures Below(CompareConstraints(b, a, path, keywords).value, path)
  {
    if keywords != [] {
      LimitsReport(b, a, path, keywords[1..], at, kind, compatibility);
      SamePlace(path, at, [keywords[0]]);
      assert at == [keywords[0]] <==> |at| == 1 && at[0] == keywords[0];
      assert forall k :: k in keywords <==> k == keywords[0] || k in keywords[1..];
    }
  }

  lemma {:induction false} KeywordsReport(b: Object, a: Object, path: Path, keywords: seq<string>, at: Path,
                                          kind: Kind, compatibility: Compatibility)
    ensures Change(kind, compatibility, path + at) in CompareExact(b, a, path, keywords) <==>
      && kind == KeywordChanged && compatibility == Breaking
      && |at| == 1 && at[0] in keywords && !SameKeyword(b, a, at[0])
    ensures Below(CompareExact(b, a, path, keywords), path)
  {
    if keywords != [] {
      KeywordsReport(b, a, path, keywords[1..], at, kind, compatibility);
      SamePlace(path, at, [keywords[0]]);
      assert at == [keywords[0]] <==> |at| == 1 && at[0] == keywords[0];
      assert forall k :: k in keywords <==> k == keywords[0] || k in keywords[1..];
    }
  }

  // ----- tables

  lemma EachMember(names: set<string>, change: string -> Change, c: Change)
    ensures c in Each(names, change) <==> exists n :: n in names && c == change(n)
  {
    EachIs(names, change);
  }

  /** A table of changes two steps below the place, one for each name. */
  lemma TableReports(names: set<string>, change: string -> Change, path: Path, first: string, at: Path, kind: Kind,
                     compatibility: Compatibility)
    requires forall n :: change(n).path == path + [first, n]
    ensures Change(kind, compatibility, path + at) in Each(names, change) <==>
      && |at| == 2 && at[0] == first && at[1] in names
      && change(at[1]).kind == kind && change(at[1]).compatibility == compatibility
    ensures Below(Each(names, change), path)
  {
    var c := Change(kind, compatibility, path + at);
    EachIs(names, change);
    EachMember(names, change, c);
    if n :| n in names && c == change(n) {
      SamePlace(path, at, [first, n]);
    }
    if |at| == 2 && at[0] == first {
      assert at == [first, at[1]];
    }
  }

  lemma LostReports(was: set<string>, now: set<string>, path: Path, at: Path, kind: Kind, compatibility: Compatibility)
    ensures Change(kind, compatibility, path + at) in Lost(was, now, path) <==>
      && kind == PropertyRemoved && compatibility == Breaking
      && |at| == 2 && at[0] == "properties" && at[1] in was && at[1] !in now
    ensures Below(Lost(was, now, path), path)
  {
    TableReports(was - now, name => Change(PropertyRemoved, Breaking, path + ["properties", name]), path, "properties",
      at, kind, compatibility);
  }

  lemma GainedReports(was: set<string>, now: set<string>, newRequired: set<string>, path: Path, at: Path, kind: Kind,
                      compatibility: Compatibility)
    ensures Change(kind, compatibility, path + at) in Gained(was, now, newRequired, path) <==>
      && |at| == 2 && at[0] == "properties" && at[1] in now && at[1] !in was
      && if at[1] in newRequired then kind == RequiredPropertyAdded && compatibility == Breaking
         else kind == OptionalPropertyAdded && compatibility == Additive
    ensures Below(Gained(was, now, newRequired, path), path)
  {
    TableReports(now - was, name =>
      if name in newRequired then Change(RequiredPropertyAdded, Breaking, path + ["properties", name])
      else Change(OptionalPropertyAdded, Additive, path + ["properties", name]), path, "properties",
      at, kind, compatibility);
  }

  lemma NamesReport(names: set<string>, which: Kind, path: Path, at: Path, kind: Kind, compatibility: Compatibility)
    ensures var changes := Each(names, name => Change(which, Breaking, path + ["required"]));
      && (Change(kind, compatibility, path + at) in changes <==>
          kind == which && compatibility == Breaking && at == ["required"] && names != {})
      && Below(changes, path)
  {
    var change := (name: string) => Change(which, Breaking, path + ["required"]);
    EachIs(names, change);
    EachMember(names, change, Change(kind, compatibility, path + at));
    SamePlace(path, at, ["required"]);
  }

  lemma DefinitionNamesReport(was: set<string>, now: set<string>, path: Path, keyword: string, at: Path, kind: Kind,
                              compatibility: Compatibility)
    ensures Change(kind, compatibility, path + at) in DefinitionNames(was, now, path + [keyword]) <==>
      DefinitionDiffers(was, now, keyword, at, kind, compatibility)
    ensures Below(DefinitionNames(was, now, path + [keyword]), path)
  {
    var below := path + [keyword];
    forall name ensures below + [name] == path + [keyword, name] {
    }
    TableReports(was - now, name => Change(SchemaRemoved, Breaking, below + [name]), path, keyword,
      at, kind, compatibility);
    TableReports(now - was, name => Change(SchemaAdded, Additive, below + [name]), path, keyword,
      at, kind, compatibility);
  }

  // ----- the recursion

  ghost predicate Became(kind: Kind, name: string, oldRequired: set<string>, newRequired: set<string>) {
    || (kind == BecameRequired && name in newRequired && name !in oldRequired)
    || (kind == BecameOptional && name in oldRequired && name !in newRequired)
  }

  lemma RequirednessReports(name: string, oldRequired: set<string>, newRequired: set<string>, path: Path, at: Path,
                            kind: Kind, compatibility: Compatibility)
    ensures Change(kind, compatibility, path + at) in Requiredness(name, oldRequired, newRequired, path) <==>
      compatibility == Breaking && at == ["required"] && Became(kind, name, oldRequired, newRequired)
    ensures Below(Requiredness(name, oldRequired, newRequired, path), path)
  {
    SamePlace(path, at, ["required"]);
  }

  ghost predicate SomeBecame(kind: Kind, names: seq<string>, oldRequired: set<string>, newRequired: set<string>) {
    exists name :: name in names && Became(kind, name, oldRequired, newRequired)
  }

  lemma SomeBecameMore(kind: Kind, names: seq<string>, oldRequired: set<string>, newRequired: set<string>)
    requires names != []
    ensures SomeBecame(kind, names, oldRequired, newRequired) <==>
      Became(kind, names[0], oldRequired, newRequired) || SomeBecame(kind, names[1..], oldRequired, newRequired)
  {
    assert forall n :: n in names <==> n == names[0] || n in names[1..];
  }

  /** The report of one entry, seen from two steps above. */
  lemma EntryReports(was: Json, now: Json, path: Path, first: string, name: string, at: Path, kind: Kind,
                     compatibility: Compatibility)
    requires was.Obj? && now.Obj? && CompareSchema(was, now, path + [first, name]).Ok?
    ensures var inner := CompareSchema(was, now, path + [first, name]).value;
      && (Change(kind, compatibility, path + at) in inner <==>
          |at| >= 2 && at[0] == first && at[1] == name && Differs(was, now, at[2..], kind, compatibility))
      && Below(inner, path)
    decreases was, 4
  {
    var inner := CompareSchema(was, now, path + [first, name]).value;
    var rest := if |at| >= 2 then at[2..] else [];
    ReportExactly(was, now, path + [first, name], rest, kind, compatibility);
    TwoSteps(inner, path, first, name, at, kind, compatibility);
  }

  lemma {:induction false} CommonReports(before: Json, was: Object, now: Object, oldRequired: set<string>,
                                         newRequired: set<string>, path: Path, names: seq<string>, at: Path,
                                         kind: Kind, compatibility: Compatibility)
    requires before.Obj? && forall n | n in names :: n in was && n in now && was[n].Obj? && now[n].Obj?
    requires forall n | n in names :: was[n] < before
    requires CompareCommon(before, was, now, oldRequired, newRequired, path, names).Ok?
    ensures var c := Change(kind, compatibility, path + at);
      c in CompareCommon(before, was, now, oldRequired, newRequired, path, names).value <==>
      || (compatibility == Breaking && at == ["required"] && SomeBecame(kind, names, oldRequired, newRequired))
      || (|at| >= 2 && at[0] == "properties" && at[1] in names
          && EntryDiffers(before, was, now, at[1], at[2..], kind, compatibility))
    ensures Below(CompareCommon(before, was, now, oldRequired, newRequired, path, names).value, path)
    decreases before, 0, |names|
  {
    if names != [] {
      var name := names[0];
      assert name in names;
      CommonReports(before, was, now, oldRequired, newRequired, path, names[1..], at, kind, compatibility);
      EntryReports(was[name], now[name], path, "properties", name, at, kind, compatibility);
      RequirednessReports(name, oldRequired, newRequired, path, at, kind, compatibility);
      SomeBecameMore(kind, names, oldRequired, newRequired);
      assert forall n :: n in names <==> n == names[0] || n in names[1..];
    }
  }

  lemma {:induction false} NamedReports(before: Json, was: Object, now: Object, path: Path, keyword: string,
                                        names: seq<string>, at: Path, kind: Kind, compatibility: Compatibility)
    requires before.Obj? && forall n | n in names :: n in was && n in now && was[n].Obj? && now[n].Obj?
    requires forall n | n in names :: was[n] < before
    requires CompareNamed(before, was, now, path + [keyword], names).Ok?
    ensures Change(kind, compatibility, path + at) in CompareNamed(before, was, now, path + [keyword], names).value <==>
      |at| >= 2 && at[0] == keyword && at[1] in names
      && EntryDiffers(before, was, now, at[1], at[2..], kind, compatibility)
    ensures Below(CompareNamed(before, was, now, path + [keyword], names).value, path)
    decreases before, 0, |names|
  {
    if names != [] {
      var name := names[0];
      assert name in names && path + [keyword] + [name] == path + [keyword, name];
      NamedReports(before, was, now, path, keyword, names[1..], at, kind, compatibility);
      EntryReports(was[name], now[name], path, keyword, name, at, kind, compatibility);
      assert forall n :: n in names <==> n == names[0] || n in names[1..];
    }
  }

  lemma RequiredSplits(was: set<string>, now: set<string>, oldRequired: set<string>, newRequired: set<string>,
                       at: Path, kind: Kind)
    ensures RequiredDiffers(was, now, oldRequired, newRequired, at, kind) <==>
      && at == ["required"]
      && (|| SomeBecame(kind, InOrder(was * now), oldRequired, newRequired)
          || (kind == RequiredNameAdded && (newRequired - oldRequired) - now != {})
          || (kind == RequiredNameRemoved && (oldRequired - newRequired) - was != {}))
  {
    if SomeBecame(kind, InOrder(was * now), oldRequired, newRequired) {
      var name :| name in InOrder(was * now) && Became(kind, name, oldRequired, newRequired);
      assert name in was * now;
      assert NameDiffers(was, now, oldRequired, newRequired, kind, name);
    }
    if kind == RequiredNameAdded && (newRequired - oldRequired) - now != {} {
      var name :| name in (newRequired - oldRequired) - now;
      assert NameDiffers(was, now, oldRequired, newRequired, kind, name);
    }
    if kind == RequiredNameRemoved && (oldRequired - newRequired) - was != {} {
      var name :| name in (oldRequired - newRequired) - was;
      assert NameDiffers(was, now, oldRequired, newRequired, kind, name);
    }
    if RequiredDiffers(was, now, oldRequired, newRequired, at, kind) {
      var name :| NameDiffers(was, now, oldRequired, newRequired, kind, name);
      NameSplits(was, now, oldRequired, newRequired, kind, name);
    }
  }

  lemma NameSplits(was: set<string>, now: set<string>, oldRequired: set<string>, newRequired: set<string>,
                   kind: Kind, name: string)
    requires NameDiffers(was, now, oldRequired, newRequired, kind, name)
    ensures
      || SomeBecame(kind, InOrder(was * now), oldRequired, newRequired)
      || (kind == RequiredNameAdded && (newRequired - oldRequired) - now != {})
      || (kind == RequiredNameRemoved && (oldRequired - newRequired) - was != {})
  {
    assert name in was * now ==> name in InOrder(was * now);
    assert kind == RequiredNameAdded ==> name in (newRequired - oldRequired) - now;
    assert kind == RequiredNameRemoved ==> name in (oldRequired - newRequired) - was;
  }

  lemma FiveParts(c: Change, u: seq<Change>, v: seq<Change>, w: seq<Change>, x: seq<Change>, y: seq<Change>, path: Path)
    ensures c in u + v + w + x + y <==> c in u || c in v || c in w || c in x || c in y
    ensures Below(u + v + w + x + y, path) <==>
      Below(u, path) && Below(v, path) && Below(w, path) && Below(x, path) && Below(y, path)
  {
    assert forall d :: d in u + v + w + x + y <==> d in u || d in v || d in w || d in x || d in y;
  }

  lemma OneSidedReports(was: set<string>, now: set<string>, newRequired: set<string>, path: Path, at: Path, kind: Kind,
                        compatibility: Compatibility)
    ensures var c := Change(kind, compatibility, path + at);
      c in Lost(was, now, path) || c in Gained(was, now, newRequired, path) <==>
      PropertyDiffers(was, now, newRequired, at, kind, compatibility)
    ensures Below(Lost(was, now, path), path) && Below(Gained(was, now, newRequired, path), path)
  {
    LostReports(was, now, path, at, kind, compatibility);
    GainedReports(was, now, newRequired, path, at, kind, compatibility);
  }

  lemma PropertyReports(was: set<string>, now: set<string>, oldRequired: set<string>, newRequired: set<string>,
                        path: Path, common: seq<Change>, at: Path, kind: Kind, compatibility: Compatibility)
    requires Below(common, path)
    ensures var c := Change(kind, compatibility, path + at);
      c in PropertyReport(was, now, oldRequired, newRequired, path, common) <==>
      || PropertyDiffers(was, now, newRequired, at, kind, compatibility)
      || Change(kind, compatibility, path + at) in common
      || (compatibility == Breaking && at == ["required"]
          && (|| (kind == RequiredNameAdded && (newRequired - oldRequired) - now != {})
              || (kind == RequiredNameRemoved && (oldRequired - newRequired) - was != {})))
    ensures Below(PropertyReport(was, now, oldRequired, newRequired, path, common), path)
  {
    OneSidedReports(was, now, newRequired, path, at, kind, compatibility);
    NamesReport((newRequired - oldRequired) - now, RequiredNameAdded, path, at, kind, compatibility);
    NamesReport((oldRequired - newRequired) - was, RequiredNameRemoved, path, at, kind, compatibility);
    FiveParts(Change(kind, compatibility, path + at), Lost(was, now, path), Gained(was, now, newRequired, path), common,
      NewlyRequired(now, oldRequired, newRequired, path), NoLongerRequired(was, oldRequired, newRequired, path), path);
  }

  lemma PropertiesReport(before: Json, after: Json, path: Path, at: Path, kind: Kind, compatibility: Compatibility)
    requires before.Obj? && after.Obj? && CompareProperties(before, after, path).Ok?
    ensures Change(kind, compatibility, path + at) in CompareProperties(before, after, path).value <==>
      PropertiesDiffer(before, after, at, kind, compatibility)
    ensures Below(CompareProperties(before, after, path).value, path)
    decreases before, 1
  {
    var was, now := SchemaMap(Get(before.fields, "properties")).value, SchemaMap(Get(after.fields, "properties")).value;
    var oldRequired := Required(Get(before.fields, "required")).value;
    var newRequired := Required(Get(after.fields, "required")).value;
    var names := InOrder(was.Keys * now.Keys);
    CommonReports(before, was, now, oldRequired, newRequired, path, names, at, kind, compatibility);
    PropertyReports(was.Keys, now.Keys, oldRequired, newRequired, path,
      CompareCommon(before, was, now, oldRequired, newRequired, path, names).value, at, kind, compatibility);
    RequiredSplits(was.Keys, now.Keys, oldRequired, newRequired, at, kind);
  }

  lemma DefinitionsReport(before: Json, after: Json, path: Path, keyword: string, at: Path, kind: Kind,
                          compatibility: Compatibility)
    requires before.Obj? && after.Obj? && CompareDefinitions(before, after, path, keyword).Ok?
    ensures Change(kind, compatibility, path + at) in CompareDefinitions(before, after, path, keyword).value <==>
      DefinitionsDiffer(before, after, keyword, at, kind, compatibility)
    ensures Below(CompareDefinitions(before, after, path, keyword).value, path)
    decreases before, 1
  {
    var was, now := SchemaMap(Get(before.fields, keyword)).value, SchemaMap(Get(after.fields, keyword)).value;
    var names := InOrder(was.Keys * now.Keys);
    NamedReports(before, was, now, path, keyword, names, at, kind, compatibility);
    DefinitionNamesReport(was.Keys, now.Keys, path, keyword, at, kind, compatibility);
  }

  /** The report of a nested schema, seen from one step above. */
  lemma InnerReports(was: Json, now: Json, path: Path, step: string, at: Path, kind: Kind,
                     compatibility: Compatibility)
    requires was.Obj? && now.Obj? && CompareSchema(was, now, path + [step]).Ok?
    ensures var inner := CompareSchema(was, now, path + [step]).value;
      && (Change(kind, compatibility, path + at) in inner <==>
          at != [] && at[0] == step && Differs(was, now, at[1..], kind, compatibility))
      && Below(inner, path)
    decreases was, 4
  {
    ReportExactly(was, now, path + [step], if at != [] then at[1..] else [], kind, compatibility);
    OneStep(CompareSchema(was, now, path + [step]).value, path, step, at, kind, compatibility);
  }

  lemma SingleReport(changes: seq<Change>, path: Path, step: string, at: Path, kind: Kind, compatibility: Compatibility)
    requires |changes| == 1 && changes[0].path == path + [step]
    ensures Change(kind, compatibility, path + at) in changes <==>
      |at| == 1 && at[0] == step && changes[0].kind == kind && changes[0].compatibility == compatibility
    ensures Below(changes, path)
  {
    SamePlace(path, at, [step]);
    assert at == [step] <==> |at| == 1 && at[0] == step;
    assert changes == [changes[0]];
  }

  lemma AdditionalReports(before: Json, after: Json, path: Path, at: Path, kind: Kind, compatibility: Compatibility)
    requires before.Obj? && after.Obj? && CompareAdditional(before, after, path).Ok?
    ensures Change(kind, compatibility, path + at) in CompareAdditional(before, after, path).value <==>
      AdditionalDiffers(before, after, at, kind, compatibility)
    ensures Below(CompareAdditional(before, after, path).value, path)
    decreases before, 1
  {
    var was, now := Additional(before.fields), Additional(after.fields);
    if PyEq(was, now) && was.Obj? {
      NestedAdditionalReports(before, after, path, at, kind, compatibility);
    } else {
      FlatAdditionalReports(before, after, path, at, kind, compatibility);
    }
  }

  lemma NestedAdditionalReports(before: Json, after: Json, path: Path, at: Path, kind: Kind,
                                compatibility: Compatibility)
    requires before.Obj? && after.Obj? && CompareAdditional(before, after, path).Ok?
    requires var was, now := Additional(before.fields), Additional(after.fields);
      PyEq(was, now) && was.Obj?
    ensures Change(kind, compatibility, path + at) in CompareAdditional(before, after, path).value <==>
      AdditionalDiffers(before, after, at, kind, compatibility)
    ensures Below(CompareAdditional(before, after, path).value, path)
    decreases before, 0
  {
    InnerReports(Additional(before.fields), Additional(after.fields), path, "additionalProperties", at, kind,
      compatibility);
  }

  lemma FlatAdditionalReports(before: Json, after: Json, path: Path, at: Path, kind: Kind, compatibility: Compatibility)
    requires before.Obj? && after.Obj? && CompareAdditional(before, after, path).Ok?
    requires var was, now := Additional(before.fields), Additional(after.fields);
      !(PyEq(was, now) && was.Obj?)
    ensures Change(kind, compatibility, path + at) in CompareAdditional(before, after, path).value <==>
      AdditionalDiffers(before, after, at, kind, compatibility)
    ensures Below(CompareAdditional(before, after, path).value, path)
  {
    var changes := CompareAdditional(before, after, path).value;
    if changes != [] {
      SingleReport(changes, path, "additionalProperties", at, kind, compatibility);
    }
  }

  lemma ItemsReport(before: Json, after: Json, path: Path, at: Path, kind: Kind, compatibility: Compatibility)
    requires before.Obj? && after.Obj? && CompareItems(before, after, path).Ok?
    ensures Change(kind, compatibility, path + at) in CompareItems(before, after, path).value <==>
      ItemsDiffer(before, after, at, kind, compatibility)
    ensures Below(CompareItems(before, after, path).value, path)
    decreases before, 1
  {
    var was, now := Get(before.fields, "items"), Get(after.fields, "items");
    if was.Obj? && now.Obj? {
      NestedItemsReport(before, after, path, at, kind, compatibility);
    } else {
      FlatItemsReport(before, after, path, at, kind, compatibility);
    }
  }

  lemma NestedItemsReport(before: Json, after: Json, path: Path, at: Path, kind: Kind, compatibility: Compatibility)
    requires before.Obj? && after.Obj? && CompareItems(before, after, path).Ok?
    requires var was, now := Get(before.fields, "items"), Get(after.fields, "items");
      was.Obj? && now.Obj?
    ensures Change(kind, compatibility, path + at) in CompareItems(before, after, path).value <==>
      ItemsDiffer(before, after, at, kind, compatibility)
    ensures Below(CompareItems(before, after, path).value, path)
    decreases before, 0
  {
    InnerReports(Get(before.fields, "items"), Get(after.fields, "items"), path, "items", at, kind, compatibility);
  }

  lemma FlatItemsReport(before: Json, after: Json, path: Path, at: Path, kind: Kind, compatibility: Compatibility)
    requires before.Obj? && after.Obj? && CompareItems(before, after, path).Ok?
    requires var was, now := Get(before.fields, "items"), Get(after.fields, "items");
      !(was.Obj? && now.Obj?)
    ensures Change(kind, compatibility, path + at) in CompareItems(before, after, path).value <==>
      ItemsDiffer(before, after, at, kind, compatibility)
    ensures Below(CompareItems(before, after, path).value, path)
  {
    var changes := CompareItems(before, after, path).value;
    if changes != [] {
      SingleReport(changes, path, "items", at, kind, compatibility);
    }
  }

  lemma {:induction false} GatherMember(parts: seq<SchemaDiff.Result<seq<Change>>>, k: nat, c: Change, path: Path)
    requires k <= |parts| && Gather(parts, k).Ok?
    ensures forall i | k <= i < |parts| :: parts[i].Ok?
    ensures c in Gather(parts, k).value <==> exists i :: k <= i < |parts| && c in parts[i].value
    ensures (forall i | k <= i < |parts| :: Below(parts[i].value, path)) ==> Below(Gather(parts, k).value, path)
    decreases |parts| - k
  {
    if k < |parts| {
      GatherMember(parts, k + 1, c, path);
      if c in parts[k].value { assert k <= k < |parts|; }
    }
  }

  /**
   The report of two comparable documents, at any place, lists exactly the changes that are due:
   a change of a kind and compatibility stands at a place exactly when the documents differ so there.
   */
  lemma ReportExactly(before: Json, after: Json, path: Path, at: Path, kind: Kind, compatibility: Compatibility)
    requires before.Obj? && after.Obj? && CompareSchema(before, after, path).Ok?
    ensures Change(kind, compatibility, path + at) in CompareSchema(before, after, path).value <==>
      Differs(before, after, at, kind, compatibility)
    ensures Below(CompareSchema(before, after, path).value, path)
    decreases before, 3
  {
    var b, a, c := before.fields, after.fields, Change(kind, compatibility, path + at);
    AllParts(before, after, path, true);
    TypeReports(b, a, path, at, kind, compatibility);
    EnumReports(b, a, path, at, kind, compatibility);
    PropertiesReport(before, after, path, at, kind, compatibility);
    DefinitionsReport(before, after, path, "$defs", at, kind, compatibility);
    DefinitionsReport(before, after, path, "definitions", at, kind, compatibility);
    AdditionalReports(before, after, path, at, kind, compatibility);
    NamedLimitsReport(b, a, path, at, kind, compatibility);
    NamedKeywordsReport(b, a, path, at, kind, compatibility);
    ItemsReport(before, after, path, at, kind, compatibility);
    MemberOfParts(before, after, path, c);
  }

  /** A changed limit, or a changed keyword that is compared as a whole, is a breaking change at its own place. */
  lemma KeywordChangeBreaks(before: Json, after: Json, path: Path, name: string)
    requires before.Obj? && after.Obj? && CompareSchema(before, after, path).Ok?
    requires name in LIMITS || name in WHOLE
    requires !PyEq(Get(before.fields, name), Get(after.fields, name))
    ensures Change(if name in LIMITS then ConstraintChanged else KeywordChanged, Breaking, path + [name])
      in CompareSchema(before, after, path).value
    ensures Highest(CompareSchema(before, after, path).value) == Breaking
  {
    var kind := if name in LIMITS then ConstraintChanged else KeywordChanged;
    ReportExactly(before, after, path, [name], kind, Breaking);
    assert if name in LIMITS then LimitDiffers(before.fields, after.fields, [name], kind)
           else KeywordDiffers(before.fields, after.fields, [name], kind);
  }

  lemma NamedLimitsReport(b: Object, a: Object, path: Path, at: Path, kind: Kind, compatibility: Compatibility)
    requires CompareConstraints(b, a, path, ORDERED).Ok?
    ensures Change(kind, compatibility, path + at) in CompareConstraints(b, a, path, ORDERED).value <==>
      compatibility == Breaking && LimitDiffers(b, a, at, kind)
    ensures Below(CompareConstraints(b, a, path, ORDERED).value, path)
  {
    LimitsReport(b, a, path, ORDERED, at, kind, compatibility);
    if |at| == 1 {
      assert at[0] in ORDERED <==> at[0] in LIMITS by { VocabularyCompared(); }
    }
  }

  lemma NamedKeywordsReport(b: Object, a: Object, path: Path, at: Path, kind: Kind, compatibility: Compatibility)
    ensures Change(kind, compatibility, path + at) in CompareExact(b, a, path, EXACT) <==>
      compatibility == Breaking && KeywordDiffers(b, a, at, kind)
    ensures Below(CompareExact(b, a, path, EXACT), path)
  {
    KeywordsReport(b, a, path, EXACT, at, kind, compatibility);
    if |at| == 1 {
      assert at[0] in EXACT <==> at[0] in WHOLE by { VocabularyCompared(); }
    }
  }

  lemma MemberOfParts(before: Json, after: Json, path: Path, c: Change)
    requires before.Obj? && after.Obj? && CompareSchema(before, after, path).Ok?
    ensures var b, a := before.fields, after.fields;
      && CompareType(b, a, path).Ok? && CompareEnum(b, a, path).Ok? && CompareProperties(before, after, path).Ok?
      && CompareDefinitions(before, after, path, "$defs").Ok?
      && CompareDefinitions(before, after, path, "definitions").Ok?
      && CompareAdditional(before, after, path).Ok? && CompareConstraints(b, a, path, ORDERED).Ok?
      && CompareItems(before, after, path).Ok?
      && (c in CompareSchema(before, after, path).value <==>
          || c in CompareType(b, a, path).value || c in CompareEnum(b, a, path).value
          || c in CompareProperties(before, after, path).value
          || c in CompareDefinitions(before, after, path, "$defs").value
          || c in CompareDefinitions(before, after, path, "definitions").value
          || c in CompareAdditional(before, after, path).value
          || c in CompareConstraints(b, a, path, ORDERED).value || c in CompareExact(b, a, path, EXACT)
          || c in CompareItems(before, after, path).value)
      && (&& Below(CompareType(b, a, path).value, path) && Below(CompareEnum(b, a, path).value, path)
          && Below(CompareProperties(before, after, path).value, path)
          && Below(CompareDefinitions(before, after, path, "$defs").value, path)
          && Below(CompareDefinitions(before, after, path, "definitions").value, path)
          && Below(CompareAdditional(before, after, path).value, path)
          && Below(CompareConstraints(b, a, path, ORDERED).value, path) && Below(CompareExact(b, a, path, EXACT), path)
          && Below(CompareItems(before, after, path).value, path)
          ==> Below(CompareSchema(before, after, path).value, path))
  {
    var b, a := before.fields, after.fields;
    NineMembers(CompareType(b, a, path), CompareEnum(b, a, path), CompareProperties(before, after, path),
      CompareDefinitions(before, after, path, "$defs"), CompareDefinitions(before, after, path, "definitions"),
      CompareAdditional(before, after, path), CompareConstraints(b, a, path, ORDERED),
      Ok(CompareExact(b, a, path, EXACT)), CompareItems(before, after, path), c, path);
  }

  lemma NineMembers(p: SchemaDiff.Result<seq<Change>>, q: SchemaDiff.Result<seq<Change>>,
                    r: SchemaDiff.Result<seq<Change>>, s: SchemaDiff.Result<seq<Change>>,
                    t: SchemaDiff.Result<seq<Change>>, u: SchemaDiff.Result<seq<Change>>,
                    v: SchemaDiff.Result<seq<Change>>, w: SchemaDiff.Result<seq<Change>>,
                    x: SchemaDiff.Result<seq<Change>>, c: Change, path: Path)
    requires Gather([p, q, r, s, t, u, v, w, x], 0).Ok?
    ensures p.Ok? && q.Ok? && r.Ok? && s.Ok? && t.Ok? && u.Ok? && v.Ok? && w.Ok? && x.Ok?
    ensures c in Gather([p, q, r, s, t, u, v, w, x], 0).value <==>
      || c in p.value || c in q.value || c in r.value || c in s.value || c in t.value
      || c in u.value || c in v.value || c in w.value || c in x.value
    ensures
      && Below(p.value, path) && Below(q.value, path) && Below(r.value, path) && Below(s.value, path)
      && Below(t.value, path) && Below(u.value, path) && Below(v.value, path) && Below(w.value, path)
      && Below(x.value, path)
      ==> Below(Gather([p, q, r, s, t, u, v, w, x], 0).value, path)
  {
    var parts := [p, q, r, s, t, u, v, w, x];
    GatherMember(parts, 0, c, path);
    assert parts[0] == p && parts[1] == q && parts[2] == r && parts[3] == s && parts[4] == t;
    assert parts[5] == u && parts[6] == v && parts[7] == w && parts[8] == x;
  }

  // ----- which documents can be compared

  ghost predicate IsNames(j: Json) {
    j.Null? || (j.Arr? && forall i | 0 <= i < |j.items| :: j.items[i].Str?)
  }

  ghost predicate IsTable(j: Json) {
    j.Null? || (j.Obj? && forall k | k in j.fields :: j.fields[k].Obj?)
  }

  /** Two limits that can be set against each other. */
  ghost predicate AreLimits(was: Json, now: Json) {
    PyEq(was, now) || was.Null? || now.Null? || ((was.Num? || was.Bool?) && (now.Num? || now.Bool?))
  }

  ghost predicate ReadableKeywords(o: Object) {
    && (IsNames(Get(o, "type")) || Get(o, "type").Str?)
    && (Get(o, "enum").Null? || Get(o, "enum").Arr?)
    && IsNames(Get(o, "required"))
    && IsTable(Get(o, "properties")) && IsTable(Get(o, "$defs")) && IsTable(Get(o, "definitions"))
  }

  /** Every part of the two documents that is looked at has a form the comparison understands. */
  ghost predicate Readable(before: Json, after: Json)
    requires before.Obj? && after.Obj?
    decreases before, 1
  {
    var b, a := before.fields, after.fields;
    && ReadableKeywords(b) && ReadableKeywords(a)
    && (forall k | k in LIMITS :: AreLimits(Get(b, k), Get(a, k)))
    && ReadableTable(before, after, "properties") && ReadableTable(before, after, "$defs")
    && ReadableTable(before, after, "definitions")
    && (PyEq(Additional(b), Additional(a)) && Additional(b).Obj? ==> Readable(Additional(b), Additional(a)))
    && (|| Get(b, "items").Null? || Get(a, "items").Null?
        || (Get(b, "items").Obj? && Get(a, "items").Obj? && Readable(Get(b, "items"), Get(a, "items"))))
  }

  /** Entries that both tables have are readable. */
  ghost predicate ReadableTable(before: Json, after: Json, keyword: string)
    requires before.Obj? && after.Obj?
    decreases before, 0
  {
    var was, now := Get(before.fields, keyword), Get(after.fields, keyword);
    was.Obj? && now.Obj? ==>
      forall n | n in was.fields && n in now.fields && was.fields[n].Obj? && now.fields[n].Obj? ::
        Readable(was.fields[n], now.fields[n])
  }

  lemma TypesReadable(j: Json)
    ensures Types(j).Ok? <==> IsNames(j) || j.Str?
    ensures Required(j).Ok? <==> IsNames(j)
  {
  }

  lemma TableReadable(j: Json)
    ensures SchemaMap(j).Ok? <==> IsTable(j)
  {
  }

  lemma {:induction false} LimitsReadable(b: Object, a: Object, path: Path, keywords: seq<string>)
    ensures CompareConstraints(b, a, path, keywords).Ok? <==>
      forall k | k in keywords :: AreLimits(Get(b, k), Get(a, k))
  {
    if keywords != [] {
      LimitsReadable(b, a, path, keywords[1..]);
      assert forall k :: k in keywords <==> k == keywords[0] || k in keywords[1..];
    }
  }

  ghost predicate AllReadable(before: Json, was: Object, now: Object, names: seq<string>)
    requires forall n | n in names :: n in was && n in now && was[n].Obj? && now[n].Obj? && was[n] < before
  {
    forall n {:trigger Readable(was[n], now[n])} | n in names :: Readable(was[n], now[n])
  }

  lemma AllReadableMore(before: Json, was: Object, now: Object, names: seq<string>)
    requires names != []
    requires forall n | n in names :: n in was && n in now && was[n].Obj? && now[n].Obj? && was[n] < before
    ensures names[0] in names && forall n | n in names[1..] :: n in names
    ensures AllReadable(before, was, now, names) <==>
      Readable(was[names[0]], now[names[0]]) && AllReadable(before, was, now, names[1..])
  {
    assert forall n :: n in names <==> n == names[0] || n in names[1..];
  }

  lemma {:induction false} CommonReadable(before: Json, was: Object, now: Object, oldRequired: set<string>,
                                          newRequired: set<string>, path: Path, names: seq<string>)
    requires before.Obj?
    requires forall n | n in names :: n in was && n in now && was[n].Obj? && now[n].Obj? && was[n] < before
    ensures CompareCommon(before, was, now, oldRequired, newRequired, path, names).Ok? <==>
      AllReadable(before, was, now, names)
    decreases before, 0, |names|
  {
    if names != [] {
      AllReadableMore(before, was, now, names);
      CommonReadable(before, was, now, oldRequired, newRequired, path, names[1..]);
      ComparesExactlyWhen(was[names[0]], now[names[0]], path + ["properties", names[0]]);
    }
  }

  lemma {:induction false} NamedReadable(before: Json, was: Object, now: Object, path: Path, names: seq<string>)
    requires before.Obj?
    requires forall n | n in names :: n in was && n in now && was[n].Obj? && now[n].Obj? && was[n] < before
    ensures CompareNamed(before, was, now, path, names).Ok? <==> AllReadable(before, was, now, names)
    decreases before, 0, |names|
  {
    if names != [] {
      AllReadableMore(before, was, now, names);
      NamedReadable(before, was, now, path, names[1..]);
      ComparesExactlyWhen(was[names[0]], now[names[0]], path + [names[0]]);
    }
  }

  /** The entries listed for comparison are those both tables have. */
  lemma ListedReadable(before: Json, after: Json, keyword: string)
    requires before.Obj? && after.Obj?
    requires SchemaMap(Get(before.fields, keyword)).Ok? && SchemaMap(Get(after.fields, keyword)).Ok?
    ensures var was, now := SchemaMap(Get(before.fields, keyword)).value, SchemaMap(Get(after.fields, keyword)).value;
      AllReadable(before, was, now, InOrder(was.Keys * now.Keys)) <==> ReadableTable(before, after, keyword)
  {
    var was, now := SchemaMap(Get(before.fields, keyword)).value, SchemaMap(Get(after.fields, keyword)).value;
    assert forall n :: n in InOrder(was.Keys * now.Keys) <==> n in was && n in now;
  }

  lemma PropertiesReadable(before: Json, after: Json, path: Path)
    requires before.Obj? && after.Obj?
    ensures CompareProperties(before, after, path).Ok? <==>
      && IsTable(Get(before.fields, "properties")) && IsTable(Get(after.fields, "properties"))
      && IsNames(Get(before.fields, "required")) && IsNames(Get(after.fields, "required"))
      && ReadableTable(before, after, "properties")
    decreases before, 1
  {
    TableReadable(Get(before.fields, "properties"));
    TableReadable(Get(after.fields, "properties"));
    TypesReadable(Get(before.fields, "required"));
    TypesReadable(Get(after.fields, "required"));
    var was, now := SchemaMap(Get(before.fields, "properties")), SchemaMap(Get(after.fields, "properties"));
    var oldRequired, newRequired := Required(Get(before.fields, "required")), Required(Get(after.fields, "required"));
    if was.Ok? && now.Ok? && oldRequired.Ok? && newRequired.Ok? {
      ListedReadable(before, after, "properties");
      CommonReadable(before, was.value, now.value, oldRequired.value, newRequired.value, path,
        InOrder(was.value.Keys * now.value.Keys));
    }
  }

  lemma DefinitionsReadable(before: Json, after: Json, path: Path, keyword: string)
    requires before.Obj? && after.Obj?
    ensures CompareDefinitions(before, after, path, keyword).Ok? <==>
      && IsTable(Get(before.fields, keyword)) && IsTable(Get(after.fields, keyword))
      && ReadableTable(before, after, keyword)
    decreases before, 1
  {
    TableReadable(Get(before.fields, keyword));
    TableReadable(Get(after.fields, keyword));
    var was, now := SchemaMap(Get(before.fields, keyword)), SchemaMap(Get(after.fields, keyword));
    if was.Ok? && now.Ok? {
      ListedReadable(before, after, keyword);
      NamedReadable(before, was.value, now.value, path + [keyword], InOrder(was.value.Keys * now.value.Keys));
    }
  }

  lemma KeywordsReadable(b: Object, a: Object, path: Path)
    ensures CompareType(b, a, path).Ok? <==>
      (IsNames(Get(b, "type")) || Get(b, "type").Str?) && (IsNames(Get(a, "type")) || Get(a, "type").Str?)
    ensures CompareEnum(b, a, path).Ok? <==>
      (Get(b, "enum").Null? || Get(b, "enum").Arr?) && (Get(a, "enum").Null? || Get(a, "enum").Arr?)
  {
    TypesReadable(Get(b, "type"));
    TypesReadable(Get(a, "type"));
  }

  lemma NamedLimitsReadable(b: Object, a: Object, path: Path)
    ensures CompareConstraints(b, a, path, ORDERED).Ok? <==> forall k | k in LIMITS :: AreLimits(Get(b, k), Get(a, k))
  {
    VocabularyCompared();
    ListedLimitsReadable(b, a, path, ORDERED);
  }

  lemma ListedLimitsReadable(b: Object, a: Object, path: Path, keywords: seq<string>)
    requires forall k :: k in keywords <==> k in LIMITS
    ensures CompareConstraints(b, a, path, keywords).Ok? <==> forall k | k in LIMITS :: AreLimits(Get(b, k), Get(a, k))
  {
    LimitsReadable(b, a, path, keywords);
  }

  /** Two documents can be compared exactly when every part that is looked at is readable. */
  lemma ComparesExactlyWhen(before: Json, after: Json, path: Path)
    requires before.Obj? && after.Obj?
    ensures CompareSchema(before, after, path).Ok? <==> Readable(before, after)
    decreases before, 2
  {
    AllParts(before, after, path, true);
    KeywordsReadable(before.fields, after.fields, path);
    NamedLimitsReadable(before.fields, after.fields, path);
    PropertiesReadable(before, after, path);
    DefinitionsReadable(before, after, path, "$defs");
    DefinitionsReadable(before, after, path, "definitions");
    NestedReadable(before, after, path);
  }

  lemma NestedReadable(before: Json, after: Json, path: Path)
    requires before.Obj? && after.Obj?
    ensures var was, now := Additional(before.fields), Additional(after.fields);
      CompareAdditional(before, after, path).Ok? <==> (PyEq(was, now) && was.Obj? ==> Readable(was, now))
    ensures var was, now := Get(before.fields, "items"), Get(after.fields, "items");
      CompareItems(before, after, path).Ok? <==>
        || was.Null? || now.Null? || (was.Obj? && now.Obj? && Readable(was, now))
    decreases before, 1
  {
    if PyEq(Additional(before.fields), Additional(after.fields)) && Additional(before.fields).Obj? {
      ComparesExactlyWhen(Additional(before.fields), Additional(after.fields), path + ["additionalProperties"]);
    }
    if Get(before.fields, "items").Obj? && Get(after.fields, "items").Obj? {
      ComparesExactlyWhen(Get(before.fields, "items"), Get(after.fields, "items"), path + ["items"]);
    }
  }
}
