/**
 The resource-budget policy ratchet: every relaxation of the versioned policy demands a new
 reviewable adjustment record. Over a history no record answers one demand twice; within one
 change a record answers two demands exactly if they relax both bounds of a metric alike.
 */
module PolicyRatchet {
  import opened Options
  import opened Orders

  // ----- the policy document

  datatype Value = Text(s: string) | Number(n: real) | Flag(b: bool) | List(items: seq<Value>)

  type Fields = map<string, Value>

  datatype Metric = Metric(fields: Fields, baseline: Option<Value>, warningRatio: Option<Value>, limit: Option<real>,
    minimum: Option<real>)

  datatype Scenario = Scenario(fields: Fields, metrics: map<string, Metric>)

  datatype Table = LimitAdjustments | BaselineAdjustments | PolicyAdjustments

  datatype Document = Document(
    methodology: Fields,
    cacheExcluded: Option<Value>,
    scenarios: map<string, Scenario>,
    records: map<Table, seq<Fields>>)

  const METHODOLOGY_FIELDS := ["noise_spread_ratio", "dispersion", "statistic"]
  const METRIC_POLICY_FIELDS := ["classification", "enforcement", "unit"]
  const SCENARIO_POLICY_FIELDS := ["profile", "workload", "repetitions", "paths"]
  const PLACEHOLDERS: set<string> := {"pending", "tbd", "todo", "n/a", "-", "?"}
  const MINIMUM_JUSTIFICATION_LENGTH := 20

  function Get(m: Fields, key: string): Option<Value> {
    if key in m then Some(m[key]) else None
  }

  function Or(v: Option<Value>, fallback: string): Value {
    if v.Some? then v.value else Text(fallback)
  }

  function Blocking(m: Metric): bool {
    Get(m.fields, "enforcement") == Some(Text("blocking"))
  }

  // ----- reviewable records

  /** The characters `str.strip` removes. */
  predicate IsSpace(c: char) {
    var n := c as int;
    || 9 <= n <= 13 || 28 <= n <= 32 || n == 0x85 || n == 0xa0 || n == 0x1680 || 0x2000 <= n <= 0x200a
    || n == 0x2028 || n == 0x2029 || n == 0x202f || n == 0x205f || n == 0x3000
  }

  function StripLeft(s: string): string {
    if s != "" && IsSpace(s[0]) then StripLeft(s[1..]) else s
  }

  function StripRight(s: string): string {
    if s != "" && IsSpace(s[|s| - 1]) then StripRight(s[..|s| - 1]) else s
  }

  function Strip(s: string): string {
    StripRight(StripLeft(s))
  }

  function Lower(s: string): string {
    seq(|s|, i requires 0 <= i < |s| => if 'A' <= s[i] <= 'Z' then s[i] - 'A' + 'a' else s[i])
  }

  predicate Reviewable(justification: Option<Value>) {
    justification.Some? && justification.value.Text?
    && var text := Strip(justification.value.s);
       |text| >= MINIMUM_JUSTIFICATION_LENGTH && Lower(text) !in PLACEHOLDERS
  }

  predicate MatchesRecord(record: Fields, expected: Fields) {
    forall k | k in expected :: k in record && record[k] == expected[k]
  }

  /** `_matches`: the reviewable records that agree with every expected field. */
  function Count(records: seq<Fields>, expected: Fields): nat {
    if records == [] then 0
    else
      Count(records[..|records| - 1], expected)
      + var last := records[|records| - 1];
        if MatchesRecord(last, expected) && Reviewable(Get(last, "justification")) then 1 else 0
  }

  function Records(doc: Document, table: Table): seq<Fields> {
    if table in doc.records then doc.records[table] else []
  }

  function Matches(doc: Document, table: Table, expected: Fields): nat {
    Count(Records(doc, table), expected)
  }

  /** `authorises`: the change adds a matching record. */
  predicate Grew(base: Document, current: Document, table: Table, expected: Fields) {
    Matches(current, table, expected) > Matches(base, table, expected)
  }

  // ----- what a change has to answer for

  datatype Bound = NoBound | Maximum | Minimum

  /** A record the change must add; a limit record may leave the bound out when it is a maximum. */
  datatype Demand = Demand(table: Table, expected: Fields, bound: Bound)

  function BoundName(bound: Bound): string {
    if bound == Minimum then "minimum" else "maximum"
  }

  predicate Authorised(base: Document, current: Document, d: Demand) {
    if d.bound == NoBound then Grew(base, current, d.table, d.expected)
    else
      || Grew(base, current, d.table, d.expected["bound" := Text(BoundName(d.bound))])
      || (d.bound == Maximum && Grew(base, current, d.table, d.expected))
  }

  function PolicyDemand(scenario: string, metric: string, field: string, previous: Value, new_: Value): Demand {
    Demand(PolicyAdjustments,
           map["scenario" := Text(scenario), "metric" := Text(metric), "field" := Text(field), "previous" := previous,
             "new" := new_],
           NoBound)
  }

  function FieldDemand(scenario: string, metric: string, field: string, was: Option<Value>,
                       now: Option<Value>): seq<Demand> {
    if was == now then [] else [PolicyDemand(scenario, metric, field, Or(was, "absent"), Or(now, "removed"))]
  }

  function FieldDemands(scenario: string, metric: string, names: seq<string>, was: Fields, now: Fields): seq<Demand> {
    if names == [] then []
    else
      FieldDemand(scenario, metric, names[0], Get(was, names[0]), Get(now, names[0]))
      + FieldDemands(scenario, metric, names[1..], was, now)
  }

  function MethodologyDemands(names: seq<string>, was: Fields, now: Fields): seq<Demand> {
    if names == [] then []
    else
      FieldDemand("*", "*", "methodology." + names[0], Get(was, names[0]), Get(now, names[0]))
      + MethodologyDemands(names[1..], was, now)
  }

  function CacheExcluded(doc: Document): Option<Value> {
    if doc.cacheExcluded.Some? then doc.cacheExcluded else Some(List([]))
  }

  function GlobalDemands(base: Document, current: Document): seq<Demand> {
    MethodologyDemands(METHODOLOGY_FIELDS, base.methodology, current.methodology)
    + FieldDemand("*", "*", "classifications.cache_excluded", CacheExcluded(base), CacheExcluded(current))
  }

  function BaselineDemands(scenario: string, metric: string, was: Metric, now: Metric): seq<Demand> {
    if was.baseline == now.baseline && was.warningRatio == now.warningRatio then []
    else
      var expected := map[
        "scenario" := Text(scenario), "metric" := Text(metric),
        "previous_baseline" := Or(was.baseline, "absent"), "new_baseline" := Or(now.baseline, "removed")];
      [Demand(BaselineAdjustments,
              if was.warningRatio.None? && now.warningRatio.None? then expected
              else expected["previous_warning_ratio" := Or(was.warningRatio, "absent")]
                           ["new_warning_ratio" := Or(now.warningRatio, "removed")],
              NoBound)]
  }

  function LimitDemand(scenario: string, metric: string, bound: Bound, previous: real, new_: Option<real>): Demand {
    Demand(LimitAdjustments,
           map["scenario" := Text(scenario), "metric" := Text(metric), "previous_limit" := Number(previous),
               "new_limit" := if new_.Some? then Number(new_.value) else Text("removed")],
           bound)
  }

  /** A bound counts on the new side only if the metric still blocks. */
  function Enforced(m: Metric, bound: Option<real>): Option<real> {
    if Blocking(m) then bound else None
  }

  function BoundDemands(scenario: string, metric: string, was: Metric, now: Metric): seq<Demand> {
    if !Blocking(was) then []
    else
      var limit, minimum := Enforced(now, now.limit), Enforced(now, now.minimum);
      (if was.limit.Some? && (limit.None? || limit.value > was.limit.value)
       then [LimitDemand(scenario, metric, Maximum, was.limit.value, limit)] else [])
      + (if was.minimum.Some? && (minimum.None? || minimum.value < was.minimum.value)
         then [LimitDemand(scenario, metric, Minimum, was.minimum.value, minimum)] else [])
  }

  function MetricDemands(scenario: string, metric: string, was: Metric, now: Option<Metric>): seq<Demand> {
    if now.None? then [PolicyDemand(scenario, metric, "metric", Text("present"), Text("removed"))]
    else
      FieldDemands(scenario, metric, METRIC_POLICY_FIELDS, was.fields, now.value.fields)
      + BaselineDemands(scenario, metric, was, now.value)
      + BoundDemands(scenario, metric, was, now.value)
  }

  function FindMetric(s: Scenario, name: string): Option<Metric> {
    if name in s.metrics then Some(s.metrics[name]) else None
  }

  function MetricsDemands(scenario: string, was: Scenario, now: Scenario, names: seq<string>): seq<Demand>
    requires forall n | n in names :: n in was.metrics
  {
    if names == [] then []
    else
      MetricDemands(scenario, names[0], was.metrics[names[0]], FindMetric(now, names[0]))
      + MetricsDemands(scenario, was, now, names[1..])
  }

  function ScenarioDemands(scenario: string, was: Scenario, current: Document): seq<Demand> {
    if scenario !in current.scenarios then [PolicyDemand(scenario, "*", "scenario", Text("present"), Text("removed"))]
    else
      var now := current.scenarios[scenario];
      FieldDemands(scenario, "*", SCENARIO_POLICY_FIELDS, was.fields, now.fields)
      + MetricsDemands(scenario, was, now, InOrder(was.metrics.Keys))
  }

  function ScenariosDemands(base: Document, current: Document, names: seq<string>): seq<Demand>
    requires forall n | n in names :: n in base.scenarios
  {
    if names == [] then []
    else ScenarioDemands(names[0], base.scenarios[names[0]], current) + ScenariosDemands(base, current, names[1..])
  }

  function Demands(base: Document, current: Document): seq<Demand> {
    GlobalDemands(base, current) + ScenariosDemands(base, current, InOrder(base.scenarios.Keys))
  }

  ghost predicate AllAuthorised(base: Document, current: Document, ds: seq<Demand>) {
    forall d | d in ds :: Authorised(base, current, d)
  }

  /** `validate_baseline_changes` raises nothing. */
  ghost predicate Accepts(base: Document, current: Document) {
    AllAuthorised(base, current, Demands(base, current))
  }

  // ----- the walk that raises on the first change nobody answers for

  lemma Both(base: Document, current: Document, xs: seq<Demand>, ys: seq<Demand>)
    ensures AllAuthorised(base, current, xs + ys) <==>
      AllAuthorised(base, current, xs) && AllAuthorised(base, current, ys)
  {
    assert forall d :: d in xs + ys <==> d in xs || d in ys;
  }

  method CheckAll(base: Document, current: Document, ds: seq<Demand>) returns (ok: bool)
    ensures ok <==> AllAuthorised(base, current, ds)
  {
    for i := 0 to |ds|
      invariant AllAuthorised(base, current, ds[..i])
    {
      if !Authorised(base, current, ds[i]) {
        return false;
      }
    }
    assert ds[..|ds|] == ds;
    return true;
  }

  /** The metrics from one position on: the first of them, then the rest. */
  lemma MetricsStep(base: Document, current: Document, scenario: string, was: Scenario, now: Scenario,
                    names: seq<string>, i: nat)
    requires (forall n | n in names :: n in was.metrics) && i < |names|
    ensures AllAuthorised(base, current, MetricsDemands(scenario, was, now, names[i..]))
      <==> (AllAuthorised(base, current,
        MetricDemands(scenario, names[i], was.metrics[names[i]], FindMetric(now, names[i])))
            && AllAuthorised(base, current, MetricsDemands(scenario, was, now, names[i + 1..])))
  {
    assert names[i..][0] == names[i] && names[i..][1..] == names[i + 1..];
    Both(base, current, MetricDemands(scenario, names[i], was.metrics[names[i]], FindMetric(now, names[i])),
         MetricsDemands(scenario, was, now, names[i + 1..]));
  }

  method CheckMetrics(base: Document, current: Document, scenario: string, was: Scenario, now: Scenario)
    returns (ok: bool)
    ensures ok <==> AllAuthorised(base, current, MetricsDemands(scenario, was, now, InOrder(was.metrics.Keys)))
  {
    var names := InOrder(was.metrics.Keys);
    ok := CheckMetricsIn(base, current, scenario, was, now, names);
  }

  method CheckMetricsIn(base: Document, current: Document, scenario: string, was: Scenario, now: Scenario,
                        names: seq<string>) returns (ok: bool)
    requires forall n | n in names :: n in was.metrics
    ensures ok <==> AllAuthorised(base, current, MetricsDemands(scenario, was, now, names))
  {
    assert names[0..] == names;
    for i := 0 to |names|
      invariant AllAuthorised(base, current, MetricsDemands(scenario, was, now, names))
           <==> AllAuthorised(base, current, MetricsDemands(scenario, was, now, names[i..]))
    {
      MetricsStep(base, current, scenario, was, now, names, i);
      var fine := CheckAll(base, current,
        MetricDemands(scenario, names[i], was.metrics[names[i]], FindMetric(now, names[i])));
      if !fine {
        return false;
      }
    }
    return true;
  }

  method CheckScenario(base: Document, current: Document, scenario: string) returns (ok: bool)
    requires scenario in base.scenarios
    ensures ok <==> AllAuthorised(base, current, ScenarioDemands(scenario, base.scenarios[scenario], current))
  {
    var was := base.scenarios[scenario];
    if scenario !in current.scenarios {
      ok := CheckAll(base, current, [PolicyDemand(scenario, "*", "scenario", Text("present"), Text("removed"))]);
      return;
    }
    var now := current.scenarios[scenario];
    var fields := FieldDemands(scenario, "*", SCENARIO_POLICY_FIELDS, was.fields, now.fields);
    Both(base, current, fields, MetricsDemands(scenario, was, now, InOrder(was.metrics.Keys)));
    ok := CheckAll(base, current, fields);
    if ok {
      ok := CheckMetrics(base, current, scenario, was, now);
    }
  }

  lemma ScenariosStep(base: Document, current: Document, names: seq<string>, i: nat)
    requires (forall n | n in names :: n in base.scenarios) && i < |names|
    ensures AllAuthorised(base, current, ScenariosDemands(base, current, names[i..]))
      <==> (AllAuthorised(base, current, ScenarioDemands(names[i], base.scenarios[names[i]], current))
            && AllAuthorised(base, current, ScenariosDemands(base, current, names[i + 1..])))
  {
    assert names[i..][0] == names[i] && names[i..][1..] == names[i + 1..];
    Both(base, current, ScenarioDemands(names[i], base.scenarios[names[i]], current),
      ScenariosDemands(base, current, names[i + 1..]));
  }

  method CheckScenarios(base: Document, current: Document, names: seq<string>) returns (ok: bool)
    requires forall n | n in names :: n in base.scenarios
    ensures ok <==> AllAuthorised(base, current, ScenariosDemands(base, current, names))
  {
    assert names[0..] == names;
    for i := 0 to |names|
      invariant AllAuthorised(base, current, ScenariosDemands(base, current, names))
           <==> AllAuthorised(base, current, ScenariosDemands(base, current, names[i..]))
    {
      ScenariosStep(base, current, names, i);
      ok := CheckScenario(base, current, names[i]);
      if !ok {
        return;
      }
    }
    return true;
  }

  /** A change is accepted exactly when every relaxation in it is answered by a new record. */
  method ValidateBaselineChanges(base: Document, current: Document) returns (ok: bool)
    ensures ok <==> Accepts(base, current)
  {
    var names := InOrder(base.scenarios.Keys);
    Both(base, current, GlobalDemands(base, current), ScenariosDemands(base, current, names));
    ok := CheckAll(base, current, GlobalDemands(base, current));
    if ok {
      ok := CheckScenarios(base, current, names);
    }
  }

  // ----- what may change without a record

  predicate SameFields(names: seq<string>, was: Fields, now: Fields) {
    forall n | n in names :: Get(was, n) == Get(now, n)
  }

  /** A bound the old side enforced is still enforced, and is no weaker. */
  predicate BoundsKept(was: Metric, now: Metric) {
    Blocking(was) ==>
      && (was.limit.Some? ==> Blocking(now) && now.limit.Some? && now.limit.value <= was.limit.value)
      && (was.minimum.Some? ==> Blocking(now) && now.minimum.Some? && now.minimum.value >= was.minimum.value)
  }

  predicate MetricKept(was: Metric, now: Metric) {
    && SameFields(METRIC_POLICY_FIELDS, was.fields, now.fields)
    && was.baseline == now.baseline && was.warningRatio == now.warningRatio
    && BoundsKept(was, now)
  }

  ghost predicate ScenarioKept(was: Scenario, now: Scenario) {
    && SameFields(SCENARIO_POLICY_FIELDS, was.fields, now.fields)
    && forall m | m in was.metrics :: m in now.metrics && MetricKept(was.metrics[m], now.metrics[m])
  }

  /** No policy of the base was changed or relaxed; scenarios and metrics may be added and bounds tightened. */
  ghost predicate PolicyKept(base: Document, current: Document) {
    && SameFields(METHODOLOGY_FIELDS, base.methodology, current.methodology)
    && CacheExcluded(base) == CacheExcluded(current)
    && forall s | s in base.scenarios :: s in current.scenarios && ScenarioKept(base.scenarios[s], current.scenarios[s])
  }

  lemma {:induction false} FieldsSilent(scenario: string, metric: string, names: seq<string>, was: Fields, now: Fields)
    ensures FieldDemands(scenario, metric, names, was, now) == [] <==> SameFields(names, was, now)
  {
    if names != [] {
      assert names[0] in names;
      FieldsSilent(scenario, metric, names[1..], was, now);
    }
  }

  lemma {:induction false} MethodologySilent(names: seq<string>, was: Fields, now: Fields)
    ensures MethodologyDemands(names, was, now) == [] <==> SameFields(names, was, now)
  {
    if names != [] {
      assert names[0] in names;
      MethodologySilent(names[1..], was, now);
    }
  }

  lemma MetricSilent(scenario: string, metric: string, was: Metric, now: Option<Metric>)
    ensures MetricDemands(scenario, metric, was, now) == [] <==> now.Some? && MetricKept(was, now.value)
  {
    if now.Some? {
      FieldsSilent(scenario, metric, METRIC_POLICY_FIELDS, was.fields, now.value.fields);
    }
  }

  lemma {:induction false} MetricsSilent(scenario: string, was: Scenario, now: Scenario, names: seq<string>)
    requires forall n | n in names :: n in was.metrics
    ensures MetricsDemands(scenario, was, now, names) == []
      <==> forall m | m in names :: m in now.metrics && MetricKept(was.metrics[m], now.metrics[m])
  {
    if names != [] {
      assert names[0] in names && forall n | n in names[1..] :: n in names;
      MetricSilent(scenario, names[0], was.metrics[names[0]], FindMetric(now, names[0]));
      MetricsSilent(scenario, was, now, names[1..]);
    }
  }

  lemma ScenarioSilent(scenario: string, was: Scenario, current: Document)
    ensures ScenarioDemands(scenario, was, current) == []
      <==> scenario in current.scenarios && ScenarioKept(was, current.scenarios[scenario])
  {
    if scenario in current.scenarios {
      var now := current.scenarios[scenario];
      FieldsSilent(scenario, "*", SCENARIO_POLICY_FIELDS, was.fields, now.fields);
      MetricsSilent(scenario, was, now, InOrder(was.metrics.Keys));
    }
  }

  lemma {:induction false} ScenariosSilent(base: Document, current: Document, names: seq<string>)
    requires forall n | n in names :: n in base.scenarios
    ensures ScenariosDemands(base, current, names) == []
      <==> forall s | s in names :: s in current.scenarios && ScenarioKept(base.scenarios[s], current.scenarios[s])
  {
    if names != [] {
      assert names[0] in names && forall n | n in names[1..] :: n in names;
      ScenarioSilent(names[0], base.scenarios[names[0]], current);
      ScenariosSilent(base, current, names[1..]);
    }
  }

  /** A change demands nothing exactly when it keeps the policy. */
  lemma SilentExactlyWhenKept(base: Document, current: Document)
    ensures Demands(base, current) == [] <==> PolicyKept(base, current)
  {
    MethodologySilent(METHODOLOGY_FIELDS, base.methodology, current.methodology);
    ScenariosSilent(base, current, InOrder(base.scenarios.Keys));
  }

  lemma NothingGrew(base: Document, current: Document, d: Demand)
    requires current.records == base.records
    ensures !Authorised(base, current, d)
  {
    assert Records(current, d.table) == Records(base, d.table);
  }

  lemma NoneAuthorised(base: Document, current: Document, ds: seq<Demand>)
    requires current.records == base.records
    ensures AllAuthorised(base, current, ds) <==> ds == []
  {
    if ds != [] {
      NothingGrew(base, current, ds[0]);
      assert ds[0] in ds;
    }
  }

  /** A change that adds no record is accepted exactly when it keeps the policy. */
  lemma AcceptedWithoutRecords(base: Document, current: Document)
    requires current.records == base.records
    ensures Accepts(base, current) <==> PolicyKept(base, current)
  {
    SilentExactlyWhenKept(base, current);
    NoneAuthorised(base, current, Demands(base, current));
  }

  // ----- histories

  lemma {:induction false} CountAppended(records: seq<Fields>, more: seq<Fields>, expected: Fields)
    ensures Count(records + more, expected) == Count(records, expected) + Count(more, expected)
  {
    if more == [] {
      assert records + more == records;
    } else {
      CountAppended(records, more[..|more| - 1], expected);
      assert (records + more)[..|records + more| - 1] == records + more[..|more| - 1];
    }
  }

  /** Asking for one more field never finds more records. */
  lemma {:induction false} CountNarrower(records: seq<Fields>, expected: Fields, key: string, value: Value)
    requires key !in expected
    ensures Count(records, expected[key := value]) <= Count(records, expected)
  {
    if records != [] {
      CountNarrower(records[..|records| - 1], expected, key, value);
      var last := records[|records| - 1];
      if MatchesRecord(last, expected[key := value]) {
        assert forall k | k in expected :: k in expected[key := value] && expected[key := value][k] == expected[k];
      }
    }
  }

  // ----- records that come and go

  function RemoveOne(records: seq<Fields>, record: Fields): seq<Fields> {
    if records == [] then []
    else if records[0] == record then records[1..]
    else [records[0]] + RemoveOne(records[1..], record)
  }

  /** The records of `was` that `now` does not have any more, counted with repetitions. */
  function Lost(was: seq<Fields>, now: seq<Fields>): seq<Fields>
    decreases now
  {
    if now == [] then was else Lost(RemoveOne(was, now[0]), now[1..])
  }

  lemma {:induction false} RemoveOneIs(records: seq<Fields>, record: Fields)
    ensures multiset(RemoveOne(records, record)) == multiset(records) - multiset{record}
  {
    if records != [] {
      assert records == [records[0]] + records[1..];
      if records[0] != record {
        RemoveOneIs(records[1..], record);
      }
    }
  }

  lemma {:induction false} LostIs(was: seq<Fields>, now: seq<Fields>)
    ensures multiset(Lost(was, now)) == multiset(was) - multiset(now)
    decreases now
  {
    if now != [] {
      RemoveOneIs(was, now[0]);
      LostIs(RemoveOne(was, now[0]), now[1..]);
      HeadApart(now);
      MinusTwice(multiset(Lost(was, now)), multiset(was), multiset(RemoveOne(was, now[0])), multiset(now),
        now[0], multiset(now[1..]));
    }
  }

  lemma HeadApart(records: seq<Fields>)
    requires records != []
    ensures multiset(records) == multiset{records[0]} + multiset(records[1..])
  {
    assert records == [records[0]] + records[1..];
  }

  lemma MinusTwice(lost: multiset<Fields>, was: multiset<Fields>, less: multiset<Fields>, now: multiset<Fields>,
                   record: Fields, rest: multiset<Fields>)
    requires less == was - multiset{record} && lost == less - rest && now == multiset{record} + rest
    ensures lost == was - now
  {
  }

  lemma {:induction false} CountRemoved(records: seq<Fields>, record: Fields, expected: Fields)
    requires record in records
    ensures Count(records, expected) == Count(RemoveOne(records, record), expected) + Count([record], expected)
  {
    CountAppended([records[0]], records[1..], expected);
    assert records == [records[0]] + records[1..];
    if records[0] != record {
      CountRemoved(records[1..], record, expected);
      CountAppended([records[0]], RemoveOne(records[1..], record), expected);
    }
  }

  lemma {:induction false} CountPermuted(a: seq<Fields>, b: seq<Fields>, expected: Fields)
    requires multiset(a) == multiset(b)
    ensures Count(a, expected) == Count(b, expected)
    decreases |a|
  {
    if a == [] {
      assert |multiset(b)| == 0;
    } else {
      assert a == [a[0]] + a[1..];
      assert a[0] in multiset(b);
      RemoveOneIs(b, a[0]);
      assert multiset(a[1..]) == multiset(a) - multiset{a[0]};
      CountPermuted(a[1..], RemoveOne(b, a[0]), expected);
      CountRemoved(b, a[0], expected);
      CountAppended([a[0]], a[1..], expected);
    }
  }

  /** What a change adds and what it loses make up the difference. */
  lemma CountBalance(was: seq<Fields>, now: seq<Fields>, expected: Fields)
    ensures Count(was, expected) + Count(Lost(now, was), expected)
         == Count(now, expected) + Count(Lost(was, now), expected)
  {
    LostIs(was, now);
    LostIs(now, was);
    assert multiset(was + Lost(now, was)) == multiset(now + Lost(was, now));
    CountPermuted(was + Lost(now, was), now + Lost(was, now), expected);
    CountAppended(was, Lost(now, was), expected);
    CountAppended(now, Lost(was, now), expected);
  }

  /** Matching records that a change drops. */
  function Drops(base: Document, current: Document, table: Table, expected: Fields): nat {
    Count(Lost(Records(base, table), Records(current, table)), expected)
  }

  /** The record that settles a demand, as loosely as the check matches it. */
  function Payment(d: Demand): Fields {
    if d.bound == Minimum then d.expected["bound" := Text("minimum")] else d.expected
  }

  /** An authorised demand has added a record of its own, or one that was dropped made room for it. */
  lemma DemandIsPaid(base: Document, current: Document, d: Demand)
    requires Authorised(base, current, d) && "bound" !in d.expected
    ensures Matches(base, d.table, Payment(d)) + 1
         <= Matches(current, d.table, Payment(d)) + Drops(base, current, d.table, Payment(d))
  {
    var was, now := Records(base, d.table), Records(current, d.table);
    CountBalance(was, now, d.expected);
    if d.bound == Maximum {
      CountBalance(was, now, d.expected["bound" := Text("maximum")]);
      CountNarrower(Lost(now, was), d.expected, "bound", Text("maximum"));
    }
  }

  lemma ChangeIsPaid(base: Document, current: Document, d: Demand)
    requires Accepts(base, current) && "bound" !in d.expected
    ensures Matches(base, d.table, Payment(d)) + (if d in Demands(base, current) then 1 else 0)
         <= Matches(current, d.table, Payment(d)) + Drops(base, current, d.table, Payment(d))
  {
    CountBalance(Records(base, d.table), Records(current, d.table), Payment(d));
    if d in Demands(base, current) {
      DemandIsPaid(base, current, d);
    }
  }

  /** Policy documents in order, each change accepted. */
  ghost predicate Accepted(docs: seq<Document>) {
    && docs != []
    && (|docs| >= 2 ==> Accepted(docs[..|docs| - 1]) && Accepts(docs[|docs| - 2], docs[|docs| - 1]))
  }

  /** How many changes of the history demand this record. */
  ghost function Times(docs: seq<Document>, d: Demand): nat {
    if |docs| < 2 then 0
    else Times(docs[..|docs| - 1], d) + if d in Demands(docs[|docs| - 2], docs[|docs| - 1]) then 1 else 0
  }

  /** How many matching records the history drops on the way. */
  function Dropped(docs: seq<Document>, table: Table, expected: Fields): nat {
    if |docs| < 2 then 0
    else Dropped(docs[..|docs| - 1], table, expected) + Drops(docs[|docs| - 2], docs[|docs| - 1], table, expected)
  }

  /**
   Over every accepted history, a demand is made at most as often as matching records were added,
   those dropped again included.
   */
  lemma {:induction false} DemandsArePaid(docs: seq<Document>, d: Demand)
    requires Accepted(docs) && "bound" !in d.expected
    ensures Matches(docs[0], d.table, Payment(d)) + Times(docs, d)
         <= Matches(docs[|docs| - 1], d.table, Payment(d)) + Dropped(docs, d.table, Payment(d))
  {
    if |docs| >= 2 {
      var earlier := docs[..|docs| - 1];
      DemandsArePaid(earlier, d);
      assert earlier[0] == docs[0] && earlier[|earlier| - 1] == docs[|docs| - 2];
      ChangeIsPaid(docs[|docs| - 2], docs[|docs| - 1], d);
    }
  }

  // ----- histories that only append records

  ghost predicate AppendOnly(base: Document, current: Document) {
    forall table :: Records(base, table) <= Records(current, table)
  }

  ghost predicate History(docs: seq<Document>) {
    Accepted(docs) && Appending(docs)
  }

  ghost predicate Appending(docs: seq<Document>) {
    |docs| >= 2 ==> Appending(docs[..|docs| - 1]) && AppendOnly(docs[|docs| - 2], docs[|docs| - 1])
  }

  lemma AppendedDropsNothing(base: Document, current: Document, table: Table, expected: Fields)
    requires AppendOnly(base, current)
    ensures Drops(base, current, table, expected) == 0
  {
    var was, now := Records(base, table), Records(current, table);
    LostIs(was, now);
    assert now == was + now[|was|..];
    assert multiset(Lost(was, now)) == multiset{};
    assert |multiset(Lost(was, now))| == 0;
  }

  lemma {:induction false} NothingDropped(docs: seq<Document>, table: Table, expected: Fields)
    requires Appending(docs)
    ensures Dropped(docs, table, expected) == 0
  {
    if |docs| >= 2 {
      NothingDropped(docs[..|docs| - 1], table, expected);
      AppendedDropsNothing(docs[|docs| - 2], docs[|docs| - 1], table, expected);
    }
  }

  /** With records only appended, no record answers the same demand twice. */
  lemma NoDemandTwice(docs: seq<Document>, d: Demand)
    requires History(docs) && "bound" !in d.expected
    ensures Matches(docs[0], d.table, Payment(d)) + Times(docs, d) <= Matches(docs[|docs| - 1], d.table, Payment(d))
  {
    DemandsArePaid(docs, d);
    NothingDropped(docs, d.table, Payment(d));
  }

  // ----- raising one maximum

  /** The change relaxes an enforced maximum from one value to another, or drops it. */
  predicate Raises(base: Document, current: Document, scenario: string, metric: string, from: real, to: Option<real>) {
    && scenario in base.scenarios && metric in base.scenarios[scenario].metrics
    && scenario in current.scenarios && metric in current.scenarios[scenario].metrics
    && var was, now := base.scenarios[scenario].metrics[metric], current.scenarios[scenario].metrics[metric];
       && Enforced(was, was.limit) == Some(from)
       && Enforced(now, now.limit) == to
       && (to.None? || to.value > from)
  }

  lemma {:induction false} MetricDemanded(scenario: string, was: Scenario, now: Scenario, names: seq<string>,
                                          metric: string, d: Demand)
    requires (forall n | n in names :: n in was.metrics) && metric in names
    requires d in MetricDemands(scenario, metric, was.metrics[metric], FindMetric(now, metric))
    ensures d in MetricsDemands(scenario, was, now, names)
  {
    if names[0] != metric {
      MetricDemanded(scenario, was, now, names[1..], metric, d);
    }
  }

  lemma {:induction false} ScenarioDemanded(base: Document, current: Document, names: seq<string>, scenario: string,
                                            d: Demand)
    requires (forall n | n in names :: n in base.scenarios) && scenario in names
    requires d in ScenarioDemands(scenario, base.scenarios[scenario], current)
    ensures d in ScenariosDemands(base, current, names)
  {
    if names[0] != scenario {
      ScenarioDemanded(base, current, names[1..], scenario, d);
    }
  }

  /** Every relaxation of a maximum is demanded. */
  lemma RaiseIsDemanded(base: Document, current: Document, scenario: string, metric: string, from: real,
                        to: Option<real>)
    requires Raises(base, current, scenario, metric, from, to)
    ensures LimitDemand(scenario, metric, Maximum, from, to) in Demands(base, current)
  {
    var d := LimitDemand(scenario, metric, Maximum, from, to);
    var was, now := base.scenarios[scenario], current.scenarios[scenario];
    assert d in BoundDemands(scenario, metric, was.metrics[metric], now.metrics[metric]);
    MetricDemanded(scenario, was, now, InOrder(was.metrics.Keys), metric, d);
    ScenarioDemanded(base, current, InOrder(base.scenarios.Keys), scenario, d);
  }

  /** The change relaxes an enforced minimum, or drops it. */
  predicate Lowers(base: Document, current: Document, scenario: string, metric: string, from: real, to: Option<real>) {
    && scenario in base.scenarios && metric in base.scenarios[scenario].metrics
    && scenario in current.scenarios && metric in current.scenarios[scenario].metrics
    && var was, now := base.scenarios[scenario].metrics[metric], current.scenarios[scenario].metrics[metric];
       && Enforced(was, was.minimum) == Some(from)
       && Enforced(now, now.minimum) == to
       && (to.None? || to.value < from)
  }

  /** Every relaxation of a minimum is demanded, by a record that names the bound. */
  lemma LoweringIsDemanded(base: Document, current: Document, scenario: string, metric: string, from: real,
                           to: Option<real>)
    requires Lowers(base, current, scenario, metric, from, to)
    ensures LimitDemand(scenario, metric, Minimum, from, to) in Demands(base, current)
  {
    var d := LimitDemand(scenario, metric, Minimum, from, to);
    var was, now := base.scenarios[scenario], current.scenarios[scenario];
    assert d in BoundDemands(scenario, metric, was.metrics[metric], now.metrics[metric]);
    MetricDemanded(scenario, was, now, InOrder(was.metrics.Keys), metric, d);
    ScenarioDemanded(base, current, InOrder(base.scenarios.Keys), scenario, d);
  }

  ghost function TimesRaised(docs: seq<Document>, scenario: string, metric: string, from: real, to: Option<real>): nat {
    if |docs| < 2 then 0
    else
      TimesRaised(docs[..|docs| - 1], scenario, metric, from, to)
      + if Raises(docs[|docs| - 2], docs[|docs| - 1], scenario, metric, from, to) then 1 else 0
  }

  lemma {:induction false} RaisesAreDemands(docs: seq<Document>, scenario: string, metric: string, from: real,
                                            to: Option<real>)
    ensures TimesRaised(docs, scenario, metric, from, to)
         <= Times(docs, LimitDemand(scenario, metric, Maximum, from, to))
  {
    if |docs| >= 2 {
      RaisesAreDemands(docs[..|docs| - 1], scenario, metric, from, to);
      if Raises(docs[|docs| - 2], docs[|docs| - 1], scenario, metric, from, to) {
        RaiseIsDemanded(docs[|docs| - 2], docs[|docs| - 1], scenario, metric, from, to);
      }
    }
  }

  /**
   A maximum was raised from one value to another at most as often as there are matching reviewable
   records at the end.
   */
  lemma RaisesArePaid(docs: seq<Document>, scenario: string, metric: string, from: real, to: Option<real>)
    requires History(docs)
    ensures TimesRaised(docs, scenario, metric, from, to)
         <= Matches(docs[|docs| - 1], LimitAdjustments, LimitDemand(scenario, metric, Maximum, from, to).expected)
  {
    var d := LimitDemand(scenario, metric, Maximum, from, to);
    RaisesAreDemands(docs, scenario, metric, from, to);
    NoDemandTwice(docs, d);
  }

  // ----- demands that one record answers

  const POLICY_KEYS: set<string> := {"scenario", "metric", "field", "previous", "new"}
  const LIMIT_KEYS: set<string> := {"scenario", "metric", "previous_limit", "new_limit"}

  /** A baseline demand is the one its metric makes. */
  ghost predicate BaselineOf(base: Document, current: Document, d: Demand, scenario: string, metric: string) {
    && scenario in base.scenarios && metric in base.scenarios[scenario].metrics
    && scenario in current.scenarios && metric in current.scenarios[scenario].metrics
    && [d] == BaselineDemands(scenario, metric, base.scenarios[scenario].metrics[metric],
      current.scenarios[scenario].metrics[metric])
  }

  ghost predicate WellShaped(base: Document, current: Document, d: Demand) {
    match d.table
    case PolicyAdjustments => d.bound == NoBound && d.expected.Keys == POLICY_KEYS
    case LimitAdjustments => d.bound != NoBound && d.expected.Keys == LIMIT_KEYS
    case BaselineAdjustments => d.bound == NoBound && exists s, m :: BaselineOf(base, current, d, s, m)
  }

  lemma FieldShapes(base: Document, current: Document, scenario: string, metric: string, field: string,
                    was: Option<Value>, now: Option<Value>)
    ensures forall d | d in FieldDemand(scenario, metric, field, was, now) :: WellShaped(base, current, d)
  {
  }

  lemma {:induction false} FieldsShapes(base: Document, current: Document, scenario: string, metric: string,
                                        names: seq<string>,
                                        was: Fields, now: Fields)
    ensures forall d | d in FieldDemands(scenario, metric, names, was, now) :: WellShaped(base, current, d)
  {
    if names != [] {
      FieldShapes(base, current, scenario, metric, names[0], Get(was, names[0]), Get(now, names[0]));
      FieldsShapes(base, current, scenario, metric, names[1..], was, now);
    }
  }

  lemma {:induction false} MethodologyShapes(base: Document, current: Document, names: seq<string>, was: Fields,
                                             now: Fields)
    ensures forall d | d in MethodologyDemands(names, was, now) :: WellShaped(base, current, d)
  {
    if names != [] {
      FieldShapes(base, current, "*", "*", "methodology." + names[0], Get(was, names[0]), Get(now, names[0]));
      MethodologyShapes(base, current, names[1..], was, now);
    }
  }

  lemma BoundShapes(base: Document, current: Document, scenario: string, metric: string, was: Metric, now: Metric)
    ensures forall d | d in BoundDemands(scenario, metric, was, now) :: WellShaped(base, current, d)
  {
  }

  lemma BaselineShapes(base: Document, current: Document, scenario: string, metric: string)
    requires scenario in base.scenarios && metric in base.scenarios[scenario].metrics
    requires scenario in current.scenarios && metric in current.scenarios[scenario].metrics
    ensures forall d | d in BaselineDemands(scenario, metric, base.scenarios[scenario].metrics[metric],
      current.scenarios[scenario].metrics[metric]) ::
              WellShaped(base, current, d)
  {
    var ds := BaselineDemands(scenario, metric, base.scenarios[scenario].metrics[metric],
      current.scenarios[scenario].metrics[metric]);
    forall d | d in ds ensures WellShaped(base, current, d) {
      assert ds == [d];
      assert BaselineOf(base, current, d, scenario, metric);
    }
  }

  lemma MetricShapes(base: Document, current: Document, scenario: string, metric: string)
    requires scenario in base.scenarios && metric in base.scenarios[scenario].metrics && scenario in current.scenarios
    ensures forall d | d in MetricDemands(scenario, metric, base.scenarios[scenario].metrics[metric],
                                          FindMetric(current.scenarios[scenario], metric))
      :: WellShaped(base, current, d)
  {
    var was, now := base.scenarios[scenario].metrics[metric], FindMetric(current.scenarios[scenario], metric);
    if now.Some? {
      FieldsShapes(base, current, scenario, metric, METRIC_POLICY_FIELDS, was.fields, now.value.fields);
      BaselineShapes(base, current, scenario, metric);
      BoundShapes(base, current, scenario, metric, was, now.value);
    }
  }

  lemma {:induction false} MetricsShapes(base: Document, current: Document, scenario: string, names: seq<string>)
    requires scenario in base.scenarios && scenario in current.scenarios && forall n | n in names ::
      n in base.scenarios[scenario].metrics
    ensures forall d | d in MetricsDemands(scenario, base.scenarios[scenario], current.scenarios[scenario], names) ::
      WellShaped(base, current, d)
  {
    if names != [] {
      assert names[0] in names && forall n | n in names[1..] :: n in names;
      MetricShapes(base, current, scenario, names[0]);
      MetricsShapes(base, current, scenario, names[1..]);
    }
  }

  lemma ScenarioShapes(base: Document, current: Document, scenario: string)
    requires scenario in base.scenarios
    ensures forall d | d in ScenarioDemands(scenario, base.scenarios[scenario], current) :: WellShaped(base, current, d)
  {
    if scenario in current.scenarios {
      var was, now := base.scenarios[scenario], current.scenarios[scenario];
      FieldsShapes(base, current, scenario, "*", SCENARIO_POLICY_FIELDS, was.fields, now.fields);
      MetricsShapes(base, current, scenario, InOrder(was.metrics.Keys));
    }
  }

  lemma {:induction false} ScenariosShapes(base: Document, current: Document, names: seq<string>)
    requires forall n | n in names :: n in base.scenarios
    ensures forall d | d in ScenariosDemands(base, current, names) :: WellShaped(base, current, d)
  {
    if names != [] {
      assert names[0] in names && forall n | n in names[1..] :: n in names;
      ScenarioShapes(base, current, names[0]);
      ScenariosShapes(base, current, names[1..]);
    }
  }

  lemma DemandShapes(base: Document, current: Document)
    ensures forall d | d in Demands(base, current) :: WellShaped(base, current, d)
  {
    MethodologyShapes(base, current, METHODOLOGY_FIELDS, base.methodology, current.methodology);
    FieldShapes(base, current, "*", "*", "classifications.cache_excluded", CacheExcluded(base), CacheExcluded(current));
    ScenariosShapes(base, current, InOrder(base.scenarios.Keys));
  }

  /** One reviewable record, in one table, that settles both demands. */
  ghost predicate ShareRecord(c: Demand, d: Demand) {
    c.table == d.table
    && exists r: Fields ::
      MatchesRecord(r, Payment(c)) && MatchesRecord(r, Payment(d)) && Reviewable(Get(r, "justification"))
  }

  lemma SameKeysSameFields(r: Fields, c: Fields, d: Fields)
    requires c.Keys == d.Keys && MatchesRecord(r, c) && MatchesRecord(r, d)
    ensures c == d
  {
    assert forall k | k in c :: c[k] == r[k] && d[k] == r[k];
  }

  lemma PaymentCovers(r: Fields, d: Demand)
    requires "bound" !in d.expected && MatchesRecord(r, Payment(d))
    ensures MatchesRecord(r, d.expected)
  {
    assert forall k | k in d.expected :: k in Payment(d) && Payment(d)[k] == d.expected[k];
  }

  lemma BaselineNames(base: Document, current: Document, d: Demand, scenario: string, metric: string)
    requires BaselineOf(base, current, d, scenario, metric)
    ensures "bound" !in d.expected && d.bound == NoBound
    ensures "scenario" in d.expected && d.expected["scenario"] == Text(scenario)
    ensures "metric" in d.expected && d.expected["metric"] == Text(metric)
  {
    var was, now := base.scenarios[scenario].metrics[metric], current.scenarios[scenario].metrics[metric];
    assert BaselineDemands(scenario, metric, was, now)[0] == d;
  }

  /** A record that settles two baseline demands names one metric, which makes only one such demand. */
  lemma OneBaseline(base: Document, current: Document, c: Demand, d: Demand, r: Fields)
    requires c.table == BaselineAdjustments && d.table == BaselineAdjustments
    requires WellShaped(base, current, c) && WellShaped(base, current, d)
    requires MatchesRecord(r, Payment(c)) && MatchesRecord(r, Payment(d))
    ensures c == d
  {
    var s, m :| BaselineOf(base, current, c, s, m);
    var t, n :| BaselineOf(base, current, d, t, n);
    BaselineNames(base, current, c, s, m);
    BaselineNames(base, current, d, t, n);
    assert s == t && m == n;
    assert [c] == [d];
    assert [c][0] == [d][0];
  }

  lemma SharedMeansSame(base: Document, current: Document, c: Demand, d: Demand, r: Fields)
    requires WellShaped(base, current, c) && WellShaped(base, current, d) && c.table == d.table
    requires MatchesRecord(r, Payment(c)) && MatchesRecord(r, Payment(d))
    ensures c.expected == d.expected && (c.table != LimitAdjustments ==> c == d)
  {
    if c.table == BaselineAdjustments {
      OneBaseline(base, current, c, d, r);
    } else {
      PaymentCovers(r, c);
      PaymentCovers(r, d);
      SameKeysSameFields(r, c.expected, d.expected);
    }
  }

  function Justification(): Value {
    Text("cold start of the new runtime")
  }

  lemma JustificationIsReviewable()
    ensures Reviewable(Some(Justification()))
  {
    var text := "cold start of the new runtime";
    PlaceholdersTooShort(text);
    assert StripLeft(text) == text && StripRight(text) == text;
  }

  lemma BothBoundsPayable(c: Demand, d: Demand)
    requires c.table == d.table && c.expected == d.expected && c.expected.Keys == LIMIT_KEYS
    ensures ShareRecord(c, d)
  {
    var r := c.expected["bound" := Text("minimum")]["justification" := Justification()];
    JustificationIsReviewable();
    assert Get(r, "justification") == Some(Justification());
    assert MatchesRecord(r, Payment(c)) && MatchesRecord(r, Payment(d));
  }

  /**
   Two different demands of one change can be settled by one record exactly when they are the
   maximum and the minimum of one metric, relaxed from the same value to the same value.
   */
  lemma SharedExactlyWhen(base: Document, current: Document, c: Demand, d: Demand)
    requires c in Demands(base, current) && d in Demands(base, current) && c != d
    ensures ShareRecord(c, d)
      <==> c.table == LimitAdjustments && d.table == LimitAdjustments && c.expected == d.expected
           && {c.bound, d.bound} == {Maximum, Minimum}
  {
    DemandShapes(base, current);
    if ShareRecord(c, d) {
      SharedBounds(base, current, c, d);
    }
    if c.table == LimitAdjustments && d.table == LimitAdjustments && c.expected == d.expected {
      assert WellShaped(base, current, c);
      BothBoundsPayable(c, d);
    }
  }

  lemma SharedBounds(base: Document, current: Document, c: Demand, d: Demand)
    requires WellShaped(base, current, c) && WellShaped(base, current, d) && c != d && ShareRecord(c, d)
    ensures c.table == LimitAdjustments && d.table == LimitAdjustments && c.expected == d.expected
    ensures {c.bound, d.bound} == {Maximum, Minimum}
  {
    var r :| MatchesRecord(r, Payment(c)) && MatchesRecord(r, Payment(d)) && Reviewable(Get(r, "justification"));
    SharedMeansSame(base, current, c, d, r);
  }

  /** The list of placeholders adds nothing: each is shorter than the length demanded. */
  lemma PlaceholdersTooShort(justification: string)
    ensures Reviewable(Some(Text(justification))) <==> |Strip(justification)| >= MINIMUM_JUSTIFICATION_LENGTH
  {
    var text := Lower(Strip(justification));
    assert |text| == |Strip(justification)|;
    assert forall p | p in PLACEHOLDERS :: |p| < MINIMUM_JUSTIFICATION_LENGTH;
  }

  // ----- two histories at concrete documents

  function BlockingMetric(limit: Option<real>, minimum: Option<real>): Metric {
    Metric(map["enforcement" := Text("blocking")], None, None, limit, minimum)
  }

  /** A policy of one scenario with one metric. */
  function SmallPolicy(metric: Metric, records: seq<Fields>): Document {
    Document(map[], None, map["s" := Scenario(map[], map["m" := metric])], map[LimitAdjustments := records])
  }

  lemma {:induction false} NoFieldDemands(scenario: string, metric: string, names: seq<string>, fields: Fields)
    ensures FieldDemands(scenario, metric, names, fields, fields) == []
  {
    if names != [] {
      NoFieldDemands(scenario, metric, names[1..], fields);
    }
  }

  lemma {:induction false} NoMethodologyDemands(names: seq<string>, fields: Fields)
    ensures MethodologyDemands(names, fields, fields) == []
  {
    if names != [] {
      NoMethodologyDemands(names[1..], fields);
    }
  }

  lemma {:induction false} OnlyMetric(was: Scenario, now: Scenario, names: seq<string>, allowed: seq<Demand>)
    requires forall n | n in names :: n == "m" && n in was.metrics
    requires "m" in was.metrics ==>
      forall d | d in MetricDemands("s", "m", was.metrics["m"], FindMetric(now, "m")) :: d in allowed
    ensures forall d | d in MetricsDemands("s", was, now, names) :: d in allowed
  {
    if names != [] {
      assert names[0] in names && forall n | n in names[1..] :: n in names;
      OnlyMetric(was, now, names[1..], allowed);
    }
  }

  lemma {:induction false} OnlyScenario(base: Document, current: Document, names: seq<string>, allowed: seq<Demand>)
    requires forall n | n in names :: n == "s" && n in base.scenarios
    requires "s" in base.scenarios ==>
      forall d | d in ScenarioDemands("s", base.scenarios["s"], current) :: d in allowed
    ensures forall d | d in ScenariosDemands(base, current, names) :: d in allowed
  {
    if names != [] {
      assert names[0] in names && forall n | n in names[1..] :: n in names;
      OnlyScenario(base, current, names[1..], allowed);
    }
  }

  lemma OnlyBounds(was: Metric, now: Metric)
    requires was.fields == now.fields && was.baseline == now.baseline && was.warningRatio == now.warningRatio
    ensures MetricDemands("s", "m", was, Some(now)) == BoundDemands("s", "m", was, now)
  {
    NoFieldDemands("s", "m", METRIC_POLICY_FIELDS, was.fields);
  }

  /** Two small policies that differ in the bounds of their metric demand only what the bounds demand. */
  lemma SmallDemands(was: Metric, now: Metric, before: seq<Fields>, after: seq<Fields>)
    requires was.fields == now.fields && was.baseline == now.baseline && was.warningRatio == now.warningRatio
    ensures forall d | d in Demands(SmallPolicy(was, before), SmallPolicy(now, after)) ::
      d in BoundDemands("s", "m", was, now)
  {
    var base, current := SmallPolicy(was, before), SmallPolicy(now, after);
    NoMethodologyDemands(METHODOLOGY_FIELDS, map[]);
    SmallScenario(base.scenarios["s"], current, was, now);
    OnlyScenario(base, current, InOrder(base.scenarios.Keys), BoundDemands("s", "m", was, now));
  }

  lemma SmallScenario(b: Scenario, current: Document, was: Metric, now: Metric)
    requires b == Scenario(map[], map["m" := was]) && "s" in current.scenarios
    requires current.scenarios["s"] == Scenario(map[], map["m" := now])
    requires was.fields == now.fields && was.baseline == now.baseline && was.warningRatio == now.warningRatio
    ensures forall d | d in ScenarioDemands("s", b, current) :: d in BoundDemands("s", "m", was, now)
  {
    NoFieldDemands("s", "*", SCENARIO_POLICY_FIELDS, map[]);
    OnlyBounds(was, now);
    OnlyMetric(b, current.scenarios["s"], InOrder(b.metrics.Keys), BoundDemands("s", "m", was, now));
  }

  lemma SmallAccepts(was: Metric, now: Metric, before: seq<Fields>, after: seq<Fields>)
    requires was.fields == now.fields && was.baseline == now.baseline && was.warningRatio == now.warningRatio
    requires AllAuthorised(SmallPolicy(was, before), SmallPolicy(now, after), BoundDemands("s", "m", was, now))
    ensures Accepts(SmallPolicy(was, before), SmallPolicy(now, after))
  {
    SmallDemands(was, now, before, after);
  }

  lemma OneRecord(record: Fields, expected: Fields)
    requires MatchesRecord(record, expected) && Get(record, "justification") == Some(Justification())
    ensures Count([], expected) == 0 && Count([record], expected) == 1
  {
    JustificationIsReviewable();
    assert [record][..0] == [];
  }

  // ----- why the records must only be appended

  function RaiseRecord(): Fields {
    LimitDemand("s", "m", Maximum, 8.0, Some(16.0)).expected["justification" := Justification()]
  }

  function Low(): Document {
    SmallPolicy(BlockingMetric(Some(8.0), None), [])
  }

  function High(): Document {
    SmallPolicy(BlockingMetric(Some(16.0), None), [RaiseRecord()])
  }

  lemma RaiseAccepted()
    ensures Accepts(Low(), High())
  {
    var d := LimitDemand("s", "m", Maximum, 8.0, Some(16.0));
    OneRecord(RaiseRecord(), d.expected);
    assert Grew(Low(), High(), LimitAdjustments, d.expected);
    assert BoundDemands("s", "m", BlockingMetric(Some(8.0), None), BlockingMetric(Some(16.0), None)) == [d];
    SmallAccepts(BlockingMetric(Some(8.0), None), BlockingMetric(Some(16.0), None), [], [RaiseRecord()]);
  }

  lemma TighteningAccepted()
    ensures Accepts(High(), Low())
  {
    assert BoundDemands("s", "m", BlockingMetric(Some(16.0), None), BlockingMetric(Some(8.0), None)) == [];
    SmallAccepts(BlockingMetric(Some(16.0), None), BlockingMetric(Some(8.0), None), [RaiseRecord()], []);
  }

  lemma Alternating(low: Document, high: Document, scenario: string, metric: string, from: real, to: Option<real>)
    requires Raises(low, high, scenario, metric, from, to) && !Raises(high, low, scenario, metric, from, to)
    ensures TimesRaised([low, high, low, high], scenario, metric, from, to) == 2
  {
    var docs := [low, high, low, high];
    assert docs[..3] == [low, high, low];
    assert [low, high, low][..2] == [low, high];
    assert [low, high][..1] == [low];
    assert TimesRaised([low], scenario, metric, from, to) == 0;
    assert TimesRaised([low, high], scenario, metric, from, to) == 1;
    assert TimesRaised([low, high, low], scenario, metric, from, to) == 1;
  }

  /** If a record may be dropped while the limit is tightened, the same record is accepted twice. */
  lemma DroppedRecordPaysAgain()
    ensures Accepts(Low(), High()) && Accepts(High(), Low())
    ensures TimesRaised([Low(), High(), Low(), High()], "s", "m", 8.0, Some(16.0)) == 2
    ensures Matches(High(), LimitAdjustments, LimitDemand("s", "m", Maximum, 8.0, Some(16.0)).expected) == 1
  {
    RaiseAccepted();
    TighteningAccepted();
    OneRecordHigh();
    LowHighRaises();
    Alternating(Low(), High(), "s", "m", 8.0, Some(16.0));
  }

  lemma OneRecordHigh()
    ensures Matches(High(), LimitAdjustments, LimitDemand("s", "m", Maximum, 8.0, Some(16.0)).expected) == 1
  {
    OneRecord(RaiseRecord(), LimitDemand("s", "m", Maximum, 8.0, Some(16.0)).expected);
  }

  lemma LowHighRaises()
    ensures Raises(Low(), High(), "s", "m", 8.0, Some(16.0)) && !Raises(High(), Low(), "s", "m", 8.0, Some(16.0))
  {
  }

  // ----- one record for both bounds

  function RemovalRecord(): Fields {
    LimitDemand("s", "m", Minimum, 8.0, None).expected["bound" := Text("minimum")]["justification" := Justification()]
  }

  function Bounded(): Document {
    SmallPolicy(BlockingMetric(Some(8.0), Some(8.0)), [])
  }

  function Unbounded(): Document {
    SmallPolicy(BlockingMetric(None, None), [RemovalRecord()])
  }

  lemma RemovalGrows()
    ensures Authorised(Bounded(), Unbounded(), LimitDemand("s", "m", Maximum, 8.0, None))
    ensures Authorised(Bounded(), Unbounded(), LimitDemand("s", "m", Minimum, 8.0, None))
  {
    var c, d := LimitDemand("s", "m", Maximum, 8.0, None), LimitDemand("s", "m", Minimum, 8.0, None);
    var named := d.expected["bound" := Text("minimum")];
    OneRecord(RemovalRecord(), c.expected);
    OneRecord(RemovalRecord(), named);
    assert Grew(Bounded(), Unbounded(), LimitAdjustments, c.expected);
    assert Grew(Bounded(), Unbounded(), LimitAdjustments, named);
  }

  /** A metric with maximum and minimum 8 drops both, and the one record it adds names only the minimum. */
  lemma OneRecordPaysBoth()
    ensures Accepts(Bounded(), Unbounded()) && |Records(Unbounded(), LimitAdjustments)| == 1
    ensures LimitDemand("s", "m", Maximum, 8.0, None) in Demands(Bounded(), Unbounded())
    ensures LimitDemand("s", "m", Minimum, 8.0, None) in Demands(Bounded(), Unbounded())
  {
    var was, now := BlockingMetric(Some(8.0), Some(8.0)), BlockingMetric(None, None);
    var c, d := LimitDemand("s", "m", Maximum, 8.0, None), LimitDemand("s", "m", Minimum, 8.0, None);
    RemovalGrows();
    assert BoundDemands("s", "m", was, now) == [c, d];
    SmallAccepts(was, now, [], [RemovalRecord()]);
    RaiseIsDemanded(Bounded(), Unbounded(), "s", "m", 8.0, None);
    LoweringIsDemanded(Bounded(), Unbounded(), "s", "m", 8.0, None);
  }
}
