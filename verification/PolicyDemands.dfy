/**
 What a change of the resource-budget policy has to answer for, field by field and without the walk
 over the document: the demands of any change are proved to be exactly these.
 */
module PolicyDemands {
  import opened Options
  import opened Orders
  import opened PolicyRatchet

  // ----- the records a change owes

  /** A record of a policy change: where, which field, from what, to what. */
  ghost predicate IsPolicy(d: Demand, scenario: string, metric: string, field: string, previous: Value, new_: Value) {
    && d.table == PolicyAdjustments && d.bound == NoBound
    && d.expected.Keys == {"scenario", "metric", "field", "previous", "new"}
    && d.expected["scenario"] == Text(scenario) && d.expected["metric"] == Text(metric)
    && d.expected["field"] == Text(field) && d.expected["previous"] == previous && d.expected["new"] == new_
  }

  ghost predicate IsOr(v: Option<Value>, fallback: string, value: Value) {
    (v.Some? ==> value == v.value) && (v.None? ==> value == Text(fallback))
  }

  /** A field that changed: its record tells the two values, or that there was none. */
  ghost predicate FieldDue(d: Demand, scenario: string, metric: string, field: string, was: Option<Value>,
                           now: Option<Value>)
  {
    was != now && exists previous, new_ ::
      IsOr(was, "absent", previous) && IsOr(now, "removed", new_)
      && IsPolicy(d, scenario, metric, field, previous, new_)
  }

  /** The same of a key of two tables. */
  ghost predicate KeyDue(d: Demand, scenario: string, metric: string, field: string, key: string, was: Fields,
                         now: Fields)
  {
    FieldDue(d, scenario, metric, field, Get(was, key), Get(now, key))
  }

  ghost predicate Blocks(m: Metric) {
    "enforcement" in m.fields && m.fields["enforcement"] == Text("blocking")
  }

  ghost predicate IsLimit(d: Demand, scenario: string, metric: string, bound: Bound, previous: real,
                          new_: Option<real>)
  {
    && d.table == LimitAdjustments && d.bound == bound
    && d.expected.Keys == {"scenario", "metric", "previous_limit", "new_limit"}
    && d.expected["scenario"] == Text(scenario) && d.expected["metric"] == Text(metric)
    && d.expected["previous_limit"] == Number(previous)
    && d.expected["new_limit"] == if new_.Some? then Number(new_.value) else Text("removed")
  }

  /** A blocking maximum that is raised, dropped, or no longer blocks. */
  ghost predicate MaximumDue(d: Demand, scenario: string, metric: string, was: Metric, now: Metric) {
    var kept := if Blocks(now) then now.limit else None;
    && Blocks(was) && was.limit.Some? && !(kept.Some? && kept.value <= was.limit.value)
    && IsLimit(d, scenario, metric, Maximum, was.limit.value, kept)
  }

  /** A blocking minimum that is lowered, dropped, or no longer blocks. */
  ghost predicate MinimumDue(d: Demand, scenario: string, metric: string, was: Metric, now: Metric) {
    var kept := if Blocks(now) then now.minimum else None;
    && Blocks(was) && was.minimum.Some? && !(kept.Some? && kept.value >= was.minimum.value)
    && IsLimit(d, scenario, metric, Minimum, was.minimum.value, kept)
  }

  /** A new baseline or warning ratio; the ratios are on the record if there is one. */
  ghost predicate BaselineDue(d: Demand, scenario: string, metric: string, was: Metric, now: Metric) {
    var ratios := was.warningRatio.Some? || now.warningRatio.Some?;
    && (was.baseline != now.baseline || was.warningRatio != now.warningRatio)
    && d.table == BaselineAdjustments && d.bound == NoBound
    && d.expected.Keys == {"scenario", "metric", "previous_baseline", "new_baseline"}
       + (if ratios then {"previous_warning_ratio", "new_warning_ratio"} else {})
    && d.expected["scenario"] == Text(scenario) && d.expected["metric"] == Text(metric)
    && IsOr(was.baseline, "absent", d.expected["previous_baseline"])
    && IsOr(now.baseline, "removed", d.expected["new_baseline"])
    && (ratios ==>
          && IsOr(was.warningRatio, "absent", d.expected["previous_warning_ratio"])
          && IsOr(now.warningRatio, "removed", d.expected["new_warning_ratio"]))
  }

  ghost predicate MetricDue(d: Demand, scenario: string, metric: string, was: Metric, now: Metric) {
    || KeyDue(d, scenario, metric, "classification", "classification", was.fields, now.fields)
    || KeyDue(d, scenario, metric, "enforcement", "enforcement", was.fields, now.fields)
    || KeyDue(d, scenario, metric, "unit", "unit", was.fields, now.fields)
    || BaselineDue(d, scenario, metric, was, now)
    || MaximumDue(d, scenario, metric, was, now) || MinimumDue(d, scenario, metric, was, now)
  }

  ghost predicate ScenarioFieldDue(d: Demand, scenario: string, was: Fields, now: Fields) {
    || KeyDue(d, scenario, "*", "profile", "profile", was, now)
    || KeyDue(d, scenario, "*", "workload", "workload", was, now)
    || KeyDue(d, scenario, "*", "repetitions", "repetitions", was, now)
    || KeyDue(d, scenario, "*", "paths", "paths", was, now)
  }

  /** A metric of the base: removed, or changed. */
  ghost predicate MetricOwes(d: Demand, scenario: string, metric: string, was: Metric, now: Scenario) {
    if metric !in now.metrics then IsPolicy(d, scenario, metric, "metric", Text("present"), Text("removed"))
    else MetricDue(d, scenario, metric, was, now.metrics[metric])
  }

  ghost predicate SomeMetricOwes(d: Demand, scenario: string, was: Scenario, now: Scenario) {
    exists m :: m in was.metrics && MetricOwes(d, scenario, m, was.metrics[m], now)
  }

  /** A scenario of the base: removed, or changed itself or in a metric. */
  ghost predicate ScenarioOwes(d: Demand, scenario: string, was: Scenario, current: Document) {
    if scenario !in current.scenarios then IsPolicy(d, scenario, "*", "scenario", Text("present"), Text("removed"))
    else
      var now := current.scenarios[scenario];
      ScenarioFieldDue(d, scenario, was.fields, now.fields) || SomeMetricOwes(d, scenario, was, now)
  }

  ghost predicate SomeScenarioOwes(d: Demand, base: Document, current: Document) {
    exists s :: s in base.scenarios && ScenarioOwes(d, s, base.scenarios[s], current)
  }

  ghost predicate MethodologyDue(d: Demand, was: Fields, now: Fields) {
    || KeyDue(d, "*", "*", "methodology.noise_spread_ratio", "noise_spread_ratio", was, now)
    || KeyDue(d, "*", "*", "methodology.dispersion", "dispersion", was, now)
    || KeyDue(d, "*", "*", "methodology.statistic", "statistic", was, now)
  }

  /** The list of excluded caches, empty when it is not given. */
  ghost predicate CachesDue(d: Demand, base: Document, current: Document) {
    var was := if base.cacheExcluded.Some? then base.cacheExcluded.value else List([]);
    var now := if current.cacheExcluded.Some? then current.cacheExcluded.value else List([]);
    was != now && IsPolicy(d, "*", "*", "classifications.cache_excluded", was, now)
  }

  ghost predicate Due(d: Demand, base: Document, current: Document) {
    || MethodologyDue(d, base.methodology, current.methodology)
    || CachesDue(d, base, current)
    || SomeScenarioOwes(d, base, current)
  }

  // ----- the walk finds exactly these

  lemma PolicyIs(d: Demand, scenario: string, metric: string, field: string, previous: Value, new_: Value)
    ensures d == PolicyDemand(scenario, metric, field, previous, new_) <==>
      IsPolicy(d, scenario, metric, field, previous, new_)
  {
    var e := PolicyDemand(scenario, metric, field, previous, new_);
    if IsPolicy(d, scenario, metric, field, previous, new_) {
      assert d.expected == e.expected;
    }
  }

  lemma FieldIs(d: Demand, scenario: string, metric: string, field: string, was: Option<Value>, now: Option<Value>)
    ensures d in FieldDemand(scenario, metric, field, was, now) <==> FieldDue(d, scenario, metric, field, was, now)
  {
    PolicyIs(d, scenario, metric, field, Or(was, "absent"), Or(now, "removed"));
    assert IsOr(was, "absent", Or(was, "absent")) && IsOr(now, "removed", Or(now, "removed"));
  }

  lemma {:induction false} FieldsAre(d: Demand, scenario: string, metric: string, names: seq<string>, was: Fields,
                                     now: Fields)
    ensures d in FieldDemands(scenario, metric, names, was, now) <==>
      exists i :: 0 <= i < |names| && KeyDue(d, scenario, metric, names[i], names[i], was, now)
  {
    if names != [] {
      FieldIs(d, scenario, metric, names[0], Get(was, names[0]), Get(now, names[0]));
      FieldsAre(d, scenario, metric, names[1..], was, now);
      assert forall i | 0 < i < |names| :: names[i] == names[1..][i - 1];
    }
  }

  lemma MetricFieldsAre(d: Demand, scenario: string, metric: string, was: Fields, now: Fields)
    ensures d in FieldDemands(scenario, metric, METRIC_POLICY_FIELDS, was, now) <==>
      || KeyDue(d, scenario, metric, "classification", "classification", was, now)
      || KeyDue(d, scenario, metric, "enforcement", "enforcement", was, now)
      || KeyDue(d, scenario, metric, "unit", "unit", was, now)
  {
    var names := METRIC_POLICY_FIELDS;
    FieldsAre(d, scenario, metric, names, was, now);
    assert |names| == 3 && names[0] == "classification" && names[1] == "enforcement" && names[2] == "unit";
  }

  lemma ScenarioFieldsAre(d: Demand, scenario: string, was: Fields, now: Fields)
    ensures d in FieldDemands(scenario, "*", SCENARIO_POLICY_FIELDS, was, now) <==>
      ScenarioFieldDue(d, scenario, was, now)
  {
    var names := SCENARIO_POLICY_FIELDS;
    FieldsAre(d, scenario, "*", names, was, now);
    assert |names| == 4 && names[0] == "profile" && names[1] == "workload" && names[2] == "repetitions";
    assert names[3] == "paths";
  }

  lemma {:induction false} MethodologiesAre(d: Demand, names: seq<string>, was: Fields, now: Fields)
    ensures d in MethodologyDemands(names, was, now) <==>
      exists i :: 0 <= i < |names|
        && KeyDue(d, "*", "*", "methodology." + names[i], names[i], was, now)
  {
    if names != [] {
      FieldIs(d, "*", "*", "methodology." + names[0], Get(was, names[0]), Get(now, names[0]));
      MethodologiesAre(d, names[1..], was, now);
      assert forall i | 0 < i < |names| :: names[i] == names[1..][i - 1];
    }
  }

  lemma MethodologyNames(names: seq<string>)
    requires names == METHODOLOGY_FIELDS
    ensures |names| == 3 && names[0] == "noise_spread_ratio" && names[1] == "dispersion" && names[2] == "statistic"
    ensures "methodology." + names[0] == "methodology.noise_spread_ratio"
    ensures "methodology." + names[1] == "methodology.dispersion"
    ensures "methodology." + names[2] == "methodology.statistic"
  {
  }

  lemma MethodologyIs(d: Demand, was: Fields, now: Fields)
    ensures d in MethodologyDemands(METHODOLOGY_FIELDS, was, now) <==> MethodologyDue(d, was, now)
  {
    var names := METHODOLOGY_FIELDS;
    MethodologyNames(names);
    MethodologiesAre(d, names, was, now);
    ThreeFields(d, names, was, now);
  }

  lemma ThreeFields(d: Demand, names: seq<string>, was: Fields, now: Fields)
    requires |names| == 3
    ensures (exists i :: 0 <= i < |names| && KeyDue(d, "*", "*", "methodology." + names[i], names[i], was, now)) <==>
      || KeyDue(d, "*", "*", "methodology." + names[0], names[0], was, now)
      || KeyDue(d, "*", "*", "methodology." + names[1], names[1], was, now)
      || KeyDue(d, "*", "*", "methodology." + names[2], names[2], was, now)
  {
  }

  lemma CachesAre(d: Demand, base: Document, current: Document)
    ensures
      d in FieldDemand("*", "*", "classifications.cache_excluded", CacheExcluded(base), CacheExcluded(current)) <==>
      CachesDue(d, base, current)
  {
    PolicyIs(d, "*", "*", "classifications.cache_excluded", CacheExcluded(base).value, CacheExcluded(current).value);
  }

  lemma BaselineFields(d: Demand, scenario: string, metric: string, was: Metric, now: Metric, e: Demand)
    requires BaselineDemands(scenario, metric, was, now) == [e]
    ensures d.expected == e.expected && d.table == BaselineAdjustments && d.bound == NoBound <==>
      BaselineDue(d, scenario, metric, was, now)
  {
    var expected := map[
      "scenario" := Text(scenario), "metric" := Text(metric),
      "previous_baseline" := Or(was.baseline, "absent"), "new_baseline" := Or(now.baseline, "removed")];
    if was.warningRatio.None? && now.warningRatio.None? {
      assert e.expected == expected;
    } else {
      assert e.expected == expected["previous_warning_ratio" := Or(was.warningRatio, "absent")]
        ["new_warning_ratio" := Or(now.warningRatio, "removed")];
    }
    if BaselineDue(d, scenario, metric, was, now) {
      assert d.expected.Keys == e.expected.Keys;
      assert d.expected == e.expected;
    }
  }

  lemma BaselineIs(d: Demand, scenario: string, metric: string, was: Metric, now: Metric)
    ensures d in BaselineDemands(scenario, metric, was, now) <==> BaselineDue(d, scenario, metric, was, now)
  {
    if was.baseline != now.baseline || was.warningRatio != now.warningRatio {
      var e := BaselineDemands(scenario, metric, was, now)[0];
      assert e.table == BaselineAdjustments && e.bound == NoBound;
      BaselineFields(d, scenario, metric, was, now, e);
    }
  }

  lemma LimitIs(d: Demand, scenario: string, metric: string, bound: Bound, previous: real, new_: Option<real>)
    ensures d == LimitDemand(scenario, metric, bound, previous, new_) <==>
      IsLimit(d, scenario, metric, bound, previous, new_)
  {
    var e := LimitDemand(scenario, metric, bound, previous, new_);
    if IsLimit(d, scenario, metric, bound, previous, new_) {
      assert d.expected == e.expected;
    }
  }

  lemma BoundIs(d: Demand, scenario: string, metric: string, was: Metric, now: Metric)
    ensures d in BoundDemands(scenario, metric, was, now) <==>
      MaximumDue(d, scenario, metric, was, now) || MinimumDue(d, scenario, metric, was, now)
  {
    if was.limit.Some? {
      LimitIs(d, scenario, metric, Maximum, was.limit.value, Enforced(now, now.limit));
    }
    if was.minimum.Some? {
      LimitIs(d, scenario, metric, Minimum, was.minimum.value, Enforced(now, now.minimum));
    }
  }

  lemma MetricIs(d: Demand, scenario: string, metric: string, was: Metric, now: Scenario)
    ensures d in MetricDemands(scenario, metric, was, FindMetric(now, metric)) <==>
      MetricOwes(d, scenario, metric, was, now)
  {
    if metric in now.metrics {
      MetricFieldsAre(d, scenario, metric, was.fields, now.metrics[metric].fields);
      BaselineIs(d, scenario, metric, was, now.metrics[metric]);
      BoundIs(d, scenario, metric, was, now.metrics[metric]);
    } else {
      PolicyIs(d, scenario, metric, "metric", Text("present"), Text("removed"));
    }
  }

  lemma {:induction false} MetricsAre(d: Demand, scenario: string, was: Scenario, now: Scenario, names: seq<string>)
    requires forall n | n in names :: n in was.metrics
    ensures d in MetricsDemands(scenario, was, now, names) <==>
      exists n :: n in names && MetricOwes(d, scenario, n, was.metrics[n], now)
  {
    if names != [] {
      assert names[0] in names;
      MetricIs(d, scenario, names[0], was.metrics[names[0]], now);
      MetricsAre(d, scenario, was, now, names[1..]);
      assert forall n :: n in names <==> n == names[0] || n in names[1..];
    }
  }

  lemma ScenarioIs(d: Demand, scenario: string, was: Scenario, current: Document)
    ensures d in ScenarioDemands(scenario, was, current) <==> ScenarioOwes(d, scenario, was, current)
  {
    if scenario in current.scenarios {
      var now, names := current.scenarios[scenario], InOrder(was.metrics.Keys);
      ScenarioFieldsAre(d, scenario, was.fields, now.fields);
      MetricsAre(d, scenario, was, now, names);
      assert forall n :: n in names <==> n in was.metrics;
    } else {
      PolicyIs(d, scenario, "*", "scenario", Text("present"), Text("removed"));
    }
  }

  lemma {:induction false} ScenariosAre(d: Demand, base: Document, current: Document, names: seq<string>)
    requires forall n | n in names :: n in base.scenarios
    ensures d in ScenariosDemands(base, current, names) <==>
      exists n :: n in names && ScenarioOwes(d, n, base.scenarios[n], current)
  {
    if names != [] {
      assert names[0] in names;
      ScenarioIs(d, names[0], base.scenarios[names[0]], current);
      ScenariosAre(d, base, current, names[1..]);
      assert forall n :: n in names <==> n == names[0] || n in names[1..];
    }
  }

  /** A change demands a record exactly if the record is due. */
  lemma DemandedExactlyWhenDue(d: Demand, base: Document, current: Document)
    ensures d in Demands(base, current) <==> Due(d, base, current)
  {
    var names := InOrder(base.scenarios.Keys);
    MethodologyIs(d, base.methodology, current.methodology);
    CachesAre(d, base, current);
    ScenariosAre(d, base, current, names);
    assert forall n :: n in names <==> n in base.scenarios;
  }

  // ----- what answers a demand

  /** The characters Python counts as whitespace. */
  const SPACES: set<int> := {
    0x09, 0x0a, 0x0b, 0x0c, 0x0d, 0x1c, 0x1d, 0x1e, 0x1f, 0x20, 0x85, 0xa0, 0x1680, 0x2000, 0x2001, 0x2002, 0x2003,
    0x2004, 0x2005, 0x2006, 0x2007, 0x2008, 0x2009, 0x200a, 0x2028, 0x2029, 0x202f, 0x205f, 0x3000}

  ghost predicate Visible(c: char) {
    c as int !in SPACES
  }

  /** From the first to the last visible character, the text is at least `n` characters long. */
  ghost predicate Spans(s: string, n: nat) {
    exists i, j :: 0 <= i <= j < |s| && j - i + 1 >= n && Visible(s[i]) && Visible(s[j])
  }

  /** The record agrees with the fields, and its justification has at least 20 characters. */
  ghost predicate Answers(record: Fields, fields: Fields) {
    && (forall k | k in fields :: k in record && record[k] == fields[k])
    && "justification" in record && record["justification"].Text?
    && Spans(record["justification"].s, 20)
  }

  lemma {:induction false} LeftSpans(s: string, n: nat)
    ensures Spans(StripLeft(s), n) <==> Spans(s, n)
    ensures StripLeft(s) == "" || Visible(StripLeft(s)[0])
  {
    if s != "" && IsSpace(s[0]) {
      LeftSpans(s[1..], n);
      if i, j :| 0 <= i <= j < |s| && j - i + 1 >= n && Visible(s[i]) && Visible(s[j]) {
        assert s[1..][i - 1] == s[i] && s[1..][j - 1] == s[j];
      }
      if i, j :| 0 <= i <= j < |s[1..]| && j - i + 1 >= n && Visible(s[1..][i]) && Visible(s[1..][j]) {
        assert s[i + 1] == s[1..][i] && s[j + 1] == s[1..][j];
      }
    }
  }

  lemma {:induction false} RightSpans(s: string, n: nat)
    ensures Spans(StripRight(s), n) <==> Spans(s, n)
    ensures StripRight(s) <= s && (StripRight(s) == "" || Visible(StripRight(s)[|StripRight(s)| - 1]))
  {
    if s != "" && IsSpace(s[|s| - 1]) {
      var front := s[..|s| - 1];
      RightSpans(front, n);
      if i, j :| 0 <= i <= j < |s| && j - i + 1 >= n && Visible(s[i]) && Visible(s[j]) {
        assert front[i] == s[i] && front[j] == s[j];
      }
      if i, j :| 0 <= i <= j < |front| && j - i + 1 >= n && Visible(front[i]) && Visible(front[j]) {
        assert s[i] == front[i] && s[j] == front[j];
      }
    }
  }

  /** What is left after stripping is the text from its first to its last visible character. */
  lemma StripSpans(s: string, n: nat)
    requires n > 0
    ensures |Strip(s)| >= n <==> Spans(s, n)
  {
    LeftSpans(s, n);
    RightSpans(StripLeft(s), n);
    var t := Strip(s);
    if t != "" {
      assert t[0] == StripLeft(s)[0];
      assert Visible(t[0]) && Visible(t[|t| - 1]);
    }
  }

  /** The records that answer, in order. */
  ghost function Select(records: seq<Fields>, fields: Fields): seq<Fields> {
    if records == [] then []
    else
      var last := records[|records| - 1];
      Select(records[..|records| - 1], fields) + if Answers(last, fields) then [last] else []
  }

  lemma {:induction false} CountIs(records: seq<Fields>, fields: Fields)
    ensures Count(records, fields) == |Select(records, fields)|
  {
    if records != [] {
      var last := records[|records| - 1];
      CountIs(records[..|records| - 1], fields);
      if "justification" in last && last["justification"].Text? {
        PlaceholdersTooShort(last["justification"].s);
        StripSpans(last["justification"].s, 20);
      }
    }
  }

  /** More records of the table answer after the change than before it. */
  ghost predicate MoreAnswers(base: Document, current: Document, table: Table, fields: Fields) {
    var was := if table in base.records then base.records[table] else [];
    var now := if table in current.records then current.records[table] else [];
    |Select(now, fields)| > |Select(was, fields)|
  }

  /** A demand is met: by records of its bound, which a record for a maximum may leave out. */
  ghost predicate Met(base: Document, current: Document, d: Demand) {
    match d.bound
    case NoBound => MoreAnswers(base, current, d.table, d.expected)
    case Maximum =>
      || MoreAnswers(base, current, d.table, d.expected["bound" := Text("maximum")])
      || MoreAnswers(base, current, d.table, d.expected)
    case Minimum => MoreAnswers(base, current, d.table, d.expected["bound" := Text("minimum")])
  }

  lemma GrewIs(base: Document, current: Document, table: Table, fields: Fields)
    ensures Grew(base, current, table, fields) <==> MoreAnswers(base, current, table, fields)
  {
    CountIs(Records(base, table), fields);
    CountIs(Records(current, table), fields);
  }

  lemma MetIs(base: Document, current: Document, d: Demand)
    ensures Authorised(base, current, d) <==> Met(base, current, d)
  {
    GrewIs(base, current, d.table, d.expected);
    GrewIs(base, current, d.table, d.expected["bound" := Text("maximum")]);
    GrewIs(base, current, d.table, d.expected["bound" := Text("minimum")]);
  }

  /** A change is accepted exactly when every record that is due has been added. */
  lemma AcceptedExactlyWhen(base: Document, current: Document)
    ensures Accepts(base, current) <==> forall d | Due(d, base, current) :: Met(base, current, d)
  {
    forall d ensures d in Demands(base, current) <==> Due(d, base, current) {
      DemandedExactlyWhenDue(d, base, current);
    }
    forall d ensures Authorised(base, current, d) <==> Met(base, current, d) {
      MetIs(base, current, d);
    }
  }
}
