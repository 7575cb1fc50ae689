/**
 * The metrics side of prometheus_swagger_exporter/__init__.py: the
 * append-only collection that the exposition code reads, the duration gauge
 * that each finished probe sends, the tag list built from a probed URL, the
 * 0/1 summary gauge, and the order in which a scrape fills the collection.
 */
module Exporter {
  import opened Results

  /** One `(key, value)` pair of the tag list the probes send. */
  datatype Tag = Tag(key: string, value: string)

  /** One sample of a gauge: the label values, in label-name order, and the value. */
  datatype Sample = Sample(labelValues: seq<string>, value: real)

  /** prometheus_client's `GaugeMetricFamily`. */
  datatype MetricFamily = MetricFamily(name: string, documentation: string, labelNames: seq<string>, samples: seq<Sample>)

  /** A URL as `urllib3.util.parse_url` splits it, reduced to the two parts that are used. */
  datatype Url = Url(host: string, path: string)

  const DurationName: string := "service_checker_request_duration_seconds"
  const SummaryName: string := "service_checker_probe_success"
  const SummaryDoc: string := "condensed view of all checks as a one (pass) or zero (fail)"
  const PathKey: string := "path"
  const HostKey: string := "host"

  /** Position of the first tag whose key is `path`, or `|tags|` when there is none. */
  function FirstPathIndex(tags: seq<Tag>): (k: nat)
    ensures k <= |tags|
    ensures forall j | 0 <= j < k :: tags[j].key != PathKey
    ensures k < |tags| ==> tags[k].key == PathKey
  {
    if |tags| == 0 then 0
    else if tags[0].key == PathKey then 0
    else 1 + FirstPathIndex(tags[1..])
  }

  /** `[x[1] for x in tags if x[0] == 'path']`. */
  function PathValues(tags: seq<Tag>): (vs: seq<string>)
    ensures |vs| <= |tags|
  {
    if |tags| == 0 then []
    else if tags[0].key == PathKey then [tags[0].value] + PathValues(tags[1..])
    else PathValues(tags[1..])
  }

  /** The comprehension's first element, if any, is the value of the first `path` tag. */
  lemma {:induction false} PathValuesFirst(tags: seq<Tag>)
    ensures |PathValues(tags)| > 0 <==> FirstPathIndex(tags) < |tags|
    ensures |PathValues(tags)| > 0 ==> PathValues(tags)[0] == tags[FirstPathIndex(tags)].value
  {
    if |tags| > 0 && tags[0].key != PathKey {
      PathValuesFirst(tags[1..]);
    }
  }

  /** Some tag with key `path` carries the value `v`. */
  predicate IsPathValue(tags: seq<Tag>, v: string)
  {
    exists i | 0 <= i < |tags| :: tags[i].key == PathKey && tags[i].value == v
  }

  /** Every element of the comprehension is the value of some `path` tag. */
  lemma {:induction false} PathValuesFromPathTags(tags: seq<Tag>)
    ensures forall j | 0 <= j < |PathValues(tags)| :: IsPathValue(tags, PathValues(tags)[j])
  {
    if |tags| > 0 {
      PathValuesFromPathTags(tags[1..]);
      var vs := PathValues(tags);
      var rest := PathValues(tags[1..]);
      forall j | 0 <= j < |vs|
        ensures IsPathValue(tags, vs[j])
      {
        if tags[0].key == PathKey && j == 0 {
          assert tags[0].value == vs[0];
        } else {
          var j' := if tags[0].key == PathKey then j - 1 else j;
          assert vs[j] == rest[j'];
          assert IsPathValue(tags[1..], rest[j']);
          var i :| 0 <= i < |tags[1..]| && tags[1..][i].key == PathKey && tags[1..][i].value == rest[j'];
          assert tags[i + 1] == tags[1..][i];
        }
      }
    }
  }

  /** `[x[0] for x in tags]`. */
  function Keys(tags: seq<Tag>): (ks: seq<string>)
    ensures |ks| == |tags|
    // the i-th key, paired with the i-th tag's value, rebuilds the i-th tag
    ensures forall i | 0 <= i < |tags| :: Tag(ks[i], tags[i].value) == tags[i]
  {
    seq(|tags|, i requires 0 <= i < |tags| => tags[i].key)
  }

  /** `[x[1] for x in tags]`. */
  function Values(tags: seq<Tag>): (vs: seq<string>)
    ensures |vs| == |tags|
    // the i-th tag's key, paired with the i-th value, rebuilds the i-th tag
    ensures forall i | 0 <= i < |tags| :: Tag(tags[i].key, vs[i]) == tags[i]
  {
    seq(|tags|, i requires 0 <= i < |tags| => tags[i].value)
  }

  /** Pairs label names with label values, position by position. */
  function Zip(names: seq<string>, values: seq<string>): (tags: seq<Tag>)
    requires |names| == |values|
  {
    seq(|names|, i requires 0 <= i < |names| => Tag(names[i], values[i]))
  }

  /**
   * The gauge `Prometheus.send` builds: named for request durations,
   * documented by the first `path` tag, labelled by the tag keys, with one
   * sample carrying the tag values and the duration. Without a `path` tag
   * the indexing `[...][0]` raises IndexError.
   */
  function DurationRecord(delta: real, tags: seq<Tag>): (r: Result<MetricFamily>)
    ensures r.Err? <==> forall i | 0 <= i < |tags| :: tags[i].key != PathKey
    ensures r.Ok? ==> r.value.name == DurationName
    ensures r.Ok? ==> FirstPathIndex(tags) < |tags| && r.value.documentation == tags[FirstPathIndex(tags)].value
    ensures r.Ok? ==> |r.value.samples| == 1 && r.value.samples[0].value == delta
    // label i pairs the i-th tag's key with its value: unzipping the tags and zipping them back is the identity
    ensures r.Ok? ==> |r.value.labelNames| == |r.value.samples[0].labelValues| == |tags|
    ensures r.Ok? ==> Zip(r.value.labelNames, r.value.samples[0].labelValues) == tags
  {
    var docs := PathValues(tags);
    PathValuesFirst(tags);
    if |docs| == 0 then Err(IndexError)
    else Ok(MetricFamily(DurationName, docs[0], Keys(tags), [Sample(Values(tags), delta)]))
  }

  /** `Prometheus._get_tags_for` on an already-parsed URL. */
  function TagsFor(url: Url): (tags: seq<Tag>)
    ensures |tags| == 2 && Keys(tags) == [PathKey, HostKey] && Values(tags) == [url.path, url.host]
    // so `send` never fails on it, and documents the gauge with the URL's path
    ensures forall delta :: DurationRecord(delta, tags).Ok? && DurationRecord(delta, tags).value.documentation == url.path
  {
    [Tag(PathKey, url.path), Tag(HostKey, url.host)]
  }

  /** Python's `all(...)` over the truthiness of each value. */
  function All(bs: seq<bool>): (b: bool)
    ensures b <==> forall i | 0 <= i < |bs| :: bs[i]
  {
    |bs| == 0 || (bs[0] && All(bs[1..]))
  }

  /**
   * `get_summary`: one unlabelled gauge whose single sample is 1 when every
   * check's `successful` value is truthy and 0 otherwise. `all([])` is true,
   * so no checks at all gives 1.
   */
  function Summary(successful: seq<bool>): (r: MetricFamily)
    ensures r.name == SummaryName && r.documentation == SummaryDoc && r.labelNames == [] && |r.samples| == 1 && r.samples[0].labelValues == []
    ensures r.samples[0].value == 1.0 <==> forall i | 0 <= i < |successful| :: successful[i]
    ensures r.samples[0].value == 0.0 <==> exists i | 0 <= i < |successful| :: !successful[i]
    ensures r.samples[0].value == 0.0 || r.samples[0].value == 1.0
    ensures successful == [] ==> r.samples[0].value == 1.0
  {
    MetricFamily(SummaryName, SummaryDoc, [], [Sample([], if All(successful) then 1.0 else 0.0)])
  }

  /** `MetricsCollection`: a list of gauges that only ever grows. */
  class MetricsCollection {
    var items: seq<MetricFamily>

    constructor ()
      ensures items == []
    {
      items := [];
    }

    /** `list.append`. */
    method Append(m: MetricFamily)
      modifies this
      ensures items == old(items) + [m]
    {
      items := items + [m];
    }

    /** The generator `collect`: yields every element once, in list order. */
    method Collect() returns (yielded: seq<MetricFamily>)
      ensures yielded == items
    {
      yielded := [];
      var i := 0;
      while i < |items|
        invariant 0 <= i <= |items|
        invariant yielded == items[..i]
      {
        yielded := yielded + [items[i]];
        i := i + 1;
      }
    }
  }

  /** The `Metrics` manager handed to the check service; `send` is its callback. */
  class Prometheus {
    const metrics: MetricsCollection
    var hostname: string

    constructor (hostname: string)
      ensures fresh(metrics) && metrics.items == [] && this.hostname == hostname
    {
      metrics := new MetricsCollection();
      this.hostname := hostname;
    }

    /**
     * `send(delta, tags)`: appends the duration gauge for one finished
     * request. Raises IndexError, appending nothing, when no tag is `path`.
     */
    method Send(delta: real, tags: seq<Tag>) returns (outcome: Result<()>)
      modifies metrics
      ensures outcome.Err? <==> DurationRecord(delta, tags).Err?
      ensures outcome.Ok? ==> metrics.items == old(metrics.items) + [DurationRecord(delta, tags).value]
      ensures outcome.Err? ==> metrics.items == old(metrics.items)
    {
      var gmf := DurationRecord(delta, tags);
      if gmf.Err? {
        return Err(gmf.error);
      }
      metrics.Append(gmf.value);
      outcome := Ok(());
    }
  }

  /** One element of `get_endpoints()`: an endpoint and its request data. */
  datatype Endpoint = Endpoint(ep: string, data: string)

  /** One entry of the `checks` list: the endpoint and the truthiness of its job's `successful`. */
  datatype Check = Check(endpoint: Endpoint, successful: bool)

  /**
   * One `send` call made by a spawned job before the join gave up: `job` is
   * the job's position in discovery order.
   */
  datatype Report = Report(job: nat, delta: real, tags: seq<Tag>)

  /** The `checks` comprehension: one check per discovered endpoint, in discovery order. */
  function SpawnChecks(discovered: seq<Endpoint>, successful: seq<bool>): (checks: seq<Check>)
    requires |successful| == |discovered|
    ensures |checks| == |discovered|
    ensures forall i | 0 <= i < |checks| :: checks[i].endpoint == discovered[i]
    ensures SuccessValues(checks) == successful
  {
    seq(|discovered|, i requires 0 <= i < |discovered| => Check(discovered[i], successful[i]))
  }

  /** `[check['job'].successful for check in checks]`. */
  function SuccessValues(checks: seq<Check>): (bs: seq<bool>)
    ensures |bs| == |checks|
    // `all` over the list holds exactly when every check's value is truthy
    ensures All(bs) <==> forall i | 0 <= i < |checks| :: checks[i].successful
  {
    var bs := seq(|checks|, i requires 0 <= i < |checks| => checks[i].successful);
    assert forall i | 0 <= i < |checks| :: bs[i] == checks[i].successful;
    bs
  }

  /**
   * The records the reports' `send` calls append, in the order the calls
   * happened; a call that raises (no `path` tag) ends its job without
   * appending.
   */
  function SentRecords(reports: seq<Report>): (rs: seq<MetricFamily>)
    ensures |rs| <= |reports|
    ensures forall k | 0 <= k < |rs| :: rs[k].name == DurationName
  {
    if |reports| == 0 then []
    else
      var last := reports[|reports| - 1];
      var r := DurationRecord(last.delta, last.tags);
      SentRecords(reports[..|reports| - 1]) + (if r.Ok? then [r.value] else [])
  }

  /** Each report names a spawned job, and each job reports at most once. */
  predicate ReportsFromJobs(reports: seq<Report>, jobs: nat)
  {
    (forall k | 0 <= k < |reports| :: reports[k].job < jobs) &&
    (forall k, l | 0 <= k < l < |reports| :: reports[k].job != reports[l].job)
  }

  /** What `get_metrics` returns: the sent gauges, then the summary. */
  function ScrapeRecords(reports: seq<Report>, successful: seq<bool>): (rs: seq<MetricFamily>)
    ensures |rs| >= 1 && rs[|rs| - 1] == Summary(successful)
    ensures forall k | 0 <= k < |rs| - 1 :: rs[k].name == DurationName
    ensures forall k | 0 <= k < |rs| :: rs[k].name == SummaryName <==> k == |rs| - 1
  {
    SentRecords(reports) + [Summary(successful)]
  }

  /**
   * `get_metrics` with the fan-out abstracted: `discovered` is what
   * `get_endpoints()` yields, `successful` the truthiness of each spawned
   * job's `successful` attribute, and `reports` the `send` calls that
   * happened before `joinall` returned, in the order they happened.
   */
  method GetMetrics(host: string, discovered: seq<Endpoint>, successful: seq<bool>, reports: seq<Report>)
    returns (metrics: MetricsCollection)
    requires |successful| == |discovered|
    ensures fresh(metrics)
    ensures metrics.items == ScrapeRecords(reports, successful)
  {
    var manager := new Prometheus(host);
    var checks := SpawnChecks(discovered, successful);
    var i := 0;
    while i < |reports|
      invariant 0 <= i <= |reports|
      invariant fresh(manager.metrics)
      invariant manager.metrics.items == SentRecords(reports[..i])
    {
      var _ := manager.Send(reports[i].delta, reports[i].tags);
      assert reports[..i + 1][..i] == reports[..i];
      i := i + 1;
    }
    assert reports[..i] == reports;
    manager.metrics.Append(Summary(SuccessValues(checks)));
    metrics := manager.metrics;
  }

  /**
   * A scrape's result ends with the summary, holds exactly one summary, and
   * every earlier record is a duration gauge sent by a finished job; there
   * are never more records than discovered endpoints plus one.
   */
  lemma ScrapeShape(reports: seq<Report>, successful: seq<bool>, jobs: nat)
    requires ReportsFromJobs(reports, jobs)
    ensures var rs := ScrapeRecords(reports, successful);
            && rs[|rs| - 1] == Summary(successful)
            && (forall k | 0 <= k < |rs| - 1 :: rs[k].name == DurationName)
            && (forall k | 0 <= k < |rs| :: rs[k].name == SummaryName <==> k == |rs| - 1)
            && |rs| <= jobs + 1
  {
    ReportsBounded(reports, jobs);
  }

  /** Distinct jobs out of `jobs` spawned: at most `jobs` reports. */
  lemma ReportsBounded(reports: seq<Report>, jobs: nat)
    requires ReportsFromJobs(reports, jobs)
    ensures |reports| <= jobs
  {
    var ids := set k | 0 <= k < |reports| :: reports[k].job;
    SetSize(ids, Range(jobs));
    InjectiveImage(reports);
  }

  /** The set of the first `n` naturals. */
  function Range(n: nat): (r: set<nat>)
    ensures |r| == n
    ensures forall j: nat :: j in r <==> j < n
  {
    if n == 0 then {} else Range(n - 1) + {n - 1}
  }

  /** A subset is no larger than its superset. */
  lemma SetSize(a: set<nat>, b: set<nat>)
    requires a <= b
    ensures |a| <= |b|
  {
    assert b == a + (b - a);
  }

  /** Pairwise distinct job numbers: as many numbers as reports. */
  lemma InjectiveImage(reports: seq<Report>)
    requires forall k, l | 0 <= k < l < |reports| :: reports[k].job != reports[l].job
    ensures |set k | 0 <= k < |reports| :: reports[k].job| == |reports|
  {
    if |reports| > 0 {
      var init := reports[..|reports| - 1];
      InjectiveImage(init);
      var last := reports[|reports| - 1].job;
      assert (set k | 0 <= k < |reports| :: reports[k].job) == (set k | 0 <= k < |init| :: init[k].job) + {last};
    }
  }

  /** When every report's `send` succeeds, every report yields its gauge, in report order. */
  lemma {:induction false} SendableReportsAllRecorded(reports: seq<Report>)
    requires forall k | 0 <= k < |reports| :: DurationRecord(reports[k].delta, reports[k].tags).Ok?
    ensures |SentRecords(reports)| == |reports|
    ensures forall k | 0 <= k < |reports| ::
              SentRecords(reports)[k] == DurationRecord(reports[k].delta, reports[k].tags).value
  {
    if |reports| > 0 {
      var n := |reports| - 1;
      var init := reports[..n];
      assert forall k | 0 <= k < n :: init[k] == reports[k];
      SendableReportsAllRecorded(init);
      var r := DurationRecord(reports[n].delta, reports[n].tags);
      var sent := SentRecords(reports);
      assert sent == SentRecords(init) + [r.value];
      forall k | 0 <= k < |reports|
        ensures sent[k] == DurationRecord(reports[k].delta, reports[k].tags).value
      {
        if k < n {
          assert sent[k] == SentRecords(init)[k] && init[k] == reports[k];
        }
      }
    }
  }

  /** When every job reports with `_get_tags_for`'s tags, every report yields one gauge, in report order. */
  lemma TaggedReportsAllRecorded(reports: seq<Report>, urls: seq<Url>)
    requires |urls| == |reports|
    requires forall k | 0 <= k < |reports| :: reports[k].tags == TagsFor(urls[k])
    ensures |SentRecords(reports)| == |reports|
    ensures forall k | 0 <= k < |reports| ::
              DurationRecord(reports[k].delta, reports[k].tags).Ok? &&
              SentRecords(reports)[k] == DurationRecord(reports[k].delta, reports[k].tags).value
  {
    forall k | 0 <= k < |reports|
      ensures DurationRecord(reports[k].delta, reports[k].tags).Ok?
    {
      assert reports[k].tags == TagsFor(urls[k]);
    }
    SendableReportsAllRecorded(reports);
  }

  /** Every check truthy (as the attribute read in `get_summary` always is) gives a passing summary. */
  lemma TruthySuccessPasses(checks: seq<Check>)
    requires forall i | 0 <= i < |checks| :: checks[i].successful
    ensures Summary(SuccessValues(checks)).samples[0].value == 1.0
  {
  }
}
