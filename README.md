# prometheus-swagger-exporter, modelled in Dafny

prometheus-swagger-exporter answers a Prometheus scrape by probing every
endpoint that the service-checker library discovers from a target's Swagger
specification. Each finished probe sends its request duration to a metrics
manager, which turns it into a `GaugeMetricFamily` and appends it to an
append-only `MetricsCollection`. After a joint wait on all probes, a 0/1
summary gauge is appended last. The collection is then rendered by
`prometheus_client`. Separately, `setup.py` reads the package version out of
the first entry of `debian/changelog`.

This project models those two pieces of logic:

- `results.dfy`, module `Results`: the `IndexError` that the core raises, and
  a `Result` type to carry it.
- `exporter.dfy`, module `Exporter` (`prometheus_swagger_exporter/__init__.py`):
  - `GaugeMetricFamily` is the datatype `MetricFamily {name, documentation, labelNames, samples}`.
  - `MetricsCollection` is a class holding a `seq`. `Prometheus` is a class
    holding a reference to its collection.
  - `send` is the method `Prometheus.Send`. It is specified by the function
    `DurationRecord`.
  - `_get_tags_for` is `TagsFor`, and `get_summary` is `Summary`.
  - `get_metrics` is the method `GetMetrics`. The gevent fan-out is an
    input sequence of `send` calls, in the order they happened. `GetMetrics`
    accepts any such sequence. The assumption that each call comes from a
    distinct spawned job (`ReportsFromJobs`) is a hypothesis of the lemmas
    `ScrapeShape` and `ReportsBounded` only.
- `changelog.dfy`, module `Changelog` (`setup.py`): `get_debian_version`
  is the method `GetDebianVersion`. It loops over the changelog's lines and
  is proved equal to the recursive function `DebianVersion`. `Split`
  models Python's `str.split` with a one-character separator, which is the
  only form the code uses.

Notes on the source as written:

- `get_summary` reads `check['job'].successful` without calling it
  (`prometheus_swagger_exporter/__init__.py:45`). The model takes one boolean
  per check: the truthiness of the value that is read. For a gevent greenlet
  that value is a bound method, which is always truthy. `TruthySuccessPasses`
  states the consequence: the summary is then 1.
- `all([])` is true, so a scrape that discovers no endpoints reports 1. The
  success values are read at `prometheus_swagger_exporter/__init__.py:45`
  without waiting to know whether any job has finished, and the model keeps
  that.
- `line.split('(')[1]` stops at the next `'('` as well as at the later
  `')'` and `'-'`. `LineVersion` and `VersionIsRunAfterParen` together state
  the exact result: the longest run right after the first `'('` that holds none of `(`, `)` and `-`.

## Model

| member | source | states |
|---|---|---|
| `Exporter.MetricsCollection.constructor` | prometheus_swagger_exporter/__init__.py:22 | a fresh collection is empty |
| `Exporter.MetricsCollection.Append` | prometheus_swagger_exporter/__init__.py:32 | appending adds exactly one element at the end and leaves the earlier ones unchanged |
| `Exporter.MetricsCollection.Collect` | prometheus_swagger_exporter/__init__.py:14-17 | `collect` yields exactly the list's elements, each once, in list order |
| `Exporter.Prometheus.constructor` | prometheus_swagger_exporter/__init__.py:21-23 | the manager starts with a fresh, empty collection and keeps the given hostname |
| `Exporter.Prometheus.Send` | prometheus_swagger_exporter/__init__.py:25-32 | with a `path` tag, exactly one duration gauge is appended after the unchanged earlier records; without one, IndexError is raised and nothing is appended |
| `Exporter.FirstPathIndex` | prometheus_swagger_exporter/__init__.py:28 | the result is the position of the first tag whose key is `path`, or the list length when no key is `path` |
| `Exporter.PathValues` | prometheus_swagger_exporter/__init__.py:28 | the `path` comprehension has no more elements than there are tags |
| `Exporter.PathValuesFromPathTags` | prometheus_swagger_exporter/__init__.py:28 | every element of the `path` comprehension is the value of some tag whose key is `path` |
| `Exporter.PathValuesFirst` | prometheus_swagger_exporter/__init__.py:28 | the `path` comprehension is non-empty iff some tag is `path`, and its element `[0]` is the value of the first such tag |
| `Exporter.Keys` | prometheus_swagger_exporter/__init__.py:29 | one key per tag, in tag order: the i-th key with the i-th tag's value rebuilds the i-th tag |
| `Exporter.Values` | prometheus_swagger_exporter/__init__.py:31 | one value per tag, in tag order: the i-th tag's key with the i-th value rebuilds the i-th tag |
| `Exporter.DurationRecord` | prometheus_swagger_exporter/__init__.py:26-31 | IndexError iff no tag key is `path`; otherwise the gauge is named `service_checker_request_duration_seconds`, its documentation is the first `path` tag's value, and it has one sample whose value is the duration; the label names and the sample's label values both have the tag list's length, and zipping them back gives the tag list |
| `Exporter.TagsFor` | prometheus_swagger_exporter/__init__.py:34-36 | exactly two tags, keys `path` then `host` and values the URL's path then host; `send` never raises on them, and the gauge it builds is documented with the URL's path |
| `Exporter.All` | prometheus_swagger_exporter/__init__.py:45 | Python's `all` is true iff every element is truthy (so it is true on an empty list) |
| `Exporter.Summary` | prometheus_swagger_exporter/__init__.py:39-49 | one gauge named `service_checker_probe_success`, documented as `condensed view of all checks as a one (pass) or zero (fail)`, with no labels and exactly one unlabelled sample; the value is 1 iff every check's `successful` value is truthy and 0 iff some check's is not; it is always 0 or 1, and it is 1 for no checks |
| `Exporter.SuccessValues` | prometheus_swagger_exporter/__init__.py:45 | one value per check, and `all` over them holds exactly when every check's `successful` value is truthy |
| `Exporter.TruthySuccessPasses` | prometheus_swagger_exporter/__init__.py:45 | a corollary of `Summary`: when every check's `successful` value is truthy, the summary is 1 (the attribute read at this line is a bound method, which is always truthy) |
| `Exporter.SpawnChecks` | prometheus_swagger_exporter/__init__.py:62-68 | one check per discovered endpoint, in discovery order, carrying that job's `successful` value |
| `Exporter.SentRecords` | prometheus_swagger_exporter/__init__.py:66-69 | the `send` calls append no more gauges than there are calls, and every gauge they append is a duration gauge |
| `Exporter.GetMetrics` | prometheus_swagger_exporter/__init__.py:52-72 | the returned collection is fresh and holds the gauges of the `send` calls made before the join, in call order, followed by the summary over all checks |
| `Exporter.ScrapeRecords` | prometheus_swagger_exporter/__init__.py:71-72 | the returned list ends with the summary, which is the only record named `service_checker_probe_success`, and every earlier record is a duration gauge |
| `Exporter.ScrapeShape` | prometheus_swagger_exporter/__init__.py:62-72 | when each spawned job sends at most once, a scrape's records end with the summary, which is the only record named `service_checker_probe_success`, every earlier record is a duration gauge, and there are at most one more records than spawned jobs |
| `Exporter.ReportsBounded` | prometheus_swagger_exporter/__init__.py:62-69 | when each spawned job reports at most once, there are no more reports than jobs |
| `Exporter.SendableReportsAllRecorded` | prometheus_swagger_exporter/__init__.py:25-32 | when no report's `send` raises, the appended gauges are exactly the reports' gauges, one per report, in report order |
| `Exporter.TaggedReportsAllRecorded` | prometheus_swagger_exporter/__init__.py:25-36 | when every job sends `_get_tags_for` tags, every report yields exactly one gauge, and they appear in report order |
| `Changelog.IndexOf` | setup.py:13 | the result is the position of the first occurrence of the character |
| `Changelog.Split` | setup.py:13 | `str.split` with a one-character separator: at least one field, no field holds the separator, and a second field exists iff the separator occurs |
| `Changelog.SplitJoin` | setup.py:13 | joining the fields of a split with the same separator gives back the string |
| `Changelog.SplitHead` | setup.py:13 | `split(c)[0]` is the prefix of the string before the first `c`, or the whole string when there is no `c` |
| `Changelog.SplitSecond` | setup.py:13 | `split(c)[1]` starts just after the first `c` and runs to the next `c` or the end |
| `Changelog.LineVersion` | setup.py:13 | IndexError iff the line has no `'('`; otherwise the version has no `(`, `)` or `-` |
| `Changelog.VersionIsRunAfterParen` | setup.py:13 | the version is a contiguous substring of the line that starts just after the first `'('` and is the longest such run free of `(`, `)` and `-` |
| `Changelog.Matches` | setup.py:12 | the clipped slice `line[:27]` equals the package name iff the line has at least 27 characters and starts with the name |
| `Changelog.DebianVersion` | setup.py:8-15 | the result is `0.1` or the result of some line that starts with the package name |
| `Changelog.GetDebianVersion` | setup.py:8-15 | the loop with its early `break` computes the first-match-decides lookup, with default `0.1` |
| `Changelog.ShortLineNeverMatches` | setup.py:12 | a line shorter than 27 characters never matches the package name |
| `Changelog.NoEntryGivesDefault` | setup.py:9-15 | when no line starts with `prometheus-swagger-exporter`, the result is `0.1` |
| `Changelog.FirstEntryDecides` | setup.py:11-14 | the result is the version of the first matching line |
| `Changelog.LaterLinesIgnored` | setup.py:11-14 | replacing every line after the first match does not change the result |
| `Changelog.EntryWithoutParenRaises` | setup.py:12-13 | when the first matching line has no `'('`, the lookup raises IndexError |
| `Changelog.VersionOfEntry` | setup.py:13 | an entry whose version is `0.2.1-1` matches and gives `0.2.1` |
| `Changelog.ExampleEntry` | setup.py:8-15 | the line `prometheus-swagger-exporter (0.2.1-1) jessie; urgency=low` gives `0.2.1` |

## Left out

- gevent monkey-patching, `gevent.spawn` and `gevent.joinall` with its timeout. The concurrency is abstracted: some of the spawned jobs call `send`, in some order, before the summary is appended. A `send` that raises inside a job ends that job; the model appends nothing for it.
- servicechecker's `CheckService`, `get_endpoints` and `_check_endpoint` are foreign code. The discovered endpoints, the success value of each job and the `send` calls are inputs.
- `urllib3.util.parse_url` is a foreign parser. `TagsFor` takes a URL that is already split into host and path. A missing host or path (`None` in Python) is not distinguished from a string.
- `delta.total_seconds()` is not modelled. The duration is taken as a `real` in seconds. No float rounding is modelled.
- prometheus_client stores a sample's labels as `dict(zip(labelnames, values))`, so duplicate tag keys would collapse. The model keeps the label values as a sequence in label-name order.
- The list `get_metrics` returns is the manager's own list, and jobs that `joinall` gave up on still hold it and may append after the summary. The model's `GetMetrics` returns a fresh collection that nothing else can reach, so "the summary is last" holds at the moment of return. Nothing runs between the return and `generate_latest`, so later appends are not observed; the model does not capture this sharing.
- The bottle route `/probe`, the `X-Prometheus-Scrape-Timeout-Seconds` header, `generate_latest` and `main`/`run` are I/O and a foreign wire format.
- In setup.py, the `setup()` call, the README read and the `open()` of `debian/changelog` are packaging and I/O. The changelog is given as its sequence of lines, as `readlines()` returns them.
