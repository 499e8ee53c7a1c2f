# github-exporter core, modelled in Dafny

github-exporter is a Prometheus exporter for GitHub Actions usage and
organisation billing. At startup it reads the configured repositories
(`owner/name`) and organisations. It builds a shared workflow cache with one
entry per repository, then runs three polling tasks:

- **discovery** (`poll_workflows`) lists each cached repository's workflows
  and replaces that repository's cached list;
- **usage** (`poll_billable_ms`) walks every cached list. For each workflow
  it publishes the billable milliseconds of each reported host class
  (ubuntu, macos, windows) as `github_actions_billable_ms{owner, repository,
  workflow, os}`;
- **organisation billing** (`poll_orgs_billing`) fetches the actions,
  packages and shared-storage billing of each organisation. It publishes
  them as ten organisation-labelled `github_org_billing_*` gauges.

This project models one pass of each task's loop, the startup code that
builds their inputs, and the identifier types they share. It proves what
each pass does to the cache and to the gauge registry.

Modules:

- `Wrappers` holds `Option` and `Result`. `Result`'s failure-propagation
  members let `:-` model Rust's `?`.
- `Types` (src/types.rs) covers:
  - the host-class labels;
  - `Repository` with its `FromStr` and `Display`;
  - `Workflow` with its `Display`.
- `Metrics` is the gauge registry. `Registry` is a class whose `series` map
  is updated in place by `Set`, one call per `GaugeVec::with_label_values(..).set(..)`.
- `Cache` is the shared workflow cache. `WorkflowCache` is a class:
  - its key set and iteration order are fixed at construction;
  - its `lists` map is overwritten entry by entry.
- `PollWorkflows`, `PollBillableMs` and `PollOrgsBilling` model the three
  tasks. Each task pass is a method with a loop, proved against a
  specification function of the old state:
  - `Discovered` refreshes each cache key on its own. `DiscoveredEntry`
    gives its value entry by entry.
  - `UsageCycle` and `OrgsCycle` fold the pass over the repositories or
    organisations in order. Each fold has a series-by-series "write"
    function as its partner (`CycleWrite`, `OrgWrite`). A pointwise lemma
    connects the two, and the per-series properties are proved from that
    lemma.
- `Bootstrap` (src/main.rs) covers:
  - parsing the configured values;
  - building the cache;
  - sharing one cache between discovery and usage.

Upstream HTTP calls are parameters. Each is a function from a request value
to a `Result`: `ListWorkflows`, `GetTiming`, or `GetBilling` for the three
billing answers of one organisation. Within one pass the same request gets
the same answer.

Points worth noting about the code:

- Organisation billing is published category by category.
  `poll_org_billing` awaits the three answers together. Each `?` comes
  after the previous category's gauges are already set. So actions are
  published whenever the actions fetch succeeded, packages only when
  actions and packages both succeeded, and shared storage only when all
  three did (`OrgPolled`).
- Discovery requests one page of 100 workflows and never follows the
  next-page link. Workflows beyond the first page are never cached and
  never polled for usage.
- The usage gauge is `github_actions_billable_ms`. The organisation gauges
  are `github_org_billing_actions_*`,
  `github_org_billing_packages_*_gigabytes_bandwidth*` and
  `github_org_billing_shared_storage_*`.
- A malformed repository value ends startup with a configuration error
  naming the first value that failed to parse.

## Model

| member | source | states |
|---|---|---|
| Types.ClassOfLabel | src/types.rs:8-10 | reading an os label back gives the class whose label it is; None exactly for strings other than "ubuntu", "macos", "windows" |
| Types.LabelInjective | src/types.rs:8-10 | the three os labels are pairwise distinct, and ClassOfLabel inverts Label |
| Types.FirstIndexOf | src/types.rs:24-26 | the position `split_once` splits at: in range, holds the separator, with no separator before it; None iff the separator is absent |
| Types.ParseRepository | src/types.rs:20-33 | `from_str` fails iff the text has no '/', with the fixed format message; on success the owner has no '/' and owner + "/" + name is the input |
| Types.ParseSplitsAtFirstSlash | src/types.rs:23-31 | the split is at the first '/', however many follow it |
| Types.DisplayAfterParse | src/types.rs:20-39 | any text containing '/' parses, and displaying the result reproduces the text |
| Types.ParseAfterDisplay | src/types.rs:20-39 | a repository whose owner has no '/' is recovered by parsing its display |
| Types.OwnerWithSlashIsResplit | src/types.rs:20-39 | an owner containing '/' does not survive display then parse: "a/b" + "c" comes back as "a" + "b/c" |
| Types.ParseAcceptsEmptyParts | src/types.rs:23-31 | nothing beyond the separator is checked: an empty owner or an empty name is accepted |
| Types.DecimalString | src/types.rs:47-51 | the `{}` rendering of a workflow id is non-empty, all decimal digits, and has no leading zero except "0" itself |
| Types.DecimalRoundTrip | src/types.rs:47-51 | the decimal rendering of an id denotes that id |
| Types.WorkflowToStringInjective | src/types.rs:47-51 | two workflows with the same "(id) name" display are the same workflow |
| Metrics.SetIfPresent | src/tasks/poll_billable_ms.rs:52-56 | a conditional `set`: the series takes the value when there is one, and every other series is unchanged |
| Metrics.Registry.Set | src/tasks/poll_billable_ms.rs:53-55 | `with_label_values(..).set(v)` makes that one series v and leaves the rest |
| Cache.Dedup | src/main.rs:123-128 | collecting into a HashMap keeps one key per distinct repository: the result is duplicate-free and has the same elements |
| Cache.WorkflowCache.constructor | src/main.rs:123-128 | the cache has exactly the configured repositories as keys, each with an empty list, and its invariant holds |
| Cache.WorkflowCache.Replace | src/tasks/poll_workflows.rs:44-47 | the write lock overwrites one entry wholesale; the key set and the other entries are unchanged |
| PollWorkflows.ToWorkflows | src/tasks/poll_workflows.rs:31-37 | the cached list has one element per fetched item, in order, keeping its id and name |
| PollWorkflows.Discovered | src/tasks/poll_workflows.rs:6-19 | a discovery pass never adds or removes a cache key |
| PollWorkflows.PollWorkflow | src/tasks/poll_workflows.rs:21-50 | makes one request, for that repository with page size 100, and returns it; on success that entry becomes the converted page; on failure nothing is written; the error is returned iff the fetch failed |
| PollWorkflows.PollWorkflows | src/tasks/poll_workflows.rs:6-19 | every key is polled once in the cache's order, and a failure does not stop the others; the requests are those the polls made, one per key in order; the cache becomes Discovered of the old one; the logged repositories are exactly those whose fetch failed |
| PollWorkflows.RequestsFor | src/tasks/poll_workflows.rs:11-12 | the requests of a pass are one per key polled, in order, each for that key with page size 100 |
| PollWorkflows.FailedInMembers | src/tasks/poll_workflows.rs:12-14 | the repositories logged by a pass are exactly the polled keys whose fetch failed |
| PollWorkflows.PartlyDiscoveredPointwise | src/tasks/poll_workflows.rs:11-15 | polling keys one at a time keeps the key set; a polled key's entry is refreshed from its fetch, and every other entry is unchanged |
| PollWorkflows.AllPolled | src/tasks/poll_workflows.rs:11-15 | once every key has been polled one at a time, the whole cache equals Discovered |
| PollWorkflows.DiscoveredEntry | src/tasks/poll_workflows.rs:24-47 | after a pass, an entry is the fetched ids and names in order when its fetch succeeded, and unchanged when it failed |
| PollWorkflows.NoStaleWorkflowSurvives | src/tasks/poll_workflows.rs:44-47 | replacement is wholesale: after a successful fetch, every cached workflow came from the fetched page |
| PollWorkflows.FirstPageOnly | src/tasks/poll_workflows.rs:24-37 | after a successful fetch the entry is exactly the items of the one page requested, whatever its next-page link, so it holds at most 100 workflows when the upstream honours the page size |
| PollBillableMs.PollBillableMsForWorkflow | src/tasks/poll_billable_ms.rs:32-71 | one timing request keyed by the workflow id; on success each reported class sets its series; on failure nothing is set; the error is returned iff the fetch failed |
| PollBillableMs.PollBillableMs | src/tasks/poll_billable_ms.rs:10-30 | every workflow of every cached list is polled in cache order, and a failure does not stop the pass; the registry becomes UsageCycle of the old one; the logged (repository, workflow) pairs are exactly the cached ones whose fetch failed |
| PollBillableMs.UsageWrite | src/tasks/poll_billable_ms.rs:52-68 | a poll writes only series labelled with its own owner, repository and workflow name |
| PollBillableMs.LastUsageWrite | src/tasks/poll_billable_ms.rs:16-25 | the workflows of one repository only write series labelled with that repository |
| PollBillableMs.PolledWorkflowPointwise | src/tasks/poll_billable_ms.rs:52-68 | the registry after one poll, series by series: its UsageWrite where there is one, otherwise the old value |
| PollBillableMs.PolledRepositoryPointwise | src/tasks/poll_billable_ms.rs:16-25 | after polling a list, each series holds the write of the last workflow in the list that writes it, otherwise its old value |
| PollBillableMs.UsageCyclePointwise | src/tasks/poll_billable_ms.rs:15-26 | after a pass over duplicate-free keys, each series holds the write of the repository it is labelled with, otherwise its old value, whatever the key order |
| PollBillableMs.LastUsageWriteAt | src/tasks/poll_billable_ms.rs:16-25 | the last writer of a series in a list determines its value |
| PollBillableMs.LastUsageWriteNone | src/tasks/poll_billable_ms.rs:16-25 | when no workflow in a list writes a series, the list leaves it alone |
| PollBillableMs.PollSetsReportedClasses | src/tasks/poll_billable_ms.rs:52-68 | each reported class's series becomes its total_ms; an unreported class's series keeps its last value, and is neither zeroed nor removed |
| PollBillableMs.FailedPollChangesNothing | src/tasks/poll_billable_ms.rs:38-50 | a failed timing request changes no series |
| PollBillableMs.PollTouchesOnlyItsSeries | src/tasks/poll_billable_ms.rs:52-68 | a poll leaves every series not labelled with its owner, repository and workflow name unchanged |
| PollBillableMs.BillableKeyInjective | src/tasks/poll_billable_ms.rs:52-68 | two label sets are equal iff they have the same repository, workflow name and class |
| PollBillableMs.SameNameLaterWins | src/tasks/poll_billable_ms.rs:52-68 | the series is keyed by workflow name, not id: of two same-named workflows, the one polled later sets the value |
| PollBillableMs.CyclePublishesEveryWorkflow | src/tasks/poll_billable_ms.rs:10-30 | after a pass, a cached workflow's reported class holds that workflow's total_ms, unless a later same-named workflow in the list reports that class too |
| PollBillableMs.CycleKeepsSeriesOfFailedWorkflows | src/tasks/poll_billable_ms.rs:17-24 | a series whose workflows all failed to be fetched keeps its last value |
| PollBillableMs.EmptyListPublishesNothing | src/tasks/poll_billable_ms.rs:15-26 | a repository with an empty cached list has every series left at its last value |
| PollBillableMs.CycleTouchesOnlyCachedRepositories | src/tasks/poll_billable_ms.rs:15-26 | series of other metrics, and of repositories outside the cache, are left alone |
| PollOrgsBilling.OrgOutcome | src/tasks/poll_orgs_billing.rs:52-58 | the poll fails iff any of the three fetches failed, and reports the first failure in the order actions, packages, shared storage |
| PollOrgsBilling.SetMetricsActionsBilling | src/tasks/poll_orgs_billing.rs:61-89 | sets the three actions totals, and the breakdown series of each reported class |
| PollOrgsBilling.SetMetricsPackagesBilling | src/tasks/poll_orgs_billing.rs:91-101 | sets the three packages bandwidth gauges |
| PollOrgsBilling.SetMetricsSharedStorageBilling | src/tasks/poll_orgs_billing.rs:103-113 | sets the three shared-storage gauges |
| PollOrgsBilling.PollOrgBilling | src/tasks/poll_orgs_billing.rs:22-59 | the registry becomes OrgPolled (publication is prefix-ordered by category); the result is OrgOutcome |
| PollOrgsBilling.PollOrgsBilling | src/tasks/poll_orgs_billing.rs:10-20 | every organisation is polled in order, and a failure does not stop the pass; the registry becomes OrgsCycle; the logged organisations are exactly those whose poll failed |
| PollOrgsBilling.OrgWrite | src/tasks/poll_orgs_billing.rs:61-113 | a poll writes only series whose organisation label is its own |
| PollOrgsBilling.ActionsPointwise | src/tasks/poll_orgs_billing.rs:61-89 | after set_metrics_actions_billing, each series holds its ActionsWrite where there is one, otherwise its old value |
| PollOrgsBilling.PackagesPointwise | src/tasks/poll_orgs_billing.rs:91-101 | after set_metrics_packages_billing, each series holds its PackagesWrite where there is one, otherwise its old value |
| PollOrgsBilling.StoragePointwise | src/tasks/poll_orgs_billing.rs:103-113 | after set_metrics_shared_storage_billing, each series holds its StorageWrite where there is one, otherwise its old value |
| PollOrgsBilling.ActionsAndPackagesDisjoint | src/tasks/poll_orgs_billing.rs:149-194 | no series is written both by the actions category and by the packages category |
| PollOrgsBilling.StorageDisjoint | src/tasks/poll_orgs_billing.rs:149-215 | a series the shared-storage category writes is written by neither of the other two categories |
| PollOrgsBilling.OrgPolledPointwise | src/tasks/poll_orgs_billing.rs:52-54 | after one organisation poll, each series holds its OrgWrite where there is one, otherwise its old value |
| PollOrgsBilling.OrgsCyclePointwise | src/tasks/poll_orgs_billing.rs:10-20 | after a pass, a series labelled with a configured organisation holds that organisation's write, otherwise its old value |
| PollOrgsBilling.ActionsPublishedIffFetched | src/tasks/poll_orgs_billing.rs:52 | the actions totals are published iff the actions fetch succeeded; when it failed the registry is unchanged |
| PollOrgsBilling.BreakdownSetsReportedClasses | src/tasks/poll_orgs_billing.rs:72-88 | each reported breakdown class sets its (organisation, os) series; an unreported one keeps its last value |
| PollOrgsBilling.PackagesPublishedIffPrefixFetched | src/tasks/poll_orgs_billing.rs:52-53 | the packages gauges are set iff both the actions and the packages fetches succeeded, and are unchanged otherwise |
| PollOrgsBilling.StoragePublishedIffAllFetched | src/tasks/poll_orgs_billing.rs:52-54 | the shared-storage gauges are set iff all three fetches succeeded, and are unchanged otherwise |
| PollOrgsBilling.OrgPollTouchesOnlyItsSeries | src/tasks/poll_orgs_billing.rs:61-113 | polling one organisation changes no series labelled with another |
| PollOrgsBilling.CyclePollsEveryOrg | src/tasks/poll_orgs_billing.rs:10-20 | every configured organisation is polled, whatever the others' answers: its series end as polling it alone would leave them |
| PollOrgsBilling.CycleTouchesOnlyConfiguredOrgs | src/tasks/poll_orgs_billing.rs:10-20 | series of organisations outside the configuration are left alone |
| Bootstrap.ParseRepositories | src/main.rs:90-92 | `values_t!` succeeds iff every value contains '/', and then each parsed repository is that value's parse, in order; otherwise the error names the first value without '/' |
| Bootstrap.ConfiguredRepositoriesCases | src/main.rs:90-99 | an absent option tracks no repositories or organisations (its default is never parsed); a present repository option fails iff some value lacks '/' |
| Bootstrap.Startup | src/main.rs:90-128 | a malformed repository value ends startup with that error before any cache exists; otherwise the cache has one empty entry per distinct configured repository, and the organisations are the configured ones |
| Bootstrap.DiscoveryThenUsage | src/main.rs:130-138 | discovery and usage share one cache object, so a usage pass reads the lists the preceding discovery pass wrote |
| Bootstrap.AcmeWidgetsScenario | src/main.rs:123-138 | end to end: "acme/widgets", with workflow 42 "ci" reporting 1000 ms on ubuntu only, ends with the ubuntu series at 1000 and no macos or windows series |
| Bootstrap.EmptiedRepositoryKeepsLastValues | src/main.rs:130-138 | when discovery finds a repository's list empty, the next usage pass leaves all its series at their last values |
| Bootstrap.UnlistedWorkflowNotPublished | src/tasks/poll_workflows.rs:24-29 | a workflow not on the one page discovery fetched is never polled: the next usage pass leaves every series of that repository with another workflow name at its last value |

## Left out

- src/http.rs (the metrics HTTP endpoint and its text encoding) is not part of this model. The registry is modelled as the map of series it would expose.
- Command-line and environment parsing, the bind address, the token, the base URL and the poll intervals are left out. Startup takes, for each of the repository and organisation options, the number of occurrences and the list of values.
- Logging (`info!`/`error!`) is left out. The task methods return the failures they would log.
- The endless `loop` and `time::sleep` of each task are left out. Each task method models one pass.
- Concurrency is left out. The three tasks, the `RwLock`s and `tokio::join!` are not modelled: a list replacement is one atomic step, and the three billing answers are one `OrgFetch` value.
- Upstream calls are deterministic functions within a pass. Retries, pagination state and rate limits are not modelled.
- Gauge values and billing figures are `real`, not `f64`. The tasks only copy them, so rounding and NaN do not arise. The string decoding of `total_paid_minutes_used` is part of the fetch and is not modelled.
- Cache.Dedup: the HashMap's iteration order is unspecified. The model fixes it as first-occurrence order of the configured list; the per-series lemmas show the result does not depend on that order.
- Bootstrap.ParseRepositories: the clap error text is not modelled. The error carries only the first value that failed.
- Startup's failures other than a malformed repository value are left out: a bad bind address, a bad interval number, or a missing token.
- The base-URL override is left out. src/main.rs:88 reads it under the name "github_base_url", but src/main.rs:63 registers it as "github_api_baseurl". As written, the lookup finds no value, so the override is never applied.
- The Prometheus registry's own checks (label count, duplicate registration) are left out. Every key the tasks build has the right label count by construction.
