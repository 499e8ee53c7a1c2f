/** The organisation billing task (src/tasks/poll_orgs_billing.rs): one cycle
    fetches three billing payloads per organisation and publishes them as
    organisation-labelled gauges, category by category. */
module PollOrgsBilling {
  import opened Wrappers
  import opened Types
  import opened Metrics

  // Gauge names. All are labelled by organisation; the breakdown is also
  // labelled by os.
  const ACTIONS_TOTAL_MINUTES_USED: string := "github_org_billing_actions_total_minutes_used"
  const ACTIONS_TOTAL_PAID_MINUTES_USED: string := "github_org_billing_actions_total_paid_minutes_used"
  const ACTIONS_INCLUDED_MINUTES: string := "github_org_billing_actions_included_minutes"
  const ACTIONS_MINUTES_USED_BREAKDOWN: string := "github_org_billing_actions_minutes_used_breakdown"
  const PACKAGES_TOTAL_GIGABYTES_BANDWIDTH_USED: string := "github_org_billing_packages_total_gigabytes_bandwidth_used"
  const PACKAGES_TOTAL_PAID_GIGABYTES_BANDWIDTH_USED: string := "github_org_billing_packages_total_paid_gigabytes_bandwidth_used"
  const PACKAGES_INCLUDED_GIGABYTES_BANDWIDTH: string := "github_org_billing_packages_included_gigabytes_bandwidth"
  const SHARED_STORAGE_DAYS_LEFT_IN_BILLING_CYCLE: string := "github_org_billing_shared_storage_days_left_in_billing_cycle"
  const SHARED_STORAGE_ESTIMATED_PAID_STORAGE_FOR_MONTH: string := "github_org_billing_shared_storage_estimated_paid_storage_for_month"
  const SHARED_STORAGE_ESTIMATED_STORAGE_FOR_MONTH: string := "github_org_billing_shared_storage_estimated_storage_for_month"

  datatype MinutesUsedBreakdown = MinutesUsedBreakdown(ubuntu: Option<Sample>, macos: Option<Sample>, windows: Option<Sample>)

  datatype ActionsBilling = ActionsBilling(
    totalMinutesUsed: Sample,
    totalPaidMinutesUsed: Sample,
    includedMinutes: Sample,
    minutesUsedBreakdown: MinutesUsedBreakdown)

  datatype PackagesBilling = PackagesBilling(
    totalGigabytesBandwidthUsed: Sample,
    totalPaidGigabytesBandwidthUsed: Sample,
    includedGigabytesBandwidth: Sample)

  datatype SharedStorageBilling = SharedStorageBilling(
    daysLeftInBillingCycle: Sample,
    estimatedPaidStorageForMonth: Sample,
    estimatedStorageForMonth: Sample)

  /** The three answers for one organisation, all awaited before any is used. */
  datatype OrgFetch = OrgFetch(
    actions: Result<ActionsBilling, FetchError>,
    packages: Result<PackagesBilling, FetchError>,
    sharedStorage: Result<SharedStorageBilling, FetchError>)

  /** The upstream billing calls for one organisation, answered once per
      organisation in a cycle. */
  type GetBilling = Organisation -> OrgFetch

  function OrgKey(metric: string, org: Organisation): SeriesKey
  {
    SeriesKey(metric, [org])
  }

  function BreakdownKey(org: Organisation, c: HostClass): SeriesKey
  {
    SeriesKey(ACTIONS_MINUTES_USED_BREAKDOWN, [org, Label(c)])
  }

  function MinutesFor(b: MinutesUsedBreakdown, c: HostClass): Option<Sample>
  {
    match c
    case Ubuntu => b.ubuntu
    case MacOS => b.macos
    case Windows => b.windows
  }

  /** `set_metrics_actions_billing`, as a change of the registry. */
  function ActionsPublished(m: Series, org: Organisation, a: ActionsBilling): Series
  {
    var m1 := m[OrgKey(ACTIONS_TOTAL_MINUTES_USED, org) := a.totalMinutesUsed]
               [OrgKey(ACTIONS_TOTAL_PAID_MINUTES_USED, org) := a.totalPaidMinutesUsed]
               [OrgKey(ACTIONS_INCLUDED_MINUTES, org) := a.includedMinutes];
    var m2 := SetIfPresent(m1, BreakdownKey(org, Ubuntu), MinutesFor(a.minutesUsedBreakdown, Ubuntu));
    var m3 := SetIfPresent(m2, BreakdownKey(org, MacOS), MinutesFor(a.minutesUsedBreakdown, MacOS));
    SetIfPresent(m3, BreakdownKey(org, Windows), MinutesFor(a.minutesUsedBreakdown, Windows))
  }

  /** `set_metrics_packages_billing`, as a change of the registry. */
  function PackagesPublished(m: Series, org: Organisation, p: PackagesBilling): Series
  {
    m[OrgKey(PACKAGES_INCLUDED_GIGABYTES_BANDWIDTH, org) := p.includedGigabytesBandwidth]
     [OrgKey(PACKAGES_TOTAL_GIGABYTES_BANDWIDTH_USED, org) := p.totalGigabytesBandwidthUsed]
     [OrgKey(PACKAGES_TOTAL_PAID_GIGABYTES_BANDWIDTH_USED, org) := p.totalPaidGigabytesBandwidthUsed]
  }

  /** `set_metrics_shared_storage_billing`, as a change of the registry. */
  function StoragePublished(m: Series, org: Organisation, s: SharedStorageBilling): Series
  {
    m[OrgKey(SHARED_STORAGE_DAYS_LEFT_IN_BILLING_CYCLE, org) := s.daysLeftInBillingCycle]
     [OrgKey(SHARED_STORAGE_ESTIMATED_PAID_STORAGE_FOR_MONTH, org) := s.estimatedPaidStorageForMonth]
     [OrgKey(SHARED_STORAGE_ESTIMATED_STORAGE_FOR_MONTH, org) := s.estimatedStorageForMonth]
  }

  /** The registry after `poll_org_billing`: each category is published only
      if it and every category before it were fetched. */
  function OrgPolled(m: Series, org: Organisation, f: OrgFetch): Series
  {
    match f.actions
    case Err(_) => m
    case Ok(a) =>
      var m1 := ActionsPublished(m, org, a);
      match f.packages
      case Err(_) => m1
      case Ok(p) =>
        var m2 := PackagesPublished(m1, org, p);
        match f.sharedStorage
        case Err(_) => m2
        case Ok(s) => StoragePublished(m2, org, s)
  }

  /** What `poll_org_billing` returns: the first error in the order actions,
      packages, shared storage. */
  function OrgOutcome(f: OrgFetch): (r: Result<(), FetchError>)
    ensures r.Err? <==> f.actions.Err? || f.packages.Err? || f.sharedStorage.Err?
    ensures f.actions.Err? ==> r == Err(f.actions.error)
    ensures f.actions.Ok? && f.packages.Err? ==> r == Err(f.packages.error)
    ensures f.actions.Ok? && f.packages.Ok? && f.sharedStorage.Err? ==> r == Err(f.sharedStorage.error)
  {
    if f.actions.Err? then Err(f.actions.error)
    else if f.packages.Err? then Err(f.packages.error)
    else if f.sharedStorage.Err? then Err(f.sharedStorage.error)
    else Ok(())
  }

  /** The registry after one cycle over `orgs`, in order. */
  function OrgsCycle(m: Series, orgs: seq<Organisation>, fetch: GetBilling): Series
  {
    if orgs == [] then m
    else
      var last := orgs[|orgs| - 1];
      OrgPolled(OrgsCycle(m, orgs[..|orgs| - 1], fetch), last, fetch(last))
  }

  method SetMetricsActionsBilling(reg: Registry, org: Organisation, a: ActionsBilling)
    modifies reg
    ensures reg.series == ActionsPublished(old(reg.series), org, a)
  {
    reg.Set(OrgKey(ACTIONS_TOTAL_MINUTES_USED, org), a.totalMinutesUsed);
    reg.Set(OrgKey(ACTIONS_TOTAL_PAID_MINUTES_USED, org), a.totalPaidMinutesUsed);
    reg.Set(OrgKey(ACTIONS_INCLUDED_MINUTES, org), a.includedMinutes);
    if a.minutesUsedBreakdown.ubuntu.Some? {
      reg.Set(BreakdownKey(org, Ubuntu), a.minutesUsedBreakdown.ubuntu.value);
    }
    if a.minutesUsedBreakdown.macos.Some? {
      reg.Set(BreakdownKey(org, MacOS), a.minutesUsedBreakdown.macos.value);
    }
    if a.minutesUsedBreakdown.windows.Some? {
      reg.Set(BreakdownKey(org, Windows), a.minutesUsedBreakdown.windows.value);
    }
  }

  method SetMetricsPackagesBilling(reg: Registry, org: Organisation, p: PackagesBilling)
    modifies reg
    ensures reg.series == PackagesPublished(old(reg.series), org, p)
  {
    reg.Set(OrgKey(PACKAGES_INCLUDED_GIGABYTES_BANDWIDTH, org), p.includedGigabytesBandwidth);
    reg.Set(OrgKey(PACKAGES_TOTAL_GIGABYTES_BANDWIDTH_USED, org), p.totalGigabytesBandwidthUsed);
    reg.Set(OrgKey(PACKAGES_TOTAL_PAID_GIGABYTES_BANDWIDTH_USED, org), p.totalPaidGigabytesBandwidthUsed);
  }

  method SetMetricsSharedStorageBilling(reg: Registry, org: Organisation, s: SharedStorageBilling)
    modifies reg
    ensures reg.series == StoragePublished(old(reg.series), org, s)
  {
    reg.Set(OrgKey(SHARED_STORAGE_DAYS_LEFT_IN_BILLING_CYCLE, org), s.daysLeftInBillingCycle);
    reg.Set(OrgKey(SHARED_STORAGE_ESTIMATED_PAID_STORAGE_FOR_MONTH, org), s.estimatedPaidStorageForMonth);
    reg.Set(OrgKey(SHARED_STORAGE_ESTIMATED_STORAGE_FOR_MONTH, org), s.estimatedStorageForMonth);
  }

  /** `poll_org_billing`: the three answers are awaited together, then each
      `?` comes after the previous category has been published. */
  method PollOrgBilling(reg: Registry, org: Organisation, f: OrgFetch) returns (outcome: Result<(), FetchError>)
    modifies reg
    ensures reg.series == OrgPolled(old(reg.series), org, f)
    ensures outcome == OrgOutcome(f)
  {
    var a :- f.actions;
    SetMetricsActionsBilling(reg, org, a);
    var p :- f.packages;
    SetMetricsPackagesBilling(reg, org, p);
    var s :- f.sharedStorage;
    SetMetricsSharedStorageBilling(reg, org, s);
    outcome := Ok(());
  }

  /** `poll_orgs_billing`, one pass of its loop: every organisation is polled
      in order and a failure is logged and passed over. Returns the
      organisations whose poll failed (the logged ones). */
  method PollOrgsBilling(reg: Registry, orgs: seq<Organisation>, fetch: GetBilling) returns (failed: seq<Organisation>)
    modifies reg
    ensures reg.series == OrgsCycle(old(reg.series), orgs, fetch)
    ensures forall o :: o in failed <==> o in orgs && OrgOutcome(fetch(o)).Err?
  {
    failed := [];
    var i := 0;
    while i < |orgs|
      invariant 0 <= i <= |orgs|
      invariant reg.series == OrgsCycle(old(reg.series), orgs[..i], fetch)
      invariant forall o :: o in failed <==> o in orgs[..i] && OrgOutcome(fetch(o)).Err?
    {
      var outcome := PollOrgBilling(reg, orgs[i], fetch(orgs[i]));
      if outcome.Err? {
        failed := failed + [orgs[i]];
      }
      assert orgs[..i + 1] == orgs[..i] + [orgs[i]];
      i := i + 1;
    }
    assert orgs[..i] == orgs;
  }

  // ---------------------------------------------------------------------
  // What a poll writes, series by series
  // ---------------------------------------------------------------------

  function ActionsWrite(org: Organisation, a: ActionsBilling, k: SeriesKey): Option<Sample>
  {
    if k == OrgKey(ACTIONS_TOTAL_MINUTES_USED, org) then Some(a.totalMinutesUsed)
    else if k == OrgKey(ACTIONS_TOTAL_PAID_MINUTES_USED, org) then Some(a.totalPaidMinutesUsed)
    else if k == OrgKey(ACTIONS_INCLUDED_MINUTES, org) then Some(a.includedMinutes)
    else if k.metric == ACTIONS_MINUTES_USED_BREAKDOWN && |k.labels| == 2 && k.labels[0] == org then
      match ClassOfLabel(k.labels[1])
      case Some(c) => MinutesFor(a.minutesUsedBreakdown, c)
      case None => None
    else None
  }

  function PackagesWrite(org: Organisation, p: PackagesBilling, k: SeriesKey): Option<Sample>
  {
    if k == OrgKey(PACKAGES_INCLUDED_GIGABYTES_BANDWIDTH, org) then Some(p.includedGigabytesBandwidth)
    else if k == OrgKey(PACKAGES_TOTAL_GIGABYTES_BANDWIDTH_USED, org) then Some(p.totalGigabytesBandwidthUsed)
    else if k == OrgKey(PACKAGES_TOTAL_PAID_GIGABYTES_BANDWIDTH_USED, org) then Some(p.totalPaidGigabytesBandwidthUsed)
    else None
  }

  function StorageWrite(org: Organisation, s: SharedStorageBilling, k: SeriesKey): Option<Sample>
  {
    if k == OrgKey(SHARED_STORAGE_DAYS_LEFT_IN_BILLING_CYCLE, org) then Some(s.daysLeftInBillingCycle)
    else if k == OrgKey(SHARED_STORAGE_ESTIMATED_PAID_STORAGE_FOR_MONTH, org) then Some(s.estimatedPaidStorageForMonth)
    else if k == OrgKey(SHARED_STORAGE_ESTIMATED_STORAGE_FOR_MONTH, org) then Some(s.estimatedStorageForMonth)
    else None
  }

  /** The value polling `org` with answers `f` gives series `k`, or None when
      it leaves `k` alone. Only series labelled with `org` are ever written. */
  function OrgWrite(org: Organisation, f: OrgFetch, k: SeriesKey): (v: Option<Sample>)
    ensures v.Some? ==> |k.labels| > 0 && k.labels[0] == org
  {
    if f.actions.Err? then None
    else if ActionsWrite(org, f.actions.value, k).Some? then ActionsWrite(org, f.actions.value, k)
    else if f.packages.Err? then None
    else if PackagesWrite(org, f.packages.value, k).Some? then PackagesWrite(org, f.packages.value, k)
    else if f.sharedStorage.Err? then None
    else StorageWrite(org, f.sharedStorage.value, k)
  }

  lemma ActionsPointwise(m: Series, org: Organisation, a: ActionsBilling, k: SeriesKey)
    ensures Lookup(ActionsPublished(m, org, a), k) ==
      if ActionsWrite(org, a, k).Some? then ActionsWrite(org, a, k) else Lookup(m, k)
  {
    LabelInjective(Ubuntu, MacOS);
    LabelInjective(MacOS, Windows);
    LabelInjective(Windows, Ubuntu);
    if k.metric == ACTIONS_MINUTES_USED_BREAKDOWN && |k.labels| == 2 && k.labels[0] == org && ClassOfLabel(k.labels[1]).Some? {
      assert k == BreakdownKey(org, ClassOfLabel(k.labels[1]).value);
    }
  }

  lemma PackagesPointwise(m: Series, org: Organisation, p: PackagesBilling, k: SeriesKey)
    ensures Lookup(PackagesPublished(m, org, p), k) ==
      if PackagesWrite(org, p, k).Some? then PackagesWrite(org, p, k) else Lookup(m, k)
  {
  }

  lemma StoragePointwise(m: Series, org: Organisation, s: SharedStorageBilling, k: SeriesKey)
    ensures Lookup(StoragePublished(m, org, s), k) ==
      if StorageWrite(org, s, k).Some? then StorageWrite(org, s, k) else Lookup(m, k)
  {
  }

  /** The three categories write disjoint series: their gauge names differ
      right after the common "github_org_billing_" prefix. */
  lemma ActionsAndPackagesDisjoint(org: Organisation, a: ActionsBilling, p: PackagesBilling, k: SeriesKey)
    ensures ActionsWrite(org, a, k).Some? ==> PackagesWrite(org, p, k).None?
  {
    assert ACTIONS_TOTAL_MINUTES_USED[19] == ACTIONS_TOTAL_PAID_MINUTES_USED[19] == 'a';
    assert ACTIONS_INCLUDED_MINUTES[19] == ACTIONS_MINUTES_USED_BREAKDOWN[19] == 'a';
    assert PACKAGES_TOTAL_GIGABYTES_BANDWIDTH_USED[19] == PACKAGES_TOTAL_PAID_GIGABYTES_BANDWIDTH_USED[19] == 'p';
    assert PACKAGES_INCLUDED_GIGABYTES_BANDWIDTH[19] == 'p';
  }

  lemma StorageDisjoint(org: Organisation, a: ActionsBilling, p: PackagesBilling, s: SharedStorageBilling, k: SeriesKey)
    ensures StorageWrite(org, s, k).Some? ==> ActionsWrite(org, a, k).None? && PackagesWrite(org, p, k).None?
  {
    assert ACTIONS_TOTAL_MINUTES_USED[19] == ACTIONS_TOTAL_PAID_MINUTES_USED[19] == 'a';
    assert ACTIONS_INCLUDED_MINUTES[19] == ACTIONS_MINUTES_USED_BREAKDOWN[19] == 'a';
    assert PACKAGES_TOTAL_GIGABYTES_BANDWIDTH_USED[19] == PACKAGES_TOTAL_PAID_GIGABYTES_BANDWIDTH_USED[19] == 'p';
    assert PACKAGES_INCLUDED_GIGABYTES_BANDWIDTH[19] == 'p';
    assert SHARED_STORAGE_DAYS_LEFT_IN_BILLING_CYCLE[19] == SHARED_STORAGE_ESTIMATED_PAID_STORAGE_FOR_MONTH[19] == 's';
    assert SHARED_STORAGE_ESTIMATED_STORAGE_FOR_MONTH[19] == 's';
  }

  lemma OrgPolledPointwise(m: Series, org: Organisation, f: OrgFetch, k: SeriesKey)
    ensures Lookup(OrgPolled(m, org, f), k) ==
      if OrgWrite(org, f, k).Some? then OrgWrite(org, f, k) else Lookup(m, k)
  {
    match f.actions
    case Err(_) =>
    case Ok(a) =>
      var m1 := ActionsPublished(m, org, a);
      ActionsPointwise(m, org, a, k);
      match f.packages
      case Err(_) =>
      case Ok(p) =>
        var m2 := PackagesPublished(m1, org, p);
        PackagesPointwise(m1, org, p, k);
        match f.sharedStorage
        case Err(_) =>
          ActionsAndPackagesDisjoint(org, a, p, k);
        case Ok(s) =>
          StoragePointwise(m2, org, s, k);
          ActionsAndPackagesDisjoint(org, a, p, k);
          StorageDisjoint(org, a, p, s, k);
  }

  /** A cycle's effect on each series: a series labelled with a polled
      organisation gets that organisation's write, every other series keeps
      its value, whatever the other organisations' answers. */
  lemma {:induction false} OrgsCyclePointwise(m: Series, orgs: seq<Organisation>, fetch: GetBilling, k: SeriesKey)
    ensures Lookup(OrgsCycle(m, orgs, fetch), k) ==
      if |k.labels| > 0 && k.labels[0] in orgs && OrgWrite(k.labels[0], fetch(k.labels[0]), k).Some?
      then OrgWrite(k.labels[0], fetch(k.labels[0]), k)
      else Lookup(m, k)
  {
    if orgs != [] {
      var prefix, last := orgs[..|orgs| - 1], orgs[|orgs| - 1];
      assert orgs == prefix + [last];
      OrgsCyclePointwise(m, prefix, fetch, k);
      OrgPolledPointwise(OrgsCycle(m, prefix, fetch), last, fetch(last), k);
    }
  }

  // ---------------------------------------------------------------------
  // Properties of one organisation poll
  // ---------------------------------------------------------------------

  /** Actions gauges are published iff the actions fetch succeeded; when it
      failed nothing at all is published for the organisation. */
  lemma ActionsPublishedIffFetched(m: Series, org: Organisation, f: OrgFetch)
    ensures f.actions.Ok? ==>
      Lookup(OrgPolled(m, org, f), OrgKey(ACTIONS_TOTAL_MINUTES_USED, org)) == Some(f.actions.value.totalMinutesUsed) &&
      Lookup(OrgPolled(m, org, f), OrgKey(ACTIONS_TOTAL_PAID_MINUTES_USED, org)) == Some(f.actions.value.totalPaidMinutesUsed) &&
      Lookup(OrgPolled(m, org, f), OrgKey(ACTIONS_INCLUDED_MINUTES, org)) == Some(f.actions.value.includedMinutes)
    ensures f.actions.Err? ==> OrgPolled(m, org, f) == m
  {
    OrgPolledPointwise(m, org, f, OrgKey(ACTIONS_TOTAL_MINUTES_USED, org));
    OrgPolledPointwise(m, org, f, OrgKey(ACTIONS_TOTAL_PAID_MINUTES_USED, org));
    OrgPolledPointwise(m, org, f, OrgKey(ACTIONS_INCLUDED_MINUTES, org));
  }

  /** Each reported minutes-breakdown class sets its (organisation, os)
      series; an unreported class leaves it as it was. */
  lemma BreakdownSetsReportedClasses(m: Series, org: Organisation, f: OrgFetch, c: HostClass)
    requires f.actions.Ok?
    ensures Lookup(OrgPolled(m, org, f), BreakdownKey(org, c)) ==
      var v := MinutesFor(f.actions.value.minutesUsedBreakdown, c);
      if v.Some? then v else Lookup(m, BreakdownKey(org, c))
  {
    LabelInjective(c, c);
    assert BreakdownKey(org, c).labels == [org, Label(c)];
    OrgPolledPointwise(m, org, f, BreakdownKey(org, c));
  }

  /** Packages gauges are published iff the actions and packages fetches both
      succeeded: a packages failure still leaves actions published. */
  lemma PackagesPublishedIffPrefixFetched(m: Series, org: Organisation, f: OrgFetch)
    ensures f.actions.Ok? && f.packages.Ok? ==>
      Lookup(OrgPolled(m, org, f), OrgKey(PACKAGES_TOTAL_GIGABYTES_BANDWIDTH_USED, org)) == Some(f.packages.value.totalGigabytesBandwidthUsed) &&
      Lookup(OrgPolled(m, org, f), OrgKey(PACKAGES_TOTAL_PAID_GIGABYTES_BANDWIDTH_USED, org)) == Some(f.packages.value.totalPaidGigabytesBandwidthUsed) &&
      Lookup(OrgPolled(m, org, f), OrgKey(PACKAGES_INCLUDED_GIGABYTES_BANDWIDTH, org)) == Some(f.packages.value.includedGigabytesBandwidth)
    ensures !(f.actions.Ok? && f.packages.Ok?) ==>
      Lookup(OrgPolled(m, org, f), OrgKey(PACKAGES_TOTAL_GIGABYTES_BANDWIDTH_USED, org)) == Lookup(m, OrgKey(PACKAGES_TOTAL_GIGABYTES_BANDWIDTH_USED, org)) &&
      Lookup(OrgPolled(m, org, f), OrgKey(PACKAGES_TOTAL_PAID_GIGABYTES_BANDWIDTH_USED, org)) == Lookup(m, OrgKey(PACKAGES_TOTAL_PAID_GIGABYTES_BANDWIDTH_USED, org)) &&
      Lookup(OrgPolled(m, org, f), OrgKey(PACKAGES_INCLUDED_GIGABYTES_BANDWIDTH, org)) == Lookup(m, OrgKey(PACKAGES_INCLUDED_GIGABYTES_BANDWIDTH, org))
  {
    OrgPolledPointwise(m, org, f, OrgKey(PACKAGES_TOTAL_GIGABYTES_BANDWIDTH_USED, org));
    OrgPolledPointwise(m, org, f, OrgKey(PACKAGES_TOTAL_PAID_GIGABYTES_BANDWIDTH_USED, org));
    OrgPolledPointwise(m, org, f, OrgKey(PACKAGES_INCLUDED_GIGABYTES_BANDWIDTH, org));
  }

  /** Shared-storage gauges are published iff all three fetches succeeded: a
      storage failure still leaves actions and packages published. */
  lemma StoragePublishedIffAllFetched(m: Series, org: Organisation, f: OrgFetch)
    ensures OrgOutcome(f).Ok? ==>
      Lookup(OrgPolled(m, org, f), OrgKey(SHARED_STORAGE_DAYS_LEFT_IN_BILLING_CYCLE, org)) == Some(f.sharedStorage.value.daysLeftInBillingCycle) &&
      Lookup(OrgPolled(m, org, f), OrgKey(SHARED_STORAGE_ESTIMATED_PAID_STORAGE_FOR_MONTH, org)) == Some(f.sharedStorage.value.estimatedPaidStorageForMonth) &&
      Lookup(OrgPolled(m, org, f), OrgKey(SHARED_STORAGE_ESTIMATED_STORAGE_FOR_MONTH, org)) == Some(f.sharedStorage.value.estimatedStorageForMonth)
    ensures OrgOutcome(f).Err? ==>
      Lookup(OrgPolled(m, org, f), OrgKey(SHARED_STORAGE_DAYS_LEFT_IN_BILLING_CYCLE, org)) == Lookup(m, OrgKey(SHARED_STORAGE_DAYS_LEFT_IN_BILLING_CYCLE, org)) &&
      Lookup(OrgPolled(m, org, f), OrgKey(SHARED_STORAGE_ESTIMATED_PAID_STORAGE_FOR_MONTH, org)) == Lookup(m, OrgKey(SHARED_STORAGE_ESTIMATED_PAID_STORAGE_FOR_MONTH, org)) &&
      Lookup(OrgPolled(m, org, f), OrgKey(SHARED_STORAGE_ESTIMATED_STORAGE_FOR_MONTH, org)) == Lookup(m, OrgKey(SHARED_STORAGE_ESTIMATED_STORAGE_FOR_MONTH, org))
  {
    OrgPolledPointwise(m, org, f, OrgKey(SHARED_STORAGE_DAYS_LEFT_IN_BILLING_CYCLE, org));
    OrgPolledPointwise(m, org, f, OrgKey(SHARED_STORAGE_ESTIMATED_PAID_STORAGE_FOR_MONTH, org));
    OrgPolledPointwise(m, org, f, OrgKey(SHARED_STORAGE_ESTIMATED_STORAGE_FOR_MONTH, org));
  }

  /** Polling one organisation changes no series labelled with another. */
  lemma OrgPollTouchesOnlyItsSeries(m: Series, org: Organisation, f: OrgFetch, k: SeriesKey)
    requires |k.labels| == 0 || k.labels[0] != org
    ensures Lookup(OrgPolled(m, org, f), k) == Lookup(m, k)
  {
    OrgPolledPointwise(m, org, f, k);
  }

  // ---------------------------------------------------------------------
  // Properties of one cycle
  // ---------------------------------------------------------------------

  /** Every organisation is polled, whatever the others' answers: after a
      cycle each polled organisation's series hold exactly what polling it
      alone would have written. */
  lemma CyclePollsEveryOrg(m: Series, orgs: seq<Organisation>, fetch: GetBilling, org: Organisation, k: SeriesKey)
    requires org in orgs && |k.labels| > 0 && k.labels[0] == org
    ensures Lookup(OrgsCycle(m, orgs, fetch), k) == Lookup(OrgPolled(m, org, fetch(org)), k)
  {
    OrgsCyclePointwise(m, orgs, fetch, k);
    OrgPolledPointwise(m, org, fetch(org), k);
  }

  /** Series of organisations outside the cycle are left alone. */
  lemma CycleTouchesOnlyConfiguredOrgs(m: Series, orgs: seq<Organisation>, fetch: GetBilling, k: SeriesKey)
    requires |k.labels| == 0 || k.labels[0] !in orgs
    ensures Lookup(OrgsCycle(m, orgs, fetch), k) == Lookup(m, k)
  {
    OrgsCyclePointwise(m, orgs, fetch, k);
  }
}
