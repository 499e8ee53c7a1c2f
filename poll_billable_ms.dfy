/** The usage task (src/tasks/poll_billable_ms.rs): one cycle walks every
    cached repository's workflow list and, per workflow, publishes the
    billable milliseconds of each host class the upstream reports. */
module PollBillableMs {
  import opened Wrappers
  import opened Types
  import opened Metrics
  import opened Cache

  /** Labels: owner, repository, workflow, os. */
  const BILLABLE_MS: string := "github_actions_billable_ms"

  datatype BillableTime = BillableTime(totalMs: Sample)

  /** The per-class figures; a class the upstream did not report is None. */
  datatype Billable = Billable(ubuntu: Option<BillableTime>, macos: Option<BillableTime>, windows: Option<BillableTime>)

  datatype Usage = Usage(billable: Billable)

  /** `repos/{owner}/{repo}/actions/workflows/{workflow_id}/timing`. */
  datatype TimingRequest = TimingRequest(owner: string, repo: string, workflowId: WorkflowId)

  /** The upstream timing call, answered once per request in a cycle. */
  type GetTiming = TimingRequest -> Result<Usage, FetchError>

  /** The request is keyed by the workflow's id. */
  function TimingRequestFor(repo: Repository, w: Workflow): TimingRequest
  {
    TimingRequest(repo.owner, repo.name, w.id)
  }

  function TimeFor(b: Billable, c: HostClass): Option<Sample>
  {
    var t := match c
      case Ubuntu => b.ubuntu
      case MacOS => b.macos
      case Windows => b.windows;
    if t.Some? then Some(t.value.totalMs) else None
  }

  /** The series is keyed by the workflow's name, not its id. */
  function BillableKey(repo: Repository, workflowName: string, c: HostClass): SeriesKey
  {
    SeriesKey(BILLABLE_MS, [repo.owner, repo.name, workflowName, Label(c)])
  }

  /** The three conditional `set` calls, in source order. */
  function PublishUsage(m: Series, repo: Repository, w: Workflow, u: Usage): Series
  {
    var m1 := SetIfPresent(m, BillableKey(repo, w.name, Ubuntu), TimeFor(u.billable, Ubuntu));
    var m2 := SetIfPresent(m1, BillableKey(repo, w.name, MacOS), TimeFor(u.billable, MacOS));
    SetIfPresent(m2, BillableKey(repo, w.name, Windows), TimeFor(u.billable, Windows))
  }

  /** The registry after `poll_billable_ms_for_workflow` with the given answer. */
  function PolledWorkflow(m: Series, repo: Repository, w: Workflow, res: Result<Usage, FetchError>): Series
  {
    match res
    case Ok(u) => PublishUsage(m, repo, w, u)
    case Err(_) => m
  }

  /** The registry after polling the workflows `ws` of `repo` in order. */
  function PolledRepository(m: Series, repo: Repository, ws: seq<Workflow>, fetch: GetTiming): Series
  {
    if ws == [] then m
    else
      var last := ws[|ws| - 1];
      PolledWorkflow(PolledRepository(m, repo, ws[..|ws| - 1], fetch), repo, last, fetch(TimingRequestFor(repo, last)))
  }

  /** The registry after one usage cycle over the repositories `order`. */
  function UsageCycle(m: Series, order: seq<Repository>, lists: map<Repository, seq<Workflow>>, fetch: GetTiming): Series
    requires forall r :: r in order ==> r in lists
  {
    if order == [] then m
    else
      var last := order[|order| - 1];
      PolledRepository(UsageCycle(m, order[..|order| - 1], lists, fetch), last, lists[last], fetch)
  }

  /** `poll_billable_ms_for_workflow`: one request; on success each reported
      host class sets its series, on failure the error returns before any
      series is set. */
  method PollBillableMsForWorkflow(reg: Registry, repo: Repository, w: Workflow, fetch: GetTiming)
    returns (outcome: Result<(), FetchError>)
    modifies reg
    ensures reg.series == PolledWorkflow(old(reg.series), repo, w, fetch(TimingRequestFor(repo, w)))
    ensures outcome.Err? <==> fetch(TimingRequestFor(repo, w)).Err?
  {
    var usage :- fetch(TimingRequestFor(repo, w));
    if usage.billable.ubuntu.Some? {
      reg.Set(BillableKey(repo, w.name, Ubuntu), usage.billable.ubuntu.value.totalMs);
    }
    if usage.billable.macos.Some? {
      reg.Set(BillableKey(repo, w.name, MacOS), usage.billable.macos.value.totalMs);
    }
    if usage.billable.windows.Some? {
      reg.Set(BillableKey(repo, w.name, Windows), usage.billable.windows.value.totalMs);
    }
    outcome := Ok(());
  }

  /** `poll_billable_ms`, one pass of its loop: for each cache key in order,
      a snapshot of its list is read and every workflow in it is polled; a
      failure is logged and passed over. Returns the failed (logged) pairs. */
  method PollBillableMs(cache: WorkflowCache, reg: Registry, fetch: GetTiming)
    returns (failed: seq<(Repository, Workflow)>)
    requires cache.Valid()
    modifies reg
    ensures reg.series == UsageCycle(old(reg.series), cache.order, cache.lists, fetch)
    ensures forall p :: p in failed <==>
      p.0 in cache.repos && p.1 in cache.lists[p.0] && fetch(TimingRequestFor(p.0, p.1)).Err?
  {
    failed := [];
    var i := 0;
    while i < |cache.order|
      invariant 0 <= i <= |cache.order|
      invariant reg.series == UsageCycle(old(reg.series), cache.order[..i], cache.lists, fetch)
      invariant forall p :: p in failed <==>
        p.0 in cache.order[..i] && p.1 in cache.lists[p.0] && fetch(TimingRequestFor(p.0, p.1)).Err?
    {
      var repo := cache.order[i];
      var workflows := cache.lists[repo];
      ghost var start := reg.series;
      var j := 0;
      while j < |workflows|
        invariant 0 <= j <= |workflows|
        invariant reg.series == PolledRepository(start, repo, workflows[..j], fetch)
        invariant forall p :: p in failed <==>
          (p.0 in cache.order[..i] && p.1 in cache.lists[p.0] && fetch(TimingRequestFor(p.0, p.1)).Err?) ||
          (p.0 == repo && p.1 in workflows[..j] && fetch(TimingRequestFor(p.0, p.1)).Err?)
      {
        var w := workflows[j];
        var outcome := PollBillableMsForWorkflow(reg, repo, w, fetch);
        if outcome.Err? {
          failed := failed + [(repo, w)];
        }
        assert workflows[..j + 1] == workflows[..j] + [w];
        j := j + 1;
      }
      assert workflows[..j] == workflows;
      assert cache.order[..i + 1] == cache.order[..i] + [repo];
      i := i + 1;
    }
    assert cache.order[..i] == cache.order;
  }

  // ---------------------------------------------------------------------
  // What a poll writes, series by series
  // ---------------------------------------------------------------------

  /** The repository a billable series is labelled with. */
  function SeriesRepository(k: SeriesKey): Option<Repository>
  {
    if k.metric == BILLABLE_MS && |k.labels| == 4 then Some(Repository(k.labels[0], k.labels[1])) else None
  }

  /** The value polling workflow `w` of `repo` with answer `res` gives series
      `k`, or None when it leaves `k` alone. */
  function UsageWrite(repo: Repository, w: Workflow, res: Result<Usage, FetchError>, k: SeriesKey): (v: Option<Sample>)
    ensures v.Some? ==> SeriesRepository(k) == Some(repo) && k.labels[2] == w.name
  {
    match res
    case Err(_) => None
    case Ok(u) =>
      if SeriesRepository(k) == Some(repo) && k.labels[2] == w.name then
        match ClassOfLabel(k.labels[3])
        case Some(c) => TimeFor(u.billable, c)
        case None => None
      else None
  }

  /** The write of the last workflow in `ws` that writes `k`. */
  function LastUsageWrite(repo: Repository, ws: seq<Workflow>, fetch: GetTiming, k: SeriesKey): (v: Option<Sample>)
    ensures v.Some? ==> SeriesRepository(k) == Some(repo)
  {
    if ws == [] then None
    else
      var last := ws[|ws| - 1];
      var v := UsageWrite(repo, last, fetch(TimingRequestFor(repo, last)), k);
      if v.Some? then v else LastUsageWrite(repo, ws[..|ws| - 1], fetch, k)
  }

  /** The write a whole cycle makes to `k`: that of the repository `k` is
      labelled with, if it is one of the cycle's. */
  function CycleWrite(order: seq<Repository>, lists: map<Repository, seq<Workflow>>, fetch: GetTiming, k: SeriesKey): Option<Sample>
    requires forall r :: r in order ==> r in lists
  {
    match SeriesRepository(k)
    case Some(r) => if r in order then LastUsageWrite(r, lists[r], fetch, k) else None
    case None => None
  }

  lemma PolledWorkflowPointwise(m: Series, repo: Repository, w: Workflow, res: Result<Usage, FetchError>, k: SeriesKey)
    ensures Lookup(PolledWorkflow(m, repo, w, res), k) ==
      if UsageWrite(repo, w, res, k).Some? then UsageWrite(repo, w, res, k) else Lookup(m, k)
  {
    if res.Ok? {
      LabelInjective(Ubuntu, MacOS);
      LabelInjective(MacOS, Windows);
      LabelInjective(Windows, Ubuntu);
      if SeriesRepository(k) == Some(repo) && k.labels[2] == w.name && ClassOfLabel(k.labels[3]).Some? {
        var c := ClassOfLabel(k.labels[3]).value;
        assert k == BillableKey(repo, w.name, c);
      }
    }
  }

  lemma {:induction false} PolledRepositoryPointwise(m: Series, repo: Repository, ws: seq<Workflow>, fetch: GetTiming, k: SeriesKey)
    ensures Lookup(PolledRepository(m, repo, ws, fetch), k) ==
      if LastUsageWrite(repo, ws, fetch, k).Some? then LastUsageWrite(repo, ws, fetch, k) else Lookup(m, k)
  {
    if ws != [] {
      var last := ws[|ws| - 1];
      PolledRepositoryPointwise(m, repo, ws[..|ws| - 1], fetch, k);
      PolledWorkflowPointwise(PolledRepository(m, repo, ws[..|ws| - 1], fetch), repo, last, fetch(TimingRequestFor(repo, last)), k);
    }
  }

  /** A cycle's effect on each series, whatever the iteration order. */
  lemma {:induction false} UsageCyclePointwise(m: Series, order: seq<Repository>, lists: map<Repository, seq<Workflow>>, fetch: GetTiming, k: SeriesKey)
    requires Distinct(order)
    requires forall r :: r in order ==> r in lists
    ensures Lookup(UsageCycle(m, order, lists, fetch), k) ==
      if CycleWrite(order, lists, fetch, k).Some? then CycleWrite(order, lists, fetch, k) else Lookup(m, k)
  {
    if order != [] {
      var prefix, last := order[..|order| - 1], order[|order| - 1];
      assert order == prefix + [last];
      UsageCyclePointwise(m, prefix, lists, fetch, k);
      PolledRepositoryPointwise(UsageCycle(m, prefix, lists, fetch), last, lists[last], fetch, k);
      if SeriesRepository(k) == Some(last) {
        assert last !in prefix;
      }
    }
  }

  lemma {:induction false} LastUsageWriteAt(repo: Repository, ws: seq<Workflow>, fetch: GetTiming, k: SeriesKey, i: nat)
    requires i < |ws| && UsageWrite(repo, ws[i], fetch(TimingRequestFor(repo, ws[i])), k).Some?
    requires forall j :: i < j < |ws| ==> UsageWrite(repo, ws[j], fetch(TimingRequestFor(repo, ws[j])), k).None?
    ensures LastUsageWrite(repo, ws, fetch, k) == UsageWrite(repo, ws[i], fetch(TimingRequestFor(repo, ws[i])), k)
  {
    if i < |ws| - 1 {
      LastUsageWriteAt(repo, ws[..|ws| - 1], fetch, k, i);
    }
  }

  lemma {:induction false} LastUsageWriteNone(repo: Repository, ws: seq<Workflow>, fetch: GetTiming, k: SeriesKey)
    requires forall j :: 0 <= j < |ws| ==> UsageWrite(repo, ws[j], fetch(TimingRequestFor(repo, ws[j])), k).None?
    ensures LastUsageWrite(repo, ws, fetch, k).None?
  {
    if ws != [] {
      LastUsageWriteNone(repo, ws[..|ws| - 1], fetch, k);
    }
  }

  // ---------------------------------------------------------------------
  // Properties of one poll
  // ---------------------------------------------------------------------

  /** Each reported host class sets exactly its series to its total_ms; an
      unreported class leaves its series as it was, neither zeroed nor removed. */
  lemma PollSetsReportedClasses(m: Series, repo: Repository, w: Workflow, u: Usage, c: HostClass)
    ensures Lookup(PolledWorkflow(m, repo, w, Ok(u)), BillableKey(repo, w.name, c)) ==
      if TimeFor(u.billable, c).Some? then TimeFor(u.billable, c) else Lookup(m, BillableKey(repo, w.name, c))
  {
    LabelInjective(c, c);
    PolledWorkflowPointwise(m, repo, w, Ok(u), BillableKey(repo, w.name, c));
  }

  /** A failed request changes no series. */
  lemma FailedPollChangesNothing(m: Series, repo: Repository, w: Workflow, e: FetchError)
    ensures PolledWorkflow(m, repo, w, Err(e)) == m
  {
  }

  /** A poll touches only series labelled with its repository and workflow name. */
  lemma PollTouchesOnlyItsSeries(m: Series, repo: Repository, w: Workflow, res: Result<Usage, FetchError>, k: SeriesKey)
    requires k.metric != BILLABLE_MS || |k.labels| != 4 || k.labels[0] != repo.owner ||
             k.labels[1] != repo.name || k.labels[2] != w.name
    ensures Lookup(PolledWorkflow(m, repo, w, res), k) == Lookup(m, k)
  {
    PolledWorkflowPointwise(m, repo, w, res, k);
  }

  /** The series key is a function of repository, workflow name and host
      class, and tells them apart: the same logical series always gets the
      same key, and different ones never share a key. */
  lemma BillableKeyInjective(r1: Repository, n1: string, c1: HostClass, r2: Repository, n2: string, c2: HostClass)
    ensures BillableKey(r1, n1, c1) == BillableKey(r2, n2, c2) <==> r1 == r2 && n1 == n2 && c1 == c2
  {
    LabelInjective(c1, c2);
    if BillableKey(r1, n1, c1) == BillableKey(r2, n2, c2) {
      assert BillableKey(r1, n1, c1).labels[3] == Label(c1);
    }
  }

  /** Two workflows with the same name write the same series, whatever their
      ids: the one polled later wins. */
  lemma SameNameLaterWins(m: Series, repo: Repository, w1: Workflow, w2: Workflow,
                          res1: Result<Usage, FetchError>, u2: Usage, c: HostClass)
    requires w1.name == w2.name && TimeFor(u2.billable, c).Some?
    ensures Lookup(PolledWorkflow(PolledWorkflow(m, repo, w1, res1), repo, w2, Ok(u2)), BillableKey(repo, w1.name, c)) ==
      TimeFor(u2.billable, c)
  {
    PollSetsReportedClasses(PolledWorkflow(m, repo, w1, res1), repo, w2, u2, c);
  }

  // ---------------------------------------------------------------------
  // Properties of one cycle
  // ---------------------------------------------------------------------

  /** Every workflow of every cached repository is polled, and failures of
      others do not stop it: a workflow's reported class ends up published
      unless a later workflow with the same name in the same list publishes
      that class too. */
  lemma CyclePublishesEveryWorkflow(m: Series, order: seq<Repository>, lists: map<Repository, seq<Workflow>>,
                                    fetch: GetTiming, repo: Repository, i: nat, c: HostClass)
    requires Distinct(order) && forall r :: r in order ==> r in lists
    requires repo in order && i < |lists[repo]|
    requires fetch(TimingRequestFor(repo, lists[repo][i])).Ok?
    requires TimeFor(fetch(TimingRequestFor(repo, lists[repo][i])).value.billable, c).Some?
    requires forall j :: i < j < |lists[repo]| && lists[repo][j].name == lists[repo][i].name ==>
      fetch(TimingRequestFor(repo, lists[repo][j])).Err? ||
      TimeFor(fetch(TimingRequestFor(repo, lists[repo][j])).value.billable, c).None?
    ensures Lookup(UsageCycle(m, order, lists, fetch), BillableKey(repo, lists[repo][i].name, c)) ==
      TimeFor(fetch(TimingRequestFor(repo, lists[repo][i])).value.billable, c)
  {
    var ws, k := lists[repo], BillableKey(repo, lists[repo][i].name, c);
    LabelInjective(c, c);
    forall j | i < j < |ws| ensures UsageWrite(repo, ws[j], fetch(TimingRequestFor(repo, ws[j])), k).None? {
      if ws[j].name != ws[i].name {
        assert k.labels[2] != ws[j].name;
      }
    }
    LastUsageWriteAt(repo, ws, fetch, k, i);
    UsageCyclePointwise(m, order, lists, fetch, k);
  }

  /** A series whose workflows all failed to be fetched keeps its last value. */
  lemma CycleKeepsSeriesOfFailedWorkflows(m: Series, order: seq<Repository>, lists: map<Repository, seq<Workflow>>,
                                          fetch: GetTiming, repo: Repository, name: string, c: HostClass)
    requires Distinct(order) && forall r :: r in order ==> r in lists
    requires repo in lists
    requires forall j :: 0 <= j < |lists[repo]| && lists[repo][j].name == name ==>
      fetch(TimingRequestFor(repo, lists[repo][j])).Err?
    ensures Lookup(UsageCycle(m, order, lists, fetch), BillableKey(repo, name, c)) == Lookup(m, BillableKey(repo, name, c))
  {
    var ws, k := lists[repo], BillableKey(repo, name, c);
    forall j | 0 <= j < |ws| ensures UsageWrite(repo, ws[j], fetch(TimingRequestFor(repo, ws[j])), k).None? {
      if ws[j].name != name {
        assert k.labels[2] != ws[j].name;
      }
    }
    LastUsageWriteNone(repo, ws, fetch, k);
    UsageCyclePointwise(m, order, lists, fetch, k);
  }

  /** A repository whose cached list is empty has all its series left at
      their last values. */
  lemma EmptyListPublishesNothing(m: Series, order: seq<Repository>, lists: map<Repository, seq<Workflow>>,
                                  fetch: GetTiming, repo: Repository, k: SeriesKey)
    requires Distinct(order) && forall r :: r in order ==> r in lists
    requires repo in lists && lists[repo] == [] && SeriesRepository(k) == Some(repo)
    ensures Lookup(UsageCycle(m, order, lists, fetch), k) == Lookup(m, k)
  {
    UsageCyclePointwise(m, order, lists, fetch, k);
  }

  /** Series of other metrics, and of repositories outside the cycle, are
      left alone. */
  lemma CycleTouchesOnlyCachedRepositories(m: Series, order: seq<Repository>, lists: map<Repository, seq<Workflow>>,
                                           fetch: GetTiming, k: SeriesKey)
    requires Distinct(order) && forall r :: r in order ==> r in lists
    requires SeriesRepository(k).None? || SeriesRepository(k).value !in order
    ensures Lookup(UsageCycle(m, order, lists, fetch), k) == Lookup(m, k)
  {
    UsageCyclePointwise(m, order, lists, fetch, k);
  }
}
