/** What `main` does before and between the tasks (src/main.rs): turning the
    configured repository and organisation values into the tracked sets,
    building the workflow cache, and handing the same cache to discovery and
    usage. */
module Bootstrap {
  import opened Wrappers
  import opened Types
  import opened Metrics
  import opened Cache
  import PollWorkflows
  import PollBillableMs

  /** `values_t!` failing: the first value that did not parse. */
  datatype ConfigError = InvalidValue(argument: string)

  /** `values_t!(matches, "github_repos", Repository)`: parse every value,
      stopping at the first that fails. */
  function ParseRepositories(values: seq<string>): (r: Result<seq<Repository>, ConfigError>)
    ensures r.Ok? <==> forall i :: 0 <= i < |values| ==> '/' in values[i]
    ensures r.Ok? ==> (|r.value| == |values| &&
      forall i :: 0 <= i < |values| ==> ParseRepository(values[i]) == Ok(r.value[i]))
    ensures r.Err? ==>
      exists i :: 0 <= i < |values| && values[i] == r.error.argument && '/' !in values[i] &&
                  (forall j :: 0 <= j < i ==> '/' in values[j])
  {
    if values == [] then Ok([])
    else match ParseRepository(values[0])
      case Err(_) => Err(InvalidValue(values[0]))
      case Ok(repo) =>
        match ParseRepositories(values[1..])
        case Err(e) =>
          ghost var i :| 0 <= i < |values[1..]| && values[1..][i] == e.argument && '/' !in values[1..][i] &&
            forall j :: 0 <= j < i ==> '/' in values[1..][j];
          assert values[i + 1] == e.argument;
          Err(e)
        case Ok(rest) =>
          ParsedPrepend(values, repo, rest);
          Ok([repo] + rest)
  }

  /** A parsed head followed by a parsed tail is a parsed whole. */
  lemma ParsedPrepend(values: seq<string>, repo: Repository, rest: seq<Repository>)
    requires values != [] && ParseRepository(values[0]) == Ok(repo)
    requires |rest| == |values| - 1
    requires forall i :: 0 <= i < |rest| ==> ParseRepository(values[1..][i]) == Ok(rest[i])
    ensures forall i :: 0 <= i < |values| ==> ParseRepository(values[i]) == Ok(([repo] + rest)[i])
  {
    forall i | 0 < i < |values| ensures ParseRepository(values[i]) == Ok(([repo] + rest)[i]) {
      assert values[i] == values[1..][i - 1];
    }
  }

  /** The repositories to track: none when the option never occurs (its
      default "" is never parsed), otherwise every value parsed. */
  function ConfiguredRepositories(occurrences: nat, values: seq<string>): Result<seq<Repository>, ConfigError>
  {
    if occurrences > 0 then ParseRepositories(values) else Ok([])
  }

  /** The organisations to track: none when the option never occurs. */
  function ConfiguredOrganisations(occurrences: nat, values: seq<string>): seq<Organisation>
  {
    if occurrences > 0 then values else []
  }

  /** An absent option means nothing is tracked; a present one fails exactly
      when one of its values has no '/'. */
  lemma ConfiguredRepositoriesCases(occurrences: nat, values: seq<string>)
    ensures occurrences == 0 ==> ConfiguredRepositories(occurrences, values) == Ok([]) &&
                                 ConfiguredOrganisations(occurrences, values) == []
    ensures occurrences > 0 ==>
      (ConfiguredRepositories(occurrences, values).Err? <==> exists i :: 0 <= i < |values| && '/' !in values[i])
  {
  }

  /** What the tasks are started with. */
  datatype Started = Started(cache: WorkflowCache, orgs: seq<Organisation>)

  /** The configuration part of `main` up to the spawning of the tasks: a
      malformed repository value ends startup with an error before any cache
      exists or any task runs. The cache has one empty entry per distinct
      configured repository. */
  method Startup(repoOccurrences: nat, repoValues: seq<string>, orgOccurrences: nat, orgValues: seq<string>)
    returns (r: Result<Started, ConfigError>)
    ensures r.Err? <==> ConfiguredRepositories(repoOccurrences, repoValues).Err?
    ensures r.Err? ==> r.error == ConfiguredRepositories(repoOccurrences, repoValues).error
    ensures r.Ok? ==>
      var repos := ConfiguredRepositories(repoOccurrences, repoValues).value;
      fresh(r.value.cache) && r.value.cache.Valid() &&
      r.value.cache.repos == (set x | x in repos) &&
      (forall x :: x in r.value.cache.lists ==> r.value.cache.lists[x] == []) &&
      r.value.orgs == ConfiguredOrganisations(orgOccurrences, orgValues)
  {
    var repos :- ConfiguredRepositories(repoOccurrences, repoValues);
    var orgs := ConfiguredOrganisations(orgOccurrences, orgValues);
    var cache := new WorkflowCache(repos);
    r := Ok(Started(cache, orgs));
  }

  /** The discovery and usage tasks are given the same cache object, so a
      usage cycle reads the lists the preceding discovery cycle wrote. */
  method DiscoveryThenUsage(cache: WorkflowCache, reg: Registry,
                            list: PollWorkflows.ListWorkflows, timing: PollBillableMs.GetTiming)
    requires cache.Valid()
    modifies cache, reg
    ensures cache.Valid()
    ensures cache.lists == PollWorkflows.Discovered(old(cache.lists), list)
    ensures reg.series == PollBillableMs.UsageCycle(old(reg.series), cache.order, cache.lists, timing)
  {
    var requests, failedRepos := PollWorkflows.PollWorkflows(cache, list);
    var failedWorkflows := PollBillableMs.PollBillableMs(cache, reg, timing);
  }

  // ---------------------------------------------------------------------
  // End-to-end behaviour of discovery followed by usage
  // ---------------------------------------------------------------------

  /** "acme/widgets" is tracked; discovery finds workflow 42 named "ci"; the
      timing answer reports only ubuntu, 1000 ms. Afterwards the ubuntu series
      of (acme, widgets, ci) is 1000 and no macos or windows series exists. */
  lemma AcmeWidgetsScenario(list: PollWorkflows.ListWorkflows, timing: PollBillableMs.GetTiming, page: PollWorkflows.Page)
    requires list(PollWorkflows.ListRequest("acme", "widgets", 100)) == Ok(page)
    requires |page.items| == 1 && page.items[0].id == 42 && page.items[0].name == "ci"
    requires timing(PollBillableMs.TimingRequest("acme", "widgets", 42)) ==
      Ok(PollBillableMs.Usage(PollBillableMs.Billable(Some(PollBillableMs.BillableTime(1000.0)), None, None)))
    ensures ParseRepository("acme/widgets") == Ok(Repository("acme", "widgets"))
    ensures
      var repo := Repository("acme", "widgets");
      var lists := PollWorkflows.Discovered(map[repo := []], list);
      var m := PollBillableMs.UsageCycle(map[], [repo], lists, timing);
      lists[repo] == [Workflow(42, "ci")] &&
      Lookup(m, SeriesKey(PollBillableMs.BILLABLE_MS, ["acme", "widgets", "ci", UBUNTU])) == Some(1000.0) &&
      Lookup(m, SeriesKey(PollBillableMs.BILLABLE_MS, ["acme", "widgets", "ci", MACOS])) == None &&
      Lookup(m, SeriesKey(PollBillableMs.BILLABLE_MS, ["acme", "widgets", "ci", WINDOWS])) == None
  {
    assert "acme/widgets"[..4] == "acme" && "acme/widgets"[5..] == "widgets";
    ParseSplitsAtFirstSlash("acme/widgets", 4);
    var repo := Repository("acme", "widgets");
    var lists := PollWorkflows.Discovered(map[repo := []], list);
    assert PollWorkflows.RequestFor(repo) == PollWorkflows.ListRequest("acme", "widgets", 100);
    assert lists[repo] == PollWorkflows.ToWorkflows(page.items);
    assert lists[repo] == [Workflow(42, "ci")];
    AcmeWidgetsUsage(lists, timing);
  }

  /** The usage half of AcmeWidgetsScenario. */
  lemma AcmeWidgetsUsage(lists: map<Repository, seq<Workflow>>, timing: PollBillableMs.GetTiming)
    requires Repository("acme", "widgets") in lists && lists[Repository("acme", "widgets")] == [Workflow(42, "ci")]
    requires timing(PollBillableMs.TimingRequest("acme", "widgets", 42)) ==
      Ok(PollBillableMs.Usage(PollBillableMs.Billable(Some(PollBillableMs.BillableTime(1000.0)), None, None)))
    ensures
      var m := PollBillableMs.UsageCycle(map[], [Repository("acme", "widgets")], lists, timing);
      Lookup(m, SeriesKey(PollBillableMs.BILLABLE_MS, ["acme", "widgets", "ci", UBUNTU])) == Some(1000.0) &&
      Lookup(m, SeriesKey(PollBillableMs.BILLABLE_MS, ["acme", "widgets", "ci", MACOS])) == None &&
      Lookup(m, SeriesKey(PollBillableMs.BILLABLE_MS, ["acme", "widgets", "ci", WINDOWS])) == None
  {
    var repo, w := Repository("acme", "widgets"), Workflow(42, "ci");
    assert PollBillableMs.TimingRequestFor(repo, w) == PollBillableMs.TimingRequest("acme", "widgets", 42);
    var u := timing(PollBillableMs.TimingRequestFor(repo, w)).value;
    UsageOfOneWorkflow(repo, w, lists, timing);
    PollBillableMs.PollSetsReportedClasses(map[], repo, w, u, Ubuntu);
    PollBillableMs.PollSetsReportedClasses(map[], repo, w, u, MacOS);
    PollBillableMs.PollSetsReportedClasses(map[], repo, w, u, Windows);
  }

  /** A cycle over one repository whose list holds one workflow is one poll. */
  lemma UsageOfOneWorkflow(repo: Repository, w: Workflow, lists: map<Repository, seq<Workflow>>, timing: PollBillableMs.GetTiming)
    requires repo in lists && lists[repo] == [w]
    ensures PollBillableMs.UsageCycle(map[], [repo], lists, timing) ==
      PollBillableMs.PolledWorkflow(map[], repo, w, timing(PollBillableMs.TimingRequestFor(repo, w)))
  {
    assert [repo][..0] == [] && [w][..0] == [];
    assert PollBillableMs.UsageCycle(map[], [], lists, timing) == map[];
    assert PollBillableMs.PolledRepository(map[], repo, [], timing) == map[];
    assert PollBillableMs.UsageCycle(map[], [repo], lists, timing) == PollBillableMs.PolledRepository(map[], repo, [w], timing);
  }

  /** When discovery finds a repository's list empty, the following usage
      cycle publishes nothing for it and its series keep their last values. */
  lemma EmptiedRepositoryKeepsLastValues(m: Series, order: seq<Repository>, lists: map<Repository, seq<Workflow>>,
                                         list: PollWorkflows.ListWorkflows, timing: PollBillableMs.GetTiming,
                                         repo: Repository, k: SeriesKey)
    requires Distinct(order) && forall r :: r in order ==> r in lists
    requires repo in lists
    requires list(PollWorkflows.RequestFor(repo)).Ok? && list(PollWorkflows.RequestFor(repo)).value.items == []
    requires PollBillableMs.SeriesRepository(k) == Some(repo)
    ensures Lookup(PollBillableMs.UsageCycle(m, order, PollWorkflows.Discovered(lists, list), timing), k) == Lookup(m, k)
  {
    var after := PollWorkflows.Discovered(lists, list);
    assert after[repo] == [];
    PollBillableMs.EmptyListPublishesNothing(m, order, after, timing, repo, k);
  }

  /** Workflows beyond the first page are never cached, so the following
      usage cycle publishes nothing for them: a series of the repository
      whose workflow name is on no item of the fetched page keeps its last
      value. */
  lemma UnlistedWorkflowNotPublished(m: Series, order: seq<Repository>, lists: map<Repository, seq<Workflow>>,
                                     list: PollWorkflows.ListWorkflows, timing: PollBillableMs.GetTiming,
                                     repo: Repository, k: SeriesKey)
    requires Distinct(order) && forall r :: r in order ==> r in lists
    requires repo in lists && list(PollWorkflows.RequestFor(repo)).Ok?
    requires PollBillableMs.SeriesRepository(k) == Some(repo)
    requires forall i :: 0 <= i < |list(PollWorkflows.RequestFor(repo)).value.items| ==>
      list(PollWorkflows.RequestFor(repo)).value.items[i].name != k.labels[2]
    ensures Lookup(PollBillableMs.UsageCycle(m, order, PollWorkflows.Discovered(lists, list), timing), k) == Lookup(m, k)
  {
    var after := PollWorkflows.Discovered(lists, list);
    var ws := after[repo];
    PollWorkflows.FirstPageOnly(lists, list, repo);
    forall j | 0 <= j < |ws| ensures PollBillableMs.UsageWrite(repo, ws[j], timing(PollBillableMs.TimingRequestFor(repo, ws[j])), k).None? {
      assert ws[j].name != k.labels[2];
    }
    PollBillableMs.LastUsageWriteNone(repo, ws, timing, k);
    PollBillableMs.UsageCyclePointwise(m, order, after, timing, k);
  }
}
