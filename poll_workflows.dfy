/** The discovery task (src/tasks/poll_workflows.rs): one cycle lists the
    workflows of every cached repository and replaces that repository's
    cached list with what came back. */
module PollWorkflows {
  import opened Wrappers
  import opened Types
  import opened Cache

  /** The listing is requested with this page size, and only the first page
      is ever requested. */
  const PER_PAGE: nat := 100

  /** A workflow as the listing endpoint returns it; the cache keeps only
      its id and name. */
  datatype RemoteWorkflow = RemoteWorkflow(id: WorkflowId, name: string, path: string, state: string)

  /** One page of the listing. `next` points at the following page. */
  datatype Page = Page(items: seq<RemoteWorkflow>, totalCount: Option<nat>, next: Option<string>)

  /** `workflows(owner, repo).list().per_page(..).send()`. */
  datatype ListRequest = ListRequest(owner: string, repo: string, perPage: nat)

  /** The upstream listing call, answered once per request in a cycle. */
  type ListWorkflows = ListRequest -> Result<Page, FetchError>

  function RequestFor(repo: Repository): ListRequest
  {
    ListRequest(repo.owner, repo.name, PER_PAGE)
  }

  /** `page.into_iter().map(|w| Workflow { id: w.id, name: w.name }).collect()`. */
  function ToWorkflows(items: seq<RemoteWorkflow>): (ws: seq<Workflow>)
    ensures |ws| == |items|
    ensures forall i :: 0 <= i < |items| ==> ws[i] == Workflow(items[i].id, items[i].name)
  {
    if items == [] then []
    else
      var last := items[|items| - 1];
      ToWorkflows(items[..|items| - 1]) + [Workflow(last.id, last.name)]
  }

  /** The entry after one poll: the fetched page on success, the old list on
      failure. */
  function Refreshed(cached: seq<Workflow>, res: Result<Page, FetchError>): seq<Workflow>
  {
    match res
    case Ok(page) => ToWorkflows(page.items)
    case Err(_) => cached
  }

  /** All entries after one discovery cycle. */
  function Discovered(lists: map<Repository, seq<Workflow>>, fetch: ListWorkflows): (r: map<Repository, seq<Workflow>>)
    ensures r.Keys == lists.Keys
  {
    map repo | repo in lists :: Refreshed(lists[repo], fetch(RequestFor(repo)))
  }

  /** `poll_workflow`: one request, which is returned alongside the outcome;
      on success the entry's list is replaced under its write lock, on
      failure the error returns before the lock is taken. No other entry is
      written. */
  method PollWorkflow(cache: WorkflowCache, repo: Repository, fetch: ListWorkflows)
    returns (outcome: Result<(), FetchError>, request: ListRequest)
    requires cache.Valid() && repo in cache.repos
    modifies cache
    ensures cache.Valid()
    ensures request == ListRequest(repo.owner, repo.name, 100)
    ensures cache.lists == old(cache.lists)[repo := Refreshed(old(cache.lists)[repo], fetch(request))]
    ensures outcome.Err? <==> fetch(request).Err?
  {
    request := RequestFor(repo);
    var page :- fetch(request);
    var updated := ToWorkflows(page.items);
    cache.Replace(repo, updated);
    outcome := Ok(());
  }

  /** `poll_workflows`, one pass of its loop: every key is polled once, in the
      cache's order, and a failure is logged and passed over. Returns the
      requests made and the repositories whose poll failed (the logged ones). */
  method PollWorkflows(cache: WorkflowCache, fetch: ListWorkflows)
    returns (requests: seq<ListRequest>, failed: seq<Repository>)
    requires cache.Valid()
    modifies cache
    ensures cache.Valid()
    ensures cache.lists == Discovered(old(cache.lists), fetch)
    ensures |requests| == |cache.order|
    ensures forall i :: 0 <= i < |requests| ==> requests[i] == RequestFor(cache.order[i])
    ensures forall r :: r in failed <==> r in cache.repos && fetch(RequestFor(r)).Err?
  {
    ghost var before := cache.lists;
    requests, failed := [], [];
    var i := 0;
    while i < |cache.order|
      invariant 0 <= i <= |cache.order|
      invariant cache.Valid()
      invariant cache.lists == PartlyDiscovered(before, fetch, cache.order[..i])
      invariant requests == RequestsFor(cache.order[..i])
      invariant failed == FailedIn(cache.order[..i], fetch)
    {
      var repo := cache.order[i];
      var outcome, request := PollWorkflow(cache, repo, fetch);
      requests := requests + [request];
      if outcome.Err? {
        failed := failed + [repo];
      }
      assert cache.order[..i + 1][..i] == cache.order[..i];
      i := i + 1;
    }
    assert cache.order[..i] == cache.order;
    AllPolled(before, cache.order, fetch);
    FailedInMembers(cache.order, fetch);
  }

  /** The entries after polling the keys in `polled`, in order. */
  ghost function PartlyDiscovered(before: map<Repository, seq<Workflow>>, fetch: ListWorkflows,
                                  polled: seq<Repository>): map<Repository, seq<Workflow>>
  {
    if polled == [] then before
    else
      var lists, last := PartlyDiscovered(before, fetch, polled[..|polled| - 1]), polled[|polled| - 1];
      if last in lists then lists[last := Refreshed(lists[last], fetch(RequestFor(last)))] else lists
  }

  /** The requests made by polling the keys in `polled`, in order. */
  function RequestsFor(polled: seq<Repository>): (rs: seq<ListRequest>)
    ensures |rs| == |polled|
    ensures forall i :: 0 <= i < |polled| ==> rs[i] == RequestFor(polled[i])
  {
    if polled == [] then []
    else RequestsFor(polled[..|polled| - 1]) + [RequestFor(polled[|polled| - 1])]
  }

  /** The keys among `polled` whose poll fails, in order. */
  function FailedIn(polled: seq<Repository>, fetch: ListWorkflows): seq<Repository>
  {
    if polled == [] then []
    else
      var last := polled[|polled| - 1];
      FailedIn(polled[..|polled| - 1], fetch) + if fetch(RequestFor(last)).Err? then [last] else []
  }

  lemma {:induction false} FailedInMembers(polled: seq<Repository>, fetch: ListWorkflows)
    ensures forall r :: r in FailedIn(polled, fetch) <==> r in polled && fetch(RequestFor(r)).Err?
  {
    if polled != [] {
      var prefix := polled[..|polled| - 1];
      FailedInMembers(prefix, fetch);
      assert polled == prefix + [polled[|polled| - 1]];
    }
  }

  /** Polling keys one by one keeps the key set, and refreshes exactly the
      entries of the keys polled; polling a key again changes nothing more. */
  lemma {:induction false} PartlyDiscoveredPointwise(before: map<Repository, seq<Workflow>>, fetch: ListWorkflows,
                                                     polled: seq<Repository>)
    ensures PartlyDiscovered(before, fetch, polled).Keys == before.Keys
    ensures forall r :: r in before ==>
      (PartlyDiscovered(before, fetch, polled)[r] ==
       if r in polled then Refreshed(before[r], fetch(RequestFor(r))) else before[r])
  {
    if polled != [] {
      var prefix, last := polled[..|polled| - 1], polled[|polled| - 1];
      PartlyDiscoveredPointwise(before, fetch, prefix);
      assert polled == prefix + [last];
    }
  }

  /** Once every key has been polled, the entries are those of Discovered. */
  lemma AllPolled(before: map<Repository, seq<Workflow>>, order: seq<Repository>, fetch: ListWorkflows)
    requires forall r :: r in before ==> r in order
    ensures PartlyDiscovered(before, fetch, order) == Discovered(before, fetch)
  {
    PartlyDiscoveredPointwise(before, fetch, order);
  }

  // ---------------------------------------------------------------------
  // Properties of one discovery cycle
  // ---------------------------------------------------------------------

  /** A successful fetch makes the entry exactly the fetched items' ids and
      names, in order; a failed one leaves it as it was. */
  lemma DiscoveredEntry(lists: map<Repository, seq<Workflow>>, fetch: ListWorkflows, repo: Repository)
    requires repo in lists
    ensures fetch(RequestFor(repo)).Ok? ==>
      var items := fetch(RequestFor(repo)).value.items;
      |Discovered(lists, fetch)[repo]| == |items| &&
      forall i :: 0 <= i < |items| ==>
        Discovered(lists, fetch)[repo][i] == Workflow(items[i].id, items[i].name)
    ensures fetch(RequestFor(repo)).Err? ==> Discovered(lists, fetch)[repo] == lists[repo]
  {
  }

  /** Replacement is wholesale: after a successful fetch, a cached workflow
      is one of the fetched ones, whatever was cached before. */
  lemma {:induction false} NoStaleWorkflowSurvives(cached: seq<Workflow>, page: Page, w: Workflow)
    requires w in Refreshed(cached, Ok(page))
    ensures exists i :: 0 <= i < |page.items| && page.items[i].id == w.id && page.items[i].name == w.name
  {
    var ws := ToWorkflows(page.items);
    var j :| 0 <= j < |ws| && ws[j] == w;
    assert page.items[j].id == w.id && page.items[j].name == w.name;
  }

  /** Only the first page counts: the entry is exactly the items of the one
      page requested, whatever its link to a next page, so it holds at most
      PER_PAGE workflows when the upstream honours the requested page size. */
  lemma FirstPageOnly(lists: map<Repository, seq<Workflow>>, fetch: ListWorkflows, repo: Repository)
    requires repo in lists && fetch(RequestFor(repo)).Ok?
    ensures Discovered(lists, fetch)[repo] == ToWorkflows(fetch(RequestFor(repo)).value.items)
    ensures |fetch(RequestFor(repo)).value.items| <= PER_PAGE ==> |Discovered(lists, fetch)[repo]| <= PER_PAGE
  {
  }
}
