/** The workflow cache shared by the discovery and usage tasks
    (src/main.rs:123-128): one entry per configured repository, each entry a
    workflow list that discovery replaces and usage reads. */
module Cache {
  import opened Types

  predicate Distinct<T(==)>(s: seq<T>)
  {
    forall i, j :: 0 <= i < j < |s| ==> s[i] != s[j]
  }

  /** The configured repositories with later duplicates dropped: equal
      repositories (same owner and name) collapse into one key. */
  function Dedup(rs: seq<Repository>): (d: seq<Repository>)
    ensures Distinct(d)
    ensures forall r :: r in d <==> r in rs
    ensures |d| <= |rs|
  {
    if rs == [] then []
    else
      var prefix := Dedup(rs[..|rs| - 1]);
      var last := rs[|rs| - 1];
      assert rs == rs[..|rs| - 1] + [last];
      if last in prefix then prefix else prefix + [last]
  }

  class WorkflowCache {
    /** The key set, fixed when the cache is built. */
    const repos: set<Repository>
    /** The order in which the tasks iterate over the keys. It never changes,
        because no key is ever inserted or removed. */
    const order: seq<Repository>
    /** The workflow list behind each key's lock. */
    var lists: map<Repository, seq<Workflow>>

    ghost predicate Valid()
      reads this
    {
      lists.Keys == repos &&
      Distinct(order) &&
      (forall r :: r in order <==> r in repos)
    }

    /** `repos.into_iter().map(|r| (r, RwLock::new(Vec::new()))).collect()`. */
    constructor (configured: seq<Repository>)
      ensures Valid()
      ensures repos == set r | r in configured
      ensures forall r :: r in lists ==> lists[r] == []
    {
      repos := set r | r in configured;
      order := Dedup(configured);
      lists := map r | r in configured :: [];
    }

    /** Take the entry's write lock and overwrite the whole list
        (`*w = updated_workflows`). */
    method Replace(repo: Repository, ws: seq<Workflow>)
      requires Valid() && repo in repos
      modifies this
      ensures Valid()
      ensures lists == old(lists)[repo := ws]
    {
      lists := lists[repo := ws];
    }
  }
}
