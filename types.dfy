/** Identifiers shared by the polling tasks (src/types.rs): the host-class
    labels, repositories with their `owner/name` text form, and workflows. */
module Types {
  import opened Wrappers

  // ---------------------------------------------------------------------
  // Host classes
  // ---------------------------------------------------------------------

  /** Values of the "os" label. */
  const UBUNTU: string := "ubuntu"
  const MACOS: string := "macos"
  const WINDOWS: string := "windows"

  /** The three runner host classes the upstream API reports figures for. */
  datatype HostClass = Ubuntu | MacOS | Windows

  function Label(c: HostClass): string
  {
    match c
    case Ubuntu => UBUNTU
    case MacOS => MACOS
    case Windows => WINDOWS
  }

  /** Reads an "os" label value back; the inverse of Label. */
  function ClassOfLabel(s: string): (r: Option<HostClass>)
    ensures r.Some? ==> Label(r.value) == s
    ensures r.None? ==> s != UBUNTU && s != MACOS && s != WINDOWS
  {
    if s == UBUNTU then Some(Ubuntu)
    else if s == MACOS then Some(MacOS)
    else if s == WINDOWS then Some(Windows)
    else None
  }

  /** The three labels are distinct, so each class has a series of its own. */
  lemma LabelInjective(a: HostClass, b: HostClass)
    ensures Label(a) == Label(b) <==> a == b
    ensures ClassOfLabel(Label(a)) == Some(a)
  {
    assert UBUNTU[0] != MACOS[0] && MACOS[0] != WINDOWS[0] && UBUNTU[0] != WINDOWS[0];
  }

  // ---------------------------------------------------------------------
  // Errors reported by the upstream API client
  // ---------------------------------------------------------------------

  /** A transport or decoding failure of one upstream request. */
  datatype FetchError = FetchError(message: string)

  // ---------------------------------------------------------------------
  // Repositories
  // ---------------------------------------------------------------------

  type Organisation = string

  /** Compared (and hashed) by owner and name, as the derived Eq/Hash do. */
  datatype Repository = Repository(owner: Organisation, name: string)

  const REPO_FORMAT_ERROR: string := "repo must be in format {owner}/{name}!"

  /** Position of the first occurrence of `c` in `s`, if any. */
  function FirstIndexOf(s: string, c: char): (r: Option<nat>)
    ensures r.Some? ==> r.value < |s| && s[r.value] == c && c !in s[..r.value]
    ensures r.None? <==> c !in s
  {
    if s == [] then None
    else if s[0] == c then Some(0)
    else match FirstIndexOf(s[1..], c)
      case None => None
      case Some(i) =>
        assert s[..i + 1] == [s[0]] + s[1..][..i];
        Some(i + 1)
  }

  /** `Repository::from_str`: split once at the first '/'; the owner is the
      text before it and the name everything after it. */
  function ParseRepository(s: string): (r: Result<Repository, string>)
    ensures r.Err? <==> '/' !in s
    ensures r.Err? ==> r.error == REPO_FORMAT_ERROR
    ensures r.Ok? ==> '/' !in r.value.owner && s == r.value.owner + "/" + r.value.name
  {
    match FirstIndexOf(s, '/')
    case None => Err(REPO_FORMAT_ERROR)
    case Some(i) =>
      assert s == s[..i] + "/" + s[i + 1..];
      Ok(Repository(s[..i], s[i + 1..]))
  }

  /** `Display for Repository`: "owner/name". */
  function RepositoryToString(r: Repository): string
  {
    r.owner + "/" + r.name
  }

  /** Splitting at the first occurrence of a separator has one answer: if
      neither left part contains `c`, equal joins have equal parts. */
  lemma {:induction false} SplitAtFirstUnique(c: char, a: string, b: string, a': string, b': string)
    requires c !in a && c !in a'
    requires a + [c] + b == a' + [c] + b'
    ensures a == a' && b == b'
  {
    var s := a + [c] + b;
    FirstIndexOfJoin(c, a, b);
    FirstIndexOfJoin(c, a', b');
    assert a == s[..|a|] == a';
    assert b == s[|a| + 1..] == b';
  }

  /** In `a + [c] + b` with `c` not in `a`, the first `c` is the one after `a`. */
  lemma FirstIndexOfJoin(c: char, a: string, b: string)
    requires c !in a
    ensures FirstIndexOf(a + [c] + b, c) == Some(|a|)
  {
    var s := a + [c] + b;
    assert s[..|a|] == a;
    assert s[|a|] == c;
    var i := FirstIndexOf(s, c).value;
    assert s[i] in s[..|a| + 1];
  }

  /** Parsing splits at the first '/', however many follow it. */
  lemma ParseSplitsAtFirstSlash(s: string, i: nat)
    requires i < |s| && s[i] == '/' && '/' !in s[..i]
    ensures ParseRepository(s) == Ok(Repository(s[..i], s[i + 1..]))
  {
    var r := ParseRepository(s).value;
    assert s == s[..i] + ['/'] + s[i + 1..];
    SplitAtFirstUnique('/', r.owner, r.name, s[..i], s[i + 1..]);
  }

  /** Every string that contains '/' is reproduced by parse then display. */
  lemma DisplayAfterParse(s: string)
    requires '/' in s
    ensures ParseRepository(s).Ok? && RepositoryToString(ParseRepository(s).value) == s
  {
  }

  /** A repository whose owner has no '/' survives display then parse. */
  lemma ParseAfterDisplay(r: Repository)
    requires '/' !in r.owner
    ensures ParseRepository(RepositoryToString(r)) == Ok(r)
  {
    var s := RepositoryToString(r);
    assert s[|r.owner|] == '/';
    var p := ParseRepository(s).value;
    SplitAtFirstUnique('/', p.owner, p.name, r.owner, r.name);
  }

  /** An owner containing '/' does not survive the round trip: the text is
      re-split at the owner's own '/'. */
  lemma OwnerWithSlashIsResplit()
    ensures ParseRepository(RepositoryToString(Repository("a/b", "c"))) == Ok(Repository("a", "b/c"))
  {
    assert RepositoryToString(Repository("a/b", "c")) == "a/b/c";
    assert "a/b/c"[..1] == "a";
    ParseSplitsAtFirstSlash("a/b/c", 1);
  }

  /** Nothing beyond the separator is checked: either side may be empty. */
  lemma ParseAcceptsEmptyParts(t: string)
    ensures ParseRepository("/" + t) == Ok(Repository("", t))
    ensures '/' !in t ==> ParseRepository(t + "/") == Ok(Repository(t, ""))
  {
    ParseSplitsAtFirstSlash("/" + t, 0);
    if '/' !in t {
      assert (t + "/")[..|t|] == t;
      ParseSplitsAtFirstSlash(t + "/", |t|);
    }
  }

  // ---------------------------------------------------------------------
  // Workflows
  // ---------------------------------------------------------------------

  /** The upstream's unsigned 64-bit workflow id. */
  newtype WorkflowId = x: int | 0 <= x < 0x1_0000_0000_0000_0000

  /** A workflow as cached: its id and its name. */
  datatype Workflow = Workflow(id: WorkflowId, name: string)

  predicate IsDigit(ch: char)
  {
    '0' <= ch <= '9'
  }

  /** Decimal rendering of a natural number, as `{}` formats an integer:
      digits only, and no leading zero except in "0" itself. */
  function DecimalString(n: nat): (s: string)
    ensures |s| > 0 && forall i :: 0 <= i < |s| ==> IsDigit(s[i])
    ensures s[0] != '0' || s == "0"
  {
    var d := (('0' as int) + n % 10) as char;
    if n < 10 then [d] else DecimalString(n / 10) + [d]
  }

  /** The number a string of decimal digits denotes. */
  function DecimalValue(s: string): nat
    requires forall i :: 0 <= i < |s| ==> IsDigit(s[i])
  {
    if s == [] then 0
    else
      assert IsDigit(s[|s| - 1]);
      10 * DecimalValue(s[..|s| - 1]) + (s[|s| - 1] as int - '0' as int)
  }

  lemma {:induction false} DecimalRoundTrip(n: nat)
    ensures DecimalValue(DecimalString(n)) == n
  {
    var s := DecimalString(n);
    if n >= 10 {
      DecimalRoundTrip(n / 10);
      assert s[..|s| - 1] == DecimalString(n / 10);
    }
  }

  /** `Display for Workflow`: "(id) name". */
  function WorkflowToString(w: Workflow): string
  {
    "(" + DecimalString(w.id as nat) + ") " + w.name
  }

  /** Different workflows display differently: the id ends at the first ')'. */
  lemma WorkflowToStringInjective(w1: Workflow, w2: Workflow)
    requires WorkflowToString(w1) == WorkflowToString(w2)
    ensures w1 == w2
  {
    var d1, d2 := DecimalString(w1.id as nat), DecimalString(w2.id as nat);
    assert ')' !in d1 by {
      forall i | 0 <= i < |d1| ensures d1[i] != ')' { assert IsDigit(d1[i]); }
    }
    assert ')' !in d2 by {
      forall i | 0 <= i < |d2| ensures d2[i] != ')' { assert IsDigit(d2[i]); }
    }
    var s := WorkflowToString(w1);
    assert s[1..] == d1 + [')'] + (" " + w1.name);
    assert s[1..] == d2 + [')'] + (" " + w2.name);
    SplitAtFirstUnique(')', d1, " " + w1.name, d2, " " + w2.name);
    DecimalRoundTrip(w1.id as nat);
    DecimalRoundTrip(w2.id as nat);
    assert w1.name == (" " + w1.name)[1..];
  }
}
