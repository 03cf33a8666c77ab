/** The file structure of the jobs data on a worker: the jobs-level tree with
    its fixed repositories sub-tree, and the job-level tree a request resolves
    to. Every derived path is the root string with a suffix appended. */
module WorkerFS {

  /** Request identifiers are opaque tokens at this layer. */
  type RequestId

  /** The injected jobs-tree type. Its two collaborators are not part of this
      model and are given as deterministic functions: the jobs root a user's
      tree is built over (from_user), and the root of the job-level tree a
      request resolves to, given the jobs root (resolve_request). */
  datatype JobsFSType = JobsFSType(rootForUser: string -> string,
                                   jobRoot: (string, RequestId) -> string)

  /** The context tag both worker-side trees carry. */
  const WorkerContext: string := "job-worker"

  /** The three fixed repository slots. */
  datatype Repo = CPython | PyPerformance | PystonBenchmarks {
    /** The directory name of the slot under "repositories". */
    function Name(): (n: string)
      ensures |n| > 0 && '/' !in n
    {
      match this
      case CPython => "cpython"
      case PyPerformance => "pyperformance"
      case PystonBenchmarks => "pyston-benchmarks"
    }
  }

  /** The repositories sub-tree of a jobs tree rooted at `root`. */
  function ReposPath(root: string): string {
    root + "/repositories"
  }

  /** The path of one repository slot of a jobs tree rooted at `root`. */
  function SlotPath(root: string, repo: Repo): string {
    ReposPath(root) + "/" + repo.Name()
  }

  /** A slot path is the root, then "/repositories/", then the slot name. */
  lemma SlotPathShape(root: string, repo: Repo)
    ensures SlotPath(root, repo) == root + "/repositories/" + repo.Name()
    ensures |SlotPath(root, repo)| == |root| + 14 + |repo.Name()|
  {
  }

  /** The root, the repositories tree and each slot nest strictly: each has
      the previous one followed by "/" as a proper prefix. */
  lemma DerivedPathsNest(root: string, repo: Repo)
    ensures root + "/" < ReposPath(root)
    ensures ReposPath(root) + "/" < SlotPath(root, repo)
  {
  }

  /** Character `k` of a slot name sits at a fixed offset from the end of the root. */
  lemma SlotPathAt(root: string, repo: Repo, k: nat)
    requires k < |repo.Name()|
    ensures |root| + 14 + k < |SlotPath(root, repo)|
    ensures SlotPath(root, repo)[|root| + 14 + k] == repo.Name()[k]
  {
  }

  /** Within one tree no slot path is a prefix of another (in particular the
      three slots are pairwise distinct). */
  lemma {:induction false} SlotPathsPrefixFree(root: string, r1: Repo, r2: Repo)
    requires r1 != r2
    ensures !(SlotPath(root, r1) <= SlotPath(root, r2))
  {
    var s1, s2 := SlotPath(root, r1), SlotPath(root, r2);
    SlotPathShape(root, r1);
    SlotPathShape(root, r2);
    // a position where the two slot names differ
    var k: nat := if CPython in {r1, r2} then 0 else 3;
    SlotPathAt(root, r1, k);
    SlotPathAt(root, r2, k);
    assert r1.Name()[k] != r2.Name()[k];
    assert s1[|root| + 14 + k] != s2[|root| + 14 + k];
  }

  /** The last character of each slot name differs, so the slot a path
      belongs to can be read off its end. */
  lemma SlotPathLast(root: string, repo: Repo)
    ensures |SlotPath(root, repo)| > 0
    ensures SlotPath(root, repo)[|SlotPath(root, repo)| - 1]
            == match repo case CPython => 'n' case PyPerformance => 'e' case PystonBenchmarks => 's'
  {
  }

  /** Two slot paths coincide exactly when they are the same slot of trees
      with the same root: moving the root moves every slot path, and no slot
      of one tree collides with a different slot of any tree. */
  lemma {:induction false} SlotPathInjective(a: string, b: string, r1: Repo, r2: Repo)
    ensures SlotPath(a, r1) == SlotPath(b, r2) <==> a == b && r1 == r2
  {
    if SlotPath(a, r1) == SlotPath(b, r2) {
      SlotPathLast(a, r1);
      SlotPathLast(b, r2);
      assert r1 == r2;
      SlotPathShape(a, r1);
      SlotPathShape(b, r2);
      var s := SlotPath(a, r1);
      assert |a| == |b|;
      assert a == s[..|a|];
      assert b == s[..|b|];
    }
  }

  /** The repositories tree object. Its slot attributes are assigned one at a
      time after the tree is created; until then they are empty. */
  class ReposTree {
    const root: string
    var cpython: string
    var pyperformance: string
    var pystonBenchmarks: string

    constructor (root: string)
      ensures this.root == root
      ensures cpython == "" && pyperformance == "" && pystonBenchmarks == ""
    {
      this.root := root;
      cpython, pyperformance, pystonBenchmarks := "", "", "";
    }

    /** The attribute holding the given slot. */
    function Slot(repo: Repo): (path: string)
      reads this
      ensures repo == CPython ==> path == cpython
      ensures repo == PyPerformance ==> path == pyperformance
      ensures repo == PystonBenchmarks ==> path == pystonBenchmarks
    {
      match repo
      case CPython => cpython
      case PyPerformance => pyperformance
      case PystonBenchmarks => pystonBenchmarks
    }
  }

  /** The job-level tree of one request: its root and the worker context tag. */
  datatype WorkerJobFS = WorkerJobFS(root: string) {
    function Context(): (c: string)
      ensures c == "job-worker"
    {
      WorkerContext
    }
  }

  /** The jobs-level tree on a worker. */
  class WorkerJobsFS {
    const kind: JobsFSType
    const root: string
    const repos: ReposTree

    /** The repositories tree and its slots are the paths derived from the root. */
    ghost predicate Valid()
      reads repos
    {
      repos.root == ReposPath(root) &&
      repos.cpython == SlotPath(root, CPython) &&
      repos.pyperformance == SlotPath(root, PyPerformance) &&
      repos.pystonBenchmarks == SlotPath(root, PystonBenchmarks)
    }

    function Context(): (c: string)
      ensures c == "job-worker"
    {
      WorkerContext
    }

    /** In a constructed tree every slot attribute lies strictly under the
        repositories tree, and the three attributes are pairwise distinct. */
    lemma ValidSlots()
      requires Valid()
      ensures repos.root == root + "/repositories"
      ensures forall repo: Repo :: repos.Slot(repo) == repos.root + "/" + repo.Name()
      ensures forall repo: Repo :: repos.root + "/" < repos.Slot(repo)
      ensures forall r1: Repo, r2: Repo :: r1 != r2 ==> repos.Slot(r1) != repos.Slot(r2)
    {
    }

    constructor (kind: JobsFSType, root: string)
      ensures this.kind == kind && this.root == root
      ensures fresh(repos) && Valid()
    {
      this.kind := kind;
      this.root := root;
      var tree := new ReposTree(root + "/repositories");
      tree.cpython := tree.root + "/cpython";
      tree.pyperformance := tree.root + "/pyperformance";
      tree.pystonBenchmarks := tree.root + "/pyston-benchmarks";
      this.repos := tree;
    }

    /** The tree of a given user's jobs, built over the root its type names. */
    static method FromUser(kind: JobsFSType, user: string) returns (fs: WorkerJobsFS)
      ensures fresh(fs) && fresh(fs.repos) && fs.Valid()
      ensures fs.kind == kind && fs.root == kind.rootForUser(user)
    {
      fs := new WorkerJobsFS(kind, kind.rootForUser(user));
    }

    /** The job-level tree of a request, rooted where this tree's type says. */
    function ResolveRequest(reqid: RequestId): (job: WorkerJobFS)
      ensures job.root == kind.jobRoot(root, reqid)
      ensures job.Context() == Context()
    {
      WorkerJobFS(kind.jobRoot(root, reqid))
    }
  }
}
