/** The resolution chain: the registry of workers, one configured worker,
    and the job-scoped handle a request identifier resolves to. */
module Resolution {
  import opened WorkerConfigs
  import opened WorkerFS

  /** The SSH client; the transport itself is not part of this model. */
  type SSHClient(==)

  /** The part of the jobs configuration this layer reads. */
  datatype JobsConfig = JobsConfig(worker: ValidWorkerConfig)

  /** A worker assigned to run a requested job. */
  class JobWorker {
    const worker: Worker
    const fs: WorkerJobFS

    constructor (worker: Worker, fs: WorkerJobFS)
      ensures this.worker == worker && this.fs == fs
    {
      this.worker := worker;
      this.fs := fs;
    }

    /** The jobs-level tree of the parent worker; it carries the same
        context tag as this job's tree. */
    function TopFs(): (top: WorkerJobsFS)
      ensures top == worker.fs
      ensures top.Context() == fs.Context()
    {
      worker.fs
    }

    /** The transport of the parent worker; the handle owns none of its own. */
    function Ssh(): (client: SSHClient)
      ensures client == worker.ssh
    {
      worker.ssh
    }
  }

  /** A single configured worker. */
  class Worker {
    const fs: WorkerJobsFS
    const ssh: SSHClient

    constructor (fs: WorkerJobsFS, ssh: SSHClient)
      ensures this.fs == fs && this.ssh == ssh
    {
      this.fs := fs;
      this.ssh := ssh;
    }

    /** Builds the jobs tree from the configured user alone, through the
        injected tree type, and the transport from the descriptor alone. */
    static method FromConfig(cfg: ValidWorkerConfig, kind: JobsFSType,
                             connect: SSHConnectionConfig -> SSHClient) returns (w: Worker)
      ensures fresh(w) && fresh(w.fs) && fresh(w.fs.repos) && w.fs.Valid()
      ensures w.fs.kind == kind && w.fs.root == kind.rootForUser(cfg.user)
      ensures w.ssh == connect(cfg.ssh)
    {
      var fs := WorkerJobsFS.FromUser(kind, cfg.user);
      var ssh := connect(cfg.ssh);
      w := new Worker(fs, ssh);
    }

    /** The handle of a request: this worker with the request's job tree.
        Nothing that already exists is changed. */
    method ResolveJob(reqid: RequestId) returns (j: JobWorker)
      ensures fresh(j)
      ensures j.worker == this && j.fs == fs.ResolveRequest(reqid)
      ensures j.TopFs() == fs && j.Ssh() == ssh
    {
      var jobfs := fs.ResolveRequest(reqid);
      j := new JobWorker(this, jobfs);
    }
  }

  /** The set of configured workers; today exactly one. */
  class Workers {
    const worker: Worker

    constructor (worker: Worker)
      ensures this.worker == worker
    {
      this.worker := worker;
    }

    static method FromConfig(cfg: JobsConfig, kind: JobsFSType,
                             connect: SSHConnectionConfig -> SSHClient) returns (ws: Workers)
      ensures fresh(ws) && fresh(ws.worker) && fresh(ws.worker.fs) && fresh(ws.worker.fs.repos) && ws.worker.fs.Valid()
      ensures ws.worker.fs.kind == kind && ws.worker.fs.root == kind.rootForUser(cfg.worker.user)
      ensures ws.worker.ssh == connect(cfg.worker.ssh)
    {
      var w := Worker.FromConfig(cfg.worker, kind, connect);
      ws := new Workers(w);
    }

    /** Forwards to the single registered worker. */
    method ResolveJob(reqid: RequestId) returns (j: JobWorker)
      ensures fresh(j)
      ensures j.worker == worker && j.fs == worker.fs.ResolveRequest(reqid)
    {
      j := worker.ResolveJob(reqid);
    }
  }

  /** Resolving through the registry and through its worker give handles
      with the same worker, job tree, parent tree and transport, yet two
      distinct handles: they are compared field by field, never as a whole. */
  method RegistryAgreesWithWorker(ws: Workers, reqid: RequestId) returns (viaRegistry: JobWorker, viaWorker: JobWorker)
    ensures viaRegistry != viaWorker
    ensures viaRegistry.worker == viaWorker.worker == ws.worker
    ensures viaRegistry.fs == viaWorker.fs
    ensures viaRegistry.TopFs() == viaWorker.TopFs() && viaRegistry.Ssh() == viaWorker.Ssh()
  {
    viaRegistry := ws.ResolveJob(reqid);
    viaWorker := ws.worker.ResolveJob(reqid);
  }

  /** Resolving one request twice against one worker gives the same paths
      and transport both times. */
  method ResolutionIsRepeatable(w: Worker, reqid: RequestId) returns (first: JobWorker, second: JobWorker)
    ensures first.fs == second.fs && first.fs.root == w.fs.kind.jobRoot(w.fs.root, reqid)
    ensures first.TopFs() == second.TopFs() == w.fs
    ensures first.Ssh() == second.Ssh() == w.ssh
  {
    first := w.ResolveJob(reqid);
    second := w.ResolveJob(reqid);
  }

  /** The jobs root of a worker depends on the configured user only: two
      configurations with the same user and any hosts and ports give the same root. */
  method JobsRootDependsOnUserOnly(cfg1: ValidWorkerConfig, cfg2: ValidWorkerConfig, kind: JobsFSType,
                                   connect: SSHConnectionConfig -> SSHClient) returns (w1: Worker, w2: Worker)
    requires cfg1.user == cfg2.user
    ensures w1.fs.root == w2.fs.root
    ensures w1.fs.Valid() && w2.fs.Valid()
    ensures w1.fs.repos.root == w2.fs.repos.root
    ensures forall repo: Repo :: w1.fs.repos.Slot(repo) == w2.fs.repos.Slot(repo)
  {
    w1 := Worker.FromConfig(cfg1, kind, connect);
    w2 := Worker.FromConfig(cfg2, kind, connect);
  }

  /** From raw configuration fields to a resolved job: an empty user fails
      with "missing user" and builds no worker; otherwise the handle's
      transport is made from the descriptor (user, host, port), its parent
      tree is the user's jobs tree with the fixed repository slots, and its
      job tree is the request's tree under that root. */
  method ResolveFromConfig(user: string, sshHost: string, sshPort: int, ignored: map<string, JsonValue>,
                           kind: JobsFSType, connect: SSHConnectionConfig -> SSHClient,
                           reqid: RequestId) returns (r: Result<JobWorker>)
    ensures r.Err? <==> user == ""
    ensures r.Err? ==> r.error == MissingUser
    ensures r.Ok? ==> r.value.Ssh() == connect(SSHConnectionConfig(user, sshHost, sshPort))
    ensures r.Ok? ==> r.value.TopFs().root == kind.rootForUser(user) && r.value.TopFs().Valid()
    ensures r.Ok? ==> r.value.fs.root == kind.jobRoot(kind.rootForUser(user), reqid)
  {
    var cfg := NewWorkerConfig(user, sshHost, sshPort, ignored);
    if cfg.Err? {
      return Err(cfg.error);
    }
    var ws := Workers.FromConfig(JobsConfig(cfg.value), kind, connect);
    var j := ws.ResolveJob(reqid);
    return Ok(j);
  }
}
