# Worker job resolution

A Dafny model of the worker side of a benchmarking job service
(`PORTAL/jobs/_workers.py`). This layer turns a job request identifier into a
handle for running that job. The handle gives the worker's SSH transport, the
worker's jobs-level file tree and the job-level file tree of that request.

- `worker_config.dfy`, module `WorkerConfigs`: the worker configuration.
  `NewWorkerConfig` refuses an empty user ("missing user") and otherwise builds
  the SSH connection descriptor from (user, host, port). Extra keyword arguments
  arrive as a map and are dropped. `AsJsonable` gives back the
  `user`/`ssh_host`/`ssh_port` map. The round trip is proved in both directions.
- `worker_fs.dfy`, module `WorkerFS`: the jobs-level tree `WorkerJobsFS`. It is
  a class with a constant root. Its constructor creates the `repositories`
  sub-tree and then assigns the `cpython`, `pyperformance` and
  `pyston-benchmarks` slot attributes one at a time, as the source does. The
  specification functions `ReposPath` and `SlotPath` give those paths as
  functions of the root. The lemmas prove that the paths nest under each other,
  that the three slots are distinct and none is a prefix of another, and that
  slot paths are injective in the root and the slot. The job-level tree
  `WorkerJobFS` is a value that carries only its root and the `job-worker`
  context tag. The paths its base class `_common.JobFS` derives are not
  modelled. As in the source, the repositories sub-tree belongs to the
  jobs-level tree, not the job-level one.
- `workers.dfy`, module `Resolution`: the classes `JobWorker`, `Worker` and
  `Workers`. Their fields are constants, set once by the constructor.
  `Worker.ResolveJob` allocates a new `JobWorker`, so it is a method. It has no
  `modifies` clause, so it changes nothing that already exists. Its
  postcondition states the delegation facts for `fs`, `topfs` and `ssh`.
  `Workers.ResolveJob` forwards to its single worker. The client methods at the
  end state the properties that involve several calls.

The collaborators that live in other modules are injected:

- `JobsFSType` stands for the jobs-tree type passed to `from_config`. It holds
  two deterministic functions: the root that `from_user` picks for a user, and
  the job root that `resolve_request` picks for a jobs root and a request.
- `connect` is the SSH client factory.
- `RequestId` and `SSHClient` are abstract types.

The model makes these assumptions about collaborators that are not part of it:

- `_utils.SSHConnectionConfig(user, ssh_host, ssh_port)` is a plain record. It
  stores its three arguments unchanged and never raises. Both round trips of the
  configuration rest on this. They would not hold if that class checked the host
  or filled in a default port.
- `_common.JobsFS.__init__(root)` stores `root` unchanged, and the string of a
  jobs tree is that root.
- `_utils.FSTree(s)` has root `s`. Its string is `s`, and its attributes are
  assigned afterwards.
- `from_user` builds its tree with the constructor, so the repositories
  sub-tree always exists.
- The job root that `resolve_request` returns depends only on the tree's type,
  the tree's root and the request id.

`ValidWorkerConfig` is the subset of `WorkerConfig` values that the
constructor can produce. It has a non-empty user, and its descriptor has the
same user. `JobsConfig` and both `from_config` methods take only such values.

## Model

| member | source | states |
|---|---|---|
| `WorkerConfigs.NewWorkerConfig` | PORTAL/jobs/_workers.py:14-26 | fails with `MissingUser` exactly when the user is empty; otherwise the config's user is the argument and its descriptor carries the given user, host and port; the result satisfies the config invariant |
| `WorkerConfigs.WorkerConfig.AsJsonable` | PORTAL/jobs/_workers.py:28-33 | the map has exactly the keys `user`, `ssh_host`, `ssh_port`, holding the user, the descriptor's host and the descriptor's port |
| `WorkerConfigs.IgnoredArgumentsAreDropped` | PORTAL/jobs/_workers.py:14-19 | the extra keyword arguments never change the outcome of construction |
| `WorkerConfigs.ConstructThenSerialise` | PORTAL/jobs/_workers.py:14-33 | for a non-empty user, construction succeeds and serialising returns exactly the three arguments, whatever extra arguments were passed |
| `WorkerConfigs.SerialiseThenConstruct` | PORTAL/jobs/_workers.py:14-33 | constructing from the serialised form of a valid config reproduces that config |
| `WorkerFS.Repo.Name` | PORTAL/jobs/_workers.py:54-56 | each slot name is non-empty and contains no `/` |
| `WorkerFS.SlotPathShape` | PORTAL/jobs/_workers.py:53-56 | a slot path is the root followed by `/repositories/` and the slot name |
| `WorkerFS.DerivedPathsNest` | PORTAL/jobs/_workers.py:53-56 | root + `/` is a proper prefix of the repositories path, and repositories path + `/` is a proper prefix of every slot path |
| `WorkerFS.SlotPathsPrefixFree` | PORTAL/jobs/_workers.py:54-56 | within one tree no slot path is a prefix of a different slot's path, so the slots are pairwise distinct |
| `WorkerFS.SlotPathInjective` | PORTAL/jobs/_workers.py:53-56 | two slot paths are equal if and only if they have the same root and the same slot |
| `WorkerFS.ReposTree.constructor` | PORTAL/jobs/_workers.py:53 | the repositories tree has the given root and no slot attribute assigned yet |
| `WorkerFS.ReposTree.Slot` | PORTAL/jobs/_workers.py:54-56 | each slot of the repositories tree is read from its own attribute: `cpython`, `pyperformance` or `pyston_benchmarks` |
| `WorkerFS.WorkerJobFS.Context` | PORTAL/jobs/_workers.py:36-39 | the job-level tree carries the context tag `job-worker` |
| `WorkerFS.WorkerJobsFS.Context` | PORTAL/jobs/_workers.py:42-45 | the jobs-level tree carries the context tag `job-worker` |
| `WorkerFS.WorkerJobsFS.ValidSlots` | PORTAL/jobs/_workers.py:53-56 | in a constructed tree, repos is root + `/repositories`, each slot attribute is repos + `/` + its name with repos + `/` as a proper prefix, and the three attributes are pairwise distinct |
| `WorkerFS.WorkerJobsFS.constructor` | PORTAL/jobs/_workers.py:49-56 | stores the root and the tree type, and builds a new repositories tree whose root and three slot attributes are the derived paths |
| `WorkerFS.WorkerJobsFS.FromUser` | PORTAL/jobs/_workers.py:96 | a new tree of the injected type, rooted where that type puts the user's jobs, with its repositories tree built |
| `WorkerFS.WorkerJobsFS.ResolveRequest` | PORTAL/jobs/_workers.py:47 | the job tree of a request is a `WorkerJobFS` (the `JOBFS` type), rooted where the tree type places that request under this tree's root, with the same context tag as this tree |
| `Resolution.JobWorker.constructor` | PORTAL/jobs/_workers.py:62-64 | stores the worker and the job tree |
| `Resolution.JobWorker.TopFs` | PORTAL/jobs/_workers.py:78-80 | `topfs` is the parent worker's jobs tree, which carries the same context tag as the job's own tree |
| `Resolution.JobWorker.Ssh` | PORTAL/jobs/_workers.py:82-84 | `ssh` is the parent worker's transport |
| `Resolution.Worker.constructor` | PORTAL/jobs/_workers.py:100-102 | stores the jobs tree and the transport |
| `Resolution.Worker.FromConfig` | PORTAL/jobs/_workers.py:90-98 | a new worker whose jobs tree comes from the injected type and the config's user alone, and whose transport comes from the config's descriptor alone |
| `Resolution.Worker.ResolveJob` | PORTAL/jobs/_workers.py:120-125 | a new handle whose worker is this worker and whose `fs` is `fs.resolve_request(reqid)`; its `topfs` is this worker's `fs` and its `ssh` is this worker's `ssh`; nothing that already exists is modified |
| `Resolution.Workers.constructor` | PORTAL/jobs/_workers.py:140-141 | stores the single worker |
| `Resolution.Workers.FromConfig` | PORTAL/jobs/_workers.py:131-138 | a registry over a new worker built by `Worker.FromConfig` from the jobs configuration's worker section |
| `Resolution.Workers.ResolveJob` | PORTAL/jobs/_workers.py:151-155 | a new handle over the registered worker with the job tree that worker resolves the request to |
| `Resolution.RegistryAgreesWithWorker` | PORTAL/jobs/_workers.py:151-155 | resolving through the registry and through its worker gives two distinct handles that agree in worker, job tree, `topfs` and `ssh` |
| `Resolution.ResolutionIsRepeatable` | PORTAL/jobs/_workers.py:120-125 | resolving the same request twice gives the same job tree both times, rooted where the tree type says, with the worker's `fs` and `ssh` |
| `Resolution.JobsRootDependsOnUserOnly` | PORTAL/jobs/_workers.py:96-98 | two configs with the same user give workers with the same jobs root; both trees are built, and their repositories roots and all three slot paths agree, whatever the hosts and ports |
| `Resolution.ResolveFromConfig` | PORTAL/jobs/_workers.py:90-155 | from raw fields to a resolved job: an empty user fails with `MissingUser`; otherwise the transport is made from (user, host, port), the parent tree is the user's jobs tree with its slots derived, and the job tree is the request's tree under that root |

## Left out

- The SSH transport (`_utils.SSHClient.from_config` and the connection itself) is network I/O. The factory is the `connect` parameter and the client is the abstract type `SSHClient`.
- `_common.JobsFS.from_user`, `_common.JobsFS.resolve_request` and `_utils.FSTree` are not part of this model. `JobsFSType` supplies the roots they compute, and nothing is assumed about their layout.
- No property says that different request ids give different job roots. That depends on `resolve_request`, which is not shown.
- The default `JobsFS=WorkerJobsFS` argument of the two `from_config` methods is not modelled: its `from_user` is not shown, so callers always pass a `JobsFSType`.
- The `root=None` default of `WorkerJobsFS.__init__` is not modelled: the base JobsFS that handles it is not part of this model.
- Request-id parsing and validation (`requests.ToRequestIDType`) lives in another module; request ids are the abstract type `RequestId`.
- The base `_utils.Config` is not part of this model. `WorkerConfig` is a datatype holding the two fields the constructor passes to it, and the `ignored` map holds the extra keyword arguments.
- The value types of the keyword arguments: `ignored` is a map from names to `JsonValue`.
- `NewWorkerConfig` models only a string user. A `None` user, which Python's falsiness check also refuses, cannot occur here.
- The `__repr__` methods are left out: they only format debug strings.
- The `__eq__` methods that raise `NotImplementedError` are left out. `JobWorker`, `Worker` and `Workers` are classes, so Dafny `==` on them is reference identity and gives no field-wise equality. The client methods compare handles field by field.
- The logger is left out: it has no behaviour to verify.
- Collaborator errors are not modelled. `connect` (for `_utils.SSHClient.from_config`, line 97), `rootForUser` (for `from_user`, line 96) and `jobRoot` (for `resolve_request`, line 124) are total functions. The model therefore assumes they never raise. The source catches none of their errors, so in Python any such error (a bad host or port, a failed connection, an unusable request id) reaches the caller unchanged.
- `ResolveFromConfig`: its promise that a non-empty user always resolves to `Ok` holds only under the assumption that the collaborators are total.
- `_common.JobFS`, the base class of `WorkerJobFS` (line 36), is not part of this model. The model's `WorkerJobFS` carries only its root and its context tag. Whatever job-level paths that base class derives from the root are dropped.
