/** Worker configuration: validation of the raw fields, the SSH connection
    descriptor built from them, and the serialisation back to a plain map. */
module WorkerConfigs {

  /** The values a JSON-like configuration map holds for the worker fields. */
  datatype JsonValue = JString(str: string) | JInt(num: int)

  /** The connection descriptor handed to the SSH transport. */
  datatype SSHConnectionConfig = SSHConnectionConfig(user: string, host: string, port: int)

  /** The only configuration error this layer raises ("missing user"). */
  datatype ConfigError = MissingUser

  datatype Result<T> = Ok(value: T) | Err(error: ConfigError)

  /** A constructed worker configuration: the user and its connection descriptor. */
  datatype WorkerConfig = WorkerConfig(user: string, ssh: SSHConnectionConfig) {

    /** What every successfully constructed configuration satisfies. */
    predicate Valid() {
      user != "" && ssh.user == user
    }

    /** The three keys of the serialised form and nothing else. */
    static const Fields: set<string> := {"user", "ssh_host", "ssh_port"}

    /** The plain-map form: user from the config, host and port from the descriptor. */
    function AsJsonable(): (j: map<string, JsonValue>)
      ensures j.Keys == Fields
      ensures j["user"] == JString(user)
      ensures j["ssh_host"] == JString(ssh.host)
      ensures j["ssh_port"] == JInt(ssh.port)
    {
      map["user" := JString(user), "ssh_host" := JString(ssh.host), "ssh_port" := JInt(ssh.port)]
    }
  }

  /** A configuration the constructor can produce. */
  type ValidWorkerConfig = cfg: WorkerConfig | cfg.Valid()
    witness WorkerConfig("user", SSHConnectionConfig("user", "", 0))

  /** Constructs a configuration from its keyword arguments; any further keyword
      arguments arrive in `ignored` and are dropped. An empty user is refused
      before any descriptor is built. */
  function NewWorkerConfig(user: string, sshHost: string, sshPort: int,
                           ignored: map<string, JsonValue>): (r: Result<ValidWorkerConfig>)
    ensures r.Err? <==> user == ""
    ensures r.Err? ==> r.error == MissingUser
    ensures r.Ok? ==> r.value.Valid()
    ensures r.Ok? ==> r.value.user == user && r.value.ssh.host == sshHost && r.value.ssh.port == sshPort
  {
    if user == "" then Err(MissingUser)
    else
      var cfg: ValidWorkerConfig := WorkerConfig(user, SSHConnectionConfig(user, sshHost, sshPort));
      Ok(cfg)
  }

  /** Extra keyword arguments never influence the outcome. */
  lemma IgnoredArgumentsAreDropped(user: string, sshHost: string, sshPort: int,
                                   ignored1: map<string, JsonValue>, ignored2: map<string, JsonValue>)
    ensures NewWorkerConfig(user, sshHost, sshPort, ignored1) == NewWorkerConfig(user, sshHost, sshPort, ignored2)
  {
  }

  /** Serialising a freshly constructed configuration gives back exactly the
      three arguments it was built from, whatever extra arguments were passed. */
  lemma ConstructThenSerialise(user: string, sshHost: string, sshPort: int, ignored: map<string, JsonValue>)
    requires user != ""
    ensures NewWorkerConfig(user, sshHost, sshPort, ignored).Ok?
    ensures NewWorkerConfig(user, sshHost, sshPort, ignored).value.AsJsonable()
            == map["user" := JString(user), "ssh_host" := JString(sshHost), "ssh_port" := JInt(sshPort)]
  {
  }

  /** Constructing a configuration from the serialised form of a valid one
      reproduces that configuration. */
  lemma SerialiseThenConstruct(cfg: ValidWorkerConfig, ignored: map<string, JsonValue>)
    ensures var j := cfg.AsJsonable();
            NewWorkerConfig(j["user"].str, j["ssh_host"].str, j["ssh_port"].num, ignored) == Ok(cfg)
  {
  }
}
