/** The controller (control/manager.go, control/clients.go, control/worker.go): drives Docker to a
    configuration. */
module Control {
  import opened StringSets
  import opened ConfigID
  import opened Ident
  import Listing
  import opened Containers
  import opened Tables
  import opened Reconcile
  import opened Wrappers

  /** `volumeFmtID` is the text before and after the instance. */
  datatype ClientConfig = ClientConfig(
    count: nat,
    image: string,
    privileged: bool,
    volume: string,
    volumePath: string,
    volumeFmtID: Option<(string, string)>,
    volumeReadonly: bool)

  datatype WorkerConfig = WorkerConfig(
    count: nat,
    client: string,
    constraints: seq<string>,
    image: string,
    privileged: bool,
    command: string,
    args: seq<string>,
    type_: string,
    instanceFlag: string)

  datatype SystemConfig = SystemConfig(clients: map<string, ClientConfig>, workers: map<string, WorkerConfig>)

  datatype Services = Services(influxURL: string, redisURL: string)

  // What the configuration asks for.

  function Bind(c: ClientConfig, instance: string): string {
    match c.volumeFmtID
    case None => c.volumePath
    case Some(f) => c.volumePath + f.0 + instance + f.1
  }

  function VolumeMount(c: ClientConfig, instance: string): Mount {
    Mount(Bind(c, instance), c.volume, if c.volumeReadonly then "ro" else "", false)
  }

  function WantClient(c: ClientConfig, name: string, instance: string): Config {
    Config(c.image, "", [], ["CLOSE_INSTANCE=" + Key(name, instance)], c.privileged,
           if c.volume == "" then [] else [VolumeMount(c, instance)], "", [])
  }

  function NetworkOf(client: string, instance: string): string {
    if client == "" then "" else "container:" + Name(ID(CLIENT, client, instance))
  }

  /** In sorted order, whatever the values. */
  function WorkerEnv(s: Services, name: string, instance: string): seq<string> {
    ["CLOSE_INSTANCE=" + Key(name, instance), "INFLUXDB_URL=" + s.influxURL, "REDIS_URL=" + s.redisURL]
  }

  function WorkerArgs(c: WorkerConfig, name: string, instance: string): seq<string> {
    (if c.instanceFlag == "" then [] else ["-" + c.instanceFlag + "=" + Key(name, instance)]) + c.args
  }

  function WantWorker(c: WorkerConfig, s: Services, name: string, instance: string): Config {
    Config(c.image, c.command, WorkerArgs(c, name, instance), WorkerEnv(s, name, instance),
           c.privileged, [], NetworkOf(c.client, instance), SortStrings(c.constraints))
  }

  /** What a client's container is to be, field by field. */
  ghost predicate ClientWanted(w: Config, c: ClientConfig, name: string, instance: string) {
    && w.image == c.image && w.command == "" && w.args == [] && w.privileged == c.privileged
    && w.env == ["CLOSE_INSTANCE=" + name + ":" + instance]
    && w.networkMode == "" && w.constraints == []
    && (c.volume == "" ==> w.mounts == [])
    && (c.volume != "" ==>
        && |w.mounts| == 1 && w.mounts[0].destination == c.volume
        && w.mounts[0].mode == (if c.volumeReadonly then "ro" else "") && !w.mounts[0].rw
        && (c.volumeFmtID.None? ==> w.mounts[0].source == c.volumePath)
        && (c.volumeFmtID.Some? ==>
            w.mounts[0].source == c.volumePath + (c.volumeFmtID.value.0 + instance + c.volumeFmtID.value.1)))
  }

  lemma ClientWants(c: ClientConfig, name: string, instance: string)
    ensures ClientWanted(WantClient(c, name, instance), c, name, instance)
  {
    var key := "CLOSE_INSTANCE=" + name + ":" + instance;
    assert "CLOSE_INSTANCE=" + Key(name, instance) == key;
    if c.volumeFmtID.Some? {
      var f := c.volumeFmtID.value;
      assert c.volumePath + f.0 + instance + f.1 == c.volumePath + (f.0 + instance + f.1);
    }
  }

  /** And a worker's. */
  ghost predicate WorkerWanted(w: Config, c: WorkerConfig, s: Services, name: string, instance: string) {
    && w.image == c.image && w.command == c.command && w.privileged == c.privileged && w.mounts == []
    && w.args == (if c.instanceFlag == "" then c.args
                  else ["-" + c.instanceFlag + "=" + name + ":" + instance] + c.args)
    && multiset(w.env) == multiset{"CLOSE_INSTANCE=" + name + ":" + instance,
                                   "INFLUXDB_URL=" + s.influxURL, "REDIS_URL=" + s.redisURL}
    && w.networkMode == (if c.client == "" then "" else "container:close-client-" + c.client + "-" + instance)
    && Sorted(w.constraints) && multiset(w.constraints) == multiset(c.constraints)
  }

  lemma Spelled(before: string, name: string, instance: string)
    ensures before + Key(name, instance) == before + name + ":" + instance
  {
  }

  lemma NetworkSpelled(client: string, instance: string)
    ensures NetworkOf(client, instance)
         == if client == "" then "" else "container:close-client-" + client + "-" + instance
  {
    var x := "container:";
    assert x + Name(ID(CLIENT, client, instance)) == "container:close-client-" + client + "-" + instance;
  }

  lemma WorkerWants(c: WorkerConfig, s: Services, name: string, instance: string)
    ensures WorkerWanted(WantWorker(c, s, name, instance), c, s, name, instance)
  {
    SortedPermutation(c.constraints);
    Spelled("-" + c.instanceFlag + "=", name, instance);
    Spelled("CLOSE_INSTANCE=", name, instance);
    NetworkSpelled(c.client, instance);
    assert [] + c.args == c.args;
  }

  const NOTHING := Config("", "", [], [], false, [], "", [])

  function ClientPlan(c: SystemConfig): Plan {
    Plan(map n | n in c.clients :: c.clients[n].count,
         (name, instance) => if name in c.clients then WantClient(c.clients[name], name, instance) else NOTHING)
  }

  function WorkerPlan(c: SystemConfig, s: Services): Plan {
    Plan(map n | n in c.workers :: c.workers[n].count,
         (name, instance) => if name in c.workers then WantWorker(c.workers[name], s, name, instance) else NOTHING)
  }

  /** `p` is what the configuration asks of its clients. */
  ghost predicate PlansClients(p: Plan, c: SystemConfig) {
    && p.counts.Keys == c.clients.Keys
    && (forall n :: n in c.clients ==> p.counts[n] == c.clients[n].count)
    && (forall n, i {:trigger WantClient(c.clients[n], n, i)} ::
          n in c.clients ==> p.want(n, i) == WantClient(c.clients[n], n, i))
    && SortedPlan(p)
  }

  /** `p` is what the configuration asks of its workers. */
  ghost predicate PlansWorkers(p: Plan, c: SystemConfig, s: Services) {
    && p.counts.Keys == c.workers.Keys
    && (forall n :: n in c.workers ==> p.counts[n] == c.workers[n].count)
    && (forall n, i {:trigger WantWorker(c.workers[n], s, n, i)} ::
          n in c.workers ==> p.want(n, i) == WantWorker(c.workers[n], s, n, i))
    && SortedPlan(p)
  }

  /** A container that `Discover` recognises as one of the configuration's. */
  predicate Known(config: SystemConfig, id: ID) {
    && IsDecimal(id.instance)
    && ((id.class_ == CLIENT && id.type_ in config.clients)
        || (id.class_ == WORKER && Deployed(config, id)))
  }

  /** A worker of a configured name that can register. */
  predicate Deployed(config: SystemConfig, id: ID) {
    id.type_ in config.workers && ValidSubID(config.workers[id.type_].type_, Key(id.type_, id.instance))
  }

  function DownEntry(id: ID): Entry {
    Entry(id.type_, id.instance, false, id)
  }

  function ContainerLabels(conts: Conts): Listing.Fleet {
    map n | n in conts :: conts[n].labels
  }

  /** Every container of ours is recognised as one of the configuration's, and so is every other labelled
      one that claims to be a client or worker. */
  ghost predicate AllKnown(config: SystemConfig, conts: Conts) {
    && Listing.Plain(ContainerLabels(conts))
    && forall n :: n in conts && (Managed(n) || "close" in conts[n].labels) ==> KnownAs(config, n, conts[n].labels)
  }

  ghost predicate KnownAs(config: SystemConfig, n: string, labels: map<string, string>) {
    exists id ::
      && Identify("/" + n, labels) == Some(id)
      && (Managed(n) || id.class_ in {CLIENT, WORKER} ==> Known(config, id))
  }

  lemma ClientPlanPlans(c: SystemConfig)
    ensures PlansClients(ClientPlan(c), c)
  {
  }

  lemma WorkerEnvSorted(s: Services, name: string, instance: string)
    ensures Sorted(WorkerEnv(s, name, instance))
  {
    var env := WorkerEnv(s, name, instance);
    assert env[0][0] == 'C' && env[1][0] == 'I' && env[2][0] == 'R';
  }

  lemma WorkerPlanPlans(c: SystemConfig, s: Services)
    ensures PlansWorkers(WorkerPlan(c, s), c, s)
  {
    forall name, instance
      ensures Sorted(WorkerPlan(c, s).want(name, instance).env)
    {
      WorkerEnvSorted(s, name, instance);
    }
  }

  /** Whether a worker can register is decided by its type and its name alone, for every instance. */
  lemma RegistersExactly(type_: string, name: string, i: nat)
    ensures ValidSubID(type_, Key(name, Decimal(i))) <==>
      && type_ != "" && (forall c :: c in type_ ==> WordChar(c))
      && (forall c :: c in name ==> WordChar(c) || c == ':' || c == '-')
  {
    var key, d := Key(name, Decimal(i)), Decimal(i);
    assert key == name + ":" + d;
    assert forall c :: c in d ==> WordChar(c);
    assert forall c :: c in key <==> c in name || c == ':' || c in d;
  }

  // What is asked of a configuration, for nothing but Docker to keep it from starting.

  /** The client that a worker needs is tracked, and its name can register. */
  predicate Ready(c: WorkerConfig, clients: Entries, name: string, instance: string) {
    ValidSubID(c.type_, Key(name, instance)) && (c.client == "" || Key(c.client, instance) in clients)
  }

  ghost predicate AllReady(c: WorkerConfig, clients: Entries, name: string) {
    Parsable(name) && forall i: nat :: 1 <= i <= c.count ==> Ready(c, clients, name, Decimal(i))
  }

  ghost predicate WorkersReady(c: SystemConfig, clients: Entries) {
    forall name :: name in c.workers ==> AllReady(c.workers[name], clients, name)
  }

  predicate ClientsReady(c: SystemConfig) {
    forall name :: name in c.clients ==> Parsable(name)
  }

  /** A configuration that nothing but Docker can keep from starting: names that containers can carry,
      worker names that can register, and a client for every worker that needs one. */
  ghost predicate Deployable(c: SystemConfig) {
    && ClientsReady(c)
    && forall name :: name in c.workers ==> DeployableWorker(c, c.workers[name], name)
  }

  ghost predicate DeployableWorker(c: SystemConfig, w: WorkerConfig, name: string) {
    && Parsable(name)
    && (forall i: nat :: 1 <= i <= w.count ==> ValidSubID(w.type_, Key(name, Decimal(i))))
    && (w.client != "" ==> w.client in c.clients && w.count <= c.clients[w.client].count)
  }

  lemma DeployableReady(c: SystemConfig, p: Plan, clients: Entries, conts: Conts, report: Report)
    requires Deployable(c) && PlansClients(p, c) && Converged(clients, CLIENT, p, conts, report)
    ensures WorkersReady(c, clients)
  {
    forall name | name in c.workers
      ensures AllReady(c.workers[name], clients, name)
    {
      var w := c.workers[name];
      assert DeployableWorker(c, w, name);
      forall i: nat | 1 <= i <= w.count
        ensures Ready(w, clients, name, Decimal(i))
      {
        if w.client != "" {
          assert w.client in p.counts.Keys && p.counts[w.client] == c.clients[w.client].count;
          assert IsUpAt(clients, Key(w.client, Decimal(i)));
        }
      }
    }
  }

  datatype Command = DoLoad(document: Option<SystemConfig>) | DoStart | DoStop | DoClean

  /** The document that was loaded last. */
  function Loaded(config: SystemConfig, cmds: seq<Command>): SystemConfig {
    if cmds == [] then config
    else
      var cmd := cmds[|cmds| - 1];
      if cmd.DoLoad? && cmd.document.Some? then cmd.document.value else Loaded(config, cmds[..|cmds| - 1])
  }

  ghost predicate AllDeployable(cmds: seq<Command>) {
    forall i :: 0 <= i < |cmds| && cmds[i].DoLoad? ==> cmds[i].document.Some? && Deployable(cmds[i].document.value)
  }

  datatype Failure = BadDocument | NoClient(name: string, instance: string) | DockerFailed(id: ID) | BadSubID(id: ID)

  lemma EitherFails(a: seq<Failure>, b: seq<Failure>)
    ensures a + b != [] <==> a != [] || b != []
  {
  }

  function Failed(ids: seq<ID>): (errs: seq<Failure>)
    ensures errs == [] <==> ids == []
    ensures forall id :: id in ids <==> DockerFailed(id) in errs
  {
    FailedHas(ids);
    FailedList(ids)
  }

  lemma FailedHas(ids: seq<ID>)
    ensures forall id :: id in ids <==> DockerFailed(id) in FailedList(ids)
  {
    forall id | id in ids
      ensures DockerFailed(id) in FailedList(ids)
    {
      var i :| 0 <= i < |ids| && ids[i] == id;
      assert FailedList(ids)[i] == DockerFailed(id);
    }
  }

  function FailedList(ids: seq<ID>): (errs: seq<Failure>)
    ensures |errs| == |ids|
  {
    seq(|ids|, i requires 0 <= i < |ids| => DockerFailed(ids[i]))
  }

  // One failure keeps nothing else from being tried.

  /** The first `n` instances are up, or Docker failed on them. */
  ghost predicate TriedTo(t: Entries, errs: seq<Failure>, class_: string, name: string, n: nat) {
    forall i: nat :: 1 <= i <= n ==>
      IsUpAt(t, Key(name, Decimal(i))) || DockerFailed(InstanceID(class_, name, i)) in errs
  }

  ghost predicate AllTried(t: Entries, errs: seq<Failure>, class_: string, p: Plan, names: set<string>) {
    forall name :: name in names && name in p.counts ==> TriedTo(t, errs, class_, name, p.counts[name])
  }

  ghost predicate StillUp(t: Entries, u: Entries) {
    forall k :: IsUpAt(t, k) ==> IsUpAt(u, k)
  }

  /** What is not to be up was stopped, or Docker failed on it. */
  ghost predicate DownBut(t: Entries, errs: seq<Failure>, conts: Conts) {
    forall k :: k in t && !t[k].up ==> Stopped(t[k], conts) || DockerFailed(t[k].id) in errs
  }

  lemma TriedMore(t: Entries, u: Entries, errs: seq<Failure>, more: seq<Failure>, class_: string, p: Plan,
                  names: set<string>)
    requires AllTried(t, errs, class_, p, names) && StillUp(t, u)
    ensures AllTried(u, errs + more, class_, p, names)
  {
    forall name | name in names && name in p.counts
      ensures TriedTo(u, errs + more, class_, name, p.counts[name])
    {
      assert TriedTo(t, errs, class_, name, p.counts[name]);
    }
  }

  /** What bringing up the first `n` instances of a name has come to. */
  ghost predicate UpBut(p: Plan, class_: string, name: string, n: nat, s0: Sight, s: Sight, errs: seq<Failure>,
                        kept: seq<Failure>, report: Report) {
    && OnlyClass(s0.containers, s.containers, class_)
    && TriedTo(s.entries, kept, class_, name, n) && StillUp(s0.entries, s.entries)
    && (errs == [] ==> Started(p, class_, name, n, s0, s, report))
  }

  lemma TriedOne(p: Plan, class_: string, name: string, n: nat, s0: Sight, a: Sight, b: Sight, errs: seq<Failure>,
                 more: seq<Failure>, kept: seq<Failure>, kept': seq<Failure>, report: Report)
    requires n > 0 && UpBut(p, class_, name, n - 1, s0, a, errs, kept, report) && Counted(p, name, n)
    requires OnlyAt(a.containers, b.containers, Name(InstanceID(class_, name, n)))
    requires b.entries == a.entries[Key(name, Decimal(n)) := Risen(class_, name, n)]
             || (b.entries == a.entries && more != [] && DockerFailed(InstanceID(class_, name, n)) in kept')
    requires more == [] ==> Brought(a.containers, a.journal, b.containers, b.journal,
                                    InstanceID(class_, name, n), p.want(name, Decimal(n)), report)
    ensures UpBut(p, class_, name, n, s0, b, errs + more, kept + kept', report)
  {
    OnlyClassStep(s0.containers, a.containers, b.containers, InstanceID(class_, name, n));
    EitherFails(errs, more);
    if errs + more == [] {
      StartedStep(p, class_, name, n - 1, s0, a, b, report);
    }
  }

  /** What raising the names in `done` has come to. */
  ghost predicate RaisedBut(p: Plan, class_: string, done: set<string>, s0: Sight, s: Sight, errs: seq<Failure>,
                            kept: seq<Failure>, report: Report) {
    && OnlyClass(s0.containers, s.containers, class_)
    && AllTried(s.entries, kept, class_, p, done)
    && (errs == [] ==> Passed(p, class_, done, s0, s, report))
  }

  lemma RaisedButStep(p: Plan, class_: string, done: set<string>, name: string, s0: Sight, a: Sight, b: Sight,
                      errs: seq<Failure>, more: seq<Failure>, kept: seq<Failure>, kept': seq<Failure>, report: Report)
    requires RaisedBut(p, class_, done, s0, a, errs, kept, report) && name in p.counts
    requires OnlyClass(a.containers, b.containers, class_) && StillUp(a.entries, b.entries)
    requires TriedTo(b.entries, kept', class_, name, p.counts[name])
    requires more == [] ==> Started(p, class_, name, p.counts[name], a, b, report)
    ensures RaisedBut(p, class_, done + {name}, s0, b, errs + more, kept + kept', report)
  {
    OnlyClassJoin(s0.containers, a.containers, b.containers, class_);
    TriedMore(a.entries, b.entries, kept, kept', class_, p, done);
    EitherFails(errs, more);
    if errs + more == [] {
      PassedStep(p, class_, done, name, s0, a, b, report);
    }
  }

  lemma DownMore(t: Entries, errs: seq<Failure>, more: seq<ID>, conts: Conts)
    requires IdleBut(t, {}, more, conts)
    ensures DownBut(t, errs + Failed(more), conts)
  {
  }

  lemma DownElsewhere(t: Entries, class_: string, errs: seq<Failure>, more: seq<Failure>, a: Conts, b: Conts,
                      other: string)
    requires WellFormed(t, class_) && DownBut(t, errs, a) && OnlyClass(a, b, other) && NoDash(other) && other != class_
    ensures DownBut(t, errs + more, b)
  {
    forall k | k in t
      ensures SameAt(a, b, Name(t[k].id))
    {
      ForeignEntry(t[k], k, class_, other);
    }
  }

  class Manager {
    const docker: Docker
    const services: Services
    const clients: Table
    const workers: Table
    var config: SystemConfig

    ghost predicate Valid()
      reads this, clients, workers
    {
      && clients.class_ == CLIENT && workers.class_ == WORKER
      && WellFormed(clients.entries, CLIENT) && WellFormed(workers.entries, WORKER)
    }

    ghost function SeeClients(): Sight
      reads this, clients, docker
    {
      Sight(clients.entries, docker.containers, docker.journal)
    }

    ghost function SeeWorkers(): Sight
      reads this, workers, docker
    {
      Sight(workers.entries, docker.containers, docker.journal)
    }

    constructor (docker: Docker, services: Services)
      ensures Valid() && fresh(clients) && fresh(workers) && this.docker == docker && this.services == services
      ensures clients.entries == map[] && workers.entries == map[] && config == SystemConfig(map[], map[])
      ensures NoneManaged(docker.containers) ==> Sound()
    {
      this.docker, this.services := docker, services;
      clients := new Table(CLIENT);
      workers := new Table(WORKER);
      config := SystemConfig(map[], map[]);
    }

    /** `loadConfig`: a document that does not decode is an error and changes nothing; what is running
        stays as it is until `Start`. */
    method LoadConfig(document: Option<SystemConfig>) returns (ok: bool)
      modifies this
      ensures ok == document.Some?
      ensures config == if document.Some? then document.value else old(config)
    {
      ok := document.Some?;
      if ok {
        config := document.value;
      }
    }

    // Clients.

    /** `clientUp`. */
    method StartClient(ghost p: Plan, name: string, instance: string) returns (ok: bool, client: Entry)
      requires PlansClients(p, config)
      requires name in config.clients
      modifies docker
      ensures client == Entry(name, instance, true, ID(CLIENT, name, instance))
      ensures OnlyAt(old(docker.containers), docker.containers, Name(client.id))
      ensures ok ==> Brought(old(docker.containers), old(docker.journal), docker.containers, docker.journal,
                             client.id, p.want(name, instance), docker.report)
      ensures docker.failures >= old(docker.failures)
      ensures Parsable(name) && IsDecimal(instance) && instance != "" ==>
        Steady(old(docker.containers), old(docker.failures), docker.containers, docker.failures, !ok)
    {
      var c := config.clients[name];
      client := Entry(name, instance, true, ID(CLIENT, name, instance));
      var mounts: seq<Mount> := [];
      if c.volume != "" {
        var bind := c.volumePath;
        if c.volumeFmtID.Some? {
          bind := bind + c.volumeFmtID.value.0 + instance + c.volumeFmtID.value.1;
        }
        mounts := [Mount(bind, c.volume, if c.volumeReadonly then "ro" else "", false)];
      }
      var wanted := Config(c.image, "", [], ["CLOSE_INSTANCE=" + Key(name, instance)], c.privileged, mounts, "", []);
      assert wanted == WantClient(config.clients[name], name, instance);
      if Parsable(name) && IsDecimal(instance) && instance != "" {
        InstanceParses(CLIENT, name, instance);
        OwnName(client.id);
      }
      ok := Up(docker, client.id, wanted);
    }

    /** One round of `ClientUp`: an instance that started is remembered. */
    method NextClient(ghost p: Plan, name: string, index: nat, ghost s0: Sight, ghost errs0: seq<Failure>)
      returns (errs: seq<Failure>)
      requires PlansClients(p, config)
      requires Valid() && Counted(p, name, index)
      requires UpBut(p, CLIENT, name, index - 1, s0, SeeClients(), errs0, errs0, docker.report)
      modifies clients, docker
      ensures Valid()
      ensures UpBut(p, CLIENT, name, index, s0, SeeClients(), errs0 + errs, errs0 + errs, docker.report)
      ensures docker.failures >= old(docker.failures)
      ensures Parsable(name) ==>
        Steady(old(docker.containers), old(docker.failures), docker.containers, docker.failures, errs != [])
      ensures clients.entries == if errs == [] then
        old(clients.entries)[Key(name, Decimal(index)) := Risen(CLIENT, name, index)] else old(clients.entries)
    {
      ghost var a := SeeClients();
      var ok, client := StartClient(p, name, Decimal(index));
      errs := if ok then [] else [DockerFailed(client.id)];
      RisenOk(CLIENT, name, index);
      if ok {
        clients.Put(client);
      }
      TriedOne(p, CLIENT, name, index, s0, a, SeeClients(), errs0, errs, errs0, errs, docker.report);
    }

    /** `ClientUp`: starts every configured instance. */
    method ClientUp(ghost p: Plan, name: string) returns (errs: seq<Failure>)
      requires PlansClients(p, config)
      requires Valid() && name in config.clients
      modifies clients, docker
      ensures Valid() && OnlyClass(old(docker.containers), docker.containers, CLIENT)
      ensures errs == [] ==> Started(p, CLIENT, name, config.clients[name].count,
                                     old(SeeClients()), SeeClients(), docker.report)
      ensures docker.failures >= old(docker.failures)
      ensures Parsable(name) ==>
        Steady(old(docker.containers), old(docker.failures), docker.containers, docker.failures, errs != [])
      ensures TriedTo(clients.entries, errs, CLIENT, name, config.clients[name].count)
      ensures StillUp(old(clients.entries), clients.entries)
    {
      errs := [];
      ghost var s0, f0 := SeeClients(), docker.failures;
      StartedNone(p, CLIENT, name, s0, docker.report);
      for index := 1 to config.clients[name].count + 1
        invariant Valid() && UpBut(p, CLIENT, name, index - 1, s0, SeeClients(), errs, errs, docker.report)
        invariant docker.failures >= f0
        invariant Parsable(name) ==>
          Steady(s0.containers, f0, docker.containers, docker.failures, errs != [])
      {
        var upErrs := NextClient(p, name, index, s0, errs);
        EitherFails(errs, upErrs);
        errs := errs + upErrs;
      }
    }

    /** `ClientUp` of every configured name, in any order, after the table `t` was marked. */
    method RaiseClients(ghost p: Plan, ghost t: Entries) returns (errs: seq<Failure>)
      requires PlansClients(p, config)
      requires Valid() && WellFormed(t, CLIENT) && clients.entries == Marked(t)
      modifies clients, docker
      ensures Valid() && OnlyClass(old(docker.containers), docker.containers, CLIENT)
      ensures errs == [] ==> Passed(p, CLIENT, p.counts.Keys,
                                    old(SeeClients()), SeeClients(), docker.report)
      ensures docker.failures >= old(docker.failures)
      ensures ClientsReady(config) ==>
        Steady(old(docker.containers), old(docker.failures), docker.containers, docker.failures, errs != [])
      ensures AllTried(clients.entries, errs, CLIENT, p, p.counts.Keys)
    {
      errs := [];
      ghost var s0, f0 := SeeClients(), docker.failures;
      PassedNone(p, CLIENT, t, s0, docker.report);
      var todo := config.clients.Keys;
      ghost var done: set<string> := {};
      while todo != {}
        invariant done !! todo && done + todo == config.clients.Keys
        invariant Valid() && RaisedBut(p, CLIENT, done, s0, SeeClients(), errs, errs, docker.report)
        invariant docker.failures >= f0
        invariant ClientsReady(config) ==> Steady(s0.containers, f0, docker.containers, docker.failures, errs != [])
        decreases todo
      {
        var name :| name in todo;
        ghost var a := SeeClients();
        var upErrs := ClientUp(p, name);
        RaisedButStep(p, CLIENT, done, name, s0, a, SeeClients(), errs, upErrs, errs, upErrs, docker.report);
        EitherFails(errs, upErrs);
        errs := errs + upErrs;
        todo, done := todo - {name}, done + {name};
      }
      assert done == p.counts.Keys;
    }

    /** Marks the table down, raises what is configured, sweeps the rest. */
    method StartClients(ghost p: Plan) returns (errs: seq<Failure>)
      requires PlansClients(p, config)
      requires Valid()
      modifies clients, docker
      ensures Valid() && OnlyClass(old(docker.containers), docker.containers, CLIENT)
      ensures errs == [] ==> Converged(clients.entries, CLIENT, p, docker.containers, docker.report)
      ensures errs == [] && old(Covered(SeeClients(), CLIENT)) ==> Covered(SeeClients(), CLIENT)
      ensures errs == [] && Honest(p, CLIENT, docker.report)
        && old(Converged(clients.entries, CLIENT, p, docker.containers, docker.report))
        ==> docker.containers == old(docker.containers) && docker.journal == old(docker.journal)
      ensures docker.failures >= old(docker.failures)
      ensures Deployable(config) && old(Covered(SeeClients(), CLIENT)) ==>
        Steady(old(docker.containers), old(docker.failures), docker.containers, docker.failures, errs != [])
      ensures AllTried(clients.entries, errs, CLIENT, p, p.counts.Keys)
      ensures DownBut(clients.entries, errs, docker.containers)
    {
      ghost var t, f0 := clients.entries, docker.failures;
      ghost var fine := Deployable(config) && Covered(SeeClients(), CLIENT);
      clients.Mark();
      MarkCovers(t, CLIENT, docker.containers);
      ghost var s0 := SeeClients();
      errs := RaiseClients(p, t);
      ghost var a, f1, failed := SeeClients(), docker.failures, errs != [];
      var downErrs := clients.Sweep(docker);
      OnlyClassJoin(s0.containers, a.containers, docker.containers, CLIENT);
      EitherFails(errs, Failed(downErrs));
      TriedMore(clients.entries, clients.entries, errs, Failed(downErrs), CLIENT, p, p.counts.Keys);
      DownMore(clients.entries, errs, downErrs, docker.containers);
      errs := errs + Failed(downErrs);
      if fine {
        SteadySweep(s0.containers, f0, a, CLIENT, f1, failed, docker.containers, docker.failures, downErrs != []);
      }
      if errs == [] {
        PassEnds(p, CLIENT, t, s0, a, SeeClients(), docker.report);
      }
    }

    // Workers.

    method MakeWorkerEnv(name: string, instance: string) returns (env: seq<string>)
      ensures env == WorkerEnv(services, name, instance)
    {
      var list := new StringSet([]);
      list.AddEnv("CLOSE_INSTANCE", Key(name, instance));
      list.AddEnv("INFLUXDB_URL", services.influxURL);
      list.AddEnv("REDIS_URL", services.redisURL);
      env := list.items;
      assert "CLOSE_INSTANCE" + "=" + Key(name, instance) == "CLOSE_INSTANCE=" + Key(name, instance);
      assert "INFLUXDB_URL" + "=" + services.influxURL == "INFLUXDB_URL=" + services.influxURL;
      assert "REDIS_URL" + "=" + services.redisURL == "REDIS_URL=" + services.redisURL;
      WorkerEnvSorted(services, name, instance);
      SortedIsUnique(env, WorkerEnv(services, name, instance));
    }

    /** The worker shares the network of the client it names, which must be tracked. */
    method ClientNetwork(client: string, instance: string) returns (network: Option<string>)
      requires Valid() && IsDecimal(instance)
      ensures network.Some? <==> client == "" || Key(client, instance) in clients.entries
      ensures network.Some? ==> network.value == NetworkOf(client, instance)
    {
      if client == "" {
        return Some("");
      }
      if Key(client, instance) !in clients.entries {
        return None;
      }
      ClientAt(clients.entries, client, instance);
      network := Some("container:" + Name(clients.entries[Key(client, instance)].id));
    }

    method MakeWorker(name: string, instance: string, network: string) returns (wanted: Config)
      requires name in config.workers && network == NetworkOf(config.workers[name].client, instance)
      ensures wanted == WantWorker(config.workers[name], services, name, instance)
    {
      var c := config.workers[name];
      var env := MakeWorkerEnv(name, instance);
      var args: seq<string> := [];
      if c.instanceFlag != "" {
        args := args + ["-" + c.instanceFlag + "=" + Key(name, instance)];
      }
      args := args + c.args;
      var constraints := new StringSet([]);
      constraints.Set(c.constraints);
      SortedIsSort(constraints.items, c.constraints);
      wanted := Config(c.image, c.command, args, env, c.privileged, [], network, constraints.items);
    }

    /** `workerUp`, once the client is found: a worker needs a name that can register. */
    method LaunchWorker(ghost p: Plan, name: string, instance: string, network: string) returns (errs: seq<Failure>)
      requires PlansWorkers(p, config, services)
      requires name in config.workers && IsDecimal(instance)
      requires network == NetworkOf(config.workers[name].client, instance)
      modifies docker
      ensures OnlyAt(old(docker.containers), docker.containers, Name(ID(WORKER, name, instance)))
      ensures errs != [DockerFailed(ID(WORKER, name, instance))] ==>
        Brought(old(docker.containers), old(docker.journal), docker.containers, docker.journal,
                ID(WORKER, name, instance), p.want(name, instance), docker.report)
        && errs == if ValidSubID(config.workers[name].type_, Key(name, instance)) then []
                   else [BadSubID(ID(WORKER, name, instance))]
      ensures docker.failures >= old(docker.failures)
      ensures Parsable(name) && instance != "" && ValidSubID(config.workers[name].type_, Key(name, instance)) ==>
        Steady(old(docker.containers), old(docker.failures), docker.containers, docker.failures, errs != [])
    {
      var id := ID(WORKER, name, instance);
      if Parsable(name) && instance != "" {
        InstanceParses(WORKER, name, instance);
        OwnName(id);
      }
      var wanted := MakeWorker(name, instance, network);
      var ok := Up(docker, id, wanted);
      if !ok {
        return [DockerFailed(id)];
      }
      errs := if ValidSubID(config.workers[name].type_, Key(name, instance)) then [] else [BadSubID(id)];
    }

    /** `workerUp`: a worker needs its client, and a name that can register. */
    method StartWorker(ghost p: Plan, name: string, instance: string) returns (errs: seq<Failure>, worker: Entry)
      requires PlansWorkers(p, config, services)
      requires Valid() && name in config.workers && IsDecimal(instance)
      modifies docker
      ensures worker == Entry(name, instance, true, ID(WORKER, name, instance))
      ensures OnlyAt(old(docker.containers), docker.containers, Name(worker.id))
      ensures errs == [] ==> Brought(old(docker.containers), old(docker.journal), docker.containers, docker.journal,
                                     worker.id, p.want(name, instance), docker.report)
      ensures errs == [] ==> ValidSubID(config.workers[name].type_, Key(name, instance))
      ensures var client := config.workers[name].client;
        if client != "" && Key(client, instance) !in clients.entries
        then errs == [NoClient(client, instance)] && docker.containers == old(docker.containers)
        else errs == [] || errs == [DockerFailed(worker.id)]
             || (errs == [BadSubID(worker.id)] && !ValidSubID(config.workers[name].type_, Key(name, instance)))
      ensures docker.failures >= old(docker.failures)
      ensures Parsable(name) && instance != "" && Ready(config.workers[name], clients.entries, name, instance) ==>
        Steady(old(docker.containers), old(docker.failures), docker.containers, docker.failures, errs != [])
    {
      var client := config.workers[name].client;
      worker := Entry(name, instance, true, ID(WORKER, name, instance));
      var network := ClientNetwork(client, instance);
      if network.None? {
        return [NoClient(client, instance)], worker;
      }
      errs := LaunchWorker(p, name, instance, network.value);
    }

    /** One round of `WorkerUp`: the instance is remembered, started or not. */
    method NextWorker(ghost p: Plan, name: string, index: nat, ghost s0: Sight, ghost errs0: seq<Failure>)
      returns (errs: seq<Failure>)
      requires PlansWorkers(p, config, services)
      requires Valid() && Counted(p, name, index)
      requires UpBut(p, WORKER, name, index - 1, s0, SeeWorkers(), errs0, [], docker.report)
      modifies workers, docker
      ensures Valid()
      ensures UpBut(p, WORKER, name, index, s0, SeeWorkers(), errs0 + errs, [], docker.report)
      ensures docker.failures >= old(docker.failures)
      ensures Parsable(name) && Ready(config.workers[name], clients.entries, name, Decimal(index)) ==>
        Steady(old(docker.containers), old(docker.failures), docker.containers, docker.failures, errs != [])
      ensures workers.entries == old(workers.entries)[Key(name, Decimal(index)) := Risen(WORKER, name, index)]
    {
      ghost var a := SeeWorkers();
      var worker;
      errs, worker := StartWorker(p, name, Decimal(index));
      RisenOk(WORKER, name, index);
      workers.Put(worker);
      TriedOne(p, WORKER, name, index, s0, a, SeeWorkers(), errs0, errs, [], [], docker.report);
    }

    /** `WorkerUp`: starts every configured instance. */
    method WorkerUp(ghost p: Plan, name: string) returns (errs: seq<Failure>)
      requires PlansWorkers(p, config, services)
      requires Valid() && name in config.workers
      modifies workers, docker
      ensures Valid() && OnlyClass(old(docker.containers), docker.containers, WORKER)
      ensures errs == [] ==> Started(p, WORKER, name, config.workers[name].count,
                                     old(SeeWorkers()), SeeWorkers(), docker.report)
      ensures docker.failures >= old(docker.failures)
      ensures AllReady(config.workers[name], clients.entries, name) ==>
        Steady(old(docker.containers), old(docker.failures), docker.containers, docker.failures, errs != [])
      ensures TriedTo(workers.entries, [], WORKER, name, config.workers[name].count)
      ensures StillUp(old(workers.entries), workers.entries)
    {
      errs := [];
      ghost var s0, f0 := SeeWorkers(), docker.failures;
      StartedNone(p, WORKER, name, s0, docker.report);
      for index := 1 to config.workers[name].count + 1
        invariant Valid() && UpBut(p, WORKER, name, index - 1, s0, SeeWorkers(), errs, [], docker.report)
        invariant docker.failures >= f0
        invariant AllReady(config.workers[name], clients.entries, name) ==>
          Steady(s0.containers, f0, docker.containers, docker.failures, errs != [])
      {
        var upErrs := NextWorker(p, name, index, s0, errs);
        EitherFails(errs, upErrs);
        errs := errs + upErrs;
      }
    }

    /** `WorkerUp` of every configured name, in any order, after the table `t` was marked. */
    method RaiseWorkers(ghost p: Plan, ghost t: Entries) returns (errs: seq<Failure>)
      requires PlansWorkers(p, config, services)
      requires Valid() && WellFormed(t, WORKER) && workers.entries == Marked(t)
      modifies workers, docker
      ensures Valid() && OnlyClass(old(docker.containers), docker.containers, WORKER)
      ensures errs == [] ==> Passed(p, WORKER, p.counts.Keys,
                                    old(SeeWorkers()), SeeWorkers(), docker.report)
      ensures docker.failures >= old(docker.failures)
      ensures WorkersReady(config, clients.entries) ==>
        Steady(old(docker.containers), old(docker.failures), docker.containers, docker.failures, errs != [])
      ensures AllTried(workers.entries, [], WORKER, p, p.counts.Keys)
    {
      errs := [];
      ghost var s0, f0 := SeeWorkers(), docker.failures;
      ghost var ready := WorkersReady(config, clients.entries);
      PassedNone(p, WORKER, t, s0, docker.report);
      var todo := config.workers.Keys;
      ghost var done: set<string> := {};
      while todo != {}
        invariant done !! todo && done + todo == config.workers.Keys
        invariant Valid() && RaisedBut(p, WORKER, done, s0, SeeWorkers(), errs, [], docker.report)
        invariant docker.failures >= f0
        invariant ready ==> Steady(s0.containers, f0, docker.containers, docker.failures, errs != [])
        decreases todo
      {
        var name :| name in todo;
        ghost var a := SeeWorkers();
        var upErrs := WorkerUp(p, name);
        RaisedButStep(p, WORKER, done, name, s0, a, SeeWorkers(), errs, upErrs, [], [], docker.report);
        EitherFails(errs, upErrs);
        errs := errs + upErrs;
        todo, done := todo - {name}, done + {name};
      }
      assert done == p.counts.Keys;
    }

    /** Marks the table down, raises what is configured, sweeps the rest. */
    method StartWorkers(ghost p: Plan) returns (errs: seq<Failure>)
      requires PlansWorkers(p, config, services)
      requires Valid()
      modifies workers, docker
      ensures Valid() && OnlyClass(old(docker.containers), docker.containers, WORKER)
      ensures errs == [] ==> Converged(workers.entries, WORKER, p, docker.containers, docker.report)
      ensures errs == [] && old(Covered(SeeWorkers(), WORKER)) ==> Covered(SeeWorkers(), WORKER)
      ensures errs == [] && Honest(p, WORKER, docker.report)
        && old(Converged(workers.entries, WORKER, p, docker.containers, docker.report))
        ==> docker.containers == old(docker.containers) && docker.journal == old(docker.journal)
      ensures docker.failures >= old(docker.failures)
      ensures WorkersReady(config, clients.entries) && old(Covered(SeeWorkers(), WORKER)) ==>
        Steady(old(docker.containers), old(docker.failures), docker.containers, docker.failures, errs != [])
      ensures AllTried(workers.entries, [], WORKER, p, p.counts.Keys)
      ensures DownBut(workers.entries, errs, docker.containers)
    {
      ghost var t, f0 := workers.entries, docker.failures;
      ghost var fine := WorkersReady(config, clients.entries) && Covered(SeeWorkers(), WORKER);
      workers.Mark();
      MarkCovers(t, WORKER, docker.containers);
      ghost var s0 := SeeWorkers();
      errs := RaiseWorkers(p, t);
      ghost var a, f1, failed := SeeWorkers(), docker.failures, errs != [];
      var downErrs := workers.Sweep(docker);
      OnlyClassJoin(s0.containers, a.containers, docker.containers, WORKER);
      EitherFails(errs, Failed(downErrs));
      DownMore(workers.entries, errs, downErrs, docker.containers);
      errs := errs + Failed(downErrs);
      if fine {
        SteadySweep(s0.containers, f0, a, WORKER, f1, failed, docker.containers, docker.failures, downErrs != []);
      }
      if errs == [] {
        PassEnds(p, WORKER, t, s0, a, SeeWorkers(), docker.report);
      }
    }

    // The manager's operations.

    ghost predicate Realizes(p: Plan, q: Plan)
      reads this, clients, workers, docker
    {
      && Converged(clients.entries, CLIENT, p, docker.containers, docker.report)
      && Converged(workers.entries, WORKER, q, docker.containers, docker.report)
    }

    ghost predicate AsConfigured()
      reads this, clients, workers, docker
    {
      Realizes(ClientPlan(config), WorkerPlan(config, services))
    }

    /** Docker reports what was asked for, for everything that is configured. */
    ghost predicate Reliable()
      reads this
    {
      && Honest(ClientPlan(config), CLIENT, docker.report)
      && Honest(WorkerPlan(config, services), WORKER, docker.report)
    }

    /** The tables cover the containers that are ours: `Reconcile.BothCover`. */
    ghost predicate Tracked()
      reads this, clients, workers, docker
    {
      Covered(SeeClients(), CLIENT) && Covered(SeeWorkers(), WORKER)
    }

    /** And what they have as up is up. */
    ghost predicate Sound()
      reads this, clients, workers, docker
    {
      && clients.class_ == CLIENT && workers.class_ == WORKER
      && Holds(clients.entries, CLIENT, docker.containers) && Holds(workers.entries, WORKER, docker.containers)
    }

    ghost predicate Halted()
      reads this, clients, workers, docker
    {
      AllStopped(clients.entries, docker.containers) && AllStopped(workers.entries, docker.containers)
    }

    /** Whatever failed, everything was tried: each instance is up in its table or Docker failed on it, and
        so is everything else stopped. A worker is remembered as up, started or not. */
    ghost predicate Attempted(p: Plan, q: Plan, errs: seq<Failure>)
      reads this, clients, workers, docker
    {
      && AllTried(clients.entries, errs, CLIENT, p, p.counts.Keys)
      && AllTried(workers.entries, [], WORKER, q, q.counts.Keys)
      && DownBut(clients.entries, errs, docker.containers) && DownBut(workers.entries, errs, docker.containers)
    }

    /** `Start`, for the plans that the configuration makes. */
    method Realize(ghost p: Plan, ghost q: Plan) returns (errs: seq<Failure>)
      requires Valid() && PlansClients(p, config) && PlansWorkers(q, config, services)
      modifies clients, workers, docker
      ensures Valid() && OnlyManaged(old(docker.containers), docker.containers)
      ensures errs == [] ==> Realizes(p, q)
      ensures errs == [] && old(Tracked()) ==> Tracked()
      ensures errs == [] && Honest(p, CLIENT, docker.report) && Honest(q, WORKER, docker.report) && old(Realizes(p, q))
        ==> docker.containers == old(docker.containers) && docker.journal == old(docker.journal)
      ensures docker.failures >= old(docker.failures)
      ensures Deployable(config) && old(Tracked()) ==>
        Steady(old(docker.containers), old(docker.failures), docker.containers, docker.failures, errs != [])
      ensures Attempted(p, q, errs)
    {
      ghost var c0, t0, u0, f0 := docker.containers, clients.entries, workers.entries, docker.failures;
      ghost var fine := Deployable(config) && Tracked();
      errs := StartClients(p);
      ghost var a, f1, failed := docker.containers, docker.failures, errs != [];
      CoversStay(u0, WORKER, c0, a, CLIENT);
      if fine && !failed {
        DeployableReady(config, p, clients.entries, a, docker.report);
      }
      var workerErrs := StartWorkers(q);
      EitherFails(errs, workerErrs);
      TriedMore(clients.entries, clients.entries, errs, workerErrs, CLIENT, p, p.counts.Keys);
      DownElsewhere(clients.entries, CLIENT, errs, workerErrs, a, docker.containers, WORKER);
      errs := errs + workerErrs;
      CoversStay(clients.entries, CLIENT, a, docker.containers, WORKER);
      BothManaged(c0, a, docker.containers, CLIENT, WORKER);
      if errs == [] {
        ConvergedElsewhere(clients.entries, CLIENT, p, a, docker.containers, docker.report, WORKER);
      }
      if fine {
        SteadyJoin(c0, f0, a, f1, failed, docker.containers, docker.failures, workerErrs != []);
      }
    }

    /** Without errors both tables and Docker come to be as configured; on a second start Docker changes
        nothing. A deployable configuration fails to start only if Docker fails. Containers that are not
        ours are left alone. */
    method Start() returns (errs: seq<Failure>)
      requires Valid()
      modifies clients, workers, docker
      ensures Valid() && OnlyManaged(old(docker.containers), docker.containers)
      ensures errs == [] ==> AsConfigured()
      ensures errs == [] && old(Tracked()) ==> Sound()
      ensures errs == [] && Reliable() && old(AsConfigured())
        ==> docker.containers == old(docker.containers) && docker.journal == old(docker.journal)
      ensures docker.failures >= old(docker.failures)
      ensures Deployable(config) && old(Tracked()) ==>
        Steady(old(docker.containers), old(docker.failures), docker.containers, docker.failures, errs != [])
      ensures errs == [] ==> RunsAll(config, services, docker.containers, docker.report)
      ensures errs == [] && old(Tracked()) ==> RunsOnly(config, docker.containers)
      ensures Attempted(ClientPlan(config), WorkerPlan(config, services), errs)
    {
      ClientPlanPlans(config);
      WorkerPlanPlans(config, services);
      errs := Realize(ClientPlan(config), WorkerPlan(config, services));
      if errs == [] {
        ConvergedRuns(ClientPlan(config), CLIENT, clients.entries, docker.containers, docker.report);
        ConvergedRuns(WorkerPlan(config, services), WORKER, workers.entries, docker.containers, docker.report);
        AllRun(config, services, clients.entries, workers.entries, docker.containers, docker.report);
        if old(Tracked()) {
          OnlyThose(config, services, clients.entries, workers.entries, docker.containers, docker.report);
        }
      }
    }

    /** Stops everything tracked, and nothing else. */
    method Stop() returns (errs: seq<Failure>)
      requires Valid()
      modifies clients, workers, docker
      ensures Valid() && docker.containers.Keys == old(docker.containers).Keys
      ensures OnlyManaged(old(docker.containers), docker.containers)
      ensures clients.entries == Marked(old(clients.entries)) && workers.entries == Marked(old(workers.entries))
      ensures errs == [] ==> Halted()
      ensures DownBut(clients.entries, errs, docker.containers) && DownBut(workers.entries, errs, docker.containers)
      ensures OnlyStops(old(docker.containers), docker.containers)
      ensures old(Tracked()) ==> Sound()
      ensures docker.failures >= old(docker.failures)
      ensures old(Tracked()) ==>
        Steady(old(docker.containers), old(docker.failures), docker.containers, docker.failures, errs != [])
    {
      ghost var c0, t0, u0, tracked := docker.containers, clients.entries, workers.entries, Tracked();
      MarkedWellFormed(t0, CLIENT);
      MarkedWellFormed(u0, WORKER);
      var workerErrs := workers.DownAll(docker);
      ghost var a := docker.containers;
      var clientErrs := clients.DownAll(docker);
      EitherFails(Failed(workerErrs), Failed(clientErrs));
      errs := Failed(workerErrs) + Failed(clientErrs);
      DownMore(clients.entries, Failed(workerErrs), clientErrs, docker.containers);
      DownMore(workers.entries, [], workerErrs, a);
      assert [] + Failed(workerErrs) == Failed(workerErrs);
      DownElsewhere(workers.entries, WORKER, Failed(workerErrs), Failed(clientErrs), a, docker.containers, CLIENT);
      StopsJoin(c0, a, docker.containers);
      BothManaged(c0, a, docker.containers, WORKER, CLIENT);
      if errs == [] {
        StoppedElsewhere(workers.entries, WORKER, a, docker.containers, CLIENT);
      }
      if tracked {
        DownHolds(t0, CLIENT, c0, docker.containers);
        DownHolds(u0, WORKER, c0, docker.containers);
        CoversKeys(t0, clients.entries, CLIENT, c0, a);
        CoversKeys(u0, workers.entries, WORKER, c0, c0);
        AllThere(clients.entries, CLIENT, a);
        AllThere(workers.entries, WORKER, c0);
      }
    }

    /** Removes exactly the containers of the entries that are down. */
    method Clean() returns (errs: seq<Failure>)
      requires Valid()
      modifies clients, workers, docker
      ensures Valid() && OnlyManaged(old(docker.containers), docker.containers)
      ensures clients.entries == OnlyUp(old(clients.entries)) && workers.entries == OnlyUp(old(workers.entries))
      ensures errs == [] ==>
        docker.containers ==
        old(docker.containers) - DownNames(old(workers.entries), {}) - DownNames(old(clients.entries), {})
      ensures errs == [] && old(Sound()) ==> Sound()
      ensures docker.failures >= old(docker.failures)
      ensures old(Sound()) ==>
        Steady(old(docker.containers), old(docker.failures), docker.containers, docker.failures, errs != [])
    {
      ghost var c0, t0, u0, sound := docker.containers, clients.entries, workers.entries, Sound();
      UpOrDown(t0, CLIENT);
      UpOrDown(u0, WORKER);
      if sound {
        AllThere(u0, WORKER, c0);
      }
      var workerErrs := workers.CleanDown(docker);
      ghost var a := docker.containers;
      if sound {
        HoldsElsewhere(t0, CLIENT, c0, a, WORKER);
        AllThere(t0, CLIENT, a);
      }
      var clientErrs := clients.CleanDown(docker);
      EitherFails(Failed(workerErrs), Failed(clientErrs));
      errs := Failed(workerErrs) + Failed(clientErrs);
      BothManaged(c0, a, docker.containers, WORKER, CLIENT);
      if sound && errs == [] {
        CleanHolds(u0, WORKER, c0);
        HoldsElsewhere(workers.entries, WORKER, a, docker.containers, CLIENT);
        CleanHolds(t0, CLIENT, a);
      }
    }

    /** `discoverClient`, `discoverWorker`, and the switch on the class. A client of an unconfigured type
        is kept under the name of a nil configuration. */
    method DiscoverOne(id: ID)
      requires clients.class_ == CLIENT && workers.class_ == WORKER
      modifies clients, workers
      ensures Takes(config, old(clients.entries), old(workers.entries), clients.entries, workers.entries, id)
    {
      if id.class_ == CLIENT {
        var name := if id.type_ in config.clients then id.type_ else "<nil>";
        clients.entries := clients.entries[Key(name, id.instance) := Entry(name, id.instance, false, id)];
      } else if id.class_ == WORKER && id.type_ in config.workers {
        if ValidSubID(config.workers[id.type_].type_, Key(id.type_, id.instance)) {
          workers.entries := workers.entries[Key(id.type_, id.instance) := DownEntry(id)];
        }
      }
    }

    /** The loop of `Discover` over what was listed, in any order. */
    method Enter(found: map<string, ID>)
      requires clients.class_ == CLIENT && workers.class_ == WORKER
      requires clients.entries == map[] && workers.entries == map[]
      modifies clients, workers
      ensures EnteredSo(config, clients.entries, workers.entries, found, found.Keys)
    {
      var todo := found.Keys;
      ghost var done: set<string> := {};
      while todo != {}
        invariant done !! todo && done + todo == found.Keys
        invariant EnteredSo(config, clients.entries, workers.entries, found, done)
        decreases todo
      {
        var n :| n in todo;
        ghost var t, u := clients.entries, workers.entries;
        DiscoverOne(found[n]);
        EnterStep(config, t, u, clients.entries, workers.entries, found, done, n);
        todo, done := todo - {n}, done + {n};
      }
      assert done == found.Keys;
    }

    /** `Discover`, before the first `Start`: where our containers are the configuration's, the tables
        come to cover them. In any case the tables have only what Docker lists, as down. */
    method Discover() returns (ok: bool)
      requires Valid() && clients.entries == map[] && workers.entries == map[]
      modifies clients, workers, docker`failures
      ensures ok && AllKnown(config, docker.containers) ==> Sound()
      ensures ok ==> OnlyListed(clients.entries, CLIENT, docker.containers)
      ensures ok ==> OnlyListed(workers.entries, WORKER, docker.containers)
      ensures ok ==> AllListedEntered(config, docker.containers, clients.entries, workers.entries)
      ensures !ok ==> unchanged(clients) && unchanged(workers)
      ensures !ok && AllKnown(config, docker.containers) ==> docker.failures > old(docker.failures)
    {
      var fault: bool := *;
      if fault {
        docker.failures := docker.failures + 1;
      }
      var found := Listing.List(ContainerLabels(docker.containers), Listing.ANY, fault);
      if found.None? {
        NoneUnknown(config, docker.containers);
        return false;
      }
      Enter(found.value);
      FoundListed(docker.containers, clients.entries, CLIENT, found.value);
      FoundListed(docker.containers, workers.entries, WORKER, found.value);
      ListedEntered(config, docker.containers, clients.entries, workers.entries, found.value);
      if AllKnown(config, docker.containers) {
        DiscoveredHolds(config, docker.containers, clients.entries, workers.entries, found.value);
      }
      ok := true;
    }

    method Perform(cmd: Command) returns (errs: seq<Failure>)
      requires Valid()
      modifies this, clients, workers, docker
      ensures Valid() && OnlyManaged(old(docker.containers), docker.containers)
      ensures config == if cmd.DoLoad? && cmd.document.Some? then cmd.document.value else old(config)
      ensures errs == [] && old(Sound()) ==> Sound()
      ensures errs == [] && cmd == DoStart ==> AsConfigured()
      ensures errs == [] && cmd == DoStop ==> Halted()
      ensures cmd == DoClean && old(Halted()) ==> clients.entries == map[] && workers.entries == map[]
      ensures docker.failures >= old(docker.failures)
      ensures old(Sound()) && Deployable(config) && (cmd.DoLoad? ==> cmd.document.Some?) ==>
        Steady(old(docker.containers), old(docker.failures), docker.containers, docker.failures, errs != [])
    {
      match cmd
      case DoLoad(document) =>
        var ok := LoadConfig(document);
        errs := if ok then [] else [BadDocument];
      case DoStart => errs := Start();
      case DoStop => errs := Stop();
      case DoClean => errs := Clean();
    }

    /** Any sequence of commands, whatever else Docker runs. Without errors the tables keep covering our
        containers throughout; what was started last is up, and after a stop and a clean none of them is
        left. With deployable configurations there are no errors but Docker's. Containers that are not
        ours are left alone, errors or not. */
    method Drive(cmds: seq<Command>) returns (errs: seq<Failure>)
      requires Valid()
      modifies this, clients, workers, docker
      ensures Valid() && OnlyManaged(old(docker.containers), docker.containers)
      ensures errs == [] && old(Sound()) ==> Sound()
      ensures config == Loaded(old(config), cmds)
      ensures errs == [] && cmds != [] && cmds[|cmds| - 1] == DoStart ==>
        RunsAll(config, services, docker.containers, docker.report)
        && (old(Sound()) ==> RunsOnly(config, docker.containers))
      ensures errs == [] && |cmds| >= 2 && cmds[|cmds| - 2] == DoStop && cmds[|cmds| - 1] == DoClean ==>
        clients.entries == map[] && workers.entries == map[] && (old(Sound()) ==> NoneManaged(docker.containers))
      ensures old(Sound() && Clear(docker.containers) && Deployable(config)) && AllDeployable(cmds) && errs != [] ==>
        docker.failures > old(docker.failures)
    {
      errs := [];
      ghost var c0, f0, sound := docker.containers, docker.failures, Sound();
      ghost var fine := sound && Deployable(config) && AllDeployable(cmds);
      for i := 0 to |cmds|
        invariant Valid() && OnlyManaged(c0, docker.containers) && (sound && errs == [] ==> Sound())
        invariant config == Loaded(old(config), cmds[..i])
        invariant errs == [] && i > 0 && cmds[i - 1] == DoStart ==> AsConfigured()
        invariant errs == [] && i > 0 && cmds[i - 1] == DoStop ==> Halted()
        invariant errs == [] && i > 1 && cmds[i - 2] == DoStop && cmds[i - 1] == DoClean ==>
          clients.entries == map[] && workers.entries == map[]
        invariant docker.failures >= f0
        invariant fine ==> Deployable(config) && Steady(c0, f0, docker.containers, docker.failures, errs != [])
      {
        assert cmds[..i + 1][..i] == cmds[..i];
        ghost var a, f1, failed := docker.containers, docker.failures, errs != [];
        var more := Perform(cmds[i]);
        EitherFails(errs, more);
        errs := errs + more;
        OnlyManagedJoin(c0, a, docker.containers);
        if fine {
          SteadyJoin(c0, f0, a, f1, failed, docker.containers, docker.failures, more != []);
        }
      }
      assert cmds[..|cmds|] == cmds;
      if sound && errs == [] {
        EmptyTables(clients.entries, workers.entries, docker.containers);
      }
      if errs == [] && cmds != [] && cmds[|cmds| - 1] == DoStart {
        ConfiguredRuns(sound);
      }
    }

    /** What a converged manager comes to, in terms of the configuration. */
    lemma ConfiguredRuns(sound: bool)
      requires AsConfigured() && (sound ==> Sound())
      ensures RunsAll(config, services, docker.containers, docker.report)
      ensures sound ==> RunsOnly(config, docker.containers)
    {
      AllRun(config, services, clients.entries, workers.entries, docker.containers, docker.report);
      if sound {
        OnlyThose(config, services, clients.entries, workers.entries, docker.containers, docker.report);
      }
    }
  }

  lemma CoversStay(t: Entries, class_: string, a: Conts, b: Conts, other: string)
    requires OnlyClass(a, b, other) && NoDash(class_) && NoDash(other) && class_ != other
    ensures Covers(t, class_, a) ==> Covers(t, class_, b)
  {
    if Covers(t, class_, a) {
      CoversElsewhere(t, class_, a, b, other);
    }
  }

  /** A pass over each of the two tables. */
  lemma BothManaged(a: Conts, b: Conts, c: Conts, class_: string, other: string)
    requires OnlyClass(a, b, class_) && OnlyClass(b, c, other) && {class_, other} == {CLIENT, WORKER}
    ensures OnlyManaged(a, c)
  {
    ClassIsManaged(a, b, class_);
    ClassIsManaged(b, c, other);
    OnlyManagedJoin(a, b, c);
  }

  lemma ClientAt(t: Entries, name: string, instance: string)
    requires WellFormed(t, CLIENT) && Key(name, instance) in t && IsDecimal(instance)
    ensures t[Key(name, instance)].id == ID(CLIENT, name, instance)
  {
    var e := t[Key(name, instance)];
    DecimalHasNo(':', instance);
    DecimalHasNo(':', e.instance);
    KeyInjective(name, instance, e.name, e.instance);
  }

  // Discovery.

  /** Of the containers in `done`, the table has those of its class, all down. */
  ghost predicate Discovered(t: Entries, class_: string, found: map<string, ID>, done: set<string>) {
    && WellFormed(t, class_) && done <= found.Keys
    && (forall n :: n in Names(t) <==> n in done && found[n].class_ == class_)
    && UpRunning(t, map[])
  }

  /** A client is tracked, if need be under the name of a nil configuration; a worker if it is configured and
      can register. */
  predicate Entered(config: SystemConfig, t: Entries, u: Entries, id: ID) {
    && (id.class_ == CLIENT ==> Key(if id.type_ in config.clients then id.type_ else "<nil>", id.instance) in t)
    && (id.class_ == WORKER && Deployed(config, id) ==> Key(id.type_, id.instance) in u)
  }

  ghost predicate AllEntered(config: SystemConfig, t: Entries, u: Entries, found: map<string, ID>, done: set<string>) {
    forall n :: n in done && n in found ==> Entered(config, t, u, found[n])
  }

  ghost predicate AllListedEntered(config: SystemConfig, conts: Conts, t: Entries, u: Entries) {
    forall n, id :: n in conts && Identify("/" + n, conts[n].labels) == Some(id) ==> Entered(config, t, u, id)
  }

  lemma ListedEntered(config: SystemConfig, conts: Conts, t: Entries, u: Entries, found: map<string, ID>)
    requires Listing.Lists(ContainerLabels(conts), Listing.ANY, found) && AllEntered(config, t, u, found, found.Keys)
    ensures AllListedEntered(config, conts, t, u)
  {
    forall n, id | n in conts && Identify("/" + n, conts[n].labels) == Some(id)
      ensures Entered(config, t, u, id)
    {
      assert n in ContainerLabels(conts) && ContainerLabels(conts)[n] == conts[n].labels;
      Listing.ListsAny(ContainerLabels(conts), found, n, id);
      assert n in found.Keys && n in found;
    }
  }

  /** The entries are of containers that were found, and down. */
  ghost predicate OnlyFound(t: Entries, class_: string, found: map<string, ID>) {
    forall k :: k in t ==> !t[k].up && t[k].id.class_ == class_ && t[k].id in found.Values
  }

  ghost predicate OnlyListed(t: Entries, class_: string, conts: Conts) {
    forall k :: k in t ==> !t[k].up && t[k].id.class_ == class_ && ListedAs(conts, t[k].id)
  }

  ghost predicate ListedAs(conts: Conts, id: ID) {
    exists n :: n in conts && Identify("/" + n, conts[n].labels) == Some(id)
  }

  lemma FoundListed(conts: Conts, t: Entries, class_: string, found: map<string, ID>)
    requires Listing.Lists(ContainerLabels(conts), Listing.ANY, found) && OnlyFound(t, class_, found)
    ensures OnlyListed(t, class_, conts)
  {
    forall k | k in t
      ensures ListedAs(conts, t[k].id)
    {
      var n :| n in found && found[n] == t[k].id;
      assert n in ContainerLabels(conts) && ContainerLabels(conts)[n] == conts[n].labels;
    }
  }

  /** What one container does to the tables. */
  predicate Takes(config: SystemConfig, t: Entries, u: Entries, t': Entries, u': Entries, id: ID) {
    && (id.class_ == CLIENT && id.type_ in config.clients ==> t' == Put(t, CLIENT, id))
    && (id.class_ == CLIENT && id.type_ !in config.clients ==>
        t' == t[Key("<nil>", id.instance) := Entry("<nil>", id.instance, false, id)])
    && (id.class_ != CLIENT ==> t' == t)
    && u' == if id.class_ == WORKER && Deployed(config, id) then Put(u, WORKER, id) else u
  }

  /** What discovery has come to. */
  ghost predicate EnteredSo(config: SystemConfig, t: Entries, u: Entries, found: map<string, ID>, done: set<string>) {
    && (AllFoundKnown(config, found) ==> DiscoveredBoth(t, u, found, done))
    && OnlyFound(t, CLIENT, found) && OnlyFound(u, WORKER, found)
    && AllEntered(config, t, u, found, done)
  }

  lemma EnterStep(config: SystemConfig, t: Entries, u: Entries, t': Entries, u': Entries, found: map<string, ID>,
                  done: set<string>, n: string)
    requires EnteredSo(config, t, u, found, done) && n in found && Takes(config, t, u, t', u', found[n])
    ensures EnteredSo(config, t', u', found, done + {n})
  {
    if AllFoundKnown(config, found) {
      assert FoundKnown(config, n, found[n]);
      DiscoverBoth(config, t, u, found, done, n);
    }
    assert found[n] in found.Values;
    EnterKeeps(config, t, u, t', u', found, done, n);
  }

  lemma EnterKeeps(config: SystemConfig, t: Entries, u: Entries, t': Entries, u': Entries, found: map<string, ID>,
                   done: set<string>, n: string)
    requires AllEntered(config, t, u, found, done) && n in found && Takes(config, t, u, t', u', found[n])
    ensures AllEntered(config, t', u', found, done + {n})
  {
    assert Entered(config, t', u', found[n]);
  }

  ghost predicate AllFoundKnown(config: SystemConfig, found: map<string, ID>) {
    forall n :: n in found ==> FoundKnown(config, n, found[n])
  }

  ghost predicate FoundKnown(config: SystemConfig, n: string, id: ID) {
    Name(id) == n && (id.class_ in {CLIENT, WORKER} ==> Known(config, id))
  }

  lemma FoundIsKnown(config: SystemConfig, conts: Conts, found: map<string, ID>, n: string)
    requires AllKnown(config, conts) && Listing.Lists(ContainerLabels(conts), Listing.ANY, found) && n in found
    ensures n in conts && FoundKnown(config, n, found[n])
  {
    assert n in ContainerLabels(conts) && ContainerLabels(conts)[n] == conts[n].labels;
    Listing.ParsedHas(ContainerLabels(conts), n, found[n]);
    assert KnownAs(config, n, conts[n].labels);
  }

  lemma NoneUnknown(config: SystemConfig, conts: Conts)
    ensures AllKnown(config, conts) ==> Listing.AllRecognised(ContainerLabels(conts), Listing.ANY)
  {
    if AllKnown(config, conts) {
      forall n | n in ContainerLabels(conts) && Listing.Matches(Listing.ANY, ContainerLabels(conts)[n])
        ensures Identify("/" + n, ContainerLabels(conts)[n]).Some?
      {
        assert KnownAs(config, n, conts[n].labels);
      }
    }
  }

  lemma DiscoveredHolds(config: SystemConfig, conts: Conts, t: Entries, u: Entries, found: map<string, ID>)
    requires AllKnown(config, conts) && Listing.Lists(ContainerLabels(conts), Listing.ANY, found)
    requires AllFoundKnown(config, found) ==> DiscoveredBoth(t, u, found, found.Keys)
    ensures Holds(t, CLIENT, conts) && Holds(u, WORKER, conts)
  {
    forall n | n in found
      ensures FoundKnown(config, n, found[n])
    {
      FoundIsKnown(config, conts, found, n);
    }
    DiscoverEnds(config, conts, t, CLIENT, found);
    DiscoverEnds(config, conts, u, WORKER, found);
  }

  ghost predicate DiscoveredBoth(t: Entries, u: Entries, found: map<string, ID>, done: set<string>) {
    Discovered(t, CLIENT, found, done) && Discovered(u, WORKER, found, done)
  }

  function Put(t: Entries, class_: string, id: ID): Entries {
    if id.class_ == class_ then t[Key(id.type_, id.instance) := DownEntry(id)] else t
  }

  lemma DiscoverBoth(config: SystemConfig, t: Entries, u: Entries, found: map<string, ID>, done: set<string>, n: string)
    requires DiscoveredBoth(t, u, found, done) && n in found && FoundKnown(config, n, found[n])
    ensures DiscoveredBoth(Put(t, CLIENT, found[n]), Put(u, WORKER, found[n]), found, done + {n})
  {
    DiscoverStep(t, CLIENT, found, done, n);
    DiscoverStep(u, WORKER, found, done, n);
  }

  /** The effect of one container that was found on either table. */
  lemma DiscoverStep(t: Entries, class_: string, found: map<string, ID>, done: set<string>, n: string)
    requires Discovered(t, class_, found, done) && n in found && Name(found[n]) == n
    requires found[n].class_ == class_ ==> IsDecimal(found[n].instance)
    ensures Discovered(Put(t, class_, found[n]), class_, found, done + {n})
  {
    var id := found[n];
    if id.class_ == class_ {
      NamesPut(t, Key(id.type_, id.instance), DownEntry(id), class_);
    }
  }

  lemma DiscoverEnds(config: SystemConfig, conts: Conts, t: Entries, class_: string, found: map<string, ID>)
    requires AllKnown(config, conts) && Listing.Lists(ContainerLabels(conts), Listing.ANY, found)
    requires class_ in {CLIENT, WORKER} && Discovered(t, class_, found, found.Keys)
    ensures Holds(t, class_, conts)
  {
    forall n | !Foreign(n, class_)
      ensures n in conts <==> n in Names(t)
    {
      if n in conts {
        FoundAll(config, conts, class_, found, n);
      }
      if n in found {
        FoundIsKnown(config, conts, found, n);
      }
    }
  }

  lemma FoundAll(config: SystemConfig, conts: Conts, class_: string, found: map<string, ID>, n: string)
    requires AllKnown(config, conts) && Listing.Lists(ContainerLabels(conts), Listing.ANY, found)
    requires class_ in {CLIENT, WORKER} && !Foreign(n, class_) && n in conts
    ensures n in found && found[n].class_ == class_
  {
    assert Managed(n) && KnownAs(config, n, conts[n].labels);
    var id :| Identify("/" + n, conts[n].labels) == Some(id) && Known(config, id);
    Listing.ListsAny(ContainerLabels(conts), found, n, id);
    Listing.ParsedHas(ContainerLabels(conts), n, id);
    OwnClass(id, class_);
  }

  lemma OwnClass(id: ID, class_: string)
    requires IsDecimal(id.instance) && id.class_ in {CLIENT, WORKER} && class_ in {CLIENT, WORKER}
    requires !Foreign(Name(id), class_)
    ensures id.class_ == class_
  {
    OwnName(id);
    if id.class_ != class_ {
      OneClass(Name(id), id.class_, class_);
    }
  }

  // What is up, after an error-free start.

  ghost predicate Wanted(p: Plan, class_: string, n: string) {
    exists name, i: nat :: Counted(p, name, i) && n == Name(InstanceID(class_, name, i))
  }

  /** An instance that the configuration asks for, and the container's name. */
  predicate CountedClient(config: SystemConfig, name: string, i: nat) {
    name in config.clients && 1 <= i <= config.clients[name].count
  }

  predicate CountedWorker(config: SystemConfig, name: string, i: nat) {
    name in config.workers && 1 <= i <= config.workers[name].count
  }

  ghost predicate Configured(config: SystemConfig, n: string) {
    || (exists name, i: nat :: CountedClient(config, name, i) && n == "close-client-" + name + "-" + Decimal(i))
    || (exists name, i: nat :: CountedWorker(config, name, i) && n == "close-worker-" + name + "-" + Decimal(i))
  }

  lemma NamesSpelled(name: string, i: nat)
    ensures Name(InstanceID(CLIENT, name, i)) == "close-client-" + name + "-" + Decimal(i)
    ensures Name(InstanceID(WORKER, name, i)) == "close-worker-" + name + "-" + Decimal(i)
  {
    assert "close-" + CLIENT + "-" == "close-client-" && "close-" + WORKER + "-" == "close-worker-";
  }

  lemma PlansConfigured(config: SystemConfig, services: Services, n: string)
    ensures Wanted(ClientPlan(config), CLIENT, n) || Wanted(WorkerPlan(config, services), WORKER, n)
      <==> Configured(config, n)
  {
    var p, q := ClientPlan(config), WorkerPlan(config, services);
    forall name, i: nat
      ensures Counted(p, name, i) <==> CountedClient(config, name, i)
      ensures Counted(q, name, i) <==> CountedWorker(config, name, i)
    {
    }
    forall name, i: nat {
      NamesSpelled(name, i);
    }
  }

  /** Of our containers, those that are up are exactly instances 1 to the count of every configured client
      and worker, whatever else Docker runs. */
  lemma ConfiguredIsUp(config: SystemConfig, services: Services, t: Entries, u: Entries, conts: Conts, report: Report,
                       n: string)
    requires Converged(t, CLIENT, ClientPlan(config), conts, report)
    requires Converged(u, WORKER, WorkerPlan(config, services), conts, report)
    requires Covers(t, CLIENT, conts) && Covers(u, WORKER, conts)
    ensures Managed(n) && n in conts && IsUp(conts[n].state) <==> Configured(config, n)
  {
    ClassIsUp(ClientPlan(config), CLIENT, t, conts, report, n);
    ClassIsUp(WorkerPlan(config, services), WORKER, u, conts, report, n);
    PlansConfigured(config, services, n);
  }

  ghost predicate RunsOnly(config: SystemConfig, conts: Conts) {
    forall n :: Managed(n) && n in conts && IsUp(conts[n].state) <==> Configured(config, n)
  }

  lemma OnlyThose(config: SystemConfig, services: Services, t: Entries, u: Entries, conts: Conts, report: Report)
    requires Converged(t, CLIENT, ClientPlan(config), conts, report)
    requires Converged(u, WORKER, WorkerPlan(config, services), conts, report)
    requires Covers(t, CLIENT, conts) && Covers(u, WORKER, conts)
    ensures RunsOnly(config, conts)
  {
    forall n
      ensures Managed(n) && n in conts && IsUp(conts[n].state) <==> Configured(config, n)
    {
      ConfiguredIsUp(config, services, t, u, conts, report, n);
    }
  }

  // What the containers of an error-free start were asked to be.

  /** Up, and compatible with what is wanted or what Docker makes of being asked for it. */
  ghost predicate RunsAs(conts: Conts, id: ID, w: Config, report: Report) {
    && Name(id) in conts && IsUp(conts[Name(id)].state)
    && (Compatible(w, conts[Name(id)].config) || Requested(conts[Name(id)].config, w, id, report))
  }

  ghost predicate RunsClient(c: ClientConfig, name: string, i: nat, conts: Conts, report: Report) {
    exists w :: ClientWanted(w, c, name, Decimal(i)) && RunsAs(conts, ID("client", name, Decimal(i)), w, report)
  }

  ghost predicate RunsWorker(c: WorkerConfig, s: Services, name: string, i: nat, conts: Conts, report: Report) {
    exists w :: WorkerWanted(w, c, s, name, Decimal(i)) && RunsAs(conts, ID("worker", name, Decimal(i)), w, report)
  }

  /** Every configured instance runs, as the configuration wants it. */
  ghost predicate RunsAll(config: SystemConfig, s: Services, conts: Conts, report: Report) {
    && (forall name, i: nat :: CountedClient(config, name, i) ==>
          RunsClient(config.clients[name], name, i, conts, report))
    && (forall name, i: nat :: CountedWorker(config, name, i) ==>
          RunsWorker(config.workers[name], s, name, i, conts, report))
  }

  lemma InstanceRuns(p: Plan, class_: string, t: Entries, conts: Conts, report: Report, name: string, i: nat)
    requires Converged(t, class_, p, conts, report) && Counted(p, name, i)
    ensures RunsAs(conts, InstanceID(class_, name, i), p.want(name, Decimal(i)), report)
  {
    var k, id, w := Key(name, Decimal(i)), InstanceID(class_, name, i), p.want(name, Decimal(i));
    assert IsUpAt(t, k);
    DecimalHasNo(':', t[k].instance);
    DecimalHasNo(':', Decimal(i));
    KeyInjective(name, Decimal(i), t[k].name, t[k].instance);
    assert t[k].id == id && Satisfied(t[k], p, conts, report);
    OptionsAsk(w, id);
  }

  lemma AllRun(config: SystemConfig, s: Services, t: Entries, u: Entries, conts: Conts, report: Report)
    requires Converged(t, CLIENT, ClientPlan(config), conts, report)
    requires Converged(u, WORKER, WorkerPlan(config, s), conts, report)
    ensures RunsAll(config, s, conts, report)
  {
    forall name, i: nat | CountedClient(config, name, i)
      ensures RunsClient(config.clients[name], name, i, conts, report)
    {
      InstanceRuns(ClientPlan(config), CLIENT, t, conts, report, name, i);
      ClientWants(config.clients[name], name, Decimal(i));
    }
    forall name, i: nat | CountedWorker(config, name, i)
      ensures RunsWorker(config.workers[name], s, name, i, conts, report)
    {
      InstanceRuns(WorkerPlan(config, s), WORKER, u, conts, report, name, i);
      WorkerWants(config.workers[name], s, name, Decimal(i));
    }
  }

  lemma ClassIsUp(p: Plan, class_: string, t: Entries, conts: Conts, report: Report, n: string)
    requires Converged(t, class_, p, conts, report) && Covers(t, class_, conts)
    ensures !Foreign(n, class_) && n in conts && IsUp(conts[n].state) <==> Wanted(p, class_, n)
  {
    if Wanted(p, class_, n) {
      WantedIsTracked(p, class_, t, conts, report, n);
    }
    if n in Names(t) {
      UpExactly(p, class_, t, conts, report, n);
    }
  }

  lemma WantedIsTracked(p: Plan, class_: string, t: Entries, conts: Conts, report: Report, n: string)
    requires Converged(t, class_, p, conts, report) && Wanted(p, class_, n)
    ensures n in Names(t) && !Foreign(n, class_)
  {
    var name, i: nat :| Counted(p, name, i) && n == Name(InstanceID(class_, name, i));
    var k := Key(name, Decimal(i));
    assert IsUpAt(t, k);
    RisenOk(class_, name, i);
    EntryNames(k, t[k], k, Risen(class_, name, i), class_);
    OwnName(InstanceID(class_, name, i));
  }
}
