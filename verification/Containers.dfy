/** Containers as the controller drives them (docker/config.go, docker/manager.go), over a small
    abstract Docker. Every call to Docker may fail. */
module Containers {
  import opened StringSets
  import opened Ident
  import opened Wrappers

  datatype Mount = Mount(source: string, destination: string, mode: string, rw: bool)

  datatype Config = Config(
    image: string,
    command: string,
    args: seq<string>,
    env: seq<string>,
    privileged: bool,
    mounts: seq<Mount>,
    networkMode: string,
    constraints: seq<string>)

  /** `Config.Equals`: whether a container reported with configuration `r` will do for `c`. */
  predicate Compatible(c: Config, r: Config) {
    && r.image == c.image
    && (c.command != "" ==> r.command == c.command && r.args == c.args)
    && IsSubset(c.env, r.env)
    && r.privileged == c.privileged
    && r.mounts == c.mounts
    && (c.networkMode != "" ==> r.networkMode == c.networkMode)
    && r.constraints == c.constraints
  }

  /** A report that is `c`, with more environment, and the image's own command and network where `c`
      leaves them open. */
  predicate Faithful(c: Config, r: Config) {
    && r.image == c.image
    && (c.command != "" ==> r.command == c.command && r.args == c.args)
    && Sorted(r.env) && multiset(c.env) <= multiset(r.env)
    && r.privileged == c.privileged
    && r.mounts == c.mounts
    && (c.networkMode != "" ==> r.networkMode == c.networkMode)
    && r.constraints == c.constraints
  }

  /** `Equals` accepts every faithful report; what else it accepts is an environment that overhangs
      the reported one. */
  lemma CompatibleExact(c: Config, r: Config)
    requires Sorted(c.env) && Sorted(r.env)
    ensures Faithful(c, r) <==> Compatible(c, r) && !Overhangs(c.env, r.env)
  {
    SubsetExact(c.env, r.env);
  }

  /** So a container that lacks a configured variable can pass as up to date. */
  lemma EqualsAcceptsMissingEnv()
    ensures var c := Config("i", "", [], ["REDIS_URL=x"], false, [], "", []);
      var r := c.(env := ["PATH=/bin"]);
      Compatible(c, r) && !Faithful(c, r)
  {
    SubsetAcceptsMissing();
  }

  method Equals(c: Config, r: Config) returns (same: bool)
    ensures same == Compatible(c, r)
  {
    if r.image != c.image {
      return false;
    }
    if c.command != "" {
      if r.command != c.command || |c.args| != |r.args| {
        return false;
      }
      for i := 0 to |c.args|
        invariant c.args[..i] == r.args[..i]
      {
        if c.args[i] != r.args[i] {
          return false;
        }
      }
      assert c.args[..|c.args|] == c.args && r.args[..|r.args|] == r.args;
    }
    var subset := Subset(c.env, r.env);
    if !subset || r.privileged != c.privileged || |c.mounts| != |r.mounts| {
      return false;
    }
    for i := 0 to |c.mounts|
      invariant c.mounts[..i] == r.mounts[..i]
    {
      if c.mounts[i] != r.mounts[i] {
        return false;
      }
    }
    assert c.mounts[..|c.mounts|] == c.mounts && r.mounts[..|r.mounts|] == r.mounts;
    if c.networkMode != "" && r.networkMode != c.networkMode {
      return false;
    }
    same := StringSets.Equals(c.constraints, r.constraints);
  }

  // What Docker is asked to create.

  datatype CreateOptions = CreateOptions(
    name: string,
    env: seq<string>,
    cmd: seq<string>,
    image: string,
    labels: map<string, string>,
    hostname: string,
    volumes: set<string>,
    binds: seq<string>,
    privileged: bool,
    networkMode: string)

  function Prefixed(constraints: seq<string>): seq<string> {
    if constraints == [] then []
    else Prefixed(constraints[..|constraints| - 1]) + ["constraint:" + constraints[|constraints| - 1]]
  }

  function Binds(mounts: seq<Mount>): seq<string> {
    if mounts == [] then []
    else
      var m := mounts[|mounts| - 1];
      Binds(mounts[..|mounts| - 1])
      + if m.source == "" then [] else [m.source + ":" + m.destination + ":" + m.mode]
  }

  /** Swarm constraints travel in the environment. */
  function FullEnv(env: seq<string>, constraints: seq<string>): seq<string> {
    if constraints == [] then env else SortStrings(env + Prefixed(constraints))
  }

  function Options(c: Config, id: ID): CreateOptions {
    CreateOptions(
      Name(id),
      FullEnv(c.env, c.constraints),
      if c.command == "" then [] else [c.command] + c.args,
      c.image,
      Labels(id),
      if c.networkMode == "" then Name(id) else "",
      set m | m in c.mounts :: m.destination,
      Binds(c.mounts),
      c.privileged,
      c.networkMode)
  }

  /** The mounts that have a source, by position. */
  function Sourced(mounts: seq<Mount>): (p: seq<nat>)
    ensures forall i :: 0 <= i < |p| ==> p[i] < |mounts| && mounts[p[i]].source != ""
    ensures forall i, j :: 0 <= i < j < |p| ==> p[i] < p[j]
    ensures forall k :: 0 <= k < |mounts| && mounts[k].source != "" ==> k in p
  {
    if mounts == [] then []
    else
      var n := |mounts| - 1;
      Sourced(mounts[..n]) + if mounts[n].source == "" then [] else [n]
  }

  /** One bind for each mount with a source, in order. */
  ghost predicate BindsOf(binds: seq<string>, mounts: seq<Mount>) {
    && |binds| == |Sourced(mounts)|
    && forall i :: 0 <= i < |binds| ==>
         var m := mounts[Sourced(mounts)[i]];
         binds[i] == m.source + ":" + m.destination + ":" + m.mode
  }

  /** The environment asked for, as a multiset: what is configured, and the constraints. */
  ghost predicate EnvOf(env: seq<string>, c: Config) {
    multiset(env) == multiset(c.env) + multiset(Marks(c.constraints))
  }

  function Marks(constraints: seq<string>): seq<string> {
    seq(|constraints|, i requires 0 <= i < |constraints| => "constraint:" + constraints[i])
  }

  /** What Docker is to be asked for `c` as the container of `id`. */
  ghost predicate Asks(o: CreateOptions, c: Config, id: ID) {
    && o.name == "close-" + id.class_ + "-" + id.type_ + "-" + id.instance
    && EnvOf(o.env, c)
    && o.cmd == (if c.command == "" then [] else [c.command] + c.args)
    && o.image == c.image && o.privileged == c.privileged && o.networkMode == c.networkMode
    && o.labels == map["close" := id.class_, "close.type" := id.type_, "close.instance" := id.instance]
    && o.hostname == (if c.networkMode == "" then o.name else "")
    && (forall v :: v in o.volumes <==> exists m :: m in c.mounts && m.destination == v)
    && BindsOf(o.binds, c.mounts)
  }

  lemma {:induction false} PrefixedContents(constraints: seq<string>)
    ensures Prefixed(constraints) == Marks(constraints)
  {
    if constraints != [] {
      var n := |constraints| - 1;
      PrefixedContents(constraints[..n]);
      assert Marks(constraints) == Marks(constraints[..n]) + ["constraint:" + constraints[n]];
    }
  }

  lemma EnvTells(c: Config)
    ensures EnvOf(FullEnv(c.env, c.constraints), c)
  {
    PrefixedContents(c.constraints);
    var all := c.env + Marks(c.constraints);
    assert multiset(all) == multiset(c.env) + multiset(Marks(c.constraints));
    if c.constraints == [] {
      assert all == c.env;
    } else {
      SortedPermutation(all);
    }
  }

  lemma VolumesTell(c: Config, id: ID)
    ensures forall v :: v in Options(c, id).volumes <==> exists m :: m in c.mounts && m.destination == v
  {
  }

  lemma {:induction false} BindsTell(mounts: seq<Mount>)
    ensures BindsOf(Binds(mounts), mounts)
  {
    if mounts != [] {
      BindsTell(mounts[..|mounts| - 1]);
    }
  }

  lemma OptionsAsk(c: Config, id: ID)
    ensures Asks(Options(c, id), c, id)
  {
    EnvTells(c);
    BindsTell(c.mounts);
    VolumesTell(c, id);
  }

  /** A container that is what Docker reports of one that it was asked for so. */
  ghost predicate Requested(config: Config, c: Config, id: ID, report: CreateOptions -> Config) {
    exists o :: Asks(o, c, id) && config == report(o)
  }

  lemma SortedIsSort(s: seq<string>, t: seq<string>)
    requires Sorted(s) && multiset(s) == multiset(t)
    ensures s == SortStrings(t)
  {
    SortedPermutation(t);
    SortedIsUnique(s, SortStrings(t));
  }

  lemma FullEnvStep(env: seq<string>, constraints: seq<string>, i: nat, s: seq<string>)
    requires i < |constraints| && Sorted(s)
    requires multiset(s) == multiset(FullEnv(env, constraints[..i])) + multiset{"constraint:" + constraints[i]}
    ensures s == FullEnv(env, constraints[..i + 1])
  {
    var before := env + Prefixed(constraints[..i]);
    assert constraints[..i + 1][..i] == constraints[..i];
    var after := env + Prefixed(constraints[..i + 1]);
    assert after == before + ["constraint:" + constraints[i]];
    SortedPermutation(before);
    if i == 0 {
      assert before == env;
    }
    SortedIsSort(s, after);
  }

  method MakeEnv(env0: seq<string>, constraints: seq<string>) returns (env: seq<string>)
    ensures env == FullEnv(env0, constraints)
  {
    var list := new StringSet([]);
    list.items := env0;
    for i := 0 to |constraints|
      invariant list.items == FullEnv(env0, constraints[..i])
    {
      list.Add("constraint:" + constraints[i]);
      FullEnvStep(env0, constraints, i, list.items);
    }
    assert constraints[..|constraints|] == constraints;
    env := list.items;
  }

  method MakeBinds(mounts: seq<Mount>) returns (binds: seq<string>, volumes: set<string>)
    ensures binds == Binds(mounts)
    ensures volumes == set m | m in mounts :: m.destination
  {
    binds, volumes := [], {};
    for i := 0 to |mounts|
      invariant binds == Binds(mounts[..i])
      invariant volumes == set m | m in mounts[..i] :: m.destination
    {
      var mount := mounts[i];
      assert mounts[..i + 1] == mounts[..i] + [mount];
      volumes := volumes + {mount.destination};
      if mount.source != "" {
        binds := binds + [mount.source + ":" + mount.destination + ":" + mount.mode];
      }
    }
    assert mounts[..|mounts|] == mounts;
  }

  /** `Config.createOptions`. */
  method MakeOptions(c: Config, id: ID) returns (o: CreateOptions)
    ensures o == Options(c, id) && Asks(o, c, id)
  {
    OptionsAsk(c, id);
    var env := MakeEnv(c.env, c.constraints);
    var binds, volumes := MakeBinds(c.mounts);
    o := CreateOptions(Name(id), env, if c.command == "" then [] else [c.command] + c.args, c.image,
                       Labels(id), if c.networkMode == "" then Name(id) else "", volumes, binds,
                       c.privileged, c.networkMode);
  }

  // Docker.

  datatype RunState = Created | Running | Paused | Restarting | Exited | Dead

  predicate IsUp(s: RunState) {
    s.Paused? || s.Restarting? || s.Running?
  }

  datatype Container = Container(labels: map<string, string>, config: Config, state: RunState)

  datatype Op = Create(name: string) | Remove(name: string) | Start(name: string) | Stop(name: string)

  datatype StopResult = StopOk | NotRunning | StopFailed

  datatype Lookup = LookupFailed | NoSuchContainer | Found(container: Container)

  /** Docker's state, and a journal of the calls that changed it. Any call may fail; `failures` counts
      those that did. What it reports of a container is some function of what it was asked to create. */
  class Docker {
    var containers: map<string, Container>
    var journal: seq<Op>
    var failures: nat
    const report: CreateOptions -> Config

    constructor (report: CreateOptions -> Config)
      ensures containers == map[] && journal == [] && this.report == report
    {
      containers, journal, failures := map[], [], 0;
      this.report := report;
    }

    method Inspect(name: string) returns (r: Lookup)
      modifies `failures
      ensures r == LookupFailed || r == if name in containers then Found(containers[name]) else NoSuchContainer
      ensures r.LookupFailed? <==> failures == old(failures) + 1
      ensures !r.LookupFailed? ==> failures == old(failures)
    {
      if * {
        failures, r := failures + 1, LookupFailed;
      } else {
        r := if name in containers then Found(containers[name]) else NoSuchContainer;
      }
    }

    method RemoveContainer(name: string) returns (ok: bool)
      modifies this
      ensures ok ==> name in old(containers) && containers == old(containers) - {name}
      ensures ok ==> journal == old(journal) + [Remove(name)]
      ensures !ok ==> unchanged(`containers) && unchanged(`journal)
      ensures failures == old(failures) + if ok || name !in old(containers) then 0 else 1
    {
      ok := name in containers;
      if ok {
        if * {
          ok, failures := false, failures + 1;
        } else {
          containers, journal := containers - {name}, journal + [Remove(name)];
        }
      }
    }

    method CreateContainer(o: CreateOptions) returns (ok: bool)
      modifies this
      ensures ok ==> o.name !in old(containers)
      ensures ok ==> containers == old(containers)[o.name := Container(o.labels, report(o), Created)]
      ensures ok ==> journal == old(journal) + [Create(o.name)]
      ensures !ok ==> unchanged(`containers) && unchanged(`journal)
      ensures failures == old(failures) + if ok || o.name in old(containers) then 0 else 1
    {
      ok := o.name !in containers;
      if ok {
        if * {
          ok, failures := false, failures + 1;
        } else {
          containers := containers[o.name := Container(o.labels, report(o), Created)];
          journal := journal + [Create(o.name)];
        }
      }
    }

    method StartContainer(name: string) returns (ok: bool)
      modifies this
      ensures ok ==> name in old(containers)
      ensures ok ==> containers == old(containers)[name := old(containers)[name].(state := Running)]
      ensures ok ==> journal == old(journal) + [Start(name)]
      ensures !ok ==> unchanged(`containers) && unchanged(`journal)
      ensures failures == old(failures) + if ok || name !in old(containers) then 0 else 1
    {
      ok := name in containers;
      if ok {
        if * {
          ok, failures := false, failures + 1;
        } else {
          containers, journal := containers[name := containers[name].(state := Running)], journal + [Start(name)];
        }
      }
    }

    method StopContainer(name: string) returns (r: StopResult)
      modifies this
      ensures r.StopOk? ==> name in old(containers) && IsUp(old(containers)[name].state)
      ensures r.StopOk? ==> containers == old(containers)[name := old(containers)[name].(state := Exited)]
      ensures r.StopOk? ==> journal == old(journal) + [Stop(name)]
      ensures r.NotRunning? ==> name in containers && !IsUp(containers[name].state)
      ensures !r.StopOk? ==> unchanged(`containers) && unchanged(`journal)
      ensures failures == old(failures) + if !r.StopFailed? || name !in old(containers) then 0 else 1
      ensures name !in old(containers) ==> r.StopFailed?
    {
      r := StopFailed;
      if name in containers {
        if * {
          failures := failures + 1;
        } else if IsUp(containers[name].state) {
          containers, journal := containers[name := containers[name].(state := Exited)], journal + [Stop(name)];
          r := StopOk;
        } else {
          r := NotRunning;
        }
      }
    }
  }

  // The container manager.

  /** Nothing but the container `name` differs. */
  ghost predicate OnlyAt(before: map<string, Container>, after: map<string, Container>, name: string) {
    before - {name} == after - {name}
  }

  /** `cont` is up, with a configuration that will do for `c`, or just created from it. */
  predicate Settled(cont: Container, c: Config, id: ID, report: CreateOptions -> Config) {
    IsUp(cont.state) && (Compatible(c, cont.config) || cont.config == report(Options(c, id)))
  }

  predicate Recognised(conts: map<string, Container>, name: string) {
    name in conts ==> Identify("/" + name, conts[name].labels).Some?
  }

  /** Every container with a name of ours is recognised by its labels. */
  ghost predicate Clear(conts: map<string, Container>) {
    forall n :: Managed(n) ==> Recognised(conts, n)
  }

  lemma StaysClear(a: map<string, Container>, b: map<string, Container>, name: string)
    requires Clear(a) && OnlyAt(a, b, name) && (Managed(name) ==> Recognised(b, name))
    ensures Clear(b)
  {
    forall n | Managed(n)
      ensures Recognised(b, n)
    {
      assert Recognised(a, n);
      if n != name && n in b {
        assert n in b - {name} && (b - {name})[n] == b[n];
        assert n in a - {name} && (a - {name})[n] == a[n];
      }
    }
  }

  /** A container created for this ID is recognised: `Ident.IdentifyRoundTrip` says when. */
  predicate Parses(id: ID) {
    Identify("/" + Name(id), Labels(id)).Some?
  }

  /** `Manager.Get`: an unrecognised container is an error. */
  method Get(d: Docker, name: string) returns (r: Lookup)
    modifies d`failures
    ensures r.LookupFailed? || r == if name in d.containers then Found(d.containers[name]) else NoSuchContainer
    ensures r.LookupFailed? <==> d.failures > old(d.failures) || !Recognised(d.containers, name)
    ensures d.failures >= old(d.failures) && (!r.LookupFailed? ==> d.failures == old(d.failures))
  {
    r := d.Inspect(name);
    if r.Found? && Identify("/" + name, r.container.labels).None? {
      r := LookupFailed;
    }
  }

  /** What a successful `Up` does, by what it finds. */
  function UpOps(before: map<string, Container>, id: ID, c: Config): seq<Op> {
    var n := Name(id);
    if n !in before then [Create(n), Start(n)]
    else if !Compatible(c, before[n].config) then [Remove(n), Create(n), Start(n)]
    else if !IsUp(before[n].state) then [Start(n)]
    else []
  }

  /** A compatible container that runs, is paused or restarts is left as it is. */
  lemma UpCalls(before: map<string, Container>, id: ID, c: Config)
    ensures var n := Name(id);
      && (n !in before ==> UpOps(before, id, c) == [Create(n), Start(n)])
      && (n in before && !Compatible(c, before[n].config) ==> UpOps(before, id, c) == [Remove(n), Create(n), Start(n)])
      && (n in before && Compatible(c, before[n].config) ==>
          UpOps(before, id, c) == if before[n].state in {Created, Exited, Dead} then [Start(n)] else [])
  {
  }

  /** The container that can stay: whether it is up. */
  function Usable(conts: map<string, Container>, name: string, c: Config): Option<bool> {
    if name in conts && Compatible(c, conts[name].config) then Some(IsUp(conts[name].state)) else None
  }

  /** The first half of `Up`: a container that will not do is destroyed. */
  method Reuse(d: Docker, name: string, c: Config) returns (ok: bool, up: Option<bool>)
    modifies d
    ensures ok ==> up == Usable(old(d.containers), name, c)
    ensures ok && up.None? ==> d.containers == old(d.containers) - {name}
    ensures ok && up.None? ==> d.journal == old(d.journal) + if name in old(d.containers) then [Remove(name)] else []
    ensures !ok || up.Some? ==> d.containers == old(d.containers) && d.journal == old(d.journal)
    ensures !ok ==> d.failures > old(d.failures) || !Recognised(old(d.containers), name)
    ensures d.failures >= old(d.failures)
  {
    var got := Get(d, name);
    if got.LookupFailed? {
      return false, None;
    }
    if got.Found? {
      var same := Equals(c, got.container.config);
      if same {
        return true, Some(IsUp(got.container.state));
      }
      var removed := d.RemoveContainer(name);
      if !removed {
        return false, None;
      }
    }
    return true, None;
  }

  predicate SameButState(a: Container, b: Container) {
    b.labels == a.labels && b.config == a.config
  }

  /** Created and started, or just started: what `Up` does once it knows whether a container can stay. */
  method Raise(d: Docker, id: ID, c: Config, up: Option<bool>) returns (ok: bool)
    requires up.Some? ==> Name(id) in d.containers && IsUp(d.containers[Name(id)].state) == up.value
    requires up.None? ==> Name(id) !in d.containers
    modifies d
    ensures OnlyAt(old(d.containers), d.containers, Name(id))
    ensures ok ==> Name(id) in d.containers && IsUp(d.containers[Name(id)].state)
    ensures ok && up.None? ==> d.containers[Name(id)].config == d.report(Options(c, id))
    ensures ok && up.None? ==> Requested(d.containers[Name(id)].config, c, id, d.report)
    ensures up.Some? ==>
      Name(id) in d.containers && SameButState(old(d.containers)[Name(id)], d.containers[Name(id)])
    ensures up.None? && Name(id) in d.containers ==> d.containers[Name(id)].labels == Labels(id)
    ensures ok ==> d.journal == old(d.journal) + RaiseOps(Name(id), up)
    ensures up == Some(true) ==> ok && d.containers == old(d.containers)
    ensures d.failures == old(d.failures) + if ok then 0 else 1
  {
    ok := true;
    if up.None? {
      var options := MakeOptions(c, id);
      ok := d.CreateContainer(options);
    }
    if ok && up != Some(true) {
      ok := d.StartContainer(Name(id));
    }
  }

  function RaiseOps(n: string, up: Option<bool>): seq<Op> {
    match up
    case None => [Create(n), Start(n)]
    case Some(true) => []
    case Some(false) => [Start(n)]
  }

  lemma RaisedClear(a: map<string, Container>, b: map<string, Container>, id: ID, stayed: bool)
    requires Clear(a) && Parses(id) && Managed(Name(id)) && OnlyAt(a, b, Name(id))
    requires stayed ==> Name(id) in a && Name(id) in b && SameButState(a[Name(id)], b[Name(id)])
    requires !stayed && Name(id) in b ==> b[Name(id)].labels == Labels(id)
    ensures Clear(b)
  {
    assert Recognised(a, Name(id));
    StaysClear(a, b, Name(id));
  }

  /** Fails only if Docker did, or if the name is taken by a container that is not recognised. */
  method Up(d: Docker, id: ID, c: Config) returns (ok: bool)
    modifies d
    ensures OnlyAt(old(d.containers), d.containers, Name(id))
    ensures ok ==> Name(id) in d.containers && Settled(d.containers[Name(id)], c, id, d.report)
    ensures ok && Usable(old(d.containers), Name(id), c).None? ==>
      d.containers[Name(id)].labels == Labels(id) && Requested(d.containers[Name(id)].config, c, id, d.report)
    ensures ok && Usable(old(d.containers), Name(id), c).Some? ==>
      SameButState(old(d.containers)[Name(id)], d.containers[Name(id)])
    ensures ok ==> d.journal == old(d.journal) + UpOps(old(d.containers), id, c)
    ensures ok && UpOps(old(d.containers), id, c) == [] ==> d.containers == old(d.containers)
    ensures old(Clear(d.containers)) && Parses(id) && Managed(Name(id)) ==> Clear(d.containers)
    ensures !ok ==> d.failures > old(d.failures) || !Recognised(old(d.containers), Name(id))
    ensures d.failures >= old(d.failures)
  {
    ghost var c0 := d.containers;
    var up;
    ok, up := Reuse(d, Name(id), c);
    if !ok {
      return;
    }
    ok := Raise(d, id, c, up);
    if Clear(c0) && Parses(id) && Managed(Name(id)) {
      RaisedClear(c0, d.containers, id, up.Some?);
    }
  }

  /** What stopping a container may do: nothing to one that does not run. */
  ghost predicate Downed(a: map<string, Container>, b: map<string, Container>, n: string) {
    && OnlyAt(a, b, n) && b.Keys == a.Keys
    && (Clear(a) ==> Clear(b))
    && (n in a && !IsUp(a[n].state) ==> b == a)
    && OnlyStops(a, b)
  }

  /** A container that was touched was stopped, and is otherwise as it was. */
  ghost predicate OnlyStops(a: map<string, Container>, b: map<string, Container>) {
    forall n :: n in a && n in b ==> b[n] == a[n] || b[n] == a[n].(state := Exited)
  }

  lemma StopsOne(a: map<string, Container>, b: map<string, Container>, n: string)
    requires OnlyAt(a, b, n) && (n in a && n in b ==> b[n] == a[n] || b[n] == a[n].(state := Exited))
    ensures OnlyStops(a, b)
  {
    forall m | m in a && m in b && m != n
      ensures b[m] == a[m]
    {
      assert (b - {n})[m] == (a - {n})[m];
    }
  }

  /** Stops the container if it is up; one that is not running is left as it is, one that does not
      exist is an error. */
  method Down(d: Docker, id: ID) returns (ok: bool)
    modifies d
    ensures Downed(old(d.containers), d.containers, Name(id))
    ensures ok ==> Name(id) in d.containers && !IsUp(d.containers[Name(id)].state)
    ensures !ok ==> d.containers == old(d.containers)
    ensures d.journal == old(d.journal) + if d.containers == old(d.containers) then [] else [Stop(Name(id))]
    ensures !ok ==> Name(id) !in d.containers || d.failures > old(d.failures)
    ensures d.failures >= old(d.failures)
  {
    var r := d.StopContainer(Name(id));
    ok := !r.StopFailed?;
    ghost var c0 := old(d.containers);
    StopsOne(c0, d.containers, Name(id));
    if Clear(c0) {
      assert Managed(Name(id)) ==> Recognised(c0, Name(id));
      StaysClear(c0, d.containers, Name(id));
    }
  }

  method Clean(d: Docker, id: ID) returns (ok: bool)
    modifies d
    ensures ok ==> Name(id) in old(d.containers) && d.containers == old(d.containers) - {Name(id)}
    ensures !ok ==> d.containers == old(d.containers) && d.journal == old(d.journal)
    ensures old(Clear(d.containers)) ==> Clear(d.containers)
    ensures !ok ==> Name(id) !in d.containers || d.failures > old(d.failures)
    ensures d.failures >= old(d.failures)
  {
    ghost var c0 := d.containers;
    ok := d.RemoveContainer(Name(id));
    if Clear(c0) {
      StaysClear(c0, d.containers, Name(id));
    }
  }
}
