/** One pass of the controller over one of its tables: what starting instances does to the table and to
    Docker, whatever the order (control/manager.go, control/clients.go, control/worker.go). */
module Reconcile {
  import opened StringSets
  import opened Ident
  import opened Containers
  import opened Tables

  type Report = CreateOptions -> Config

  /** A table and Docker at one moment. */
  datatype Sight = Sight(entries: Entries, containers: Conts, journal: seq<Op>)

  function InstanceID(class_: string, name: string, i: nat): ID {
    ID(class_, name, Decimal(i))
  }

  function Risen(class_: string, name: string, i: nat): Entry {
    Entry(name, Decimal(i), true, InstanceID(class_, name, i))
  }

  // One instance.

  /** What a successful `docker.Up` does to the containers and to the journal. */
  ghost predicate Brought(a: Conts, j: seq<Op>, b: Conts, k: seq<Op>, id: ID, want: Config, report: Report) {
    && OnlyAt(a, b, Name(id))
    && Name(id) in b && Settled(b[Name(id)], want, id, report)
    && k == j + UpOps(a, id, want)
    && (UpOps(a, id, want) == [] ==> b == a)
  }

  /** The table covers its class: of the containers with such a name there are those that it tracks, and
      no others. */
  ghost predicate Covered(s: Sight, class_: string) {
    Covers(s.entries, class_, s.containers)
  }

  ghost predicate Covers(t: Entries, class_: string, conts: Conts) {
    forall n :: !Foreign(n, class_) ==> (n in conts <==> n in Names(t))
  }

  lemma CoveredStep(a: Sight, b: Sight, class_: string, k: string, e: Entry)
    requires Covered(a, class_) && WellFormed(a.entries, class_) && EntryOk(k, e, class_)
    requires b.entries == a.entries[k := e]
    requires OnlyAt(a.containers, b.containers, Name(e.id)) && Name(e.id) in b.containers
    ensures Covered(b, class_)
  {
    NamesPut(a.entries, k, e, class_);
    forall n | !Foreign(n, class_)
      ensures n in b.containers <==> n in Names(b.entries)
    {
      if n != Name(e.id) {
        SameOff(a.containers, b.containers, Name(e.id), n);
      }
    }
  }

  /** A pass over the other class leaves the coverage as it was. */
  lemma CoversElsewhere(t: Entries, class_: string, a: Conts, b: Conts, other: string)
    requires Covers(t, class_, a) && OnlyClass(a, b, other) && NoDash(class_) && NoDash(other) && class_ != other
    ensures Covers(t, class_, b)
  {
    forall n | !Foreign(n, class_)
      ensures n in b <==> n in Names(t)
    {
      OneClass(n, class_, other);
      assert SameAt(a, b, n);
    }
  }

  lemma CoversKeys(t: Entries, u: Entries, class_: string, a: Conts, b: Conts)
    requires Covers(t, class_, a) && Names(t) == Names(u) && a.Keys == b.Keys
    ensures Covers(u, class_, b)
  {
    forall n | !Foreign(n, class_)
      ensures n in b <==> n in Names(u)
    {
      assert n in b.Keys <==> n in a.Keys;
    }
  }

  predicate Counted(p: Plan, name: string, i: nat) {
    name in p.counts && 1 <= i <= p.counts[name]
  }

  /** Bringing up `name` would find every container in place, right and running. */
  ghost predicate Calm(p: Plan, class_: string, name: string, conts: Conts) {
    forall i: nat :: Counted(p, name, i) ==> UpOps(conts, InstanceID(class_, name, i), p.want(name, Decimal(i))) == []
  }

  // What can go wrong.

  /** From containers that are all recognised, a success leads to such, and a failure is Docker's. */
  ghost predicate Steady(a: Conts, f: nat, b: Conts, g: nat, failed: bool) {
    Clear(a) ==> if failed then g > f else Clear(b)
  }

  /** The second of two passes counts only if the first succeeded. */
  lemma SteadyJoin(a: Conts, f: nat, b: Conts, g: nat, failed: bool, c: Conts, h: nat, failed': bool)
    requires Steady(a, f, b, g, failed) && f <= g <= h
    requires !failed ==> Steady(b, g, c, h, failed')
    ensures Steady(a, f, c, h, failed || failed')
  {
  }

  /** A name whose containers are recognised. */
  predicate Parsable(name: string) {
    name != "" && '/' !in name
  }

  lemma InstanceParses(class_: string, name: string, instance: string)
    requires class_ != "" && '/' !in class_ && Parsable(name) && IsDecimal(instance) && instance != ""
    ensures Parses(ID(class_, name, instance))
  {
    var id := ID(class_, name, instance);
    DecimalHasNo('/', instance);
    IdentifyRoundTrip("", id);
  }

  // The instances of one name.

  ghost predicate Raised(t0: Entries, t: Entries, class_: string, name: string, n: nat) {
    && WellFormed(t, class_)
    && (forall i: nat :: 1 <= i <= n ==> IsUpAt(t, Key(name, Decimal(i))))
    && (forall k :: IsUpAt(t0, k) ==> IsUpAt(t, k))
    && (forall k :: k in t && !t[k].up ==> k in t0 && t0[k] == t[k])
  }

  lemma RisenOk(class_: string, name: string, i: nat)
    ensures EntryOk(Key(name, Decimal(i)), Risen(class_, name, i), class_)
  {
    assert IsDecimal(Decimal(i));
  }

  lemma RaisedStep(t0: Entries, t: Entries, class_: string, name: string, n: nat)
    requires Raised(t0, t, class_, name, n)
    ensures Raised(t0, t[Key(name, Decimal(n + 1)) := Risen(class_, name, n + 1)], class_, name, n + 1)
  {
    RisenOk(class_, name, n + 1);
  }

  /** The first `n` instances of `name` were started without error, from `s0` to `s`. */
  ghost predicate Started(p: Plan, class_: string, name: string, n: nat, s0: Sight, s: Sight, report: Report) {
    && Raised(s0.entries, s.entries, class_, name, n)
    && (Rising(s0.entries, class_, p, s0.containers, report) ==> Rising(s.entries, class_, p, s.containers, report))
    && (Covered(s0, class_) ==> Covered(s, class_))
    && (Calm(p, class_, name, s0.containers) ==> s.containers == s0.containers && s.journal == s0.journal)
  }

  lemma StartedNone(p: Plan, class_: string, name: string, s0: Sight, report: Report)
    requires WellFormed(s0.entries, class_)
    ensures Started(p, class_, name, 0, s0, s0, report)
  {
  }

  lemma RisingOneMore(p: Plan, class_: string, name: string, i: nat, a: Sight, b: Sight, report: Report)
    requires Rising(a.entries, class_, p, a.containers, report)
    requires Brought(a.containers, a.journal, b.containers, b.journal,
                     InstanceID(class_, name, i), p.want(name, Decimal(i)), report)
    requires b.entries == a.entries[Key(name, Decimal(i)) := Risen(class_, name, i)]
    requires Counted(p, name, i)
    ensures Rising(b.entries, class_, p, b.containers, report)
  {
    RisenOk(class_, name, i);
    RisingStep(a.entries, class_, p, a.containers, b.containers, report, Key(name, Decimal(i)), Risen(class_, name, i));
  }

  lemma StartedStep(p: Plan, class_: string, name: string, n: nat, s0: Sight, a: Sight, b: Sight, report: Report)
    requires Started(p, class_, name, n, s0, a, report)
    requires Brought(a.containers, a.journal, b.containers, b.journal,
                     InstanceID(class_, name, n + 1), p.want(name, Decimal(n + 1)), report)
    requires b.entries == a.entries[Key(name, Decimal(n + 1)) := Risen(class_, name, n + 1)]
    requires Counted(p, name, n + 1)
    ensures Started(p, class_, name, n + 1, s0, b, report)
  {
    var k, e := Key(name, Decimal(n + 1)), Risen(class_, name, n + 1);
    RaisedStep(s0.entries, a.entries, class_, name, n);
    RisenOk(class_, name, n + 1);
    if Rising(s0.entries, class_, p, s0.containers, report) {
      RisingOneMore(p, class_, name, n + 1, a, b, report);
    }
    if Covered(s0, class_) {
      CoveredStep(a, b, class_, k, e);
    }
  }

  // A whole pass: mark, start every name in any order, sweep.

  ghost predicate AllCalm(p: Plan, class_: string, conts: Conts) {
    forall name :: name in p.counts ==> Calm(p, class_, name, conts)
  }

  /** The entries that are not up are as they were in `t0`. */
  ghost predicate DownFrom(t0: Entries, t: Entries) {
    forall k :: k in t && !t[k].up ==> k in t0 && t0[k] == t[k]
  }

  /** From the marked table in `s0`, the instances of the names in `done` were started. */
  ghost predicate Passed(p: Plan, class_: string, done: set<string>, s0: Sight, s: Sight, report: Report) {
    && Rising(s.entries, class_, p, s.containers, report)
    && AllRaised(s.entries, p, done)
    && DownFrom(s0.entries, s.entries)
    && (Covered(s0, class_) ==> Covered(s, class_))
    && (AllCalm(p, class_, s0.containers) ==> s.containers == s0.containers && s.journal == s0.journal)
  }

  lemma PassedNone(p: Plan, class_: string, t: Entries, s0: Sight, report: Report)
    requires WellFormed(t, class_) && s0.entries == Marked(t)
    ensures Passed(p, class_, {}, s0, s0, report)
  {
    MarkedWellFormed(t, class_);
  }

  lemma RaisedAll(p: Plan, class_: string, done: set<string>, name: string, t0: Entries, a: Entries, b: Entries)
    requires name in p.counts && Raised(a, b, class_, name, p.counts[name])
    requires AllRaised(a, p, done) && DownFrom(t0, a)
    ensures AllRaised(b, p, done + {name}) && DownFrom(t0, b)
  {
  }

  lemma PassedStep(p: Plan, class_: string, done: set<string>, name: string, s0: Sight, a: Sight, b: Sight,
                   report: Report)
    requires Passed(p, class_, done, s0, a, report)
    requires name in p.counts && Started(p, class_, name, p.counts[name], a, b, report)
    ensures Passed(p, class_, done + {name}, s0, b, report)
  {
    RaisedAll(p, class_, done, name, s0.entries, a.entries, b.entries);
  }

  /** So an error-free pass converges. */
  lemma PassConverges(p: Plan, class_: string, t: Entries, a: Conts, b: Conts, report: Report)
    requires Rising(t, class_, p, a, report) && AllRaised(t, p, p.counts.Keys)
    requires Sweeping(t, class_, a, b) && Idle(t, {}, b)
    ensures Converged(t, class_, p, b, report)
  {
  }

  // A pass over a converged table.

  /** Docker reports what was asked for, for every desired container. */
  ghost predicate Honest(p: Plan, class_: string, report: Report) {
    forall name, i: nat :: Counted(p, name, i) ==> FaithfulAt(p, class_, name, i, report)
  }

  predicate FaithfulAt(p: Plan, class_: string, name: string, i: nat, report: Report) {
    Faithful(p.want(name, Decimal(i)), report(Options(p.want(name, Decimal(i)), InstanceID(class_, name, i))))
  }

  ghost predicate SortedPlan(p: Plan) {
    forall name, instance :: Sorted(p.want(name, instance).env)
  }

  lemma CalmAt(p: Plan, class_: string, t: Entries, conts: Conts, report: Report, name: string, i: nat)
    requires Converged(t, class_, p, conts, report) && SortedPlan(p) && Counted(p, name, i)
    requires FaithfulAt(p, class_, name, i, report)
    ensures UpOps(conts, InstanceID(class_, name, i), p.want(name, Decimal(i))) == []
  {
    var k, c, id := Key(name, Decimal(i)), p.want(name, Decimal(i)), InstanceID(class_, name, i);
    assert IsUpAt(t, k);
    DecimalHasNo(':', t[k].instance);
    DecimalHasNo(':', Decimal(i));
    KeyInjective(name, Decimal(i), t[k].name, t[k].instance);
    assert t[k].id == id && Satisfied(t[k], p, conts, report);
    CompatibleExact(c, report(Options(c, id)));
  }

  lemma ConvergedIsCalm(p: Plan, class_: string, t: Entries, conts: Conts, report: Report)
    requires Converged(t, class_, p, conts, report) && SortedPlan(p) && Honest(p, class_, report)
    ensures AllCalm(p, class_, conts)
  {
    forall name, i: nat | Counted(p, name, i)
      ensures UpOps(conts, InstanceID(class_, name, i), p.want(name, Decimal(i))) == []
    {
      CalmAt(p, class_, t, conts, report, name, i);
    }
  }

  /** Nothing is left for the sweep either. */
  lemma NothingToSweep(p: Plan, class_: string, t0: Entries, t: Entries, conts: Conts, report: Report)
    requires Converged(t0, class_, p, conts, report)
    requires AllRaised(t, p, p.counts.Keys) && DownFrom(Marked(t0), t)
    ensures Idle(t, {}, conts)
  {
    forall k | k in t && !t[k].up
      ensures Stopped(t[k], conts)
    {
      assert t0[k].up ==> Desired(p, t0[k].name, t0[k].instance);
    }
  }

  /** From the table `t` and the containers of `s0`, a pass reached `a`, and its sweep `b`. */
  lemma PassEnds(p: Plan, class_: string, t: Entries, s0: Sight, a: Sight, b: Sight, report: Report)
    requires WellFormed(t, class_) && s0.entries == Marked(t) && SortedPlan(p)
    requires Passed(p, class_, p.counts.Keys, s0, a, report)
    requires b.entries == a.entries && Idle(b.entries, {}, b.containers)
    requires Sweeping(a.entries, class_, a.containers, b.containers)
    requires Idle(a.entries, {}, a.containers) ==> b.journal == a.journal
    ensures Converged(b.entries, class_, p, b.containers, report)
    ensures Covered(s0, class_) ==> Covered(b, class_)
    ensures Converged(t, class_, p, s0.containers, report) && Honest(p, class_, report) ==>
      b.containers == s0.containers && b.journal == s0.journal
  {
    PassConverges(p, class_, a.entries, a.containers, b.containers, report);
    if Covered(s0, class_) {
      CoversKeys(a.entries, b.entries, class_, a.containers, b.containers);
    }
    if Converged(t, class_, p, s0.containers, report) && Honest(p, class_, report) {
      ConvergedIsCalm(p, class_, t, s0.containers, report);
      NothingToSweep(p, class_, t, a.entries, s0.containers, report);
    }
  }

  lemma MarkCovers(t: Entries, class_: string, conts: Conts)
    requires WellFormed(t, class_)
    ensures WellFormed(Marked(t), class_)
    ensures Covers(Marked(t), class_, conts) <==> Covers(t, class_, conts)
  {
    MarkedWellFormed(t, class_);
  }

  /** What covers its class misses none of its containers. */
  lemma AllThere(t: Entries, class_: string, conts: Conts)
    requires WellFormed(t, class_) && Covers(t, class_, conts)
    ensures !SomeMissing(t, conts)
  {
    forall k | k in t
      ensures Name(t[k].id) in conts
    {
      OwnName(t[k].id);
      assert Name(t[k].id) in Names(t);
    }
  }

  /** A pass up to `a`, then a sweep to the containers `b`. */
  lemma SteadySweep(c0: Conts, f0: nat, a: Sight, class_: string, f1: nat, failed: bool,
                    b: Conts, f2: nat, failed': bool)
    requires Steady(c0, f0, a.containers, f1, failed) && f1 >= f0
    requires !failed ==> WellFormed(a.entries, class_) && Covered(a, class_)
    requires Clear(a.containers) ==> Clear(b)
    requires Blame(failed', f1, f2, SomeMissing(a.entries, a.containers))
    ensures Steady(c0, f0, b, f2, failed || failed')
  {
    if !failed {
      AllThere(a.entries, class_, a.containers);
    }
  }

  /** A converged table names the containers that are up: those of the desired instances. */
  lemma UpExactly(p: Plan, class_: string, t: Entries, conts: Conts, report: Report, n: string)
    requires Converged(t, class_, p, conts, report) && n in Names(t)
    ensures n in conts
    ensures IsUp(conts[n].state) <==>
      exists name, i: nat :: Counted(p, name, i) && n == Name(InstanceID(class_, name, i))
  {
    var k :| k in t && Name(t[k].id) == n;
    if t[k].up {
      assert Satisfied(t[k], p, conts, report);
      var i: nat :| 1 <= i <= p.counts[t[k].name] && t[k].instance == Decimal(i);
      assert Counted(p, t[k].name, i) && n == Name(InstanceID(class_, t[k].name, i));
    } else {
      assert Stopped(t[k], conts);
      forall name, i: nat | Counted(p, name, i)
        ensures n != Name(InstanceID(class_, name, i))
      {
        var j := Key(name, Decimal(i));
        assert IsUpAt(t, j);
        RisenOk(class_, name, i);
        EntryNames(j, t[j], j, Risen(class_, name, i), class_);
        EntryNames(j, t[j], k, t[k], class_);
      }
    }
  }

  // The table of a class and Docker.

  ghost predicate UpRunning(t: Entries, conts: Conts) {
    forall k :: IsUpAt(t, k) ==> Name(t[k].id) in conts && IsUp(conts[Name(t[k].id)].state)
  }

  /** The table covers its class, and what it has as up is up. */
  ghost predicate Holds(t: Entries, class_: string, conts: Conts) {
    WellFormed(t, class_) && Covers(t, class_, conts) && UpRunning(t, conts)
  }

  lemma ConvergedRuns(p: Plan, class_: string, t: Entries, conts: Conts, report: Report)
    requires Converged(t, class_, p, conts, report)
    ensures UpRunning(t, conts)
  {
    forall k | IsUpAt(t, k)
      ensures Name(t[k].id) in conts && IsUp(conts[Name(t[k].id)].state)
    {
      assert Satisfied(t[k], p, conts, report);
    }
  }

  lemma HoldsElsewhere(t: Entries, class_: string, a: Conts, b: Conts, other: string)
    requires Holds(t, class_, a) && OnlyClass(a, b, other) && NoDash(other) && class_ != other
    ensures Holds(t, class_, b)
  {
    CoversElsewhere(t, class_, a, b, other);
    forall k | IsUpAt(t, k)
      ensures Name(t[k].id) in b && IsUp(b[Name(t[k].id)].state)
    {
      ForeignEntry(t[k], k, class_, other);
      assert SameAt(a, b, Name(t[k].id));
    }
  }

  lemma UpOrDown(t: Entries, class_: string)
    requires WellFormed(t, class_)
    ensures WellFormed(OnlyUp(t), class_)
    ensures Names(OnlyUp(t)) !! DownNames(t, {})
    ensures Names(OnlyUp(t)) + DownNames(t, {}) == Names(t)
  {
    var u := OnlyUp(t);
    forall k, j | k in u && j in t && !t[j].up
      ensures Name(u[k].id) != Name(t[j].id)
    {
      EntryNames(k, t[k], j, t[j], class_);
    }
    forall n | n in Names(t)
      ensures n in Names(u) + DownNames(t, {})
    {
      var k :| k in t && Name(t[k].id) == n;
      if t[k].up {
        assert k in u && u[k] == t[k];
      }
    }
  }

  /** Cleaning a table keeps the coverage, and what is up. */
  lemma CleanHolds(t: Entries, class_: string, conts: Conts)
    requires Holds(t, class_, conts)
    ensures Holds(OnlyUp(t), class_, conts - DownNames(t, {}))
  {
    UpOrDown(t, class_);
    var u, left := OnlyUp(t), conts - DownNames(t, {});
    forall k | IsUpAt(u, k)
      ensures Name(u[k].id) in left && IsUp(left[Name(u[k].id)].state)
    {
      assert IsUpAt(t, k);
      assert Name(u[k].id) in Names(u);
    }
  }

  // The two classes.

  /** No container that is not ours has changed. */
  ghost predicate OnlyManaged(a: Conts, b: Conts) {
    forall n :: !Managed(n) ==> SameAt(a, b, n)
  }

  lemma OnlyManagedJoin(a: Conts, b: Conts, c: Conts)
    requires OnlyManaged(a, b) && OnlyManaged(b, c)
    ensures OnlyManaged(a, c)
  {
    forall n | !Managed(n)
      ensures SameAt(a, c, n)
    {
      assert SameAt(a, b, n) && SameAt(b, c, n);
    }
  }

  lemma ClassIsManaged(a: Conts, b: Conts, class_: string)
    requires OnlyClass(a, b, class_) && class_ in {CLIENT, WORKER}
    ensures OnlyManaged(a, b)
  {
  }

  /** Tables that each cover their class cover all containers that are ours. */
  lemma BothCover(t: Entries, u: Entries, conts: Conts)
    requires WellFormed(t, CLIENT) && WellFormed(u, WORKER)
    ensures Covers(t, CLIENT, conts) && Covers(u, WORKER, conts) <==>
      forall n :: Managed(n) ==> (n in conts <==> n in Names(t) + Names(u))
  {
    forall n
      ensures n in Names(t) ==> !Foreign(n, CLIENT) && Foreign(n, WORKER)
      ensures n in Names(u) ==> !Foreign(n, WORKER) && Foreign(n, CLIENT)
    {
      NamesOwn(t, CLIENT, WORKER, n);
      NamesOwn(u, WORKER, CLIENT, n);
    }
    if forall n :: Managed(n) ==> (n in conts <==> n in Names(t) + Names(u)) {
      forall n | !Foreign(n, CLIENT)
        ensures n in conts <==> n in Names(t)
      {
        assert Managed(n);
        OneClass(n, CLIENT, WORKER);
      }
      forall n | !Foreign(n, WORKER)
        ensures n in conts <==> n in Names(u)
      {
        assert Managed(n);
        OneClass(n, WORKER, CLIENT);
      }
    }
    if Covers(t, CLIENT, conts) && Covers(u, WORKER, conts) {
      forall n | Managed(n)
        ensures n in conts <==> n in Names(t) + Names(u)
      {
        if Foreign(n, CLIENT) {
          assert n in conts <==> n in Names(u);
        } else {
          assert n in conts <==> n in Names(t);
        }
      }
    }
  }

  lemma NamesOwn(t: Entries, class_: string, other: string, n: string)
    requires WellFormed(t, class_) && NoDash(other) && class_ != other
    ensures n in Names(t) ==> !Foreign(n, class_) && Foreign(n, other)
  {
    if n in Names(t) {
      var k :| k in t && Name(t[k].id) == n;
      OwnName(t[k].id);
      OneClass(n, class_, other);
    }
  }

  /** Each container that is ours is then named by exactly one entry, of exactly one table. */
  lemma ExactlyOneEntry(t: Entries, u: Entries, conts: Conts, n: string)
    requires WellFormed(t, CLIENT) && WellFormed(u, WORKER)
    requires Covers(t, CLIENT, conts) && Covers(u, WORKER, conts) && Managed(n) && n in conts
    ensures (n in Names(t)) != (n in Names(u))
    ensures forall k, j :: k in t && j in t && Name(t[k].id) == n && Name(t[j].id) == n ==> k == j
    ensures forall k, j :: k in u && j in u && Name(u[k].id) == n && Name(u[j].id) == n ==> k == j
  {
    BothCover(t, u, conts);
    NamesOwn(t, CLIENT, WORKER, n);
    NamesOwn(u, WORKER, CLIENT, n);
    OneEntry(t, CLIENT, n);
    OneEntry(u, WORKER, n);
  }

  lemma OneEntry(t: Entries, class_: string, n: string)
    requires WellFormed(t, class_)
    ensures forall k, j :: k in t && j in t && Name(t[k].id) == n && Name(t[j].id) == n ==> k == j
  {
    forall k, j | k in t && j in t && Name(t[k].id) == n && Name(t[j].id) == n
      ensures k == j
    {
      EntryNames(k, t[k], j, t[j], class_);
    }
  }

  // Stopping and cleaning.

  ghost predicate AllStopped(t: Entries, conts: Conts) {
    forall k :: k in t ==> !t[k].up && Stopped(t[k], conts)
  }

  lemma StoppedElsewhere(t: Entries, class_: string, a: Conts, b: Conts, other: string)
    requires WellFormed(t, class_) && AllStopped(t, a) && OnlyClass(a, b, other)
    requires NoDash(other) && other != class_
    ensures AllStopped(t, b)
  {
    forall k | k in t
      ensures SameAt(a, b, Name(t[k].id))
    {
      ForeignEntry(t[k], k, class_, other);
    }
  }

  /** A table with nothing up holds as soon as it covers its class. */
  lemma DownHolds(t: Entries, class_: string, a: Conts, b: Conts)
    requires WellFormed(t, class_) && Covers(t, class_, a) && a.Keys == b.Keys
    ensures Holds(Marked(t), class_, b)
  {
    MarkedWellFormed(t, class_);
    CoversKeys(t, Marked(t), class_, a, b);
  }

  ghost predicate NoneManaged(conts: Conts) {
    forall n :: Managed(n) ==> n !in conts
  }

  /** Where the tables are empty and cover Docker it has none of our containers, and conversely. */
  lemma EmptyTables(t: Entries, u: Entries, conts: Conts)
    requires Holds(t, CLIENT, conts) && Holds(u, WORKER, conts)
    ensures t == map[] && u == map[] <==> NoneManaged(conts)
  {
    BothCover(t, u, conts);
    if t != map[] {
      var k :| k in t;
      OwnName(t[k].id);
      assert Name(t[k].id) in Names(t);
    }
    if u != map[] {
      var k :| k in u;
      OwnName(u[k].id);
      assert Name(u[k].id) in Names(u);
    }
  }
}
