/** The controller's tables of clients and workers (control/clients.go, control/worker.go): what is
    tracked, and the mark, sweep, down and clean passes over it. Both tables work alike. */
module Tables {
  import opened Ident
  import opened Containers

  datatype Entry = Entry(name: string, instance: string, up: bool, id: ID)

  type Entries = map<string, Entry>
  type Conts = map<string, Container>

  predicate NoDash(class_: string) {
    '-' !in class_
  }

  /** An entry under its own key, naming its own container. */
  predicate EntryOk(key: string, e: Entry, class_: string) {
    && key == Key(e.name, e.instance)
    && e.id == ID(class_, e.name, e.instance)
    && IsDecimal(e.instance)
  }

  ghost predicate WellFormed(t: Entries, class_: string) {
    NoDash(class_) && forall k :: k in t ==> EntryOk(k, t[k], class_)
  }

  lemma EntryNames(k: string, e: Entry, k': string, e': Entry, class_: string)
    requires NoDash(class_) && EntryOk(k, e, class_) && EntryOk(k', e', class_)
    ensures Name(e.id) == Name(e'.id) <==> k == k'
    ensures k == k' ==> e.id == e'.id
  {
    DecimalHasNo('-', e.instance);
    DecimalHasNo('-', e'.instance);
    DecimalHasNo(':', e.instance);
    DecimalHasNo(':', e'.instance);
    NameInjective(e.id, e'.id);
    KeyInjective(e.name, e.instance, e'.name, e'.instance);
  }

  lemma OtherClass(e: Entry, k: string, class_: string, e': Entry, k': string, class': string)
    requires NoDash(class_) && NoDash(class') && class_ != class'
    requires EntryOk(k, e, class_) && EntryOk(k', e', class')
    ensures Name(e.id) != Name(e'.id)
  {
    DecimalHasNo('-', e.instance);
    DecimalHasNo('-', e'.instance);
    NameInjective(e.id, e'.id);
  }

  /** The containers a table keeps track of. */
  function Names(t: Entries): set<string> {
    set k | k in t :: Name(t[k].id)
  }

  lemma NamesPut(t: Entries, k: string, e: Entry, class_: string)
    requires WellFormed(t, class_) && EntryOk(k, e, class_)
    ensures WellFormed(t[k := e], class_) && Names(t[k := e]) == Names(t) + {Name(e.id)}
  {
    var u := t[k := e];
    forall n | n in Names(t) + {Name(e.id)}
      ensures n in Names(u)
    {
      if n == Name(e.id) {
        assert k in u;
      } else {
        var j :| j in t && Name(t[j].id) == n;
        if j == k {
          EntryNames(j, t[j], k, e, class_);
        }
        assert j in u && u[j] == t[j];
      }
    }
  }

  // Frames: which containers a pass may touch.

  ghost predicate SameAt(a: Conts, b: Conts, n: string) {
    (n in a <==> n in b) && (n in a ==> a[n] == b[n])
  }

  /** Containers that no entry of this class could have, those that are not ours among them, are alike. */
  ghost predicate OnlyClass(a: Conts, b: Conts, class_: string) {
    forall n :: Foreign(n, class_) ==> SameAt(a, b, n)
  }

  lemma SameOff(a: Conts, b: Conts, name: string, n: string)
    requires OnlyAt(a, b, name) && n != name
    ensures SameAt(a, b, n)
  {
    assert n in a <==> n in a - {name};
    assert n in b <==> n in b - {name};
    if n in a {
      assert (a - {name})[n] == (b - {name})[n];
    }
  }

  lemma OnlyClassStep(a: Conts, b: Conts, c: Conts, id: ID)
    requires OnlyClass(a, b, id.class_) && OnlyAt(b, c, Name(id)) && IsDecimal(id.instance)
    ensures OnlyClass(a, c, id.class_)
  {
    forall n | Foreign(n, id.class_)
      ensures SameAt(a, c, n)
    {
      SameOff(b, c, Name(id), n);
    }
  }

  lemma OnlyClassJoin(a: Conts, b: Conts, c: Conts, class_: string)
    requires OnlyClass(a, b, class_) && OnlyClass(b, c, class_)
    ensures OnlyClass(a, c, class_)
  {
    forall n | Foreign(n, class_)
      ensures SameAt(a, c, n)
    {
      assert SameAt(a, b, n) && SameAt(b, c, n);
    }
  }

  lemma ForeignEntry(e: Entry, k: string, class_: string, other: string)
    requires NoDash(class_) && NoDash(other) && class_ != other && EntryOk(k, e, class_)
    ensures Foreign(Name(e.id), other)
  {
    forall id: ID | id.class_ == other && IsDecimal(id.instance)
      ensures Name(id) != Name(e.id)
    {
      OtherClass(e, k, class_, Entry(id.type_, id.instance, false, id), Key(id.type_, id.instance), other);
    }
  }

  // The desired state.

  /** How many instances of each name there should be, and the container each should have. */
  datatype Plan = Plan(counts: map<string, nat>, want: (string, string) -> Config)

  ghost predicate Desired(p: Plan, name: string, instance: string) {
    name in p.counts && exists i: nat :: 1 <= i <= p.counts[name] && instance == Decimal(i)
  }

  predicate Satisfied(e: Entry, p: Plan, conts: Conts, report: CreateOptions -> Config) {
    Name(e.id) in conts && Settled(conts[Name(e.id)], p.want(e.name, e.instance), e.id, report)
  }

  predicate Stopped(e: Entry, conts: Conts) {
    Name(e.id) in conts && !IsUp(conts[Name(e.id)].state)
  }

  /** While instances are being started: every entry that is up is desired, and has its container. */
  ghost predicate Rising(t: Entries, class_: string, p: Plan, conts: Conts, report: CreateOptions -> Config) {
    && WellFormed(t, class_)
    && forall k :: k in t && t[k].up ==> Desired(p, t[k].name, t[k].instance) && Satisfied(t[k], p, conts, report)
  }

  predicate IsUpAt(t: Entries, k: string) {
    k in t && t[k].up
  }

  ghost predicate AllRaised(t: Entries, p: Plan, names: set<string>) {
    forall name, i: nat :: name in names && name in p.counts && 1 <= i <= p.counts[name]
      ==> IsUpAt(t, Key(name, Decimal(i)))
  }

  /** What the controller is to bring about: the entries that are up are exactly the desired ones,
      their containers are up and right, and the other tracked containers are stopped. */
  ghost predicate Converged(t: Entries, class_: string, p: Plan, conts: Conts, report: CreateOptions -> Config) {
    && Rising(t, class_, p, conts, report)
    && AllRaised(t, p, p.counts.Keys)
    && forall k :: k in t && !t[k].up ==> Stopped(t[k], conts)
  }

  /** One more instance started. */
  lemma RisingStep(t: Entries, class_: string, p: Plan, a: Conts, b: Conts, report: CreateOptions -> Config,
                   k: string, e: Entry)
    requires Rising(t, class_, p, a, report) && OnlyAt(a, b, Name(e.id))
    requires EntryOk(k, e, class_) && Desired(p, e.name, e.instance) && Satisfied(e, p, b, report)
    ensures Rising(t[k := e], class_, p, b, report)
  {
    forall j | j in t && j != k && t[j].up
      ensures Satisfied(t[j], p, b, report)
    {
      EntryNames(j, t[j], k, e, class_);
      SameOff(a, b, Name(e.id), Name(t[j].id));
    }
  }

  /** A pass over the other table leaves this one as it was. */
  lemma ConvergedElsewhere(t: Entries, class_: string, p: Plan, a: Conts, b: Conts,
                           report: CreateOptions -> Config, other: string)
    requires Converged(t, class_, p, a, report) && OnlyClass(a, b, other)
    requires NoDash(other) && other != class_
    ensures Converged(t, class_, p, b, report)
  {
    forall k | k in t
      ensures SameAt(a, b, Name(t[k].id))
    {
      ForeignEntry(t[k], k, class_, other);
    }
  }

  /** Some entry has no container. */
  ghost predicate SomeMissing(t: Entries, conts: Conts) {
    exists k :: k in t && Name(t[k].id) !in conts
  }

  // What the passes keep, step by step. Only containers of the class are touched.

  /** A sweep of `t` took `a` to `b`: entries that are up keep their containers, and if all the others
      were stopped already nothing has happened. */
  ghost predicate Sweeping(t: Entries, class_: string, a: Conts, b: Conts) {
    && OnlyClass(a, b, class_) && b.Keys == a.Keys && (Clear(a) ==> Clear(b))
    && (forall k :: k in t && t[k].up ==> SameAt(a, b, Name(t[k].id)))
    && (Idle(t, {}, a) ==> b == a) && OnlyStops(a, b)
  }

  /** The entries that are not up, those in `todo` apart, are stopped. */
  ghost predicate Idle(t: Entries, todo: set<string>, conts: Conts) {
    forall k :: k in t && k !in todo && !t[k].up ==> Stopped(t[k], conts)
  }

  /** The same, but for those whose stop failed: one failure keeps no other entry from being stopped. */
  ghost predicate IdleBut(t: Entries, todo: set<string>, errs: seq<ID>, conts: Conts) {
    forall k :: k in t && k !in todo && !t[k].up ==> Stopped(t[k], conts) || t[k].id in errs
  }

  lemma StopsJoin(a: Conts, b: Conts, c: Conts)
    requires OnlyStops(a, b) && OnlyStops(b, c) && b.Keys == a.Keys
    ensures OnlyStops(a, c)
  {
    forall n | n in a && n in c
      ensures c[n] == a[n] || c[n] == a[n].(state := Exited)
    {
      assert n in b.Keys;
    }
  }

  lemma SweepStep(t: Entries, class_: string, a: Conts, b: Conts, c: Conts, k: string)
    requires WellFormed(t, class_) && k in t && !t[k].up
    requires Sweeping(t, class_, a, b) && Downed(b, c, Name(t[k].id))
    ensures Sweeping(t, class_, a, c)
  {
    OnlyClassStep(a, b, c, t[k].id);
    StoppedOff(t, class_, b, c, k);
    StopsJoin(a, b, c);
    if Idle(t, {}, a) {
      assert Stopped(t[k], a);
    }
  }

  lemma IdleStep(t: Entries, class_: string, todo: set<string>, errs: seq<ID>, more: seq<ID>, b: Conts, c: Conts,
                 k: string)
    requires WellFormed(t, class_) && k in t
    requires IdleBut(t, todo, errs, b) && OnlyAt(b, c, Name(t[k].id)) && (Stopped(t[k], c) || t[k].id in more)
    ensures IdleBut(t, todo - {k}, errs + more, c)
  {
    StoppedOff(t, class_, b, c, k);
  }

  /** What a pass that stops containers may do to them. */
  ghost predicate Stopping(class_: string, a: Conts, b: Conts) {
    OnlyClass(a, b, class_) && b.Keys == a.Keys && (Clear(a) ==> Clear(b)) && OnlyStops(a, b)
  }

  lemma StoppingStep(t: Entries, class_: string, a: Conts, b: Conts, c: Conts, k: string)
    requires WellFormed(t, class_) && k in t && Stopping(class_, a, b) && Downed(b, c, Name(t[k].id))
    ensures Stopping(class_, a, c)
  {
    OnlyClassStep(a, b, c, t[k].id);
    StopsJoin(a, b, c);
  }

  /** A pass fails only if Docker does, or if a container is missing. */
  predicate Blame(failed: bool, f: nat, g: nat, missing: bool) {
    g >= f && (failed ==> g > f || missing)
  }

  /** Docker at one moment, without its report. */
  datatype Moment = Moment(conts: Conts, journal: seq<Op>, failures: nat)

  /** A pass over the entries of `t` that are down, with those in `todo` still to visit. */
  ghost predicate Halting(t: Entries, class_: string, todo: set<string>, errs: seq<ID>, a: Moment, b: Moment) {
    && Sweeping(t, class_, a.conts, b.conts)
    && IdleBut(t, todo, errs, b.conts)
    && (Idle(t, {}, a.conts) ==> b.journal == a.journal)
    && Blame(errs != [], a.failures, b.failures, SomeMissing(t, a.conts))
  }

  lemma HaltingStep(t: Entries, class_: string, todo: set<string>, errs: seq<ID>, more: seq<ID>, a: Moment, b: Moment,
                     c: Moment, k: string)
    requires WellFormed(t, class_) && k in t && !t[k].up && Halting(t, class_, todo, errs, a, b)
    requires Downed(b.conts, c.conts, Name(t[k].id)) && (Stopped(t[k], c.conts) || t[k].id in more)
    requires c.conts == b.conts ==> c.journal == b.journal
    requires Blame(more != [], b.failures, c.failures, Name(t[k].id) !in b.conts)
    ensures Halting(t, class_, todo - {k}, errs + more, a, c)
  {
    SweepStep(t, class_, a.conts, b.conts, c.conts, k);
    IdleStep(t, class_, todo, errs, more, b.conts, c.conts, k);
    if Idle(t, {}, a.conts) {
      assert Stopped(t[k], a.conts);
    }
  }

  lemma HaltingEnds(t: Entries, class_: string, errs: seq<ID>, a: Moment, b: Moment)
    requires Halting(t, class_, {}, errs, a, b)
    ensures Stopping(class_, a.conts, b.conts) && IdleBut(t, {}, errs, b.conts)
    ensures Blame(errs != [], a.failures, b.failures, SomeMissing(t, a.conts))
  {
  }

  // The passes.

  class Table {
    const class_: string
    var entries: Entries

    constructor (class_: string)
      ensures this.class_ == class_ && entries == map[]
    {
      this.class_ := class_;
      entries := map[];
    }

    method Put(e: Entry)
      requires WellFormed(entries, class_) && EntryOk(Key(e.name, e.instance), e, class_)
      modifies this
      ensures entries == old(entries)[Key(e.name, e.instance) := e] && WellFormed(entries, class_)
    {
      entries := entries[Key(e.name, e.instance) := e];
    }

    /** `markClients`, `markWorkers`. */
    method Mark()
      modifies this
      ensures entries == Marked(old(entries))
    {
      var todo := entries.Keys;
      ghost var was := entries;
      while todo != {}
        invariant todo <= was.Keys && entries == MidMark(was, todo)
        decreases todo
      {
        var k :| k in todo;
        MidMarkStep(was, todo, k);
        entries := entries[k := entries[k].(up := false)];
        todo := todo - {k};
      }
    }

    /** `sweepClients`, `sweepWorkers`: stops what is not marked up. Returns what failed. */
    method Sweep(d: Docker) returns (errs: seq<ID>)
      requires WellFormed(entries, class_)
      modifies d
      ensures Sweeping(entries, class_, old(d.containers), d.containers)
      ensures IdleBut(entries, {}, errs, d.containers)
      ensures Idle(entries, {}, old(d.containers)) ==> d.journal == old(d.journal)
      ensures Blame(errs != [], old(d.failures), d.failures, SomeMissing(entries, old(d.containers)))
    {
      errs := [];
      var todo := entries.Keys;
      ghost var a := Moment(d.containers, d.journal, d.failures);
      while todo != {}
        invariant todo <= entries.Keys
        invariant Halting(entries, class_, todo, errs, a, Moment(d.containers, d.journal, d.failures))
        decreases todo
      {
        var k :| k in todo;
        if !entries[k].up {
          var more := StopOne(d, entries[k].id, entries, k, todo, errs, a);
          errs := errs + more;
        }
        todo := todo - {k};
      }
    }

    /** One entry of a pass over `t` that stops containers. */
    method StopOne(d: Docker, id: ID, ghost t: Entries, ghost k: string, ghost todo: set<string>,
                   ghost errs0: seq<ID>, ghost a: Moment) returns (errs: seq<ID>)
      requires WellFormed(t, class_) && k in t && !t[k].up && t[k].id == id
      requires Halting(t, class_, todo, errs0, a, Moment(d.containers, d.journal, d.failures))
      modifies d
      ensures Halting(t, class_, todo - {k}, errs0 + errs, a, Moment(d.containers, d.journal, d.failures))
    {
      ghost var b := Moment(d.containers, d.journal, d.failures);
      var ok := Down(d, id);
      errs := if ok then [] else [id];
      HaltingStep(t, class_, todo, errs0, errs, a, b, Moment(d.containers, d.journal, d.failures), k);
    }

    /** `ClientDown(nil)`, `WorkerDown(nil)`: marks everything down and stops it. */
    method DownAll(d: Docker) returns (errs: seq<ID>)
      requires WellFormed(entries, class_)
      modifies this, d
      ensures entries == Marked(old(entries))
      ensures Stopping(class_, old(d.containers), d.containers)
      ensures IdleBut(Marked(old(entries)), {}, errs, d.containers)
      ensures Blame(errs != [], old(d.failures), d.failures, SomeMissing(Marked(old(entries)), old(d.containers)))
    {
      errs := [];
      var todo := entries.Keys;
      ghost var was, marked, a := entries, Marked(entries), Moment(d.containers, d.journal, d.failures);
      MarkedWellFormed(was, class_);
      while todo != {}
        invariant todo <= was.Keys && entries == MidMark(was, todo)
        invariant Halting(marked, class_, todo, errs, a, Moment(d.containers, d.journal, d.failures))
        decreases todo
      {
        var k :| k in todo;
        var more := DownOne(d, k, was, todo, errs, a);
        errs := errs + more;
        todo := todo - {k};
      }
      HaltingEnds(marked, class_, errs, a, Moment(d.containers, d.journal, d.failures));
    }

    /** One entry of `DownAll`. */
    method DownOne(d: Docker, k: string, ghost was: Entries, ghost todo: set<string>, ghost errs0: seq<ID>,
                   ghost a: Moment) returns (errs: seq<ID>)
      requires k in todo && k in was && entries == MidMark(was, todo) && WellFormed(Marked(was), class_)
      requires Halting(Marked(was), class_, todo, errs0, a, Moment(d.containers, d.journal, d.failures))
      modifies this, d
      ensures entries == MidMark(was, todo - {k})
      ensures Halting(Marked(was), class_, todo - {k}, errs0 + errs, a, Moment(d.containers, d.journal, d.failures))
    {
      MidMarkStep(was, todo, k);
      entries := entries[k := entries[k].(up := false)];
      errs := StopOne(d, entries[k].id, Marked(was), k, todo, errs0, a);
    }

    /** `ClientClean`, `WorkerClean`: removes what is not up, from Docker and from the table; an entry
        whose container could not be removed is forgotten all the same. */
    method CleanDown(d: Docker) returns (errs: seq<ID>)
      requires WellFormed(entries, class_)
      modifies this, d
      ensures entries == OnlyUp(old(entries))
      ensures OnlyClass(old(d.containers), d.containers, class_)
      ensures old(Clear(d.containers)) ==> Clear(d.containers)
      ensures CleanedBut(old(entries), {}, errs, old(d.containers), d.containers)
      ensures errs == [] ==> d.containers == old(d.containers) - DownNames(old(entries), {})
      ensures Blame(errs != [], old(d.failures), d.failures, SomeMissing(old(entries), old(d.containers)))
    {
      errs := [];
      var todo := entries.Keys;
      ghost var c0, was, f0 := d.containers, entries, d.failures;
      while todo != {}
        invariant todo <= was.Keys && entries == MidClean(was, todo)
        invariant OnlyClass(c0, d.containers, class_)
        invariant Clear(c0) ==> Clear(d.containers)
        invariant CleanedBut(was, todo, errs, c0, d.containers)
        invariant Blame(errs != [], f0, d.failures, SomeMissing(was, c0))
        decreases todo
      {
        var k :| k in todo;
        MidCleanStep(was, todo, k);
        if !entries[k].up {
          var more := CleanOne(d, k, was, todo, errs, c0, f0);
          errs := errs + more;
        } else {
          CleanedUp(was, todo, errs, c0, d.containers, k);
        }
        todo := todo - {k};
      }
      AllCleaned(was, errs, c0, d.containers);
    }

    /** One entry of `CleanDown`. */
    method CleanOne(d: Docker, k: string, ghost was: Entries, ghost todo: set<string>, ghost errs0: seq<ID>,
                    ghost c0: Conts, ghost f0: nat) returns (errs: seq<ID>)
      requires WellFormed(was, class_) && k in was && k in todo && k in entries && entries[k] == was[k] && !was[k].up
      requires OnlyClass(c0, d.containers, class_) && CleanedBut(was, todo, errs0, c0, d.containers)
      requires Blame(errs0 != [], f0, d.failures, SomeMissing(was, c0))
      modifies this, d
      ensures entries == old(entries) - {k}
      ensures OnlyClass(c0, d.containers, class_)
      ensures old(Clear(d.containers)) ==> Clear(d.containers)
      ensures CleanedBut(was, todo - {k}, errs0 + errs, c0, d.containers)
      ensures Blame(errs0 + errs != [], f0, d.failures, SomeMissing(was, c0))
    {
      NotGone(was, class_, todo, k);
      ghost var before := d.containers;
      var ok := Clean(d, entries[k].id);
      OnlyClassStep(c0, before, d.containers, was[k].id);
      errs := if ok then [] else [entries[k].id];
      CleanedStep(was, class_, todo, errs0, errs, c0, before, d.containers, k);
      entries := entries - {k};
    }
  }

  /** A cleaning pass took `a` to `b`: the containers of the entries that are down, those in `todo` apart, are
      gone, but for those whose removal failed, and no others. */
  ghost predicate CleanedBut(t: Entries, todo: set<string>, errs: seq<ID>, a: Conts, b: Conts) {
    && (forall n :: n in b ==> n in a && b[n] == a[n])
    && (forall n :: n in a && n !in DownNames(t, todo) ==> n in b)
    && (forall k :: k in t && k !in todo && !t[k].up ==> Name(t[k].id) !in b || t[k].id in errs)
  }

  lemma CleanedUp(t: Entries, todo: set<string>, errs: seq<ID>, a: Conts, b: Conts, k: string)
    requires CleanedBut(t, todo, errs, a, b) && k in t && t[k].up
    ensures CleanedBut(t, todo - {k}, errs, a, b)
  {
    forall n | n in a && n !in DownNames(t, todo - {k})
      ensures n in b
    {
      DownNamesLess(t, todo, k);
    }
  }

  lemma DownNamesLess(t: Entries, todo: set<string>, k: string)
    ensures DownNames(t, todo) <= DownNames(t, todo - {k})
    ensures k in t && !t[k].up ==> Name(t[k].id) in DownNames(t, todo - {k})
  {
    forall n | n in DownNames(t, todo)
      ensures n in DownNames(t, todo - {k})
    {
      var j :| j in t && j !in todo && !t[j].up && Name(t[j].id) == n;
      assert j !in todo - {k};
    }
  }

  lemma CleanedStep(t: Entries, class_: string, todo: set<string>, errs: seq<ID>, more: seq<ID>, a: Conts, b: Conts,
                    c: Conts, k: string)
    requires WellFormed(t, class_) && k in t && k in todo && !t[k].up && CleanedBut(t, todo, errs, a, b)
    requires if more == [] then c == b - {Name(t[k].id)} else c == b && t[k].id in more
    ensures CleanedBut(t, todo - {k}, errs + more, a, c)
  {
    DownNamesLess(t, todo, k);
  }

  lemma AllCleaned(t: Entries, errs: seq<ID>, a: Conts, b: Conts)
    requires CleanedBut(t, {}, errs, a, b)
    ensures errs == [] ==> b == a - DownNames(t, {})
  {
  }

  /** A marking pass that has still to visit `todo`. */
  function MidMark(t: Entries, todo: set<string>): Entries {
    map k | k in t :: if k in todo then t[k] else t[k].(up := false)
  }

  lemma MidMarkStep(t: Entries, todo: set<string>, k: string)
    requires k in todo && k in t
    ensures k in MidMark(t, todo) && MidMark(t, todo)[k] == t[k]
    ensures k in Marked(t) && !Marked(t)[k].up && Marked(t)[k].id == t[k].id
    ensures MidMark(t, todo - {k}) == MidMark(t, todo)[k := t[k].(up := false)]
  {
  }

  /** A cleaning pass that has still to visit `todo`. */
  function MidClean(t: Entries, todo: set<string>): Entries {
    map k | k in t && (k in todo || t[k].up) :: t[k]
  }

  lemma MidCleanStep(t: Entries, todo: set<string>, k: string)
    requires k in todo && k in t
    ensures k in MidClean(t, todo) && MidClean(t, todo)[k] == t[k]
    ensures MidClean(t, todo - {k}) == if t[k].up then MidClean(t, todo) else MidClean(t, todo) - {k}
  {
  }

  function OnlyUp(t: Entries): Entries {
    map k | k in t && t[k].up :: t[k]
  }

  /** The containers of the entries, not in `todo`, that are not up. */
  function DownNames(t: Entries, todo: set<string>): set<string> {
    set k | k in t && k !in todo && !t[k].up :: Name(t[k].id)
  }

  lemma NotGone(t: Entries, class_: string, todo: set<string>, k: string)
    requires WellFormed(t, class_) && k in t && k in todo
    ensures Name(t[k].id) !in DownNames(t, todo)
  {
    forall j | j in t && j !in todo
      ensures Name(t[j].id) != Name(t[k].id)
    {
      EntryNames(j, t[j], k, t[k], class_);
    }
  }

  function Marked(t: Entries): Entries {
    map k | k in t :: t[k].(up := false)
  }

  lemma MarkedWellFormed(t: Entries, class_: string)
    requires WellFormed(t, class_)
    ensures WellFormed(Marked(t), class_) && Names(Marked(t)) == Names(t)
  {
    forall n | n in Names(t)
      ensures n in Names(Marked(t))
    {
      var k :| k in t && Name(t[k].id) == n;
      assert k in Marked(t);
    }
  }

  /** Stopping the container of entry `k` leaves the others' alone. */
  lemma StoppedOff(t: Entries, class_: string, a: Conts, b: Conts, k: string)
    requires WellFormed(t, class_) && k in t && OnlyAt(a, b, Name(t[k].id))
    ensures forall j :: j in t && j != k ==> SameAt(a, b, Name(t[j].id))
  {
    forall j | j in t && j != k
      ensures SameAt(a, b, Name(t[j].id))
    {
      EntryNames(j, t[j], k, t[k], class_);
      SameOff(a, b, Name(t[k].id), Name(t[j].id));
    }
  }
}
