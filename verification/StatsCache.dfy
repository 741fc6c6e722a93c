/** The cache of worker statistics (`workerCache.StatsGet` in control/worker.go), over a store that does
    not change and holds one series for each type, field and instance. */
module StatsCache {
  import opened Ident

  datatype Series = Series(type_: string, field: string, instance: string)

  /** A type is a component of a path. Nothing is asked of the field: a URL can carry any character. */
  predicate Named(s: Series) {
    '/' !in s.type_
  }

  function IndexOf(type_: string, field: string): string {
    type_ + "/" + field
  }

  function KeyOf(s: Series): string {
    s.type_ + "/" + s.field + "?instance=" + s.instance
  }

  lemma IndexInjective(type_: string, field: string, type': string, field': string)
    requires '/' !in type_ && '/' !in type'
    ensures IndexOf(type_, field) == IndexOf(type', field') <==> type_ == type' && field == field'
  {
    if IndexOf(type_, field) == IndexOf(type', field') {
      assert IndexOf(type_, field) == type_ + ['/'] + field && IndexOf(type', field') == type' + ['/'] + field';
      CutFirst('/', type_, field, type', field');
    }
  }

  lemma KeyInjective(s: Series, t: Series)
    requires Named(s) && Named(t) && '?' !in s.field && '?' !in t.field
    ensures KeyOf(s) == KeyOf(t) <==> s == t
  {
    if KeyOf(s) == KeyOf(t) {
      var x, y := s.field + "?instance=" + s.instance, t.field + "?instance=" + t.instance;
      assert KeyOf(s) == s.type_ + ['/'] + x && KeyOf(t) == t.type_ + ['/'] + y;
      CutFirst('/', s.type_, x, t.type_, y);
      assert x == s.field + ['?'] + ("instance=" + s.instance) && y == t.field + ['?'] + ("instance=" + t.instance);
      CutFirst('?', s.field, "instance=" + s.instance, t.field, "instance=" + t.instance);
      assert ("instance=" + s.instance)[9..] == s.instance && ("instance=" + t.instance)[9..] == t.instance;
    }
  }

  /** A field with a question mark could take another series' place. */
  lemma KeysClash()
    ensures KeyOf(Series("t", "?instance=", "")) == KeyOf(Series("t", "", "?instance="))
  {
    var x := "?instance=";
    assert "t" + "/" + x + x + "" == "t" + "/" + "" + x + x;
  }

  // The store.

  type Store = map<Series, real>

  /** The series that a query returns: one instance, or all of them. */
  function Selected(store: Store, type_: string, field: string, instance: string): set<Series> {
    set s | s in store && s.type_ == type_ && s.field == field && (instance == "" || s.instance == instance)
  }

  // The cache.

  /** What the store has under the cache key of this series is this series, or at least its value. */
  ghost predicate Harmless(store: Store, s: Series) {
    forall t :: t in store && Named(t) && KeyOf(t) == KeyOf(s) ==> s in store && store[s] == store[t]
  }

  /** Everything cached under a key is the store's, of a series with that key. */
  ghost predicate Truthful(cached: map<string, real>, store: Store) {
    forall k :: k in cached ==> exists s :: s in store && Named(s) && KeyOf(s) == k && cached[k] == store[s]
  }

  /** Every series of an indexed type and field is cached. */
  ghost predicate Complete(cached: map<string, real>, index: set<string>, store: Store) {
    forall s :: s in store && '/' !in s.type_ && IndexOf(s.type_, s.field) in index ==> KeyOf(s) in cached
  }

  /** Without question marks in its fields a store has no clash. */
  lemma NoQuestionMarks(store: Store, s: Series)
    requires Named(s) && '?' !in s.field && forall t :: t in store ==> '?' !in t.field
    ensures Harmless(store, s)
  {
    forall t | t in store && Named(t) && KeyOf(t) == KeyOf(s)
      ensures t == s
    {
      KeyInjective(s, t);
    }
  }

  lemma SameFieldSameKey(s: Series, t: Series)
    requires s.type_ == t.type_ && s.field == t.field && KeyOf(s) == KeyOf(t)
    ensures s == t
  {
    var prefix := s.type_ + "/" + s.field + "?instance=";
    assert KeyOf(s) == prefix + s.instance && KeyOf(t) == prefix + t.instance;
    assert KeyOf(s)[|prefix|..] == s.instance && KeyOf(t)[|prefix|..] == t.instance;
  }

  /** What filling in the selected series adds. */
  ghost predicate Filled(before: map<string, real>, cached: map<string, real>, store: Store, selected: set<Series>) {
    && before.Keys <= cached.Keys
    && (forall s :: s in selected ==> KeyOf(s) in cached)
    && (forall k :: k in cached && k !in before ==>
          exists s :: s in selected * store.Keys && KeyOf(s) == k && cached[k] == store[s])
  }

  /** A query answers for the series it asks for. */
  lemma QueryIsExact(before: map<string, real>, cached: map<string, real>, store: Store, s: Series, instance: string)
    requires instance in {"", s.instance} && KeyOf(s) !in before
    requires Filled(before, cached, store, Selected(store, s.type_, s.field, instance))
    ensures KeyOf(s) in cached <==> s in store
    ensures s in store ==> cached[KeyOf(s)] == store[s]
  {
    var selected := Selected(store, s.type_, s.field, instance);
    assert s in store ==> s in selected;
    if KeyOf(s) in cached {
      var t :| t in selected * store.Keys && KeyOf(t) == KeyOf(s) && cached[KeyOf(s)] == store[t];
      SameFieldSameKey(s, t);
    }
  }

  /** And one for a single instance adds no other. */
  lemma QueryAddsOne(before: map<string, real>, cached: map<string, real>, store: Store, s: Series)
    requires s.instance != "" && Filled(before, cached, store, Selected(store, s.type_, s.field, s.instance))
    ensures forall k :: k in cached ==> k in before || k == KeyOf(s)
  {
    forall k | k in cached && k !in before
      ensures k == KeyOf(s)
    {
      var t :| t in Selected(store, s.type_, s.field, s.instance) * store.Keys && KeyOf(t) == k;
      assert t == s;
    }
  }

  lemma TruthfulPut(cached: map<string, real>, store: Store, s: Series)
    requires Truthful(cached, store) && Named(s) && s in store
    ensures Truthful(cached[KeyOf(s) := store[s]], store)
  {
  }

  lemma CompleteMore(before: map<string, real>, cached: map<string, real>, index: set<string>, store: Store,
                     type_: string, field: string)
    requires Complete(before, index, store) && before.Keys <= cached.Keys && '/' !in type_
    requires forall s :: s in Selected(store, type_, field, "") ==> KeyOf(s) in cached
    ensures Complete(cached, index + {IndexOf(type_, field)}, store)
  {
    forall s | s in store && '/' !in s.type_ && IndexOf(s.type_, s.field) in index + {IndexOf(type_, field)}
      ensures KeyOf(s) in cached
    {
      if IndexOf(s.type_, s.field) == IndexOf(type_, field) {
        IndexInjective(s.type_, s.field, type_, field);
        assert s in Selected(store, type_, field, "");
      }
    }
  }

  /** `Missed` is the nil of the negative cache, `NotFound` the error after a query; neither is a value. */
  datatype Stat = Hit(value: real) | Missed | NotFound | QueryFailed

  class Cache {
    const store: Store
    const eager: bool
    var statsCache: map<string, real>
    var statsIndex: set<string>
    /** The types and fields that were queried with success. */
    ghost var queried: seq<(string, string)>

    ghost predicate Valid()
      reads this
    {
      && Truthful(statsCache, store) && Complete(statsCache, statsIndex, store)
      && (forall q :: q in queried ==> '/' !in q.0)
      && (forall k :: k in statsIndex <==> eager && exists q :: q in queried && k == IndexOf(q.0, q.1))
      && (eager ==> forall i, j :: 0 <= i < j < |queried| ==> queried[i] != queried[j])
    }

    constructor (store: Store, eager: bool)
      ensures Valid() && this.store == store && this.eager == eager && queried == []
      ensures statsCache == map[]
    {
      this.store, this.eager := store, eager;
      statsCache, statsIndex, queried := map[], {}, [];
    }

    method Fill(selected: set<Series>)
      requires Truthful(statsCache, store) && forall s :: s in selected ==> s in store && Named(s)
      modifies this`statsCache
      ensures Truthful(statsCache, store) && Filled(old(statsCache), statsCache, store, selected)
    {
      var todo := selected;
      while todo != {}
        invariant todo <= selected
        invariant Truthful(statsCache, store) && Filled(old(statsCache), statsCache, store, selected - todo)
        decreases todo
      {
        var s :| s in todo;
        assert selected - (todo - {s}) == selected - todo + {s};
        todo := todo - {s};
        TruthfulPut(statsCache, store, s);
        statsCache := statsCache[KeyOf(s) := store[s]];
      }
      assert selected - todo == selected;
    }

    /** The query: for all instances if eager, and for the one otherwise. */
    method Query(s: Series) returns (r: Stat)
      requires Valid() && Named(s) && KeyOf(s) !in statsCache && IndexOf(s.type_, s.field) !in statsIndex
      modifies this
      ensures Valid()
      ensures r == if s in store then Hit(store[s]) else NotFound
      ensures s in store ==> KeyOf(s) in statsCache && statsCache[KeyOf(s)] == store[s]
      ensures queried == old(queried) + [(s.type_, s.field)]
      ensures !eager && s.instance != "" ==> forall k :: k in statsCache ==> k in old(statsCache) || k == KeyOf(s)
    {
      var instance := if eager then "" else s.instance;
      ghost var before := statsCache;
      Fill(Selected(store, s.type_, s.field, instance));
      QueryIsExact(before, statsCache, store, s, instance);
      if !eager && s.instance != "" {
        QueryAddsOne(before, statsCache, store, s);
      }
      if eager {
        CompleteMore(before, statsCache, statsIndex, store, s.type_, s.field);
        statsIndex := statsIndex + {IndexOf(s.type_, s.field)};
      } else {
        CompleteSame(before, statsCache, statsIndex, store);
      }
      queried := queried + [(s.type_, s.field)];
      r := if KeyOf(s) in statsCache then Hit(statsCache[KeyOf(s)]) else NotFound;
    }

    /** `StatsGet`. What is cached is served as it is. An eager cache that has queried the type and field
        misses anything else without asking. Otherwise the store is asked, and what it has is found; an eager
        cache so queries each type and field with success at most once. */
    method StatsGet(s: Series, fault: bool) returns (r: Stat)
      requires Valid() && Named(s)
      modifies this
      ensures Valid()
      ensures KeyOf(s) in old(statsCache) ==> r == Hit(old(statsCache)[KeyOf(s)])
      ensures KeyOf(s) !in old(statsCache) ==>
        r == if eager && (s.type_, s.field) in old(queried) then Missed
             else if fault then QueryFailed
             else if s in store then Hit(store[s])
             else NotFound
      ensures KeyOf(s) in old(statsCache) || r.Missed? || r.QueryFailed? ==> unchanged(this)
      ensures KeyOf(s) !in old(statsCache) && (r.Hit? || r.NotFound?) ==>
        queried == old(queried) + [(s.type_, s.field)]
      ensures r.Hit? ==> KeyOf(s) in statsCache && r.value == statsCache[KeyOf(s)]
      ensures !eager && s.instance != "" ==> forall k :: k in statsCache ==> k in old(statsCache) || k == KeyOf(s)
    {
      IndexTells(statsIndex, eager, queried, s);
      if KeyOf(s) in statsCache {
        return Hit(statsCache[KeyOf(s)]);
      }
      if IndexOf(s.type_, s.field) in statsIndex {
        return Missed;
      }
      if fault {
        return QueryFailed;
      }
      r := Query(s);
    }
  }

  lemma IndexTells(index: set<string>, eager: bool, queried: seq<(string, string)>, s: Series)
    requires Named(s) && forall q :: q in queried ==> '/' !in q.0
    requires forall k :: k in index <==> eager && exists q :: q in queried && k == IndexOf(q.0, q.1)
    ensures IndexOf(s.type_, s.field) in index <==> eager && (s.type_, s.field) in queried
  {
    forall q | q in queried
      ensures IndexOf(s.type_, s.field) == IndexOf(q.0, q.1) <==> q == (s.type_, s.field)
    {
      IndexInjective(s.type_, s.field, q.0, q.1);
    }
  }

  lemma CompleteSame(before: map<string, real>, cached: map<string, real>, index: set<string>, store: Store)
    requires Complete(before, index, store) && before.Keys <= cached.Keys
    ensures Complete(cached, index, store)
  {
  }

  /** A failure is the store's; otherwise what the store has is found, and, without a harmful clash,
      nothing but that. */
  ghost predicate Answered(store: Store, s: Series, fault: bool, stat: Stat) {
    && (stat.QueryFailed? ==> fault)
    && (!stat.QueryFailed? && s in store ==> stat.Hit?)
    && (Harmless(store, s) && stat.Hit? ==> s in store && stat.value == store[s])
  }

  predicate SameField(s: Series, t: Series) {
    s.type_ == t.type_ && s.field == t.field
  }

  /** Only an eager cache misses, and only what an earlier query of the type and field answered; such a cache
      reports "not found" once for each. */
  ghost predicate OnceNotFound(asked: seq<Series>, stats: seq<Stat>, eager: bool)
    requires |stats| <= |asked|
  {
    && (forall i :: 0 <= i < |stats| && stats[i].Missed? ==>
          eager && exists j :: 0 <= j < i && SameField(asked[j], asked[i]) && !stats[j].QueryFailed?)
    && (forall i, j :: 0 <= j < i < |stats| && eager && SameField(asked[j], asked[i]) ==>
          !(stats[i].NotFound? && (stats[j].NotFound? || stats[j].Missed?)))
  }

  /** What the cache remembers of the queries so far. */
  ghost predicate Remembers(queried: seq<(string, string)>, asked: seq<Series>, stats: seq<Stat>)
    requires |stats| <= |asked|
  {
    && (forall q :: q in queried ==>
          exists j :: 0 <= j < |stats| && (asked[j].type_, asked[j].field) == q && !stats[j].QueryFailed?)
    && (forall j :: 0 <= j < |stats| && (stats[j].NotFound? || stats[j].Missed?) ==>
          (asked[j].type_, asked[j].field) in queried)
  }

  /** What one more answer may be, by what the cache remembers. */
  predicate NextStat(queried: seq<(string, string)>, s: Series, stat: Stat, more: bool, eager: bool) {
    && (stat.Missed? ==> eager && (s.type_, s.field) in queried)
    && (stat.NotFound? ==> more && !(eager && (s.type_, s.field) in queried))
    && (more ==> !stat.QueryFailed?)
  }

  lemma RemembersStep(queried: seq<(string, string)>, asked: seq<Series>, stats: seq<Stat>, stat: Stat, more: bool,
                      eager: bool)
    requires |stats| < |asked| && Remembers(queried, asked, stats)
    requires NextStat(queried, asked[|stats|], stat, more, eager)
    ensures var s := asked[|stats|];
      Remembers(queried + if more then [(s.type_, s.field)] else [], asked, stats + [stat])
  {
    var s, after := asked[|stats|], stats + [stat];
    var all := queried + if more then [(s.type_, s.field)] else [];
    forall q | q in all
      ensures exists j :: 0 <= j < |after| && (asked[j].type_, asked[j].field) == q && !after[j].QueryFailed?
    {
      if q in queried {
        var j :| 0 <= j < |stats| && (asked[j].type_, asked[j].field) == q && !stats[j].QueryFailed?;
        assert after[j] == stats[j];
      } else {
        assert after[|stats|] == stat;
      }
    }
  }

  lemma OnceStep(queried: seq<(string, string)>, asked: seq<Series>, stats: seq<Stat>, stat: Stat, more: bool,
                 eager: bool)
    requires |stats| < |asked| && Remembers(queried, asked, stats) && OnceNotFound(asked, stats, eager)
    requires NextStat(queried, asked[|stats|], stat, more, eager)
    ensures OnceNotFound(asked, stats + [stat], eager)
  {
    var s, after := asked[|stats|], stats + [stat];
    forall i | 0 <= i < |after| && after[i].Missed?
      ensures eager && exists j :: 0 <= j < i && SameField(asked[j], asked[i]) && !after[j].QueryFailed?
    {
      if i < |stats| {
        var j :| 0 <= j < i && SameField(asked[j], asked[i]) && !stats[j].QueryFailed?;
        assert after[j] == stats[j];
      } else {
        var j :| 0 <= j < |stats| && (asked[j].type_, asked[j].field) == (s.type_, s.field) && !stats[j].QueryFailed?;
        assert after[j] == stats[j] && SameField(asked[j], asked[i]);
      }
    }
  }

  /** Any sequence of queries to a new cache, eager or not. */
  method Answers(store: Store, eager: bool, asked: seq<Series>, faults: seq<bool>) returns (stats: seq<Stat>)
    requires |faults| == |asked| && forall s :: s in asked ==> Named(s)
    ensures |stats| == |asked|
    ensures forall i :: 0 <= i < |asked| ==> Answered(store, asked[i], faults[i], stats[i])
    ensures OnceNotFound(asked, stats, eager)
  {
    var cache := new Cache(store, eager);
    stats := [];
    for i := 0 to |asked|
      invariant cache.Valid() && cache.store == store && cache.eager == eager
      invariant |stats| == i
      invariant forall k :: 0 <= k < i ==> Answered(store, asked[k], faults[k], stats[k])
      invariant Remembers(cache.queried, asked, stats) && OnceNotFound(asked, stats, eager)
    {
      ghost var queried := cache.queried;
      var stat := cache.StatsGet(asked[i], faults[i]);
      RemembersStep(queried, asked, stats, stat, cache.queried != queried, eager);
      OnceStep(queried, asked, stats, stat, cache.queried != queried, eager);
      stats := stats + [stat];
    }
  }

  /** And with a harmful clash some sequence of queries goes wrong: after a query for the one series, the
      other is found with its value. So the answers are right for all sequences exactly if every series
      asked for is harmless. */
  method ClashAnswers(store: Store, eager: bool, s: Series, t: Series) returns (stat: Stat)
    requires Named(s) && Named(t) && KeyOf(s) == KeyOf(t) && t in store
    ensures stat == Hit(store[t])
    ensures s !in store || store[s] != store[t] ==> !Harmless(store, s) && !(s in store && stat.value == store[s])
  {
    var cache := new Cache(store, eager);
    var first := cache.StatsGet(t, false);
    stat := cache.StatsGet(s, false);
  }

  /** A series that the store lacks, with a question mark in its field, is found. */
  method WrongAnswer(eager: bool) returns (stat: Stat)
    ensures stat == Hit(1.0)
    ensures Series("t", "?instance=", "") !in map[Series("t", "", "?instance=") := 1.0]
  {
    var s, t := Series("t", "?instance=", ""), Series("t", "", "?instance=");
    KeysClash();
    stat := ClashAnswers(map[t := 1.0], eager, s, t);
  }
}
