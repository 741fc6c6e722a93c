/** Keeping a configuration registered in Redis (config/sub.go), and finding what is registered
    (config/redis.go, control/config.go). Times are nanoseconds since the epoch. */
module Registration {
  import opened ConfigID
  import opened Ident
  import opened Wrappers

  const SECOND: int := 1_000_000_000
  const SUB_TTL: int := 10 * SECOND

  /** `Time.Unix`. */
  function Unix(t: int): int {
    t / SECOND
  }

  /** A key with its value, and when it expires, if ever. */
  datatype Record = Record(config: string, until: Option<int>)

  predicate Exists(key: Option<Record>, now: int) {
    key.Some? && (key.value.until.None? || now < key.value.until.value)
  }

  /** The registration's goroutine, with its key and its score in the sorted set; `None` once it was
      cleared. */
  datatype State = Active(now: int, expire: int, key: Option<Record>, score: int) | Cleared(now: int)

  datatype Event =
    | Tick(fired: int, at: int)                                    // a tick, handled at `at`
    | Push(at: int, config: string, until: Option<int>)            // stored, to expire at `until`
    | Unstored(at: int)                                            // a push that was rejected or not stored
    | End(at: int)                                                 // closed, or a refresh failed

  function At(e: Event): int {
    match e
    case Tick(_, at) => at
    case Push(at, _, _) => at
    case Unstored(at) => at
    case End(at) => at
  }

  /** `EXPIREAT`: whole seconds; nothing happens to a key that does not exist. */
  function ExpireAt(key: Option<Record>, now: int, expire: int): Option<Record> {
    if Exists(key, now) then Some(key.value.(until := Some(Unix(expire) * SECOND))) else None
  }

  /** Registered at `now`: `set`, then `refresh`. */
  function Begin(now: int, config: string): State {
    Active(now, now + SUB_TTL, Some(Record(config, Some(Unix(now + SUB_TTL) * SECOND))), Unix(now + SUB_TTL))
  }

  function Next(s: State, e: Event): State {
    if s.Cleared? then s.(now := At(e))
    else
      match e
      case Tick(fired, at) =>
        Active(at, fired + SUB_TTL, ExpireAt(s.key, at, fired + SUB_TTL), Unix(fired + SUB_TTL))
      case Push(at, config, until) => s.(now := at, key := Some(Record(config, until)))
      case Unstored(at) => s.(now := at)
      case End(at) => Cleared(at)
  }

  function After(s: State, events: seq<Event>): State {
    if events == [] then s
    else
      var n := |events| - 1;
      Next(After(s, events[..n]), events[n])
  }

  // What a registration has come to, by its events.

  predicate Ended(events: seq<Event>) {
    exists i :: 0 <= i < |events| && events[i].End?
  }

  /** When the last tick fired, or the registration started. */
  function Fired(start: int, events: seq<Event>): int {
    if events == [] then start
    else
      var n := |events| - 1;
      if events[n].Tick? then events[n].fired else Fired(start, events[..n])
  }

  /** The configuration that was stored last. */
  function Stored(config: string, events: seq<Event>): string {
    if events == [] then config
    else
      var n := |events| - 1;
      if events[n].Push? then events[n].config else Stored(config, events[..n])
  }

  /** When the key expires: what the last push said, unless a tick came later; ticks count whole seconds. */
  function Expiry(start: int, events: seq<Event>): Option<int> {
    if events == [] then Some((start + SUB_TTL) / SECOND * SECOND)
    else
      var n := |events| - 1;
      match events[n]
      case Tick(fired, _) => Some((fired + SUB_TTL) / SECOND * SECOND)
      case Push(_, _, until) => until
      case _ => Expiry(start, events[..n])
  }

  /** Since the last push some tick was handled when the key had expired. */
  predicate Lapsed(start: int, events: seq<Event>) {
    events != [] && (
      var n := |events| - 1;
      match events[n]
      case Tick(_, at) =>
        var until := Expiry(start, events[..n]);
        Lapsed(start, events[..n]) || (until.Some? && at >= until.value)
      case Push(_, _, _) => false
      case _ => Lapsed(start, events[..n]))
  }

  /** The time of the last event. */
  function Last(start: int, events: seq<Event>): int {
    if events == [] then start else At(events[|events| - 1])
  }

  /** The state, in closed form. */
  lemma {:induction false} StateTells(start: int, config: string, events: seq<Event>)
    ensures var s := After(Begin(start, config), events);
      if Ended(events) then s == Cleared(Last(start, events))
      else s == Active(
        Last(start, events),
        Fired(start, events) + SUB_TTL,
        if Lapsed(start, events) then None else Some(Record(Stored(config, events), Expiry(start, events))),
        (Fired(start, events) + SUB_TTL) / SECOND)
  {
    if events == [] {
    } else {
      var n := |events| - 1;
      StateTells(start, config, events[..n]);
      EndedLast(events);
    }
  }

  lemma EndedLast(events: seq<Event>)
    requires events != []
    ensures Ended(events) <==> Ended(events[..|events| - 1]) || events[|events| - 1].End?
  {
    var before := events[..|events| - 1];
    if Ended(before) {
      var i :| 0 <= i < |before| && before[i].End?;
      assert events[i].End?;
    }
    if Ended(events) && !events[|events| - 1].End? {
      var i :| 0 <= i < |events| && events[i].End?;
      assert before[i].End?;
    }
  }

  function TicksIn(events: seq<Event>): nat {
    if events == [] then 0
    else TicksIn(events[..|events| - 1]) + if events[|events| - 1].Tick? then 1 else 0
  }

  // Timing.

  /** A duration given to `SET` is rounded down, by less than a second; one that is not positive is left
      to the client library. */
  predicate Rounded(s: State, e: Event) {
    s.Active? && e.Push? && e.at < s.expire ==> e.until.Some? && s.expire - SECOND < e.until.value <= s.expire
  }

  /** When the next tick fires. */
  function Due(s: State): int
    requires s.Active?
  {
    s.expire - SUB_TTL + SUB_TTL / 2
  }

  /** Ticks fire every half TTL, and are handled within `delay`; nothing else happens while one is later
      than that. */
  predicate Timely(s: State, e: Event, delay: int) {
    && At(e) >= s.now
    && (s.Active? ==> At(e) <= Due(s) + delay)
    && (s.Active? && e.Tick? ==> e.fired == Due(s) && e.at >= e.fired)
    && Rounded(s, e)
  }

  predicate Runs(s: State, events: seq<Event>, delay: int) {
    events == [] || (
      var n := |events| - 1;
      Runs(s, events[..n], delay) && Timely(After(s, events[..n]), events[n], delay))
  }

  lemma ActiveAt(start: int, config: string, events: seq<Event>)
    requires !Ended(events)
    ensures var s := After(Begin(start, config), events); s.Active? && s.expire == Fired(start, events) + SUB_TTL
  {
    StateTells(start, config, events);
  }

  lemma NextTick(s: State, e: Event, fired: int, delay: int)
    requires s.Active? && s.expire == fired + SUB_TTL && Timely(s, e, delay) && e.Tick?
    ensures e.fired == fired + SUB_TTL / 2
  {
  }

  /** Ticks are half a TTL apart, however late they are handled. */
  lemma {:induction false} TickTimes(start: int, config: string, events: seq<Event>, delay: int)
    requires Runs(Begin(start, config), events, delay) && !Ended(events)
    ensures Fired(start, events) == start + TicksIn(events) * (SUB_TTL / 2)
  {
    if events != [] {
      var n := |events| - 1;
      EndedLast(events);
      TickTimes(start, config, events[..n], delay);
      ActiveAt(start, config, events[..n]);
      if events[n].Tick? {
        NextTick(After(Begin(start, config), events[..n]), events[n], Fired(start, events[..n]), delay);
        OneMore(TicksIn(events[..n]));
      }
    }
  }

  lemma OneMore(k: nat)
    ensures (k + 1) * (SUB_TTL / 2) == k * (SUB_TTL / 2) + SUB_TTL / 2
  {
  }

  /** The key and the score both tell `expire`, to the second; no push moved it. */
  predicate Tells(s: State) {
    s.Active? ==>
      && s.score == Unix(s.expire)
      && (s.key.Some? ==> s.key.value.until.Some? && s.expire - SECOND < s.key.value.until.value <= s.expire)
  }

  lemma UnixWithin(t: int)
    ensures t - SECOND < Unix(t) * SECOND <= t
  {
  }

  /** However long ticks take: as long as every push is handled before `expire`. */
  lemma TellsStep(s: State, e: Event)
    requires Tells(s) && Rounded(s, e) && (s.Active? && e.Push? ==> e.at < s.expire)
    ensures Tells(Next(s, e))
  {
    if s.Active? && e.Tick? {
      UnixWithin(e.fired + SUB_TTL);
    }
  }

  /** The key lives up to and including the last moment the next tick can be handled. */
  predicate Safe(s: State, delay: int) {
    s.Active? ==> forall t: int :: s.now <= t <= Due(s) + delay ==> Exists(s.key, t)
  }

  const LIMIT := SUB_TTL / 2 - SECOND

  lemma {:induction false} NeverLapses(start: int, config: string, events: seq<Event>, delay: int)
    requires 0 <= delay <= LIMIT && Runs(Begin(start, config), events, delay)
    ensures var s := After(Begin(start, config), events); Tells(s) && Safe(s, delay) && (s.Active? ==> s.key.Some?)
  {
    if events == [] {
      UnixWithin(start + SUB_TTL);
    } else {
      var n := |events| - 1;
      NeverLapses(start, config, events[..n], delay);
      var s, e := After(Begin(start, config), events[..n]), events[n];
      TellsStep(s, e);
      if s.Active? {
        assert Exists(s.key, At(e));
      }
    }
  }

  /** With one nanosecond more it can: a tick fired just before a second's end, handled when the key,
      rounded down to that second, is gone. The refresh does not bring it back. */
  lemma LateTickLapses()
    ensures var s, e := Begin(SECOND - 1, "c"), Tick(SECOND - 1 + SUB_TTL / 2, SECOND - 1 + SUB_TTL / 2 + LIMIT + 1);
      Runs(s, [e], LIMIT + 1) && After(s, [e]).key.None?
  {
    var s, e := Begin(SECOND - 1, "c"), Tick(SECOND - 1 + SUB_TTL / 2, SECOND - 1 + SUB_TTL / 2 + LIMIT + 1);
    assert Unix(SECOND - 1 + SUB_TTL) == 10;
    assert Timely(s, e, LIMIT + 1);
    assert [e][..|[e]| - 1] == [] && Runs(s, [], LIMIT + 1) && After(s, []) == s;
  }

  lemma {:induction false} MoreDelay(s: State, events: seq<Event>, delay: int, more: int)
    requires Runs(s, events, delay) && delay <= more
    ensures Runs(s, events, more)
  {
    if events != [] {
      MoreDelay(s, events[..|events| - 1], delay, more);
    }
  }

  ghost predicate AlwaysLive(delay: int) {
    forall start, config, events ::
      Runs(Begin(start, config), events, delay) ==> Live(After(Begin(start, config), events))
  }

  predicate Live(s: State) {
    s.Active? ==> Exists(s.key, s.now)
  }

  /** How late a tick may be: half the TTL, less the second that Redis rounds away. */
  lemma LiveExactly(delay: int)
    requires delay >= 0
    ensures AlwaysLive(delay) <==> delay <= LIMIT
  {
    if delay <= LIMIT {
      forall start, config, events | Runs(Begin(start, config), events, delay)
        ensures Live(After(Begin(start, config), events))
      {
        NeverLapses(start, config, events, delay);
        LiveNow(start, config, events, delay);
      }
    } else {
      LateTickLapses();
      var s, e := Begin(SECOND - 1, "c"), Tick(SECOND - 1 + SUB_TTL / 2, SECOND - 1 + SUB_TTL / 2 + LIMIT + 1);
      MoreDelay(s, [e], LIMIT + 1, delay);
      assert !Live(After(s, [e]));
    }
  }

  lemma LiveNow(start: int, config: string, events: seq<Event>, delay: int)
    requires Runs(Begin(start, config), events, delay) && delay >= 0
    requires Safe(After(Begin(start, config), events), delay)
    ensures Live(After(Begin(start, config), events))
  {
    var s := After(Begin(start, config), events);
    if events != [] {
      var n := |events| - 1;
      var before := After(Begin(start, config), events[..n]);
      assert Timely(before, events[n], delay);
    }
  }

  // Redis, shared by all registrations.

  datatype SubID = SubID(type_: string, instance: string)

  /** The registered types, the scores of all sorted sets, and the keys. */
  datatype Store = Store(types: set<string>, scores: map<SubID, int>, keys: map<SubID, Record>)

  const EMPTY := Store({}, map[], map[])

  function KeyOf(store: Store, id: SubID): Option<Record> {
    if id in store.keys then Some(store.keys[id]) else None
  }

  /** `SADD`, `SET`, `EXPIREAT`, `ZADD`, `ZREM` and `DEL`. */
  function AddType(store: Store, type_: string): Store {
    store.(types := store.types + {type_})
  }

  function SetKey(store: Store, id: SubID, record: Record): Store {
    store.(keys := store.keys[id := record])
  }

  function ExpireKey(store: Store, id: SubID, now: int, expire: int): Store {
    match ExpireAt(KeyOf(store, id), now, expire)
    case Some(record) => store.(keys := store.keys[id := record])
    case None => store.(keys := store.keys - {id})
  }

  function AddScore(store: Store, id: SubID, score: int): Store {
    store.(scores := store.scores[id := score])
  }

  function RemoveScore(store: Store, id: SubID): Store {
    store.(scores := store.scores - {id})
  }

  function DeleteKey(store: Store, id: SubID): Store {
    store.(keys := store.keys - {id})
  }

  /** The commands of a registration that starts: `registerType`, `set`, `refresh`. */
  function Joined(store: Store, id: SubID, at: int, config: string, until: Option<int>): Store {
    AddScore(Tried(store, id, at, config, until, ZAddFails), id, Unix(at + SUB_TTL))
  }

  /** Which command of the start fails, and ends it. */
  datatype Fault = SAddFails | SetFails | ExpireAtFails | ZAddFails

  /** What a start that fails leaves behind. */
  function Tried(store: Store, id: SubID, at: int, config: string, until: Option<int>, fault: Fault): Store {
    var stored := SetKey(AddType(store, id.type_), id, Record(config, until));
    match fault
    case SAddFails => store
    case SetFails => AddType(store, id.type_)
    case ExpireAtFails => stored
    case ZAddFails => ExpireKey(stored, id, at, at + SUB_TTL)
  }

  /** The commands of one event of its loop. */
  function Handled(store: Store, id: SubID, e: Event): Store {
    match e
    case Tick(fired, at) => AddScore(ExpireKey(store, id, at, fired + SUB_TTL), id, Unix(fired + SUB_TTL))
    case Push(_, config, until) => SetKey(store, id, Record(config, until))
    case Unstored(_) => store
    case End(_) => DeleteKey(RemoveScore(store, id), id)
  }

  class Redis {
    var store: Store

    constructor ()
      ensures store == EMPTY
    {
      store := EMPTY;
    }

    method SAdd(type_: string)
      modifies this
      ensures store == AddType(old(store), type_)
    {
      store := store.(types := store.types + {type_});
    }

    method Set(id: SubID, record: Record)
      modifies this
      ensures store == SetKey(old(store), id, record)
    {
      store := store.(keys := store.keys[id := record]);
    }

    /** A lapsed key is gone. */
    method ExpireAtUnix(id: SubID, now: int, seconds: int)
      modifies this
      ensures forall expire :: Unix(expire) == seconds ==> store == ExpireKey(old(store), id, now, expire)
    {
      if id in store.keys && (store.keys[id].until.None? || now < store.keys[id].until.value) {
        store := store.(keys := store.keys[id := store.keys[id].(until := Some(seconds * SECOND))]);
      } else {
        store := store.(keys := store.keys - {id});
      }
    }

    method ZAdd(id: SubID, score: int)
      modifies this
      ensures store == AddScore(old(store), id, score)
    {
      store := store.(scores := store.scores[id := score]);
    }

    method ZRem(id: SubID)
      modifies this
      ensures store == RemoveScore(old(store), id)
    {
      store := store.(scores := store.scores - {id});
    }

    method Del(id: SubID)
      modifies this
      ensures store == DeleteKey(old(store), id)
    {
      store := store.(keys := store.keys - {id});
    }
  }

  // The registration's goroutine.

  /** The key and the score under this ID are those of the registration. */
  predicate Shows(store: Store, id: SubID, s: State) {
    if s.Active? then KeyOf(store, id) == s.key && id in store.scores && store.scores[id] == s.score
    else id !in store.keys && id !in store.scores
  }

  /** Only this ID's key and score differ. */
  ghost predicate OnlyHis(a: Store, b: Store, id: SubID) {
    && a.types <= b.types <= a.types + {id.type_}
    && a.keys - {id} == b.keys - {id} && a.scores - {id} == b.scores - {id}
  }

  /** A duration given to `SET` leaves less than a second of it to rounding. */
  predicate Trimmed(until: Option<int>, expire: int) {
    until.Some? && expire - SECOND < until.value <= expire
  }

  lemma JoinedShows(store: Store, id: SubID, at: int, config: string, until: Option<int>)
    requires Trimmed(until, at + SUB_TTL)
    ensures Shows(Joined(store, id, at, config, until), id, Begin(at, config))
    ensures OnlyHis(store, Joined(store, id, at, config, until), id)
  {
  }

  /** A start that fails registers nothing: what is listed for the ID depends on its score, and that stays. */
  lemma TriedShows(store: Store, id: SubID, at: int, config: string, until: Option<int>, fault: Fault)
    ensures OnlyHis(store, Tried(store, id, at, config, until, fault), id)
    ensures Tried(store, id, at, config, until, fault).scores == store.scores
    ensures id.type_ in Tried(store, id, at, config, until, fault).types || fault.SAddFails?
    ensures fault.SAddFails? || fault.SetFails? ==>
      KeyOf(Tried(store, id, at, config, until, fault), id) == KeyOf(store, id)
    ensures fault.ExpireAtFails? ==>
      KeyOf(Tried(store, id, at, config, until, fault), id) == Some(Record(config, until))
    ensures fault.ZAddFails? && until.Some? && at < until.value ==>
      KeyOf(Tried(store, id, at, config, until, fault), id)
        == Some(Record(config, Some((at + SUB_TTL) / SECOND * SECOND)))
    ensures id !in store.scores ==>
      forall filter, now :: !Listed(Tried(store, id, at, config, until, fault), filter, id, now)
  {
  }

  lemma HandledShows(store: Store, id: SubID, s: State, e: Event)
    requires s.Active? && Shows(store, id, s)
    ensures Shows(Handled(store, id, e), id, Next(s, e))
    ensures OnlyHis(store, Handled(store, id, e), id)
  {
  }

  class Registrar {
    const redis: Redis
    const id: SubID

    constructor (redis: Redis, id: SubID)
      ensures this.redis == redis && this.id == id
    {
      this.redis, this.id := redis, id;
    }

    /** `Sub.refresh`. */
    method Refresh(now: int, expire: int)
      modifies redis
      ensures redis.store == AddScore(ExpireKey(old(redis.store), id, now, expire), id, Unix(expire))
    {
      redis.ExpireAtUnix(id, now, Unix(expire));
      redis.ZAdd(id, Unix(expire));
    }

    /** `Sub.clear`. */
    method Clear()
      modifies redis
      ensures redis.store == DeleteKey(RemoveScore(old(redis.store), id), id)
    {
      redis.ZRem(id);
      redis.Del(id);
    }

    /** One turn of the loop of `Sub.register`. */
    method Turn(e: Event) returns (running: bool)
      modifies redis
      ensures redis.store == Handled(old(redis.store), id, e) && running == !e.End?
    {
      running := true;
      match e
      case Tick(fired, at) => Refresh(at, fired + SUB_TTL);
      case Push(_, config, until) => redis.Set(id, Record(config, until));
      case Unstored(_) =>
      case End(_) =>
        Clear();
        running := false;
    }

    /** The head of `Sub.register`. */
    method Start(at: int, config: string, until: Option<int>, fault: Option<Fault>)
      modifies redis
      ensures redis.store == if fault.None? then Joined(old(redis.store), id, at, config, until)
                             else Tried(old(redis.store), id, at, config, until, fault.value)
    {
      if fault == Some(SAddFails) {
        return;
      }
      redis.SAdd(id.type_);
      if fault == Some(SetFails) {
        return;
      }
      redis.Set(id, Record(config, until));
      if fault == Some(ExpireAtFails) {
        return;
      }
      redis.ExpireAtUnix(id, at, Unix(at + SUB_TTL));
      if fault.None? {
        redis.ZAdd(id, Unix(at + SUB_TTL));
      }
    }

    /** `Sub.register`: what Redis has under this ID at the end is what the events come to, and nothing
        else has changed. A start that fails ends it, with the score as it was. */
    method Register(start: int, config: string, until: Option<int>, fault: Option<Fault>, events: seq<Event>)
      requires Trimmed(until, start + SUB_TTL)
      modifies redis
      ensures fault.None? ==> Shows(redis.store, id, After(Begin(start, config), events))
      ensures fault.Some? ==> redis.store == Tried(old(redis.store), id, start, config, until, fault.value)
      ensures fault.Some? ==> redis.store.scores == old(redis.store.scores)
      ensures OnlyHis(old(redis.store), redis.store, id)
    {
      ghost var store0 := redis.store;
      Start(start, config, until, fault);
      if fault.Some? {
        TriedShows(store0, id, start, config, until, fault.value);
        return;
      }
      JoinedShows(store0, id, start, config, until);
      var i := 0;
      while i < |events|
        invariant 0 <= i <= |events|
        invariant After(Begin(start, config), events[..i]).Active?
        invariant Shows(redis.store, id, After(Begin(start, config), events[..i]))
        invariant OnlyHis(store0, redis.store, id)
      {
        assert events[..i + 1][..i] == events[..i];
        HandledShows(redis.store, id, After(Begin(start, config), events[..i]), events[i]);
        OnlyHisJoin(store0, redis.store, Handled(redis.store, id, events[i]), id);
        var running := Turn(events[i]);
        if !running {
          StaysCleared(Begin(start, config), events, i + 1);
          return;
        }
        i := i + 1;
      }
      assert events[..i] == events;
    }
  }

  lemma OnlyHisJoin(a: Store, b: Store, c: Store, id: SubID)
    requires OnlyHis(a, b, id) && OnlyHis(b, c, id)
    ensures OnlyHis(a, c, id)
  {
  }

  lemma {:induction false} StaysCleared(s: State, events: seq<Event>, i: nat)
    requires i <= |events| && After(s, events[..i]).Cleared?
    ensures After(s, events).Cleared?
    decreases |events| - i
  {
    if i == |events| {
      assert events[..i] == events;
    } else {
      assert events[..i + 1][..i] == events[..i];
      StaysCleared(s, events, i + 1);
    }
  }

  // All registrations at once, their events interleaved. One that makes no further step has died.

  datatype World = World(now: int, store: Store, regs: map<SubID, State>)

  datatype Act =
    | Join(id: SubID, at: int, config: string, until: Option<int>)    // `register` starts
    | Does(id: SubID, e: Event)

  function Time(a: Act): int {
    match a
    case Join(_, at, _, _) => at
    case Does(_, e) => At(e)
  }

  /** Time passes; pushes are handled before `expire`, and no tick before it fires. */
  predicate CanAct(w: World, a: Act) {
    && Time(a) >= w.now
    && match a
       case Join(_, at, _, until) => Trimmed(until, at + SUB_TTL)
       case Does(id, e) => id in w.regs && w.regs[id].Active? && Prompt(w.regs[id], e)
  }

  predicate Prompt(s: State, e: Event)
    requires s.Active?
  {
    && Rounded(s, e)
    && (e.Push? ==> e.at < s.expire)
    && (e.Tick? ==> e.fired <= e.at)
  }

  function Acted(w: World, a: Act): World {
    match a
    case Join(id, at, config, until) =>
      World(at, Joined(w.store, id, at, config, until), w.regs[id := Begin(at, config)])
    case Does(id, e) =>
      if id in w.regs then World(At(e), Handled(w.store, id, e), w.regs[id := Next(w.regs[id], e)]) else w
  }

  predicate CanRun(w: World, acts: seq<Act>) {
    acts == [] || (var n := |acts| - 1; CanRun(w, acts[..n]) && CanAct(AfterAll(w, acts[..n]), acts[n]))
  }

  function AfterAll(w: World, acts: seq<Act>): World {
    if acts == [] then w
    else
      var n := |acts| - 1;
      Acted(AfterAll(w, acts[..n]), acts[n])
  }

  const NOBODY := World(0, EMPTY, map[])

  predicate KeptAt(store: Store, id: SubID, s: State) {
    Shows(store, id, s) && Tells(s) && (s.Active? ==> id.type_ in store.types)
  }

  /** Redis holds what the registrations keep there, which tells when they expire, and no other entries. */
  ghost predicate Kept(store: Store, regs: map<SubID, State>) {
    && (forall id :: id in regs ==> KeptAt(store, id, regs[id]))
    && (forall id :: id in store.scores ==> id in regs && regs[id].Active?)
    && (forall id :: id in store.keys ==> id in regs && regs[id].Active?)
  }

  lemma OthersKept(a: Store, b: Store, id: SubID, other: SubID, s: State)
    requires OnlyHis(a, b, id) && other != id && KeptAt(a, other, s)
    ensures KeptAt(b, other, s)
  {
    assert other in a.keys <==> other in a.keys - {id};
    assert other in b.keys <==> other in b.keys - {id};
    assert other in a.scores <==> other in a.scores - {id};
    assert other in b.scores <==> other in b.scores - {id};
    assert other in a.keys ==> (a.keys - {id})[other] == a.keys[other];
    assert other in b.keys ==> (b.keys - {id})[other] == b.keys[other];
    assert other in a.scores ==> (a.scores - {id})[other] == a.scores[other];
    assert other in b.scores ==> (b.scores - {id})[other] == b.scores[other];
  }

  /** One registration's commands keep everybody's entries. */
  lemma KeptStep(store: Store, regs: map<SubID, State>, after: Store, id: SubID, s: State)
    requires Kept(store, regs) && OnlyHis(store, after, id) && KeptAt(after, id, s)
    ensures Kept(after, regs[id := s])
  {
    forall other | other in regs && other != id
      ensures KeptAt(after, other, regs[other])
    {
      OthersKept(store, after, id, other, regs[other]);
    }
    forall other | other in after.scores
      ensures other in regs[id := s] && regs[id := s][other].Active?
    {
      if other != id {
        assert other in after.scores - {id};
        assert other in store.scores;
      }
    }
    forall other | other in after.keys
      ensures other in regs[id := s] && regs[id := s][other].Active?
    {
      if other != id {
        assert other in after.keys - {id};
        assert other in store.keys;
      }
    }
  }

  lemma KeptAct(w: World, a: Act)
    requires Kept(w.store, w.regs) && CanAct(w, a)
    ensures Kept(Acted(w, a).store, Acted(w, a).regs)
  {
    match a
    case Join(id, at, config, until) =>
      JoinedShows(w.store, id, at, config, until);
      UnixWithin(at + SUB_TTL);
      KeptStep(w.store, w.regs, Joined(w.store, id, at, config, until), id, Begin(at, config));
    case Does(id, e) =>
      var s := w.regs[id];
      assert KeptAt(w.store, id, s);
      HandledShows(w.store, id, s, e);
      TellsStep(s, e);
      KeptStep(w.store, w.regs, Handled(w.store, id, e), id, Next(s, e));
  }

  /** In every reachable state, however many registrations there are and however they interleave. */
  lemma {:induction false} RunKept(acts: seq<Act>)
    requires CanRun(NOBODY, acts)
    ensures Kept(AfterAll(NOBODY, acts).store, AfterAll(NOBODY, acts).regs)
  {
    if acts != [] {
      var n := |acts| - 1;
      RunKept(acts[..n]);
      KeptAct(AfterAll(NOBODY, acts[..n]), acts[n]);
    }
  }

  // Finding registrations.

  /** `Sub.Check`: there is a key, and it expires. */
  predicate HasTTL(store: Store, id: SubID, now: int) {
    id in store.keys && store.keys[id].until.Some? && now < store.keys[id].until.value
  }

  predicate InWindow(store: Store, id: SubID, now: int) {
    id in store.scores && store.scores[id] >= Unix(now - SUB_TTL)
  }

  predicate Asked(store: Store, filter: string, type_: string) {
    if filter == "" then type_ in store.types else type_ == filter
  }

  /** What `ConfigList` reports. */
  predicate Listed(store: Store, filter: string, id: SubID, now: int) {
    Asked(store, filter, id.type_) && InWindow(store, id, now) && HasTTL(store, id, now)
  }

  /** Which queries Redis fails: for the types, for a type's entries, for a key's TTL. */
  datatype Faults = Faults(types: bool, entries: set<string>, ttls: set<SubID>)

  /** `Redis.List`: fails with Redis, and on an entry that is no valid ID. */
  method List(store: Store, type_: string, now: int, fault: bool) returns (r: Option<seq<SubID>>)
    ensures r.Some? ==> forall id: SubID :: id in r.value <==> id.type_ == type_ && InWindow(store, id, now)
    ensures r.None? <==>
      fault || exists id: SubID :: id.type_ == type_ && InWindow(store, id, now) && !ValidSubID(type_, id.instance)
  {
    if fault {
      return None;
    }
    var subs: seq<SubID> := [];
    var todo := set id | id in store.scores && id.type_ == type_ && InWindow(store, id, now);
    ghost var all := todo;
    while todo != {}
      invariant todo <= all
      invariant forall id: SubID :: id in subs <==> id in all && id !in todo
      invariant forall id: SubID :: id in subs ==> ValidSubID(type_, id.instance)
      decreases todo
    {
      var id :| id in todo;
      todo := todo - {id};
      if !ValidSubID(type_, id.instance) {
        return None;
      }
      subs := subs + [id];
    }
    r := Some(subs);
  }

  datatype ConfigItem = ConfigItem(id: SubID, ttl: int)

  /** `Manager.ConfigList`: the listed registrations whose key still lives, with the time it has left; one
      whose TTL query fails is passed over. */
  method ConfigList(store: Store, filter: string, now: int, faults: Faults) returns (r: Option<seq<ConfigItem>>)
    ensures r.Some? ==> forall item: ConfigItem :: item in r.value <==>
      Asked(store, filter, item.id.type_) && Reported(store, item, now, faults)
    ensures r.None? ==>
      || (filter == "" && faults.types)
      || (exists type_ :: type_ in faults.entries && Asked(store, filter, type_))
      || (exists id :: InWindow(store, id, now) && !ValidSubID(id.type_, id.instance))
  {
    if filter == "" && faults.types {
      return None;
    }
    var types := if filter == "" then store.types else {filter};
    var configs: seq<ConfigItem> := [];
    var todo := types;
    while todo != {}
      invariant todo <= types
      invariant forall item: ConfigItem :: item in configs <==>
        item.id.type_ in types - todo && Reported(store, item, now, faults)
      decreases todo
    {
      var type_ :| type_ in todo;
      var subs := List(store, type_, now, type_ in faults.entries);
      if subs.None? {
        return None;
      }
      ghost var before := configs;
      for i := 0 to |subs.value|
        invariant forall item: ConfigItem :: item in configs <==>
          item in before || (item.id in subs.value[..i] && Reported(store, item, now, faults))
      {
        var id := subs.value[i];
        if HasTTL(store, id, now) && id !in faults.ttls {
          configs := configs + [ConfigItem(id, store.keys[id].until.value - now)];
        }
      }
      assert subs.value[..|subs.value|] == subs.value;
      todo := todo - {type_};
    }
    r := Some(configs);
  }

  predicate Reported(store: Store, item: ConfigItem, now: int, faults: Faults) {
    && InWindow(store, item.id, now) && HasTTL(store, item.id, now) && item.id !in faults.ttls
    && item.ttl == store.keys[item.id].until.value - now
  }

  // What is listed, by the acts.

  datatype Life = Life(start: int, config: string, events: seq<Event>)

  /** What one ID has done since it last joined. */
  function Own(acts: seq<Act>, id: SubID): Option<Life> {
    if acts == [] then None
    else
      var n := |acts| - 1;
      var before := Own(acts[..n], id);
      match acts[n]
      case Join(other, at, config, _) => if other == id then Some(Life(at, config, [])) else before
      case Does(other, e) =>
        if other == id && before.Some? then Some(before.value.(events := before.value.events + [e])) else before
  }

  lemma AfterAppend(s: State, events: seq<Event>, e: Event)
    ensures After(s, events + [e]) == Next(After(s, events), e)
  {
    assert (events + [e])[..|events|] == events;
  }

  lemma {:induction false} OwnState(acts: seq<Act>, id: SubID)
    requires CanRun(NOBODY, acts)
    ensures var w, own := AfterAll(NOBODY, acts), Own(acts, id);
      && (id in w.regs <==> own.Some?)
      && (own.Some? ==> w.regs[id] == After(Begin(own.value.start, own.value.config), own.value.events))
  {
    if acts != [] {
      var n := |acts| - 1;
      OwnState(acts[..n], id);
      var own := Own(acts[..n], id);
      if own.Some? && acts[n].Does? {
        AfterAppend(Begin(own.value.start, own.value.config), own.value.events, acts[n].e);
      }
    }
  }

  /** The registration of this ID is running, and its key had not expired at any tick. */
  predicate Running(acts: seq<Act>, id: SubID) {
    Own(acts, id).Some? && !Ended(Own(acts, id).value.events)
  }

  /** What Redis has under an ID is what its own events come to, whatever the others do. */
  lemma RedisTells(acts: seq<Act>, id: SubID)
    requires CanRun(NOBODY, acts)
    ensures var store, own := AfterAll(NOBODY, acts).store, Own(acts, id);
      if Running(acts, id) then
        && id in store.scores && store.scores[id] == (Fired(own.value.start, own.value.events) + SUB_TTL) / SECOND
        && KeyOf(store, id) == (if Lapsed(own.value.start, own.value.events) then None
                                else Some(Record(Stored(own.value.config, own.value.events),
                                                 Expiry(own.value.start, own.value.events))))
      else id !in store.scores && id !in store.keys
  {
    RunKept(acts);
    OwnState(acts, id);
    var w, own := AfterAll(NOBODY, acts), Own(acts, id);
    if own.Some? {
      StateTells(own.value.start, own.value.config, own.value.events);
      assert KeptAt(w.store, id, w.regs[id]);
    }
  }

  /** The key of the registration lives at this time. */
  predicate KeyLives(own: Life, now: int) {
    && !Lapsed(own.start, own.events)
    && (Expiry(own.start, own.events).Some? ==> now < Expiry(own.start, own.events).value)
  }

  /** The score's window and the key's TTL, together, pick exactly the registrations that live: in every
      reachable state and at any time, whatever is asked. */
  lemma ListedIsLive(acts: seq<Act>, filter: string, id: SubID, now: int)
    requires CanRun(NOBODY, acts)
    ensures Listed(AfterAll(NOBODY, acts).store, filter, id, now) <==>
      Running(acts, id) && KeyLives(Own(acts, id).value, now) && (filter == "" || filter == id.type_)
  {
    RunKept(acts);
    OwnState(acts, id);
    RedisTells(acts, id);
    var w := AfterAll(NOBODY, acts);
    if Running(acts, id) {
      var own := Own(acts, id).value;
      StateTells(own.start, own.config, own.events);
      assert KeptAt(w.store, id, w.regs[id]);
      WindowKeeps(w.regs[id].expire, now);
    }
  }

  /** The window alone keeps an entry for a TTL after its expiry, to the second. */
  lemma WindowExactly(acts: seq<Act>, id: SubID, now: int)
    requires CanRun(NOBODY, acts)
    ensures InWindow(AfterAll(NOBODY, acts).store, id, now) <==>
      Running(acts, id) && (
        var own := Own(acts, id).value;
        now - SUB_TTL < (Fired(own.start, own.events) + SUB_TTL) / SECOND * SECOND + SECOND)
  {
    RedisTells(acts, id);
    if Running(acts, id) {
      var own := Own(acts, id).value;
      WindowEdge((Fired(own.start, own.events) + SUB_TTL) / SECOND, now);
    }
  }

  lemma WindowEdge(score: int, now: int)
    ensures Unix(now - SUB_TTL) <= score <==> now - SUB_TTL < score * SECOND + SECOND
  {
  }

  lemma WindowKeeps(expire: int, now: int)
    ensures now < expire ==> Unix(now - SUB_TTL) <= Unix(expire)
  {
  }

  /** Also between the two commands of a refresh: the score lags behind the key, but not out of the
      window. */
  lemma ListedMidRefresh(acts: seq<Act>, id: SubID, fired: int, at: int, now: int)
    requires CanRun(NOBODY, acts) && CanAct(AfterAll(NOBODY, acts), Does(id, Tick(fired, at))) && now >= at
    ensures var store := ExpireKey(AfterAll(NOBODY, acts).store, id, at, fired + SUB_TTL);
      Listed(store, "", id, now) <==> Exists(KeyOf(store, id), now)
  {
    RunKept(acts);
    var w := AfterAll(NOBODY, acts);
    var s := w.regs[id];
    assert KeptAt(w.store, id, s);
    if Exists(s.key, at) {
      UnixWithin(fired + SUB_TTL);
      UnixLag(fired + SUB_TTL, s.expire, now);
    }
  }

  lemma UnixLag(until: int, expire: int, now: int)
    requires until - SUB_TTL < expire
    ensures now < until ==> Unix(now - SUB_TTL) <= Unix(expire)
  {
  }

  // A registration that is on time is found.

  /** A registration whose ticks are at most half the TTL less a second late is found, whatever the others
      do, until its next tick is later than that. */
  lemma OnTimeIsListed(acts: seq<Act>, id: SubID, delay: int, now: int)
    requires CanRun(NOBODY, acts) && 0 <= delay <= LIMIT && Running(acts, id)
    requires var own := Own(acts, id).value;
      && Runs(Begin(own.start, own.config), own.events, delay)
      && Last(own.start, own.events) <= now <= Fired(own.start, own.events) + SUB_TTL / 2 + delay
    ensures Listed(AfterAll(NOBODY, acts).store, "", id, now)
  {
    var own := Own(acts, id).value;
    OnTimeLives(own, delay, now);
    ListedIsLive(acts, "", id, now);
  }

  lemma OnTimeLives(own: Life, delay: int, now: int)
    requires 0 <= delay <= LIMIT && !Ended(own.events) && Runs(Begin(own.start, own.config), own.events, delay)
    requires Last(own.start, own.events) <= now <= Fired(own.start, own.events) + SUB_TTL / 2 + delay
    ensures KeyLives(own, now)
  {
    NeverLapses(own.start, own.config, own.events, delay);
    StateTells(own.start, own.config, own.events);
    var s := After(Begin(own.start, own.config), own.events);
    assert Exists(s.key, now);
  }
}
