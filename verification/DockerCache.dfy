/** The cache of container states (docker/cache.go), over a Docker that does not change. */
module DockerCache {
  import opened Ident
  import opened Listing
  import opened Wrappers

  datatype View = View(status: string, state: string, exitCode: int)

  datatype ContainerStatus = ContainerStatus(id: ID, view: View)

  /** A container, with its state as a listing tells it and as an inspection does. */
  datatype Row = Row(labels: map<string, string>, listed: View, inspected: View)

  function RowLabels(rows: map<string, Row>): Fleet {
    map n | n in rows :: rows[n].labels
  }

  /** What a listing with the exact ID as its filter comes to. */
  function Direct(rows: map<string, Row>, id: ID): Option<ContainerStatus> {
    if Has(RowLabels(rows), id) then Some(ContainerStatus(id, rows[Name(id)].listed)) else None
  }

  function Inspected(rows: map<string, Row>, id: ID): Option<ContainerStatus> {
    if Has(RowLabels(rows), id) then Some(ContainerStatus(id, rows[Name(id)].inspected)) else None
  }

  /** `Direct` is what the exact filter lists, with the state that the listing tells. */
  lemma DirectIsExact(rows: map<string, Row>, id: ID, found: map<string, ID>)
    requires Plain(RowLabels(rows)) && Lists(RowLabels(rows), id, found)
    ensures Direct(rows, id).Some? <==> exists n :: n in found && found[n] == id
    ensures forall n :: n in found && found[n] == id ==> Direct(rows, id) == Some(ContainerStatus(id, rows[n].listed))
  {
    ListFinds(RowLabels(rows), id, found, id);
    forall n | n in found && found[n] == id
      ensures n == Name(id)
    {
      ParsedHas(RowLabels(rows), n, id);
    }
  }

  /** Every container that a filter passes is in the cache. */
  ghost predicate Holds(cached: map<ID, ContainerStatus>, rows: map<string, Row>, filter: ID) {
    forall id: ID :: Agrees(filter, id) && Has(RowLabels(rows), id) ==> id in cached
  }

  /** What is cached is so. */
  ghost predicate Truthful(cached: map<ID, ContainerStatus>, rows: map<string, Row>, looked: set<ID>) {
    forall id :: id in cached ==>
      Some(cached[id]) == Direct(rows, id) || (id in looked && Some(cached[id]) == Inspected(rows, id))
  }

  /** An eager cache lists the whole class. */
  function FilterOf(eager: bool, id: ID): ID {
    if eager then ID(id.class_, "", "") else id
  }

  lemma KeptHolds(cached: map<ID, ContainerStatus>, rows: map<string, Row>, filter: ID, found: map<string, ID>)
    requires Plain(RowLabels(rows)) && Lists(RowLabels(rows), filter, found)
    requires forall n :: n in found ==> found[n] in cached
    ensures Holds(cached, rows, filter)
  {
    forall id: ID | Agrees(filter, id) && Has(RowLabels(rows), id)
      ensures id in cached
    {
      ListFinds(RowLabels(rows), filter, found, id);
    }
  }

  class Cache {
    const rows: map<string, Row>
    const eager: bool
    var list: set<ID>
    var containerStatus: map<ID, ContainerStatus>
    /** The filters that were listed, and the IDs that were inspected. */
    ghost var listings: seq<ID>
    ghost var looked: set<ID>

    ghost predicate Valid()
      reads this
    {
      && Plain(RowLabels(rows))
      && (forall filter :: filter in list ==> Holds(containerStatus, rows, filter))
      && Truthful(containerStatus, rows, looked)
      && (forall filter :: filter in list <==> filter in listings)
      && (forall i, j :: 0 <= i < j < |listings| ==> listings[i] != listings[j])
    }

    constructor (rows: map<string, Row>, eager: bool)
      requires Plain(RowLabels(rows))
      ensures Valid() && this.rows == rows && this.eager == eager && listings == [] && looked == {}
    {
      this.rows, this.eager := rows, eager;
      list, containerStatus, listings, looked := {}, map[], [], {};
    }

    /** `GetContainer`: inspects by name; what is found goes to the cache under the ID it has. */
    method GetContainer(id: ID, fault: bool) returns (ok: bool, r: Option<ContainerStatus>)
      requires Valid()
      modifies this`containerStatus, this`looked
      ensures Valid()
      ensures ok <==> !fault && (Name(id) in rows ==> Identify("/" + Name(id), rows[Name(id)].labels).Some?)
      ensures ok && r.None? ==> Name(id) !in rows
      ensures ok && r.Some? ==> Name(r.value.id) == Name(id) && r == Inspected(rows, r.value.id)
      ensures ok && r.Some? ==> Name(id) in rows && r.value.view == rows[Name(id)].inspected
      ensures ok && r.Some? ==> containerStatus == old(containerStatus)[r.value.id := r.value]
      ensures !ok || r.None? ==> containerStatus == old(containerStatus)
      ensures old(looked) <= looked && forall i :: i in looked - old(looked) ==> Name(i) == Name(id)
    {
      if fault {
        return false, None;
      }
      if Name(id) !in rows {
        return true, None;
      }
      var row := rows[Name(id)];
      var parsed := Identify("/" + Name(id), row.labels);
      if parsed.None? {
        return false, None;
      }
      ParsedHas(RowLabels(rows), Name(id), parsed.value);
      var status := ContainerStatus(parsed.value, row.inspected);
      containerStatus := containerStatus[parsed.value := status];
      looked := looked + {parsed.value};
      r, ok := Some(status), true;
    }

    /** The listed containers go to the cache. */
    method Keep(filter: ID, found: map<string, ID>)
      requires Plain(RowLabels(rows)) && Lists(RowLabels(rows), filter, found)
      requires Truthful(containerStatus, rows, looked)
      modifies this`containerStatus
      ensures Truthful(containerStatus, rows, looked)
      ensures old(containerStatus).Keys <= containerStatus.Keys
      ensures forall n :: n in found ==> found[n] in containerStatus
    {
      var todo := found.Keys;
      while todo != {}
        invariant todo <= found.Keys
        invariant Truthful(containerStatus, rows, looked)
        invariant old(containerStatus).Keys <= containerStatus.Keys
        invariant forall n :: n in found && n !in todo ==> found[n] in containerStatus
        decreases todo
      {
        var n :| n in todo;
        todo := todo - {n};
        ParsedHas(RowLabels(rows), n, found[n]);
        containerStatus := containerStatus[found[n] := ContainerStatus(found[n], rows[n].listed)];
      }
    }

    /** A listing, whose containers go to the cache. */
    method Warm(filter: ID, fault: bool) returns (ok: bool)
      requires Valid() && filter !in list
      modifies this`containerStatus, this`list, this`listings
      ensures Valid()
      ensures ok <==> !fault && AllRecognised(RowLabels(rows), filter)
      ensures !ok ==> unchanged(this)
      ensures ok ==> list == old(list) + {filter} && listings == old(listings) + [filter]
    {
      var found := List(RowLabels(rows), filter, fault);
      if found.None? {
        return false;
      }
      Keep(filter, found.value);
      KeptHolds(containerStatus, rows, filter, found.value);
      list, listings := list + {filter}, listings + [filter];
      ok := true;
    }

    /** `GetStatus`: whatever was asked before, and however the cache is warmed, an answer is the one
        an exact lookup gives; each filter is listed successfully at most once. */
    method GetStatus(id: ID, fault: bool) returns (ok: bool, r: Option<ContainerStatus>)
      requires Valid()
      modifies this`containerStatus, this`list, this`listings
      ensures Valid()
      ensures ok ==> r == Direct(rows, id) || (id in looked && r == Inspected(rows, id))
      ensures var filter := if eager then ID(id.class_, "", "") else id;
        if id in old(containerStatus) || filter in old(list) then ok && unchanged(this)
        else
          && (ok <==> !fault && AllRecognised(RowLabels(rows), filter))
          && (ok ==> listings == old(listings) + [filter] && list == old(list) + {filter})
          && (!ok ==> unchanged(this))
    {
      if id in containerStatus {
        return true, Some(containerStatus[id]);
      }
      var filter := FilterOf(eager, id);
      if filter in list {
        assert Holds(containerStatus, rows, filter) && Agrees(filter, id);
        return true, None;
      }
      ok := Warm(filter, fault);
      if !ok {
        return false, None;
      }
      assert Holds(containerStatus, rows, filter) && Agrees(filter, id);
      r := if id in containerStatus then Some(containerStatus[id]) else None;
    }
  }

  datatype Answer = Failed | Known(status: Option<ContainerStatus>)

  /** Any sequence of queries to a new cache, eager or not: the answers are those of exact lookups, and
      a query fails only if Docker does or lists a container it should not have. */
  method Answers(rows: map<string, Row>, eager: bool, ids: seq<ID>, faults: seq<bool>) returns (answers: seq<Answer>)
    requires Plain(RowLabels(rows)) && |faults| == |ids|
    ensures |answers| == |ids|
    ensures forall i :: 0 <= i < |ids| && answers[i].Known? ==> answers[i].status == Direct(rows, ids[i])
    ensures forall i :: 0 <= i < |ids| && answers[i].Failed? ==>
      faults[i] || !AllRecognised(RowLabels(rows), if eager then ID(ids[i].class_, "", "") else ids[i])
  {
    var cache := new Cache(rows, eager);
    answers := [];
    for i := 0 to |ids|
      invariant cache.Valid() && cache.rows == rows && cache.eager == eager && cache.looked == {}
      invariant |answers| == i
      invariant forall k :: 0 <= k < i && answers[k].Known? ==> answers[k].status == Direct(rows, ids[k])
      invariant forall k :: 0 <= k < i && answers[k].Failed? ==>
        faults[k] || !AllRecognised(RowLabels(rows), FilterOf(eager, ids[k]))
    {
      var ok, r := cache.GetStatus(ids[i], faults[i]);
      answers := answers + [if ok then Known(r) else Failed];
    }
  }
}
