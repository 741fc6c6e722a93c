/** Listing containers by their labels (docker/manager.go). */
module Listing {
  import opened Ident
  import opened Wrappers

  /** The label filter that `List` sends: an empty part of the ID filters nothing, but the class label
      must be there. */
  predicate Matches(filter: ID, labels: map<string, string>) {
    && "close" in labels
    && (filter.class_ != "" ==> labels["close"] == filter.class_)
    && (filter.type_ != "" ==> "close.type" in labels && labels["close.type"] == filter.type_)
    && (filter.instance != "" ==> "close.instance" in labels && labels["close.instance"] == filter.instance)
  }

  const ANY := ID("", "", "")

  /** An ID filter passes an ID that has its parts, where it has any. */
  predicate Agrees(filter: ID, id: ID) {
    filter.class_ in {"", id.class_} && filter.type_ in {"", id.type_} && filter.instance in {"", id.instance}
  }

  /** All containers, by name, with their labels. Docker's names hold no slash. */
  type Fleet = map<string, map<string, string>>

  predicate Plain(fleet: Fleet) {
    forall n :: n in fleet ==> '/' !in n
  }

  /** The container that has this ID. */
  predicate Has(fleet: Fleet, id: ID) {
    Name(id) in fleet && Identify("/" + Name(id), fleet[Name(id)]) == Some(id)
  }

  /** An ID read from a container is that container's name. */
  lemma ParsedHas(fleet: Fleet, n: string, id: ID)
    requires Plain(fleet) && n in fleet && Identify("/" + n, fleet[n]) == Some(id)
    ensures n == Name(id) && Has(fleet, id)
  {
    LastPartOf("", n);
  }

  /** The container with an ID passes the filter made of any parts of that ID. */
  lemma HasMatches(fleet: Fleet, id: ID, filter: ID)
    requires Has(fleet, id)
    requires Agrees(filter, id)
    ensures Matches(filter, fleet[Name(id)])
  {
  }

  lemma ParsedMatches(path: string, labels: map<string, string>)
    requires Identify(path, labels).Some?
    ensures Matches(ANY, labels)
  {
  }

  /** What a listing found: the containers that match, each with the ID it was recognised as. */
  ghost predicate Lists(fleet: Fleet, filter: ID, found: map<string, ID>) {
    && (forall n :: n in found <==> n in fleet && Matches(filter, fleet[n]))
    && (forall n :: n in found ==> Identify("/" + n, fleet[n]) == Some(found[n]))
  }

  /** A listing of everything has each container that is recognised, as what it is recognised as. */
  lemma ListsAny(fleet: Fleet, found: map<string, ID>, n: string, id: ID)
    requires Lists(fleet, ANY, found) && n in fleet && Identify("/" + n, fleet[n]) == Some(id)
    ensures n in found && found[n] == id
  {
    ParsedMatches("/" + n, fleet[n]);
  }

  predicate AllRecognised(fleet: Fleet, filter: ID) {
    forall n :: n in fleet && Matches(filter, fleet[n]) ==> Identify("/" + n, fleet[n]).Some?
  }

  /** `Manager.List`: fails if Docker does, and on any unrecognised container among the matching ones. */
  method List(fleet: Fleet, filter: ID, fault: bool) returns (r: Option<map<string, ID>>)
    ensures r.Some? <==> !fault && AllRecognised(fleet, filter)
    ensures r.Some? ==> Lists(fleet, filter, r.value)
  {
    if fault {
      return None;
    }
    var todo := fleet.Keys;
    var found: map<string, ID> := map[];
    while todo != {}
      invariant todo <= fleet.Keys
      invariant forall n :: n in found <==> n in fleet && n !in todo && Matches(filter, fleet[n])
      invariant forall n :: n in found ==> Identify("/" + n, fleet[n]) == Some(found[n])
      decreases todo
    {
      var n :| n in todo;
      todo := todo - {n};
      if Matches(filter, fleet[n]) {
        var id := Identify("/" + n, fleet[n]);
        if id.None? {
          return None;
        }
        found := found[n := id.value];
      }
    }
    r := Some(found);
  }

  /** A listing misses no container whose ID agrees with the filter. */
  lemma ListFinds(fleet: Fleet, filter: ID, found: map<string, ID>, id: ID)
    requires Plain(fleet) && Lists(fleet, filter, found)
    requires Agrees(filter, id)
    ensures Has(fleet, id) <==> exists n :: n in found && found[n] == id
    ensures Has(fleet, id) ==> Name(id) in found && found[Name(id)] == id
  {
    if Has(fleet, id) {
      HasMatches(fleet, id, filter);
    }
    forall n | n in found && found[n] == id
      ensures Has(fleet, id)
    {
      ParsedHas(fleet, n, id);
    }
  }

  /** And finds no other. */
  lemma ListsOnly(fleet: Fleet, filter: ID, found: map<string, ID>, n: string)
    requires Lists(fleet, filter, found) && n in found
    ensures n in fleet && Agrees(filter, found[n])
    ensures Label(fleet[n], "close") == found[n].class_
    ensures Label(fleet[n], "close.type") == found[n].type_ && Label(fleet[n], "close.instance") == found[n].instance
  {
  }
}
