/** Container names (docker/id.go), and the keys of the controller's tables. */
module Ident {
  import opened Wrappers

  datatype ID = ID(class_: string, type_: string, instance: string)

  // Decimal numbers, as `fmt.Sprintf("%d")` writes them.

  function Digit(d: nat): char
    requires d < 10
  {
    "0123456789"[d]
  }

  function Decimal(n: nat): (s: string)
    ensures s != [] && IsDecimal(s)
  {
    if n < 10 then [Digit(n)] else Decimal(n / 10) + [Digit(n % 10)]
  }

  predicate IsDecimal(s: string) {
    forall c :: c in s ==> '0' <= c <= '9'
  }

  lemma {:induction false} DecimalInjective(m: nat, n: nat)
    requires Decimal(m) == Decimal(n)
    ensures m == n
  {
    var s, t := Decimal(m), Decimal(n);
    assert s[|s| - 1] == Digit(m % 10) && t[|t| - 1] == Digit(n % 10);
    if m >= 10 && n >= 10 {
      assert s[..|s| - 1] == Decimal(m / 10) && t[..|t| - 1] == Decimal(n / 10);
      DecimalInjective(m / 10, n / 10);
    }
  }

  /** What a decimal denotes. */
  function Value(s: string): int {
    if s == [] then 0 else 10 * Value(s[..|s| - 1]) + (s[|s| - 1] as int - '0' as int)
  }

  lemma {:induction false} DecimalValue(n: nat)
    ensures Value(Decimal(n)) == n && (n > 0 ==> Decimal(n)[0] != '0')
  {
    var s := Decimal(n);
    assert s[|s| - 1] == Digit(n % 10) && Digit(n % 10) as int - '0' as int == n % 10;
    if n >= 10 {
      DecimalValue(n / 10);
      assert s[..|s| - 1] == Decimal(n / 10);
    } else {
      assert s[..|s| - 1] == [];
    }
  }

  // Splitting at a separator.

  lemma CutFirst(c: char, a: string, x: string, b: string, y: string)
    requires c !in a && c !in b
    requires a + [c] + x == b + [c] + y
    ensures a == b && x == y
  {
    var s := a + [c] + x;
    assert s[|a|] == c && s[|b|] == c;
    assert s[..|a|] == a && s[..|b|] == b;
    assert s[|a| + 1..] == x && s[|b| + 1..] == y;
  }

  lemma CutLast(c: char, x: string, a: string, y: string, b: string)
    requires c !in a && c !in b
    requires x + [c] + a == y + [c] + b
    ensures x == y && a == b
  {
    var s := x + [c] + a;
    var n := |s|;
    assert s[|x|] == c && s[|y|] == c;
    assert s[|x| + 1..] == a && s[|y| + 1..] == b;
    assert s[..|x|] == x && s[..|y|] == y;
  }

  function SplitLast(c: char, s: string): (r: (string, string))
    requires c in s
    ensures s == r.0 + [c] + r.1 && c !in r.1
  {
    var n := |s| - 1;
    if s[n] == c then (s[..n], [])
    else
      var (x, y) := SplitLast(c, s[..n]);
      (x, y + [s[n]])
  }

  // Names.

  /** `ID.String`: the Docker name. */
  function Name(id: ID): string {
    "close-" + id.class_ + "-" + id.type_ + "-" + id.instance
  }

  /** Names tell apart the IDs that the controller uses: types may hold dashes, classes and
      instances may not. */
  lemma NameInjective(a: ID, b: ID)
    requires '-' !in a.class_ && '-' !in a.instance && '-' !in b.class_ && '-' !in b.instance
    ensures Name(a) == Name(b) <==> a == b
  {
    if Name(a) == Name(b) {
      var x, y := "close-" + a.class_ + "-" + a.type_, "close-" + b.class_ + "-" + b.type_;
      assert Name(a) == x + ['-'] + a.instance && Name(b) == y + ['-'] + b.instance;
      CutLast('-', x, a.instance, y, b.instance);
      assert x[6..] == a.class_ + ['-'] + a.type_ && y[6..] == b.class_ + ['-'] + b.type_;
      CutFirst('-', a.class_, a.type_, b.class_, b.type_);
    }
  }

  /** With a dash in an instance they do not. */
  lemma NamesClash()
    ensures Name(ID("worker", "a", "b-1")) == Name(ID("worker", "a-b", "1"))
  {
    assert Name(ID("worker", "a", "b-1")) == "close-worker-a-b-1" == Name(ID("worker", "a-b", "1"));
  }

  /** What dash-free instances share: no other ID of the class with such an instance has the name. */
  ghost predicate TellsApart(class_: string, instance: string) {
    forall t, t', i' :: '-' !in i' && Name(ID(class_, t, instance)) == Name(ID(class_, t', i'))
      ==> t == t' && instance == i'
  }

  /** So within a class without a dash an instance keeps its names apart exactly if it has no dash. */
  lemma NamesApartExactly(class_: string, instance: string)
    requires '-' !in class_
    ensures TellsApart(class_, instance) <==> '-' !in instance
  {
    if '-' in instance {
      var (x, y) := SplitLast('-', instance);
      assert Name(ID(class_, "", instance)) == "close-" + class_ + "--" + (x + ['-'] + y)
          == "close-" + class_ + "-" + ("-" + x) + "-" + y == Name(ID(class_, "-" + x, y));
    } else {
      forall t, t', i' | '-' !in i' && Name(ID(class_, t, instance)) == Name(ID(class_, t', i'))
        ensures t == t' && instance == i'
      {
        NameInjective(ID(class_, t, instance), ID(class_, t', i'));
      }
    }
  }

  lemma DecimalHasNo(c: char, s: string)
    requires IsDecimal(s) && !('0' <= c <= '9')
    ensures c !in s
  {
  }

  /** The key of a client or worker: `name:instance`. */
  function Key(name: string, instance: string): string {
    name + ":" + instance
  }

  lemma KeyInjective(name: string, instance: string, name': string, instance': string)
    requires ':' !in instance && ':' !in instance'
    ensures Key(name, instance) == Key(name', instance') <==> name == name' && instance == instance'
  {
    if Key(name, instance) == Key(name', instance') {
      assert Key(name, instance) == name + [':'] + instance && Key(name', instance') == name' + [':'] + instance';
      CutLast(':', name, instance, name', instance');
    }
  }

  // The controller's own containers.

  const CLIENT := "client"
  const WORKER := "worker"

  /** No container of this class has this name. */
  ghost predicate Foreign(n: string, class_: string) {
    forall id: ID :: id.class_ == class_ && IsDecimal(id.instance) ==> Name(id) != n
  }

  /** A client or a worker could have this name. */
  ghost predicate Managed(n: string) {
    !Foreign(n, CLIENT) || !Foreign(n, WORKER)
  }

  lemma OwnName(id: ID)
    requires IsDecimal(id.instance)
    ensures !Foreign(Name(id), id.class_)
    ensures id.class_ in {CLIENT, WORKER} ==> Managed(Name(id))
  {
  }

  /** A name belongs to one class. */
  lemma OneClass(n: string, class_: string, other: string)
    requires '-' !in class_ && '-' !in other && class_ != other && !Foreign(n, class_)
    ensures Foreign(n, other)
  {
    var id: ID :| id.class_ == class_ && IsDecimal(id.instance) && Name(id) == n;
    DecimalHasNo('-', id.instance);
    forall id': ID | id'.class_ == other && IsDecimal(id'.instance)
      ensures Name(id') != n
    {
      DecimalHasNo('-', id'.instance);
      NameInjective(id, id');
    }
  }

  // Reading an ID back from a container's labels.

  function Labels(id: ID): map<string, string> {
    map["close" := id.class_, "close.type" := id.type_, "close.instance" := id.instance]
  }

  /** The last component of a slash-separated path. */
  function LastPart(path: string): string {
    if path == [] || path[|path| - 1] == '/' then []
    else LastPart(path[..|path| - 1]) + [path[|path| - 1]]
  }

  function Label(labels: map<string, string>, key: string): string {
    if key in labels then labels[key] else ""
  }

  /** `ID.parseID`: all three labels must be there, and the name must be theirs. */
  function ParseID(path: string, labels: map<string, string>): Option<ID> {
    var class_, type_, instance := Label(labels, "close"), Label(labels, "close.type"), Label(labels, "close.instance");
    if class_ == "" || type_ == "" || instance == "" then None
    else
      var id := ID(class_, type_, instance);
      if LastPart(path) != Name(id) then None else Some(id)
  }

  lemma {:induction false} LastPartOf(dir: string, name: string)
    ensures LastPart(dir + "/" + name) == LastPart("/" + name)
    ensures LastPart("/" + name) == name <==> '/' !in name
  {
    if name == [] {
      assert dir + "/" + name == dir + "/" && "/" + name == "/";
    } else {
      var n := |name| - 1;
      var p, q := dir + "/" + name, "/" + name;
      assert p[..|p| - 1] == dir + "/" + name[..n] && q[..|q| - 1] == "/" + name[..n];
      assert p[|p| - 1] == q[|q| - 1] == name[n];
      LastPartOf(dir, name[..n]);
      LastPartShort(q);
      LastPartShort("/" + name[..n]);
      assert name == name[..n] + [name[n]];
    }
  }

  lemma {:induction false} LastPartShort(path: string)
    ensures '/' !in LastPart(path)
    ensures |LastPart(path)| <= |path|
  {
    if path != [] && path[|path| - 1] != '/' {
      LastPartShort(path[..|path| - 1]);
    }
  }

  /** A container created for an ID is recognised as that ID, under any node's path, exactly if no
      part of the ID is empty and none holds a slash. */
  lemma ParseRoundTrip(dir: string, id: ID)
    ensures ParseID(dir + "/" + Name(id), Labels(id)) == Some(id)
      <==> id.class_ != "" && id.type_ != "" && id.instance != "" && '/' !in Name(id)
  {
    LastPartOf(dir, Name(id));
  }

  /** And an ID that is recognised has that name. */
  lemma ParsedName(path: string, labels: map<string, string>, id: ID)
    requires ParseID(path, labels) == Some(id)
    ensures LastPart(path) == Name(id) && id.class_ != "" && id.type_ != "" && id.instance != ""
  {
  }

  function Slashes(path: string): nat {
    if path == [] then 0 else Slashes(path[..|path| - 1]) + if path[|path| - 1] == '/' then 1 else 0
  }

  /** What a container's path and labels make of it: `parseID`, then `fromDockerName`, which takes a name, or
      a node and a name. */
  function Identify(path: string, labels: map<string, string>): Option<ID> {
    if 1 <= Slashes(path) <= 2 then ParseID(path, labels) else None
  }

  lemma {:induction false} SlashesOf(path: string, name: string)
    requires '/' !in name
    ensures Slashes(path + name) == Slashes(path)
  {
    if name == [] {
      assert path + name == path;
    } else {
      var n := |name| - 1;
      assert (path + name)[..|path| + n] == path + name[..n];
      SlashesOf(path, name[..n]);
    }
  }

  /** The same on a single Docker, and on any node of a swarm. */
  lemma IdentifyRoundTrip(node: string, id: ID)
    requires '/' !in node
    ensures Identify("/" + Name(id), Labels(id)) == Some(id)
      <==> id.class_ != "" && id.type_ != "" && id.instance != "" && '/' !in Name(id)
    ensures Identify("/" + node + "/" + Name(id), Labels(id)) == Some(id)
      <==> id.class_ != "" && id.type_ != "" && id.instance != "" && '/' !in Name(id)
  {
    ParseRoundTrip("", id);
    ParseRoundTrip("/" + node, id);
    assert "" + "/" + Name(id) == "/" + Name(id);
    if '/' !in Name(id) {
      SlashesOf("/", Name(id));
      SlashesOf("/" + node + "/", Name(id));
      SlashesOf("/", node);
      assert ("/" + node + "/")[..|node| + 1] == "/" + node;
      assert "/"[..0] == "";
    }
  }
}
