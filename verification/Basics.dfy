// Names, decimal numerals and node directories.
module Basics {

  datatype Option<+T> = None | Some(value: T)

  // ----- decimal numerals (the %d verb) -----

  function Digit(d: nat): char
    requires d < 10
  {
    "0123456789"[d]
  }

  function Decimal(n: nat): string {
    if n < 10 then [Digit(n)] else Decimal(n / 10) + [Digit(n % 10)]
  }

  // The reader that is the numeral's partner.
  function DigitValue(c: char): nat {
    if '0' <= c <= '9' then (c - '0') as nat else 0
  }

  function NumeralValue(s: string): nat {
    if s == [] then 0 else 10 * NumeralValue(s[..|s| - 1]) + DigitValue(s[|s| - 1])
  }

  lemma {:induction false} DecimalRoundTrip(n: nat)
    ensures NumeralValue(Decimal(n)) == n
    ensures Decimal(n) != [] && forall c :: c in Decimal(n) ==> '0' <= c <= '9'
    ensures Decimal(n)[0] == '0' ==> Decimal(n) == "0"
  {
    if n < 10 {
      assert Decimal(n)[..0] == [];
    } else {
      DecimalRoundTrip(n / 10);
      var s := Decimal(n);
      assert s[..|s| - 1] == Decimal(n / 10);
    }
  }

  // ----- node names and directories -----

  function NodeName(i: nat): string {
    "node" + Decimal(i + 1)
  }

  // The names are node1, node2 and so on.
  lemma NodeNameReads(i: nat)
    ensures "node" <= NodeName(i) && NumeralValue(NodeName(i)[4..]) == i + 1
    ensures NodeName(i)[4..] != [] && forall c :: c in NodeName(i)[4..] ==> '0' <= c <= '9'
  {
    hide Decimal, NumeralValue;
    assert NodeName(i)[4..] == Decimal(i + 1);
    DecimalRoundTrip(i + 1);
  }

  lemma NodeNameInjective(i: nat, j: nat)
    requires NodeName(i) == NodeName(j)
    ensures i == j
  {
    hide Decimal, NumeralValue;
    assert NodeName(i)[4..] == Decimal(i + 1);
    assert NodeName(j)[4..] == Decimal(j + 1);
    DecimalRoundTrip(i + 1);
    DecimalRoundTrip(j + 1);
  }

  // filepath.Join of a root that is already clean, as ioutil.TempDir returns it.
  function Join(root: string, name: string, leaf: string): string {
    root + "/" + name + "/" + leaf
  }

  function LogDir(root: string, name: string): string {
    Join(root, name, "log")
  }

  function DbDir(root: string, name: string): string {
    Join(root, name, "db-dir")
  }

  // A path's components, the reader of a joined path.
  function Components(path: string): (r: seq<string>)
    ensures r != []
  {
    if path == [] then [[]] else Before(path[0], Components(path[1..]))
  }

  function Before(c: char, rest: seq<string>): (r: seq<string>)
    requires rest != []
    ensures r != []
  {
    if c == '/' then [[]] + rest else [[c] + rest[0]] + rest[1..]
  }

  lemma BeforeBoth(c: char, x: seq<string>, y: seq<string>)
    requires x != []
    ensures Before(c, x + y) == Before(c, x) + y
  {
    assert (x + y)[0] == x[0] && (x + y)[1..] == x[1..] + y;
  }

  lemma {:induction false} ComponentsOfOne(name: string)
    requires '/' !in name
    ensures Components(name) == [name]
  {
    if name != [] {
      ComponentsOfOne(name[1..]);
      assert [name[0]] + name[1..] == name;
    }
  }

  lemma {:induction false} ComponentsJoined(a: string, b: string)
    ensures Components(a + "/" + b) == Components(a) + Components(b)
  {
    var path := a + "/" + b;
    if a == [] {
      assert path[0] == '/' && path[1..] == b;
    } else {
      hide Before;
      ComponentsJoined(a[1..], b);
      assert path[0] == a[0] && path[1..] == a[1..] + "/" + b;
      BeforeBoth(a[0], Components(a[1..]), Components(b));
    }
  }

  // A node's directories are its own log and db-dir below the root, whatever that is.
  lemma DirectoriesUnderRoot(root: string, i: nat)
    ensures Components(LogDir(root, NodeName(i))) == Components(root) + [NodeName(i), "log"]
    ensures Components(DbDir(root, NodeName(i))) == Components(root) + [NodeName(i), "db-dir"]
  {
    hide Components, NodeName;
    assert '/' !in NodeName(i) by {
      NameHasNoSlash(i);
    }
    var name := NodeName(i);
    ComponentsOfOne(name);
    ComponentsOfOne("log");
    ComponentsOfOne("db-dir");
    ComponentsJoined(root, name);
    ComponentsJoined(root + "/" + name, "log");
    ComponentsJoined(root + "/" + name, "db-dir");
  }

  lemma NameHasNoSlash(i: nat)
    ensures '/' !in NodeName(i)
  {
    hide Decimal;
    NodeNameReads(i);
    assert NodeName(i) == "node" + NodeName(i)[4..];
  }

  lemma JoinInjective(root: string, a: string, b: string, leaf: string)
    requires Join(root, a, leaf) == Join(root, b, leaf)
    ensures a == b
  {
    var p, q := Join(root, a, leaf), Join(root, b, leaf);
    assert |p| == |root| + 1 + |a| + 1 + |leaf|;
    assert p[|root| + 1..|root| + 1 + |a|] == a;
    assert q[|root| + 1..|root| + 1 + |b|] == b;
  }

  // All 2n directories of a cluster differ, whatever the root.
  lemma DirectoriesDistinct(root: string, i: nat, j: nat)
    ensures LogDir(root, NodeName(i)) != DbDir(root, NodeName(j))
    ensures i != j ==> LogDir(root, NodeName(i)) != LogDir(root, NodeName(j))
    ensures i != j ==> DbDir(root, NodeName(i)) != DbDir(root, NodeName(j))
  {
    hide NodeName;
    var p, q := LogDir(root, NodeName(i)), DbDir(root, NodeName(j));
    assert p[|p| - 1] == 'g' && q[|q| - 1] == 'r';
    if i != j {
      if LogDir(root, NodeName(i)) == LogDir(root, NodeName(j)) {
        JoinInjective(root, NodeName(i), NodeName(j), "log");
        NodeNameInjective(i, j);
      }
      if DbDir(root, NodeName(i)) == DbDir(root, NodeName(j)) {
        JoinInjective(root, NodeName(i), NodeName(j), "db-dir");
        NodeNameInjective(i, j);
      }
    }
  }

  // ----- enumerations of a finite set, in any order -----

  // `order` lists every element of `s` exactly once.
  ghost predicate Enumerates<T>(order: seq<T>, s: set<T>) {
    multiset(order) == multiset(s)
  }

  lemma EnumerationMembers<T>(order: seq<T>, s: set<T>)
    requires Enumerates(order, s)
    ensures forall x :: x in order <==> x in s
    ensures forall i, j :: 0 <= i < j < |order| ==> order[i] != order[j]
  {
    forall x ensures x in order <==> x in s {
      assert x in order <==> x in multiset(order);
      assert x in s <==> x in multiset(s);
    }
    forall i, j | 0 <= i < j < |order| ensures order[i] != order[j] {
      assert order == order[..j] + order[j..];
      assert order[i] in multiset(order[..j]);
      assert order[j] in multiset(order[j..]);
      assert multiset(order)[order[j]] <= 1;
    }
  }
}
