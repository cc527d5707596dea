// The sorted list of node addresses as a function of the node infos.
module Uris {
  import opened Basics
  import opened Registry

  // ----- Go's order on strings -----

  predicate Leq(a: string, b: string) {
    a == [] || (b != [] && (a[0] < b[0] || (a[0] == b[0] && Leq(a[1..], b[1..]))))
  }

  // It is the order of the characters' codes at the first difference, a prefix
  // coming first.
  ghost predicate SmallerAt(a: string, b: string, i: nat) {
    i < |a| && i < |b| && a[..i] == b[..i] && a[i] as int < b[i] as int
  }

  lemma {:induction false} LeqIs(a: string, b: string)
    ensures Leq(a, b) <==> a <= b || exists i: nat :: SmallerAt(a, b, i)
  {
    if a != [] && b != [] {
      LeqIs(a[1..], b[1..]);
      if a[0] == b[0] {
        SameFirst(a, b);
      } else if a[0] < b[0] {
        assert SmallerAt(a, b, 0);
      } else {
        assert forall i: nat :: SmallerAt(a, b, i) ==> i == 0 || a[..i][0] == b[..i][0];
      }
    }
  }

  lemma SameFirst(a: string, b: string)
    requires a != [] && b != [] && a[0] == b[0]
    ensures a[1..] <= b[1..] <==> a <= b
    ensures (exists i: nat :: SmallerAt(a[1..], b[1..], i)) <==> exists i: nat :: SmallerAt(a, b, i)
  {
    assert a == [a[0]] + a[1..] && b == [b[0]] + b[1..];
    if i: nat :| SmallerAt(a[1..], b[1..], i) {
      assert a[..i + 1] == [a[0]] + a[1..][..i] && b[..i + 1] == [b[0]] + b[1..][..i];
      assert SmallerAt(a, b, i + 1);
    }
    if i: nat :| SmallerAt(a, b, i) {
      assert i != 0;
      assert a[1..][..i - 1] == a[..i][1..] && b[1..][..i - 1] == b[..i][1..];
      assert SmallerAt(a[1..], b[1..], i - 1);
    }
  }

  lemma {:induction false} LeqTotal(a: string, b: string)
    ensures Leq(a, b) || Leq(b, a)
  {
    if a != [] && b != [] && a[0] == b[0] {
      LeqTotal(a[1..], b[1..]);
    }
  }

  lemma {:induction false} LeqTransitive(a: string, b: string, c: string)
    requires Leq(a, b) && Leq(b, c)
    ensures Leq(a, c)
  {
    if a != [] && a[0] == b[0] && b[0] == c[0] {
      LeqTransitive(a[1..], b[1..], c[1..]);
    }
  }

  lemma {:induction false} LeqAntisymmetric(a: string, b: string)
    requires Leq(a, b) && Leq(b, a)
    ensures a == b
  {
    if a != [] && b != [] {
      LeqAntisymmetric(a[1..], b[1..]);
      assert a == [a[0]] + a[1..] && b == [b[0]] + b[1..];
    }
  }

  // ----- sort.Strings -----

  ghost predicate Sorted(s: seq<string>) {
    forall i, j :: 0 <= i < j < |s| ==> Leq(s[i], s[j])
  }

  function Insert(x: string, s: seq<string>): (r: seq<string>)
    ensures multiset(r) == multiset{x} + multiset(s)
  {
    if s == [] || Leq(x, s[0]) then [x] + s
    else
      assert s == [s[0]] + s[1..];
      [s[0]] + Insert(x, s[1..])
  }

  function Sort(s: seq<string>): (r: seq<string>)
    ensures multiset(r) == multiset(s)
  {
    if s == [] then []
    else
      assert s == [s[0]] + s[1..];
      Insert(s[0], Sort(s[1..]))
  }

  lemma {:induction false} InsertSorts(x: string, s: seq<string>)
    requires Sorted(s)
    ensures Sorted(Insert(x, s))
  {
    var r := Insert(x, s);
    if s == [] {
    } else if Leq(x, s[0]) {
      forall j | 0 < j < |r| ensures Leq(x, r[j]) {
        if j > 1 {
          LeqTransitive(x, s[0], s[j - 1]);
        }
      }
    } else {
      InsertSorts(x, s[1..]);
      LeqTotal(x, s[0]);
      var t := Insert(x, s[1..]);
      forall j | 0 <= j < |t| ensures Leq(s[0], t[j]) {
        assert t[j] in multiset(t);
        assert t[j] in multiset{x} + multiset(s[1..]);
      }
    }
  }

  lemma {:induction false} SortSorts(s: seq<string>)
    ensures Sorted(Sort(s))
  {
    if s != [] {
      SortSorts(s[1..]);
      InsertSorts(s[0], Sort(s[1..]));
    }
  }

  // The least element comes first.
  lemma FirstIsLeast(a: seq<string>, x: string)
    requires Sorted(a) && x in multiset(a)
    ensures a != [] && Leq(a[0], x)
  {
    var i :| 0 <= i < |a| && a[i] == x;
    LeqTotal(x, x);
  }

  lemma TailBag(a: seq<string>)
    requires a != []
    ensures multiset(a[1..]) == multiset(a) - multiset{a[0]} && a[0] in multiset(a)
  {
    assert a == [a[0]] + a[1..];
  }

  // A sorted list is determined by what it holds, and how often.
  lemma {:induction false} SortedUnique(a: seq<string>, b: seq<string>)
    requires Sorted(a) && Sorted(b) && multiset(a) == multiset(b)
    ensures a == b
  {
    hide Leq;
    if a == [] {
      assert |multiset(b)| == 0;
    } else {
      TailBag(a);
      FirstIsLeast(b, a[0]);
      TailBag(b);
      FirstIsLeast(a, b[0]);
      LeqAntisymmetric(a[0], b[0]);
      SortedUnique(a[1..], b[1..]);
      assert a == [a[0]] + a[1..] && b == [b[0]] + b[1..];
    }
  }

  // ----- the addresses of a set of infos -----

  function UrisAlong(order: seq<string>, infos: map<string, Info>): seq<string>
    requires forall n :: n in order ==> n in infos
  {
    seq(|order|, i requires 0 <= i < |order| => infos[order[i]].uri)
  }

  ghost function UriBag(infos: map<string, Info>): multiset<string>
    decreases infos.Keys
  {
    if infos == map[] then multiset{} else
      var n :| n in infos;
      assert (infos - {n}).Keys == infos.Keys - {n};
      multiset{infos[n].uri} + UriBag(infos - {n})
  }

  lemma {:induction false} UriBagHolds(infos: map<string, Info>, x: string)
    ensures x in UriBag(infos) <==> exists n :: n in infos && infos[n].uri == x
    decreases infos.Keys
  {
    if infos != map[] {
      var n :| n in infos && UriBag(infos) == multiset{infos[n].uri} + UriBag(infos - {n});
      UriBagHolds(infos - {n}, x);
      assert forall m :: m in infos <==> m == n || m in infos - {n};
    }
  }

  // An answer lists the addresses of infos, and no other.
  lemma AnswerHolds(answer: seq<string>, infos: map<string, Info>, x: string)
    requires IsUriList(answer, infos)
    ensures x in answer <==> exists n :: n in infos && infos[n].uri == x
  {
    UriBagHolds(infos, x);
    assert x in answer <==> x in multiset(answer);
  }

  // Any node may be counted first.
  lemma {:induction false} UriBagAny(infos: map<string, Info>, m: string)
    requires m in infos
    ensures UriBag(infos) == multiset{infos[m].uri} + UriBag(infos - {m})
    decreases infos.Keys
  {
    var n :| n in infos && UriBag(infos) == multiset{infos[n].uri} + UriBag(infos - {n});
    if n != m {
      UriBagAny(infos - {n}, m);
      UriBagAny(infos - {m}, n);
      RemoveTwo(infos, n, m);
    }
  }

  lemma RemoveTwo<V>(a: map<string, V>, n: string, m: string)
    ensures a - {n} - {m} == a - {m} - {n}
  {
  }

  // Whatever the iteration order, the same addresses are collected.
  lemma {:induction false} AnyOrder(order: seq<string>, infos: map<string, Info>)
    requires Enumerates(order, infos.Keys)
    ensures forall n :: n in order ==> n in infos
    ensures multiset(UrisAlong(order, infos)) == UriBag(infos)
    decreases |order|
  {
    hide UriBag, Enumerates;
    EnumerationMembers(order, infos.Keys);
    if order == [] {
      NothingListed(infos);
      assert UrisAlong(order, infos) == [];
    } else {
      var n, rest := order[0], infos - {order[0]};
      EnumerationTail(order, infos.Keys);
      assert rest.Keys == infos.Keys - {n};
      AnyOrder(order[1..], rest);
      UriBagAny(infos, n);
      UrisHead(order, infos);
    }
  }

  lemma NothingListed(infos: map<string, Info>)
    requires Enumerates([], infos.Keys)
    ensures UriBag(infos) == multiset{}
  {
    assert |multiset(infos.Keys)| == 0;
    assert infos == map[];
  }

  lemma UrisHead(order: seq<string>, infos: map<string, Info>)
    requires order != [] && forall n :: n in order ==> n in infos
    requires forall n :: n in order[1..] ==> n in infos - {order[0]}
    ensures multiset(UrisAlong(order, infos))
            == multiset{infos[order[0]].uri} + multiset(UrisAlong(order[1..], infos - {order[0]}))
  {
    assert UrisAlong(order, infos) == [infos[order[0]].uri] + UrisAlong(order[1..], infos - {order[0]});
  }

  lemma EnumerationTail(order: seq<string>, s: set<string>)
    requires order != [] && Enumerates(order, s)
    ensures Enumerates(order[1..], s - {order[0]})
  {
    TailBag(order);
    assert multiset(s - {order[0]}) == multiset(s) - multiset{order[0]};
  }

  // What URIs answers: the addresses, sorted.
  ghost predicate IsUriList(answer: seq<string>, infos: map<string, Info>) {
    Sorted(answer) && multiset(answer) == UriBag(infos)
  }

  lemma UriListUnique(a: seq<string>, b: seq<string>, infos: map<string, Info>)
    requires IsUriList(a, infos) && IsUriList(b, infos)
    ensures a == b
  {
    SortedUnique(a, b);
  }

  // Every iteration order gives the one answer.
  lemma AnyOrderSorts(order: seq<string>, infos: map<string, Info>)
    requires Enumerates(order, infos.Keys)
    ensures forall n :: n in order ==> n in infos
    ensures IsUriList(Sort(UrisAlong(order, infos)), infos)
  {
    AnyOrder(order, infos);
    SortSorts(UrisAlong(order, infos));
  }

  // After a successful RemoveNode the answer loses exactly that node's address,
  // as long as the library reports the addresses already shown.
  lemma RemoveDropsOneUri(net: Net, name: string, order: seq<string>, before: seq<string>, after: seq<string>)
    requires WellFormed(net) && net.nw.Some? && name in net.infos && name in net.nw.value
    requires Enumerates(order, net.infos.Keys - {name})
    requires forall n :: n in net.nw.value ==> n in net.infos && net.infos[n].uri == Uri(net.nw.value[n])
    ensures var o := RemoveLocked(net, name, LibOk, order);
      && o.Done? && o.value.Removed? && o.value.net.nw.Some?
      && var r := Refresh(o.value.net, o.value.net.nw.value);
      && r.Done?
      && UriBag(net.infos) == multiset{net.infos[name].uri} + UriBag(r.value.infos)
      && (IsUriList(before, net.infos) && IsUriList(after, r.value.infos) ==>
            multiset(before) == multiset{net.infos[name].uri} + multiset(after))
  {
    hide WellFormed, Enumerates, Uri;
    RemoveKeeps(net, name, LibOk, order);
    var n := RemoveLocked(net, name, LibOk, order).value.net;
    NetFacts(n);
    RefreshKeeps(n, n.nw.value);
    var r := Refresh(n, n.nw.value).value;
    UriBagAny(net.infos, name);
    ReportAllIs(n.infos, n.nw.value);
    SameUris(n.infos, r.infos);
  }

  lemma {:induction false} SameUris(a: map<string, Info>, b: map<string, Info>)
    requires a.Keys == b.Keys && forall n :: n in a ==> a[n].uri == b[n].uri
    ensures UriBag(a) == UriBag(b)
    decreases a.Keys
  {
    if a != map[] {
      var n :| n in a;
      UriBagAny(a, n);
      UriBagAny(b, n);
      assert (a - {n}).Keys == a.Keys - {n} == (b - {n}).Keys;
      SameUris(a - {n}, b - {n});
    }
  }
}
