/** The order in which snapshots are listed: by creation time where both have one, else by name. */
module SnapshotOrder {
  import opened Wrappers

  /** `rest` is what the listing shows beside name and time. */
  datatype Snapshot = Snapshot(name: string, createdAt: Option<int>, rest: string)

  /** What libvirt says of a snapshot. */
  datatype Definition = Definition(name: string, creationTime: int, rest: string)

  /** A creation time that is not positive counts as none. */
  function CreatedAt(creationTime: int): Option<int> {
    if creationTime > 0 then Some(creationTime) else None
  }

  function Metadata(d: Definition): Snapshot {
    Snapshot(d.name, CreatedAt(d.creationTime), d.rest)
  }

  /** Byte-wise string order. */
  predicate LexLess(a: string, b: string) {
    b != "" && (a == "" || a[0] < b[0] || (a[0] == b[0] && LexLess(a[1..], b[1..])))
  }

  function Compare(left: Snapshot, right: Snapshot): int {
    if left.createdAt.Some? && right.createdAt.Some? && left.createdAt != right.createdAt then
      if left.createdAt.value < right.createdAt.value then -1 else 1
    else if LexLess(left.name, right.name) then -1
    else if LexLess(right.name, left.name) then 1
    else 0
  }

  predicate Before(left: Snapshot, right: Snapshot) {
    Compare(left, right) < 0
  }

  // ----- Names

  lemma {:induction false} LexTotal(a: string, b: string)
    ensures !(LexLess(a, b) && LexLess(b, a))
    ensures a != b <==> LexLess(a, b) || LexLess(b, a)
    decreases |a|
  {
    if a != "" && b != "" {
      LexTotal(a[1..], b[1..]);
      assert a == [a[0]] + a[1..] && b == [b[0]] + b[1..];
    }
  }

  lemma {:induction false} LexTransitive(a: string, b: string, c: string)
    requires LexLess(a, b) && LexLess(b, c)
    ensures LexLess(a, c)
    decreases |a|
  {
    if a != "" && a[0] == b[0] == c[0] {
      LexTransitive(a[1..], b[1..], c[1..]);
    }
  }

  /** The order of names is that of the first byte in which they differ, a name coming before its continuations. */
  lemma {:induction false} LexExactly(a: string, b: string)
    ensures LexLess(a, b) <==>
            exists i :: 0 <= i <= |a| && i < |b| && a[..i] == b[..i] && (i == |a| || a[i] < b[i])
    decreases |a|
  {
    if a != "" && b != "" && a[0] == b[0] {
      LexExactly(a[1..], b[1..]);
      assert a == [a[0]] + a[1..] && b == [b[0]] + b[1..];
      if LexLess(a, b) {
        var i :| 0 <= i <= |a| - 1 && i < |b| - 1 && a[1..][..i] == b[1..][..i]
          && (i == |a| - 1 || a[1..][i] < b[1..][i]);
        assert a[..i + 1] == [a[0]] + a[1..][..i] && b[..i + 1] == [b[0]] + b[1..][..i];
      }
      forall i | 0 <= i <= |a| && i < |b| && a[..i] == b[..i] && (i == |a| || a[i] < b[i])
        ensures LexLess(a, b)
      {
        assert i > 0;
        assert a[1..][..i - 1] == a[..i][1..] && b[1..][..i - 1] == b[..i][1..];
      }
    } else {
      if b != "" && (a == "" || a[0] < b[0]) {
        assert a[..0] == b[..0];
      }
      forall i | 0 <= i <= |a| && i < |b| && a[..i] == b[..i] && (i == |a| || a[i] < b[i])
        ensures LexLess(a, b)
      {
        if i > 0 {
          assert a[..i][0] == b[..i][0];
        }
      }
    }
  }

  // ----- When the comparator is an order

  ghost predicate DistinctNames(s: seq<Snapshot>) {
    forall i, j | 0 <= i < j < |s| :: s[i].name != s[j].name
  }

  ghost predicate Transitive(s: seq<Snapshot>) {
    forall x, y, z | x in s && y in s && z in s && Before(x, y) && Before(y, z) :: Before(x, z)
  }

  /** An untimed snapshot whose name lies between those of two timed ones that time puts the other way round. */
  ghost predicate Straddles(x: Snapshot, y: Snapshot, z: Snapshot) {
    && x.createdAt.Some? && y.createdAt.Some? && z.createdAt.None?
    && x.createdAt.value < y.createdAt.value
    && LexLess(y.name, z.name) && LexLess(z.name, x.name)
  }

  ghost predicate Straddled(s: seq<Snapshot>) {
    exists x, y, z :: x in s && y in s && z in s && Straddles(x, y, z)
  }

  lemma Decides(s: seq<Snapshot>, x: Snapshot, y: Snapshot)
    requires DistinctNames(s) && x in s && y in s
    ensures !(Before(x, y) && Before(y, x))
    ensures x != y <==> Before(x, y) || Before(y, x)
    ensures x != y ==> x.name != y.name
  {
    LexTotal(x.name, y.name);
  }

  lemma Triple(s: seq<Snapshot>, x: Snapshot, y: Snapshot, z: Snapshot)
    requires DistinctNames(s) && x in s && y in s && z in s
    requires Before(x, y) && Before(y, z) && !Before(x, z)
    ensures Straddles(x, y, z) || Straddles(z, x, y) || Straddles(y, z, x)
  {
    LexTotal(x.name, y.name);
    LexTotal(y.name, z.name);
    LexTotal(x.name, z.name);
    Decides(s, x, z);
    if LexLess(x.name, y.name) && LexLess(y.name, z.name) {
      LexTransitive(x.name, y.name, z.name);
    }
    if LexLess(z.name, x.name) && LexLess(x.name, y.name) {
      LexTransitive(z.name, x.name, y.name);
    }
    if LexLess(y.name, z.name) && LexLess(z.name, x.name) {
      LexTransitive(y.name, z.name, x.name);
    }
  }

  /** On distinct names the comparator is a strict total order if and only if no snapshot straddles. */
  lemma OrderExactly(s: seq<Snapshot>)
    requires DistinctNames(s)
    ensures Transitive(s) <==> !Straddled(s)
    ensures forall x, y | x in s && y in s ::
              !(Before(x, y) && Before(y, x)) && (x != y <==> Before(x, y) || Before(y, x))
  {
    forall x, y | x in s && y in s
      ensures !(Before(x, y) && Before(y, x)) && (x != y <==> Before(x, y) || Before(y, x))
    {
      Decides(s, x, y);
    }
    if !Transitive(s) {
      var x, y, z :| x in s && y in s && z in s && Before(x, y) && Before(y, z) && !Before(x, z);
      Triple(s, x, y, z);
    }
    if Straddled(s) {
      var x, y, z :| x in s && y in s && z in s && Straddles(x, y, z);
      LexTotal(x.name, z.name);
      assert Before(x, y) && Before(y, z) && !Before(x, z);
    }
  }

  /** In particular when every snapshot has a creation time, or none has. */
  lemma UniformIsOrdered(s: seq<Snapshot>)
    requires DistinctNames(s)
    requires (forall x | x in s :: x.createdAt.Some?) || (forall x | x in s :: x.createdAt.None?)
    ensures Transitive(s)
  {
    OrderExactly(s);
  }

  // ----- The listing

  /** What sorting leaves: no neighbours out of order. */
  ghost predicate Sorted(s: seq<Snapshot>) {
    forall i | 0 <= i < |s| - 1 :: !Before(s[i + 1], s[i])
  }

  lemma {:induction false} InOrder(s: seq<Snapshot>, i: nat, j: nat)
    requires DistinctNames(s) && Transitive(s) && Sorted(s) && i < j < |s|
    ensures Before(s[i], s[j])
  {
    Decides(s, s[j - 1], s[j]);
    assert !Before(s[j - 1 + 1], s[j - 1]);
    if i < j - 1 {
      InOrder(s, i, j - 1);
    }
  }

  /** Without straddling a listing goes from older to newer, and by name where time does not decide. */
  lemma ListingReadsInOrder(s: seq<Snapshot>, i: nat, j: nat)
    requires DistinctNames(s) && !Straddled(s) && Sorted(s) && i < j < |s|
    ensures if s[i].createdAt.Some? && s[j].createdAt.Some? && s[i].createdAt != s[j].createdAt
            then s[i].createdAt.value < s[j].createdAt.value
            else LexLess(s[i].name, s[j].name)
  {
    OrderExactly(s);
    InOrder(s, i, j);
  }

  lemma SameMembers(a: seq<Snapshot>, b: seq<Snapshot>)
    requires multiset(a) == multiset(b)
    ensures |a| == |b| && forall x :: x in a <==> x in b
  {
    assert |a| == |multiset(a)| && |b| == |multiset(b)|;
    assert forall x :: x in a <==> x in multiset(a);
    assert forall x :: x in b <==> x in multiset(b);
  }

  lemma SameHead(a: seq<Snapshot>, b: seq<Snapshot>)
    requires multiset(a) == multiset(b) && a != []
    requires DistinctNames(a) && DistinctNames(b) && Transitive(a) && Transitive(b) && Sorted(a) && Sorted(b)
    ensures b != [] && a[0] == b[0]
  {
    SameMembers(a, b);
    if a[0] != b[0] {
      assert b[0] in a && a[0] in b;
      var i :| 0 <= i < |a| && a[i] == b[0];
      var j :| 0 <= j < |b| && b[j] == a[0];
      InOrder(a, 0, i);
      InOrder(b, 0, j);
      Decides(a, a[0], b[0]);
    }
  }

  lemma TailIsListed(a: seq<Snapshot>)
    requires a != [] && DistinctNames(a) && Transitive(a) && Sorted(a)
    ensures DistinctNames(a[1..]) && Transitive(a[1..]) && Sorted(a[1..])
    ensures multiset(a[1..]) == multiset(a) - multiset{a[0]}
  {
    assert a == [a[0]] + a[1..];
    assert forall x | x in a[1..] :: x in a;
    assert forall i | 0 <= i < |a| - 1 :: a[1..][i] == a[i + 1];
  }

  lemma {:induction false} SortedIsUnique(a: seq<Snapshot>, b: seq<Snapshot>)
    requires multiset(a) == multiset(b)
    requires DistinctNames(a) && DistinctNames(b) && Transitive(a) && Transitive(b) && Sorted(a) && Sorted(b)
    ensures a == b
    decreases |a|
  {
    SameMembers(a, b);
    if a != [] {
      SameHead(a, b);
      TailIsListed(a);
      TailIsListed(b);
      SortedIsUnique(a[1..], b[1..]);
      assert a == [a[0]] + a[1..] && b == [b[0]] + b[1..];
    }
  }

  // ----- A sorted listing exists

  function Insert(x: Snapshot, s: seq<Snapshot>): seq<Snapshot> {
    if s == [] || !Before(s[0], x) then [x] + s else [s[0]] + Insert(x, s[1..])
  }

  function Listing(s: seq<Snapshot>): seq<Snapshot> {
    if s == [] then [] else Insert(s[0], Listing(s[1..]))
  }

  lemma NotBoth(x: Snapshot, y: Snapshot)
    ensures !(Before(x, y) && Before(y, x))
  {
    LexTotal(x.name, y.name);
  }

  lemma {:induction false} InsertSorts(x: Snapshot, s: seq<Snapshot>)
    requires Sorted(s)
    ensures var r := Insert(x, s);
            && Sorted(r) && multiset(r) == multiset(s) + multiset{x}
            && r != [] && (r[0] == x || (s != [] && r[0] == s[0]))
  {
    if s == [] || !Before(s[0], x) {
    } else {
      assert s == [s[0]] + s[1..];
      assert forall i | 0 <= i < |s| - 1 :: s[1..][i] == s[i + 1];
      InsertSorts(x, s[1..]);
      NotBoth(s[0], x);
    }
  }

  /** Even for lists on which the comparator is no order, some arrangement has no neighbours out of order. */
  lemma {:induction false} ListingSorts(s: seq<Snapshot>)
    ensures Sorted(Listing(s)) && multiset(Listing(s)) == multiset(s)
  {
    if s != [] {
      assert s == [s[0]] + s[1..];
      ListingSorts(s[1..]);
      InsertSorts(s[0], Listing(s[1..]));
    }
  }

  /** A list with no neighbours out of order is left as it is. */
  lemma {:induction false} SortedStays(s: seq<Snapshot>)
    requires Sorted(s)
    ensures Listing(s) == s
  {
    if s != [] {
      assert s == [s[0]] + s[1..];
      assert forall i | 0 <= i < |s| - 1 :: s[1..][i] == s[i + 1];
      SortedStays(s[1..]);
    }
  }

  // ----- When the listing is canonical

  /** A possible listing of the snapshots `s`. */
  ghost predicate Lists(a: seq<Snapshot>, s: seq<Snapshot>) {
    Sorted(a) && multiset(a) == multiset(s)
  }

  lemma {:induction false} OneOfEach(s: seq<Snapshot>)
    requires DistinctNames(s)
    ensures forall x | x in s :: multiset(s)[x] == 1
  {
    if s != [] {
      assert s == [s[0]] + s[1..];
      OneOfEach(s[1..]);
    }
  }

  lemma TwiceThere(a: seq<Snapshot>, i: nat, j: nat)
    requires i < j < |a|
    ensures a[i] == a[j] ==> multiset(a)[a[i]] >= 2
  {
    assert a == a[..j] + a[j..];
    assert a[i] in a[..j] && a[j] in a[j..];
  }

  lemma SameIsDistinct(a: seq<Snapshot>, s: seq<Snapshot>)
    requires multiset(a) == multiset(s) && DistinctNames(s)
    ensures DistinctNames(a)
  {
    SameMembers(a, s);
    OneOfEach(s);
    forall i, j | 0 <= i < j < |a|
      ensures a[i].name != a[j].name
    {
      assert a[i] in s && a[j] in s;
      TwiceThere(a, i, j);
    }
  }

  /** What is inserted can be told apart again from where it was inserted. */
  lemma {:induction false} InsertInjective(v: Snapshot, p: seq<Snapshot>, q: seq<Snapshot>)
    requires v !in p && v !in q && Insert(v, p) == Insert(v, q)
    ensures p == q
    decreases |p|
  {
    var r := Insert(v, p);
    if r[0] == v {
      assert p == r[1..] && q == r[1..];
    } else {
      assert r[1..] == Insert(v, p[1..]) == Insert(v, q[1..]);
      InsertInjective(v, p[1..], q[1..]);
      assert p == [p[0]] + p[1..] && q == [q[0]] + q[1..];
    }
  }

  ghost predicate Circle(s: seq<Snapshot>, x: Snapshot, y: Snapshot, z: Snapshot) {
    x in s && y in s && z in s && Before(x, y) && Before(y, z) && Before(z, x)
  }

  lemma CircleAlone(s: seq<Snapshot>, x: Snapshot, y: Snapshot, z: Snapshot)
    requires DistinctNames(s) && Circle(s, x, y, z)
    requires forall v | v in s :: v == x || v == y || v == z
    ensures Lists([x, y, z], s) && Lists([y, z, x], s) && [x, y, z] != [y, z, x]
  {
    NotBoth(x, y);
    NotBoth(y, z);
    NotBoth(z, x);
    OneOfEach(s);
    forall v
      ensures multiset(s)[v] == multiset{x, y, z}[v]
    {
      if v in s {
        assert v in multiset(s);
      } else {
        assert v !in multiset(s);
      }
    }
    assert multiset([x, y, z]) == multiset{x, y, z} == multiset([y, z, x]);
    assert [x, y, z][0] != [y, z, x][0];
  }

  lemma OneFewer(s: seq<Snapshot>, i: nat)
    requires DistinctNames(s) && i < |s|
    ensures var rest := s[..i] + s[i + 1..];
            && DistinctNames(rest) && s[i] !in rest
            && multiset(s) == multiset(rest) + multiset{s[i]}
            && forall x | x in s && x != s[i] :: x in rest
  {
    var rest := s[..i] + s[i + 1..];
    assert s == s[..i] + [s[i]] + s[i + 1..];
    forall x | x in s && x != s[i]
      ensures x in rest
    {
      assert x in multiset(s);
    }
  }

  /** Where the comparator goes in a circle, there are two listings. */
  lemma {:induction false} TwoListings(s: seq<Snapshot>, x: Snapshot, y: Snapshot, z: Snapshot)
    returns (a: seq<Snapshot>, b: seq<Snapshot>)
    requires DistinctNames(s) && Circle(s, x, y, z)
    ensures Lists(a, s) && Lists(b, s) && a != b
    decreases |s|
  {
    if i :| 0 <= i < |s| && s[i] != x && s[i] != y && s[i] != z {
      var rest := s[..i] + s[i + 1..];
      OneFewer(s, i);
      var p, q := TwoListings(rest, x, y, z);
      a, b := Insert(s[i], p), Insert(s[i], q);
      InsertSorts(s[i], p);
      InsertSorts(s[i], q);
      SameMembers(p, rest);
      SameMembers(q, rest);
      if a == b {
        InsertInjective(s[i], p, q);
      }
    } else {
      CircleAlone(s, x, y, z);
      a, b := [x, y, z], [y, z, x];
    }
  }

  lemma OnlyListing(s: seq<Snapshot>, a: seq<Snapshot>, b: seq<Snapshot>)
    requires DistinctNames(s) && !Straddled(s) && Lists(a, s) && Lists(b, s)
    ensures a == b
  {
    SameMembers(a, s);
    SameMembers(b, s);
    SameIsDistinct(a, s);
    SameIsDistinct(b, s);
    OrderExactly(a);
    OrderExactly(b);
    SortedIsUnique(a, b);
  }

  lemma ListedIsOnly(s: seq<Snapshot>, r: seq<Snapshot>)
    requires DistinctNames(s) && !Straddled(s) && Lists(r, s)
    ensures forall a | Lists(a, s) :: a == r
  {
    forall a | Lists(a, s)
      ensures a == r
    {
      OnlyListing(s, a, r);
    }
  }

  /**
   Distinctly named snapshots have one possible listing, whatever order libvirt gives them in, if
   and only if none straddles; otherwise two orders come out as two different listings.
   */
  lemma ListingIsCanonical(s: seq<Snapshot>)
    requires DistinctNames(s)
    ensures (forall a, b | Lists(a, s) && Lists(b, s) :: a == b) <==> !Straddled(s)
    ensures Straddled(s) ==>
              exists a, b :: multiset(a) == multiset(b) == multiset(s) && Listing(a) != Listing(b)
  {
    if Straddled(s) {
      var x, y, z :| x in s && y in s && z in s && Straddles(x, y, z);
      assert Circle(s, x, y, z);
      var a, b := TwoListings(s, x, y, z);
      SortedStays(a);
      SortedStays(b);
    } else {
      forall a, b | Lists(a, s) && Lists(b, s)
        ensures a == b
      {
        OnlyListing(s, a, b);
      }
    }
  }

  /** A mixed list on which the comparator runs in a circle, and two listings of it. */
  lemma MixedListCycles()
    ensures var x, y, z := Snapshot("c", Some(1), ""), Snapshot("a", Some(2), ""), Snapshot("b", None, "");
            && Before(x, y) && Before(y, z) && Before(z, x) && !Transitive([x, y, z])
            && Lists([x, y, z], [x, y, z]) && Lists([y, z, x], [x, y, z])
            && Listing([x, y, z]) != Listing([y, z, x])
  {
    var x, y, z := Snapshot("c", Some(1), ""), Snapshot("a", Some(2), ""), Snapshot("b", None, "");
    assert Before(x, y) && Before(y, z) && Before(z, x) && !Before(x, z);
    assert x in [x, y, z] && y in [x, y, z] && z in [x, y, z];
    CircleAlone([x, y, z], x, y, z);
    SortedStays([x, y, z]);
    SortedStays([y, z, x]);
  }

  // ----- The operation

  /** The snapshots of a VM; `None` stands for one whose description cannot be read. */
  ghost function Described(items: seq<Option<Definition>>): seq<Snapshot>
    requires None !in items
  {
    seq(|items|, i requires 0 <= i < |items| => Metadata(items[i].value))
  }

  /** How a definition is to be listed: a time is one only if it is positive. */
  ghost function ListedAs(d: Definition): Snapshot {
    Snapshot(d.name, if d.creationTime >= 1 then Some(d.creationTime) else None, d.rest)
  }

  lemma EveryoneIsListed(items: seq<Option<Definition>>, r: seq<Snapshot>)
    requires None !in items && Lists(r, Described(items))
    ensures |r| == |items| && forall d | Some(d) in items :: ListedAs(d) in r
  {
    SameMembers(r, Described(items));
    forall d | Some(d) in items
      ensures ListedAs(d) in r
    {
      var i :| 0 <= i < |items| && items[i] == Some(d);
      assert Described(items)[i] == ListedAs(d);
    }
  }

  /**
   When names are distinct and none straddles, of two definitions with positive times the earlier is
   listed first, whatever their names.
   */
  lemma TimesDecide(items: seq<Option<Definition>>, r: seq<Snapshot>, d: Definition, e: Definition)
    requires None !in items && Lists(r, Described(items))
    requires DistinctNames(Described(items)) && !Straddled(Described(items))
    requires Some(d) in items && Some(e) in items && 0 < d.creationTime < e.creationTime
    ensures exists p, q :: 0 <= p < q < |r| && r[p] == ListedAs(d) && r[q] == ListedAs(e)
  {
    EveryoneIsListed(items, r);
    SameMembers(r, Described(items));
    SameIsDistinct(r, Described(items));
    var p :| 0 <= p < |r| && r[p] == ListedAs(d);
    var q :| 0 <= q < |r| && r[q] == ListedAs(e);
    if q < p {
      ListingReadsInOrder(r, q, p);
    }
  }

  /**
   List a VM's snapshots in the order libvirt gives them, then sort. One unreadable description
   fails the whole listing; otherwise each snapshot is listed once, and when names are distinct and
   none straddles, the listing is the only one possible.
   */
  method ListSnapshots(items: seq<Option<Definition>>) returns (result: Option<seq<Snapshot>>)
    ensures result.None? <==> None in items
    ensures result.Some? ==> Lists(result.value, Described(items))
    ensures result.Some? ==> |result.value| == |items| && forall d | Some(d) in items :: ListedAs(d) in result.value
    ensures result.Some? && DistinctNames(Described(items)) && !Straddled(Described(items)) ==>
              forall a | Lists(a, Described(items)) :: a == result.value
  {
    var collected := [];
    for i := 0 to |items|
      invariant |collected| == i && None !in items[..i]
      invariant forall j | 0 <= j < i :: items[j].Some? && collected[j] == Metadata(items[j].value)
    {
      if items[i].None? {
        return None;
      }
      collected := collected + [Metadata(items[i].value)];
    }
    assert None !in items;
    assert collected == Described(items);
    ListingSorts(collected);
    EveryoneIsListed(items, Listing(collected));
    result := Some(Listing(collected));
    if DistinctNames(collected) && !Straddled(collected) {
      ListedIsOnly(collected, Listing(collected));
    }
  }
}
