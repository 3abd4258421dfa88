/** Sorting by a strict total order: the sorted listing of a finite set is unique, so whatever order the
elements were met in, sorting them gives the same sequence. */
module Ordering {

  ghost predicate StrictTotal<T(!new)>(lt: (T, T) -> bool) {
    && (forall x :: !lt(x, x))
    && (forall x, y, z :: lt(x, y) && lt(y, z) ==> lt(x, z))
    && (forall x, y :: x != y ==> lt(x, y) || lt(y, x))
  }

  ghost predicate Ascending<T>(lt: (T, T) -> bool, s: seq<T>) {
    forall i, j :: 0 <= i < j < |s| ==> lt(s[i], s[j])
  }

  function Insert<T(!new)>(lt: (T, T) -> bool, x: T, s: seq<T>): (r: seq<T>)
    ensures |r| == |s| + 1
    ensures multiset(r) == multiset(s) + multiset{x}
  {
    if s == [] || lt(x, s[0]) then [x] + s
    else
      assert s == [s[0]] + s[1..];
      [s[0]] + Insert(lt, x, s[1..])
  }

  lemma {:induction false} InsertAscends<T(!new)>(lt: (T, T) -> bool, x: T, s: seq<T>)
    requires StrictTotal(lt) && Ascending(lt, s) && x !in s
    ensures Ascending(lt, Insert(lt, x, s))
    ensures forall y :: y in Insert(lt, x, s) <==> y == x || y in s
  {
    if s != [] && !lt(x, s[0]) {
      InsertAscends(lt, x, s[1..]);
      var rest := Insert(lt, x, s[1..]);
      assert forall y :: y in rest ==> lt(s[0], y);
      assert Insert(lt, x, s) == [s[0]] + rest;
      assert s == [s[0]] + s[1..];
    }
  }

  /** The elements of the set, each inserted where the order wants it. */
  ghost function Sorted<T(!new)>(lt: (T, T) -> bool, s: set<T>): (r: seq<T>)
    ensures |r| == |s|
  {
    if s == {} then [] else
      var x :| x in s;
      assert s == (s - {x}) + {x};
      Insert(lt, x, Sorted(lt, s - {x}))
  }

  lemma {:induction false} SortedAscends<T(!new)>(lt: (T, T) -> bool, s: set<T>)
    requires StrictTotal(lt)
    ensures Ascending(lt, Sorted(lt, s))
    ensures forall x :: x in Sorted(lt, s) <==> x in s
  {
    if s != {} {
      var x :| x in s && Sorted(lt, s) == Insert(lt, x, Sorted(lt, s - {x}));
      SortedAscends(lt, s - {x});
      InsertAscends(lt, x, Sorted(lt, s - {x}));
    }
  }

  lemma {:induction false} ListingIsUnique<T(!new)>(lt: (T, T) -> bool, a: seq<T>, b: seq<T>)
    requires StrictTotal(lt) && Ascending(lt, a) && Ascending(lt, b)
    requires forall x :: x in a <==> x in b
    ensures a == b
    decreases |a|
  {
    assert a != [] ==> a[0] in b;
    assert b != [] ==> b[0] in a;
    if a != [] {
      assert a[0] == b[0];
      forall x ensures x in a[1..] <==> x in b[1..] {
        assert x in a[1..] <==> x in a && x != a[0];
        assert x in b[1..] <==> x in b && x != b[0];
      }
      ListingIsUnique(lt, a[1..], b[1..]);
    }
  }

  /** Sorting by insertion gives the one listing, in whatever order the elements are taken. */
  lemma {:induction false} InsertIsSorted<T(!new)>(lt: (T, T) -> bool, x: T, s: set<T>)
    requires StrictTotal(lt) && x !in s
    ensures Insert(lt, x, Sorted(lt, s)) == Sorted(lt, s + {x})
  {
    SortedAscends(lt, s);
    SortedAscends(lt, s + {x});
    InsertAscends(lt, x, Sorted(lt, s));
    ListingIsUnique(lt, Insert(lt, x, Sorted(lt, s)), Sorted(lt, s + {x}));
  }

  /** Collects a map's keys in any order and sorts them. */
  method SortKeys<T(!new,==)>(lt: (T, T) -> bool, s: set<T>) returns (r: seq<T>)
    requires StrictTotal(lt)
    ensures r == Sorted(lt, s)
  {
    r := [];
    var rest, done: set<T> := s, {};
    while rest != {}
      invariant rest !! done && rest + done == s
      invariant r == Sorted(lt, done)
      decreases rest
    {
      var x :| x in rest;
      InsertIsSorted(lt, x, done);
      r := Insert(lt, x, r);
      rest, done := rest - {x}, done + {x};
    }
    assert done == s;
  }

  /** The comparison of strings by code unit. */
  predicate Before(a: string, b: string) {
    b != [] && (a == [] || a[0] < b[0] || (a[0] == b[0] && Before(a[1..], b[1..])))
  }

  lemma {:induction false} BeforeTransitive(a: string, b: string, c: string)
    requires Before(a, b) && Before(b, c)
    ensures Before(a, c)
  {
    if a != [] && a[0] == b[0] && b[0] == c[0] {
      BeforeTransitive(a[1..], b[1..], c[1..]);
    }
  }

  lemma {:induction false} BeforeIrreflexive(a: string)
    ensures !Before(a, a)
  {
    if a != [] {
      BeforeIrreflexive(a[1..]);
    }
  }

  lemma {:induction false} BeforeConnected(a: string, b: string)
    requires a != b
    ensures Before(a, b) || Before(b, a)
  {
    if a != [] && b != [] && a[0] == b[0] {
      assert a == [a[0]] + a[1..] && b == [b[0]] + b[1..];
      BeforeConnected(a[1..], b[1..]);
    }
  }

  lemma {:induction false} BeforeIsStrictTotal()
    ensures StrictTotal(Before)
  {
    forall a: string { BeforeIrreflexive(a); }
    forall a: string, b: string, c: string | Before(a, b) && Before(b, c) { BeforeTransitive(a, b, c); }
    forall a: string, b: string | a != b { BeforeConnected(a, b); }
  }

  /** The one text is the beginning of the other, or has the smaller character where they first differ. */
  ghost predicate Precedes(a: string, b: string) {
    exists k :: && 0 <= k <= |a| && k < |b| && a[..k] == b[..k]
                && (k == |a| || a[k] < b[k])
  }

  lemma {:induction false} SameStart(a: string, b: string, k: nat)
    requires k <= |a| && k <= |b|
    ensures k > 0 && a[..k] == b[..k] ==> a[0] == b[0]
  {
    if k > 0 {
      assert a[0] == a[..k][0] && b[0] == b[..k][0];
    }
  }

  lemma {:induction false} TailPrecedes(a: string, b: string)
    requires a != [] && b != [] && a[0] == b[0]
    ensures Precedes(a, b) <==> Precedes(a[1..], b[1..])
  {
    if Precedes(a[1..], b[1..]) {
      var k :| && 0 <= k <= |a[1..]| && k < |b[1..]| && a[1..][..k] == b[1..][..k]
               && (k == |a[1..]| || a[1..][k] < b[1..][k]);
      assert a[..k + 1] == [a[0]] + a[1..][..k] && b[..k + 1] == [b[0]] + b[1..][..k];
    }
    if Precedes(a, b) {
      var k :| && 0 <= k <= |a| && k < |b| && a[..k] == b[..k] && (k == |a| || a[k] < b[k]);
      if k > 0 {
        assert a[1..][..k - 1] == a[..k][1..] && b[1..][..k - 1] == b[..k][1..];
        assert Precedes(a[1..], b[1..]);
      }
    }
  }

  lemma {:induction false} BeforeSays(a: string, b: string)
    ensures Before(a, b) <==> Precedes(a, b)
  {
    if a == [] {
      assert b != [] ==> a[..0] == b[..0];
    } else if b != [] && a[0] != b[0] {
      assert a[..0] == b[..0];
      if Precedes(a, b) {
        var k :| && 0 <= k <= |a| && k < |b| && a[..k] == b[..k] && (k == |a| || a[k] < b[k]);
        SameStart(a, b, k);
      }
    } else if b != [] {
      BeforeSays(a[1..], b[1..]);
      TailPrecedes(a, b);
      hide Precedes;
    }
  }

  /** The position of a text in the collation of the runtime's locale. A locale comparison is a total
      preorder on a countable set of texts, and every such preorder is given by numbers like these. */
  const COLLATION_KEY: string -> real

  /** By locale comparison of the given names first, by id for names that compare equal. */
  predicate NameBefore(name: string -> string, a: string, b: string) {
    var x, y := COLLATION_KEY(name(a)), COLLATION_KEY(name(b));
    x < y || (x == y && Before(a, b))
  }

  function ByName(name: string -> string): (string, string) -> bool {
    (a, b) => NameBefore(name, a, b)
  }

  lemma {:induction false} ByNameIsStrictTotal(name: string -> string)
    ensures StrictTotal(ByName(name))
  {
    BeforeIsStrictTotal();
    var lt := ByName(name);
    forall a, b, c | lt(a, b) && lt(b, c) ensures lt(a, c) {
      if Before(a, b) && Before(b, c) { BeforeTransitive(a, b, c); }
    }
    forall a ensures !lt(a, a) { BeforeIrreflexive(a); }
    forall a, b | a != b ensures lt(a, b) || lt(b, a) { BeforeConnected(a, b); }
  }

  /** A set of strings by code unit. */
  ghost function Strings(s: set<string>): seq<string>
  {
    Sorted(Before, s)
  }

  /** A set of ids by their names and then by id. */
  ghost function Named(name: string -> string, s: set<string>): seq<string>
  {
    Sorted(ByName(name), s)
  }

  method SortStrings(s: set<string>) returns (r: seq<string>)
    ensures r == Strings(s)
  {
    BeforeIsStrictTotal();
    r := SortKeys(Before, s);
  }

  method SortNamed(name: string -> string, s: set<string>) returns (r: seq<string>)
    ensures r == Named(name, s)
  {
    ByNameIsStrictTotal(name);
    r := SortKeys(ByName(name), s);
  }

  lemma {:induction false} StringsAscend(s: set<string>)
    ensures Ascending(Before, Strings(s))
  {
    BeforeIsStrictTotal();
    SortedAscends(Before, s);
  }

  lemma {:induction false} StringsList(s: set<string>)
    ensures forall i :: 0 <= i < |Strings(s)| ==> Strings(s)[i] in s
    ensures forall x :: x in s ==> x in Strings(s)
  {
    BeforeIsStrictTotal();
    SortedAscends(Before, s);
    assert forall i :: 0 <= i < |Strings(s)| ==> Strings(s)[i] in Strings(s);
  }

  lemma {:induction false} NamedList(name: string -> string, s: set<string>)
    ensures forall i :: 0 <= i < |Named(name, s)| ==> Named(name, s)[i] in s
    ensures forall x :: x in s ==> x in Named(name, s)
  {
    ByNameIsStrictTotal(name);
    SortedAscends(ByName(name), s);
    assert forall i :: 0 <= i < |Named(name, s)| ==> Named(name, s)[i] in Named(name, s);
  }

  /** The names of the listed ids are all that matters. */
  lemma {:induction false} NamedAgree(name: string -> string, name': string -> string, s: set<string>)
    requires forall x :: x in s ==> name(x) == name'(x)
    ensures Named(name, s) == Named(name', s)
  {
    ByNameIsStrictTotal(name);
    ByNameIsStrictTotal(name');
    var lt, lt' := ByName(name), ByName(name');
    SortedAscends(lt, s);
    SortedAscends(lt', s);
    var a := Sorted(lt, s);
    forall i, j | 0 <= i < j < |a| ensures lt'(a[i], a[j]) {
      assert a[i] in s && a[j] in s && lt(a[i], a[j]);
    }
    ListingIsUnique(lt', a, Sorted(lt', s));
  }

  lemma {:induction false} ConcatAssociates<T>(a: seq<T>, b: seq<T>, c: seq<T>)
    ensures (a + b) + c == a + (b + c)
  {
  }

  // ---- What is taken of a sequence

  /** The part is what the whole has of the wanted ones, in its order: it was taken from these places. */
  ghost predicate PicksAt<T>(part: seq<T>, whole: seq<T>, wanted: T -> bool, at: seq<nat>) {
    && |at| == |part| && (forall i :: 0 <= i < |at| ==> at[i] < |whole| && part[i] == whole[at[i]])
    && (forall i, j :: 0 <= i < j < |at| ==> at[i] < at[j])
    && (forall k :: 0 <= k < |whole| ==> (k in at <==> wanted(whole[k])))
  }

  ghost predicate Picks<T>(part: seq<T>, whole: seq<T>, wanted: T -> bool) {
    exists at: seq<nat> :: PicksAt(part, whole, wanted, at)
  }

  lemma {:induction false} PicksNone<T>(wanted: T -> bool)
    ensures Picks([], [], wanted)
  {
    var at: seq<nat> := [];
    assert PicksAt([], [], wanted, at);
  }

  lemma {:induction false} TakesOne<T>(part: seq<T>, whole: seq<T>, wanted: T -> bool, x: T, at: seq<nat>)
    requires PicksAt(part, whole, wanted, at) && wanted(x)
    ensures PicksAt(part + [x], whole + [x], wanted, at + [|whole|])
  {
    var all, at' := whole + [x], at + [|whole|];
    forall k | 0 <= k < |all| ensures k in at' <==> wanted(all[k]) {
      assert k in at' <==> k in at || k == |whole|;
      if k < |whole| {
        assert all[k] == whole[k];
      }
    }
  }

  lemma {:induction false} LeavesOne<T>(part: seq<T>, whole: seq<T>, wanted: T -> bool, x: T, at: seq<nat>)
    requires PicksAt(part, whole, wanted, at) && !wanted(x)
    ensures PicksAt(part, whole + [x], wanted, at)
  {
    var all := whole + [x];
    forall k | 0 <= k < |all| ensures k in at <==> wanted(all[k]) {
      if k < |whole| {
        assert all[k] == whole[k];
      }
    }
  }

  lemma {:induction false} PicksMore<T>(part: seq<T>, whole: seq<T>, wanted: T -> bool, x: T)
    requires Picks(part, whole, wanted)
    ensures Picks(part + (if wanted(x) then [x] else []), whole + [x], wanted)
  {
    var at: seq<nat> :| PicksAt(part, whole, wanted, at);
    hide PicksAt;
    if wanted(x) {
      TakesOne(part, whole, wanted, x, at);
    } else {
      LeavesOne(part, whole, wanted, x, at);
      assert part + [] == part;
    }
  }
}
