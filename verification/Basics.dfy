/** What several modules share: optional values, deliveries, sizes, sorted lists, products. */
module Basics {

  datatype Option<+T> = None | Some(value: T)

  /** A delivery: an event number and a subscription slot. */
  datatype Key = Key(number: nat, slot: nat)

  function Min(a: nat, b: nat): nat {
    if a < b then a else b
  }

  function Max(a: nat, b: nat): nat {
    if a > b then a else b
  }

  predicate Ascending(s: seq<nat>) {
    forall i, j :: 0 <= i < j < |s| ==> s[i] <= s[j]
  }

  predicate Increasing(s: seq<nat>) {
    forall i, j :: 0 <= i < j < |s| ==> s[i] < s[j]
  }

  function SetOf<T(==)>(s: seq<T>): set<T> {
    set x | x in s
  }

  lemma {:induction false} SetOfSize<T>(s: seq<T>)
    ensures |SetOf(s)| <= |s|
  {
    if s != [] {
      SetOfSize(s[..|s| - 1]);
      assert SetOf(s) == SetOf(s[..|s| - 1]) + {s[|s| - 1]};
    }
  }

  lemma {:induction false} SubsetSize<T>(a: set<T>, b: set<T>)
    requires a <= b
    ensures |a| <= |b|
    ensures |a| == |b| ==> a == b
  {
    assert b == a + (b - a);
    assert |b| == |a| + |b - a|;
  }

  // ------------------------------------------------------------------
  // Insertion
  // ------------------------------------------------------------------

  /** No element is to come before one that stands before it. */
  ghost predicate SortedBy<T>(s: seq<T>, before: (T, T) -> bool) {
    forall i, j :: 0 <= i < j < |s| ==> !before(s[j], s[i])
  }

  /** On `all`, `before` is an order up to ties; of equal elements it may say
      either. */
  ghost predicate Orders<T(!new)>(before: (T, T) -> bool, all: set<T>) {
    && (forall a, b :: a in all && b in all && a != b && before(a, b) ==> !before(b, a))
    && (forall a, b, c :: a in all && b in all && c in all && !before(b, a) && !before(c, b) ==> !before(c, a))
  }

  /** `x` in its place, after its ties. */
  function InsertBy<T>(s: seq<T>, x: T, before: (T, T) -> bool): (r: seq<T>)
    ensures multiset(r) == multiset(s) + multiset{x}
  {
    if s == [] || !before(x, s[|s| - 1]) then s + [x]
    else
      assert s == s[..|s| - 1] + [s[|s| - 1]];
      InsertBy(s[..|s| - 1], x, before) + [s[|s| - 1]]
  }

  lemma {:induction false} InsertByHas<T>(s: seq<T>, x: T, before: (T, T) -> bool)
    ensures |InsertBy(s, x, before)| == |s| + 1
    ensures forall y :: y in InsertBy(s, x, before) <==> y == x || y in s
  {
    hide InsertBy;
    var r := InsertBy(s, x, before);
    assert |multiset(r)| == |multiset(s)| + 1;
    forall y
      ensures y in r <==> y == x || y in s
    {
      assert y in multiset(r) <==> y == x || y in multiset(s);
    }
  }

  lemma {:induction false} AppendSorted<T>(s: seq<T>, x: T, before: (T, T) -> bool)
    requires SortedBy(s, before) && forall y :: y in s ==> !before(x, y)
    ensures SortedBy(s + [x], before)
  {
  }

  lemma {:induction false} InsertBySorts<T(!new)>(s: seq<T>, x: T, before: (T, T) -> bool)
    requires SortedBy(s, before) && Orders(before, SetOf(s) + {x}) && (x in s ==> !before(x, x))
    ensures SortedBy(InsertBy(s, x, before), before)
  {
    if s == [] {
      AppendSorted(s, x, before);
    } else {
      var init, last := s[..|s| - 1], s[|s| - 1];
      InitSorted(s, x, before);
      if before(x, last) {
        assert before(x, last) && x != last && !before(last, x);
        hide Orders, SortedBy;
        InsertBySorts(init, x, before);
        InsertByHas(init, x, before);
        AppendSorted(InsertBy(init, x, before), last, before);
      } else {
        LastBounds(s, x, before);
        hide Orders, SortedBy;
        AppendSorted(s, x, before);
      }
    }
  }

  lemma {:induction false} InitSorted<T(!new)>(s: seq<T>, x: T, before: (T, T) -> bool)
    requires s != [] && SortedBy(s, before) && Orders(before, SetOf(s) + {x})
    ensures var init, last := s[..|s| - 1], s[|s| - 1];
      && s == init + [last] && SortedBy(init, before) && Orders(before, SetOf(init) + {x})
      && forall y :: y in init ==> !before(last, y)
  {
    hide Orders;
    var init, last := s[..|s| - 1], s[|s| - 1];
    assert s == init + [last];
    SubOrders(before, SetOf(s) + {x}, SetOf(init) + {x});
  }

  lemma {:induction false} LastBounds<T(!new)>(s: seq<T>, x: T, before: (T, T) -> bool)
    requires s != [] && SortedBy(s, before) && Orders(before, SetOf(s) + {x}) && !before(x, s[|s| - 1])
    ensures forall y :: y in s ==> !before(x, y)
  {
    forall y | y in s
      ensures !before(x, y)
    {
      var last := s[|s| - 1];
      assert last in s;
      var i :| 0 <= i < |s| && s[i] == y;
      if i < |s| - 1 {
        assert !before(last, y);
      }
    }
  }

  /** Insertion of every element in turn. */
  function SortBy<T>(s: seq<T>, before: (T, T) -> bool): (r: seq<T>)
    ensures multiset(r) == multiset(s)
  {
    if s == [] then []
    else
      assert s == s[..|s| - 1] + [s[|s| - 1]];
      InsertBy(SortBy(s[..|s| - 1], before), s[|s| - 1], before)
  }

  lemma {:induction false} SortByHas<T>(s: seq<T>, before: (T, T) -> bool)
    ensures |SortBy(s, before)| == |s|
    ensures forall y :: y in SortBy(s, before) <==> y in s
  {
    hide SortBy;
    var r := SortBy(s, before);
    assert |multiset(r)| == |multiset(s)|;
    forall y
      ensures y in r <==> y in s
    {
      assert y in multiset(r) <==> y in multiset(s);
    }
  }

  lemma {:induction false} SortBySorts<T(!new)>(s: seq<T>, before: (T, T) -> bool)
    requires Orders(before, SetOf(s)) && forall x :: x in s ==> !before(x, x)
    ensures SortedBy(SortBy(s, before), before)
  {
    if s != [] {
      LastToSort(s, before);
      hide Orders, SortedBy, InsertBy, SetOf;
      SortBySorts(s[..|s| - 1], before);
      InsertBySorts(SortBy(s[..|s| - 1], before), s[|s| - 1], before);
    }
  }

  lemma {:induction false} LastToSort<T(!new)>(s: seq<T>, before: (T, T) -> bool)
    requires s != [] && Orders(before, SetOf(s)) && forall x :: x in s ==> !before(x, x)
    ensures var init, last := s[..|s| - 1], s[|s| - 1];
      && Orders(before, SetOf(init)) && (forall x :: x in init ==> !before(x, x)) && !before(last, last)
      && Orders(before, SetOf(SortBy(init, before)) + {last})
  {
    hide SortBy, Orders;
    var init, last := s[..|s| - 1], s[|s| - 1];
    SortByHas(init, before);
    assert s == init + [last];
    SubOrders(before, SetOf(s), SetOf(init));
    SubOrders(before, SetOf(s), SetOf(SortBy(init, before)) + {last});
  }

  lemma {:induction false} SubOrders<T(!new)>(before: (T, T) -> bool, all: set<T>, some: set<T>)
    requires Orders(before, all) && some <= all
    ensures Orders(before, some)
  {
  }

  predicate AtMost(a: nat, b: nat) { a <= b }

  /** `x` in its place, once. */
  function Insert(s: seq<nat>, x: nat): seq<nat> {
    if x in s then s else InsertBy(s, x, AtMost)
  }

  lemma {:induction false} InsertAdds(s: seq<nat>, x: nat)
    requires Increasing(s)
    ensures Increasing(Insert(s, x))
    ensures forall y :: y in Insert(s, x) <==> y == x || y in s
  {
    if x !in s {
      assert SortedBy(s, AtMost) && Orders(AtMost, SetOf(s) + {x});
      InsertBySorts(s, x, AtMost);
      InsertByHas(s, x, AtMost);
    }
  }

  lemma {:induction false} AppendIncreasing(s: seq<nat>, x: nat)
    requires Increasing(s) && forall y :: y in s ==> y < x
    ensures Increasing(s + [x])
  {
    assert forall i :: 0 <= i < |s| ==> s[i] in s;
  }

  lemma {:induction false} IncreasingSize(s: seq<nat>)
    requires Increasing(s)
    ensures |SetOf(s)| == |s|
  {
    if s != [] {
      var init, last := s[..|s| - 1], s[|s| - 1];
      IncreasingSize(init);
      assert SetOf(s) == SetOf(init) + {last};
      assert last !in init;
    }
  }

  /** `partition_point`: how many elements are below `x`. */
  method PartitionPoint(s: seq<nat>, x: nat) returns (p: nat)
    requires Ascending(s)
    ensures p <= |s|
    ensures forall i :: 0 <= i < p ==> s[i] < x
    ensures forall i :: p <= i < |s| ==> x <= s[i]
  {
    var lo, hi := 0, |s|;
    while lo < hi
      invariant 0 <= lo <= hi <= |s|
      invariant forall i :: 0 <= i < lo ==> s[i] < x
      invariant forall i :: hi <= i < |s| ==> x <= s[i]
    {
      var mid := (lo + hi) / 2;
      if s[mid] < x {
        lo := mid + 1;
      } else {
        hi := mid;
      }
    }
    p := lo;
  }

  // ------------------------------------------------------------------
  // Products and quotients
  // ------------------------------------------------------------------

  lemma {:induction false} Quotient(a: nat, c: nat)
    requires c > 0
    ensures a == a / c * c + a % c && a % c < c
  {
  }

  /** A block of `c` numbers ends before a later block starts. */
  lemma {:induction false} BlockOrder(c: nat, q: nat, k: nat, r: nat)
    requires q < k && r < c
    ensures q * c + r < k * c
  {
    assert k * c == q * c + (k - q - 1) * c + c;
    assert (k - q - 1) * c >= 0;
  }

  lemma {:induction false} ProductGrows(a: nat, b: nat, c: nat)
    requires a <= b
    ensures a * c <= b * c
  {
    assert b * c == a * c + (b - a) * c;
  }
}
