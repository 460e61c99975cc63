/**
 The delivery check of the live workload (`analyse` in live.rs): two counts
 that are exactly the multiset differences between what stable connections
 logged and what they are `Owed`.

 An event is checked unless it was published during the storm. A connection
 has at most 100 subscriptions and the publisher refuses to number more than
 2^32 events, so the source's u8 and u32 casts are exact and plain numbers
 stand for them.
 */
module Deliveries {

  import opened Basics

  datatype Published<Draft> = Published(draft: Draft, storm: bool, accepted: bool)

  predicate Less(x: Key, y: Key) {
    x.number < y.number || (x.number == y.number && x.slot < y.slot)
  }

  predicate Sorted(s: seq<Key>) {
    forall i, j :: 0 <= i < j < |s| ==> !Less(s[j], s[i])
  }

  // ------------------------------------------------------------------
  // The two-pointer merge
  // ------------------------------------------------------------------

  lemma {:induction false} HeadIsLeast(s: seq<Key>, x: Key)
    requires Sorted(s) && s != [] && Less(x, s[0])
    ensures multiset(s)[x] == 0
  {
  }

  lemma {:induction false} DropHead(s: seq<Key>)
    requires s != []
    ensures multiset(s) == multiset(s[1..]) + multiset{s[0]}
  {
    assert s == [s[0]] + s[1..];
  }

  /** How many elements, repetitions counted, `a` has beyond `b`. */
  function Beyond(a: seq<Key>, b: seq<Key>): nat {
    |multiset(a) - multiset(b)|
  }

  lemma {:induction false} SharedHead(a: seq<Key>, b: seq<Key>)
    requires a != [] && b != [] && a[0] == b[0]
    ensures Beyond(a, b) == Beyond(a[1..], b[1..])
  {
    DropHead(a);
    DropHead(b);
    assert multiset(a) - multiset(b) == multiset(a[1..]) - multiset(b[1..]);
  }

  /** A head that `b` lacks counts once on its side and not on the other. */
  lemma {:induction false} LoneHead(a: seq<Key>, b: seq<Key>)
    requires Sorted(b) && a != [] && (b == [] || Less(a[0], b[0]))
    ensures Beyond(a, b) == 1 + Beyond(a[1..], b)
    ensures Beyond(b, a) == Beyond(b, a[1..])
  {
    DropHead(a);
    if b != [] {
      HeadIsLeast(b, a[0]);
    }
    assert multiset(a) - multiset(b) == (multiset(a[1..]) - multiset(b)) + multiset{a[0]};
    assert multiset(b) - multiset(a) == multiset(b) - multiset(a[1..]);
  }

  lemma {:induction false} NothingBeyond()
    ensures Beyond([], []) == 0
  {
  }

  /** Walks both sorted lists once; what only one has is exactly the
      multiset difference on either side. */
  method Merge(actual: seq<Key>, expected: seq<Key>) returns (missing: nat, unexpected: nat)
    requires Sorted(actual) && Sorted(expected)
    ensures missing == Beyond(expected, actual)
    ensures unexpected == Beyond(actual, expected)
  {
    hide Beyond, Sorted;
    missing, unexpected := 0, 0;
    var a, e := 0, 0;
    assert actual[0..] == actual && expected[0..] == expected;
    NothingBeyond();
    while a < |actual| || e < |expected|
      invariant a <= |actual| && e <= |expected|
      invariant missing + Beyond(expected[e..], actual[a..]) == Beyond(expected, actual)
      invariant unexpected + Beyond(actual[a..], expected[e..]) == Beyond(actual, expected)
      decreases |actual| - a + |expected| - e
    {
      if a < |actual| && e < |expected| && actual[a] == expected[e] {
        SharedStep(actual, expected, a, e);
        a, e := a + 1, e + 1;
      } else if e < |expected| && (a == |actual| || Less(expected[e], actual[a])) {
        LoneStep(expected, actual, e, a);
        missing, e := missing + 1, e + 1;
      } else {
        LoneStep(actual, expected, a, e);
        unexpected, a := unexpected + 1, a + 1;
      }
    }
    assert actual[a..] == [] && expected[e..] == [];
  }

  lemma {:induction false} SharedStep(s: seq<Key>, t: seq<Key>, i: nat, j: nat)
    requires i < |s| && j < |t| && s[i] == t[j]
    ensures Beyond(s[i..], t[j..]) == Beyond(s[i + 1..], t[j + 1..])
    ensures Beyond(t[j..], s[i..]) == Beyond(t[j + 1..], s[i + 1..])
  {
    SharedHead(s[i..], t[j..]);
    SharedHead(t[j..], s[i..]);
    assert s[i..][1..] == s[i + 1..] && t[j..][1..] == t[j + 1..];
  }

  lemma {:induction false} LoneStep(s: seq<Key>, t: seq<Key>, i: nat, j: nat)
    requires Sorted(t) && i < |s| && j <= |t| && (j == |t| || Less(s[i], t[j]))
    ensures Beyond(s[i..], t[j..]) == 1 + Beyond(s[i + 1..], t[j..])
    ensures Beyond(t[j..], s[i..]) == Beyond(t[j..], s[i + 1..])
  {
    SortedRest(t, j);
    LoneHead(s[i..], t[j..]);
    assert s[i..][1..] == s[i + 1..];
  }

  lemma {:induction false} SortedRest(s: seq<Key>, i: nat)
    requires Sorted(s) && i <= |s|
    ensures Sorted(s[i..])
  {
  }

  // ------------------------------------------------------------------
  // What a connection is owed
  // ------------------------------------------------------------------

  /** An accepted checked event that the subscription at a slot matches. */
  predicate Owed<Spec, Draft>(matches: (Spec, Draft) -> bool, specs: seq<Spec>, published: seq<Published<Draft>>,
                              k: Key)
  {
    && k.number < |published| && k.slot < |specs|
    && !published[k.number].storm && published[k.number].accepted
    && matches(specs[k.slot], published[k.number].draft)
  }

  ghost function AllOwed<Spec, Draft>(matches: (Spec, Draft) -> bool, specs: seq<Spec>,
                                      published: seq<Published<Draft>>): set<Key>
  {
    set n, s | 0 <= n < |published| && 0 <= s < |specs| && Owed(matches, specs, published, Key(n, s)) :: Key(n, s)
  }

  predicate Increasing(s: seq<Key>) {
    forall i, j :: 0 <= i < j < |s| ==> Less(s[i], s[j])
  }

  method Expected<Spec, Draft>(matches: (Spec, Draft) -> bool, specs: seq<Spec>, published: seq<Published<Draft>>)
    returns (expected: seq<Key>)
    ensures Sorted(expected)
    ensures multiset(expected) == multiset(AllOwed(matches, specs, published))
  {
    expected := [];
    for n := 0 to |published|
      invariant Increasing(expected)
      invariant forall k :: k in expected ==> Owed(matches, specs, published, k) && k.number < n
      invariant forall k :: Owed(matches, specs, published, k) && k.number < n ==> k in expected
    {
      if !published[n].storm && published[n].accepted {
        for s := 0 to |specs|
          invariant Increasing(expected)
          invariant forall k :: k in expected ==> Owed(matches, specs, published, k) && Less(k, Key(n, s))
          invariant forall k :: Owed(matches, specs, published, k) && Less(k, Key(n, s)) ==> k in expected
        {
          if matches(specs[s], published[n].draft) {
            expected := expected + [Key(n, s)];
          }
        }
      }
    }
    IncreasingIsSet(expected);
    assert (set k | k in expected) == AllOwed(matches, specs, published);
  }

  lemma {:induction false} IncreasingIsSet(s: seq<Key>)
    requires Increasing(s)
    ensures multiset(s) == multiset(set k | k in s)
  {
    if s != [] {
      var init, last := s[..|s| - 1], s[|s| - 1];
      IncreasingIsSet(init);
      assert s == init + [last];
      assert (set k | k in s) == (set k | k in init) + {last};
    }
  }

  // ------------------------------------------------------------------
  // What a connection logged
  // ------------------------------------------------------------------

  /** `sort_unstable`. */
  method Sort(s: seq<Key>) returns (r: seq<Key>)
    ensures Sorted(r) && multiset(r) == multiset(s)
  {
    hide SortBy;
    r := SortBy(s, Less);
    assert Orders(Less, SetOf(s));
    SortBySorts(s, Less);
  }

  /** An event that the check looks at: published, and not in the storm. */
  predicate IsChecked<Draft>(published: seq<Published<Draft>>, k: Key) {
    k.number < |published| && !published[k.number].storm
  }

  /** Deliveries that name a published event, outside the storm. */
  function Checked<Draft>(published: seq<Published<Draft>>, log: seq<Key>): seq<Key> {
    if log == [] then []
    else
      var k := log[|log| - 1];
      Checked(published, log[..|log| - 1]) + (if IsChecked(published, k) then [k] else [])
  }

  /** Where a log has a delivery. */
  ghost function PlacesOf(log: seq<Key>, k: Key): set<nat> {
    set i: nat | i < |log| && log[i] == k
  }

  lemma {:induction false} NextPlaceOf(log: seq<Key>, n: nat, k: Key)
    requires n < |log|
    ensures |PlacesOf(log[..n + 1], k)| == |PlacesOf(log[..n], k)| + if log[n] == k then 1 else 0
  {
    assert PlacesOf(log[..n + 1], k) == PlacesOf(log[..n], k) + if log[n] == k then {n} else {};
  }

  /** Every checked delivery is there as often as the log has it, and no other
      is there. */
  lemma {:induction false} CheckedHolds<Draft>(published: seq<Published<Draft>>, log: seq<Key>, k: Key)
    ensures multiset(Checked(published, log))[k] == if IsChecked(published, k) then |PlacesOf(log, k)| else 0
  {
    if log == [] {
      assert PlacesOf(log, k) == {};
    } else {
      var n := |log| - 1;
      CheckedHolds(published, log[..n], k);
      assert log[..n + 1] == log;
      NextPlaceOf(log, n, k);
      hide PlacesOf, IsChecked;
    }
  }

  lemma {:induction false} InCheckedIff<Draft>(published: seq<Published<Draft>>, log: seq<Key>, k: Key)
    ensures k in Checked(published, log) <==> IsChecked(published, k) && k in log
  {
    if log != [] {
      var n := |log| - 1;
      InCheckedIff(published, log[..n], k);
      assert log == log[..n] + [log[n]];
    }
  }

  /** The places of a log that name an event nobody published. */
  ghost function Strays<Draft>(published: seq<Published<Draft>>, log: seq<Key>): set<nat> {
    set i: nat | i < |log| && |published| <= log[i].number
  }

  ghost predicate Known<Draft>(published: seq<Published<Draft>>, log: seq<Key>) {
    forall i :: 0 <= i < |log| ==> log[i].number < |published|
  }

  lemma {:induction false} KnownIsNoStrays<Draft>(published: seq<Published<Draft>>, log: seq<Key>)
    ensures |Strays(published, log)| == 0 <==> Known(published, log)
  {
    if |Strays(published, log)| != 0 {
      var i :| i in Strays(published, log);
    } else {
      forall i: nat | i < |log|
        ensures log[i].number < |published|
      {
        assert i !in Strays(published, log);
      }
    }
  }

  lemma {:induction false} NextStray<Draft>(published: seq<Published<Draft>>, log: seq<Key>, i: nat)
    requires i < |log|
    ensures |Strays(published, log[..i + 1])| ==
      |Strays(published, log[..i])| + if |published| <= log[i].number then 1 else 0
  {
    var before, after := Strays(published, log[..i]), Strays(published, log[..i + 1]);
    assert after == before + if |published| <= log[i].number then {i} else {};
  }

  method Sample<Draft>(published: seq<Published<Draft>>, log: seq<Key>) returns (checked: seq<Key>, unknown: nat)
    ensures checked == Checked(published, log)
    ensures forall k :: multiset(checked)[k] == if IsChecked(published, k) then |PlacesOf(log, k)| else 0
    ensures unknown == |Strays(published, log)|
  {
    checked, unknown := [], 0;
    for i := 0 to |log|
      invariant checked == Checked(published, log[..i])
      invariant unknown == |Strays(published, log[..i])|
    {
      assert log[..i + 1][..i] == log[..i];
      NextStray(published, log, i);
      if log[i].number < |published| {
        if !published[log[i].number].storm {
          checked := checked + [log[i]];
        }
      } else {
        unknown := unknown + 1;
      }
    }
    assert log[..|log|] == log;
    forall k
      ensures multiset(checked)[k] == if IsChecked(published, k) then |PlacesOf(log, k)| else 0
    {
      CheckedHolds(published, log, k);
    }
  }

  /** The owed deliveries that a log lacks, and how many they are. */
  ghost function Lacking<Spec, Draft>(matches: (Spec, Draft) -> bool, specs: seq<Spec>,
                                      published: seq<Published<Draft>>, log: seq<Key>): set<Key>
  {
    set k | k in AllOwed(matches, specs, published) && k !in log
  }

  ghost function Missing<Spec, Draft>(matches: (Spec, Draft) -> bool, specs: seq<Spec>,
                                      published: seq<Published<Draft>>, log: seq<Key>): nat
  {
    |Lacking(matches, specs, published, log)|
  }

  /** A place whose delivery was not owed, or repeats an earlier one. What
      came of the storm is neither. */
  predicate Unowed<Spec, Draft>(matches: (Spec, Draft) -> bool, specs: seq<Spec>,
                                published: seq<Published<Draft>>, log: seq<Key>, i: nat)
    requires i < |log|
  {
    || |published| <= log[i].number
    || (!published[log[i].number].storm && (!Owed(matches, specs, published, log[i]) || log[i] in log[..i]))
  }

  ghost function UnowedPlaces<Spec, Draft>(matches: (Spec, Draft) -> bool, specs: seq<Spec>,
                                           published: seq<Published<Draft>>, log: seq<Key>): set<nat>
  {
    set i: nat | i < |log| && Unowed(matches, specs, published, log, i)
  }

  ghost function Surplus<Spec, Draft>(matches: (Spec, Draft) -> bool, specs: seq<Spec>,
                                      published: seq<Published<Draft>>, log: seq<Key>): nat
  {
    |UnowedPlaces(matches, specs, published, log)|
  }

  /** Each owed delivery is at exactly one place, and every other place is of
      the storm. */
  ghost predicate Exact<Spec, Draft>(matches: (Spec, Draft) -> bool, specs: seq<Spec>,
                                     published: seq<Published<Draft>>, log: seq<Key>)
  {
    && (forall k :: k in AllOwed(matches, specs, published) ==> |PlacesOf(log, k)| == 1)
    && (forall i :: 0 <= i < |log| ==>
          log[i].number < |published| && (published[log[i].number].storm || Owed(matches, specs, published, log[i])))
  }

  /** No delivery of `k` comes after another. */
  predicate NoRepeat(log: seq<Key>, k: Key) {
    forall i :: 0 <= i < |log| && log[i] == k ==> k !in log[..i]
  }

  lemma {:induction false} PlacedOnce(log: seq<Key>, k: Key)
    ensures |PlacesOf(log, k)| == 1 <==> k in log && NoRepeat(log, k)
  {
    var places := PlacesOf(log, k);
    if |places| == 1 {
      var i: nat :| i in places;
      assert |places - {i}| == 0;
      assert places == {i};
      forall j | 0 <= j < |log| && log[j] == k
        ensures k !in log[..j]
      {
        assert j in places;
        assert forall h: nat :: h < j && log[h] == k ==> h in places;
      }
    }
    if k in log && NoRepeat(log, k) {
      var i: nat :| i < |log| && log[i] == k;
      forall j: nat
        ensures j in places <==> j == i
      {
        assert forall h :: 0 <= h < i ==> log[h] in log[..i];
        assert i < j < |log| ==> log[..j][i] == k;
      }
      assert places == {i};
    }
  }

  lemma {:induction false} ExactIsNoMismatch<Spec, Draft>(matches: (Spec, Draft) -> bool, specs: seq<Spec>,
                                                          published: seq<Published<Draft>>, log: seq<Key>)
    ensures Missing(matches, specs, published, log) == 0 && Surplus(matches, specs, published, log) == 0 <==>
      Exact(matches, specs, published, log)
  {
    hide PlacesOf, AllOwed, Owed;
    var owed := AllOwed(matches, specs, published);
    OwedIsOwed(matches, specs, published);
    forall k
      ensures |PlacesOf(log, k)| == 1 <==> k in log && NoRepeat(log, k)
    {
      PlacedOnce(log, k);
    }
    if Missing(matches, specs, published, log) == 0 && Surplus(matches, specs, published, log) == 0 {
      forall k | k in owed
        ensures k in log && NoRepeat(log, k)
      {
        assert k !in Lacking(matches, specs, published, log);
        forall i: nat | i < |log| && log[i] == k
          ensures k !in log[..i]
        {
          assert i !in UnowedPlaces(matches, specs, published, log);
        }
      }
      forall i | 0 <= i < |log|
        ensures log[i].number < |published|
        ensures published[log[i].number].storm || Owed(matches, specs, published, log[i])
      {
        assert i !in UnowedPlaces(matches, specs, published, log);
      }
    }
    if Exact(matches, specs, published, log) {
      forall i: nat | i < |log|
        ensures !Unowed(matches, specs, published, log, i)
      {
        assert Owed(matches, specs, published, log[i]) ==> log[i] in owed && NoRepeat(log, log[i]);
      }
      assert Lacking(matches, specs, published, log) == {} && UnowedPlaces(matches, specs, published, log) == {};
    }
  }

  lemma {:induction false} OwedIsOwed<Spec, Draft>(matches: (Spec, Draft) -> bool, specs: seq<Spec>,
                                                   published: seq<Published<Draft>>)
    ensures forall k :: k in AllOwed(matches, specs, published) <==> Owed(matches, specs, published, k)
    ensures forall k :: Owed(matches, specs, published, k) ==> IsChecked(published, k)
  {
    forall k | Owed(matches, specs, published, k)
      ensures k in AllOwed(matches, specs, published)
    {
      assert k == Key(k.number, k.slot);
    }
  }

  // ------------------------------------------------------------------
  // The merge counts places
  // ------------------------------------------------------------------

  lemma {:induction false} MissingIsBeyond<Spec, Draft>(matches: (Spec, Draft) -> bool, specs: seq<Spec>,
                                                        published: seq<Published<Draft>>, log: seq<Key>)
    ensures |multiset(AllOwed(matches, specs, published)) - multiset(Checked(published, log))| ==
      Missing(matches, specs, published, log)
  {
    var owed := AllOwed(matches, specs, published);
    var lacking := Lacking(matches, specs, published, log);
    OwedIsOwed(matches, specs, published);
    forall k
      ensures (multiset(owed) - multiset(Checked(published, log)))[k] == multiset(lacking)[k]
    {
      InCheckedIff(published, log, k);
    }
    hide AllOwed, Owed, Checked, IsChecked;
    assert multiset(owed) - multiset(Checked(published, log)) == multiset(lacking);
  }

  lemma {:induction false} SurplusIsBeyond<Spec, Draft>(matches: (Spec, Draft) -> bool, specs: seq<Spec>,
                                                        published: seq<Published<Draft>>, log: seq<Key>)
    ensures |multiset(Checked(published, log)) - multiset(AllOwed(matches, specs, published))|
      + |Strays(published, log)| == Surplus(matches, specs, published, log)
  {
    if log == [] {
      assert UnowedPlaces(matches, specs, published, log) == {};
      assert Strays(published, log) == {};
    } else {
      var n := |log| - 1;
      hide *;
      SurplusIsBeyond(matches, specs, published, log[..n]);
      assert log[..n + 1] == log;
      NextStray(published, log, n);
      NextSurplus(matches, specs, published, log, n);
      NextBeyond(matches, specs, published, log, n);
      NextUnowed(matches, specs, published, log, n);
    }
  }

  lemma {:induction false} NextUnowed<Spec, Draft>(matches: (Spec, Draft) -> bool, specs: seq<Spec>,
                                                   published: seq<Published<Draft>>, log: seq<Key>, n: nat)
    requires n < |log|
    ensures Unowed(matches, specs, published, log, n) <==>
      || |published| <= log[n].number
      || (IsChecked(published, log[n]) && (!Owed(matches, specs, published, log[n]) || log[n] in log[..n]))
    ensures IsChecked(published, log[n]) ==> log[n].number < |published|
  {
  }

  lemma {:induction false} NextSurplus<Spec, Draft>(matches: (Spec, Draft) -> bool, specs: seq<Spec>,
                                                    published: seq<Published<Draft>>, log: seq<Key>, n: nat)
    requires n == |log| - 1
    ensures Surplus(matches, specs, published, log) ==
      Surplus(matches, specs, published, log[..n]) + if Unowed(matches, specs, published, log, n) then 1 else 0
  {
    var before := UnowedPlaces(matches, specs, published, log[..n]);
    var after := UnowedPlaces(matches, specs, published, log);
    forall i: nat | i < n
      ensures Unowed(matches, specs, published, log[..n], i) == Unowed(matches, specs, published, log, i)
    {
      assert log[..n][..i] == log[..i] && log[..n][i] == log[i];
    }
    hide Unowed;
    assert after == before + if Unowed(matches, specs, published, log, n) then {n} else {};
  }

  lemma {:induction false} NextBeyond<Spec, Draft>(matches: (Spec, Draft) -> bool, specs: seq<Spec>,
                                                   published: seq<Published<Draft>>, log: seq<Key>, n: nat)
    requires n == |log| - 1
    ensures
      var owed, k := multiset(AllOwed(matches, specs, published)), log[n];
      |multiset(Checked(published, log)) - owed| == |multiset(Checked(published, log[..n])) - owed| +
        if IsChecked(published, k) && (!Owed(matches, specs, published, k) || k in log[..n]) then 1 else 0
  {
    var owed, k := AllOwed(matches, specs, published), log[n];
    var checked := Checked(published, log[..n]);
    assert Checked(published, log) == checked + if IsChecked(published, k) then [k] else [];
    OwedIsOwed(matches, specs, published);
    InCheckedIff(published, log[..n], k);
    OneMore(multiset(checked), owed, k);
    assert multiset(checked + [k]) == multiset(checked) + multiset{k};
    assert checked + [] == checked;
  }

  /** One more of `k` is one more beyond a set, unless it is the first of a
      member. */
  lemma {:induction false} OneMore(m: multiset<Key>, owed: set<Key>, k: Key)
    ensures |(m + multiset{k}) - multiset(owed)| == |m - multiset(owed)| + if k !in owed || k in m then 1 else 0
  {
    if k !in owed || k in m {
      assert (m + multiset{k}) - multiset(owed) == (m - multiset(owed)) + multiset{k};
    } else {
      assert (m + multiset{k}) - multiset(owed) == m - multiset(owed);
    }
  }

  method CheckConnection<Spec, Draft>(matches: (Spec, Draft) -> bool, specs: seq<Spec>,
                                      published: seq<Published<Draft>>, log: seq<Key>)
    returns (missing: nat, unexpected: nat)
    ensures missing == Missing(matches, specs, published, log)
    ensures unexpected == Surplus(matches, specs, published, log)
    ensures missing == 0 && unexpected == 0 <==> Exact(matches, specs, published, log)
  {
    hide Missing, Surplus, Exact, AllOwed, Checked, Strays;
    var checked, unknown := Sample(published, log);
    var actual := Sort(checked);
    var expected := Expected(matches, specs, published);
    missing, unexpected := Merge(actual, expected);
    unexpected := unexpected + unknown;
    MissingIsBeyond(matches, specs, published, log);
    SurplusIsBeyond(matches, specs, published, log);
    ExactIsNoMismatch(matches, specs, published, log);
  }

  ghost function AllMissing<Spec, Draft>(matches: (Spec, Draft) -> bool, conns: seq<seq<Spec>>,
                                         published: seq<Published<Draft>>, logs: seq<seq<Key>>, n: nat): nat
    requires n <= |conns| == |logs|
  {
    if n == 0 then 0
    else AllMissing(matches, conns, published, logs, n - 1) + Missing(matches, conns[n - 1], published, logs[n - 1])
  }

  ghost function AllSurplus<Spec, Draft>(matches: (Spec, Draft) -> bool, conns: seq<seq<Spec>>,
                                         published: seq<Published<Draft>>, logs: seq<seq<Key>>, n: nat): nat
    requires n <= |conns| == |logs|
  {
    if n == 0 then 0
    else AllSurplus(matches, conns, published, logs, n - 1) + Surplus(matches, conns[n - 1], published, logs[n - 1])
  }

  ghost function AllStrays<Draft>(published: seq<Published<Draft>>, churn: seq<seq<Key>>, n: nat): nat
    requires n <= |churn|
  {
    if n == 0 then 0 else AllStrays(published, churn, n - 1) + |Strays(published, churn[n - 1])|
  }

  /** Sums are zero exactly when every term is. */
  lemma {:induction false} NoMismatches<Spec, Draft>(matches: (Spec, Draft) -> bool, conns: seq<seq<Spec>>,
                                                     published: seq<Published<Draft>>, logs: seq<seq<Key>>, n: nat)
    requires n <= |conns| == |logs|
    ensures
      var missing := AllMissing(matches, conns, published, logs, n);
      var surplus := AllSurplus(matches, conns, published, logs, n);
      missing == 0 && surplus == 0 <==> forall c :: 0 <= c < n ==> Exact(matches, conns[c], published, logs[c])
  {
    hide Exact, Missing, Surplus;
    if n > 0 {
      NoMismatches(matches, conns, published, logs, n - 1);
      ExactIsNoMismatch(matches, conns[n - 1], published, logs[n - 1]);
    }
  }

  lemma {:induction false} NoStrays<Draft>(published: seq<Published<Draft>>, churn: seq<seq<Key>>, n: nat)
    requires n <= |churn|
    ensures AllStrays(published, churn, n) == 0 <==> forall c :: 0 <= c < n ==> Known(published, churn[c])
  {
    hide Known, Strays;
    if n > 0 {
      NoStrays(published, churn, n - 1);
      KnownIsNoStrays(published, churn[n - 1]);
    }
  }

  lemma {:induction false} NextMismatch<Spec, Draft>(matches: (Spec, Draft) -> bool, conns: seq<seq<Spec>>,
                                                     published: seq<Published<Draft>>, logs: seq<seq<Key>>, n: nat)
    requires n <= |conns| == |logs|
    ensures n == 0 ==>
      AllMissing(matches, conns, published, logs, n) == AllSurplus(matches, conns, published, logs, n) == 0
    ensures n > 0 ==>
      && AllMissing(matches, conns, published, logs, n) ==
        AllMissing(matches, conns, published, logs, n - 1) + Missing(matches, conns[n - 1], published, logs[n - 1])
      && AllSurplus(matches, conns, published, logs, n) ==
        AllSurplus(matches, conns, published, logs, n - 1) + Surplus(matches, conns[n - 1], published, logs[n - 1])
  {
  }

  /** The stable connections of a run, one after the other. */
  method CheckStable<Spec, Draft>(matches: (Spec, Draft) -> bool, conns: seq<seq<Spec>>,
                                  published: seq<Published<Draft>>, logs: seq<seq<Key>>)
    returns (missing: nat, unexpected: nat)
    requires |logs| == |conns|
    ensures missing == AllMissing(matches, conns, published, logs, |conns|)
    ensures unexpected == AllSurplus(matches, conns, published, logs, |conns|)
  {
    hide *;
    missing, unexpected := 0, 0;
    NextMismatch(matches, conns, published, logs, 0);
    for c := 0 to |conns|
      invariant missing == AllMissing(matches, conns, published, logs, c)
      invariant unexpected == AllSurplus(matches, conns, published, logs, c)
    {
      var lost, extra := CheckConnection(matches, conns[c], published, logs[c]);
      NextMismatch(matches, conns, published, logs, c + 1);
      missing, unexpected := missing + lost, unexpected + extra;
    }
  }

  /** The mismatch counts of a run add up over its connections, churners
      included. Both are zero exactly when every stable connection's log is
      exact and the churners saw only published events. */
  method Analyse<Spec, Draft>(matches: (Spec, Draft) -> bool, conns: seq<seq<Spec>>, published: seq<Published<Draft>>,
                              logs: seq<seq<Key>>, churn: seq<seq<Key>>)
    returns (missing: nat, unexpected: nat)
    requires |logs| == |conns|
    ensures missing == AllMissing(matches, conns, published, logs, |conns|)
    ensures unexpected == AllSurplus(matches, conns, published, logs, |conns|) + AllStrays(published, churn, |churn|)
    ensures missing == 0 && unexpected == 0 <==>
      && (forall c :: 0 <= c < |conns| ==> Exact(matches, conns[c], published, logs[c]))
      && (forall c :: 0 <= c < |churn| ==> Known(published, churn[c]))
  {
    hide Exact, Known, Missing, Surplus, Strays, AllMissing, AllSurplus;
    missing, unexpected := CheckStable(matches, conns, published, logs);
    NoMismatches(matches, conns, published, logs, |conns|);
    NoStrays(published, churn, |churn|);
    for c := 0 to |churn|
      invariant unexpected == AllSurplus(matches, conns, published, logs, |conns|) + AllStrays(published, churn, c)
    {
      var actual, unknown := Sample(published, churn[c]);
      unexpected := unexpected + unknown;
    }
  }
}
