/**
 What a right reply to a limited filter is, and the oracle of corpus.rs that
 decides it by counting.

 `Newest` gives the meaning without an algorithm: so many matches, and none
 left out that is strictly newer than one taken. Where several share the time
 of the cut, any of them will do. `ExpectedMatches` is proved to accept exactly
 those replies, and `ClientHistory` proves the same of clients.rs. Filter
 matching and visibility are parameters.
 */
module History {
  import opened Basics
  import opened Retention

  // ------------------------------------------------------------------
  // Newest first
  // ------------------------------------------------------------------

  /** A time and an id, which is all the order looks at. */
  datatype Stamp = Stamp(createdAt: nat, id: Id)
  {
    /** Newest first, and the lower id first within a second. */
    predicate Before(other: Stamp) {
      createdAt > other.createdAt || (createdAt == other.createdAt && id < other.id)
    }
  }

  ghost predicate Sorted<T(!new)>(s: seq<T>, stamp: T -> Stamp) {
    forall i, j :: 0 <= i < j < |s| ==> stamp(s[i]).Before(stamp(s[j])) || stamp(s[i]) == stamp(s[j])
  }

  function Newer<T>(stamp: T -> Stamp): (T, T) -> bool {
    (a, b) => stamp(a).Before(stamp(b))
  }

  /** Stands for the standard library's sort: a permutation, newest first. */
  function NewestFirst<T>(s: seq<T>, stamp: T -> Stamp): (r: seq<T>)
    ensures multiset(r) == multiset(s)
  {
    SortBy(s, Newer(stamp))
  }

  lemma {:induction false} NewestFirstSorted<T(!new)>(s: seq<T>, stamp: T -> Stamp)
    ensures Sorted(NewestFirst(s, stamp), stamp)
    ensures |NewestFirst(s, stamp)| == |s|
    ensures forall x :: x in NewestFirst(s, stamp) <==> x in s
  {
    hide SortBy;
    assert Orders(Newer(stamp), SetOf(s));
    SortBySorts(s, Newer(stamp));
    SortByHas(s, Newer(stamp));
  }

  // ------------------------------------------------------------------
  // What a reply must be
  // ------------------------------------------------------------------

  /** Of `pool`, `taken` holds `count` events and no omitted one is strictly newer than a taken one. */
  ghost predicate Newest<T(!new)>(pool: set<T>, taken: set<T>, count: nat, stamp: T -> Stamp) {
    && taken <= pool
    && |taken| == count
    && NoneNewer(pool, taken, stamp)
  }

  ghost predicate NoneNewer<T(!new)>(pool: set<T>, taken: set<T>, stamp: T -> Stamp) {
    forall o, t :: o in pool && o !in taken && t in taken ==> stamp(o).createdAt <= stamp(t).createdAt
  }

  /** How many of `n` matches a filter's `limit` asks for. */
  function Asked(limit: Option<nat>, n: nat): nat {
    match limit
    case None => n
    case Some(l) => Min(l, n)
  }

  ghost predicate Distinct<T>(s: seq<T>) {
    forall i, j :: 0 <= i < j < |s| ==> s[i] != s[j]
  }

  lemma {:induction false} DistinctSize<T>(s: seq<T>)
    requires Distinct(s)
    ensures |SetOf(s)| == |s|
  {
    if s != [] {
      var n := |s| - 1;
      DistinctSize(s[..n]);
      assert SetOf(s) == SetOf(s[..n]) + {s[n]};
    }
  }

  // ------------------------------------------------------------------
  // corpus.rs: Expected and OwnedExpected
  // ------------------------------------------------------------------

  /** An event as the corpus keeps it. */
  datatype Record = Record(id: Id, digest: nat, createdAt: nat)

  function RecordOf(digest: Event -> nat, e: Event): Record { Record(e.id, digest(e), e.createdAt) }

  ghost function Records(digest: Event -> nat, events: set<Event>): set<Record> {
    set e | e in events :: RecordOf(digest, e)
  }

  /** A received value as far as counting looks at it. */
  datatype Sent = Sent(id: Option<Id>, digest: Option<nat>)

  /** A right reply, up to the choice of `take` among `tied`; see `Splits`. */
  datatype Expected = Expected(required: seq<Record>, tied: seq<Record>, take: nat)
  {
    function Len(): nat { |required| + take }

    /** How far back a reply reaches; `OldestOfReply` is about it. */
    function Oldest(): Option<nat> {
      if take > 0 then
        if tied == [] then None else Some(tied[0].createdAt)
      else
        if required == [] then None else Some(required[|required| - 1].createdAt)
    }
  }

  function RecordStamp(r: Record): Stamp { Stamp(r.createdAt, r.id) }

  /** `x` splits what a limit asks of `matches`: every match after a cut time
      is required, and the matches at the cut fill the rest. */
  ghost predicate Splits(matches: set<Record>, count: nat, x: Expected) {
    && Distinct(x.required) && Distinct(x.tied)
    && Sorted(x.required, RecordStamp)
    && x.Len() == count
    && if x.take == 0 then
         x.tied == [] && SetOf(x.required) == if count == 0 then {} else matches
       else
         && x.take <= |x.tied|
         && SetOf(x.required) == (set m | m in matches && m.createdAt > x.tied[0].createdAt)
         && SetOf(x.tied) == (set m | m in matches && m.createdAt == x.tied[0].createdAt)
  }

  function Where<T(!new)>(s: seq<T>, p: T -> bool): (r: seq<T>)
    ensures forall x :: x in r <==> x in s && p(x)
  {
    if s == [] then []
    else
      assert s == [s[0]] + s[1..];
      if p(s[0]) then [s[0]] + Where(s[1..], p) else Where(s[1..], p)
  }

  lemma {:induction false} WhereDistinct<T(!new)>(s: seq<T>, p: T -> bool)
    requires Distinct(s)
    ensures Distinct(Where(s, p))
  {
    if s != [] {
      WhereDistinct(s[1..], p);
      assert s[0] !in s[1..];
    }
  }

  lemma {:induction false} SizeDistinct<T>(s: seq<T>)
    requires |SetOf(s)| == |s|
    ensures Distinct(s)
  {
    if s != [] {
      var n := |s| - 1;
      assert SetOf(s) == SetOf(s[..n]) + {s[n]};
      SetOfSize(s[..n]);
      SizeDistinct(s[..n]);
    }
  }

  lemma {:induction false} SortDistinct<T(!new)>(s: seq<T>, stamp: T -> Stamp)
    requires Distinct(s)
    ensures Distinct(NewestFirst(s, stamp))
    ensures SetOf(NewestFirst(s, stamp)) == SetOf(s)
  {
    var r := NewestFirst(s, stamp);
    NewestFirstSorted(s, stamp);
    DistinctSize(s);
    assert SetOf(r) == SetOf(s);
    SizeDistinct(r);
  }

  /** `Corpus::expected`, from the events a filter matches. */
  method ExpectedReply(matches: seq<Record>, limit: Option<nat>) returns (x: Expected)
    requires Distinct(matches)
    ensures Splits(SetOf(matches), Asked(limit, |matches|), x)
  {
    if limit == None || |matches| <= limit.value {
      SortDistinct(matches, RecordStamp);
      NewestFirstSorted(matches, RecordStamp);
      DistinctSize(matches);
      x := Expected(NewestFirst(matches, RecordStamp), [], 0);
      return;
    }
    if limit.value == 0 {
      x := Expected([], [], 0);
      return;
    }
    var sorted := NewestFirst(matches, RecordStamp);
    NewestFirstSorted(matches, RecordStamp);
    SortDistinct(matches, RecordStamp);
    var cut := sorted[limit.value - 1].createdAt;
    x := SplitAt(matches, cut, limit.value, sorted);
  }

  method SplitAt(matches: seq<Record>, cut: nat, limit: nat, ghost sorted: seq<Record>) returns (x: Expected)
    requires Distinct(matches) && Distinct(sorted) && SetOf(sorted) == SetOf(matches) && Sorted(sorted, RecordStamp)
    requires 0 < limit < |sorted| && cut == sorted[limit - 1].createdAt
    ensures Splits(SetOf(matches), limit, x)
  {
    hide Where, NewestFirst;
    var after, at := (m: Record) => m.createdAt > cut, (m: Record) => m.createdAt == cut;
    var required, tied := Where(matches, after), Where(matches, at);
    WhereDistinct(matches, after);
    WhereDistinct(matches, at);
    forall m
      ensures m in matches <==> m in sorted
    {
      assert m in SetOf(matches) <==> m in SetOf(sorted);
    }
    CutSizes(sorted, limit, required, tied);
    var first, rest := NewestFirst(required, RecordStamp), NewestFirst(tied, RecordStamp);
    SortDistinct(required, RecordStamp);
    SortDistinct(tied, RecordStamp);
    NewestFirstSorted(required, RecordStamp);
    NewestFirstSorted(tied, RecordStamp);
    x := Expected(first, rest, limit - |required|);
    CutSplits(SetOf(matches), cut, x);
  }

  lemma {:induction false} CutSplits(all: set<Record>, cut: nat, x: Expected)
    requires Distinct(x.required) && Distinct(x.tied) && Sorted(x.required, RecordStamp)
    requires forall m :: m in x.required <==> m in all && m.createdAt > cut
    requires forall m :: m in x.tied <==> m in all && m.createdAt == cut
    requires 0 < x.take <= |x.tied|
    ensures Splits(all, x.Len(), x)
  {
  }

  /** The cut leaves room for at least one tied match and for no more than there are. */
  lemma {:induction false} CutSizes(sorted: seq<Record>, limit: nat, required: seq<Record>, tied: seq<Record>)
    requires Distinct(sorted) && Sorted(sorted, RecordStamp) && 0 < limit <= |sorted|
    requires Distinct(required) && Distinct(tied)
    requires forall m :: m in required <==> m in sorted && m.createdAt > sorted[limit - 1].createdAt
    requires forall m :: m in tied <==> m in sorted && m.createdAt == sorted[limit - 1].createdAt
    ensures |required| < limit <= |required| + |tied|
    ensures tied != []
  {
    assert sorted[limit - 1] in tied;
    RequiredFit(sorted, limit, required);
    TiedFill(sorted, limit, required, tied);
  }

  lemma {:induction false} RequiredFit(sorted: seq<Record>, limit: nat, required: seq<Record>)
    requires Sorted(sorted, RecordStamp) && 0 < limit <= |sorted| && Distinct(required)
    requires forall m :: m in required ==> m in sorted && m.createdAt > sorted[limit - 1].createdAt
    ensures |required| < limit
  {
    var newer := sorted[..limit - 1];
    forall m | m in required
      ensures m in newer
    {
      var i :| 0 <= i < |sorted| && sorted[i] == m;
      assert newer[i] == m;
    }
    DistinctSize(required);
    SubsetSize(SetOf(required), SetOf(newer));
    SetOfSize(newer);
  }

  lemma {:induction false} TiedFill(sorted: seq<Record>, limit: nat, required: seq<Record>, tied: seq<Record>)
    requires Distinct(sorted) && Sorted(sorted, RecordStamp) && 0 < limit <= |sorted|
    requires forall m :: m in sorted && m.createdAt > sorted[limit - 1].createdAt ==> m in required
    requires forall m :: m in sorted && m.createdAt == sorted[limit - 1].createdAt ==> m in tied
    ensures limit <= |required| + |tied|
  {
    var upTo := sorted[..limit];
    forall m | m in upTo
      ensures m in required || m in tied
    {
      var i :| 0 <= i < |upTo| && upTo[i] == m;
      assert sorted[i] == m;
    }
    SubsetSize(SetOf(upTo), SetOf(required) + SetOf(tied));
    DistinctSize(upTo);
    SetOfSize(required);
    SetOfSize(tied);
  }

  function AsSent(r: Record): Sent { Sent(Some(r.id), Some(r.digest)) }

  ghost predicate IdsUnique(records: set<Record>) {
    forall a, b :: a in records && b in records && a.id == b.id ==> a == b
  }

  /** The matches a reply shows. */
  ghost function Shown(matches: set<Record>, actual: seq<Sent>): set<Record> {
    set m | m in matches && AsSent(m) in actual
  }

  /** The reply is `count` of the matches, each once and unaltered, and no
      omitted match is strictly newer than one it holds. */
  ghost predicate NewestReply(matches: set<Record>, count: nat, actual: seq<Sent>) {
    && Distinct(actual)
    && (forall s :: s in actual ==> exists m :: m in matches && AsSent(m) == s)
    && Newest(matches, Shown(matches, actual), count, RecordStamp)
  }

  /** Each event's digest by id, and whether every correct reply holds it. */
  type Wanted = map<Id, (nat, bool)>

  ghost function IdsOf(records: seq<Record>): set<Id> { set r | r in records :: r.id }

  ghost predicate Wants(wanted: Wanted, x: Expected) {
    && wanted.Keys == IdsOf(x.required) + IdsOf(x.tied)
    && (forall r :: r in x.required ==> wanted[r.id] == (r.digest, true))
    && (forall r :: r in x.tied ==> wanted[r.id] == (r.digest, false))
  }

  /** No id is both required and tied, or stands for two records. */
  ghost predicate Separate(x: Expected) {
    && IdsUnique(SetOf(x.required) + SetOf(x.tied))
    && (forall r :: r in x.required ==> r !in x.tied)
  }

  method WantedBy(x: Expected) returns (wanted: Wanted)
    requires Separate(x)
    ensures Wants(wanted, x)
  {
    wanted := WantAlso(map[], x.required, true);
    assert forall r :: r in x.tied ==> r in SetOf(x.tied);
    assert forall r :: r in x.required ==> r in SetOf(x.required);
    wanted := WantAlso(wanted, x.tied, false);
  }

  /** `all` is `wanted` and the records. */
  ghost predicate Adds(all: Wanted, wanted: Wanted, records: seq<Record>, required: bool) {
    && all.Keys == wanted.Keys + IdsOf(records)
    && (forall r :: r in records ==> r.id in all && all[r.id] == (r.digest, required))
    && (forall id :: id in wanted && id !in IdsOf(records) ==> all[id] == wanted[id])
  }

  lemma {:induction false} AddsStep(all: Wanted, wanted: Wanted, records: seq<Record>, r: Record, required: bool)
    requires Adds(all, wanted, records, required) && forall o :: o in records && o.id == r.id ==> o == r
    ensures Adds(all[r.id := (r.digest, required)], wanted, records + [r], required)
  {
  }

  lemma {:induction false} UniqueAt(records: seq<Record>, i: nat)
    requires IdsUnique(SetOf(records)) && i < |records|
    ensures forall o :: o in records[..i] && o.id == records[i].id ==> o == records[i]
  {
  }

  method WantAlso(wanted: Wanted, records: seq<Record>, required: bool) returns (all: Wanted)
    requires IdsUnique(SetOf(records))
    ensures Adds(all, wanted, records, required)
  {
    all := wanted;
    assert records[..0] == [];
    for i := 0 to |records|
      invariant Adds(all, wanted, records[..i], required)
    {
      hide Adds, IdsUnique;
      var r := records[i];
      UniqueAt(records, i);
      AddsStep(all, wanted, records[..i], r, required);
      assert records[..i + 1] == records[..i] + [r];
      all := all[r.id := (r.digest, required)];
    }
    assert records[..|records|] == records;
  }

  ghost predicate WantedItem(wanted: Wanted, s: Sent) {
    s.id.Some? && s.id.value in wanted && s.digest == Some(wanted[s.id.value].0)
  }

  /** Every event of the reply is wanted and unaltered, and none comes twice. */
  ghost predicate AllWanted(wanted: Wanted, actual: seq<Sent>) {
    && (forall s :: s in actual ==> WantedItem(wanted, s))
    && Distinct(actual)
  }

  ghost function RequiredIn(wanted: Wanted, actual: seq<Sent>): set<Id> {
    set id | id in wanted && wanted[id].1 && Sent(Some(id), Some(wanted[id].0)) in actual
  }

  /** The loop of both `matches`: how many required events a reply holds, or
      None where an event is unknown, altered or repeated. */
  method CountReply(wanted: Wanted, actual: seq<Sent>) returns (required: Option<nat>)
    ensures required.Some? <==> AllWanted(wanted, actual)
    ensures required.Some? ==> required.value == |RequiredIn(wanted, actual)|
  {
    var seen: set<Id> := {};
    var count := 0;
    for i := 0 to |actual|
      invariant AllWanted(wanted, actual[..i])
      invariant forall id :: id in seen <==> id in wanted && Sent(Some(id), Some(wanted[id].0)) in actual[..i]
      invariant count == |RequiredIn(wanted, actual[..i])|
    {
      var s := actual[i];
      assert actual[..i + 1] == actual[..i] + [s];
      assert s in actual;
      if s.id.None? || s.id.value !in wanted || s.digest != Some(wanted[s.id.value].0) {
        return None;
      }
      if s.id.value in seen {
        assert s in actual[..i];
        assert !Distinct(actual);
        return None;
      }
      seen := seen + {s.id.value};
      CountStep(wanted, actual[..i], s);
      hide RequiredIn, AllWanted;
      count := count + if wanted[s.id.value].1 then 1 else 0;
    }
    assert actual[..|actual|] == actual;
    return Some(count);
  }

  lemma {:induction false} CountStep(wanted: Wanted, actual: seq<Sent>, s: Sent)
    requires AllWanted(wanted, actual) && WantedItem(wanted, s) && s !in actual
    ensures AllWanted(wanted, actual + [s])
    ensures |RequiredIn(wanted, actual + [s])| == |RequiredIn(wanted, actual)| + if wanted[s.id.value].1 then 1 else 0
  {
    var more := if wanted[s.id.value].1 then {s.id.value} else {};
    assert RequiredIn(wanted, actual + [s]) == RequiredIn(wanted, actual) + more;
    assert s == Sent(Some(s.id.value), Some(wanted[s.id.value].0));
  }

  /** Counting accepts exactly the newest replies. */
  ghost predicate Counts(wanted: Wanted, required: nat, count: nat, actual: seq<Sent>) {
    |actual| == count && AllWanted(wanted, actual) && |RequiredIn(wanted, actual)| == required
  }

  /** The newest `count` hold everything after the cut and nothing before it. */
  lemma {:induction false} NewestIsBetween(matches: set<Record>, cut: nat, count: nat, must: set<Record>,
                                           tied: set<Record>, taken: set<Record>)
    requires must == set m | m in matches && m.createdAt > cut
    requires tied == set m | m in matches && m.createdAt == cut
    requires |must| < count <= |must + tied|
    requires Newest(matches, taken, count, RecordStamp)
    ensures must <= taken <= must + tied
  {
    if r :| r in must && r !in taken {
      assert forall t :: t in taken ==> t.createdAt >= r.createdAt;
      SubsetSize(taken, must);
    }
    if t :| t in taken && t !in must + tied {
      assert forall m :: m in must + tied ==> m in taken;
      SubsetSize(must + tied + {t}, taken);
    }
  }

  lemma {:induction false} BetweenIsNewest(matches: set<Record>, cut: nat, count: nat, must: set<Record>,
                                           tied: set<Record>, taken: set<Record>)
    requires must == set m | m in matches && m.createdAt > cut
    requires tied == set m | m in matches && m.createdAt == cut
    requires |taken| == count && must <= taken <= must + tied
    ensures Newest(matches, taken, count, RecordStamp)
  {
  }

  /** A reply that lies between the required and the tied matches, and only such, is the newest. */
  lemma {:induction false} SplitIsNewest(matches: set<Record>, count: nat, x: Expected, taken: set<Record>)
    requires Splits(matches, count, x) && taken <= matches && count <= |matches|
    ensures Newest(matches, taken, count, RecordStamp)
       <==> |taken| == count && SetOf(x.required) <= taken <= SetOf(x.required) + SetOf(x.tied)
  {
    var must, tied := SetOf(x.required), SetOf(x.tied);
    DistinctSize(x.required);
    DistinctSize(x.tied);
    if x.take == 0 {
      if |taken| == count { SubsetSize(taken, if count == 0 then {} else matches); }
    } else {
      assert must !! tied;
      var cut := x.tied[0].createdAt;
      if Newest(matches, taken, count, RecordStamp) {
        NewestIsBetween(matches, cut, count, must, tied, taken);
      }
      if |taken| == count && must <= taken <= must + tied {
        BetweenIsNewest(matches, cut, count, must, tied, taken);
      }
    }
  }

  lemma {:induction false} ShownGrows(matches: set<Record>, rest: seq<Sent>, m: Record)
    requires IdsUnique(matches) && m in matches && AsSent(m) !in rest
    ensures |Shown(matches, rest + [AsSent(m)])| == |Shown(matches, rest)| + 1
  {
    assert Shown(matches, rest + [AsSent(m)]) == Shown(matches, rest) + {m};
  }

  lemma {:induction false} ShownSize(matches: set<Record>, actual: seq<Sent>)
    requires IdsUnique(matches) && Distinct(actual)
    requires forall s :: s in actual ==> exists m :: m in matches && AsSent(m) == s
    ensures |Shown(matches, actual)| == |actual|
  {
    if actual != [] {
      var n := |actual| - 1;
      var rest := actual[..n];
      assert forall s :: s in rest ==> s in actual;
      assert actual[n] in actual;
      var m :| m in matches && AsSent(m) == actual[n];
      assert actual == rest + [actual[n]] && actual[n] !in rest;
      hide Shown, IdsUnique, AsSent;
      ShownSize(matches, rest);
      ShownGrows(matches, rest, m);
    }
  }

  /** What is wanted of a reply are the matches of `x`. */
  lemma {:induction false} WantedIsMatch(x: Expected, wanted: Wanted, s: Sent)
    requires Separate(x) && Wants(wanted, x)
    ensures WantedItem(wanted, s) <==> exists m :: m in SetOf(x.required) + SetOf(x.tied) && AsSent(m) == s
  {
    if WantedItem(wanted, s) {
      var m :| m in SetOf(x.required) + SetOf(x.tied) && m.id == s.id.value;
      assert AsSent(m) == s;
    }
  }

  lemma {:induction false} IdsOfSize(records: seq<Record>)
    requires Distinct(records) && IdsUnique(SetOf(records))
    ensures |IdsOf(records)| == |records|
  {
    if records != [] {
      var n := |records| - 1;
      var rest := records[..n];
      assert records == rest + [records[n]];
      assert SetOf(rest) <= SetOf(records);
      IdsOfSize(rest);
      assert IdsOf(records) == IdsOf(rest) + {records[n].id};
      assert records[n].id !in IdsOf(rest) by {
        forall r | r in rest
          ensures r.id != records[n].id
        {
          assert r in SetOf(records) && records[n] in SetOf(records);
        }
      }
    }
  }

  lemma {:induction false} RequiredCount(x: Expected, wanted: Wanted, actual: seq<Sent>)
    requires Separate(x) && Wants(wanted, x) && Distinct(x.required)
    ensures |RequiredIn(wanted, actual)| == |x.required| <==> forall r :: r in x.required ==> AsSent(r) in actual
  {
    assert SetOf(x.required) <= SetOf(x.required) + SetOf(x.tied);
    IdsOfSize(x.required);
    var found, all := RequiredIn(wanted, actual), IdsOf(x.required);
    assert found <= all;
    SubsetSize(found, all);
    if forall r :: r in x.required ==> AsSent(r) in actual {
      assert all <= found;
    }
    if found == all {
      forall r | r in x.required
        ensures AsSent(r) in actual
      {
        assert r.id in found;
      }
    }
  }

  lemma {:induction false} SplitSeparate(matches: set<Record>, count: nat, x: Expected)
    requires Splits(matches, count, x) && IdsUnique(matches)
    ensures Separate(x)
    ensures SetOf(x.required) + SetOf(x.tied) <= matches
  {
    forall r | r in x.required
      ensures r !in x.tied && r in matches
    {
      assert r in SetOf(x.required);
      assert r in x.tied ==> r in SetOf(x.tied);
    }
    forall r | r in x.tied
      ensures r in matches
    {
      assert r in SetOf(x.tied);
    }
  }

  /** Counting accepts a reply iff it is the newest `count` matches. */
  lemma {:induction false} CountsIsNewest(matches: set<Record>, count: nat, x: Expected, wanted: Wanted,
                                          actual: seq<Sent>)
    requires Splits(matches, count, x) && IdsUnique(matches) && count <= |matches| && Wants(wanted, x)
    ensures Counts(wanted, |x.required|, count, actual) <==> NewestReply(matches, count, actual)
  {
    SplitSeparate(matches, count, x);
    var may := SetOf(x.required) + SetOf(x.tied);
    var shown := Shown(matches, actual);
    RequiredCount(x, wanted, actual);
    SplitIsNewest(matches, count, x, shown);
    forall s | s in actual
      ensures WantedItem(wanted, s) <==> exists m :: m in may && AsSent(m) == s
    {
      WantedIsMatch(x, wanted, s);
    }
    if Counts(wanted, |x.required|, count, actual) {
      assert forall s :: s in actual ==> exists m :: m in may && AsSent(m) == s;
      ShownSize(matches, actual);
    }
    if NewestReply(matches, count, actual) {
      ShownSize(matches, actual);
      forall s | s in actual
        ensures exists m :: m in may && AsSent(m) == s
      {
        var m :| m in matches && AsSent(m) == s;
        assert m in shown;
      }
      forall r | r in x.required
        ensures AsSent(r) in actual
      {
        assert r in SetOf(x.required);
      }
    }
  }

  /** `Expected::matches`. */
  method ExpectedMatches(x: Expected, actual: seq<Sent>, ghost matches: set<Record>, ghost count: nat)
    returns (ok: bool)
    requires Splits(matches, count, x) && IdsUnique(matches) && count <= |matches|
    ensures ok <==> NewestReply(matches, count, actual)
  {
    SplitSeparate(matches, count, x);
    if |actual| != x.Len() {
      if NewestReply(matches, count, actual) { ShownSize(matches, actual); }
      ok := false;
      return;
    }
    var wanted := WantedBy(x);
    var required := CountReply(wanted, actual);
    ok := required == Some(|x.required|);
    CountsIsNewest(matches, count, x, wanted, actual);
  }

  /** What `Expected::matches` needs of an answer, taken out of the corpus. */
  datatype OwnedExpected = OwnedExpected(wanted: Wanted, required: nat, count: nat)

  /** Counting against the copy accepts exactly the newest replies. */
  ghost predicate Judges(o: OwnedExpected, matches: set<Record>, count: nat) {
    forall actual :: Counts(o.wanted, o.required, o.count, actual) <==> NewestReply(matches, count, actual)
  }

  /** `Expected::owned`. */
  method Owned(x: Expected, ghost matches: set<Record>, ghost count: nat) returns (o: OwnedExpected)
    requires Splits(matches, count, x) && IdsUnique(matches) && count <= |matches|
    ensures Wants(o.wanted, x) && o.required == |x.required| && o.count == x.Len()
    ensures Judges(o, matches, count)
  {
    hide Counts, NewestReply;
    SplitSeparate(matches, count, x);
    var wanted := WantedBy(x);
    o := OwnedExpected(wanted, |x.required|, x.Len());
    forall actual
      ensures Counts(o.wanted, o.required, o.count, actual) <==> NewestReply(matches, count, actual)
    {
      CountsIsNewest(matches, count, x, wanted, actual);
    }
  }

  /** `OwnedExpected::matches`: on a copy `Owned` made, the same answer as
      `ExpectedMatches` gives. */
  method OwnedMatches(o: OwnedExpected, actual: seq<Sent>, ghost matches: set<Record>, ghost count: nat)
    returns (ok: bool)
    ensures ok <==> Counts(o.wanted, o.required, o.count, actual)
    ensures Judges(o, matches, count) ==> (ok <==> NewestReply(matches, count, actual))
  {
    if |actual| != o.count {
      ok := false;
      return;
    }
    var required := CountReply(o.wanted, actual);
    ok := required == Some(o.required);
  }

  /** Every accepted reply reaches back to the same time, and `Oldest` is it. */
  lemma {:induction false} OldestOfReply(matches: set<Record>, count: nat, x: Expected, actual: seq<Sent>)
    requires Splits(matches, count, x) && IdsUnique(matches) && count <= |matches|
    requires NewestReply(matches, count, actual)
    ensures x.Oldest().None? <==> actual == []
    ensures actual != [] ==>
      && (exists m :: m in Shown(matches, actual) && m.createdAt == x.Oldest().value)
      && (forall m :: m in Shown(matches, actual) ==> m.createdAt >= x.Oldest().value)
  {
    ShownSize(matches, actual);
    SplitIsNewest(matches, count, x, Shown(matches, actual));
    OldestOfTaken(matches, count, x, Shown(matches, actual));
  }

  lemma {:induction false} OldestOfTaken(matches: set<Record>, count: nat, x: Expected, taken: set<Record>)
    requires Splits(matches, count, x) && |taken| == count
    requires SetOf(x.required) <= taken <= SetOf(x.required) + SetOf(x.tied)
    ensures x.Oldest().None? <==> taken == {}
    ensures taken != {} ==>
      && (exists m :: m in taken && m.createdAt == x.Oldest().value)
      && (forall m :: m in taken ==> m.createdAt >= x.Oldest().value)
  {
    var must, tied := SetOf(x.required), SetOf(x.tied);
    DistinctSize(x.required);
    if x.take > 0 {
      assert taken - must != {} by {
        if taken - must == {} { SubsetSize(taken, must); }
      }
      var m :| m in taken - must;
      assert m in tied;
    } else if x.required != [] {
      assert x.required[|x.required| - 1] in must;
    }
  }
}
