/**
 The ledger audit of the matched-network runs (audit-timestamps.py): the
 sweep that reports how many send attempts were outstanding at once.
 Timestamps are microseconds.
 */
module Outstanding {

  import opened Basics

  /** When an attempt's send started, and when it completed. */
  datatype Row = Row(start: Option<nat>, end: Option<nat>)

  /** What `verify_rows` demands of the two timestamps. */
  predicate Accepted(row: Row) {
    row.end.Some? ==> row.start.Some? && row.start.value <= row.end.value
  }

  predicate AllAccepted(rows: seq<Row>) {
    forall i :: 0 <= i < |rows| ==> Accepted(rows[i])
  }

  /** The closed interval from start to completion holds the instant. An
      attempt never completed stays open. */
  predicate Holds(row: Row, t: nat) {
    row.start.Some? && row.start.value <= t && (row.end.Some? ==> t <= row.end.value)
  }

  function Active(rows: seq<Row>, t: nat): nat {
    if rows == [] then 0
    else Active(rows[..|rows| - 1], t) + (if Holds(rows[|rows| - 1], t) then 1 else 0)
  }

  function Unfinished(rows: seq<Row>): nat {
    if rows == [] then 0
    else
      var row := rows[|rows| - 1];
      Unfinished(rows[..|rows| - 1]) + (if row.start.Some? && row.end.None? then 1 else 0)
  }

  // ------------------------------------------------------------------
  // Changes and their order
  // ------------------------------------------------------------------

  datatype Change = Change(at: nat, delta: int)

  /** The sort key: time, and at the same time a start before a completion. */
  predicate Precedes(a: Change, b: Change) {
    a.at < b.at || (a.at == b.at && a.delta > b.delta)
  }

  predicate Sorted(s: seq<Change>) {
    forall i, j :: 0 <= i < j < |s| ==> !Precedes(s[j], s[i])
  }

  predicate Deltas(s: seq<Change>) {
    forall i :: 0 <= i < |s| ==> s[i].delta == 1 || s[i].delta == -1
  }

  /** Which changes a partial sum takes: those up to an instant, with the
      completions at that instant or without them. */
  datatype Cut = Cut(at: nat, ends: bool) | Everything

  predicate Within(c: Change, cut: Cut) {
    cut.Everything? || c.at < cut.at || (c.at == cut.at && (cut.ends || c.delta > 0))
  }

  function Net(s: seq<Change>, cut: Cut): int {
    if s == [] then 0
    else Net(s[..|s| - 1], cut) + (if Within(s[|s| - 1], cut) then s[|s| - 1].delta else 0)
  }

  lemma {:induction false} NetSplits(s: seq<Change>, k: nat, cut: Cut)
    requires k <= |s|
    ensures Net(s, cut) == Net(s[..k], cut) + Net(s[k..], cut)
  {
    if k < |s| {
      NetSplits(s[..|s| - 1], k, cut);
      assert s[..|s| - 1][..k] == s[..k] && s[k..][..|s| - k - 1] == s[..|s| - 1][k..];
    } else {
      assert s[..k] == s;
    }
  }

  lemma {:induction false} NetWhole(s: seq<Change>, cut: Cut)
    requires forall i :: 0 <= i < |s| ==> Within(s[i], cut)
    ensures Net(s, cut) == Net(s, Everything)
  {
    if s != [] {
      NetWhole(s[..|s| - 1], cut);
    }
  }

  lemma {:induction false} NetSign(s: seq<Change>, cut: Cut, up: bool)
    requires forall i :: 0 <= i < |s| && Within(s[i], cut) ==> if up then s[i].delta > 0 else s[i].delta < 0
    ensures if up then Net(s, cut) >= 0 else Net(s, cut) <= 0
  {
    if s != [] {
      NetSign(s[..|s| - 1], cut, up);
    }
  }

  lemma {:induction false} NetNothing(s: seq<Change>, cut: Cut)
    requires forall i :: 0 <= i < |s| ==> !Within(s[i], cut)
    ensures Net(s, cut) == 0
  {
    if s != [] {
      NetNothing(s[..|s| - 1], cut);
    }
  }

  // ------------------------------------------------------------------
  // Changes and rows
  // ------------------------------------------------------------------

  function ChangesOf(row: Row): seq<Change> {
    if row.start.None? then []
    else [Change(row.start.value, 1)] + (if row.end.Some? then [Change(row.end.value, -1)] else [])
  }

  function Changes(rows: seq<Row>): seq<Change> {
    if rows == [] then [] else Changes(rows[..|rows| - 1]) + ChangesOf(rows[|rows| - 1])
  }

  lemma {:induction false} NetOfRow(s: seq<Change>, row: Row, cut: Cut)
    ensures Net(s + ChangesOf(row), cut) == Net(s, cut)
      + (if row.start.Some? && Within(Change(row.start.value, 1), cut) then 1 else 0)
      - (if row.start.Some? && row.end.Some? && Within(Change(row.end.value, -1), cut) then 1 else 0)
  {
    var all := s + ChangesOf(row);
    if row.start.Some? && row.end.Some? {
      assert all[..|all| - 1] == s + [Change(row.start.value, 1)];
      assert all[..|all| - 1][..|s|] == s;
    } else {
      assert row.start.Some? ==> all[..|all| - 1] == s;
      assert row.start.None? ==> all == s;
    }
  }

  /** With an instant's completions left out, the sum is the attempts whose
      interval holds the instant; with them in, it cannot be negative; over
      everything it is the unfinished attempts. */
  lemma {:induction false} NetOfRows(rows: seq<Row>, t: nat)
    requires AllAccepted(rows)
    ensures Net(Changes(rows), Cut(t, false)) == Active(rows, t)
    ensures Net(Changes(rows), Cut(t, true)) >= 0
    ensures Net(Changes(rows), Everything) == Unfinished(rows)
  {
    if rows != [] {
      var init, row := rows[..|rows| - 1], rows[|rows| - 1];
      NetOfRows(init, t);
      assert Accepted(row);
      NetOfRow(Changes(init), row, Cut(t, false));
      NetOfRow(Changes(init), row, Cut(t, true));
      NetOfRow(Changes(init), row, Everything);
      assert Changes(rows) == Changes(init) + ChangesOf(row);
      hide Net, Changes, ChangesOf, AllAccepted;
    }
  }

  lemma {:induction false} ChangesAreDeltas(rows: seq<Row>)
    ensures Deltas(Changes(rows))
  {
    if rows != [] {
      ChangesAreDeltas(rows[..|rows| - 1]);
    }
  }

  // ------------------------------------------------------------------
  // Sorting
  // ------------------------------------------------------------------

  lemma {:induction false} InsertKeeps(s: seq<Change>, c: Change, cut: Cut)
    ensures Net(InsertBy(s, c, Precedes), cut) == Net(s + [c], cut)
  {
    var all := s + [c];
    assert all[..|s|] == s;
    if s != [] && Precedes(c, s[|s| - 1]) {
      var init := s[..|s| - 1];
      InsertKeeps(init, c, cut);
      assert (init + [c])[..|init|] == init;
      var r := InsertBy(init, c, Precedes) + [s[|s| - 1]];
      assert r[..|r| - 1] == InsertBy(init, c, Precedes);
    }
  }

  lemma {:induction false} InsertSorts(s: seq<Change>, c: Change)
    requires Sorted(s) && Deltas(s + [c])
    ensures Sorted(InsertBy(s, c, Precedes)) && Deltas(InsertBy(s, c, Precedes))
  {
    assert Orders(Precedes, SetOf(s) + {c}) && SortedBy(s, Precedes);
    InsertBySorts(s, c, Precedes);
    InsertByHas(s, c, Precedes);
    assert forall x :: x in s + [c] ==> x.delta == 1 || x.delta == -1;
  }

  /** The sorted changes sum up as the unsorted ones under every cut. */
  method Sort(changes: seq<Change>) returns (s: seq<Change>)
    requires Deltas(changes)
    ensures Sorted(s) && Deltas(s)
    ensures forall cut :: Net(s, cut) == Net(changes, cut)
  {
    s := [];
    for i := 0 to |changes|
      invariant Sorted(s) && Deltas(s)
      invariant forall cut :: Net(s, cut) == Net(changes[..i], cut)
    {
      var c := changes[i];
      forall cut
        ensures Net(InsertBy(s, c, Precedes), cut) == Net(changes[..i + 1], cut)
      {
        InsertKeeps(s, c, cut);
        assert (s + [c])[..|s|] == s && changes[..i + 1][..i] == changes[..i];
      }
      InsertSorts(s, c);
      s := InsertBy(s, c, Precedes);
    }
    assert changes[..|changes|] == changes;
  }

  // ------------------------------------------------------------------
  // The sweep
  // ------------------------------------------------------------------

  /** The running total after `k` changes. */
  function Total(s: seq<Change>, k: nat): int
    requires k <= |s|
  {
    Net(s[..k], Everything)
  }

  lemma {:induction false} TotalStep(s: seq<Change>, k: nat)
    requires k < |s|
    ensures Total(s, k + 1) == Total(s, k) + s[k].delta
  {
    assert s[..k + 1][..k] == s[..k];
  }

  /** Just after a start, the total is at most the sum cut at its instant. */
  lemma {:induction false} StartIsCovered(s: seq<Change>, k: nat)
    requires Sorted(s) && Deltas(s) && k < |s| && s[k].delta == 1
    ensures Total(s, k + 1) <= Net(s, Cut(s[k].at, false))
  {
    var cut := Cut(s[k].at, false);
    NetSplits(s, k + 1, cut);
    NetWhole(s[..k + 1], cut);
    NetSign(s[k + 1..], cut, true);
  }

  /** Just after a completion, the total is at least the sum cut after it. */
  lemma {:induction false} EndIsCovered(s: seq<Change>, k: nat)
    requires Sorted(s) && Deltas(s) && k < |s| && s[k].delta == -1
    ensures Total(s, k + 1) >= Net(s, Cut(s[k].at, true))
  {
    var cut := Cut(s[k].at, true);
    NetSplits(s, k + 1, cut);
    NetWhole(s[..k + 1], cut);
    NetSign(s[k + 1..], cut, false);
  }

  /** Every cut sum is the running total somewhere. */
  lemma {:induction false} CutIsReached(s: seq<Change>, t: nat) returns (k: nat)
    requires Sorted(s) && Deltas(s)
    ensures k <= |s| && Total(s, k) == Net(s, Cut(t, false))
  {
    var cut := Cut(t, false);
    k := 0;
    while k < |s| && Within(s[k], cut)
      invariant k <= |s| && forall i :: 0 <= i < k ==> Within(s[i], cut)
    {
      k := k + 1;
    }
    NetSplits(s, k, cut);
    NetWhole(s[..k], cut);
    assert forall i :: k <= i < |s| ==> !Within(s[i], cut);
    NetNothing(s[k..], cut);
  }

  ghost predicate SumsOf(s: seq<Change>, rows: seq<Row>) {
    forall cut :: Net(s, cut) == Net(Changes(rows), cut)
  }

  lemma {:induction false} StepIsCovered(s: seq<Change>, rows: seq<Row>, k: nat)
    requires Sorted(s) && Deltas(s) && SumsOf(s, rows) && AllAccepted(rows) && k < |s|
    ensures s[k].delta == 1 ==> Total(s, k + 1) <= Active(rows, s[k].at)
    ensures s[k].delta != 1 ==> 0 <= Total(s, k + 1) <= Total(s, k)
  {
    NetOfRows(rows, s[k].at);
    if s[k].delta == 1 {
      StartIsCovered(s, k);
    } else {
      EndIsCovered(s, k);
      TotalStep(s, k);
    }
  }

  lemma {:induction false} TotalOfRows(s: seq<Change>, rows: seq<Row>)
    requires SumsOf(s, rows) && AllAccepted(rows)
    ensures Total(s, |s|) == Unfinished(rows)
  {
    NetOfRows(rows, 0);
    assert s[..|s|] == s;
  }

  /** The peak is the largest number of attempts open at one instant, and
      the total never drops below zero and ends at the unfinished attempts. */
  method Outstanding(rows: seq<Row>) returns (peak: nat, unfinished: nat)
    requires AllAccepted(rows)
    ensures forall t: nat :: Active(rows, t) <= peak
    ensures exists t: nat :: Active(rows, t) == peak
    ensures unfinished == Unfinished(rows)
  {
    var changes := [];
    for i := 0 to |rows|
      invariant changes == Changes(rows[..i])
    {
      assert rows[..i + 1][..i] == rows[..i];
      if rows[i].start.Some? {
        changes := changes + [Change(rows[i].start.value, 1)];
        if rows[i].end.Some? {
          changes := changes + [Change(rows[i].end.value, -1)];
        }
      }
    }
    assert rows[..|rows|] == rows;
    ChangesAreDeltas(rows);
    var s := Sort(changes);
    peak, unfinished := Sweep(s, rows);
  }

  method Sweep(s: seq<Change>, ghost rows: seq<Row>) returns (peak: nat, value: nat)
    requires AllAccepted(rows)
    requires Sorted(s) && Deltas(s) && SumsOf(s, rows)
    ensures forall t: nat :: Active(rows, t) <= peak
    ensures exists t: nat :: Active(rows, t) == peak
    ensures value == Unfinished(rows)
  {
    hide Sorted, Active;
    peak, value := 0, 0;
    ghost var when: nat := 0;
    for k := 0 to |s|
      invariant value == Total(s, k)
      invariant forall j :: 0 <= j <= k ==> Total(s, j) <= peak
      invariant peak > 0 ==> peak <= Active(rows, when)
    {
      TotalStep(s, k);
      StepIsCovered(s, rows, k);
      value := value + s[k].delta;
      if value > peak {
        peak, when := value, s[k].at;
      }
    }
    forall t: nat
      ensures Active(rows, t) <= peak
    {
      var k := CutIsReached(s, t);
      NetOfRows(rows, t);
    }
    TotalOfRows(s, rows);
    assert Active(rows, when) == peak;
  }
}
