/**
 The publish-rate workload (rate.rs): how sequence numbers are dealt to
 connections, and how a run's log is reconciled with the relay's export.
 */
module Rate {

  import opened Basics

  type Id = nat

  // ------------------------------------------------------------------
  // Dealing
  // ------------------------------------------------------------------

  function LaneSize(total: nat, conns: nat, conn: nat): nat
    requires conn < conns
  {
    total / conns + if conn < total % conns then 1 else 0
  }

  /** The sequence numbers of one connection, in sending order. */
  function Lane(total: nat, conns: nat, conn: nat): seq<nat>
    requires conn < conns
  {
    seq(LaneSize(total, conns, conn), k requires 0 <= k => Dealt(conns, conn, k))
  }

  function Dealt(conns: nat, conn: nat, k: nat): nat {
    k * conns + conn
  }

  lemma {:induction false} SamePlace(c: nat, q: nat, r: nat, k: nat, m: nat)
    requires r < c && m < c && q * c + r == k * c + m
    ensures q == k && r == m
  {
    if q < k {
      BlockOrder(c, q, k, r);
    } else if k < q {
      BlockOrder(c, k, q, m);
    }
  }

  lemma {:induction false} BelowTotal(total: nat, conns: nat, conn: nat, k: nat)
    requires conn < conns
    ensures k * conns + conn < total <==> k < LaneSize(total, conns, conn)
  {
    var q, r := total / conns, total % conns;
    Quotient(total, conns);
    if k < q {
      BlockOrder(conns, k, q, conn);
    } else if q < k {
      BlockOrder(conns, q, k, r);
    }
  }

  lemma {:induction false} LaneIncreases(total: nat, conns: nat, conn: nat)
    requires conn < conns
    ensures Increasing(Lane(total, conns, conn))
  {
    hide LaneSize;
    forall i: nat, j: nat | i < j < LaneSize(total, conns, conn)
      ensures Dealt(conns, conn, i) < Dealt(conns, conn, j)
    {
      BlockOrder(conns, i, j, conn);
    }
  }

  lemma {:induction false} OnlyItsOwn(total: nat, conns: nat, conn: nat, k: nat)
    requires conn < conns && k < LaneSize(total, conns, conn)
    ensures Dealt(conns, conn, k) < total && Dealt(conns, conn, k) % conns == conn
  {
    hide LaneSize;
    var s := Dealt(conns, conn, k);
    Quotient(s, conns);
    SamePlace(conns, s / conns, s % conns, k, conn);
    BelowTotal(total, conns, conn, k);
  }

  lemma {:induction false} AllItsOwn(total: nat, conns: nat, s: nat)
    requires s < total && conns > 0
    ensures s / conns < LaneSize(total, conns, s % conns) && Dealt(conns, s % conns, s / conns) == s
  {
    Quotient(s, conns);
    BelowTotal(total, conns, s % conns, s / conns);
  }

  /** A number goes to the connection its remainder names, below the total. */
  lemma {:induction false} LaneHolds(total: nat, conns: nat, conn: nat, s: nat)
    requires conn < conns
    ensures s in Lane(total, conns, conn) <==> s < total && s % conns == conn
  {
    hide LaneSize, Dealt;
    var lane := Lane(total, conns, conn);
    if s in lane {
      var k :| 0 <= k < |lane| && lane[k] == s;
      OnlyItsOwn(total, conns, conn, k);
    }
    if s < total && s % conns == conn {
      AllItsOwn(total, conns, s);
      assert lane[s / conns] == s;
    }
  }

  /** `plan`: the lanes in connection order, whatever the number of threads
      that make them. */
  method Plan(total: nat, conns: nat, threads: nat) returns (lanes: seq<seq<nat>>)
    requires conns > 0 && threads > 0
    ensures |lanes| == conns && forall c :: 0 <= c < conns ==> lanes[c] == Lane(total, conns, c)
  {
    var perThread := (conns + threads - 1) / threads;
    assert perThread > 0 by {
      assert conns + threads - 1 >= threads;
    }
    lanes := [];
    var first := 0;
    while first < conns
      invariant |lanes| == if first < conns then first else conns
      invariant forall c :: 0 <= c < |lanes| ==> lanes[c] == Lane(total, conns, c)
    {
      var end := if first + perThread < conns then first + perThread else conns;
      for conn := first to end
        invariant |lanes| == conn
        invariant forall c :: 0 <= c < |lanes| ==> lanes[c] == Lane(total, conns, c)
      {
        lanes := lanes + [Lane(total, conns, conn)];
      }
      first := first + perThread;
    }
  }

  /** Every number below the total is in exactly one lane, and nothing else
      is in any. */
  lemma {:induction false} DealtOnce(total: nat, conns: nat, lanes: seq<seq<nat>>, s: nat)
    requires conns > 0 && |lanes| == conns && forall c :: 0 <= c < conns ==> lanes[c] == Lane(total, conns, c)
    ensures s < total ==> s in lanes[s % conns]
    ensures forall c :: 0 <= c < conns && s in lanes[c] ==> s < total && c == s % conns
    ensures forall c :: 0 <= c < conns ==> Increasing(lanes[c])
  {
    forall c | 0 <= c < conns
      ensures s in lanes[c] <==> s < total && s % conns == c
      ensures Increasing(lanes[c])
    {
      LaneHolds(total, conns, c, s);
      LaneIncreases(total, conns, c);
    }
  }

  // ------------------------------------------------------------------
  // Reconciling
  // ------------------------------------------------------------------

  /** A line of the log: its id, unless it cannot be read, the relay's reply,
      and the prefix of the reply's message. */
  datatype Entry = Entry(id: Option<Id>, ok: Option<bool>, prefix: string)

  /** A line of the export. One that is an event may still have a bad id. */
  datatype ExportLine = Unreadable | Exported(id: Option<Id>)

  datatype Outcomes = Outcomes(
    events: nat,
    ackedStored: nat,
    ackedMissing: nat,
    refused: multiset<string>,
    refusedStored: nat,
    noReplyStored: nat,
    noReplyMissing: nat,
    missingIds: seq<Id>)

  const LISTED: nat := 20

  const Nothing: Outcomes := Outcomes(0, 0, 0, multiset{}, 0, 0, 0, [])

  function Counted(o: Outcomes, id: Id, ok: Option<bool>, stored: bool): Outcomes {
    var o := o.(events := o.events + 1);
    match ok
    case Some(true) =>
      if stored then o.(ackedStored := o.ackedStored + 1)
      else o.(ackedMissing := o.ackedMissing + 1,
              missingIds := if |o.missingIds| < LISTED then o.missingIds + [id] else o.missingIds)
    case Some(false) => o.(refusedStored := o.refusedStored + if stored then 1 else 0)
    case None => if stored then o.(noReplyStored := o.noReplyStored + 1) else o.(noReplyMissing := o.noReplyMissing + 1)
  }

  /** The places of a log whose events have one reply and are stored, or not. */
  ghost function With(log: seq<Entry>, stored: set<Id>, ok: Option<bool>, isStored: bool): set<nat> {
    set k: nat | k < |log| && Has(log[k], stored, ok, isStored)
  }

  predicate Has(e: Entry, stored: set<Id>, ok: Option<bool>, isStored: bool) {
    e.ok == ok && IsStored(e, stored) == isStored
  }

  predicate IsStored(e: Entry, stored: set<Id>) {
    e.id.Some? && e.id.value in stored
  }

  lemma {:induction false} NextWith(log: seq<Entry>, stored: set<Id>, ok: Option<bool>, isStored: bool, n: nat)
    requires n < |log|
    ensures |With(log[..n + 1], stored, ok, isStored)| ==
      |With(log[..n], stored, ok, isStored)| + if Has(log[n], stored, ok, isStored) then 1 else 0
  {
    hide Has;
    var has := Has(log[n], stored, ok, isStored);
    var before, after := With(log[..n], stored, ok, isStored), With(log[..n + 1], stored, ok, isStored);
    forall k: nat
      ensures k in after <==> k in before || (k == n && has)
    {
      assert k < n ==> log[..n + 1][k] == log[..n][k];
    }
    assert after == before + if has then {n} else {};
    assert n !in before;
  }

  /** The prefixes of the refusals. */
  function Refusals(log: seq<Entry>): seq<string> {
    if log == [] then []
    else Refusals(log[..|log| - 1]) + if log[|log| - 1].ok == Some(false) then [log[|log| - 1].prefix] else []
  }

  predicate IsRefusal(e: Entry, prefix: string) {
    e.ok == Some(false) && e.prefix == prefix
  }

  /** The places of the refusals with a prefix. */
  ghost function RefusedWith(log: seq<Entry>, prefix: string): set<nat> {
    set k: nat | k < |log| && IsRefusal(log[k], prefix)
  }

  lemma {:induction false} NextRefused(log: seq<Entry>, n: nat, prefix: string)
    requires n < |log|
    ensures |RefusedWith(log[..n + 1], prefix)| ==
      |RefusedWith(log[..n], prefix)| + if IsRefusal(log[n], prefix) then 1 else 0
  {
    hide IsRefusal;
    var more := IsRefusal(log[n], prefix);
    var before, after := RefusedWith(log[..n], prefix), RefusedWith(log[..n + 1], prefix);
    forall k: nat
      ensures k in after <==> k in before || (k == n && more)
    {
      assert k < n ==> log[..n + 1][k] == log[..n][k];
    }
    assert after == before + if more then {n} else {};
    assert n !in before;
  }

  lemma {:induction false} RefusalsCount(log: seq<Entry>, prefix: string)
    ensures multiset(Refusals(log))[prefix] == |RefusedWith(log, prefix)|
  {
    if log == [] {
      assert RefusedWith(log, prefix) == {};
    } else {
      hide *;
      var n := |log| - 1;
      RefusalsCount(log[..n], prefix);
      assert log[..n + 1] == log;
      NextRefused(log, n, prefix);
      LastRefusal(log, prefix);
    }
  }

  lemma {:induction false} LastRefusal(log: seq<Entry>, prefix: string)
    requires log != []
    ensures multiset(Refusals(log))[prefix] ==
      multiset(Refusals(log[..|log| - 1]))[prefix] + if IsRefusal(log[|log| - 1], prefix) then 1 else 0
  {
  }

  /** The acknowledged events that are not stored, in the log's order. */
  function Lost(log: seq<Entry>, stored: set<Id>): seq<Id>
    requires forall k :: 0 <= k < |log| ==> log[k].id.Some?
  {
    if log == [] then []
    else
      var e := log[|log| - 1];
      Lost(log[..|log| - 1], stored) + if e.ok == Some(true) && !IsStored(e, stored) then [e.id.value] else []
  }

  /** Each count is the number of events with that reply and that fate, and
      the first lost events are listed. */
  ghost predicate Reconciled(log: seq<Entry>, stored: set<Id>, o: Outcomes)
    requires forall k :: 0 <= k < |log| ==> log[k].id.Some?
  {
    && o.events == |log|
    && o.ackedStored == |With(log, stored, Some(true), true)|
    && o.ackedMissing == |With(log, stored, Some(true), false)|
    && o.refusedStored == |With(log, stored, Some(false), true)|
    && o.noReplyStored == |With(log, stored, None, true)|
    && o.noReplyMissing == |With(log, stored, None, false)|
    && o.missingIds == Lost(log, stored)[..Min(LISTED, |Lost(log, stored)|)]
  }

  /** The lost event at a place stands in the list at the number of lost
      events before it. */
  lemma {:induction false} LostAt(log: seq<Entry>, stored: set<Id>, k: nat)
    requires forall k :: 0 <= k < |log| ==> log[k].id.Some?
    requires k < |log| && log[k].ok == Some(true) && !IsStored(log[k], stored)
    ensures
      var rank := |With(log[..k], stored, Some(true), false)|;
      rank < |Lost(log, stored)| && Lost(log, stored)[rank] == log[k].id.value
  {
    hide With, IsStored;
    var n := |log| - 1;
    if k < n {
      assert log[..n][..k] == log[..k];
      LostAt(log[..n], stored, k);
    } else {
      SizesAddUp(log[..n], stored);
    }
  }

  lemma {:induction false} CountsNext(log: seq<Entry>, stored: set<Id>, n: nat, o: Outcomes)
    requires n < |log| && forall k :: 0 <= k < |log| ==> log[k].id.Some?
    requires Reconciled(log[..n], stored, o)
    ensures Reconciled(log[..n + 1], stored, Counted(o, log[n].id.value, log[n].ok, IsStored(log[n], stored)))
  {
    hide With;
    NextWith(log, stored, Some(true), true, n);
    NextWith(log, stored, Some(true), false, n);
    NextWith(log, stored, Some(false), true, n);
    NextWith(log, stored, None, true, n);
    NextWith(log, stored, None, false, n);
    assert log[..n + 1][..n] == log[..n];
  }

  /** Every event has exactly one outcome. */
  lemma {:induction false} OutcomesAddUp(log: seq<Entry>, stored: set<Id>, o: Outcomes)
    requires forall k :: 0 <= k < |log| ==> log[k].id.Some?
    requires Reconciled(log, stored, o) && o.refused == multiset(Refusals(log))
    ensures o.ackedStored + o.ackedMissing + |o.refused| + o.noReplyStored + o.noReplyMissing == o.events
    ensures o.refusedStored <= |o.refused|
    ensures |o.missingIds| == Min(LISTED, o.ackedMissing)
  {
    SizesAddUp(log, stored);
  }

  lemma {:induction false} SizesAddUp(log: seq<Entry>, stored: set<Id>)
    requires forall k :: 0 <= k < |log| ==> log[k].id.Some?
    ensures |With(log, stored, Some(true), true)| + |With(log, stored, Some(true), false)| + |Refusals(log)|
      + |With(log, stored, None, true)| + |With(log, stored, None, false)| == |log|
    ensures |With(log, stored, Some(false), true)| <= |Refusals(log)|
    ensures |Lost(log, stored)| == |With(log, stored, Some(true), false)|
  {
    if log == [] {
      assert forall ok, isStored :: With(log, stored, ok, isStored) == {};
    } else {
      var n := |log| - 1;
      SizesAddUp(log[..n], stored);
      assert log[..n + 1] == log;
      NextWith(log, stored, Some(true), true, n);
      NextWith(log, stored, Some(true), false, n);
      NextWith(log, stored, Some(false), true, n);
      NextWith(log, stored, None, true, n);
      NextWith(log, stored, None, false, n);
      hide With, IsStored;
      match log[n].ok {
        case Some(ok) => assert log[n].ok == Some(true) || log[n].ok == Some(false);
        case None =>
      }
    }
  }

  /** A log is refused for a line that cannot be read or a repeated event. */
  predicate WellFormed(log: seq<Entry>) {
    && (forall k :: 0 <= k < |log| ==> log[k].id.Some?)
    && (forall j, k :: 0 <= j < k < |log| ==> log[j].id != log[k].id)
  }

  function Stored(exported: seq<ExportLine>): set<Id> {
    set x | x in exported && x.Exported? && x.id.Some? :: x.id.value
  }

  /** `reconcile`: the outcomes depend on the export only through the ids it
      holds, not on their order or repetition. */
  method Reconcile(log: seq<Entry>, exported: seq<ExportLine>) returns (r: Option<Outcomes>)
    ensures r.Some? <==> WellFormed(log) && Unreadable !in exported
    ensures r.Some? ==> r.value.refused == multiset(Refusals(log))
    ensures r.Some? ==> forall prefix :: r.value.refused[prefix] == |RefusedWith(log, prefix)|
    ensures r.Some? ==> ListsLost(log, Stored(exported), r.value)
    ensures r.Some? ==> Reconciled(log, Stored(exported), r.value)
  {
    hide Stored;
    var index, refused := Index(log);
    if index.None? {
      return None;
    }
    var marks := Mark(log, index.value, exported);
    if marks.None? {
      return None;
    }
    var o := Nothing;
    NothingYet(log, Stored(exported));
    for k := 0 to |log|
      invariant Reconciled(log[..k], Stored(exported), o)
    {
      hide Reconciled, Counted;
      CountsNext(log, Stored(exported), k, o);
      o := Counted(o, log[k].id.value, log[k].ok, marks.value[k]);
    }
    assert log[..|log|] == log;
    RefusalsBy(log);
    FirstLost(log, Stored(exported), o);
    return Some(o.(refused := refused));
  }

  /** The first lost events, in the log's order. */
  ghost predicate ListsLost(log: seq<Entry>, stored: set<Id>, o: Outcomes) {
    && |o.missingIds| == Min(LISTED, o.ackedMissing)
    && forall k: nat :: k < |log| && log[k].ok == Some(true) && !IsStored(log[k], stored) ==>
         var rank := |With(log[..k], stored, Some(true), false)|;
         rank < LISTED ==> rank < |o.missingIds| && Some(o.missingIds[rank]) == log[k].id
  }

  lemma {:induction false} FirstLost(log: seq<Entry>, stored: set<Id>, o: Outcomes)
    requires forall k :: 0 <= k < |log| ==> log[k].id.Some?
    requires Reconciled(log, stored, o)
    ensures ListsLost(log, stored, o)
  {
    hide With, IsStored;
    SizesAddUp(log, stored);
    forall k: nat | k < |log| && log[k].ok == Some(true) && !IsStored(log[k], stored)
      ensures
        var rank := |With(log[..k], stored, Some(true), false)|;
        rank < LISTED ==> rank < |o.missingIds| && Some(o.missingIds[rank]) == log[k].id
    {
      LostAt(log, stored, k);
    }
  }

  lemma {:induction false} RefusalsBy(log: seq<Entry>)
    ensures forall prefix :: multiset(Refusals(log))[prefix] == |RefusedWith(log, prefix)|
  {
    forall prefix
      ensures multiset(Refusals(log))[prefix] == |RefusedWith(log, prefix)|
    {
      RefusalsCount(log, prefix);
    }
  }

  lemma {:induction false} NothingYet(log: seq<Entry>, stored: set<Id>)
    ensures Reconciled(log[..0], stored, Nothing)
  {
    assert forall ok, isStored :: With(log[..0], stored, ok, isStored) == {};
  }

  /** The place of each id of a log, and the refusals by prefix. */
  method Index(log: seq<Entry>) returns (r: Option<map<Id, nat>>, refused: multiset<string>)
    ensures r.Some? <==> WellFormed(log)
    ensures r.Some? ==> Places(log, r.value) && refused == multiset(Refusals(log))
  {
    var index: map<Id, nat> := map[];
    refused := multiset{};
    for n := 0 to |log|
      invariant WellFormed(log[..n]) && Places(log[..n], index)
      invariant refused == multiset(Refusals(log[..n]))
    {
      Repeated(log, index, n);
      hide WellFormed, Places;
      assert log[..n + 1][..n] == log[..n];
      if log[n].id.None? || log[n].id.value in index {
        return None, refused;
      }
      NextPlace(log, index, n);
      index := index[log[n].id.value := n];
      if log[n].ok == Some(false) {
        refused := refused + multiset{log[n].prefix};
      }
    }
    assert log[..|log|] == log;
    r := Some(index);
  }

  lemma {:induction false} NextPlace(log: seq<Entry>, index: map<Id, nat>, n: nat)
    requires n < |log| && WellFormed(log[..n]) && Places(log[..n], index)
    requires log[n].id.Some? && log[n].id.value !in index
    ensures WellFormed(log[..n + 1]) && Places(log[..n + 1], index[log[n].id.value := n])
  {
  }

  /** An id that has a place already, or none, spoils the log. */
  lemma {:induction false} Repeated(log: seq<Entry>, index: map<Id, nat>, n: nat)
    requires n < |log| && Places(log[..n], index)
    ensures log[n].id.None? || log[n].id.value in index ==> !WellFormed(log)
  {
    if log[n].id.Some? && log[n].id.value in index {
      var k := index[log[n].id.value];
      assert log[..n][k] == log[k];
    }
  }

  ghost predicate Places(log: seq<Entry>, index: map<Id, nat>) {
    && (forall k :: 0 <= k < |log| ==> log[k].id.Some? && log[k].id.value in index && index[log[k].id.value] == k)
    && (forall id :: id in index ==> index[id] < |log| && log[index[id]].id == Some(id))
  }

  method Mark(log: seq<Entry>, index: map<Id, nat>, exported: seq<ExportLine>) returns (r: Option<seq<bool>>)
    requires Places(log, index)
    ensures r.Some? <==> Unreadable !in exported
    ensures r.Some? ==> |r.value| == |log| && forall k :: 0 <= k < |log| ==>
      (r.value[k] <==> IsStored(log[k], Stored(exported)))
  {
    var marks := seq(|log|, _ => false);
    for n := 0 to |exported|
      invariant |marks| == |log| && Unreadable !in exported[..n]
      invariant forall k :: 0 <= k < |log| ==> (marks[k] <==> Exported(log[k].id) in exported[..n])
    {
      assert exported[..n + 1] == exported[..n] + [exported[n]];
      if exported[n].Unreadable? {
        return None;
      }
      if exported[n].id.Some? && exported[n].id.value in index {
        marks := marks[index[exported[n].id.value] := true];
      }
    }
    assert exported[..|exported|] == exported;
    r := Some(marks);
  }
}
