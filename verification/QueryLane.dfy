/**
 A reader lane of the matched-network workload (`reader` in
 matched_network.rs): a sender that starts queries on schedule and a
 receiver that judges the replies, over shared rows and a shared counter of
 pending queries.

 A step is one atomic access of either task, so a schedule is any
 interleaving. Of a row's times only their presence is kept. Replies are
 arbitrary. How a reply is judged is a parameter.
 */
module QueryLane {

  import opened Basics

  const PENDING: nat := 4096

  /** Events kept of one reply: one more than a right reply can hold. */
  const KEEP: nat := 51

  /** A query. `kept` is the receiver's list for it. */
  datatype Row<E> = Row(started: bool, received: nat, kept: seq<E>, eose: bool, matches: Option<bool>)

  /** Where the sender is: before its next query, past the counter but before
      the query is marked as started, sending it, or out of its loop, having
      counted a query it never started (`over`) or not. */
  datatype Sender = Waiting | Counted | Sending | Ended(over: bool)

  datatype State<E> = State(
    rows: seq<Row<E>>,
    next: nat,
    sender: Sender,
    pending: int,
    closes: seq<nat>,
    receiving: bool,
    errors: nat)

  /** A frame as the receiver reads it. `Refused` is any other frame of a
      known subscription, `Foreign` one that names none, or cannot be read. */
  datatype Frame<E> = Event(row: nat, event: E) | Eose(row: nat) | Refused(row: nat) | Foreign | Auth

  datatype Step<E> = Count | Start | Sent(ok: bool) | Receive(frame: Frame<E>) | Disconnect

  function Initial<E>(count: nat): State<E> {
    State(seq(count, _ => Row(false, 0, [], false, None)),
          0, if count == 0 then Ended(false) else Waiting, 0, [], true, 0)
  }

  predicate Enabled<E>(s: State<E>, step: Step<E>) {
    match step
    case Count => s.sender == Waiting
    case Start => s.sender == Counted
    case Sent(_) => s.sender == Sending
    case Receive(f) => s.receiving && (f.Event? || f.Eose? || f.Refused? ==> f.row < |s.rows|)
    case Disconnect => s.receiving
  }

  predicate IsOpen<E>(row: Row<E>) {
    row.started && !row.eose
  }

  function OpenRows<E>(rows: seq<Row<E>>): nat {
    if rows == [] then 0 else OpenRows(rows[..|rows| - 1]) + (if IsOpen(rows[|rows| - 1]) then 1 else 0)
  }

  lemma {:induction false} OpenRowsUpdate<E>(rows: seq<Row<E>>, i: nat, row: Row<E>)
    requires i < |rows|
    ensures OpenRows(rows[i := row]) ==
      OpenRows(rows) - (if IsOpen(rows[i]) then 1 else 0) + (if IsOpen(row) then 1 else 0)
  {
    var last := |rows| - 1;
    if i < last {
      OpenRowsUpdate(rows[..last], i, row);
      assert rows[i := row][..last] == rows[..last][i := row];
    } else {
      assert rows[i := row][..last] == rows[..last];
    }
  }

  lemma {:induction false} OpenRowsNone<E>(rows: seq<Row<E>>)
    requires forall i :: 0 <= i < |rows| ==> !IsOpen(rows[i])
    ensures OpenRows(rows) == 0
  {
    if rows != [] {
      OpenRowsNone(rows[..|rows| - 1]);
    }
  }

  // ------------------------------------------------------------------
  // Steps
  // ------------------------------------------------------------------

  /** What a right frame of an open query does to its row. */
  function Deliver<E>(row: Row<E>, event: E): Row<E> {
    var row := row.(received := row.received + 1);
    if |row.kept| < KEEP then row.(kept := row.kept + [event]) else row.(matches := Some(false))
  }

  function Finish<E>(judge: (nat, seq<E>) -> bool, row: Row<E>, i: nat): Row<E> {
    row.(eose := true, kept := [], matches := Some(row.received < KEEP && judge(i, row.kept)))
  }

  function OnFrame<E>(judge: (nat, seq<E>) -> bool, s: State<E>, f: Frame<E>): State<E>
    requires f.Event? || f.Eose? || f.Refused? ==> f.row < |s.rows|
  {
    if f.Auth? then s
    else if f.Foreign? || f.Refused? || !IsOpen(s.rows[f.row]) then s.(errors := s.errors + 1)
    else if f.Event? then s.(rows := s.rows[f.row := Deliver(s.rows[f.row], f.event)])
    else
      var closes := s.closes + [f.row];
      s.(rows := s.rows[f.row := Finish(judge, s.rows[f.row], f.row)], pending := s.pending - 1,
         closes := closes, receiving := |closes| != |s.rows|)
  }

  predicate SenderInRange<E>(s: State<E>) {
    s.sender.Ended? || s.next < |s.rows|
  }

  function Next<E>(judge: (nat, seq<E>) -> bool, s: State<E>, step: Step<E>): (s': State<E>)
    requires Enabled(s, step) && SenderInRange(s)
    ensures SenderInRange(s') && |s'.rows| == |s.rows|
  {
    match step
    case Count =>
      if s.pending >= PENDING then s.(pending := s.pending + 1, sender := Ended(true), errors := s.errors + 1)
      else s.(pending := s.pending + 1, sender := Counted)
    case Start =>
      s.(rows := s.rows[s.next := s.rows[s.next].(started := true)], sender := Sending)
    case Sent(ok) =>
      if !ok then s.(sender := Ended(false), errors := s.errors + 1)
      else s.(next := s.next + 1, sender := if s.next + 1 < |s.rows| then Waiting else Ended(false))
    case Receive(f) => OnFrame(judge, s, f)
    case Disconnect => s.(receiving := false, errors := s.errors + 1)
  }

  // ------------------------------------------------------------------
  // What every step keeps
  // ------------------------------------------------------------------

  /** Queries the counter holds beyond those open. */
  function Extra(sender: Sender): nat {
    if sender == Counted || sender == Ended(true) then 1 else 0
  }

  ghost predicate Fresh<E>(s: State<E>) {
    && (s.sender == Waiting || s.sender == Counted ==> forall i :: s.next <= i < |s.rows| ==> !s.rows[i].started)
    && (s.sender == Sending ==> forall i :: s.next < i < |s.rows| ==> !s.rows[i].started)
  }

  ghost predicate ClosedOnce<E>(s: State<E>) {
    && (forall i, j :: 0 <= i < j < |s.closes| ==> s.closes[i] != s.closes[j])
    && (forall i :: i in s.closes <==> 0 <= i < |s.rows| && s.rows[i].eose)
    && (forall i :: 0 <= i < |s.rows| && s.rows[i].eose ==> s.rows[i].started)
  }

  ghost predicate Counts<E>(s: State<E>) {
    && s.pending == OpenRows(s.rows) + Extra(s.sender)
    && OpenRows(s.rows) + (if s.sender == Counted then 1 else 0) <= PENDING
  }

  ghost predicate Inv<E>(s: State<E>) {
    SenderInRange(s) && Fresh(s) && ClosedOnce(s) && Counts(s)
  }

  lemma {:induction false} InitialInv<E>(count: nat)
    ensures Inv(Initial<E>(count))
  {
    OpenRowsNone(Initial<E>(count).rows);
  }

  lemma {:induction false} CountsStep<E>(judge: (nat, seq<E>) -> bool, s: State<E>, step: Step<E>)
    requires Inv(s) && Enabled(s, step)
    ensures Counts(Next(judge, s, step))
  {
    match step {
      case Start => OpenRowsUpdate(s.rows, s.next, s.rows[s.next].(started := true));
      case Receive(f) =>
        if f.Event? {
          OpenRowsUpdate(s.rows, f.row, Deliver(s.rows[f.row], f.event));
        } else if f.Eose? {
          OpenRowsUpdate(s.rows, f.row, Finish(judge, s.rows[f.row], f.row));
        }
      case _ =>
    }
  }

  lemma {:induction false} ClosedOnceStep<E>(judge: (nat, seq<E>) -> bool, s: State<E>, step: Step<E>)
    requires Inv(s) && Enabled(s, step)
    ensures ClosedOnce(Next(judge, s, step))
  {
  }

  lemma {:induction false} InvStep<E>(judge: (nat, seq<E>) -> bool, s: State<E>, step: Step<E>)
    requires Inv(s) && Enabled(s, step)
    ensures Inv(Next(judge, s, step))
  {
    hide Counts, ClosedOnce;
    CountsStep(judge, s, step);
    ClosedOnceStep(judge, s, step);
  }

  /** An open query is counted, so its completion cannot underflow the
      counter. */
  lemma {:induction false} OpenIsCounted<E>(rows: seq<Row<E>>, i: nat)
    requires i < |rows| && IsOpen(rows[i])
    ensures OpenRows(rows) > 0
  {
    if i < |rows| - 1 {
      OpenIsCounted(rows[..|rows| - 1], i);
    }
  }

  // ------------------------------------------------------------------
  // Runs
  // ------------------------------------------------------------------

  /** A run: any interleaving of enabled steps, and the states it passes. */
  datatype Run<E> = Run(states: seq<State<E>>, steps: seq<Step<E>>)

  ghost predicate Moves<E>(judge: (nat, seq<E>) -> bool, run: Run<E>, k: nat)
    requires k < |run.steps| && |run.states| == |run.steps| + 1
  {
    var s := run.states[k];
    Enabled(s, run.steps[k]) && SenderInRange(s) && run.states[k + 1] == Next(judge, s, run.steps[k])
  }

  ghost predicate IsRun<E>(judge: (nat, seq<E>) -> bool, run: Run<E>, count: nat) {
    && |run.states| == |run.steps| + 1
    && run.states[0] == Initial(count)
    && forall k :: 0 <= k < |run.steps| ==> Moves(judge, run, k)
  }

  lemma {:induction false} RunInv<E>(judge: (nat, seq<E>) -> bool, run: Run<E>, count: nat, k: nat)
    requires IsRun(judge, run, count) && k < |run.states|
    ensures Inv(run.states[k]) && |run.states[k].rows| == count
  {
    if k == 0 {
      InitialInv<E>(count);
    } else {
      RunInv(judge, run, count, k - 1);
      assert Moves(judge, run, k - 1);
      InvStep(judge, run.states[k - 1], run.steps[k - 1]);
    }
  }

  /** At every point of every run: never more than the bound of queries are
      started and not at their EOSE, the counter does not go below zero and
      stands for those queries plus at most one the sender counted but did
      not start, and no subscription is closed twice. */
  lemma {:induction false} Bounded<E>(judge: (nat, seq<E>) -> bool, run: Run<E>, count: nat, k: nat)
    requires IsRun(judge, run, count) && k < |run.states|
    ensures OpenRows(run.states[k].rows) <= PENDING
    ensures OpenRows(run.states[k].rows) <= run.states[k].pending <= OpenRows(run.states[k].rows) + 1
    ensures forall i, j :: 0 <= i < j < |run.states[k].closes| ==> run.states[k].closes[i] != run.states[k].closes[j]
  {
    RunInv(judge, run, count, k);
  }

  /** A query that reached its EOSE keeps its verdict for the rest of the run. */
  lemma {:induction false} VerdictIsFinal<E>(judge: (nat, seq<E>) -> bool, run: Run<E>, count: nat, j: nat, k: nat,
                                             i: nat)
    requires IsRun(judge, run, count) && j <= k < |run.states| && i < count
    requires i < |run.states[j].rows| && run.states[j].rows[i].eose
    ensures i < |run.states[k].rows| && run.states[k].rows[i] == run.states[j].rows[i]
  {
    if j < k {
      VerdictIsFinal(judge, run, count, j, k - 1, i);
      assert Moves(judge, run, k - 1);
      RunInv(judge, run, count, k - 1);
      EndedRowStays(judge, run.states[k - 1], run.steps[k - 1], i);
    }
  }

  lemma {:induction false} EndedRowStays<E>(judge: (nat, seq<E>) -> bool, s: State<E>, step: Step<E>, i: nat)
    requires Inv(s) && Enabled(s, step) && i < |s.rows| && s.rows[i].eose
    ensures Next(judge, s, step).rows[i] == s.rows[i]
  {
  }

  // ------------------------------------------------------------------
  // Rows and errors, read off the steps
  // ------------------------------------------------------------------

  /** How many queries were started. */
  ghost function Starts<E>(run: Run<E>, k: nat): nat
    requires k <= |run.steps|
  {
    if k == 0 then 0 else Starts(run, k - 1) + if run.steps[k - 1].Start? then 1 else 0
  }

  /** An EOSE came for query `i` after it was started. */
  ghost predicate Eosed<E>(run: Run<E>, k: nat, i: nat)
    requires k <= |run.steps|
  {
    exists h :: 0 <= h < k && run.steps[h] == Receive(Frame.Eose(i)) && i < Starts(run, h)
  }

  ghost predicate IsBad<E>(run: Run<E>, k: nat)
    requires |run.states| == |run.steps| + 1 && k < |run.steps|
  {
    match run.steps[k]
    case Count => OpenRows(run.states[k].rows) >= PENDING
    case Start => false
    case Sent(ok) => !ok
    case Disconnect => true
    case Receive(f) =>
      match f
      case Auth => false
      case Foreign => true
      case Refused(_) => true
      case Event(i, _) => !(i < Starts(run, k) && !Eosed(run, k, i))
      case Eose(i) => !(i < Starts(run, k) && !Eosed(run, k, i))
  }

  /** How many queries a sender has marked. */
  function Begun<E>(s: State<E>): nat {
    if s.sender == Sending || (s.sender == Ended(false) && s.next < |s.rows|) then s.next + 1 else s.next
  }

  ghost predicate InTurn<E>(s: State<E>) {
    forall i :: 0 <= i < |s.rows| ==> (s.rows[i].started <==> i < Begun(s))
  }

  lemma {:induction false} InTurnStep<E>(judge: (nat, seq<E>) -> bool, s: State<E>, step: Step<E>)
    requires Inv(s) && Enabled(s, step) && InTurn(s)
    ensures InTurn(Next(judge, s, step))
    ensures Begun(Next(judge, s, step)) == Begun(s) + if step.Start? then 1 else 0
  {
  }

  /** The sender starts the queries one after the other. */
  lemma {:induction false} StartedInOrder<E>(judge: (nat, seq<E>) -> bool, run: Run<E>, count: nat, k: nat)
    requires IsRun(judge, run, count) && k < |run.states|
    ensures Starts(run, k) == Begun(run.states[k]) && InTurn(run.states[k]) && |run.states[k].rows| == count
    ensures forall i :: 0 <= i < count ==> (run.states[k].rows[i].started <==> i < Starts(run, k))
  {
    hide Inv, Next, Enabled, Initial, Begun;
    RunInv(judge, run, count, k);
    if k > 0 {
      StartedInOrder(judge, run, count, k - 1);
      MovesOn(judge, run, count, k - 1);
      InTurnStep(judge, run.states[k - 1], run.steps[k - 1]);
    } else {
      NoneBegun<E>(count);
    }
  }

  lemma {:induction false} NoneBegun<E>(count: nat)
    ensures Begun(Initial<E>(count)) == 0 && InTurn(Initial<E>(count))
  {
  }

  lemma {:induction false} EoseStep<E>(judge: (nat, seq<E>) -> bool, s: State<E>, step: Step<E>, i: nat)
    requires Inv(s) && Enabled(s, step) && i < |s.rows|
    ensures Next(judge, s, step).rows[i].eose <==>
      s.rows[i].eose || (step == Receive(Frame.Eose(i)) && s.rows[i].started)
  {
  }

  /** A query is over exactly if its EOSE came after it was started. */
  lemma {:induction false} OverIsEosed<E>(judge: (nat, seq<E>) -> bool, run: Run<E>, count: nat, k: nat, i: nat)
    requires IsRun(judge, run, count) && k < |run.states| && i < count
    ensures i < |run.states[k].rows| && (run.states[k].rows[i].eose <==> Eosed(run, k, i))
  {
    RunInv(judge, run, count, k);
    if k > 0 {
      var s, step := run.states[k - 1], run.steps[k - 1];
      assert Moves(judge, run, k - 1);
      RunInv(judge, run, count, k - 1);
      hide IsRun, Inv, Next, Enabled, Starts;
      OverIsEosed(judge, run, count, k - 1, i);
      StartedInOrder(judge, run, count, k - 1);
      EoseStep(judge, s, step, i);
      if Eosed(run, k, i) && !Eosed(run, k - 1, i) {
        var h :| 0 <= h < k && run.steps[h] == Receive(Frame.Eose(i)) && i < Starts(run, h);
        assert h == k - 1;
      }
    }
  }

  /** The places of the bad steps. */
  ghost function BadSteps<E>(run: Run<E>, k: nat): set<nat>
    requires |run.states| == |run.steps| + 1 && k <= |run.steps|
  {
    set j: nat | j < k && IsBad(run, j)
  }

  lemma {:induction false} ErrorStep<E>(judge: (nat, seq<E>) -> bool, run: Run<E>, count: nat, k: nat)
    requires IsRun(judge, run, count) && k < |run.steps|
    ensures run.states[k + 1].errors == run.states[k].errors + if IsBad(run, k) then 1 else 0
  {
    var s, step := run.states[k], run.steps[k];
    assert Moves(judge, run, k);
    RunInv(judge, run, count, k);
    StartedInOrder(judge, run, count, k);
    if step.Receive? && (step.frame.Event? || step.frame.Eose?) {
      OverIsEosed(judge, run, count, k, step.frame.row);
    }
    hide IsRun, Starts, Eosed, InTurn, Deliver, Finish;
  }

  /** Every error counted is a bad step, and every bad step is counted. */
  lemma {:induction false} ErrorsAre<E>(judge: (nat, seq<E>) -> bool, run: Run<E>, count: nat, k: nat)
    requires IsRun(judge, run, count) && k < |run.states|
    ensures run.states[k].errors == |BadSteps(run, k)|
  {
    hide IsBad, Moves, BadSteps;
    BadStepsNext(run, k);
    if k > 0 {
      ErrorsAre(judge, run, count, k - 1);
      ErrorStep(judge, run, count, k - 1);
    }
  }

  lemma {:induction false} BadStepsNext<E>(run: Run<E>, k: nat)
    requires |run.states| == |run.steps| + 1 && k <= |run.steps|
    ensures k == 0 ==> |BadSteps(run, k)| == 0
    ensures k > 0 ==> |BadSteps(run, k)| == |BadSteps(run, k - 1)| + if IsBad(run, k - 1) then 1 else 0
  {
    hide IsBad;
    if k > 0 {
      assert BadSteps(run, k) == BadSteps(run, k - 1) + if IsBad(run, k - 1) then {k - 1} else {};
    } else {
      assert BadSteps(run, 0) == {};
    }
  }

  /** The sender goes on exactly while fewer queries are open than the bound
      allows, and stops early only with an error. */
  ghost predicate Completes<E>(s: State<E>) {
    s.sender.Ended? && s.next < |s.rows| ==> s.errors > 0
  }

  lemma {:induction false} CompletesStep<E>(judge: (nat, seq<E>) -> bool, s: State<E>, step: Step<E>)
    requires Inv(s) && Enabled(s, step) && Completes(s)
    ensures Completes(Next(judge, s, step))
    ensures step.Count? ==> (Next(judge, s, step).sender == Counted <==> OpenRows(s.rows) < PENDING)
  {
  }

  /** A sender that ended without an error has started every query. */
  lemma {:induction false} AllStarted<E>(judge: (nat, seq<E>) -> bool, run: Run<E>, count: nat, k: nat)
    requires IsRun(judge, run, count) && k < |run.states|
    ensures Completes(run.states[k])
    ensures run.states[k].sender.Ended? && run.states[k].errors == 0 ==> Starts(run, k) == count
  {
    hide Inv, Next, Enabled, InTurn, Initial;
    StartedInOrder(judge, run, count, k);
    if k > 0 {
      AllStarted(judge, run, count, k - 1);
      MovesOn(judge, run, count, k - 1);
      CompletesStep(judge, run.states[k - 1], run.steps[k - 1]);
    } else {
      StartsNone(judge, run, count);
    }
    NoneBeyond(judge, run, count, k);
  }

  lemma {:induction false} MovesOn<E>(judge: (nat, seq<E>) -> bool, run: Run<E>, count: nat, k: nat)
    requires IsRun(judge, run, count) && k < |run.steps|
    ensures |run.states| == |run.steps| + 1 && Inv(run.states[k]) && Enabled(run.states[k], run.steps[k])
    ensures SenderInRange(run.states[k]) && run.states[k + 1] == Next(judge, run.states[k], run.steps[k])
    ensures |run.states[k].rows| == count
  {
    hide Inv, Next, Enabled;
    RunInv(judge, run, count, k);
    assert Moves(judge, run, k);
  }

  lemma {:induction false} StartsNone<E>(judge: (nat, seq<E>) -> bool, run: Run<E>, count: nat)
    requires IsRun(judge, run, count)
    ensures Completes(run.states[0]) && run.states[0].next <= count
  {
    hide Next, Enabled;
  }

  lemma {:induction false} NoneBeyond<E>(judge: (nat, seq<E>) -> bool, run: Run<E>, count: nat, k: nat)
    requires IsRun(judge, run, count) && k < |run.states|
    ensures run.states[k].next <= count
  {
    hide Inv, Initial, Deliver, Finish;
    if k > 0 {
      NoneBeyond(judge, run, count, k - 1);
      MovesOn(judge, run, count, k - 1);
    } else {
      StartsNone(judge, run, count);
    }
  }

  /** Step `k` is the EOSE of an open query. */
  ghost predicate IsEnd<E>(run: Run<E>, k: nat)
    requires k < |run.steps|
  {
    && run.steps[k].Receive? && run.steps[k].frame.Eose?
    && var i := run.steps[k].frame.row;
       i < Starts(run, k) && !Eosed(run, k, i)
  }

  /** The queries closed, in order. */
  ghost function Closings<E>(run: Run<E>, k: nat): seq<nat>
    requires k <= |run.steps|
  {
    if k == 0 then [] else Closings(run, k - 1) + if IsEnd(run, k - 1) then [run.steps[k - 1].frame.row] else []
  }

  /** The receiver stops with the last of `count` queries, or with its connection. */
  ghost predicate Stopped<E>(run: Run<E>, count: nat, k: nat)
    requires k <= |run.steps|
  {
    k > 0 &&
    (Stopped(run, count, k - 1) || run.steps[k - 1].Disconnect?
     || (IsEnd(run, k - 1) && |Closings(run, k)| == count))
  }

  lemma {:induction false} CloseStep<E>(judge: (nat, seq<E>) -> bool, s: State<E>, step: Step<E>)
    requires Enabled(s, step) && SenderInRange(s)
    ensures
      var ends := step.Receive? && step.frame.Eose? && IsOpen(s.rows[step.frame.row]);
      var s' := Next(judge, s, step);
      && s'.closes == s.closes + (if ends then [step.frame.row] else [])
      && (s'.receiving <==> s.receiving && !step.Disconnect? && !(ends && |s'.closes| == |s.rows|))
  {
  }

  /** A CLOSE goes out for each query at its EOSE, and the receiver reads on
      until the last of them. */
  lemma {:induction false} ClosesAre<E>(judge: (nat, seq<E>) -> bool, run: Run<E>, count: nat, k: nat)
    requires IsRun(judge, run, count) && k < |run.states|
    ensures run.states[k].closes == Closings(run, k) && (run.states[k].receiving <==> !Stopped(run, count, k))
  {
    hide Inv, Next, Enabled, Starts, Eosed, InTurn;
    if k > 0 {
      ClosesAre(judge, run, count, k - 1);
      MovesOn(judge, run, count, k - 1);
      CloseStep(judge, run.states[k - 1], run.steps[k - 1]);
      StartedInOrder(judge, run, count, k - 1);
      var step := run.steps[k - 1];
      if step.Receive? && step.frame.Eose? {
        RowInRange(run.states[k - 1], step);
        OverIsEosed(judge, run, count, k - 1, step.frame.row);
      }
    }
  }

  lemma {:induction false} RowInRange<E>(s: State<E>, step: Step<E>)
    requires Enabled(s, step) && step.Receive? && step.frame.Eose?
    ensures step.frame.row < |s.rows|
  {
  }

  /** The events of query `i` that came while it was open. */
  ghost function Stream<E>(run: Run<E>, k: nat, i: nat): seq<E>
    requires |run.states| == |run.steps| + 1 && k <= |run.steps|
  {
    if k == 0 then []
    else
      var s, step := run.states[k - 1], run.steps[k - 1];
      Stream(run, k - 1, i) +
      (if step.Receive? && step.frame.Event? && step.frame.row == i && i < |s.rows| && IsOpen(s.rows[i])
       then [step.frame.event] else [])
  }

  ghost predicate Keeps<E>(judge: (nat, seq<E>) -> bool, row: Row<E>, i: nat, stream: seq<E>) {
    && row.received == |stream|
    && (!row.eose ==> row.kept == stream[..if |stream| < KEEP then |stream| else KEEP])
    && (row.eose ==> row.matches == Some(|stream| < KEEP && judge(i, stream)))
  }

  /** The verdict of a completed query is the judgement of everything it
      received, however the replies were interleaved, although the receiver
      keeps a bounded list: at most 50 events, and those right. */
  lemma {:induction false} VerdictIsOfWholeStream<E>(judge: (nat, seq<E>) -> bool, run: Run<E>, count: nat, k: nat,
                                                     i: nat)
    requires IsRun(judge, run, count) && k < |run.states| && i < count
    ensures i < |run.states[k].rows| && Keeps(judge, run.states[k].rows[i], i, Stream(run, k, i))
  {
    RunInv(judge, run, count, k);
    if k > 0 {
      assert Moves(judge, run, k - 1);
      hide IsRun, Inv, Next, Enabled, Keeps;
      VerdictIsOfWholeStream(judge, run, count, k - 1, i);
      RunInv(judge, run, count, k - 1);
      KeepsStep(judge, run.states[k - 1], run.steps[k - 1], i, Stream(run, k - 1, i));
    }
  }

  lemma {:induction false} KeepsStep<E>(judge: (nat, seq<E>) -> bool, s: State<E>, step: Step<E>, i: nat,
                                        stream: seq<E>)
    requires Inv(s) && Enabled(s, step) && i < |s.rows| && Keeps(judge, s.rows[i], i, stream)
    ensures
      var heard := step.Receive? && step.frame.Event? && step.frame.row == i && IsOpen(s.rows[i]);
      Keeps(judge, Next(judge, s, step).rows[i], i, stream + (if heard then [step.frame.event] else []))
  {
    if step.Receive? && IsOpen(s.rows[i]) {
      var f := step.frame;
      if f.Event? && f.row == i && |stream| < KEEP {
        assert (stream + [f.event])[..|stream| + 1] == stream + [f.event];
        assert stream[..|stream|] == stream;
      } else if f.Event? && f.row == i {
        assert (stream + [f.event])[..KEEP] == stream[..KEEP];
      } else if f.Eose? && f.row == i && |stream| < KEEP {
        assert stream[..|stream|] == stream;
      }
    }
    assert stream + [] == stream;
  }

  // ------------------------------------------------------------------
  // The lane
  // ------------------------------------------------------------------

  class Lane<E> {
    const judge: (nat, seq<E>) -> bool
    var rows: seq<Row<E>>
    var next: nat
    var sender: Sender
    var pending: nat
    var closes: seq<nat>
    var receiving: bool
    var errors: nat

    function Now(): State<E>
      reads this
    {
      State(rows, next, sender, pending, closes, receiving, errors)
    }

    constructor (judge: (nat, seq<E>) -> bool, count: nat)
      ensures this.judge == judge && Now() == Initial(count)
    {
      this.judge := judge;
      rows := seq(count, _ => Row(false, 0, [], false, None));
      next, sender := 0, if count == 0 then Ended(false) else Waiting;
      pending, closes, receiving, errors := 0, [], true, 0;
    }

    /** The sender's access to the counter. */
    method Count()
      requires Inv(Now()) && Enabled(Now(), Step<E>.Count)
      modifies this
      ensures Now() == Next(judge, old(Now()), Step<E>.Count)
    {
      var before := pending;
      pending := pending + 1;
      if before >= PENDING {
        errors := errors + 1;
        sender := Ended(true);
      } else {
        sender := Counted;
      }
    }

    /** The sender marks the query as started. */
    method Start()
      requires Inv(Now()) && Enabled(Now(), Step<E>.Start)
      modifies this
      ensures Now() == Next(judge, old(Now()), Step<E>.Start)
    {
      rows := rows[next := rows[next].(started := true)];
      sender := Sending;
    }

    /** The REQ went out, or did not. */
    method Sent(ok: bool)
      requires Inv(Now()) && Enabled(Now(), Step<E>.Sent(ok))
      modifies this
      ensures Now() == Next(judge, old(Now()), Step<E>.Sent(ok))
    {
      if !ok {
        errors := errors + 1;
        sender := Ended(false);
        return;
      }
      next := next + 1;
      sender := if next < |rows| then Waiting else Ended(false);
    }

    /** The receiver's work on one frame. */
    method Receive(frame: Frame<E>)
      requires Inv(Now()) && Enabled(Now(), Step.Receive(frame))
      modifies this
      ensures Now() == Next(judge, old(Now()), Step.Receive(frame))
    {
      if frame.Auth? {
        return;
      }
      if frame.Foreign? {
        errors := errors + 1;
        return;
      }
      var i := frame.row;
      var row := rows[i];
      if !row.started || row.eose {
        errors := errors + 1;
        return;
      }
      if frame.Event? {
        row := row.(received := row.received + 1);
        if |row.kept| < KEEP {
          row := row.(kept := row.kept + [frame.event]);
        } else {
          row := row.(matches := Some(false));
        }
        rows := rows[i := row];
      } else if frame.Eose? {
        OpenIsCounted(rows, i);
        row := row.(eose := true, kept := [], matches := Some(row.received <= 50 && judge(i, row.kept)));
        rows := rows[i := row];
        pending := pending - 1;
        closes := closes + [i];
        if |closes| == |rows| {
          receiving := false;
        }
      } else {
        errors := errors + 1;
      }
    }

    /** The relay is gone or the deadline passed. */
    method Disconnect()
      requires Inv(Now()) && Enabled(Now(), Step<E>.Disconnect)
      modifies this
      ensures Now() == Next(judge, old(Now()), Step<E>.Disconnect)
    {
      errors := errors + 1;
      receiving := false;
    }

    /** A step of either task, if it can be taken. */
    method Take(step: Step<E>) returns (taken: bool)
      requires Inv(Now())
      modifies this
      ensures taken <==> Enabled(old(Now()), step)
      ensures Now() == if taken then Next(judge, old(Now()), step) else old(Now())
      ensures Inv(Now())
    {
      taken := Enabled(Now(), step);
      if taken {
        InvStep(judge, Now(), step);
        hide Inv, Next;
        match step {
          case Count => Count();
          case Start => Start();
          case Sent(ok) => Sent(ok);
          case Receive(frame) => Receive(frame);
          case Disconnect => Disconnect();
        }
      }
    }
  }

  /** The steps of a schedule that find their task ready for them. */
  ghost function Taken<E>(judge: (nat, seq<E>) -> bool, s: State<E>, schedule: seq<Step<E>>): seq<Step<E>>
    requires SenderInRange(s)
    decreases |schedule|
  {
    if schedule == [] then []
    else if Enabled(s, schedule[0]) then [schedule[0]] + Taken(judge, Next(judge, s, schedule[0]), schedule[1..])
    else Taken(judge, s, schedule[1..])
  }

  lemma {:induction false} RunGoesOn<E>(judge: (nat, seq<E>) -> bool, run: Run<E>, count: nat, step: Step<E>)
    requires IsRun(judge, run, count)
    requires Enabled(run.states[|run.steps|], step) && SenderInRange(run.states[|run.steps|])
    ensures IsRun(judge, Run(run.states + [Next(judge, run.states[|run.steps|], step)], run.steps + [step]), count)
  {
    var run' := Run(run.states + [Next(judge, run.states[|run.steps|], step)], run.steps + [step]);
    forall k | 0 <= k < |run'.steps|
      ensures Moves(judge, run', k)
    {
      if k < |run.steps| {
        assert Moves(judge, run, k);
      }
    }
  }

  /** The lane under any schedule: its trace is a run, in which the bound is
      kept at every point, and what it leaves of each query is the judgement
      of everything that query received. */
  method Drive<E>(judge: (nat, seq<E>) -> bool, count: nat, schedule: seq<Step<E>>)
    returns (rows: seq<Row<E>>, closes: seq<nat>, errors: nat, ghost run: Run<E>)
    ensures IsRun(judge, run, count) && run.steps == Taken(judge, Initial(count), schedule)
    ensures |rows| == count && rows == run.states[|run.steps|].rows && errors == run.states[|run.steps|].errors
    ensures forall k :: 0 <= k < |run.states| ==> OpenRows(run.states[k].rows) <= PENDING
    ensures forall i :: 0 <= i < count ==> Keeps(judge, rows[i], i, Stream(run, |run.steps|, i))
    ensures forall i :: 0 <= i < count ==> (rows[i].started <==> i < Starts(run, |run.steps|))
    ensures forall i :: 0 <= i < count ==> (rows[i].eose <==> Eosed(run, |run.steps|, i))
    ensures closes == Closings(run, |run.steps|)
    ensures run.states[|run.steps|].receiving <==> !Stopped(run, count, |run.steps|)
    ensures errors == |BadSteps(run, |run.steps|)|
    ensures run.states[|run.steps|].sender.Ended? && errors == 0 ==> Starts(run, |run.steps|) == count
  {
    hide Inv, Next, Enabled, Initial;
    var lane := new Lane(judge, count);
    run := Run([Initial(count)], []);
    InitialInv<E>(count);
    assert schedule[0..] == schedule;
    for i := 0 to |schedule|
      invariant fresh(lane) && lane.judge == judge && Inv(lane.Now()) && SenderInRange(lane.Now())
      invariant IsRun(judge, run, count) && run.states[|run.steps|] == lane.Now()
      invariant run.steps + Taken(judge, lane.Now(), schedule[i..]) == Taken(judge, Initial(count), schedule)
    {
      assert schedule[i..][1..] == schedule[i + 1..];
      var taken := lane.Take(schedule[i]);
      if taken {
        RunGoesOn(judge, run, count, schedule[i]);
        run := Run(run.states + [lane.Now()], run.steps + [schedule[i]]);
      }
    }
    rows, closes, errors := lane.rows, lane.closes, lane.errors;
    RunInv(judge, run, count, |run.steps|);
    forall k | 0 <= k < |run.states|
      ensures OpenRows(run.states[k].rows) <= PENDING
    {
      Bounded(judge, run, count, k);
    }
    forall i | 0 <= i < count
      ensures Keeps(judge, rows[i], i, Stream(run, |run.steps|, i))
    {
      VerdictIsOfWholeStream(judge, run, count, |run.steps|, i);
    }
    forall i | 0 <= i < count
      ensures rows[i].eose <==> Eosed(run, |run.steps|, i)
    {
      OverIsEosed(judge, run, count, |run.steps|, i);
    }
    StartedInOrder(judge, run, count, |run.steps|);
    ErrorsAre(judge, run, count, |run.steps|);
    AllStarted(judge, run, count, |run.steps|);
    ClosesAre(judge, run, count, |run.steps|);
  }
}
