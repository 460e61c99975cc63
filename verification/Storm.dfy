/**
 The live workload's phase protocol (live.rs): a coordinator that sets the
 phase and drains before the storm and before Stop, a publisher that reads the phase and
 counts what each connection is owed, and stable connections that drop and
 reconnect once in the storm.

 A step is one access to shared state, a message sent or received, or a
 signal; a run is any interleaving of steps. The relay is arbitrary: it may
 deliver anything, and any connection may fail. Loads and stores take effect
 in the order of the run. An event is checked unless the publisher read the
 storm phase for it.
 */
module Storm {

  import opened Basics

  datatype Phase = Setup | Steady | Churn | Quiet | Storm | Recovered | Stop

  /** The coordinator. `Settling(k)` has seen `paused` and compared the first
      `k` counters; `Loaded` has also loaded the next received count.
      `settled` records whether the drain before the storm ended settled,
      `again` whether the one before Stop did. `stale` records that the drain
      before Stop saw `paused` while the publisher, having read Recovered, was
      about to clear it. */
  datatype Coordinator =
    | Gathering(got: nat)
    | Running
    | Draining
    | Settling(k: nat)
    | Loaded(k: nat, received: nat)
    | Drained(settled: bool)
    | Reconnecting(got: nat, settled: bool)
    | Recovering
    | FinalDraining
    | FinalSettling(k: nat, stale: bool)
    | FinalLoaded(k: nat, received: nat, stale: bool)
    | Ending(again: bool, stale: bool)

  /** The publisher: between ticks; having read the phase; about to send;
      waiting for the OK; adding what connections `k` and up are owed. */
  datatype Publisher =
    | Absent
    | Idle
    | Read(now: Phase)
    | Ready(now: Phase)
    | Awaiting(checked: bool, owes: seq<set<Key>>)
    | Counting(owes: seq<set<Key>>, k: nat)
    | Gone

  datatype Place = Joining | Open | Rejoining | Closed | Failed

  /** A stable connection, its counters, and its account: the checked
      deliveries it got and those it is owed of accepted checked events. */
  datatype Conn = Conn(
    place: Place,
    stormed: bool,
    signals: nat,
    expected: nat,
    received: nat,
    delivered: multiset<Key>,
    owed: multiset<Key>)

  datatype State = State(
    phase: Phase,
    co: Coordinator,
    ready: nat,
    pub: Publisher,
    paused: bool,
    conns: seq<Conn>)

  datatype Step =
    | Gather
    | Advance
    | SeePaused
    | TimeOut
    | LoadReceived
    | Compare
    | ReadPhase
    | StorePaused
    | Send(owes: seq<set<Key>>)
    | Ack(accepted: bool)
    | Count
    | PublisherFails
    | Eose(c: nat)
    | SeePhase(c: nat)
    | Receive(c: nat, key: Key, checked: bool)
    | Fails(c: nat)

  function Initial(n: nat): State {
    State(Setup, Gathering(0), 0, Absent, false,
          seq(n, _ => Conn(Joining, false, 0, 0, 0, multiset{}, multiset{})))
  }

  predicate Pausing(phase: Phase) {
    phase == Quiet || phase == Stop
  }

  predicate Connected(place: Place) {
    place == Joining || place == Open || place == Rejoining
  }

  predicate Enabled(s: State, step: Step) {
    match step
    case Gather => s.ready > 0 && (s.co.Gathering? || s.co.Reconnecting?) && s.co.got < |s.conns|
    case Advance =>
      (match s.co
       case Gathering(got) => got == |s.conns|
       case Settling(k) => k == |s.conns|
       case FinalSettling(k, _) => k == |s.conns|
       case Reconnecting(got, _) => got == |s.conns|
       case Draining => false
       case FinalDraining => false
       case Loaded(_, _) => false
       case FinalLoaded(_, _, _) => false
       case _ => s.phase != Stop)
    case SeePaused => s.co.Draining? || s.co.FinalDraining?
    case TimeOut => s.co.Draining? || s.co.FinalDraining?
    case LoadReceived => (s.co.Settling? || s.co.FinalSettling?) && s.co.k < |s.conns|
    case Compare => (s.co.Loaded? || s.co.FinalLoaded?) && s.co.k < |s.conns|
    case ReadPhase => s.pub.Idle?
    case StorePaused => s.pub.Read?
    case Send(owes) => s.pub.Ready? && |owes| == |s.conns|
    case Ack(_) => s.pub.Awaiting? && |s.pub.owes| == |s.conns|
    case Count => s.pub.Counting? && |s.pub.owes| == |s.conns|
    case PublisherFails => !s.pub.Absent?
    case Eose(c) => c < |s.conns| && (s.conns[c].place == Joining || s.conns[c].place == Rejoining)
    case SeePhase(c) => c < |s.conns| && s.conns[c].place == Open
    case Receive(c, _, _) => c < |s.conns| && Connected(s.conns[c].place)
    case Fails(c) => c < |s.conns| && Connected(s.conns[c].place)
  }

  /** The coordinator's next phase. */
  function Advanced(s: State): State {
    match s.co
    case Gathering(_) => s.(co := Running, pub := Idle)
    case Running =>
      if s.phase == Setup then s.(phase := Steady)
      else if s.phase == Steady then s.(phase := Churn)
      else s.(phase := Quiet, co := Draining)
    case Settling(_) => s.(co := Drained(true))
    case Drained(settled) => s.(phase := Storm, co := Reconnecting(0, settled))
    case Reconnecting(_, _) => s.(phase := Recovered, co := Recovering)
    case Recovering => s.(phase := Quiet, co := FinalDraining)
    case FinalSettling(_, stale) => s.(co := Ending(true, stale))
    case Ending(_, _) => s.(phase := Stop)
    case _ => s
  }

  /** A step of a drain. */
  predicate OfDrain(step: Step) {
    step.SeePaused? || step.TimeOut? || step.LoadReceived? || step.Compare?
  }

  /** `Tally::settled`, one load at a time, and its loop. */
  function Drains(s: State, step: Step): Coordinator
    requires OfDrain(step) && Enabled(s, step)
  {
    match step
    case SeePaused =>
      if !s.paused then s.co
      else if s.co.Draining? then Settling(0)
      else FinalSettling(0, s.pub == Read(Recovered))
    case TimeOut => if s.co.Draining? then Drained(false) else Ending(false, false)
    case LoadReceived =>
      var received := s.conns[s.co.k].received;
      if s.co.Settling? then Loaded(s.co.k, received) else FinalLoaded(s.co.k, received, s.co.stale)
    case Compare =>
      var caught := s.co.received >= s.conns[s.co.k].expected;
      if s.co.Loaded? then if caught then Settling(s.co.k + 1) else Draining
      else if caught then FinalSettling(s.co.k + 1, s.co.stale) else FinalDraining
  }

  function Stored(s: State): State
    requires s.pub.Read?
  {
    var now := s.pub.now;
    s.(paused := Pausing(now), pub := if now == Stop then Gone else if now == Quiet then Idle else Ready(now))
  }

  /** An accepted checked event is owed from its OK on. */
  function Owe(conns: seq<Conn>, owes: seq<set<Key>>): seq<Conn>
    requires |owes| == |conns|
  {
    seq(|conns|, c requires 0 <= c < |conns| => conns[c].(owed := conns[c].owed + multiset(owes[c])))
  }

  function Acked(s: State, accepted: bool): State
    requires s.pub.Awaiting? && |s.pub.owes| == |s.conns|
  {
    if accepted && s.pub.checked then s.(conns := Owe(s.conns, s.pub.owes), pub := Counting(s.pub.owes, 0))
    else s.(pub := Idle)
  }

  function Counted(s: State): State
    requires s.pub.Counting? && |s.pub.owes| == |s.conns|
  {
    var k := s.pub.k;
    if k < |s.conns| then
      s.(conns := s.conns[k := s.conns[k].(expected := s.conns[k].expected + |s.pub.owes[k]|)],
         pub := Counting(s.pub.owes, k + 1))
    else s.(pub := Idle)
  }

  /** A connection drops on its first sight of the storm. */
  function Saw(phase: Phase, conn: Conn): Conn {
    if phase == Storm && !conn.stormed then conn.(place := Rejoining, stormed := true)
    else if phase == Stop then conn.(place := Closed)
    else conn
  }

  function Delivered(conn: Conn, key: Key, checked: bool): Conn {
    if checked then conn.(received := conn.received + 1, delivered := conn.delivered + multiset{key}) else conn
  }

  function Next(s: State, step: Step): State
    requires Enabled(s, step)
  {
    match step
    case Gather => s.(ready := s.ready - 1, co := s.co.(got := s.co.got + 1))
    case Advance => Advanced(s)
    case SeePaused => s.(co := Drains(s, step))
    case TimeOut => s.(co := Drains(s, step))
    case LoadReceived => s.(co := Drains(s, step))
    case Compare => s.(co := Drains(s, step))
    case ReadPhase => s.(pub := Read(s.phase))
    case StorePaused => Stored(s)
    case Send(owes) => s.(pub := Awaiting(s.pub.now != Storm, owes))
    case Ack(accepted) => Acked(s, accepted)
    case Count => Counted(s)
    case PublisherFails => s.(pub := Gone)
    case Eose(c) =>
      s.(ready := s.ready + 1, conns := s.conns[c := s.conns[c].(place := Open, signals := s.conns[c].signals + 1)])
    case SeePhase(c) => s.(conns := s.conns[c := Saw(s.phase, s.conns[c])])
    case Receive(c, key, checked) => s.(conns := s.conns[c := Delivered(s.conns[c], key, checked)])
    case Fails(c) => s.(conns := s.conns[c := s.conns[c].(place := Failed)])
  }

  // ------------------------------------------------------------------
  // What every step keeps
  // ------------------------------------------------------------------

  /** After Recovered. */
  predicate AtEnd(co: Coordinator) {
    co.FinalDraining? || co.FinalSettling? || co.FinalLoaded? || co.Ending?
  }

  predicate BeforeStorm(co: Coordinator) {
    !(co.Reconnecting? || co.Recovering? || AtEnd(co))
  }

  /** From seeing `paused`, not stale, in a drain that ends settled: through
      the storm, or to the end. */
  predicate Settled(co: Coordinator) {
    match co
    case Settling(_) => true
    case Loaded(_, _) => true
    case Drained(settled) => settled
    case Reconnecting(_, settled) => settled
    case FinalSettling(_, stale) => !stale
    case FinalLoaded(_, _, stale) => !stale
    case Ending(again, stale) => again && !stale
    case _ => false
  }

  predicate PhaseFits(s: State) {
    match s.co
    case Gathering(got) => s.phase == Setup && got <= |s.conns|
    case Running => s.phase == Setup || s.phase == Steady || s.phase == Churn
    case Reconnecting(got, _) => s.phase == Storm && got <= |s.conns|
    case Recovering => s.phase == Recovered
    case Ending(_, _) => s.phase == Quiet || s.phase == Stop
    case Settling(k) => s.phase == Quiet && k <= |s.conns|
    case Loaded(k, _) => s.phase == Quiet && k < |s.conns|
    case FinalSettling(k, _) => s.phase == Quiet && k <= |s.conns|
    case FinalLoaded(k, _, _) => s.phase == Quiet && k < |s.conns|
    case _ => s.phase == Quiet
  }

  predicate PublisherFits(s: State) {
    && (s.pub.Absent? <==> s.co.Gathering?)
    && (s.pub.Awaiting? || s.pub.Counting? ==> |s.pub.owes| == |s.conns|)
    && (s.pub.Counting? ==> s.pub.k <= |s.conns|)
    && (BeforeStorm(s.co) && !Pausing(s.phase) ==> !s.paused && !(s.pub.Read? && Pausing(s.pub.now)))
  }

  predicate ConnFits(conn: Conn) {
    && (!conn.stormed ==> conn.signals <= 1)
    && (conn.stormed ==> 1 <= conn.signals <= 2)
    && (conn.place == Joining ==> conn.signals == 0 && !conn.stormed)
    && (conn.place == Rejoining ==> conn.signals == 1 && conn.stormed)
    && (conn.place == Open ==> conn.signals == if conn.stormed then 2 else 1)
    && conn.received == |conn.delivered|
  }

  /** What the phases say of a connection. */
  predicate ConnInPhase(s: State, conn: Conn) {
    && (BeforeStorm(s.co) ==> !conn.stormed)
    && (!s.co.Gathering? ==> conn.signals >= 1)
    && (s.co.Recovering? || AtEnd(s.co) ==> conn.signals == 2)
    && (conn.place == Closed ==> s.phase == Stop)
  }

  predicate ConnsFit(s: State) {
    forall c :: 0 <= c < |s.conns| ==> ConnFits(s.conns[c]) && ConnInPhase(s, s.conns[c])
  }

  function Signals(conns: seq<Conn>): nat {
    if conns == [] then 0 else Signals(conns[..|conns| - 1]) + conns[|conns| - 1].signals
  }

  function Taken(co: Coordinator, n: nat): nat {
    match co
    case Gathering(got) => got
    case Reconnecting(got, _) => n + got
    case Recovering => n + n
    case _ => if AtEnd(co) then n + n else n
  }

  predicate SignalsFit(s: State) {
    s.ready + Taken(s.co, |s.conns|) == Signals(s.conns)
  }

  /** What the publisher has yet to add to a connection's counter. */
  function Uncounted(pub: Publisher, c: nat): nat {
    if pub.Counting? && pub.k <= c < |pub.owes| then |pub.owes[c]| else 0
  }

  predicate CountsFit(s: State) {
    !s.pub.Gone? ==> forall c :: 0 <= c < |s.conns| ==> s.conns[c].expected + Uncounted(s.pub, c) == |s.conns[c].owed|
  }

  /** No checked event is under way. */
  predicate Unchecked(pub: Publisher) {
    match pub
    case Idle => true
    case Read(now) => now == Quiet || now == Storm || now == Stop
    case Ready(now) => now == Storm
    case Awaiting(checked, _) => !checked
    case Gone => true
    case _ => false
  }

  predicate AllCounted(s: State) {
    forall c :: 0 <= c < |s.conns| ==> s.conns[c].expected == |s.conns[c].owed|
  }

  predicate Caught(conn: Conn) {
    conn.received >= |conn.owed|
  }

  predicate CaughtUp(s: State, k: nat) {
    forall c :: 0 <= c < |s.conns| && c < k ==> Caught(s.conns[c])
  }

  /** How many connections the drain has found caught up. */
  function Compared(co: Coordinator, n: nat): nat {
    match co
    case Settling(k) => k
    case Loaded(k, _) => k
    case Drained(settled) => if settled then n else 0
    case Reconnecting(_, settled) => if settled then n else 0
    case FinalSettling(k, stale) => if stale then 0 else k
    case FinalLoaded(k, _, stale) => if stale then 0 else k
    case Ending(again, stale) => if again && !stale then n else 0
    case _ => 0
  }

  predicate LoadFits(s: State) {
    (s.co.Loaded? || s.co.FinalLoaded?) && s.co.k < |s.conns| ==> s.co.received <= s.conns[s.co.k].received
  }

  /** While `paused` stands the publisher is between ticks, has read a phase
      and not yet stored, or is gone; before the storm it can only have read
      the Quiet that made it pause. */
  predicate PauseFits(s: State) {
    s.paused ==>
      && (s.pub.Idle? || s.pub.Gone? || s.pub.Read?)
      && (s.pub.Read? ==> s.pub.now in {Quiet, Storm, Recovered, Stop} && (BeforeStorm(s.co) ==> s.pub.now == Quiet))
      && AllCounted(s)
  }

  predicate DrainFits(s: State) {
    && (Settled(s.co) ==> Unchecked(s.pub) && AllCounted(s))
    && CaughtUp(s, Compared(s.co, |s.conns|))
    && LoadFits(s)
  }

  predicate Inv(s: State) {
    && PhaseFits(s) && PublisherFits(s) && ConnsFit(s) && SignalsFit(s) && CountsFit(s)
    && PauseFits(s) && DrainFits(s)
  }

  lemma {:induction false} InitialInv(n: nat)
    ensures Inv(Initial(n))
  {
    NoSignals(Initial(n).conns);
  }

  lemma {:induction false} NoSignals(conns: seq<Conn>)
    requires forall c :: 0 <= c < |conns| ==> conns[c].signals == 0
    ensures Signals(conns) == 0
  {
    if conns != [] {
      NoSignals(conns[..|conns| - 1]);
    }
  }

  lemma {:induction false} SignalsUpdate(conns: seq<Conn>, c: nat, conn: Conn)
    requires c < |conns|
    ensures Signals(conns[c := conn]) == Signals(conns) - conns[c].signals + conn.signals
  {
    var last := |conns| - 1;
    if c < last {
      SignalsUpdate(conns[..last], c, conn);
      assert conns[c := conn][..last] == conns[..last][c := conn];
    } else {
      assert conns[c := conn][..last] == conns[..last];
    }
  }

  lemma {:induction false} SameSignals(a: seq<Conn>, b: seq<Conn>)
    requires |a| == |b| && forall c :: 0 <= c < |a| ==> a[c].signals == b[c].signals
    ensures Signals(a) == Signals(b)
  {
    if a != [] {
      SameSignals(a[..|a| - 1], b[..|b| - 1]);
    }
  }

  /** If no connection has given more than `b` signals, and together they
      gave `b` each, every one gave `b`. */
  lemma {:induction false} AllGave(conns: seq<Conn>, b: nat)
    requires forall c :: 0 <= c < |conns| ==> conns[c].signals <= b
    ensures Signals(conns) <= |conns| * b
    ensures Signals(conns) == |conns| * b ==> forall c :: 0 <= c < |conns| ==> conns[c].signals == b
  {
    if conns != [] {
      AllGave(conns[..|conns| - 1], b);
      assert |conns| * b == (|conns| - 1) * b + b;
    }
  }

  /** A step of a connection. */
  predicate OfConn(step: Step) {
    step.Eose? || step.SeePhase? || step.Receive? || step.Fails?
  }

  /** A step of the publisher. */
  predicate OfPublisher(step: Step) {
    step.ReadPhase? || step.StorePaused? || step.Send? || step.Ack? || step.Count? || step.PublisherFails?
  }

  lemma {:induction false} SameSize(s: State, step: Step)
    requires Enabled(s, step)
    ensures |Next(s, step).conns| == |s.conns|
  {
  }

  lemma {:induction false} PublisherFitsStep(s: State, step: Step)
    requires Enabled(s, step) && PhaseFits(s) && PublisherFits(s) && OfPublisher(step)
    ensures PhaseFits(Next(s, step)) && PublisherFits(Next(s, step))
  {
  }

  lemma {:induction false} ConnFitsStep(s: State, step: Step)
    requires Enabled(s, step) && PhaseFits(s) && PublisherFits(s) && OfConn(step)
    ensures PhaseFits(Next(s, step)) && PublisherFits(Next(s, step))
  {
    hide Saw, Delivered;
  }

  lemma {:induction false} DrainFitsStep(s: State, step: Step)
    requires Enabled(s, step) && PhaseFits(s) && PublisherFits(s) && OfDrain(step)
    ensures PhaseFits(Next(s, step)) && PublisherFits(Next(s, step))
  {
    assert Next(s, step) == s.(co := Drains(s, step));
    hide Next;
  }

  lemma {:induction false} AdvanceFitsStep(s: State, step: Step)
    requires Enabled(s, step) && PhaseFits(s) && PublisherFits(s) && (step.Advance? || step.Gather?)
    ensures PhaseFits(Next(s, step)) && PublisherFits(Next(s, step))
  {
    if step.Advance? {
      AdvancedFits(s);
      hide PhaseFits, PublisherFits, Advanced;
    } else {
      hide Advanced;
    }
  }

  lemma {:induction false} AdvancedFits(s: State)
    requires Enabled(s, Advance) && PhaseFits(s) && PublisherFits(s)
    ensures PhaseFits(Advanced(s)) && PublisherFits(Advanced(s))
  {
  }

  lemma {:induction false} Kinds(step: Step)
    ensures OfPublisher(step) || OfConn(step) || OfDrain(step) || step.Advance? || step.Gather?
  {
  }

  lemma {:induction false} FitsStep(s: State, step: Step)
    requires Enabled(s, step) && PhaseFits(s) && PublisherFits(s)
    ensures PhaseFits(Next(s, step)) && PublisherFits(Next(s, step))
    ensures |Next(s, step).conns| == |s.conns|
  {
    hide *;
    SameSize(s, step);
    if OfPublisher(step) {
      PublisherFitsStep(s, step);
    } else if OfConn(step) {
      ConnFitsStep(s, step);
    } else if OfDrain(step) {
      DrainFitsStep(s, step);
    } else {
      Kinds(step);
      AdvanceFitsStep(s, step);
    }
  }

  /** The coordinator goes on only when every connection has signalled. */
  lemma {:induction false} AllSignalled(s: State)
    requires Enabled(s, Advance) && ConnsFit(s) && SignalsFit(s)
    ensures s.co.Gathering? ==> forall c :: 0 <= c < |s.conns| ==> s.conns[c].signals == 1
    ensures s.co.Reconnecting? ==> forall c :: 0 <= c < |s.conns| ==> s.conns[c].signals == 2
  {
    if s.co.Gathering? {
      AllGave(s.conns, 1);
    } else if s.co.Reconnecting? {
      AllGave(s.conns, 2);
    }
  }

  lemma {:induction false} ConnAdvance(s: State, c: nat)
    requires Enabled(s, Advance) && PhaseFits(s) && ConnsFit(s) && SignalsFit(s) && c < |s.conns|
    ensures ConnInPhase(Next(s, Advance), s.conns[c])
  {
    hide Signals, SignalsFit;
    assert ConnFits(s.conns[c]) && ConnInPhase(s, s.conns[c]);
    AllSignalled(s);
  }

  lemma {:induction false} ConnMoves(s: State, step: Step, c: nat)
    requires Enabled(s, step) && PhaseFits(s) && c < |s.conns| && OfConn(step)
    requires ConnFits(s.conns[c]) && ConnInPhase(s, s.conns[c])
    ensures ConnFits(Next(s, step).conns[c]) && ConnInPhase(Next(s, step), Next(s, step).conns[c])
  {
    hide Next, Enabled, PhaseFits, ConnFits;
    OnlyOneMoves(s, step);
    if c == step.c {
      MoverFits(s, step);
    }
  }

  lemma {:induction false} OnlyOneMoves(s: State, step: Step)
    requires Enabled(s, step) && OfConn(step)
    ensures var s' := Next(s, step);
      s'.co == s.co && s'.phase == s.phase && s'.conns == s.conns[step.c := s'.conns[step.c]]
  {
  }

  lemma {:induction false} MoverFits(s: State, step: Step)
    requires Enabled(s, step) && PhaseFits(s) && OfConn(step)
    requires ConnFits(s.conns[step.c]) && ConnInPhase(s, s.conns[step.c])
    ensures ConnFits(Next(s, step).conns[step.c]) && ConnInPhase(s, Next(s, step).conns[step.c])
  {
  }

  lemma {:induction false} ConnStays(s: State, step: Step, c: nat)
    requires Enabled(s, step) && PhaseFits(s) && c < |s.conns| && !(OfConn(step) || step.Advance?)
    requires ConnFits(s.conns[c]) && ConnInPhase(s, s.conns[c])
    ensures ConnFits(Next(s, step).conns[c]) && ConnInPhase(Next(s, step), Next(s, step).conns[c])
  {
  }

  lemma {:induction false} ConnAt(s: State, c: nat)
    requires ConnsFit(s) && c < |s.conns|
    ensures ConnFits(s.conns[c]) && ConnInPhase(s, s.conns[c])
  {
  }

  lemma {:induction false} ConnsStep(s: State, step: Step)
    requires Enabled(s, step) && PhaseFits(s) && PublisherFits(s) && ConnsFit(s) && SignalsFit(s)
    ensures ConnsFit(Next(s, step))
  {
    hide ConnFits, ConnInPhase, SignalsFit, PhaseFits, PublisherFits, Next, Enabled, OfConn;
    SameSize(s, step);
    var s' := Next(s, step);
    forall c | 0 <= c < |s'.conns|
      ensures ConnFits(s'.conns[c]) && ConnInPhase(s', s'.conns[c])
    {
      ConnAt(s, c);
      if step.Advance? {
        ConnAdvance(s, c);
        AdvanceKeepsConns(s);
      } else if OfConn(step) {
        ConnMoves(s, step, c);
      } else {
        ConnStays(s, step, c);
      }
    }
  }

  lemma {:induction false} AdvanceKeepsConns(s: State)
    requires Enabled(s, Advance)
    ensures Next(s, Advance).conns == s.conns
  {
  }

  lemma {:induction false} ConnSignalsStep(s: State, step: Step)
    requires Enabled(s, step) && SignalsFit(s) && OfConn(step)
    ensures SignalsFit(Next(s, step))
  {
    hide Signals, Taken;
    var conn := Next(s, step).conns[step.c];
    assert Next(s, step).conns == s.conns[step.c := conn] && Next(s, step).co == s.co;
    assert Next(s, step).ready + s.conns[step.c].signals == s.ready + conn.signals;
    SignalsUpdate(s.conns, step.c, conn);
  }

  lemma {:induction false} PublisherSignalsStep(s: State, step: Step)
    requires Enabled(s, step) && SignalsFit(s) && OfPublisher(step)
    ensures SignalsFit(Next(s, step))
  {
    hide Signals, Taken;
    SameSignals(s.conns, Next(s, step).conns);
  }

  lemma {:induction false} CoordinatorSignalsStep(s: State, step: Step)
    requires Enabled(s, step) && SignalsFit(s) && PhaseFits(s) && !OfConn(step) && !OfPublisher(step)
    ensures SignalsFit(Next(s, step))
  {
    hide Signals;
  }

  lemma {:induction false} SignalsStep(s: State, step: Step)
    requires Enabled(s, step) && SignalsFit(s) && PhaseFits(s)
    ensures SignalsFit(Next(s, step))
  {
    hide *;
    if OfConn(step) {
      ConnSignalsStep(s, step);
    } else if OfPublisher(step) {
      PublisherSignalsStep(s, step);
    } else {
      CoordinatorSignalsStep(s, step);
    }
  }

  lemma {:induction false} CountStep(s: State, step: Step, c: nat)
    requires Enabled(s, step) && PublisherFits(s) && CountsFit(s) && c < |s.conns| && !s.pub.Gone?
    requires |Next(s, step).conns| == |s.conns| && !Next(s, step).pub.Gone?
    ensures Next(s, step).conns[c].expected + Uncounted(Next(s, step).pub, c) == |Next(s, step).conns[c].owed|
  {
    assert s.conns[c].expected + Uncounted(s.pub, c) == |s.conns[c].owed|;
    hide CountsFit;
    if OfPublisher(step) {
      PublisherCountStep(s, step, c);
    } else {
      OtherCountStep(s, step, c);
    }
  }

  lemma {:induction false} PublisherCountStep(s: State, step: Step, c: nat)
    requires Enabled(s, step) && PublisherFits(s) && c < |s.conns| && !s.pub.Gone? && OfPublisher(step)
    requires s.conns[c].expected + Uncounted(s.pub, c) == |s.conns[c].owed|
    requires |Next(s, step).conns| == |s.conns| && !Next(s, step).pub.Gone?
    ensures Next(s, step).conns[c].expected + Uncounted(Next(s, step).pub, c) == |Next(s, step).conns[c].owed|
  {
  }

  lemma {:induction false} OtherCountStep(s: State, step: Step, c: nat)
    requires Enabled(s, step) && PublisherFits(s) && c < |s.conns| && !OfPublisher(step)
    requires s.conns[c].expected + Uncounted(s.pub, c) == |s.conns[c].owed|
    requires |Next(s, step).conns| == |s.conns|
    ensures Next(s, step).conns[c].expected + Uncounted(Next(s, step).pub, c) == |Next(s, step).conns[c].owed|
  {
  }

  lemma {:induction false} CountsStep(s: State, step: Step)
    requires Enabled(s, step) && PublisherFits(s) && CountsFit(s)
    ensures CountsFit(Next(s, step))
  {
    hide PublisherFits, Uncounted, Next, Enabled;
    SameSize(s, step);
    var s' := Next(s, step);
    if !s'.pub.Gone? {
      StillThere(s, step);
      forall c | 0 <= c < |s'.conns|
        ensures s'.conns[c].expected + Uncounted(s'.pub, c) == |s'.conns[c].owed|
      {
        CountStep(s, step, c);
      }
    }
  }

  lemma {:induction false} StillThere(s: State, step: Step)
    requires Enabled(s, step) && PublisherFits(s) && !Next(s, step).pub.Gone?
    ensures !s.pub.Gone?
  {
  }

  lemma {:induction false} AllCountedStep(s: State, step: Step)
    requires Enabled(s, step) && AllCounted(s) && Unchecked(s.pub)
    ensures AllCounted(Next(s, step))
  {
    if OfConn(step) {
      hide AllCounted;
      ConnKeepsCounts(s, step);
    } else {
      OthersKeepConns(s, step);
      hide Next, Enabled;
    }
  }

  lemma {:induction false} OthersKeepConns(s: State, step: Step)
    requires Enabled(s, step) && Unchecked(s.pub) && !OfConn(step)
    ensures Next(s, step).conns == s.conns
  {
    hide Drains;
  }

  lemma {:induction false} CaughtUpStep(s: State, step: Step, k: nat)
    requires Enabled(s, step) && CaughtUp(s, k) && Unchecked(s.pub)
    requires |Next(s, step).conns| == |s.conns|
    ensures CaughtUp(Next(s, step), k)
  {
  }

  /** Nothing that `paused` rules out begins while it stands. */
  lemma {:induction false} PauseStep(s: State, step: Step)
    requires Enabled(s, step) && PhaseFits(s) && PublisherFits(s) && CountsFit(s) && PauseFits(s)
    ensures PauseFits(Next(s, step))
  {
    hide CountsFit, Saw, Delivered;
    if OfPublisher(step) {
      PublisherPauses(s, step);
    } else if OfDrain(step) {
      assert Next(s, step) == s.(co := Drains(s, step));
      assert BeforeStorm(Drains(s, step)) ==> BeforeStorm(s.co);
      hide Next, AllCounted, Drains, PhaseFits, PublisherFits;
    } else if step.Advance? || step.Gather? {
      hide AllCounted, PhaseFits, PublisherFits;
    } else {
      Kinds(step);
      ConnKeepsCounts(s, step);
      hide AllCounted, PhaseFits, PublisherFits;
    }
  }

  lemma {:induction false} ConnKeepsCounts(s: State, step: Step)
    requires Enabled(s, step) && OfConn(step)
    ensures AllCounted(s) ==> AllCounted(Next(s, step))
    ensures var s' := Next(s, step); s'.paused == s.paused && s'.pub == s.pub && s'.co == s.co
  {
  }

  lemma {:induction false} PublisherPauses(s: State, step: Step)
    requires Enabled(s, step) && PhaseFits(s) && PublisherFits(s) && CountsFit(s) && PauseFits(s) && OfPublisher(step)
    ensures PauseFits(Next(s, step))
  {
  }

  /** A settled drain stays settled. */
  lemma {:induction false} SettledStep(s: State, step: Step)
    requires Enabled(s, step) && PhaseFits(s) && PauseFits(s) && DrainFits(s) && Settled(Next(s, step).co)
    ensures Unchecked(s.pub) && AllCounted(s) && Unchecked(Next(s, step).pub) && AllCounted(Next(s, step))
  {
    hide PauseFits, DrainFits, CaughtUp, AllCounted, LoadFits;
    SettledBefore(s, step);
    StaysUnchecked(s, step);
    AllCountedStep(s, step);
  }

  lemma {:induction false} SettledBefore(s: State, step: Step)
    requires Enabled(s, step) && PauseFits(s) && DrainFits(s) && Settled(Next(s, step).co)
    ensures Unchecked(s.pub) && AllCounted(s)
    ensures Settled(s.co) || step.SeePaused?
  {
    hide CaughtUp, AllCounted, LoadFits, Saw, Delivered;
  }

  lemma {:induction false} StaysUnchecked(s: State, step: Step)
    requires Enabled(s, step) && PhaseFits(s) && Unchecked(s.pub) && (Settled(s.co) || step.SeePaused?)
    ensures Unchecked(Next(s, step).pub)
  {
    hide Saw, Delivered, Drains;
  }

  lemma {:induction false} CaughtStep(s: State, step: Step)
    requires Enabled(s, step) && PhaseFits(s) && DrainFits(s)
    ensures CaughtUp(Next(s, step), Compared(Next(s, step).co, |s.conns|))
  {
    hide Unchecked, Compared, Enabled, Next, PhaseFits, LoadFits, Settled;
    var k, k' := Compared(s.co, |s.conns|), Compared(Next(s, step).co, |s.conns|);
    ComparedStep(s, step);
    SameSize(s, step);
    if k' > 0 {
      assert CaughtUp(s, k');
      CaughtUpStep(s, step, k');
    }
  }

  /** The mark moves up by one only on a comparison that held. */
  lemma {:induction false} ComparedStep(s: State, step: Step)
    requires PhaseFits(s) && DrainFits(s) && Enabled(s, step)
    ensures
      var k, k' := Compared(s.co, |s.conns|), Compared(Next(s, step).co, |s.conns|);
      && (k' > 0 ==> Settled(s.co) && k' <= k + 1)
      && (k' > k ==> k < |s.conns| && Caught(s.conns[k]))
  {
    hide CaughtUp, Saw, Delivered, Unchecked;
  }

  lemma {:induction false} LoadStep(s: State, step: Step)
    requires LoadFits(s) && Enabled(s, step) && PhaseFits(s)
    ensures LoadFits(Next(s, step))
  {
  }

  lemma {:induction false} DrainStep(s: State, step: Step)
    requires Enabled(s, step) && PhaseFits(s) && PauseFits(s) && DrainFits(s)
    ensures DrainFits(Next(s, step))
  {
    hide PhaseFits, PauseFits, CaughtUp, Unchecked, AllCounted, Settled, Compared, LoadFits, Next, Enabled;
    CaughtStep(s, step);
    LoadStep(s, step);
    SameSize(s, step);
    if Settled(Next(s, step).co) {
      SettledStep(s, step);
    }
  }

  lemma {:induction false} InvStep(s: State, step: Step)
    requires Inv(s) && Enabled(s, step)
    ensures Inv(Next(s, step)) && |Next(s, step).conns| == |s.conns|
  {
    hide Next, Enabled, PhaseFits, PublisherFits, ConnsFit, SignalsFit, CountsFit, PauseFits, DrainFits;
    FitsStep(s, step);
    ConnsStep(s, step);
    SignalsStep(s, step);
    CountsStep(s, step);
    PauseStep(s, step);
    DrainStep(s, step);
  }

  // ------------------------------------------------------------------
  // Runs
  // ------------------------------------------------------------------

  datatype Run = Run(states: seq<State>, steps: seq<Step>)

  ghost predicate Moves(run: Run, k: nat)
    requires k < |run.steps| && |run.states| == |run.steps| + 1
  {
    Enabled(run.states[k], run.steps[k]) && run.states[k + 1] == Next(run.states[k], run.steps[k])
  }

  /** Any interleaving of the coordinator, the publisher and `n` stable
      connections, up to any point. */
  ghost predicate IsRun(run: Run, n: nat) {
    && |run.states| == |run.steps| + 1
    && run.states[0] == Initial(n)
    && forall k :: 0 <= k < |run.steps| ==> Moves(run, k)
  }

  lemma {:induction false} RunInv(run: Run, n: nat, k: nat)
    requires IsRun(run, n) && k < |run.states|
    ensures Inv(run.states[k]) && |run.states[k].conns| == n
  {
    if k == 0 {
      InitialInv(n);
    } else {
      hide *;
      RunInv(run, n, k - 1);
      StepOf(run, n, k - 1);
      InvStep(run.states[k - 1], run.steps[k - 1]);
    }
  }

  // ------------------------------------------------------------------
  // Phases
  // ------------------------------------------------------------------

  function Phases(): seq<Phase> {
    [Setup, Steady, Churn, Quiet, Storm, Recovered, Quiet, Stop]
  }

  /** The phases a run has been in, in order. */
  ghost function Visited(run: Run, k: nat): seq<Phase>
    requires k < |run.states|
  {
    if k == 0 then [run.states[0].phase]
    else
      Visited(run, k - 1) + if run.states[k].phase == run.states[k - 1].phase then [] else [run.states[k].phase]
  }

  function PhaseNumber(s: State): nat {
    match s.phase
    case Setup => 0
    case Steady => 1
    case Churn => 2
    case Quiet => if BeforeStorm(s.co) then 3 else 6
    case Storm => 4
    case Recovered => 5
    case Stop => 7
  }

  lemma {:induction false} PhaseStep(s: State, step: Step)
    requires PhaseFits(s) && Enabled(s, step)
    ensures PhaseNumber(s) < |Phases()| && Phases()[PhaseNumber(s)] == s.phase
    ensures var s' := Next(s, step);
      && PhaseNumber(s') < |Phases()| && Phases()[PhaseNumber(s')] == s'.phase
      && PhaseNumber(s') == PhaseNumber(s) + if s'.phase == s.phase then 0 else 1
  {
    if step.Advance? {
    } else {
      SamePhase(s, step);
      hide Next, Enabled;
    }
  }

  lemma {:induction false} SamePhase(s: State, step: Step)
    requires Enabled(s, step) && !step.Advance?
    ensures Next(s, step).phase == s.phase
    ensures BeforeStorm(Next(s, step).co) <==> BeforeStorm(s.co)
  {
  }

  /** Every run goes through the phases in their order, none left out. */
  lemma {:induction false} PhasesInOrder(run: Run, n: nat, k: nat)
    requires IsRun(run, n) && k < |run.states|
    ensures PhaseNumber(run.states[k]) < |Phases()| && Visited(run, k) == Phases()[..PhaseNumber(run.states[k]) + 1]
  {
    hide Inv, Next, Enabled, PhaseNumber, PhaseFits, Initial, Phases;
    if k > 0 {
      PhasesInOrder(run, n, k - 1);
      RunInv(run, n, k - 1);
      StepOf(run, n, k - 1);
      InvPhase(run.states[k - 1]);
      PhaseStep(run.states[k - 1], run.steps[k - 1]);
      TakeNext(Phases(), PhaseNumber(run.states[k]));
    } else {
      FirstPhase(n);
    }
  }

  lemma {:induction false} TakeNext(phases: seq<Phase>, p: nat)
    requires p < |phases|
    ensures phases[..p + 1] == phases[..p] + [phases[p]]
  {
  }

  lemma {:induction false} FirstPhase(n: nat)
    ensures PhaseNumber(Initial(n)) == 0 && 0 < |Phases()| && [Initial(n).phase] == Phases()[..1]
  {
  }

  lemma {:induction false} InvPhase(s: State)
    requires Inv(s)
    ensures PhaseFits(s)
  {
  }

  // ------------------------------------------------------------------
  // Accounts, read off the steps
  // ------------------------------------------------------------------

  /** The phase the publisher read last. */
  ghost function LastRead(run: Run, k: nat): Phase
    requires k <= |run.steps| < |run.states|
  {
    if k == 0 then Setup
    else if run.steps[k - 1].ReadPhase? then run.states[k - 1].phase
    else LastRead(run, k - 1)
  }

  /** Whether the last event went out under a phase other than the storm, and
      the deliveries it calls for. */
  ghost function LastSent(run: Run, k: nat): (bool, seq<set<Key>>)
    requires k <= |run.steps| < |run.states|
  {
    if k == 0 then (false, [])
    else if run.steps[k - 1].Send? then (LastRead(run, k - 1) != Storm, run.steps[k - 1].owes)
    else LastSent(run, k - 1)
  }

  /** What connection `c` is owed: the deliveries of every event that went out
      outside the storm and was accepted. */
  ghost function OwedBy(run: Run, k: nat, c: nat): multiset<Key>
    requires k <= |run.steps| < |run.states|
  {
    if k == 0 then multiset{}
    else
      var (checked, owes) := LastSent(run, k - 1);
      OwedBy(run, k - 1, c) +
      if run.steps[k - 1] == Ack(true) && checked && c < |owes| then multiset(owes[c]) else multiset{}
  }

  /** The checked deliveries it got. */
  ghost function DeliveredBy(run: Run, k: nat, c: nat): multiset<Key>
    requires k <= |run.steps|
  {
    if k == 0 then multiset{}
    else
      var step := run.steps[k - 1];
      DeliveredBy(run, k - 1, c) +
        if step.Receive? && step.c == c && step.checked then multiset{step.key} else multiset{}
  }

  /** The publisher's place agrees with what it did last. */
  ghost predicate Remembers(run: Run, k: nat)
    requires k <= |run.steps| < |run.states|
  {
    match run.states[k].pub
    case Read(now) => now == LastRead(run, k)
    case Ready(now) => now == LastRead(run, k)
    case Awaiting(checked, owes) => LastSent(run, k) == (checked, owes)
    case _ => true
  }

  lemma {:induction false} RemembersStep(run: Run, n: nat, k: nat)
    requires IsRun(run, n) && k < |run.steps| && Remembers(run, k)
    ensures Remembers(run, k + 1)
  {
    StepOf(run, n, k);
    LastsNext(run, k);
    hide IsRun, LastRead, LastSent;
  }

  lemma {:induction false} LastsNext(run: Run, k: nat)
    requires k < |run.steps| < |run.states|
    ensures LastRead(run, k + 1) == if run.steps[k].ReadPhase? then run.states[k].phase else LastRead(run, k)
    ensures LastSent(run, k + 1) ==
      if run.steps[k].Send? then (LastRead(run, k) != Storm, run.steps[k].owes) else LastSent(run, k)
  {
  }

  lemma {:induction false} AccountStep(s: State, step: Step, c: nat)
    requires Enabled(s, step) && c < |s.conns|
    ensures |Next(s, step).conns| == |s.conns|
    ensures
      var before, after := s.conns[c], Next(s, step).conns[c];
      && after.owed == before.owed +
        (if step == Ack(true) && s.pub.Awaiting? && s.pub.checked then multiset(s.pub.owes[c]) else multiset{})
      && after.delivered == before.delivered +
        (if step.Receive? && step.c == c && step.checked then multiset{step.key} else multiset{})
  {
  }

  /** A connection's account is what the steps say. */
  lemma {:induction false} AccountsAre(run: Run, n: nat, k: nat, c: nat)
    requires IsRun(run, n) && k < |run.states| && c < n
    ensures |run.states[k].conns| == n && Remembers(run, k)
    ensures run.states[k].conns[c].owed == OwedBy(run, k, c)
    ensures run.states[k].conns[c].delivered == DeliveredBy(run, k, c)
  {
    hide Next, Enabled, LastSent, LastRead, Remembers, Initial;
    if k > 0 {
      AccountsAre(run, n, k - 1, c);
      RemembersStep(run, n, k - 1);
      StepOf(run, n, k - 1);
      AccountStep(run.states[k - 1], run.steps[k - 1], c);
      AckIsOfLast(run, k - 1);
    } else {
      NoAccounts(run, n, c);
    }
  }

  lemma {:induction false} NoAccounts(run: Run, n: nat, c: nat)
    requires IsRun(run, n) && c < n
    ensures |run.states[0].conns| == n && Remembers(run, 0)
    ensures run.states[0].conns[c].owed == multiset{} == run.states[0].conns[c].delivered
  {
    hide Next, Enabled;
  }

  lemma {:induction false} AckIsOfLast(run: Run, k: nat)
    requires k < |run.steps| < |run.states| && Remembers(run, k) && Enabled(run.states[k], run.steps[k])
    ensures run.steps[k] == Ack(true) ==>
      var pub := run.states[k].pub;
      pub.Awaiting? && LastSent(run, k) == (pub.checked, pub.owes) && |pub.owes| == |run.states[k].conns|
  {
  }

  predicate Drops(s: State, step: Step) {
    step.SeePhase? && step.c < |s.conns| && s.conns[step.c].place == Open && s.phase == Storm &&
      !s.conns[step.c].stormed
  }

  /** Deliveries got against deliveries owed, when there are not fewer of
      them: every one still missing is made up for by one too many, and
      nothing is missing exactly when the surplus is the difference of the
      two numbers. */
  ghost predicate Balanced(owed: multiset<Key>, delivered: multiset<Key>) {
    && |owed| <= |delivered|
    && |owed - delivered| <= |delivered - owed|
    && (owed <= delivered <==> |delivered - owed| == |delivered| - |owed|)
    && (delivered <= owed ==> delivered == owed)
  }

  lemma {:induction false} SettledBalance(run: Run, n: nat, k: nat, c: nat)
    requires IsRun(run, n) && k < |run.states| && c < n
    requires Settled(run.states[k].co) && Compared(run.states[k].co, n) == n
    ensures Unchecked(run.states[k].pub) && Balanced(OwedBy(run, k, c), DeliveredBy(run, k, c))
    ensures c < |run.states[k].conns|
    ensures run.states[k].conns[c].expected == |OwedBy(run, k, c)|
    ensures run.states[k].conns[c].received == |DeliveredBy(run, k, c)|
  {
    RunInv(run, n, k);
    AccountsAre(run, n, k, c);
    SettledIsCaught(run.states[k], c);
    Differences(OwedBy(run, k, c), DeliveredBy(run, k, c));
  }

  lemma {:induction false} SettledIsCaught(s: State, c: nat)
    requires Inv(s) && Settled(s.co) && Compared(s.co, |s.conns|) == |s.conns| && c < |s.conns|
    ensures Unchecked(s.pub) && Caught(s.conns[c])
    ensures s.conns[c].expected == |s.conns[c].owed| && s.conns[c].received == |s.conns[c].delivered|
  {
    assert ConnFits(s.conns[c]);
  }

  /** At a drop after a settled drain no checked event is under way, and the
      connection's account balances: deliveries of all accepted events that
      went out outside the storm, against those received. */
  lemma {:induction false} DropsHaveEverything(run: Run, n: nat, k: nat)
    requires IsRun(run, n) && k < |run.steps| && Drops(run.states[k], run.steps[k])
    requires run.states[k].co.Reconnecting? && run.states[k].co.settled
    ensures Unchecked(run.states[k].pub)
    ensures
      var conn, c := run.states[k].conns[run.steps[k].c], run.steps[k].c;
      var owed, delivered := OwedBy(run, k, c), DeliveredBy(run, k, c);
      && conn.expected == |owed| && conn.received == |delivered|
      && |owed - delivered| + conn.received == |delivered - owed| + conn.expected
      && |owed - delivered| <= |delivered - owed|
      && (owed <= delivered <==> |delivered - owed| == conn.received - conn.expected)
      && (delivered <= owed ==> delivered == owed)
  {
    hide Inv, OwedBy, DeliveredBy;
    RunInv(run, n, k);
    SettledBalance(run, n, k, run.steps[k].c);
    Differences(OwedBy(run, k, run.steps[k].c), DeliveredBy(run, k, run.steps[k].c));
  }

  /** And so it does from a settled final drain on, unless the publisher was
      about to clear `paused` when the drain saw it. */
  lemma {:induction false} StopsHaveEverything(run: Run, n: nat, k: nat, c: nat)
    requires IsRun(run, n) && k < |run.states| && c < n
    requires run.states[k].co == Ending(true, false)
    ensures c < |run.states[k].conns| && Unchecked(run.states[k].pub)
    ensures Balanced(OwedBy(run, k, c), DeliveredBy(run, k, c))
    ensures run.states[k].conns[c].expected == |OwedBy(run, k, c)|
    ensures run.states[k].conns[c].received == |DeliveredBy(run, k, c)|
  {
    hide Inv, OwedBy, DeliveredBy;
    RunInv(run, n, k);
    SettledBalance(run, n, k, c);
  }

  lemma {:induction false} Differences(a: multiset<Key>, b: multiset<Key>)
    ensures |a - b| + |b| == |b - a| + |a|
    ensures a <= b <==> |a - b| == 0
    ensures b <= a && |b| >= |a| ==> a == b
  {
    assert a == (a - b) + (a * b) && b == (b - a) + (a * b);
    assert |a| == |a - b| + |a * b| && |b| == |b - a| + |a * b|;
    if |a - b| == 0 {
      assert a - b == multiset{};
      assert forall x :: (a - b)[x] == 0;
    }
    if b <= a && |b| >= |a| {
      assert a - b == multiset{};
    }
  }

  /** The drop happens only in the storm, so only after the drain. */
  lemma {:induction false} DropsAreInStorm(run: Run, n: nat, k: nat)
    requires IsRun(run, n) && k < |run.steps| && Drops(run.states[k], run.steps[k])
    ensures run.states[k].co.Reconnecting?
  {
    RunInv(run, n, k);
  }

  /** A checked event goes out only while every connection that has not failed
      is past its EOSE. Excepted are the storm after a drain that timed out,
      and Stop after one that did or saw a stale `paused`. */
  lemma {:induction false} CheckedEventsAreHeard(run: Run, n: nat, k: nat, c: nat)
    requires IsRun(run, n) && k < |run.steps| && c < n
    requires run.steps[k].Send? && run.states[k].pub.Ready? && run.states[k].pub.now != Storm
    requires run.states[k].co.Reconnecting? ==> run.states[k].co.settled
    requires run.states[k].phase == Stop ==> run.states[k].co == Ending(true, false)
    ensures c < |run.states[k].conns|
    ensures run.states[k].conns[c].place == Open || run.states[k].conns[c].place == Failed
  {
    hide ConnsFit, SignalsFit, CountsFit, CaughtUp, LoadFits, AllCounted;
    var s := run.states[k];
    RunInv(run, n, k);
    ConnAt(s, c);
  }

  /** After a settled final drain that saw no stale `paused`, no checked event
      goes out at all. */
  lemma {:induction false} NoLateSend(run: Run, n: nat, k: nat)
    requires IsRun(run, n) && k < |run.states| && run.states[k].co == Ending(true, false)
    ensures run.states[k].pub.Ready? ==> run.states[k].pub.now == Storm
  {
    RunInv(run, n, k);
  }

  /** How often connection `c` came back from a drop. */
  ghost function Rejoins(run: Run, k: nat, c: nat): nat
    requires |run.states| == |run.steps| + 1 && k <= |run.steps|
  {
    if k == 0 then 0
    else
      var s := run.states[k - 1];
      Rejoins(run, k - 1, c) +
      (if run.steps[k - 1] == Eose(c) && c < |s.conns| && s.conns[c].place == Rejoining then 1 else 0)
  }

  lemma {:induction false} RejoinsAre(run: Run, n: nat, k: nat, c: nat)
    requires IsRun(run, n) && k < |run.states| && c < n
    ensures |run.states[k].conns| == n
    ensures Rejoins(run, k, c) == if run.states[k].conns[c].signals == 2 then 1 else 0
  {
    RunInv(run, n, k);
    if k > 0 {
      hide *;
      RejoinsAre(run, n, k - 1, c);
      RunInv(run, n, k - 1);
      StepOf(run, n, k - 1);
      RejoinsNext(run, n, k - 1, c);
      SignalsMove(run.states[k - 1], run.steps[k - 1], c);
    }
  }

  lemma {:induction false} StepOf(run: Run, n: nat, k: nat)
    requires IsRun(run, n) && k < |run.steps|
    ensures Enabled(run.states[k], run.steps[k]) && run.states[k + 1] == Next(run.states[k], run.steps[k])
  {
    assert Moves(run, k);
  }

  lemma {:induction false} RejoinsNext(run: Run, n: nat, k: nat, c: nat)
    requires IsRun(run, n) && k < |run.steps| && c < |run.states[k].conns|
    ensures Rejoins(run, k + 1, c) == Rejoins(run, k, c) +
      (if run.steps[k] == Eose(c) && run.states[k].conns[c].place == Rejoining then 1 else 0)
  {
  }

  lemma {:induction false} SignalsMove(s: State, step: Step, c: nat)
    requires Inv(s) && Enabled(s, step) && c < |s.conns|
    requires |Next(s, step).conns| == |s.conns|
    ensures
      var before, after := s.conns[c].signals, Next(s, step).conns[c].signals;
      if step == Eose(c) then after == before + 1 && (s.conns[c].place == Rejoining <==> after == 2)
      else after == before
  {
  }

  /** Recovered starts only after every connection has come back, each
      exactly once; none ever comes back twice. */
  lemma {:induction false} RecoveredAfterAll(run: Run, n: nat, k: nat, c: nat)
    requires IsRun(run, n) && k < |run.states| && c < n
    ensures Rejoins(run, k, c) <= 1
    ensures run.states[k].phase == Recovered ==> Rejoins(run, k, c) == 1
  {
    RejoinsAre(run, n, k, c);
    RunInv(run, n, k);
    assert ConnInPhase(run.states[k], run.states[k].conns[c]);
  }

  // ------------------------------------------------------------------
  // Without the condition
  // ------------------------------------------------------------------

  lemma {:induction false} Extend(run: Run, n: nat, step: Step) returns (more: Run)
    requires IsRun(run, n) && Enabled(run.states[|run.steps|], step)
    ensures IsRun(more, n) && more.steps == run.steps + [step] && |more.states| == |run.states| + 1
    ensures more.states[|more.steps|] == Next(run.states[|run.steps|], step)
    ensures more.states[|run.steps|] == run.states[|run.steps|]
  {
    more := Run(run.states + [Next(run.states[|run.steps|], step)], run.steps + [step]);
    forall k | 0 <= k < |more.steps|
      ensures Moves(more, k)
    {
      assert k < |run.steps| ==> Moves(run, k);
    }
  }

  /** Two of the connection's slots match the one event, and the relay
      delivers it twice to the first. */
  ghost predicate OneLost(s: State) {
    && |s.conns| == 1
    && s.conns[0].place == Open && !s.conns[0].stormed
    && s.conns[0].expected == s.conns[0].received == |s.conns[0].owed| == 2
    && Key(0, 1) in s.conns[0].owed - s.conns[0].delivered
  }

  lemma {:induction false} Joined() returns (run: Run)
    ensures IsRun(run, 1)
    ensures var s := run.states[|run.steps|];
      && s.phase == Setup && s.co == Running && s.pub == Idle && s.ready == 0 && |s.conns| == 1
      && s.conns[0] == Conn(Open, false, 1, 0, 0, multiset{}, multiset{})
  {
    run := Run([Initial(1)], []);
    run := Extend(run, 1, Eose(0));
    run := Extend(run, 1, Gather);
    run := Extend(run, 1, Advance);
  }

  lemma {:induction false} LossBeforeAck() returns (run: Run)
    ensures IsRun(run, 1)
    ensures var s := run.states[|run.steps|];
      && s.phase == Setup && s.co == Running && s.pub == Awaiting(true, [{Key(0, 0), Key(0, 1)}]) && |s.conns| == 1
      && s.conns[0] == Conn(Open, false, 1, 0, 2, multiset{Key(0, 0), Key(0, 0)}, multiset{})
  {
    run := Joined();
    run := Extend(run, 1, ReadPhase);
    run := Extend(run, 1, StorePaused);
    run := Extend(run, 1, Send([{Key(0, 0), Key(0, 1)}]));
    run := Extend(run, 1, Receive(0, Key(0, 0), true));
    run := Extend(run, 1, Receive(0, Key(0, 0), true));
  }

  lemma {:induction false} LossAcked() returns (run: Run)
    ensures IsRun(run, 1)
    ensures var s := run.states[|run.steps|]; s.phase == Setup && s.co == Running && s.pub == Idle && OneLost(s)
  {
    run := LossBeforeAck();
    run := Extend(run, 1, Ack(true));
    run := Extend(run, 1, Count);
    run := Extend(run, 1, Count);
  }

  lemma {:induction false} LossCounted() returns (run: Run)
    ensures IsRun(run, 1)
    ensures var s := run.states[|run.steps|];
      s.phase == Quiet && s.co == Draining && s.pub == Idle && OneLost(s)
  {
    run := LossAcked();
    run := Extend(run, 1, Advance);
    run := Extend(run, 1, Advance);
    run := Extend(run, 1, Advance);
  }

  /** The condition is needed: a relay that delivers one event twice lets a
      connection drop, after a settled drain, before another delivery came. */
  lemma {:induction false} DuplicateHidesLoss() returns (run: Run)
    ensures IsRun(run, 1)
    ensures var s := run.states[|run.steps|];
      s.co.Reconnecting? && s.co.settled && Drops(s, SeePhase(0)) && OneLost(s)
  {
    run := LossCounted();
    run := Extend(run, 1, ReadPhase);
    run := Extend(run, 1, StorePaused);
    run := Extend(run, 1, SeePaused);
    run := Extend(run, 1, LoadReceived);
    run := Extend(run, 1, Compare);
    run := Extend(run, 1, Advance);
    run := Extend(run, 1, Advance);
  }

  /** The next send is of a checked event, and the connection does not hear it. */
  ghost predicate Unheard(s: State) {
    s.pub.Ready? && s.pub.now != Storm && |s.conns| == 1 && s.conns[0].place != Open && s.conns[0].place != Failed
  }

  /** After a drain that timed out a checked event may go out in the storm. */
  lemma {:induction false} TimedOutDrainIsUnheard() returns (run: Run)
    ensures IsRun(run, 1)
    ensures var s := run.states[|run.steps|]; s.phase == Storm && Unheard(s)
  {
    run := Joined();
    run := Extend(run, 1, ReadPhase);
    run := Extend(run, 1, StorePaused);
    run := Extend(run, 1, Advance);
    run := Extend(run, 1, Advance);
    run := Extend(run, 1, Advance);
    run := Extend(run, 1, TimeOut);
    run := Extend(run, 1, Advance);
    run := Extend(run, 1, SeePhase(0));
  }

  lemma {:induction false} Returned() returns (run: Run)
    ensures IsRun(run, 1)
    ensures var s := run.states[|run.steps|];
      && s.phase == Recovered && s.co.Recovering? && s.pub == Idle && s.paused
      && |s.conns| == 1 && s.conns[0] == Conn(Open, true, 2, 0, 0, multiset{}, multiset{})
  {
    run := Stormed();
    run := Extend(run, 1, SeePhase(0));
    run := Extend(run, 1, Eose(0));
    run := Extend(run, 1, Gather);
    run := Extend(run, 1, Advance);
  }

  /** The publisher pauses before the storm and does not tick during it. */
  lemma {:induction false} Stormed() returns (run: Run)
    ensures IsRun(run, 1)
    ensures var s := run.states[|run.steps|];
      && s.phase == Storm && s.co == Reconnecting(0, false) && s.pub == Idle && s.paused && s.ready == 0
      && |s.conns| == 1 && s.conns[0] == Conn(Open, false, 1, 0, 0, multiset{}, multiset{})
  {
    run := Joined();
    run := Extend(run, 1, Advance);
    run := Extend(run, 1, Advance);
    run := Extend(run, 1, Advance);
    run := Extend(run, 1, ReadPhase);
    run := Extend(run, 1, StorePaused);
    run := Extend(run, 1, TimeOut);
    run := Extend(run, 1, Advance);
  }

  /** And so it may after Stop, where the drain before it times out, */
  lemma {:induction false} LateSendIsUnheard() returns (run: Run)
    ensures IsRun(run, 1)
    ensures var s := run.states[|run.steps|]; s.phase == Stop && s.co == Ending(false, false) && Unheard(s)
  {
    run := Returned();
    run := Extend(run, 1, ReadPhase);
    run := Extend(run, 1, StorePaused);
    run := Extend(run, 1, Advance);
    run := Extend(run, 1, TimeOut);
    run := Extend(run, 1, Advance);
    run := Extend(run, 1, SeePhase(0));
  }

  /** or settles on a `paused` left over from before the storm. */
  lemma {:induction false} StaleSendIsUnheard() returns (run: Run)
    ensures IsRun(run, 1)
    ensures var s := run.states[|run.steps|]; s.phase == Stop && s.co == Ending(true, true) && Unheard(s)
  {
    run := StaleSettled();
    run := Extend(run, 1, Advance);
    run := Extend(run, 1, StorePaused);
    run := Extend(run, 1, SeePhase(0));
  }

  lemma {:induction false} StaleSettled() returns (run: Run)
    ensures IsRun(run, 1)
    ensures var s := run.states[|run.steps|];
      && s.phase == Quiet && s.co == Ending(true, true) && s.pub == Read(Recovered)
      && |s.conns| == 1 && s.conns[0] == Conn(Open, true, 2, 0, 0, multiset{}, multiset{})
  {
    run := StaleSeen();
    run := Extend(run, 1, LoadReceived);
    run := Extend(run, 1, Compare);
    run := Extend(run, 1, Advance);
  }

  lemma {:induction false} StaleSeen() returns (run: Run)
    ensures IsRun(run, 1)
    ensures var s := run.states[|run.steps|];
      && s.phase == Quiet && s.co == FinalSettling(0, true) && s.pub == Read(Recovered)
      && |s.conns| == 1 && s.conns[0] == Conn(Open, true, 2, 0, 0, multiset{}, multiset{})
  {
    run := Returned();
    run := Extend(run, 1, ReadPhase);
    run := Extend(run, 1, Advance);
    run := Extend(run, 1, SeePaused);
  }
}
