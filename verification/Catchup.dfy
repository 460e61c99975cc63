/**
 The catch-up driver (catchup.rs): negentropy syncs, taken from one shared
 queue and run over several connections, each up to its number of slots.

 The relay is arbitrary: a step may deliver any message, and any send may
 fail. A reconciliation step returns an arbitrary next message, end or
 error. Byte counts, times and message texts are left out; problems are
 kept in no order.
 */
module Catchup {

  import opened Basics

  type Id = nat

  const FETCH_BATCH: nat := 500

  datatype Problem = Unreturned(id: Id) | Twice(id: Id) | Unrequested(id: Id) | Altered(id: Id) | NoId

  /** One job's state. With `neg` set its ids are still being compared;
      `Accounted` says what the other fields hold in either half. */
  datatype Sync = Sync(
    job: nat,
    neg: bool,
    have: seq<Id>,
    need: seq<Id>,
    queue: seq<Id>,
    batch: set<Id>,
    batchNo: nat,
    returned: set<Id>,
    fetched: nat,
    problems: multiset<Problem>)

  /** What a NEG-MSG does to the initiator: its lists of ids held and needed
      change, and it has a next message, is done, or cannot go on. */
  datatype Reply = More(have: seq<Id>, need: seq<Id>) | Reconciled(have: seq<Id>, need: seq<Id>) | Bad

  datatype Frame =
    | NegMsg(job: nat, reply: Reply)
    | NegErr(job: nat)
    | Event(job: nat, batch: nat, id: Option<Id>, altered: bool)
    | Eose(job: nat, batch: nat)
    | Closed(job: nat, batch: nat)
    | Notice
    | Auth
    | Garbage

  /** One connection's syncs and results. */
  datatype Conn = Conn(
    live: map<nat, Sync>,
    done: seq<Sync>,
    refused: seq<nat>,
    fetchRefused: seq<Sync>,
    failed: seq<nat>,
    errors: nat,
    notices: nat)

  const NoSyncs: Conn := Conn(map[], [], [], [], [], 0, 0)

  function Opened(job: nat): Sync {
    Sync(job, true, [], [], [], {}, 0, {}, 0, multiset{})
  }

  // ------------------------------------------------------------------
  // What the handlers do, on values. The flag says whether every send
  // succeeded; `ok1` and `ok2` are the outcomes of a handler's sends.
  // ------------------------------------------------------------------

  function Without(live: map<nat, Sync>, job: nat): map<nat, Sync> {
    live - {job}
  }

  function LastBatch(queue: seq<Id>): seq<Id> {
    queue[|queue| - Min(|queue|, FETCH_BATCH)..]
  }

  function Request(s: Sync): Sync {
    s.(queue := s.queue[..|s.queue| - Min(|s.queue|, FETCH_BATCH)],
       batch := SetOf(LastBatch(s.queue)),
       batchNo := s.batchNo + 1)
  }

  function AfterFetchNext(c: Conn, job: nat, ok: bool): (Conn, bool)
    requires job in c.live
  {
    var s := c.live[job];
    if s.queue == [] then (c.(live := Without(c.live, job), done := c.done + [s]), true)
    else (c.(live := c.live[job := Request(s)]), ok)
  }

  predicate Reconciling(c: Conn, job: nat) {
    job in c.live && c.live[job].neg
  }

  predicate Fetching(c: Conn, job: nat, batch: nat) {
    job in c.live && c.live[job].batchNo == batch && !c.live[job].neg
  }

  function AfterNegMsg(c: Conn, job: nat, reply: Reply, ok1: bool, ok2: bool): (Conn, bool) {
    if !Reconciling(c, job) then (c.(errors := c.errors + 1), true)
    else
      var s := c.live[job];
      match reply
      case More(have, need) => (c.(live := c.live[job := s.(have := have, need := need)]), ok1)
      case Reconciled(have, need) =>
        var s := s.(have := have, need := need, neg := false);
        if !ok1 then (c.(live := c.live[job := s]), false)
        else AfterFetchNext(c.(live := c.live[job := s.(queue := need)]), job, ok2)
      case Bad => (c.(live := Without(c.live, job), failed := c.failed + [job]), ok1)
  }

  function Returned(s: Sync, id: Option<Id>, altered: bool): Sync {
    if id.None? then s.(problems := s.problems + multiset{NoId})
    else if id.value !in s.batch then
      var problem := if id.value in s.returned then Twice(id.value) else Unrequested(id.value);
      s.(problems := s.problems + multiset{problem})
    else
      s.(batch := s.batch - {id.value},
         returned := s.returned + {id.value},
         fetched := s.fetched + 1,
         problems := s.problems + (if altered then multiset{Altered(id.value)} else multiset{}))
  }

  function AfterEvent(c: Conn, job: nat, batch: nat, id: Option<Id>, altered: bool): Conn {
    if !Fetching(c, job, batch) then c.(errors := c.errors + 1)
    else c.(live := c.live[job := Returned(c.live[job], id, altered)])
  }

  function GiveUp(s: Sync): Sync {
    s.(batch := {}, problems := s.problems + multiset(set id | id in s.batch :: Unreturned(id)))
  }

  function AfterEose(c: Conn, job: nat, batch: nat, ok1: bool, ok2: bool): (Conn, bool) {
    if !Fetching(c, job, batch) then (c.(errors := c.errors + 1), true)
    else
      var c := c.(live := c.live[job := GiveUp(c.live[job])]);
      if !ok1 then (c, false) else AfterFetchNext(c, job, ok2)
  }

  function AfterFrame(c: Conn, frame: Frame, ok1: bool, ok2: bool): (Conn, bool) {
    match frame
    case NegMsg(job, reply) => AfterNegMsg(c, job, reply, ok1, ok2)
    case NegErr(job) =>
      if Reconciling(c, job) then (c.(live := Without(c.live, job), refused := c.refused + [job]), true)
      else (c.(errors := c.errors + 1), true)
    case Event(job, batch, id, altered) => (AfterEvent(c, job, batch, id, altered), true)
    case Eose(job, batch) => AfterEose(c, job, batch, ok1, ok2)
    case Closed(job, batch) =>
      if Fetching(c, job, batch) then
        (c.(live := Without(c.live, job), refused := c.refused + [job],
            fetchRefused := c.fetchRefused + [c.live[job]]), true)
      else (c, true)
    case Notice => (c.(notices := c.notices + 1), true)
    case Auth => (c, true)
    case Garbage => (c.(errors := c.errors + 1), true)
  }

  /** A sync that could not be initiated fails at once; any other is live,
      also when sending its NEG-OPEN fails. */
  function AfterStart(c: Conn, job: nat, initiated: bool): Conn {
    if !initiated then c.(failed := c.failed + [job])
    else c.(live := c.live[job := Opened(job)])
  }

  // ------------------------------------------------------------------
  // No sync is lost or counted twice by a connection
  // ------------------------------------------------------------------

  function JobsOf(done: seq<Sync>): seq<nat> {
    seq(|done|, i requires 0 <= i < |done| => done[i].job)
  }

  /** Every sync the connection took, in flight or ended. */
  function Held(c: Conn): multiset<nat> {
    multiset(c.live.Keys) + multiset(JobsOf(c.done)) + multiset(c.refused) + multiset(c.failed)
  }

  ghost predicate Named(c: Conn) {
    forall j :: j in c.live ==> c.live[j].job == j
  }

  lemma {:induction false} KeepsHeld(c: Conn, job: nat, s: Sync)
    requires job in c.live && s.job == job && Named(c)
    ensures Named(c.(live := c.live[job := s])) && Held(c.(live := c.live[job := s])) == Held(c)
  {
  }

  lemma {:induction false} LiveDrops(c: Conn, job: nat)
    requires job in c.live && Named(c)
    ensures multiset(c.live.Keys) == multiset(Without(c.live, job).Keys) + multiset{job}
    ensures Named(c.(live := Without(c.live, job)))
  {
  }

  /** Off the live map and on to exactly one of the three lists. */
  lemma {:induction false} EndsDone(c: Conn, job: nat)
    requires job in c.live && Named(c)
    ensures Held(c.(live := Without(c.live, job), done := c.done + [c.live[job]])) == Held(c)
  {
    hide Without;
    LiveDrops(c, job);
    assert JobsOf(c.done + [c.live[job]]) == JobsOf(c.done) + [job];
  }

  lemma {:induction false} EndsRefused(c: Conn, job: nat)
    requires job in c.live && Named(c)
    ensures Held(c.(live := Without(c.live, job), refused := c.refused + [job])) == Held(c)
  {
  }

  lemma {:induction false} EndsFailed(c: Conn, job: nat)
    requires job in c.live && Named(c)
    ensures Held(c.(live := Without(c.live, job), failed := c.failed + [job])) == Held(c)
  {
  }

  lemma {:induction false} FetchNextHolds(c: Conn, job: nat, ok: bool)
    requires Named(c) && job in c.live
    ensures Named(AfterFetchNext(c, job, ok).0) && Held(AfterFetchNext(c, job, ok).0) == Held(c)
  {
    hide Held, Without;
    EndsDone(c, job);
    LiveDrops(c, job);
    KeepsHeld(c, job, Request(c.live[job]));
  }

  lemma {:induction false} NegMsgHolds(c: Conn, job: nat, reply: Reply, ok1: bool, ok2: bool)
    requires Named(c)
    ensures Named(AfterNegMsg(c, job, reply, ok1, ok2).0) && Held(AfterNegMsg(c, job, reply, ok1, ok2).0) == Held(c)
  {
    hide Without, AfterFetchNext;
    if Reconciling(c, job) {
      var s := c.live[job];
      match reply {
        case More(have, need) => KeepsHeld(c, job, s.(have := have, need := need));
        case Reconciled(have, need) =>
          var s := s.(have := have, need := need, neg := false);
          KeepsHeld(c, job, s);
          KeepsHeld(c, job, s.(queue := need));
          FetchNextHolds(c.(live := c.live[job := s.(queue := need)]), job, ok2);
        case Bad =>
          EndsFailed(c, job);
          LiveDrops(c, job);
      }
    }
  }

  lemma {:induction false} EoseHolds(c: Conn, job: nat, batch: nat, ok1: bool, ok2: bool)
    requires Named(c)
    ensures Named(AfterEose(c, job, batch, ok1, ok2).0) && Held(AfterEose(c, job, batch, ok1, ok2).0) == Held(c)
  {
    hide AfterFetchNext;
    if Fetching(c, job, batch) {
      var s := GiveUp(c.live[job]);
      KeepsHeld(c, job, s);
      FetchNextHolds(c.(live := c.live[job := s]), job, ok2);
    }
  }

  /** Whatever message comes and whichever send fails, the connection's
      syncs stay the same ones, each in one place. */
  lemma {:induction false} FrameHolds(c: Conn, frame: Frame, ok1: bool, ok2: bool)
    requires Named(c)
    ensures Named(AfterFrame(c, frame, ok1, ok2).0) && Held(AfterFrame(c, frame, ok1, ok2).0) == Held(c)
  {
    hide AfterNegMsg, AfterEose, Without;
    match frame {
      case NegMsg(job, reply) => NegMsgHolds(c, job, reply, ok1, ok2);
      case NegErr(job) =>
        if Reconciling(c, job) {
          EndsRefused(c, job);
          LiveDrops(c, job);
        }
      case Event(job, batch, id, altered) =>
        if Fetching(c, job, batch) {
          KeepsHeld(c, job, Returned(c.live[job], id, altered));
        }
      case Eose(job, batch) => EoseHolds(c, job, batch, ok1, ok2);
      case Closed(job, batch) =>
        if Fetching(c, job, batch) {
          EndsRefused(c, job);
          LiveDrops(c, job);
        }
      case _ =>
    }
  }

  lemma {:induction false} StartHolds(c: Conn, job: nat, initiated: bool)
    requires Named(c) && job !in c.live
    ensures Named(AfterStart(c, job, initiated)) && Held(AfterStart(c, job, initiated)) == Held(c) + multiset{job}
  {
  }

  // ------------------------------------------------------------------
  // Every needed id is returned or reported
  // ------------------------------------------------------------------

  ghost predicate Accounted(s: Sync) {
    if s.neg then s.queue == [] && s.batch == {} && s.returned == {} && s.batchNo == 0 && s.problems == multiset{}
    else forall id :: id in s.need <==>
      id in s.queue || id in s.batch || id in s.returned || Unreturned(id) in s.problems
  }

  /** Nothing is left to ask for, and each needed id came or is reported. */
  ghost predicate Settled(s: Sync) {
    && s.queue == [] && s.batch == {}
    && forall id :: id in s.need <==> id in s.returned || Unreturned(id) in s.problems
  }

  ghost predicate Sound(c: Conn) {
    forall j :: j in c.live ==> Accounted(c.live[j])
  }

  ghost predicate AllSettled(done: seq<Sync>) {
    forall i :: 0 <= i < |done| ==> Settled(done[i])
  }

  ghost predicate DoneSound(c: Conn) {
    AllSettled(c.done)
  }

  lemma {:induction false} RequestAccounts(s: Sync)
    requires Accounted(s) && !s.neg && s.batch == {}
    ensures Accounted(Request(s)) && |Request(s).batch| <= FETCH_BATCH
  {
    var rest := s.queue[..|s.queue| - Min(|s.queue|, FETCH_BATCH)];
    assert s.queue == rest + LastBatch(s.queue);
    SetOfSize(LastBatch(s.queue));
  }

  lemma {:induction false} ReturnedAccounts(s: Sync, id: Option<Id>, altered: bool)
    requires Accounted(s) && !s.neg
    ensures Accounted(Returned(s, id, altered)) && !Returned(s, id, altered).neg
  {
  }

  lemma {:induction false} NegMsgSound(c: Conn, job: nat, reply: Reply, ok1: bool, ok2: bool)
    requires Sound(c) && DoneSound(c)
    ensures DoneSound(AfterNegMsg(c, job, reply, ok1, ok2).0)
    ensures AfterNegMsg(c, job, reply, ok1, ok2).1 ==> Sound(AfterNegMsg(c, job, reply, ok1, ok2).0)
  {
  }

  lemma {:induction false} EoseSound(c: Conn, job: nat, batch: nat, ok1: bool, ok2: bool)
    requires Sound(c) && DoneSound(c)
    ensures DoneSound(AfterEose(c, job, batch, ok1, ok2).0)
    ensures Sound(AfterEose(c, job, batch, ok1, ok2).0)
  {
  }

  /** A sync is only done with every needed id returned or reported. */
  lemma {:induction false} FrameSound(c: Conn, frame: Frame, ok1: bool, ok2: bool)
    requires Sound(c) && DoneSound(c)
    ensures DoneSound(AfterFrame(c, frame, ok1, ok2).0)
    ensures AfterFrame(c, frame, ok1, ok2).1 ==> Sound(AfterFrame(c, frame, ok1, ok2).0)
  {
    hide Accounted, Settled, AfterNegMsg, AfterEose, Returned;
    match frame {
      case NegMsg(job, reply) => NegMsgSound(c, job, reply, ok1, ok2);
      case Event(job, batch, id, altered) =>
        if Fetching(c, job, batch) {
          ReturnedAccounts(c.live[job], id, altered);
        }
      case Eose(job, batch) => EoseSound(c, job, batch, ok1, ok2);
      case _ =>
    }
  }

  /** A message ends at most the sync it names and starts none. */
  lemma {:induction false} FrameShrinks(c: Conn, frame: Frame, ok1: bool, ok2: bool)
    ensures AfterFrame(c, frame, ok1, ok2).0.live.Keys <= c.live.Keys
  {
  }

  // ------------------------------------------------------------------
  // All connections
  // ------------------------------------------------------------------

  /** Where a connection's task is: starting syncs, waiting for a message,
      failing what is live, or over, with or without an error. */
  datatype Phase = Filling | Receiving | Failing | Finished(clean: bool)

  datatype Worker = Worker(conn: Conn, phase: Phase, slots: nat)

  /** The queue holds the jobs from `next` on, in order. */
  datatype System = System(next: nat, workers: seq<Worker>)

  /** A step of the task of worker `w`. In `Fail`, `order` is the order in
      which it drops its live syncs. */
  datatype Step =
    | Pop(w: nat, ok: bool)
    | Full(w: nat)
    | Deliver(w: nat, frame: Frame, ok1: bool, ok2: bool)
    | Break(w: nat)
    | Fail(w: nat, order: seq<nat>)

  predicate Enabled(sys: System, step: Step) {
    && step.w < |sys.workers|
    && var w := sys.workers[step.w];
       match step
       case Pop(_, _) => w.phase == Filling && |w.conn.live| < w.slots
       case Full(_) => w.phase == Filling && |w.conn.live| >= w.slots
       case Deliver(_, _, _, _) => w.phase == Receiving
       case Break(_) => w.phase == Receiving
       case Fail(_, order) => w.phase == Failing && multiset(order) == multiset(w.conn.live.Keys)
  }

  /** After filling, a task waits for a message while a sync is live. */
  function Filled(w: Worker): Worker {
    w.(phase := if w.conn.live == map[] then Finished(true) else Receiving)
  }

  function AfterPop(initiated: seq<bool>, next: nat, w: Worker, ok: bool): Worker {
    if next >= |initiated| then Filled(w)
    else w.(conn := AfterStart(w.conn, next, initiated[next]),
            phase := if initiated[next] && !ok then Failing else Filling)
  }

  function Next(initiated: seq<bool>, sys: System, step: Step): System
    requires Enabled(sys, step)
  {
    var w := sys.workers[step.w];
    match step
    case Pop(_, ok) =>
      System(Min(sys.next + 1, |initiated|), sys.workers[step.w := AfterPop(initiated, sys.next, w, ok)])
    case Full(_) => sys.(workers := sys.workers[step.w := Filled(w)])
    case Deliver(_, frame, ok1, ok2) =>
      var (conn, ok) := AfterFrame(w.conn, frame, ok1, ok2);
      sys.(workers := sys.workers[step.w := w.(conn := conn, phase := if ok then Filling else Failing)])
    case Break(_) => sys.(workers := sys.workers[step.w := w.(phase := Failing)])
    case Fail(_, order) =>
      var conn := w.conn.(live := map[], failed := w.conn.failed + order);
      sys.(workers := sys.workers[step.w := w.(conn := conn, phase := Finished(false))])
  }

  function AllHeld(workers: seq<Worker>): multiset<nat> {
    if workers == [] then multiset{} else AllHeld(workers[..|workers| - 1]) + Held(workers[|workers| - 1].conn)
  }

  lemma {:induction false} AllHeldUpdate(workers: seq<Worker>, k: nat, w: Worker)
    requires k < |workers|
    ensures Held(workers[k].conn) <= AllHeld(workers)
    ensures AllHeld(workers[k := w]) == AllHeld(workers) - Held(workers[k].conn) + Held(w.conn)
  {
    hide Held;
    var last := |workers| - 1;
    if k < last {
      AllHeldUpdate(workers[..last], k, w);
      assert workers[k := w][..last] == workers[..last][k := w];
    } else {
      assert workers[k := w][..last] == workers[..last];
    }
  }

  function FirstJobs(n: nat): (jobs: seq<nat>)
    ensures |jobs| == n && forall i :: 0 <= i < n ==> jobs[i] == i
  {
    seq(n, i => i)
  }

  ghost predicate WorkerOk(w: Worker, idle: bool) {
    && w.slots > 0 && |w.conn.live| <= w.slots
    && Named(w.conn) && DoneSound(w.conn)
    && (w.phase != Failing ==> Sound(w.conn))
    && (w.phase == Receiving ==> w.conn.live != map[] && (idle || |w.conn.live| == w.slots))
    && (w.phase.Finished? ==> w.conn.live == map[])
    && (w.phase == Finished(true) ==> idle)
  }

  ghost predicate Inv(initiated: seq<bool>, sys: System) {
    && sys.next <= |initiated|
    && (forall k :: 0 <= k < |sys.workers| ==> WorkerOk(sys.workers[k], sys.next == |initiated|))
    && AllHeld(sys.workers) == multiset(FirstJobs(sys.next))
  }

  /** A worker that keeps its syncs, or takes the next one, keeps the rest
      of the system right. */
  lemma {:induction false} Replace(initiated: seq<bool>, sys: System, k: nat, w: Worker, next: nat)
    requires Inv(initiated, sys) && k < |sys.workers| && next <= |initiated|
    requires WorkerOk(w, next == |initiated|)
    requires
      || (next == sys.next && Held(w.conn) == Held(sys.workers[k].conn))
      || (next == sys.next + 1 && Held(w.conn) == Held(sys.workers[k].conn) + multiset{sys.next})
    ensures Inv(initiated, System(next, sys.workers[k := w]))
  {
    hide Held, FirstJobs, AllHeld;
    var sys' := System(next, sys.workers[k := w]);
    assert AllHeld(sys'.workers) == multiset(FirstJobs(next)) by {
      HeldAfter(sys, k, w, next);
    }
    forall i | 0 <= i < |sys'.workers|
      ensures WorkerOk(sys'.workers[i], next == |initiated|)
    {
      assert i != k ==> WorkerOk(sys.workers[i], sys.next == |initiated|);
      hide Held, FirstJobs, AllHeld;
    }
  }

  lemma {:induction false} HeldAfter(sys: System, k: nat, w: Worker, next: nat)
    requires k < |sys.workers| && AllHeld(sys.workers) == multiset(FirstJobs(sys.next))
    requires
      || (next == sys.next && Held(w.conn) == Held(sys.workers[k].conn))
      || (next == sys.next + 1 && Held(w.conn) == Held(sys.workers[k].conn) + multiset{sys.next})
    ensures AllHeld(sys.workers[k := w]) == multiset(FirstJobs(next))
  {
    hide *;
    AllHeldUpdate(sys.workers, k, w);
    var held, held' := AllHeld(sys.workers), AllHeld(sys.workers[k := w]);
    var own := Held(sys.workers[k].conn);
    if next == sys.next {
      Cancel(held', held, own, Held(w.conn), multiset{});
    } else {
      FirstJobsStep(sys.next);
      Cancel(held', held, own, Held(w.conn), multiset{sys.next});
    }
  }

  lemma {:induction false} FirstJobsStep(n: nat)
    ensures multiset(FirstJobs(n + 1)) == multiset(FirstJobs(n)) + multiset{n}
  {
    assert FirstJobs(n + 1) == FirstJobs(n) + [n];
  }

  lemma {:induction false} Cancel(all': multiset<nat>, all: multiset<nat>, own: multiset<nat>, own': multiset<nat>,
                                  more: multiset<nat>)
    requires own <= all && all' == all - own + own' && own' == own + more
    ensures all' == all + more
  {
  }

  /** The next job is not already with a worker. */
  lemma {:induction false} NotTaken(initiated: seq<bool>, sys: System, k: nat)
    requires Inv(initiated, sys) && k < |sys.workers|
    ensures sys.next !in sys.workers[k].conn.live
  {
    AllHeldUpdate(sys.workers, k, sys.workers[k]);
    assert sys.next !in FirstJobs(sys.next);
    assert sys.next !in AllHeld(sys.workers);
    assert sys.next !in Held(sys.workers[k].conn);
    assert multiset(sys.workers[k].conn.live.Keys) <= Held(sys.workers[k].conn);
  }

  lemma {:induction false} FilledOk(w: Worker, idle: bool)
    requires WorkerOk(w, idle) && w.phase == Filling && (idle || |w.conn.live| >= w.slots)
    ensures WorkerOk(Filled(w), idle)
  {
  }

  lemma {:induction false} StartOk(w: Worker, job: nat, initiated: bool, phase: Phase, idle: bool)
    requires WorkerOk(w, false) && w.phase == Filling && |w.conn.live| < w.slots && job !in w.conn.live
    requires phase == Filling || phase == Failing
    ensures WorkerOk(w.(conn := AfterStart(w.conn, job, initiated), phase := phase), idle)
  {
  }

  lemma {:induction false} PopOk(initiated: seq<bool>, sys: System, step: Step)
    requires Inv(initiated, sys) && Enabled(sys, step) && step.Pop?
    ensures Inv(initiated, Next(initiated, sys, step))
  {
    hide Held;
    var w := sys.workers[step.w];
    var n := |initiated|;
    var w' := AfterPop(initiated, sys.next, w, step.ok);
    if sys.next == n {
      FilledOk(w, true);
      Replace(initiated, sys, step.w, w', n);
    } else {
      NotTaken(initiated, sys, step.w);
      StartHolds(w.conn, sys.next, initiated[sys.next]);
      assert WorkerOk(w, false);
      StartOk(w, sys.next, initiated[sys.next], w'.phase, sys.next + 1 == n);
      Replace(initiated, sys, step.w, w', sys.next + 1);
    }
  }

  lemma {:induction false} DeliverOk(initiated: seq<bool>, sys: System, step: Step)
    requires Inv(initiated, sys) && Enabled(sys, step) && step.Deliver?
    ensures Inv(initiated, Next(initiated, sys, step))
  {
    hide AfterFrame, Named, Sound, DoneSound, Held;
    var w := sys.workers[step.w];
    var idle := sys.next == |initiated|;
    assert WorkerOk(w, idle);
    var (conn, ok) := AfterFrame(w.conn, step.frame, step.ok1, step.ok2);
    FrameHolds(w.conn, step.frame, step.ok1, step.ok2);
    FrameSound(w.conn, step.frame, step.ok1, step.ok2);
    FrameShrinks(w.conn, step.frame, step.ok1, step.ok2);
    SubsetSize(conn.live.Keys, w.conn.live.Keys);
    var w' := w.(conn := conn, phase := if ok then Filling else Failing);
    assert WorkerOk(w', idle);
    Replace(initiated, sys, step.w, w', sys.next);
  }

  lemma {:induction false} FailOk(initiated: seq<bool>, sys: System, step: Step)
    requires Inv(initiated, sys) && Enabled(sys, step) && step.Fail?
    ensures Inv(initiated, Next(initiated, sys, step))
  {
    var w := sys.workers[step.w];
    assert WorkerOk(w, sys.next == |initiated|);
    var conn := w.conn.(live := map[], failed := w.conn.failed + step.order);
    assert Held(conn) == Held(w.conn);
    Replace(initiated, sys, step.w, w.(conn := conn, phase := Finished(false)), sys.next);
    hide Held, Inv;
  }

  lemma {:induction false} InvStep(initiated: seq<bool>, sys: System, step: Step)
    requires Inv(initiated, sys) && Enabled(sys, step)
    ensures Inv(initiated, Next(initiated, sys, step))
  {
    hide Held, AfterFrame, AfterPop;
    var w := sys.workers[step.w];
    var idle := sys.next == |initiated|;
    assert WorkerOk(w, idle);
    match step {
      case Pop(_, _) => PopOk(initiated, sys, step);
      case Full(_) =>
        FilledOk(w, idle);
        Replace(initiated, sys, step.w, Filled(w), sys.next);
      case Deliver(_, _, _, _) => DeliverOk(initiated, sys, step);
      case Break(_) => Replace(initiated, sys, step.w, w.(phase := Failing), sys.next);
      case Fail(_, _) => FailOk(initiated, sys, step);
    }
  }

  // ------------------------------------------------------------------
  // What becomes of each sync, read off the steps alone
  // ------------------------------------------------------------------

  /** Which jobs can be initiated, and the steps taken. */
  datatype Past = Past(initiated: seq<bool>, steps: seq<Step>)

  /** Where a job stands: with nobody, with worker `w`, which compares its ids
      or asks for a batch of those it needs, or over. */
  datatype Stage =
    | Waiting
    | Comparing(w: nat)
    | Asking(w: nat, have: seq<Id>, need: seq<Id>, batch: nat)
    | Over

  predicate OnWorker(stage: Stage, w: nat) {
    (stage.Comparing? || stage.Asking?) && stage.w == w
  }

  predicate IsAsking(stage: Stage, w: nat, batch: nat) {
    stage.Asking? && stage.w == w && stage.batch == batch
  }

  predicate Names(frame: Frame) {
    !frame.Notice? && !frame.Auth? && !frame.Garbage?
  }

  predicate IsAbout(step: Step, job: nat) {
    step.Deliver? && Names(step.frame) && step.frame.job == job
  }

  /** The step ends the sync with nothing left to ask for. */
  predicate Completes(stage: Stage, step: Step, job: nat) {
    && IsAbout(step, job) && step.ok1
    && match step.frame
       case NegMsg(_, Reconciled(_, need)) => stage == Comparing(step.w) && need == []
       case Eose(_, batch) => IsAsking(stage, step.w, batch) && |stage.need| <= batch * FETCH_BATCH
       case _ => false
  }

  /** The relay refuses the comparison, or the open batch. */
  predicate Refuses(stage: Stage, step: Step, job: nat) {
    && IsAbout(step, job)
    && match step.frame
       case NegErr(_) => stage == Comparing(step.w)
       case Closed(_, batch) => IsAsking(stage, step.w, batch)
       case _ => false
  }

  /** The job is the next one and a worker takes it. */
  predicate Takes(p: Past, taken: nat, step: Step, job: nat) {
    step.Pop? && taken == job < |p.initiated|
  }

  /** It could not be initiated, the comparison cannot go on, or its
      connection is given up. */
  predicate Fails(p: Past, taken: nat, stage: Stage, step: Step, job: nat) {
    || (Takes(p, taken, step, job) && !p.initiated[job])
    || (IsAbout(step, job) && stage == Comparing(step.w) && step.frame.NegMsg? && step.frame.reply == Bad)
    || (step.Fail? && OnWorker(stage, step.w))
  }

  function Taken(p: Past, k: nat): nat
    requires k <= |p.steps|
  {
    if k == 0 then 0 else Taken(p, k - 1) + if p.steps[k - 1].Pop? then 1 else 0
  }

  function StageAfter(p: Past, taken: nat, stage: Stage, step: Step, job: nat): Stage {
    if Completes(stage, step, job) || Refuses(stage, step, job) || Fails(p, taken, stage, step, job) then Over
    else if Takes(p, taken, step, job) then Comparing(step.w)
    else if IsAbout(step, job) && step.frame.NegMsg? && step.frame.reply.Reconciled? && stage == Comparing(step.w) then
      Asking(step.w, step.frame.reply.have, step.frame.reply.need, 1)
    else if IsAbout(step, job) && step.frame.Eose? && IsAsking(stage, step.w, step.frame.batch) then
      stage.(batch := stage.batch + 1)
    else stage
  }

  /** Where `job` stands after the first `k` steps. */
  function StageAt(p: Past, k: nat, job: nat): Stage
    requires k <= |p.steps|
  {
    if k == 0 then Waiting else StageAfter(p, Taken(p, k - 1), StageAt(p, k - 1, job), p.steps[k - 1], job)
  }

  /** The ids batch `batch` asks for: they are taken from the end, 500 at a time. */
  function Asked(need: seq<Id>, batch: nat): set<Id> {
    var end := |need| - Min(|need|, (if batch == 0 then 0 else batch - 1) * FETCH_BATCH);
    SetOf(need[|need| - Min(|need|, batch * FETCH_BATCH)..end])
  }

  /** Step `i` brings an event of the job's open batch. */
  predicate Brings(p: Past, i: nat, job: nat)
    requires i < |p.steps|
  {
    var step := p.steps[i];
    IsAbout(step, job) && step.frame.Event? && IsAsking(StageAt(p, i, job), step.w, step.frame.batch)
  }

  /** ... with an id the batch asks for. */
  predicate Answers(p: Past, i: nat, job: nat)
    requires i < |p.steps|
  {
    && Brings(p, i, job) && p.steps[i].frame.id.Some?
    && p.steps[i].frame.id.value in Asked(StageAt(p, i, job).need, p.steps[i].frame.batch)
  }

  /** The ids asked for by batch `batch` that came, within `k` steps. */
  function HeardIn(p: Past, k: nat, job: nat, batch: nat): set<Id>
    requires k <= |p.steps|
  {
    if k == 0 then {}
    else HeardIn(p, k - 1, job, batch) +
         if Answers(p, k - 1, job) && p.steps[k - 1].frame.batch == batch then {p.steps[k - 1].frame.id.value} else {}
  }

  /** The same over all batches. */
  function Heard(p: Past, k: nat, job: nat): set<Id>
    requires k <= |p.steps|
  {
    if k == 0 then {}
    else Heard(p, k - 1, job) + if Answers(p, k - 1, job) then {p.steps[k - 1].frame.id.value} else {}
  }

  /** Step `i` brings an id its batch asks for and lacks. */
  predicate Fetches(p: Past, i: nat, job: nat)
    requires i < |p.steps|
  {
    Answers(p, i, job) && p.steps[i].frame.id.value !in HeardIn(p, i, job, p.steps[i].frame.batch)
  }

  function Fetched(p: Past, k: nat, job: nat): nat
    requires k <= |p.steps|
  {
    if k == 0 then 0 else Fetched(p, k - 1, job) + if Fetches(p, k - 1, job) then 1 else 0
  }

  function Lacks(p: Past, k: nat, job: nat, need: seq<Id>, batch: nat): set<Id>
    requires k <= |p.steps|
  {
    Asked(need, batch) - HeardIn(p, k, job, batch)
  }

  function AllUnreturned(ids: set<Id>): multiset<Problem> {
    multiset(set id | id in ids :: Unreturned(id))
  }

  /** The problems step `i` shows in the fetch of `job`. */
  function ProblemsAt(p: Past, i: nat, job: nat): multiset<Problem>
    requires i < |p.steps|
  {
    var step, stage := p.steps[i], StageAt(p, i, job);
    if Brings(p, i, job) then
      if step.frame.id.None? then multiset{NoId}
      else
        var id := step.frame.id.value;
        if Fetches(p, i, job) then if step.frame.altered then multiset{Altered(id)} else multiset{}
        else multiset{if id in Heard(p, i, job) then Twice(id) else Unrequested(id)}
    else if IsAbout(step, job) && step.frame.Eose? && IsAsking(stage, step.w, step.frame.batch) then
      AllUnreturned(Lacks(p, i, job, stage.need, stage.batch))
    else multiset{}
  }

  function Problems(p: Past, k: nat, job: nat): multiset<Problem>
    requires k <= |p.steps|
  {
    if k == 0 then multiset{} else Problems(p, k - 1, job) + ProblemsAt(p, k - 1, job)
  }

  /** The record of a sync that is asking. */
  function Record(p: Past, k: nat, job: nat, stage: Stage): Sync
    requires k <= |p.steps| && stage.Asking?
  {
    var need := stage.need;
    Sync(job, false, stage.have, need, need[..|need| - Min(|need|, stage.batch * FETCH_BATCH)],
         Lacks(p, k, job, need, stage.batch), stage.batch,
         Heard(p, k, job), Fetched(p, k, job), Problems(p, k, job))
  }

  /** The record of a sync that step `i` completes. */
  function FinalRecord(p: Past, i: nat, job: nat): Sync
    requires i < |p.steps| && Completes(StageAt(p, i, job), p.steps[i], job)
  {
    var stage, k := StageAt(p, i, job), i + 1;
    if stage.Asking? then
      Sync(job, false, stage.have, stage.need, [], {}, stage.batch,
           Heard(p, k, job), Fetched(p, k, job), Problems(p, k, job))
    else Sync(job, false, p.steps[i].frame.reply.have, [], [], {}, 0, {}, 0, multiset{})
  }

  /** A message for a sync that does not wait for it. */
  predicate IsStray(stage: Stage, step: Step)
    requires step.Deliver? && Names(step.frame)
  {
    match step.frame
    case NegMsg(_, _) => stage != Comparing(step.w)
    case NegErr(_) => stage != Comparing(step.w)
    case Event(_, batch, _, _) => !IsAsking(stage, step.w, batch)
    case Eose(_, batch) => !IsAsking(stage, step.w, batch)
    case Closed(_, _) => false
  }

  /** The results of a connection, or of all. */
  datatype Report = Report(
    done: seq<Sync>,
    refused: seq<nat>,
    fetchRefused: seq<Sync>,
    failed: seq<nat>,
    errors: nat,
    notices: nat)

  const NoResults: Report := Report([], [], [], [], 0, 0)

  function Joined(a: Report, b: Report): Report {
    Report(a.done + b.done, a.refused + b.refused, a.fetchRefused + b.fetchRefused, a.failed + b.failed,
           a.errors + b.errors, a.notices + b.notices)
  }

  function PartOf(c: Conn): Report {
    Report(c.done, c.refused, c.fetchRefused, c.failed, c.errors, c.notices)
  }

  /** What a message about `job` adds to the results of the worker it reaches. */
  function Judged(p: Past, i: nat, job: nat, r: Report): Report
    requires i < |p.steps| && IsAbout(p.steps[i], job)
  {
    var step, stage := p.steps[i], StageAt(p, i, job);
    if Completes(stage, step, job) then r.(done := r.done + [FinalRecord(p, i, job)])
    else if Refuses(stage, step, job) then
      r.(refused := r.refused + [job],
         fetchRefused := if stage.Asking? then r.fetchRefused + [Record(p, i, job, stage)] else r.fetchRefused)
    else if Fails(p, Taken(p, i), stage, step, job) then r.(failed := r.failed + [job])
    else if IsStray(stage, step) then r.(errors := r.errors + 1)
    else r
  }

  function Logged(p: Past, i: nat, r: Report): Report
    requires i < |p.steps|
  {
    var step, next := p.steps[i], Taken(p, i);
    match step
    case Pop(_, _) => if next < |p.initiated| && !p.initiated[next] then r.(failed := r.failed + [next]) else r
    case Fail(_, order) => r.(failed := r.failed + order)
    case Deliver(_, frame, _, _) =>
      if Names(frame) then Judged(p, i, frame.job, r)
      else if frame.Notice? then r.(notices := r.notices + 1)
      else if frame.Garbage? then r.(errors := r.errors + 1)
      else r
    case _ => r
  }

  /** The results of worker `w` after `k` steps. */
  function ReportOn(p: Past, k: nat, w: nat): Report
    requires k <= |p.steps|
  {
    if k == 0 then NoResults
    else
      var r := ReportOn(p, k - 1, w);
      if p.steps[k - 1].w == w then Logged(p, k - 1, r) else r
  }

  // ------------------------------------------------------------------
  // A job that is still with nobody, or not yet asking, has no answers
  // ------------------------------------------------------------------

  lemma {:induction false} Untaken(p: Past, k: nat, job: nat)
    requires k <= |p.steps| && Taken(p, k) <= job
    ensures StageAt(p, k, job) == Waiting
  {
    if k > 0 {
      Untaken(p, k - 1, job);
    }
  }

  lemma {:induction false} NothingYet(p: Past, k: nat, job: nat)
    requires k <= |p.steps| && (StageAt(p, k, job).Waiting? || StageAt(p, k, job).Comparing?)
    ensures Heard(p, k, job) == {} && Fetched(p, k, job) == 0 && Problems(p, k, job) == multiset{}
  {
    if k > 0 {
      if Takes(p, Taken(p, k - 1), p.steps[k - 1], job) {
        Untaken(p, k - 1, job);
      }
      NothingYet(p, k - 1, job);
    }
  }

  /** A batch that is still to come has no answers. */
  lemma {:induction false} BatchAhead(p: Past, k: nat, job: nat, batch: nat)
    requires k <= |p.steps|
    requires
      var stage := StageAt(p, k, job);
      stage.Waiting? || stage.Comparing? || (stage.Asking? && stage.batch < batch)
    ensures HeardIn(p, k, job, batch) == {}
  {
    if k > 0 {
      if Takes(p, Taken(p, k - 1), p.steps[k - 1], job) {
        Untaken(p, k - 1, job);
      }
      BatchAhead(p, k - 1, job, batch);
    }
  }

  // ------------------------------------------------------------------
  // The workers hold what the steps say
  // ------------------------------------------------------------------

  /** The worker holds `job` exactly if it stands with it; unless the
      connection is being given up, the record is that of the steps. */
  ghost predicate Tracks(p: Past, k: nat, w: nat, c: Conn, failing: bool, job: nat)
    requires k <= |p.steps|
  {
    var stage := StageAt(p, k, job);
    && (job in c.live <==> OnWorker(stage, w))
    && (job in c.live && !failing ==> IsRecord(p, k, c.live[job], stage, job))
  }

  ghost predicate IsRecord(p: Past, k: nat, s: Sync, stage: Stage, job: nat)
    requires k <= |p.steps|
  {
    match stage
    case Comparing(_) => s == Opened(job).(have := s.have, need := s.need)
    case Asking(_, _, _, batch) => batch > 0 && s == Record(p, k, job, stage)
    case _ => false
  }

  /** A step that brings the job no event and ends no batch of it. */
  lemma {:induction false} Silent(p: Past, k: nat, job: nat)
    requires k < |p.steps|
    requires IsAbout(p.steps[k], job) && (p.steps[k].frame.Event? || p.steps[k].frame.Eose?) ==>
      !IsAsking(StageAt(p, k, job), p.steps[k].w, p.steps[k].frame.batch)
    ensures Heard(p, k + 1, job) == Heard(p, k, job) && Fetched(p, k + 1, job) == Fetched(p, k, job)
    ensures Problems(p, k + 1, job) == Problems(p, k, job)
    ensures forall batch :: HeardIn(p, k + 1, job, batch) == HeardIn(p, k, job, batch)
  {
    hide Asked;
    assert !Brings(p, k, job);
  }

  /** A step of another worker, or one not about the job. */
  lemma {:induction false} Unmoved(p: Past, k: nat, w: nat, job: nat)
    requires k < |p.steps| && OnWorker(StageAt(p, k, job), w)
    requires p.steps[k].w != w || (!IsAbout(p.steps[k], job) && !p.steps[k].Fail?)
    ensures StageAt(p, k + 1, job) == StageAt(p, k, job)
    ensures forall s :: IsRecord(p, k, s, StageAt(p, k, job), job) ==> IsRecord(p, k + 1, s, StageAt(p, k, job), job)
  {
    hide Heard, HeardIn, Fetched, Problems, Asked, StageAt;
    Silent(p, k, job);
    SameStage(p, k, w, job);
  }

  lemma {:induction false} SameStage(p: Past, k: nat, w: nat, job: nat)
    requires k < |p.steps| && OnWorker(StageAt(p, k, job), w)
    requires p.steps[k].w != w || (!IsAbout(p.steps[k], job) && !p.steps[k].Fail?)
    ensures StageAt(p, k + 1, job) == StageAt(p, k, job)
  {
    if Taken(p, k) <= job {
      Untaken(p, k, job);
    }
  }

  lemma {:induction false} StaysAway(p: Past, k: nat, w: nat, job: nat)
    requires k < |p.steps| && !OnWorker(StageAt(p, k, job), w)
    requires p.steps[k].w == w ==> !Takes(p, Taken(p, k), p.steps[k], job)
    ensures !OnWorker(StageAt(p, k + 1, job), w)
  {
  }

  /** Whatever `w` does with other jobs, or others do, leaves its hold on `job`. */
  lemma {:induction false} TracksOthers(p: Past, k: nat, w: nat, c: Conn, failing: bool, c': Conn, failing': bool,
                                        job: nat)
    requires k < |p.steps| && Tracks(p, k, w, c, failing, job)
    requires p.steps[k].w != w || (!IsAbout(p.steps[k], job) && !p.steps[k].Fail?)
    requires p.steps[k].w == w ==> !Takes(p, Taken(p, k), p.steps[k], job)
    requires (job in c.live <==> job in c'.live) && (job in c.live ==> c.live[job] == c'.live[job])
    requires failing ==> failing'
    ensures Tracks(p, k + 1, w, c', failing', job)
  {
    hide StageAt, IsRecord;
    if job in c.live {
      Unmoved(p, k, w, job);
    } else {
      StaysAway(p, k, w, job);
    }
  }

  lemma {:induction false} FrameIsOfOne(c: Conn, frame: Frame, ok1: bool, ok2: bool, job: nat)
    requires !Names(frame) || frame.job != job
    ensures var c' := AfterFrame(c, frame, ok1, ok2).0;
      (job in c.live <==> job in c'.live) && (job in c.live ==> c.live[job] == c'.live[job])
  {
  }

  // ------------------------------------------------------------------
  // A message, for the job it names: the hold and the results
  // ------------------------------------------------------------------

  /** A message about `job` reaches `w`, which holds it as the steps say. */
  ghost predicate Reaches(p: Past, k: nat, w: nat, c: Conn, frame: Frame, ok1: bool, ok2: bool, job: nat) {
    && k < |p.steps| && p.steps[k] == Deliver(w, frame, ok1, ok2) && IsAbout(p.steps[k], job)
    && Tracks(p, k, w, c, false, job)
  }

  ghost predicate Followed(p: Past, k: nat, w: nat, c: Conn, r: (Conn, bool), job: nat)
    requires k < |p.steps| && IsAbout(p.steps[k], job)
  {
    Tracks(p, k + 1, w, r.0, !r.1, job) && PartOf(r.0) == Judged(p, k, job, PartOf(c))
  }

  /** The next batch is what is left of the ids, 500 at most, off the end. */
  lemma {:induction false} RequestIsNext(p: Past, k: nat, job: nat, s: Sync, stage: Stage)
    requires k <= |p.steps| && stage.Asking?
    requires s.queue == stage.need[..|stage.need| - Min(|stage.need|, stage.batch * FETCH_BATCH)]
    requires s == Sync(job, false, stage.have, stage.need, s.queue, s.batch, stage.batch,
                       Heard(p, k, job), Fetched(p, k, job), Problems(p, k, job))
    requires HeardIn(p, k, job, stage.batch + 1) == {}
    ensures Request(s) == Record(p, k, job, stage.(batch := stage.batch + 1))
  {
    hide StageAt, Heard, HeardIn, Fetched, Problems;
    assert Request(s).queue == Record(p, k, job, stage.(batch := stage.batch + 1)).queue;
    assert LastBatch(s.queue) ==
      stage.need[|stage.need| - Min(|stage.need|, (stage.batch + 1) * FETCH_BATCH)..|s.queue|];
  }

  lemma {:induction false} ReconciledFollows(p: Past, k: nat, w: nat, c: Conn, job: nat, have: seq<Id>, need: seq<Id>,
                                             ok1: bool, ok2: bool)
    requires Reaches(p, k, w, c, NegMsg(job, Reconciled(have, need)), ok1, ok2, job)
    requires StageAt(p, k, job) == Comparing(w)
    ensures Followed(p, k, w, c, AfterNegMsg(c, job, Reconciled(have, need), ok1, ok2), job)
  {
    hide StageAt, Heard, HeardIn, Fetched, Problems, Taken;
    ReconciledStage(p, k, w, job, have, need, ok1, ok2);
    var s := c.live[job].(have := have, need := need, neg := false, queue := need);
    if ok1 && need != [] {
      RequestIsNext(p, k + 1, job, s, Asking(w, have, need, 0));
      assert AfterNegMsg(c, job, Reconciled(have, need), ok1, ok2).0.live[job] == Request(s);
    }
  }

  lemma {:induction false} ReconciledStage(p: Past, k: nat, w: nat, job: nat, have: seq<Id>, need: seq<Id>, ok1: bool,
                                           ok2: bool)
    requires k < |p.steps| && p.steps[k] == Deliver(w, NegMsg(job, Reconciled(have, need)), ok1, ok2)
    requires StageAt(p, k, job) == Comparing(w)
    ensures StageAt(p, k + 1, job) == if ok1 && need == [] then Over else Asking(w, have, need, 1)
    ensures Heard(p, k + 1, job) == {} && Fetched(p, k + 1, job) == 0 && Problems(p, k + 1, job) == multiset{}
    ensures HeardIn(p, k + 1, job, 1) == {}
  {
    NothingYet(p, k, job);
    BatchAhead(p, k, job, 1);
  }

  lemma {:induction false} NegMsgFollows(p: Past, k: nat, w: nat, c: Conn, job: nat, reply: Reply, ok1: bool,
                                         ok2: bool)
    requires Reaches(p, k, w, c, NegMsg(job, reply), ok1, ok2, job)
    ensures Followed(p, k, w, c, AfterNegMsg(c, job, reply, ok1, ok2), job)
  {
    if StageAt(p, k, job) == Comparing(w) && reply.Reconciled? {
      ReconciledFollows(p, k, w, c, job, reply.have, reply.need, ok1, ok2);
    } else {
      OtherNegMsgFollows(p, k, w, c, job, reply, ok1, ok2);
    }
  }

  lemma {:induction false} OtherNegMsgFollows(p: Past, k: nat, w: nat, c: Conn, job: nat, reply: Reply, ok1: bool,
                                              ok2: bool)
    requires Reaches(p, k, w, c, NegMsg(job, reply), ok1, ok2, job)
    requires !(StageAt(p, k, job) == Comparing(w) && reply.Reconciled?)
    ensures Followed(p, k, w, c, AfterNegMsg(c, job, reply, ok1, ok2), job)
  {
    hide StageAt, Heard, HeardIn, Fetched, Problems, Taken, Asked, AfterFetchNext;
    StageNext(p, k, job);
    Silent(p, k, job);
  }

  lemma {:induction false} StageNext(p: Past, k: nat, job: nat)
    requires k < |p.steps|
    ensures StageAt(p, k + 1, job) == StageAfter(p, Taken(p, k), StageAt(p, k, job), p.steps[k], job)
  {
  }

  lemma {:induction false} NegErrFollows(p: Past, k: nat, w: nat, c: Conn, job: nat, ok1: bool, ok2: bool)
    requires Reaches(p, k, w, c, NegErr(job), ok1, ok2, job)
    ensures Followed(p, k, w, c, AfterFrame(c, NegErr(job), ok1, ok2), job)
  {
    hide StageAt, Heard, HeardIn, Fetched, Problems, Taken, Asked;
    StageNext(p, k, job);
    Silent(p, k, job);
  }

  lemma {:induction false} ClosedFollows(p: Past, k: nat, w: nat, c: Conn, job: nat, batch: nat, ok1: bool, ok2: bool)
    requires Reaches(p, k, w, c, Closed(job, batch), ok1, ok2, job)
    ensures Followed(p, k, w, c, AfterFrame(c, Closed(job, batch), ok1, ok2), job)
  {
    hide StageAt, Heard, HeardIn, Fetched, Problems, Taken, Asked;
    StageNext(p, k, job);
    Silent(p, k, job);
  }

  lemma {:induction false} EventFollows(p: Past, k: nat, w: nat, c: Conn, job: nat, batch: nat, id: Option<Id>,
                                        altered: bool, ok1: bool, ok2: bool)
    requires Reaches(p, k, w, c, Frame.Event(job, batch, id, altered), ok1, ok2, job)
    ensures Followed(p, k, w, c, (AfterEvent(c, job, batch, id, altered), true), job)
  {
    hide StageAt, Heard, HeardIn, Fetched, Problems, Taken, Lacks, Returned;
    EventStage(p, k, job);
    if IsAsking(StageAt(p, k, job), w, batch) {
      EventRecord(p, k, w, job);
    } else {
      StrayRecord(p, k, w, job);
    }
  }

  lemma {:induction false} EventStage(p: Past, k: nat, job: nat)
    requires k < |p.steps| && IsAbout(p.steps[k], job) && p.steps[k].frame.Event?
    ensures StageAt(p, k + 1, job) == StageAt(p, k, job)
  {
  }

  lemma {:induction false} StrayRecord(p: Past, k: nat, w: nat, job: nat)
    requires k < |p.steps| && IsAbout(p.steps[k], job)
    requires IsStray(StageAt(p, k, job), p.steps[k])
    ensures StageAt(p, k + 1, job) == StageAt(p, k, job)
    ensures StageAt(p, k, job).Asking? ==>
      Record(p, k + 1, job, StageAt(p, k, job)) == Record(p, k, job, StageAt(p, k, job))
  {
    hide Asked;
    assert !Brings(p, k, job);
  }

  /** What an event of the open batch changes in the counts. */
  lemma {:induction false} EventCounts(p: Past, k: nat, job: nat, id: Id)
    requires k < |p.steps| && Brings(p, k, job) && p.steps[k].frame.id == Some(id)
    ensures
      var batch := StageAt(p, k, job).batch;
      var fetches := id in Lacks(p, k, job, StageAt(p, k, job).need, batch);
      && (Fetches(p, k, job) <==> fetches)
      && Fetched(p, k + 1, job) == Fetched(p, k, job) + (if fetches then 1 else 0)
      && Heard(p, k + 1, job) == Heard(p, k, job) + (if fetches then {id} else {})
      && Lacks(p, k + 1, job, StageAt(p, k, job).need, batch) == Lacks(p, k, job, StageAt(p, k, job).need, batch) - {id}
  {
    hide StageAt, Asked, Problems;
    HeardInIsHeard(p, k, job, StageAt(p, k, job).batch);
  }

  lemma {:induction false} EventRecord(p: Past, k: nat, w: nat, job: nat)
    requires k < |p.steps| && Brings(p, k, job)
    ensures Record(p, k + 1, job, StageAt(p, k, job)) ==
      Returned(Record(p, k, job, StageAt(p, k, job)), p.steps[k].frame.id, p.steps[k].frame.altered)
  {
    hide StageAt, Heard, HeardIn, Fetched, Fetches, Lacks, Asked;
    var id := p.steps[k].frame.id;
    if id.Some? {
      EventCounts(p, k, job, id.value);
    } else {
      NoIdCounts(p, k, job);
    }
  }

  lemma {:induction false} NoIdCounts(p: Past, k: nat, job: nat)
    requires k < |p.steps| && Brings(p, k, job) && p.steps[k].frame.id.None?
    ensures Fetched(p, k + 1, job) == Fetched(p, k, job) && Heard(p, k + 1, job) == Heard(p, k, job)
    ensures HeardIn(p, k + 1, job, StageAt(p, k, job).batch) == HeardIn(p, k, job, StageAt(p, k, job).batch)
    ensures Lacks(p, k + 1, job, StageAt(p, k, job).need, StageAt(p, k, job).batch) ==
      Lacks(p, k, job, StageAt(p, k, job).need, StageAt(p, k, job).batch)
  {
    hide StageAt, Asked, Problems;
  }

  lemma {:induction false} HeardInIsHeard(p: Past, k: nat, job: nat, batch: nat)
    requires k <= |p.steps|
    ensures HeardIn(p, k, job, batch) <= Heard(p, k, job)
  {
    hide Answers;
    if k > 0 {
      HeardInIsHeard(p, k - 1, job, batch);
    }
  }

  lemma {:induction false} EoseRecord(p: Past, k: nat, w: nat, job: nat)
    requires k < |p.steps| && IsAbout(p.steps[k], job) && p.steps[k].frame.Eose?
    requires IsAsking(StageAt(p, k, job), p.steps[k].w, p.steps[k].frame.batch)
    ensures
      var s := Record(p, k, job, StageAt(p, k, job));
      GiveUp(s) == Sync(s.job, s.neg, s.have, s.need, s.queue, {}, s.batchNo,
                        Heard(p, k + 1, job), Fetched(p, k + 1, job), Problems(p, k + 1, job))
    ensures HeardIn(p, k + 1, job, StageAt(p, k, job).batch + 1) == {}
  {
    hide Asked;
    BatchAhead(p, k, job, StageAt(p, k, job).batch + 1);
    assert !Brings(p, k, job);
  }

  lemma {:induction false} EoseFollows(p: Past, k: nat, w: nat, c: Conn, job: nat, batch: nat, ok1: bool, ok2: bool)
    requires Reaches(p, k, w, c, Eose(job, batch), ok1, ok2, job)
    ensures Followed(p, k, w, c, AfterEose(c, job, batch, ok1, ok2), job)
  {
    hide StageAt, Heard, HeardIn, Fetched, Problems, Taken, Asked, GiveUp;
    var stage := StageAt(p, k, job);
    if IsAsking(stage, w, batch) {
      EoseRecord(p, k, w, job);
      EoseStage(p, k, job);
      var s := GiveUp(c.live[job]);
      if s.queue != [] {
        RequestIsNext(p, k + 1, job, s, stage);
      }
    } else {
      StrayRecord(p, k, w, job);
    }
  }

  lemma {:induction false} EoseStage(p: Past, k: nat, job: nat)
    requires k < |p.steps| && IsAbout(p.steps[k], job) && p.steps[k].frame.Eose?
    requires IsAsking(StageAt(p, k, job), p.steps[k].w, p.steps[k].frame.batch)
    ensures
      var stage := StageAt(p, k, job);
      StageAt(p, k + 1, job) ==
        if p.steps[k].ok1 && |stage.need| <= stage.batch * FETCH_BATCH then Over
        else stage.(batch := stage.batch + 1)
  {
  }

  lemma {:induction false} FrameFollows(p: Past, k: nat, w: nat, c: Conn, frame: Frame, ok1: bool, ok2: bool)
    requires Names(frame) && Reaches(p, k, w, c, frame, ok1, ok2, frame.job)
    ensures Followed(p, k, w, c, AfterFrame(c, frame, ok1, ok2), frame.job)
  {
    hide Followed, Reaches, AfterNegMsg, AfterEvent, AfterEose;
    match frame {
      case NegMsg(job, reply) => NegMsgFollows(p, k, w, c, job, reply, ok1, ok2);
      case NegErr(job) => NegErrFollows(p, k, w, c, job, ok1, ok2);
      case Event(job, batch, id, altered) => EventFollows(p, k, w, c, job, batch, id, altered, ok1, ok2);
      case Eose(job, batch) => EoseFollows(p, k, w, c, job, batch, ok1, ok2);
      case Closed(job, batch) => ClosedFollows(p, k, w, c, job, batch, ok1, ok2);
    }
  }

  // ------------------------------------------------------------------
  // Every step
  // ------------------------------------------------------------------

  ghost predicate TracksJob(p: Past, k: nat, w: nat, worker: Worker, job: nat)
    requires k <= |p.steps|
  {
    Tracks(p, k, w, worker.conn, worker.phase == Failing, job)
  }

  ghost predicate WorkerTracks(p: Past, k: nat, w: nat, worker: Worker)
    requires k <= |p.steps|
  {
    && (forall job: nat :: TracksJob(p, k, w, worker, job))
    && PartOf(worker.conn) == ReportOn(p, k, w)
  }

  ghost predicate AllTrack(p: Past, k: nat, sys: System)
    requires k <= |p.steps|
  {
    && sys.next == Min(Taken(p, k), |p.initiated|)
    && forall w: nat :: w < |sys.workers| ==> WorkerTracks(p, k, w, sys.workers[w])
  }

  lemma {:induction false} PopTracks(p: Past, k: nat, w: nat, worker: Worker, ok: bool)
    requires k < |p.steps| && p.steps[k] == Pop(w, ok) && WorkerTracks(p, k, w, worker) && worker.phase == Filling
    ensures WorkerTracks(p, k + 1, w, AfterPop(p.initiated, Min(Taken(p, k), |p.initiated|), worker, ok))
  {
    hide StageAt, IsRecord, Taken;
    var next := Taken(p, k);
    var worker' := AfterPop(p.initiated, Min(next, |p.initiated|), worker, ok);
    var n := k + 1;
    forall job: nat
      ensures TracksJob(p, n, w, worker', job)
    {
      assert TracksJob(p, k, w, worker, job);
      if Takes(p, next, p.steps[k], job) {
        TakenTracks(p, k, w, job);
      } else {
        TracksOthers(p, k, w, worker.conn, false, worker'.conn, worker'.phase == Failing, job);
      }
    }
  }

  lemma {:induction false} TakenTracks(p: Past, k: nat, w: nat, job: nat)
    requires k < |p.steps| && p.steps[k].w == w && Takes(p, Taken(p, k), p.steps[k], job)
    ensures StageAt(p, k, job) == Waiting
    ensures StageAt(p, k + 1, job) == if p.initiated[job] then Comparing(w) else Over
    ensures IsRecord(p, k + 1, Opened(job), Comparing(w), job)
  {
    Untaken(p, k, job);
  }

  lemma {:induction false} DeliverTracks(p: Past, k: nat, w: nat, worker: Worker, frame: Frame, ok1: bool, ok2: bool)
    requires k < |p.steps| && p.steps[k] == Deliver(w, frame, ok1, ok2) && WorkerTracks(p, k, w, worker)
    requires worker.phase == Receiving
    ensures
      var (conn, ok) := AfterFrame(worker.conn, frame, ok1, ok2);
      WorkerTracks(p, k + 1, w, worker.(conn := conn, phase := if ok then Filling else Failing))
  {
    hide StageAt, IsRecord, Tracks, AfterFrame, Judged, Taken;
    var c := worker.conn;
    var (c', ok) := AfterFrame(c, frame, ok1, ok2);
    if Names(frame) {
      assert TracksJob(p, k, w, worker, frame.job);
      FrameFollows(p, k, w, c, frame, ok1, ok2);
    } else {
      NamelessFollows(p, k, c, frame, ok1, ok2);
    }
    var n, worker' := k + 1, worker.(conn := c', phase := if ok then Filling else Failing);
    assert PartOf(c') == ReportOn(p, n, w);
    forall job: nat
      ensures TracksJob(p, n, w, worker', job)
    {
      if !IsAbout(p.steps[k], job) {
        assert TracksJob(p, k, w, worker, job);
        FrameIsOfOne(c, frame, ok1, ok2, job);
        TracksOthers(p, k, w, c, false, c', !ok, job);
      }
    }
  }

  lemma {:induction false} NamelessFollows(p: Past, k: nat, c: Conn, frame: Frame, ok1: bool, ok2: bool)
    requires k < |p.steps| && p.steps[k].Deliver? && p.steps[k].frame == frame && !Names(frame)
    ensures PartOf(AfterFrame(c, frame, ok1, ok2).0) == Logged(p, k, PartOf(c))
  {
  }

  lemma {:induction false} FailTracks(p: Past, k: nat, w: nat, worker: Worker, order: seq<nat>)
    requires k < |p.steps| && p.steps[k] == Fail(w, order) && WorkerTracks(p, k, w, worker)
    ensures WorkerTracks(p, k + 1, w,
      worker.(conn := worker.conn.(live := map[], failed := worker.conn.failed + order), phase := Finished(false)))
  {
    hide IsRecord;
    var n := k + 1;
    forall job: nat
      ensures !OnWorker(StageAt(p, n, job), w)
    {
      assert TracksJob(p, k, w, worker, job);
    }
  }

  /** Another worker's step, or one that only moves the worker on. */
  lemma {:induction false} StillTracks(p: Past, k: nat, w: nat, worker: Worker, phase: Phase)
    requires k < |p.steps| && WorkerTracks(p, k, w, worker) && (worker.phase == Failing ==> phase == Failing)
    requires p.steps[k].w != w || p.steps[k].Full? || p.steps[k].Break?
    ensures WorkerTracks(p, k + 1, w, worker.(phase := phase))
  {
    hide StageAt, IsRecord, Tracks;
    var n, worker' := k + 1, worker.(phase := phase);
    forall job: nat
      ensures TracksJob(p, n, w, worker', job)
    {
      assert TracksJob(p, k, w, worker, job);
      TracksOthers(p, k, w, worker.conn, worker.phase == Failing, worker.conn, phase == Failing, job);
    }
  }

  lemma {:induction false} TrackStep(p: Past, k: nat, sys: System, w: nat)
    requires k < |p.steps| && AllTrack(p, k, sys) && Enabled(sys, p.steps[k]) && w < |sys.workers|
    ensures WorkerTracks(p, k + 1, w, Next(p.initiated, sys, p.steps[k]).workers[w])
  {
    hide WorkerTracks, AfterPop, AfterFrame, Taken;
    var worker, step := sys.workers[w], p.steps[k];
    if step.w != w {
      StillTracks(p, k, w, worker, worker.phase);
    } else {
      match step {
        case Pop(_, ok) => PopTracks(p, k, w, worker, ok);
        case Full(_) => StillTracks(p, k, w, worker, Filled(worker).phase);
        case Deliver(_, frame, ok1, ok2) => DeliverTracks(p, k, w, worker, frame, ok1, ok2);
        case Break(_) => StillTracks(p, k, w, worker, Failing);
        case Fail(_, order) => FailTracks(p, k, w, worker, order);
      }
    }
  }

  // ------------------------------------------------------------------
  // The report, read off the steps
  // ------------------------------------------------------------------

  /** The results of the first `n` workers, joined. */
  function Reports(p: Past, n: nat): Report {
    if n == 0 then NoResults else Joined(Reports(p, n - 1), ReportOn(p, |p.steps|, n - 1))
  }

  /** The jobs no worker took. */
  function Unstarted(p: Past): seq<nat> {
    var next := Min(Taken(p, |p.steps|), |p.initiated|);
    seq(|p.initiated| - next, i => next + i)
  }

  function FullReport(p: Past, n: nat): Report {
    Reports(p, n).(failed := Reports(p, n).failed + Unstarted(p))
  }

  datatype Fate = Completed | Refused | Failed

  function JobsWith(r: Report, fate: Fate): seq<nat> {
    match fate
    case Completed => JobsOf(r.done)
    case Refused => r.refused
    case Failed => r.failed
  }

  /** Step `i` ends `job` that way. */
  predicate EndsAs(p: Past, i: nat, job: nat, fate: Fate) {
    && i < |p.steps|
    && var step, stage := p.steps[i], StageAt(p, i, job);
       match fate
       case Completed => Completes(stage, step, job)
       case Refused => Refuses(stage, step, job)
       case Failed => Fails(p, Taken(p, i), stage, step, job)
  }

  ghost predicate MeetsWithin(p: Past, k: nat, w: nat, job: nat, fate: Fate) {
    exists i: nat :: i < k && EndsAs(p, i, job, fate) && p.steps[i].w == w
  }

  ghost predicate Meets(p: Past, job: nat, fate: Fate) {
    exists i: nat :: EndsAs(p, i, job, fate)
  }

  /** A connection that is given up fails the syncs that are with it. */
  ghost predicate FailsItsOwn(p: Past, i: nat)
    requires i < |p.steps| && p.steps[i].Fail?
  {
    forall job: nat :: job in p.steps[i].order <==> OnWorker(StageAt(p, i, job), p.steps[i].w)
  }

  lemma {:induction false} LoggedIff(p: Past, i: nat, r: Report, job: nat, fate: Fate)
    requires i < |p.steps| && (p.steps[i].Fail? ==> FailsItsOwn(p, i))
    ensures job in JobsWith(Logged(p, i, r), fate) <==> job in JobsWith(r, fate) || EndsAs(p, i, job, fate)
  {
    hide StageAt, Taken, FinalRecord, Record;
    if p.steps[i].Deliver? && Names(p.steps[i].frame) {
      JudgedIff(p, i, r, job, fate);
    }
  }

  lemma {:induction false} JudgedIff(p: Past, i: nat, r: Report, job: nat, fate: Fate)
    requires i < |p.steps| && p.steps[i].Deliver? && Names(p.steps[i].frame)
    ensures
      job in JobsWith(Judged(p, i, p.steps[i].frame.job, r), fate) <==>
      job in JobsWith(r, fate) || EndsAs(p, i, job, fate)
  {
    hide StageAt, Taken, Record;
    var own := p.steps[i].frame.job;
    if Completes(StageAt(p, i, own), p.steps[i], own) {
      assert FinalRecord(p, i, own).job == own;
      JobsOfMore(r.done, FinalRecord(p, i, own));
    }
  }

  lemma {:induction false} JobsOfMore(done: seq<Sync>, s: Sync)
    ensures JobsOf(done + [s]) == JobsOf(done) + [s.job]
  {
  }

  lemma {:induction false} ReportOnIff(p: Past, k: nat, w: nat, job: nat, fate: Fate)
    requires k <= |p.steps| && forall i :: 0 <= i < k && p.steps[i].Fail? ==> FailsItsOwn(p, i)
    ensures job in JobsWith(ReportOn(p, k, w), fate) <==> MeetsWithin(p, k, w, job, fate)
  {
    hide EndsAs, Logged, FailsItsOwn;
    if k > 0 {
      ReportOnIff(p, k - 1, w, job, fate);
      LoggedIff(p, k - 1, ReportOn(p, k - 1, w), job, fate);
    }
  }

  lemma {:induction false} ReportsIff(p: Past, n: nat, job: nat, fate: Fate)
    requires forall i :: 0 <= i < |p.steps| && p.steps[i].Fail? ==> FailsItsOwn(p, i)
    ensures job in JobsWith(Reports(p, n), fate) <==>
      exists w: nat :: w < n && MeetsWithin(p, |p.steps|, w, job, fate)
  {
    hide MeetsWithin, FailsItsOwn, ReportOn;
    if n > 0 {
      ReportsIff(p, n - 1, job, fate);
      ReportOnIff(p, |p.steps|, n - 1, job, fate);
      JobsOfJoin(Reports(p, n - 1).done, ReportOn(p, |p.steps|, n - 1).done);
    }
  }

  lemma {:induction false} JobsOfJoin(a: seq<Sync>, b: seq<Sync>)
    ensures JobsOf(a + b) == JobsOf(a) + JobsOf(b)
  {
  }

  /** Which of the three lists a job is in is decided by the step that ends
      it; a job that no worker takes fails. */
  ghost predicate Fated(p: Past, r: Report) {
    && (forall job: nat :: job in JobsOf(r.done) <==> Meets(p, job, Completed))
    && (forall job: nat :: job in r.refused <==> Meets(p, job, Refused))
    && forall job: nat :: job in r.failed <==> Meets(p, job, Failed) || Taken(p, |p.steps|) <= job < |p.initiated|
  }

  lemma {:induction false} ReportIsFated(p: Past, n: nat)
    requires forall i :: 0 <= i < |p.steps| && p.steps[i].Fail? ==> FailsItsOwn(p, i)
    requires forall i :: 0 <= i < |p.steps| ==> p.steps[i].w < n
    ensures Fated(p, FullReport(p, n))
  {
    hide Reports, FailsItsOwn, MeetsWithin, Meets, Taken;
    forall job: nat, fate: Fate
      ensures job in JobsWith(Reports(p, n), fate) <==> Meets(p, job, fate)
    {
      ReportsIff(p, n, job, fate);
      MeetsSomewhere(p, n, job, fate);
    }
    var r := Reports(p, n);
    assert forall job: nat :: job in JobsWith(r, Completed) <==> Meets(p, job, Completed);
    assert forall job: nat :: job in JobsWith(r, Refused) <==> Meets(p, job, Refused);
    assert forall job: nat :: job in JobsWith(r, Failed) <==> Meets(p, job, Failed);
    UnstartedAre(p);
  }

  lemma {:induction false} UnstartedAre(p: Past)
    ensures forall job: nat :: job in Unstarted(p) <==> Taken(p, |p.steps|) <= job < |p.initiated|
  {
    forall job: nat | Taken(p, |p.steps|) <= job < |p.initiated|
      ensures job in Unstarted(p)
    {
      assert Unstarted(p)[job - Taken(p, |p.steps|)] == job;
    }
  }

  lemma {:induction false} MeetsSomewhere(p: Past, n: nat, job: nat, fate: Fate)
    requires forall i :: 0 <= i < |p.steps| ==> p.steps[i].w < n
    ensures Meets(p, job, fate) <==> exists w: nat :: w < n && MeetsWithin(p, |p.steps|, w, job, fate)
  {
    hide StageAt, Completes, Refuses, Fails, Taken;
    if Meets(p, job, fate) {
      var i: nat :| EndsAs(p, i, job, fate);
      assert MeetsWithin(p, |p.steps|, p.steps[i].w, job, fate);
    }
  }

  // ------------------------------------------------------------------
  // Slots
  // ------------------------------------------------------------------

  function Connections(concurrency: nat, perConn: nat): nat
    requires perConn > 0
  {
    (concurrency + perConn - 1) / perConn
  }

  lemma {:induction false} ConnectionsNeeded(concurrency: nat, perConn: nat, conn: nat)
    requires perConn > 0
    ensures conn < Connections(concurrency, perConn) <==> conn * perConn < concurrency
  {
    var conns := Connections(concurrency, perConn);
    Quotient(concurrency + perConn - 1, perConn);
    if conn < conns {
      BlockOrder(perConn, conn, conns, perConn - 1);
    } else {
      ProductGrows(conns, conn, perConn);
    }
  }

  /** The slots of connection `conn`; the subtraction never underflows. */
  function SlotsOf(concurrency: nat, perConn: nat, conn: nat): (slots: nat)
    requires perConn > 0 && conn < Connections(concurrency, perConn)
    ensures slots > 0
  {
    ConnectionsNeeded(concurrency, perConn, conn);
    Min(perConn, concurrency - conn * perConn)
  }

  function TotalSlots(workers: seq<Worker>): nat {
    if workers == [] then 0 else TotalSlots(workers[..|workers| - 1]) + workers[|workers| - 1].slots
  }

  ghost predicate Sized(workers: seq<Worker>, concurrency: nat, perConn: nat)
    requires perConn > 0
  {
    && |workers| <= Connections(concurrency, perConn)
    && forall k :: 0 <= k < |workers| ==> workers[k].slots == SlotsOf(concurrency, perConn, k)
  }

  /** The slots of all connections together are the concurrency. */
  lemma {:induction false} SlotsAddUp(workers: seq<Worker>, concurrency: nat, perConn: nat)
    requires perConn > 0 && Sized(workers, concurrency, perConn)
    ensures TotalSlots(workers) == Min(concurrency, |workers| * perConn)
    ensures |workers| == Connections(concurrency, perConn) ==> TotalSlots(workers) == concurrency
  {
    hide Connections, SlotsOf;
    var k := |workers|;
    if k > 0 {
      SlotsAddUp(workers[..k - 1], concurrency, perConn);
      SlotStep(concurrency, perConn, k - 1);
      assert workers[k - 1].slots == SlotsOf(concurrency, perConn, k - 1);
    } else {
      assert k * perConn == 0;
    }
    ConnectionsNeeded(concurrency, perConn, k);
  }

  lemma {:induction false} SlotStep(concurrency: nat, perConn: nat, k: nat)
    requires perConn > 0 && k < Connections(concurrency, perConn)
    ensures Min(concurrency, (k + 1) * perConn) == Min(concurrency, k * perConn) + SlotsOf(concurrency, perConn, k)
  {
  }

  /** Syncs in flight on all connections. */
  function InFlight(workers: seq<Worker>): nat {
    if workers == [] then 0 else InFlight(workers[..|workers| - 1]) + |workers[|workers| - 1].conn.live|
  }

  lemma {:induction false} InFlightFits(workers: seq<Worker>)
    requires forall k :: 0 <= k < |workers| ==> |workers[k].conn.live| <= workers[k].slots
    ensures InFlight(workers) <= TotalSlots(workers)
  {
    if workers != [] {
      InFlightFits(workers[..|workers| - 1]);
    }
  }

  // ------------------------------------------------------------------
  // Runs
  // ------------------------------------------------------------------

  /** `run` at its start. `initiated` says which jobs could be initiated. */
  function Start(initiated: seq<bool>, concurrency: nat, perConn: nat): System
    requires perConn > 0
  {
    var concurrency := Min(concurrency, |initiated|);
    var conns := Connections(concurrency, perConn);
    System(0, seq(conns, k requires 0 <= k < conns => Worker(NoSyncs, Filling, SlotsOf(concurrency, perConn, k))))
  }

  datatype Run = Run(states: seq<System>, steps: seq<Step>)

  ghost predicate Moves(initiated: seq<bool>, run: Run, k: nat)
    requires k < |run.steps| && |run.states| == |run.steps| + 1
  {
    Enabled(run.states[k], run.steps[k]) && run.states[k + 1] == Next(initiated, run.states[k], run.steps[k])
  }

  /** Any interleaving of the connections' steps, up to any point. */
  ghost predicate IsRun(initiated: seq<bool>, concurrency: nat, perConn: nat, run: Run)
    requires perConn > 0
  {
    && |run.states| == |run.steps| + 1
    && run.states[0] == Start(initiated, concurrency, perConn)
    && forall k :: 0 <= k < |run.steps| ==> Moves(initiated, run, k)
  }

  lemma {:induction false} NothingHeld(workers: seq<Worker>)
    requires forall k :: 0 <= k < |workers| ==> workers[k].conn == NoSyncs
    ensures AllHeld(workers) == multiset{}
  {
    if workers != [] {
      NothingHeld(workers[..|workers| - 1]);
    }
  }

  lemma {:induction false} StepKeepsSlots(initiated: seq<bool>, sys: System, step: Step)
    requires Enabled(sys, step)
    ensures |Next(initiated, sys, step).workers| == |sys.workers|
    ensures forall k :: 0 <= k < |sys.workers| ==> Next(initiated, sys, step).workers[k].slots == sys.workers[k].slots
    ensures sys.next <= |initiated| ==> sys.next <= Next(initiated, sys, step).next
  {
  }

  lemma {:induction false} StartInv(initiated: seq<bool>, concurrency: nat, perConn: nat)
    requires perConn > 0
    ensures Inv(initiated, Start(initiated, concurrency, perConn))
  {
    NothingHeld(Start(initiated, concurrency, perConn).workers);
    assert FirstJobs(0) == [];
  }

  lemma {:induction false} RunInv(initiated: seq<bool>, concurrency: nat, perConn: nat, run: Run, k: nat)
    requires perConn > 0 && IsRun(initiated, concurrency, perConn, run) && k < |run.states|
    ensures Inv(initiated, run.states[k])
    ensures Sized(run.states[k].workers, Min(concurrency, |initiated|), perConn)
    ensures |run.states[k].workers| == Connections(Min(concurrency, |initiated|), perConn)
  {
    if k == 0 {
      StartInv(initiated, concurrency, perConn);
    } else {
      RunInv(initiated, concurrency, perConn, run, k - 1);
      assert Moves(initiated, run, k - 1);
      InvStep(initiated, run.states[k - 1], run.steps[k - 1]);
      StepKeepsSlots(initiated, run.states[k - 1], run.steps[k - 1]);
      hide Inv, Next, Enabled;
    }
  }

  /** In every interleaving, whatever the relay answers and whichever sends
      fail, the syncs in flight never exceed the concurrency. */
  lemma {:induction false} ConcurrencyIsKept(initiated: seq<bool>, concurrency: nat, perConn: nat, run: Run, k: nat)
    requires perConn > 0 && IsRun(initiated, concurrency, perConn, run) && k < |run.states|
    ensures InFlight(run.states[k].workers) <= concurrency
  {
    RunInv(initiated, concurrency, perConn, run, k);
    var workers := run.states[k].workers;
    assert forall i :: 0 <= i < |workers| ==> WorkerOk(workers[i], run.states[k].next == |initiated|);
    InFlightFits(workers);
    SlotsAddUp(workers, Min(concurrency, |initiated|), perConn);
  }

  /** A connection that ends without an error leaves an empty queue; so it is
      empty when all do, and no job is left over. */
  lemma {:induction false} CleanEndsEmpty(initiated: seq<bool>, concurrency: nat, perConn: nat, run: Run, k: nat,
                                          w: nat)
    requires perConn > 0 && IsRun(initiated, concurrency, perConn, run) && k < |run.states|
    requires w < |run.states[k].workers| && run.states[k].workers[w].phase == Finished(true)
    ensures run.states[k].next == |initiated|
  {
    RunInv(initiated, concurrency, perConn, run, k);
    assert WorkerOk(run.states[k].workers[w], run.states[k].next == |initiated|);
  }

  /** A connection that waits for a message has every slot in use, or no job
      is left to start. */
  lemma {:induction false} SlotsAreUsed(initiated: seq<bool>, concurrency: nat, perConn: nat, run: Run, k: nat, w: nat)
    requires perConn > 0 && IsRun(initiated, concurrency, perConn, run) && k < |run.states|
    requires w < |run.states[k].workers| && run.states[k].workers[w].phase == Receiving
    ensures
      var worker := run.states[k].workers[w];
      |worker.conn.live| == worker.slots || run.states[k].next == |initiated|
  {
    RunInv(initiated, concurrency, perConn, run, k);
    assert WorkerOk(run.states[k].workers[w], run.states[k].next == |initiated|);
  }

  ghost predicate AllFinished(sys: System) {
    forall w :: 0 <= w < |sys.workers| ==> sys.workers[w].phase.Finished?
  }

  function ReportHeld(r: Report): multiset<nat> {
    multiset(JobsOf(r.done)) + multiset(r.refused) + multiset(r.failed)
  }

  lemma {:induction false} PartAdds(r: Report, c: Conn)
    requires c.live == map[]
    ensures ReportHeld(Joined(r, PartOf(c))) == ReportHeld(r) + Held(c)
  {
    JobsOfJoin(r.done, c.done);
    assert multiset(c.live.Keys) == multiset{} by {
      assert c.live.Keys == {};
    }
  }

  /** What the first `n` workers hold, joined. */
  function Parts(workers: seq<Worker>, n: nat): Report
    requires n <= |workers|
  {
    if n == 0 then NoResults else Joined(Parts(workers, n - 1), PartOf(workers[n - 1].conn))
  }

  /** The end of `run`: joins the parts and fails what never started. */
  method Collect(initiated: seq<bool>, sys: System) returns (r: Report)
    requires Inv(initiated, sys) && AllFinished(sys)
    ensures ReportHeld(r) == multiset(FirstJobs(|initiated|)) && AllSettled(r.done) && sys.next <= |initiated|
    ensures var parts := Parts(sys.workers, |sys.workers|);
      r == parts.(failed := parts.failed + FirstJobs(|initiated|)[sys.next..])
  {
    hide *;
    var parts := JoinParts(initiated, sys);
    r := parts;
    HeldIsTaken(initiated, sys);
    for job := sys.next to |initiated|
      invariant ReportHeld(r) == multiset(FirstJobs(job))
      invariant AllSettled(r.done) && |FirstJobs(|initiated|)| == |initiated|
      invariant r == parts.(failed := parts.failed + FirstJobs(|initiated|)[sys.next..job])
    {
      FirstJobsStep(job);
      FailAdds(r, job);
      assert FirstJobs(|initiated|)[sys.next..job + 1] == FirstJobs(|initiated|)[sys.next..job] + [job];
      r := r.(failed := r.failed + [job]);
    }
    assert FirstJobs(|initiated|)[sys.next..|initiated|] == FirstJobs(|initiated|)[sys.next..];
  }

  lemma {:induction false} HeldIsTaken(initiated: seq<bool>, sys: System)
    requires Inv(initiated, sys)
    ensures AllHeld(sys.workers) == multiset(FirstJobs(sys.next)) && sys.next <= |initiated|
  {
  }

  method JoinParts(ghost initiated: seq<bool>, sys: System) returns (r: Report)
    requires Inv(initiated, sys) && AllFinished(sys)
    ensures ReportHeld(r) == AllHeld(sys.workers) && AllSettled(r.done) && r == Parts(sys.workers, |sys.workers|)
  {
    hide *;
    r := Report([], [], [], [], 0, 0);
    var n := |sys.workers|;
    NoParts();
    assert sys.workers[..0] == [];
    for k := 0 to n
      invariant ReportHeld(r) == AllHeld(sys.workers[..k])
      invariant AllSettled(r.done) && r == Parts(sys.workers, k)
    {
      var part := sys.workers[k].conn;
      PartIsEnded(initiated, sys, k);
      AllHeldStep(sys.workers, k);
      PartAdds(r, part);
      SettledJoin(r.done, part.done);
      PartsStep(sys.workers, k);
      r := Report(r.done + part.done, r.refused + part.refused, r.fetchRefused + part.fetchRefused,
                  r.failed + part.failed, r.errors + part.errors, r.notices + part.notices);
    }
    assert sys.workers[..n] == sys.workers;
  }

  lemma {:induction false} PartsStep(workers: seq<Worker>, k: nat)
    requires k < |workers|
    ensures var r, c := Parts(workers, k), workers[k].conn;
      && Parts(workers, k + 1) == Joined(r, PartOf(c))
      && Joined(r, PartOf(c)) == Report(r.done + c.done, r.refused + c.refused, r.fetchRefused + c.fetchRefused,
                                        r.failed + c.failed, r.errors + c.errors, r.notices + c.notices)
  {
  }

  lemma {:induction false} NoParts()
    ensures ReportHeld(NoResults) == AllHeld([]) && AllSettled([]) && NoResults == Report([], [], [], [], 0, 0)
    ensures forall workers :: Parts(workers, 0) == NoResults
  {
  }

  lemma {:induction false} PartIsEnded(initiated: seq<bool>, sys: System, k: nat)
    requires Inv(initiated, sys) && AllFinished(sys) && k < |sys.workers|
    ensures sys.workers[k].conn.live == map[] && AllSettled(sys.workers[k].conn.done)
  {
  }

  lemma {:induction false} SettledJoin(a: seq<Sync>, b: seq<Sync>)
    requires AllSettled(a) && AllSettled(b)
    ensures AllSettled(a + b)
  {
  }

  lemma {:induction false} AllHeldStep(workers: seq<Worker>, k: nat)
    requires k < |workers|
    ensures AllHeld(workers[..k + 1]) == AllHeld(workers[..k]) + Held(workers[k].conn)
  {
    assert workers[..k + 1][..k] == workers[..k];
  }

  lemma {:induction false} FailAdds(r: Report, job: nat)
    ensures ReportHeld(r.(failed := r.failed + [job])) == ReportHeld(r) + multiset{job}
  {
  }

  /** In how many places, counted with repetitions, a report names a job. */
  function Places(r: Report, job: nat): nat {
    multiset(JobsOf(r.done))[job] + multiset(r.refused)[job] + multiset(r.failed)[job]
  }

  lemma {:induction false} RunTracks(initiated: seq<bool>, concurrency: nat, perConn: nat, run: Run, k: nat)
    requires perConn > 0 && IsRun(initiated, concurrency, perConn, run) && k < |run.states|
    ensures AllTrack(Past(initiated, run.steps), k, run.states[k])
  {
    hide WorkerTracks, Next, Enabled;
    var p := Past(initiated, run.steps);
    if k == 0 {
      StartTracks(p, concurrency, perConn);
    } else {
      RunTracks(initiated, concurrency, perConn, run, k - 1);
      assert Moves(initiated, run, k - 1);
      NextCount(p, k - 1, run.states[k - 1]);
      forall w: nat | w < |run.states[k].workers|
        ensures WorkerTracks(p, k, w, run.states[k].workers[w])
      {
        TrackStep(p, k - 1, run.states[k - 1], w);
      }
    }
  }

  lemma {:induction false} StartTracks(p: Past, concurrency: nat, perConn: nat)
    requires perConn > 0
    ensures AllTrack(p, 0, Start(p.initiated, concurrency, perConn))
  {
    var sys := Start(p.initiated, concurrency, perConn);
    forall w: nat | w < |sys.workers|
      ensures WorkerTracks(p, 0, w, sys.workers[w])
    {
      assert sys.workers[w].conn == NoSyncs;
    }
  }

  lemma {:induction false} NextCount(p: Past, k: nat, sys: System)
    requires k < |p.steps| && AllTrack(p, k, sys) && Enabled(sys, p.steps[k])
    ensures Next(p.initiated, sys, p.steps[k]).next == Min(Taken(p, k + 1), |p.initiated|)
    ensures |Next(p.initiated, sys, p.steps[k]).workers| == |sys.workers|
  {
    hide WorkerTracks, AfterPop, AfterFrame;
  }

  lemma {:induction false} FailsAreOwn(initiated: seq<bool>, concurrency: nat, perConn: nat, run: Run, i: nat)
    requires perConn > 0 && IsRun(initiated, concurrency, perConn, run) && i < |run.steps|
    ensures run.steps[i].w < |run.states[i].workers|
    ensures run.steps[i].Fail? ==> FailsItsOwn(Past(initiated, run.steps), i)
  {
    hide IsRecord, StageAt, Next;
    RunTracks(initiated, concurrency, perConn, run, i);
    assert Moves(initiated, run, i);
    var p, step := Past(initiated, run.steps), run.steps[i];
    if step.Fail? {
      var worker := run.states[i].workers[step.w];
      assert WorkerTracks(p, i, step.w, worker);
      forall job: nat
        ensures job in step.order <==> OnWorker(StageAt(p, i, job), step.w)
      {
        assert TracksJob(p, i, step.w, worker, job);
        assert job in step.order <==> job in multiset(step.order);
      }
    }
  }

  lemma {:induction false} PartsAreReports(p: Past, sys: System, n: nat)
    requires AllTrack(p, |p.steps|, sys) && n <= |sys.workers|
    ensures Parts(sys.workers, n) == Reports(p, n)
  {
    hide TracksJob, ReportOn;
    if n > 0 {
      PartsAreReports(p, sys, n - 1);
      assert WorkerTracks(p, |p.steps|, n - 1, sys.workers[n - 1]);
    }
  }

  /** At the end the parts joined are the report of the steps. */
  lemma {:induction false} EndTracks(initiated: seq<bool>, concurrency: nat, perConn: nat, run: Run)
    requires perConn > 0 && IsRun(initiated, concurrency, perConn, run)
    ensures
      var p, sys := Past(initiated, run.steps), run.states[|run.steps|];
      && Inv(initiated, sys) && sys.next <= |initiated|
      && var parts := Parts(sys.workers, |sys.workers|);
      && parts.(failed := parts.failed + FirstJobs(|initiated|)[sys.next..]) == FullReport(p, |sys.workers|)
      && Fated(p, FullReport(p, |sys.workers|))
  {
    hide Fated, FailsItsOwn, Reports, WorkerOk;
    var p, sys := Past(initiated, run.steps), run.states[|run.steps|];
    RunTracks(initiated, concurrency, perConn, run, |run.steps|);
    PartsAreReports(p, sys, |sys.workers|);
    RunInv(initiated, concurrency, perConn, run, |run.steps|);
    forall i: nat | i < |p.steps|
      ensures p.steps[i].w < |sys.workers| && (p.steps[i].Fail? ==> FailsItsOwn(p, i))
    {
      FailsAreOwn(initiated, concurrency, perConn, run, i);
      RunInv(initiated, concurrency, perConn, run, i);
    }
    ReportIsFated(p, |sys.workers|);
    assert FirstJobs(|initiated|)[sys.next..] == Unstarted(p);
  }

  lemma {:induction false} PlacesOf(r: Report, n: nat, job: nat)
    requires ReportHeld(r) == multiset(FirstJobs(n))
    ensures Places(r, job) == if job < n then 1 else 0
  {
    hide FirstJobs;
    FirstJobsOnce(n, job);
    assert Places(r, job) == ReportHeld(r)[job];
  }

  /** When every connection of any interleaving has ended, however it ended,
      each planned sync is done, refused or failed: one of the three, once.
      No other job is reported, and a done sync has each id it needed
      returned or reported. */
  method EndOfRun(initiated: seq<bool>, ghost concurrency: nat, ghost perConn: nat, ghost run: Run, sys: System)
    returns (r: Report)
    requires perConn > 0 && IsRun(initiated, concurrency, perConn, run)
    requires sys == run.states[|run.steps|] && AllFinished(sys)
    ensures forall job: nat :: Places(r, job) == if job < |initiated| then 1 else 0
    ensures AllSettled(r.done)
    ensures r == FullReport(Past(initiated, run.steps), |sys.workers|) && Fated(Past(initiated, run.steps), r)
  {
    hide *;
    EndTracks(initiated, concurrency, perConn, run);
    r := Collect(initiated, sys);
    forall job: nat
      ensures Places(r, job) == if job < |initiated| then 1 else 0
    {
      PlacesOf(r, |initiated|, job);
    }
  }

  lemma {:induction false} FirstJobsOnce(n: nat, job: nat)
    ensures multiset(FirstJobs(n))[job] == if job < n then 1 else 0
  {
    hide FirstJobs;
    if n > 0 {
      FirstJobsStep(n - 1);
      FirstJobsOnce(n - 1, job);
    }
  }

  // ------------------------------------------------------------------
  // The driver of one connection
  // ------------------------------------------------------------------

  /** The jobs from `next` on belong to no driver; those before it were handed
      out once each. */
  class Queue {
    const initiated: seq<bool>
    var next: nat

    constructor (initiated: seq<bool>)
      ensures this.initiated == initiated && next == 0
    {
      this.initiated := initiated;
      next := 0;
    }

    method Pop() returns (job: Option<nat>)
      modifies this
      ensures old(next) < |initiated| ==> job == Some(old(next)) && next == old(next) + 1
      ensures old(next) >= |initiated| ==> job == None && next == old(next)
    {
      if next < |initiated| {
        job := Some(next);
        next := next + 1;
      } else {
        job := None;
      }
    }
  }

  class Driver {
    const queue: Queue
    const slots: nat
    var phase: Phase
    var live: map<nat, Sync>
    var done: seq<Sync>
    var refused: seq<nat>
    var fetchRefused: seq<Sync>
    var failed: seq<nat>
    var errors: nat
    var notices: nat

    function Now(): Conn
      reads this
    {
      Conn(live, done, refused, fetchRefused, failed, errors, notices)
    }

    function AsWorker(): Worker
      reads this
    {
      Worker(Now(), phase, slots)
    }

    constructor (queue: Queue, slots: nat)
      ensures this.queue == queue && AsWorker() == Worker(NoSyncs, Filling, slots)
    {
      this.queue, this.slots, phase := queue, slots, Filling;
      live, done, refused, fetchRefused, failed, errors, notices := map[], [], [], [], [], 0, 0;
    }

    /** Takes a job off the queue and makes it live, or failed; `started` says
        that there was one, `sent` that no send failed. */
    method StartNext(ok: bool) returns (started: bool, sent: bool)
      modifies this, queue
      ensures phase == old(phase)
      ensures old(queue.next) >= |queue.initiated| ==>
        !started && sent && Now() == old(Now()) && queue.next == old(queue.next)
      ensures old(queue.next) < |queue.initiated| ==>
        && started && queue.next == old(queue.next) + 1
        && Now() == AfterStart(old(Now()), old(queue.next), queue.initiated[old(queue.next)])
        && (sent <==> queue.initiated[old(queue.next)] ==> ok)
    {
      var popped := queue.Pop();
      if popped.None? {
        return false, true;
      }
      var job := popped.value;
      if !queue.initiated[job] {
        failed := failed + [job];
        return true, true;
      }
      // In the map whether or not `ok`: `FailAll` must find it.
      live := live[job := Sync(job, true, [], [], [], {}, 0, {}, 0, multiset{})];
      return true, ok;
    }

    /** Moves up to `FETCH_BATCH` ids from the queue to the batch; with none in
        the queue, moves the sync to `done`. */
    method FetchNext(job: nat, ok: bool) returns (sent: bool)
      requires job in live
      modifies this
      ensures (Now(), sent) == AfterFetchNext(old(Now()), job, ok) && phase == old(phase)
    {
      var session := live[job];
      if session.queue == [] {
        live := live - {job};
        done := done + [session];
        return true;
      }
      var take := if |session.queue| < FETCH_BATCH then |session.queue| else FETCH_BATCH;
      var ids := session.queue[|session.queue| - take..];
      session := session.(queue := session.queue[..|session.queue| - take]);
      session := session.(batch := set id | id in ids);
      session := session.(batchNo := session.batchNo + 1);
      live := live[job := session];
      return ok;
    }

    method OnNegMsg(job: nat, reply: Reply, ok1: bool, ok2: bool) returns (sent: bool)
      modifies this
      ensures (Now(), sent) == AfterNegMsg(old(Now()), job, reply, ok1, ok2) && phase == old(phase)
    {
      if job !in live || !live[job].neg {
        errors := errors + 1;
        return true;
      }
      var session := live[job];
      match reply {
        case More(have, need) =>
          live := live[job := session.(have := have, need := need)];
          return ok1;
        case Reconciled(have, need) =>
          live := live[job := session.(have := have, need := need, neg := false)];
          if !ok1 {
            return false;
          }
          live := live[job := live[job].(queue := need)];
          assert live == old(live)[job := session.(have := have, need := need, neg := false, queue := need)];
          sent := FetchNext(job, ok2);
        case Bad =>
          live := live - {job};
          failed := failed + [job];
          return ok1;
      }
    }

    method OnEvent(job: nat, batch: nat, id: Option<Id>, altered: bool)
      modifies this
      ensures Now() == AfterEvent(old(Now()), job, batch, id, altered) && phase == old(phase)
    {
      if job !in live || live[job].batchNo != batch || live[job].neg {
        errors := errors + 1;
        return;
      }
      var session := live[job];
      if id.None? {
        session := session.(problems := session.problems + multiset{NoId});
      } else if id.value !in session.batch {
        var problem := if id.value in session.returned then Twice(id.value) else Unrequested(id.value);
        session := session.(problems := session.problems + multiset{problem});
      } else {
        session := session.(batch := session.batch - {id.value});
        session := session.(returned := session.returned + {id.value}, fetched := session.fetched + 1);
        assert session.problems + multiset{} == session.problems;
        if altered {
          session := session.(problems := session.problems + multiset{Altered(id.value)});
        }
      }
      live := live[job := session];
    }

    method OnEose(job: nat, batch: nat, ok1: bool, ok2: bool) returns (sent: bool)
      modifies this
      ensures (Now(), sent) == AfterEose(old(Now()), job, batch, ok1, ok2) && phase == old(phase)
    {
      if job !in live || live[job].batchNo != batch || live[job].neg {
        errors := errors + 1;
        return true;
      }
      var session := live[job];
      var problems := ReportAll(session.batch, session.problems);
      live := live[job := session.(batch := {}, problems := problems)];
      if !ok1 {
        return false;
      }
      sent := FetchNext(job, ok2);
    }

    static method ReportAll(batch: set<Id>, problems: multiset<Problem>) returns (r: multiset<Problem>)
      ensures r == problems + multiset(set id | id in batch :: Unreturned(id))
    {
      r := problems;
      var rest := batch;
      while rest != {}
        invariant rest <= batch
        invariant r == problems + multiset(set id | id in batch - rest :: Unreturned(id))
      {
        var id :| id in rest;
        ghost var reported := set i | i in batch - rest :: Unreturned(i);
        assert Unreturned(id) !in reported;
        rest := rest - {id};
        assert (set i | i in batch - rest :: Unreturned(i)) == reported + {Unreturned(id)};
        r := r + multiset{Unreturned(id)};
      }
      assert batch - rest == batch;
    }

    /** One message; false where a send failed. */
    method OnText(frame: Frame, ok1: bool, ok2: bool) returns (sent: bool)
      modifies this
      ensures (Now(), sent) == AfterFrame(old(Now()), frame, ok1, ok2) && phase == old(phase)
    {
      sent := true;
      match frame {
        case NegMsg(job, reply) => sent := OnNegMsg(job, reply, ok1, ok2);
        case NegErr(job) =>
          if job in live && live[job].neg {
            live := live - {job};
            refused := refused + [job];
          } else {
            errors := errors + 1;
          }
        case Event(job, batch, id, altered) => OnEvent(job, batch, id, altered);
        case Eose(job, batch) => sent := OnEose(job, batch, ok1, ok2);
        case Closed(job, batch) =>
          if job in live && live[job].batchNo == batch && !live[job].neg {
            var session := live[job];
            live := live - {job};
            refused := refused + [job];
            fetchRefused := fetchRefused + [session];
          }
        case Notice => notices := notices + 1;
        case Auth =>
        case Garbage => errors := errors + 1;
      }
    }

    /** What `drive` does after an error: every live sync fails. */
    method FailAll() returns (ghost order: seq<nat>)
      modifies this
      ensures multiset(order) == multiset(old(live).Keys)
      ensures Now() == old(Now()).(live := map[], failed := old(failed) + order) && phase == old(phase)
    {
      order := [];
      while live != map[]
        modifies this
        invariant unchanged(`phase, `done, `refused, `fetchRefused, `errors, `notices)
        invariant failed == old(failed) + order
        invariant multiset(order) + multiset(live.Keys) == multiset(old(live).Keys)
        decreases |live|
      {
        assert live.Keys != {};
        var job :| job in live;
        assert live.Keys == (live - {job}).Keys + {job};
        live := live - {job};
        failed := failed + [job];
        order := order + [job];
      }
    }

    /** One turn of the task: a place in its loops, up to the next await. The
        step is taken in any system that has this driver as worker `w`. */
    method TakeOne(t: Turn, ghost sys: System) returns (ghost step: Option<Step>)
      requires t.w < |sys.workers| && sys.workers[t.w] == AsWorker() && sys.next == queue.next <= |queue.initiated|
      modifies this, queue
      ensures (step.None? <==> old(phase).Finished?) && queue.next <= |queue.initiated|
      ensures step.None? ==> AsWorker() == old(AsWorker()) && queue.next == old(queue.next)
      ensures step.Some? ==>
        && step.value.w == t.w && Enabled(sys, step.value)
        && Next(queue.initiated, sys, step.value) == System(queue.next, sys.workers[t.w := AsWorker()])
    {
      hide AfterFrame, AfterStart;
      match phase {
        case Filling =>
          if |live| < slots {
            step := Some(Step.Pop(t.w, t.ok1));
            var started, sent := StartNext(t.ok1);
            phase := if !sent then Failing else if started then Filling
                     else if live == map[] then Finished(true) else Receiving;
          } else {
            step := Some(Step.Full(t.w));
            phase := if live == map[] then Finished(true) else Receiving;
          }
        case Receiving =>
          if t.message.None? {
            step := Some(Step.Break(t.w));
            phase := Failing;
          } else {
            step := Some(Step.Deliver(t.w, t.message.value, t.ok1, t.ok2));
            var sent := OnText(t.message.value, t.ok1, t.ok2);
            phase := if sent then Filling else Failing;
          }
        case Failing =>
          ghost var order := FailAll();
          step := Some(Step.Fail(t.w, order));
          phase := Finished(false);
        case Finished(_) =>
          step := None;
      }
    }
  }

  // ------------------------------------------------------------------
  // All drivers of a run
  // ------------------------------------------------------------------

  /** Whose turn it is, which of its sends succeed, and the message it gets,
      if the relay has one for it in time. */
  datatype Turn = Turn(w: nat, ok1: bool, ok2: bool, message: Option<Frame>)

  function TurnsOf(schedule: seq<Turn>, w: nat): nat {
    if schedule == [] then 0
    else TurnsOf(schedule[..|schedule| - 1], w) + if schedule[|schedule| - 1].w == w then 1 else 0
  }

  function StepsOf(steps: seq<Step>, w: nat): nat {
    if steps == [] then 0 else StepsOf(steps[..|steps| - 1], w) + if steps[|steps| - 1].w == w then 1 else 0
  }

  /** Every turn of a task that is not over was a step. */
  ghost predicate Follows(sys: System, steps: seq<Step>, schedule: seq<Turn>) {
    forall w: nat :: w < |sys.workers| && !sys.workers[w].phase.Finished? ==> StepsOf(steps, w) == TurnsOf(schedule, w)
  }

  ghost predicate Drives(drivers: seq<Driver>, queue: Queue, sys: System)
    reads drivers, queue
  {
    && (forall i, j :: 0 <= i < j < |drivers| ==> drivers[i] != drivers[j])
    && (forall i :: 0 <= i < |drivers| ==> drivers[i].queue == queue)
    && sys.next == queue.next <= |queue.initiated|
    && |sys.workers| == |drivers| && forall i :: 0 <= i < |drivers| ==> sys.workers[i] == drivers[i].AsWorker()
  }

  /** The drivers at the start of a run, one for each connection. */
  method Connect(initiated: seq<bool>, concurrency: nat, perConn: nat) returns (queue: Queue, drivers: seq<Driver>)
    requires perConn > 0
    ensures fresh(queue) && fresh(drivers) && queue.initiated == initiated
    ensures Drives(drivers, queue, Start(initiated, concurrency, perConn))
  {
    hide Connections, SlotsOf;
    queue := new Queue(initiated);
    var total := Min(concurrency, |initiated|);
    var conns := Connections(total, perConn);
    drivers := [];
    for k := 0 to conns
      invariant fresh(queue) && fresh(drivers) && queue.next == 0 && |drivers| == k
      invariant forall i, j :: 0 <= i < j < k ==> drivers[i] != drivers[j]
      invariant forall i :: 0 <= i < k ==>
        drivers[i].queue == queue && drivers[i].AsWorker() == Worker(NoSyncs, Filling, SlotsOf(total, perConn, i))
    {
      var driver := new Driver(queue, SlotsOf(total, perConn, k));
      drivers := drivers + [driver];
    }
  }

  ghost predicate RunTo(initiated: seq<bool>, concurrency: nat, perConn: nat, run: Run, schedule: seq<Turn>,
                        sys: System)
    requires perConn > 0
  {
    && IsRun(initiated, concurrency, perConn, run) && run.states[|run.steps|] == sys
    && Follows(sys, run.steps, schedule)
  }

  lemma {:induction false} RunStarts(initiated: seq<bool>, concurrency: nat, perConn: nat)
    requires perConn > 0
    ensures
      var sys := Start(initiated, concurrency, perConn);
      RunTo(initiated, concurrency, perConn, Run([sys], []), [], sys)
  {
    hide Start;
  }

  lemma {:induction false} RunGoesOn(initiated: seq<bool>, concurrency: nat, perConn: nat, run: Run,
                                     schedule: seq<Turn>, sys: System, t: Turn, step: Step)
    requires perConn > 0 && RunTo(initiated, concurrency, perConn, run, schedule, sys)
    requires Enabled(sys, step) && step.w == t.w && !sys.workers[t.w].phase.Finished?
    ensures
      var sys' := Next(initiated, sys, step);
      RunTo(initiated, concurrency, perConn, Run(run.states + [sys'], run.steps + [step]), schedule + [t], sys')
  {
    hide Next, Enabled, Start;
    var sys' := Next(initiated, sys, step);
    var run' := Run(run.states + [sys'], run.steps + [step]);
    forall k | 0 <= k < |run'.steps|
      ensures Moves(initiated, run', k)
    {
      if k < |run.steps| {
        assert Moves(initiated, run, k);
      }
    }
    OthersWait(initiated, sys, step);
    assert run'.steps[..|run.steps|] == run.steps && (schedule + [t])[..|schedule|] == schedule;
  }

  lemma {:induction false} OthersWait(initiated: seq<bool>, sys: System, step: Step)
    requires Enabled(sys, step)
    ensures |Next(initiated, sys, step).workers| == |sys.workers|
    ensures forall k :: 0 <= k < |sys.workers| && k != step.w ==>
      Next(initiated, sys, step).workers[k] == sys.workers[k]
  {
    hide AfterFrame, AfterPop;
  }

  lemma {:induction false} RunWaits(initiated: seq<bool>, concurrency: nat, perConn: nat, run: Run,
                                    schedule: seq<Turn>, sys: System, t: Turn)
    requires perConn > 0 && RunTo(initiated, concurrency, perConn, run, schedule, sys)
    requires t.w >= |sys.workers| || sys.workers[t.w].phase.Finished?
    ensures RunTo(initiated, concurrency, perConn, run, schedule + [t], sys)
  {
    hide IsRun;
    assert (schedule + [t])[..|schedule|] == schedule;
  }

  /** The connections' tasks under any schedule: the trace they leave is a run
      in which every turn is a step, and once all of them are over the report
      has each planned sync once. */
  method RunAll(initiated: seq<bool>, concurrency: nat, perConn: nat, schedule: seq<Turn>)
    returns (r: Option<Report>, ghost run: Run, ghost last: System)
    requires perConn > 0
    ensures RunTo(initiated, concurrency, perConn, run, schedule, last)
    ensures forall k :: 0 <= k < |run.states| ==> InFlight(run.states[k].workers) <= concurrency
    ensures r.Some? <==> AllFinished(last)
    ensures r.Some? ==> AllSettled(r.value.done)
    ensures r.Some? ==> forall job: nat :: Places(r.value, job) == if job < |initiated| then 1 else 0
    ensures r.Some? ==> Fated(Past(initiated, run.steps), r.value)
    ensures r.Some? ==> r.value == FullReport(Past(initiated, run.steps), |last.workers|)
  {
    hide *;
    var queue, drivers := Connect(initiated, concurrency, perConn);
    last := Start(initiated, concurrency, perConn);
    run := Run([last], []);
    RunStarts(initiated, concurrency, perConn);
    assert schedule[..0] == [];
    for i := 0 to |schedule|
      invariant fresh(queue) && fresh(drivers) && queue.initiated == initiated && Drives(drivers, queue, last)
      invariant RunTo(initiated, concurrency, perConn, run, schedule[..i], last)
    {
      var t := schedule[i];
      assert schedule[..i + 1] == schedule[..i] + [t];
      last, run := TakeTurn(initiated, concurrency, perConn, queue, drivers, t, schedule[..i], last, run);
    }
    assert schedule[..|schedule|] == schedule;
    InFlightAlways(initiated, concurrency, perConn, run, schedule, last);
    r := Finally(initiated, concurrency, perConn, queue, drivers, schedule, last, run);
  }

  method TakeTurn(initiated: seq<bool>, ghost concurrency: nat, ghost perConn: nat, queue: Queue,
                  drivers: seq<Driver>, t: Turn, ghost before: seq<Turn>, ghost sys: System, ghost run: Run)
    returns (ghost sys': System, ghost run': Run)
    requires perConn > 0 && queue.initiated == initiated && Drives(drivers, queue, sys)
    requires RunTo(initiated, concurrency, perConn, run, before, sys)
    modifies drivers, queue
    ensures Drives(drivers, queue, sys')
    ensures RunTo(initiated, concurrency, perConn, run', before + [t], sys')
  {
    hide RunTo, Next, Enabled;
    sys', run' := sys, run;
    if t.w < |drivers| {
      ghost var step := drivers[t.w].TakeOne(t, sys);
      if step.Some? {
        RunGoesOn(initiated, concurrency, perConn, run, before, sys, t, step.value);
        sys' := Next(initiated, sys, step.value);
        run' := Run(run.states + [sys'], run.steps + [step.value]);
      } else {
        RunWaits(initiated, concurrency, perConn, run, before, sys, t);
      }
    } else {
      RunWaits(initiated, concurrency, perConn, run, before, sys, t);
    }
  }

  lemma {:induction false} InFlightAlways(initiated: seq<bool>, concurrency: nat, perConn: nat, run: Run,
                                          schedule: seq<Turn>, sys: System)
    requires perConn > 0 && RunTo(initiated, concurrency, perConn, run, schedule, sys)
    ensures forall k :: 0 <= k < |run.states| ==> InFlight(run.states[k].workers) <= concurrency
  {
    hide IsRun, InFlight;
    forall k | 0 <= k < |run.states|
      ensures InFlight(run.states[k].workers) <= concurrency
    {
      ConcurrencyIsKept(initiated, concurrency, perConn, run, k);
    }
  }

  method Finally(initiated: seq<bool>, ghost concurrency: nat, ghost perConn: nat, queue: Queue, drivers: seq<Driver>,
                 ghost schedule: seq<Turn>, ghost sys: System, ghost run: Run)
    returns (r: Option<Report>)
    requires perConn > 0 && queue.initiated == initiated && Drives(drivers, queue, sys)
    requires RunTo(initiated, concurrency, perConn, run, schedule, sys)
    ensures r.Some? <==> AllFinished(sys)
    ensures r.Some? ==> AllSettled(r.value.done)
    ensures r.Some? ==> forall job: nat :: Places(r.value, job) == if job < |initiated| then 1 else 0
    ensures r.Some? ==> Fated(Past(initiated, run.steps), r.value)
    ensures r.Some? ==> r.value == FullReport(Past(initiated, run.steps), |sys.workers|)
  {
    hide IsRun, Places, AllSettled, FullReport, Fated;
    var workers := [];
    for k := 0 to |drivers|
      invariant workers == sys.workers[..k]
      invariant forall w :: 0 <= w < k ==> sys.workers[w].phase.Finished?
    {
      if !drivers[k].phase.Finished? {
        assert !sys.workers[k].phase.Finished?;
        return None;
      }
      workers := workers + [drivers[k].AsWorker()];
    }
    var report := EndOfRun(initiated, concurrency, perConn, run, System(queue.next, workers));
    r := Some(report);
  }
}
