/**
 The plan of the catch-up workload (`plan` in catchup.rs): windows that divide
 a corpus by time, and jobs that divide each window into held and missing.

 Events stand as their index in the corpus, sorted by time; what is left of
 an event is its created_at. The random choice of lacking events is an
 input. Percentages are exact numbers, where the source has floats.
 */
module SyncPlan {

  import opened Basics

  // ------------------------------------------------------------------
  // Time windows
  // ------------------------------------------------------------------

  /** A filter on created_at and the events, by index, it is planned for. */
  datatype Window = Window(since: Option<nat>, until: Option<nat>, first: nat, end: nat) {
    predicate Covers(t: nat) {
      (since.Some? ==> since.value <= t) && (until.Some? ==> t <= until.value)
    }
  }

  /** Where the time goes up. */
  predicate Boundary(times: seq<nat>, b: nat) {
    0 < b < |times| && times[b - 1] < times[b]
  }

  ghost predicate Cuts(times: seq<nat>, starts: seq<nat>) {
    && starts != [] && starts[0] == 0 && Increasing(starts)
    && forall k :: 1 <= k < |starts| ==> Boundary(times, starts[k])
  }

  function WindowAt(times: seq<nat>, starts: seq<nat>, w: nat): Window
    requires w < |starts| && (forall k :: 1 <= k < |starts| ==> Boundary(times, starts[k]))
  {
    var more := w + 1 < |starts|;
    assert w > 0 ==> Boundary(times, starts[w]);
    assert more ==> Boundary(times, starts[w + 1]);
    Window(if w > 0 then Some(times[starts[w]]) else None,
           if more then Some(times[starts[w + 1]] - 1) else None,
           starts[w],
           if more then starts[w + 1] else |times|)
  }

  ghost predicate Covered(ws: seq<Window>, t: nat) {
    exists w :: 0 <= w < |ws| && ws[w].Covers(t)
  }

  /** Every time falls in exactly one window, and a window's events are
      exactly those its filter matches. */
  ghost predicate Splits(times: seq<nat>, ws: seq<Window>) {
    && (forall t: nat :: Covered(ws, t))
    && (forall t: nat, v, w :: 0 <= v < w < |ws| ==> !(ws[v].Covers(t) && ws[w].Covers(t)))
    && (forall w :: 0 <= w < |ws| ==> ws[w].first < ws[w].end <= |times|)
    && (forall w, i :: 0 <= w < |ws| && 0 <= i < |times| ==> (ws[w].Covers(times[i]) <==> ws[w].first <= i < ws[w].end))
  }

  /** The event after share `w` of `count` equal ones, if any is left. */
  function Mark(n: nat, count: nat, w: nat): nat
    requires count > 0
  {
    w * n / count
  }

  /** `f` is the first event of the second of event `i`. */
  ghost predicate IsFirst(times: seq<nat>, i: nat, f: nat) {
    f <= i < |times| && times[f] == times[i] && (f > 0 ==> times[f - 1] < times[f])
  }

  ghost predicate MarkIsCut(times: seq<nat>, count: nat, w: nat, starts: seq<nat>)
    requires count > 0
  {
    exists v :: 0 <= v < |starts| && IsFirst(times, Mark(|times|, count, w), starts[v])
  }

  ghost predicate IsMarked(times: seq<nat>, count: nat, n: nat, start: nat)
    requires count > 0
  {
    exists w: nat :: w < n && IsFirst(times, Mark(|times|, count, w), start)
  }

  /** The cuts are the first seconds of the first `n` shares, no more and no less. */
  ghost predicate CutsAtMarks(times: seq<nat>, count: nat, n: nat, starts: seq<nat>)
    requires count > 0
  {
    && (forall w: nat :: w < n ==> MarkIsCut(times, count, w, starts))
    && (forall v :: 0 <= v < |starts| ==> IsMarked(times, count, n, starts[v]))
  }

  function Firsts(ws: seq<Window>): seq<nat> {
    seq(|ws|, w requires 0 <= w < |ws| => ws[w].first)
  }

  /** `windows`. No `until` underflows: a window ends before a second that
      another precedes. */
  method Windows(times: seq<nat>, count: nat) returns (ws: seq<Window>)
    requires Ascending(times) && times != [] && count > 0
    ensures 0 < |ws| <= count
    ensures Splits(times, ws)
    ensures ws[0].since.None? && ws[|ws| - 1].until.None?
    ensures CutsAtMarks(times, count, count, Firsts(ws))
  {
    hide Increasing, Boundary, CutsAtMarks;
    var starts := Starts(times, count);
    ws := [];
    for w := 0 to |starts|
      invariant |ws| == w
      invariant forall v :: 0 <= v < w ==> ws[v] == WindowAt(times, starts, v)
    {
      ws := ws + [WindowAt(times, starts, w)];
    }
    CutsSplit(times, starts, ws);
    assert Firsts(ws) == starts;
  }

  method Starts(times: seq<nat>, count: nat) returns (starts: seq<nat>)
    requires Ascending(times) && times != [] && count > 0
    ensures Cuts(times, starts) && |starts| <= count && CutsAtMarks(times, count, count, starts)
  {
    hide CutsAtMarks, IsFirst;
    var n := |times|;
    starts := [0];
    MarksStart(times, count);
    for w := 1 to count
      invariant Cuts(times, starts) && |starts| <= w
      invariant CutsAtMarks(times, count, w, starts) && IsFirst(times, Mark(n, count, w - 1), starts[|starts| - 1])
    {
      IndexBelow(w, n, count);
      var second := times[w * n / count];
      var start := PartitionPoint(times, second);
      NextMark(times, count, w, starts, start);
      if start > starts[|starts| - 1] {
        CutsExtend(times, starts, start);
        starts := starts + [start];
      }
    }
  }

  lemma {:induction false} MarksStart(times: seq<nat>, count: nat)
    requires times != [] && count > 0
    ensures CutsAtMarks(times, count, 1, [0]) && IsFirst(times, Mark(|times|, count, 0), 0)
  {
    assert Mark(|times|, count, 0) == 0;
    assert IsFirst(times, 0, [0][0]);
    assert MarkIsCut(times, count, 0, [0]);
    assert IsMarked(times, count, 1, 0);
  }

  lemma {:induction false} MarkGrows(n: nat, count: nat, w: nat)
    requires 0 < w < count
    ensures Mark(n, count, w - 1) <= Mark(n, count, w)
  {
    var p, q := Mark(n, count, w - 1), Mark(n, count, w);
    Quotient((w - 1) * n, count);
    Quotient(w * n, count);
    assert w * n == (w - 1) * n + n;
    if q < p {
      BlockOrder(count, q, p, count - 1);
    }
  }

  /** The next mark's second starts after the last cut, or at it. */
  lemma {:induction false} NextMark(times: seq<nat>, count: nat, w: nat, starts: seq<nat>, start: nat)
    requires Ascending(times) && times != [] && 0 < w < count && starts != []
    requires CutsAtMarks(times, count, w, starts)
    requires IsFirst(times, Mark(|times|, count, w - 1), starts[|starts| - 1])
    requires Mark(|times|, count, w) < |times| && start <= |times|
    requires forall i :: 0 <= i < start ==> times[i] < times[Mark(|times|, count, w)]
    requires forall i :: start <= i < |times| ==> times[Mark(|times|, count, w)] <= times[i]
    ensures starts[|starts| - 1] <= start && IsFirst(times, Mark(|times|, count, w), start)
    ensures start > starts[|starts| - 1] ==> Boundary(times, start)
    ensures CutsAtMarks(times, count, w + 1, if start > starts[|starts| - 1] then starts + [start] else starts)
  {
    hide CutsAtMarks, Mark;
    MarkGrows(|times|, count, w);
    assert IsFirst(times, Mark(|times|, count, w), start);
    if start > starts[|starts| - 1] {
      CutsMore(times, count, w, starts, start);
    } else {
      CutsSame(times, count, w, starts, |starts| - 1);
    }
  }

  lemma {:induction false} CutsSame(times: seq<nat>, count: nat, w: nat, starts: seq<nat>, v: nat)
    requires 0 < count && v < |starts| && CutsAtMarks(times, count, w, starts)
    requires IsFirst(times, Mark(|times|, count, w), starts[v])
    ensures CutsAtMarks(times, count, w + 1, starts)
  {
    hide IsFirst, Mark;
    forall v | 0 <= v < |starts|
      ensures IsMarked(times, count, w + 1, starts[v])
    {
      var u: nat :| u < w && IsFirst(times, Mark(|times|, count, u), starts[v]);
    }
  }

  lemma {:induction false} CutsMore(times: seq<nat>, count: nat, w: nat, starts: seq<nat>, start: nat)
    requires 0 < count && CutsAtMarks(times, count, w, starts)
    requires IsFirst(times, Mark(|times|, count, w), start)
    ensures CutsAtMarks(times, count, w + 1, starts + [start])
  {
    hide IsFirst, Mark;
    var more := starts + [start];
    forall u: nat | u < w + 1
      ensures MarkIsCut(times, count, u, more)
    {
      if u < w {
        assert MarkIsCut(times, count, u, starts);
        var v :| 0 <= v < |starts| && IsFirst(times, Mark(|times|, count, u), starts[v]);
        assert more[v] == starts[v];
      } else {
        assert more[|starts|] == start;
      }
    }
    forall v | 0 <= v < |more|
      ensures IsMarked(times, count, w + 1, more[v])
    {
      if v < |starts| {
        assert IsMarked(times, count, w, starts[v]);
        var u: nat :| u < w && IsFirst(times, Mark(|times|, count, u), starts[v]);
        assert more[v] == starts[v];
      }
    }
  }

  lemma {:induction false} CutsExtend(times: seq<nat>, starts: seq<nat>, start: nat)
    requires Cuts(times, starts) && starts[|starts| - 1] < start && Boundary(times, start)
    ensures Cuts(times, starts + [start])
  {
  }

  lemma {:induction false} IndexBelow(w: nat, n: nat, count: nat)
    requires w < count && n > 0
    ensures w * n / count < n
  {
    var q := w * n / count;
    Quotient(w * n, count);
    if n <= q {
      ProductGrows(n, q, count);
      BlockOrder(n, w, count, 0);
    }
  }

  ghost predicate CutInto(times: seq<nat>, starts: seq<nat>, ws: seq<Window>) {
    && Ascending(times) && times != [] && Cuts(times, starts) && |ws| == |starts|
    && forall w :: 0 <= w < |ws| ==> ws[w] == WindowAt(times, starts, w)
  }

  lemma {:induction false} CutsSplit(times: seq<nat>, starts: seq<nat>, ws: seq<Window>)
    requires CutInto(times, starts, ws)
    ensures Splits(times, ws)
  {
    forall t: nat
      ensures Covered(ws, t)
    {
      TimeIsCovered(times, starts, ws, t);
    }
    forall t: nat, v, w | 0 <= v < w < |ws|
      ensures !(ws[v].Covers(t) && ws[w].Covers(t))
    {
      Apart(times, starts, ws, v, w, t);
    }
    forall w | 0 <= w < |ws|
      ensures ws[w].first < ws[w].end <= |times|
    {
      MembersMatch(times, starts, ws, w, 0);
    }
    forall w, i | 0 <= w < |ws| && 0 <= i < |times|
      ensures ws[w].Covers(times[i]) <==> ws[w].first <= i < ws[w].end
    {
      MembersMatch(times, starts, ws, w, i);
    }
    hide CutInto;
  }

  lemma {:induction false} TimeIsCovered(times: seq<nat>, starts: seq<nat>, ws: seq<Window>, t: nat)
    requires CutInto(times, starts, ws)
    ensures Covered(ws, t)
  {
    var w := 0;
    while w + 1 < |ws| && times[starts[w + 1]] <= t
      invariant w < |ws| && (w > 0 ==> times[starts[w]] <= t)
    {
      w := w + 1;
    }
    assert ws[w].Covers(t);
  }

  lemma {:induction false} Apart(times: seq<nat>, starts: seq<nat>, ws: seq<Window>, v: nat, w: nat, t: nat)
    requires CutInto(times, starts, ws) && v < w < |ws|
    ensures !(ws[v].Covers(t) && ws[w].Covers(t))
  {
  }

  lemma {:induction false} MembersMatch(times: seq<nat>, starts: seq<nat>, ws: seq<Window>, w: nat, i: nat)
    requires CutInto(times, starts, ws) && w < |ws| && i < |times|
    ensures ws[w].Covers(times[i]) <==> ws[w].first <= i < ws[w].end
    ensures ws[w].first < ws[w].end <= |times|
  {
  }

  // ------------------------------------------------------------------
  // Held and missing
  // ------------------------------------------------------------------

  /** How the missing events are chosen; a sample is given. */
  datatype Missing = Newest | Random(sample: seq<nat>)

  /** One sync, by event index. */
  datatype Job = Job(held: seq<nat>, missing: seq<nat>)

  datatype Plan = Plan(jobs: seq<Job>, events: seq<nat>, held: nat, missing: nat)

  ghost function UnionOf(members: seq<seq<nat>>): set<nat> {
    set w, i | 0 <= w < |members| && 0 <= i < |members[w]| :: members[w][i]
  }

  /** Flattened, sorted and without repetitions. */
  method Union(members: seq<seq<nat>>) returns (union: seq<nat>)
    ensures Increasing(union) && SetOf(union) == UnionOf(members)
  {
    union := [];
    for w := 0 to |members|
      invariant Increasing(union)
      invariant SetOf(union) == UnionOf(members[..w])
    {
      for i := 0 to |members[w]|
        invariant Increasing(union)
        invariant forall x :: x in union <==> x in UnionOf(members[..w]) || x in members[w][..i]
      {
        InsertAdds(union, members[w][i]);
        union := Insert(union, members[w][i]);
        assert members[w][..i + 1] == members[w][..i] + [members[w][i]];
      }
      UnionStep(members, w);
    }
    assert members[..|members|] == members;
  }

  lemma {:induction false} UnionStep(members: seq<seq<nat>>, w: nat)
    requires w < |members|
    ensures UnionOf(members[..w + 1]) == UnionOf(members[..w]) + SetOf(members[w])
  {
  }

  /** Rounded to the nearest whole number, halves up. */
  function Count(pct: real, n: nat): (count: nat)
    requires 0.0 <= pct <= 100.0
    ensures count <= n
  {
    Share(pct, n);
    (pct * n as real / 100.0 + 0.5).Floor
  }

  lemma {:induction false} Share(pct: real, n: nat)
    requires 0.0 <= pct <= 100.0
    ensures 0.0 <= pct * n as real / 100.0 <= n as real
  {
  }

  ghost predicate Sampled(missing: Missing, n: nat, count: nat) {
    missing.Random? ==>
      && |missing.sample| == count
      && (forall k :: 0 <= k < count ==> missing.sample[k] < n)
      && (forall j, k :: 0 <= j < k < count ==> missing.sample[j] != missing.sample[k])
  }

  ghost function Picked(events: seq<nat>, sample: seq<nat>): set<nat> {
    set j | 0 <= j < |sample| && sample[j] < |events| :: events[sample[j]]
  }

  /** Exactly `count` of the union, the last ones or the sampled ones. */
  method Lacking(missing: Missing, union: seq<nat>, count: nat) returns (lacking: set<nat>)
    requires Increasing(union) && count <= |union| && Sampled(missing, |union|, count)
    ensures lacking <= SetOf(union) && |lacking| == count
    ensures missing.Newest? ==> forall x, y :: x in SetOf(union) - lacking && y in lacking ==> x < y
    ensures missing.Random? ==> lacking == Picked(union, missing.sample)
  {
    match missing {
      case Newest =>
        var newest := union[|union| - count..];
        IncreasingSize(newest);
        lacking := set x | x in newest;
        assert lacking == SetOf(newest);
        assert union == union[..|union| - count] + newest;
      case Random(sample) =>
        lacking := Sample(union, sample);
    }
  }

  method Sample(union: seq<nat>, sample: seq<nat>) returns (lacking: set<nat>)
    requires Increasing(union) && Sampled(Random(sample), |union|, |sample|)
    ensures lacking <= SetOf(union) && |lacking| == |sample| && lacking == Picked(union, sample)
  {
    lacking := {};
    for k := 0 to |sample|
      invariant lacking == set j | 0 <= j < k :: union[sample[j]]
      invariant |lacking| == k
    {
      assert union[sample[k]] !in lacking;
      lacking := lacking + {union[sample[k]]};
    }
  }

  /** The members that are lacking, or those that are not, in order. */
  function Chosen(members: seq<nat>, lacking: set<nat>, lacks: bool): seq<nat> {
    if members == [] then []
    else
      var last := members[|members| - 1];
      Chosen(members[..|members| - 1], lacking, lacks) + if (last in lacking) == lacks then [last] else []
  }

  ghost predicate Shares(members: seq<nat>, job: Job, lacking: set<nat>) {
    && SetOf(job.missing) == SetOf(members) * lacking
    && SetOf(job.held) == SetOf(members) - lacking
    && multiset(job.held) + multiset(job.missing) == multiset(members)
  }

  method Partition(members: seq<nat>, lacking: set<nat>) returns (job: Job)
    ensures job == Job(Chosen(members, lacking, false), Chosen(members, lacking, true))
    ensures Shares(members, job, lacking)
  {
    hide Shares;
    var held, missing := [], [];
    for i := 0 to |members|
      invariant held == Chosen(members[..i], lacking, false) && missing == Chosen(members[..i], lacking, true)
    {
      assert members[..i + 1][..i] == members[..i];
      if members[i] in lacking {
        missing := missing + [members[i]];
      } else {
        held := held + [members[i]];
      }
    }
    assert members[..|members|] == members;
    job := Job(held, missing);
    ChosenShares(members, lacking);
  }

  lemma {:induction false} ChosenShares(members: seq<nat>, lacking: set<nat>)
    ensures Shares(members, Job(Chosen(members, lacking, false), Chosen(members, lacking, true)), lacking)
  {
    ChosenAll(members, lacking);
    forall x
      ensures x in Chosen(members, lacking, true) <==> x in members && x in lacking
      ensures x in Chosen(members, lacking, false) <==> x in members && x !in lacking
    {
      ChosenHas(members, lacking, true, x);
      ChosenHas(members, lacking, false, x);
    }
  }

  lemma {:induction false} ChosenHas(members: seq<nat>, lacking: set<nat>, lacks: bool, x: nat)
    ensures x in Chosen(members, lacking, lacks) <==> x in members && (x in lacking) == lacks
  {
    if members != [] {
      ChosenHas(members[..|members| - 1], lacking, lacks, x);
    }
  }

  lemma {:induction false} ChosenAll(members: seq<nat>, lacking: set<nat>)
    ensures multiset(Chosen(members, lacking, false)) + multiset(Chosen(members, lacking, true)) == multiset(members)
  {
    if members != [] {
      var n := |members| - 1;
      ChosenAll(members[..n], lacking);
      assert members == members[..n] + [members[n]];
      var lacks := members[n] in lacking;
      assert Chosen(members, lacking, lacks) == Chosen(members[..n], lacking, lacks) + [members[n]];
      assert Chosen(members, lacking, !lacks) == Chosen(members[..n], lacking, !lacks);
    }
  }

  ghost function AllHeld(jobs: seq<Job>): set<nat> {
    set w, x | 0 <= w < |jobs| && x in SetOf(jobs[w].held) :: x
  }

  ghost function AllMissing(jobs: seq<Job>): set<nat> {
    set w, x | 0 <= w < |jobs| && x in SetOf(jobs[w].missing) :: x
  }

  /** The client holds and lacks, between the jobs, each matched event once
      and nothing else, in the reported numbers; and a job covers its
      members, held where any job holds them. */
  ghost predicate Divided(members: seq<seq<nat>>, plan: Plan) {
    var held, missing := AllHeld(plan.jobs), AllMissing(plan.jobs);
    && Increasing(plan.events) && SetOf(plan.events) == UnionOf(members)
    && held + missing == UnionOf(members) && held !! missing
    && |held| == plan.held && |missing| == plan.missing
    && |plan.jobs| == |members|
    && forall w :: 0 <= w < |members| ==> Shares(members[w], plan.jobs[w], missing)
  }

  ghost predicate NewestMissing(plan: Plan) {
    forall x, y :: x in AllHeld(plan.jobs) && y in AllMissing(plan.jobs) ==> x < y
  }

  lemma {:induction false} JobsDivide(members: seq<seq<nat>>, jobs: seq<Job>, lacking: set<nat>)
    requires |jobs| == |members| && lacking <= UnionOf(members)
    requires forall w :: 0 <= w < |jobs| ==> Shares(members[w], jobs[w], lacking)
    ensures AllMissing(jobs) == lacking
    ensures AllHeld(jobs) == UnionOf(members) - lacking
  {
    forall x | x in UnionOf(members)
      ensures x in lacking ==> x in AllMissing(jobs)
      ensures x !in lacking ==> x in AllHeld(jobs)
    {
      var w, i :| 0 <= w < |members| && 0 <= i < |members[w]| && members[w][i] == x;
      assert Shares(members[w], jobs[w], lacking) && x in SetOf(members[w]);
      assert x in SetOf(jobs[w].missing) || x in SetOf(jobs[w].held);
    }
    forall w, x | 0 <= w < |jobs| && (x in SetOf(jobs[w].held) || x in SetOf(jobs[w].missing))
      ensures x in UnionOf(members)
      ensures x in lacking <==> x in SetOf(jobs[w].missing)
      ensures x in lacking <==> x !in SetOf(jobs[w].held)
    {
      assert Shares(members[w], jobs[w], lacking) && x in SetOf(members[w]);
    }
  }

  ghost predicate Within(limit: Option<nat>, members: seq<seq<nat>>) {
    limit.Some? ==> forall w :: 0 <= w < |members| ==> |members[w]| <= limit.value
  }

  /** The end of `plan`: refused where a filter passes its limit; otherwise
      the events split into held and missing, and each job holds and lacks
      exactly its own share of them. */
  method MakePlan(members: seq<seq<nat>>, limit: Option<nat>, pct: real, missing: Missing) returns (plan: Option<Plan>)
    requires 0.0 <= pct <= 100.0
    requires Sampled(missing, |UnionOf(members)|, Count(pct, |UnionOf(members)|))
    ensures plan.Some? <==> Within(limit, members)
    ensures plan.Some? ==> Divided(members, plan.value)
    ensures plan.Some? ==> plan.value.missing == Count(pct, |UnionOf(members)|)
    ensures plan.Some? && missing.Newest? ==> NewestMissing(plan.value)
    ensures plan.Some? && missing.Random? ==>
      AllMissing(plan.value.jobs) == Picked(plan.value.events, missing.sample)
  {
    hide Increasing, Within, Count, Picked;
    var fits := FitsLimit(limit, members);
    if !fits {
      return None;
    }
    var union := Union(members);
    IncreasingSize(union);
    var count := Count(pct, |union|);
    var lacking := Lacking(missing, union, count);
    var jobs := Jobs(members, lacking);
    JobsDivide(members, jobs, lacking);
    plan := Some(Plan(jobs, union, |union| - count, count));
    PlanDivides(members, plan.value, lacking);
  }

  method FitsLimit(limit: Option<nat>, members: seq<seq<nat>>) returns (fits: bool)
    ensures fits <==> Within(limit, members)
  {
    if limit.Some? {
      for w := 0 to |members|
        invariant forall v :: 0 <= v < w ==> |members[v]| <= limit.value
      {
        if |members[w]| > limit.value {
          return false;
        }
      }
    }
    return true;
  }

  lemma {:induction false} PlanDivides(members: seq<seq<nat>>, plan: Plan, lacking: set<nat>)
    requires Increasing(plan.events) && SetOf(plan.events) == UnionOf(members) && lacking <= UnionOf(members)
    requires AllMissing(plan.jobs) == lacking && AllHeld(plan.jobs) == UnionOf(members) - lacking
    requires |plan.jobs| == |members| && forall w :: 0 <= w < |members| ==> Shares(members[w], plan.jobs[w], lacking)
    requires plan.missing == |lacking| && plan.held == |UnionOf(members)| - |lacking|
    ensures Divided(members, plan)
  {
  }

  method Jobs(members: seq<seq<nat>>, lacking: set<nat>) returns (jobs: seq<Job>)
    ensures |jobs| == |members|
    ensures forall w :: 0 <= w < |jobs| ==> Shares(members[w], jobs[w], lacking)
  {
    jobs := [];
    for w := 0 to |members|
      invariant |jobs| == w
      invariant forall v :: 0 <= v < w ==> Shares(members[v], jobs[v], lacking)
    {
      var job := Partition(members[w], lacking);
      jobs := jobs + [job];
    }
  }

  function Range(first: nat, end: nat): seq<nat>
    requires first <= end
  {
    seq(end - first, k requires 0 <= k < end - first => first + k)
  }

  lemma {:induction false} RangeSet(first: nat, end: nat, x: nat)
    requires first <= end
    ensures x in SetOf(Range(first, end)) <==> first <= x < end
  {
    if first <= x < end {
      assert Range(first, end)[x - first] == x;
    }
  }

  ghost predicate Ranges(times: seq<nat>, ws: seq<Window>, members: seq<seq<nat>>) {
    && Splits(times, ws) && |members| == |ws|
    && forall w :: 0 <= w < |ws| ==> members[w] == Range(ws[w].first, ws[w].end)
  }

  lemma {:induction false} WindowsUnion(times: seq<nat>, ws: seq<Window>, members: seq<seq<nat>>)
    requires Ranges(times, ws, members)
    ensures UnionOf(members) == SetOf(Range(0, |times|))
    ensures |UnionOf(members)| == |times|
  {
    forall x: nat
      ensures x in UnionOf(members) <==> x in SetOf(Range(0, |times|))
    {
      RangeSet(0, |times|, x);
      if x < |times| {
        assert Covered(ws, times[x]);
        var w :| 0 <= w < |ws| && ws[w].Covers(times[x]);
        assert members[w][x - ws[w].first] == x;
      }
    }
    IncreasingSize(Range(0, |times|));
  }

  lemma {:induction false} JobsCover(times: seq<nat>, ws: seq<Window>, members: seq<seq<nat>>, plan: Plan)
    requires Ranges(times, ws, members) && Divided(members, plan)
    ensures forall w, i :: 0 <= w < |ws| && 0 <= i < |times| ==>
      (ws[w].Covers(times[i]) <==> i in SetOf(plan.jobs[w].held) + SetOf(plan.jobs[w].missing))
  {
    hide Window.Covers;
    forall w, i | 0 <= w < |ws| && 0 <= i < |times|
      ensures ws[w].Covers(times[i]) <==> i in SetOf(plan.jobs[w].held) + SetOf(plan.jobs[w].missing)
    {
      JobCovers(times, ws, members, plan, w, i);
    }
  }

  lemma {:induction false} JobCovers(times: seq<nat>, ws: seq<Window>, members: seq<seq<nat>>, plan: Plan, w: nat,
                                     i: nat)
    requires Ranges(times, ws, members) && Divided(members, plan) && w < |ws| && i < |times|
    ensures |ws| == |plan.jobs|
    ensures ws[w].Covers(times[i]) <==> i in SetOf(plan.jobs[w].held) + SetOf(plan.jobs[w].missing)
  {
    hide Window.Covers, Range;
    assert Shares(members[w], plan.jobs[w], AllMissing(plan.jobs));
    assert ws[w].first < ws[w].end && members[w] == Range(ws[w].first, ws[w].end);
    assert ws[w].Covers(times[i]) <==> ws[w].first <= i < ws[w].end;
    RangeSet(ws[w].first, ws[w].end, i);
  }

  /** All events in order are their own numbers. */
  lemma {:induction false} PickedOfAll(events: seq<nat>, n: nat, sample: seq<nat>)
    requires Increasing(events) && SetOf(events) == SetOf(Range(0, n))
    requires forall k :: 0 <= k < |sample| ==> sample[k] < n
    ensures Picked(events, sample) == SetOf(sample)
  {
    AllInOrder(events, n);
  }

  lemma {:induction false} AllInOrder(events: seq<nat>, n: nat)
    requires Increasing(events) && SetOf(events) == SetOf(Range(0, n))
    ensures |events| == n && forall i :: 0 <= i < n ==> events[i] == i
  {
    IncreasingSize(events);
    IncreasingSize(Range(0, n));
    for i := 0 to n
      invariant forall j :: 0 <= j < i ==> events[j] == j
    {
      RangeSet(0, n, i);
      assert i in events;
      var k :| 0 <= k < |events| && events[k] == i;
      assert i <= k && events[i] <= events[k];
      assert i > 0 ==> events[i - 1] < events[i];
    }
  }

  /** `plan` over time windows: each event of the corpus is held or missing,
      and a job has exactly the events its window's filter matches. */
  method PlanWindows(times: seq<nat>, count: nat, limit: Option<nat>, pct: real, missing: Missing)
    returns (ws: seq<Window>, plan: Option<Plan>)
    requires Ascending(times) && times != [] && count > 0 && 0.0 <= pct <= 100.0
    requires Sampled(missing, |times|, Count(pct, |times|))
    ensures Splits(times, ws) && CutsAtMarks(times, count, count, Firsts(ws))
    ensures plan.Some? <==> limit.None? || forall w :: 0 <= w < |ws| ==> ws[w].end - ws[w].first <= limit.value
    ensures plan.Some? && missing.Newest? ==> NewestMissing(plan.value)
    ensures plan.Some? && missing.Random? ==> AllMissing(plan.value.jobs) == SetOf(missing.sample)
    ensures plan.Some? ==> |plan.value.jobs| == |ws|
    ensures plan.Some? ==> AllHeld(plan.value.jobs) + AllMissing(plan.value.jobs) == SetOf(Range(0, |times|))
    ensures plan.Some? ==> AllHeld(plan.value.jobs) !! AllMissing(plan.value.jobs)
    ensures plan.Some? ==> |AllMissing(plan.value.jobs)| == Count(pct, |times|)
    ensures plan.Some? ==> forall w, i :: 0 <= w < |ws| && 0 <= i < |times| ==>
      (ws[w].Covers(times[i]) <==> i in SetOf(plan.value.jobs[w].held) + SetOf(plan.value.jobs[w].missing))
  {
    ws := Windows(times, count);
    var members := [];
    for w := 0 to |ws|
      invariant |members| == w
      invariant forall v :: 0 <= v < w ==> ws[v].first <= ws[v].end && members[v] == Range(ws[v].first, ws[v].end)
    {
      members := members + [Range(ws[w].first, ws[w].end)];
    }
    WindowsUnion(times, ws, members);
    plan := MakePlan(members, limit, pct, missing);
    if plan.Some? {
      if missing.Random? {
        PickedOfAll(plan.value.events, |times|, missing.sample);
      }
      JobsCover(times, ws, members, plan.value);
    }
  }
}
