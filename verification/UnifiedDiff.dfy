/**
 `unified_diff` of config_minimize.rs, down to the numbers in its hunk
 headers: the table of longest common subsequences, the walk through it, and
 the grouping of steps into hunks with three lines of context.

 The walk keeps as many lines as any common subsequence could, and `Patch`,
 which rebuilds a file from the hunks alone as the unified format of POSIX
 `diff -u` says, turns the old lines into the new ones. Splitting a text into
 lines and printing the hunks are not modelled.
 */
module UnifiedDiff {

  import opened Basics

  datatype Line = Line(text: string)

  const CONTEXT: nat := 3

  datatype Op = Keep | Remove | Add

  /** One edit, and how far both files were read before it. */
  datatype Step = Step(op: Op, i: nat, j: nat)
  {
    function NextI(): nat { if op == Add then i else i + 1 }
    function NextJ(): nat { if op == Remove then j else j + 1 }
  }

  // ------------------------------------------------------------------
  // Longest common subsequences
  // ------------------------------------------------------------------

  /** The length the table holds for two suffixes. */
  function Common(a: seq<Line>, b: seq<Line>): nat {
    if a == [] || b == [] then 0
    else if a[0] == b[0] then Common(a[1..], b[1..]) + 1
    else Max(Common(a[1..], b), Common(a, b[1..]))
  }

  predicate IsSubsequence(c: seq<Line>, a: seq<Line>) {
    if c == [] then true
    else if a == [] then false
    else (c[0] == a[0] && IsSubsequence(c[1..], a[1..])) || IsSubsequence(c, a[1..])
  }

  lemma {:induction false} TailIsSubsequence(c: seq<Line>, a: seq<Line>)
    requires c != [] && IsSubsequence(c, a)
    ensures a != [] && IsSubsequence(c[1..], a[1..])
  {
    if !(c[0] == a[0] && IsSubsequence(c[1..], a[1..])) {
      TailIsSubsequence(c, a[1..]);
      Weaken(c[1..], a[1..]);
    }
  }

  /** A subsequence of a tail is one of the whole. */
  lemma {:induction false} Weaken(c: seq<Line>, a: seq<Line>)
    requires a != [] && IsSubsequence(c, a[1..])
    ensures IsSubsequence(c, a)
  {
  }

  /** No common subsequence is longer than the table says. */
  lemma {:induction false} CommonIsLongest(a: seq<Line>, b: seq<Line>, c: seq<Line>)
    requires IsSubsequence(c, a) && IsSubsequence(c, b)
    ensures |c| <= Common(a, b)
    decreases |a| + |b|
  {
    if c != [] {
      TailIsSubsequence(c, a);
      TailIsSubsequence(c, b);
      if a[0] == b[0] {
        CommonIsLongest(a[1..], b[1..], c[1..]);
      } else if c[0] != a[0] {
        CommonIsLongest(a[1..], b, c);
      } else {
        CommonIsLongest(a, b[1..], c);
      }
    }
  }

  ghost predicate Filled(before: seq<Line>, after: seq<Line>, common: array2<nat>)
    requires common.Length0 == |before| + 1 && common.Length1 == |after| + 1
    reads common
  {
    forall i, j :: 0 <= i <= |before| && 0 <= j <= |after| ==> common[i, j] == Common(before[i..], after[j..])
  }

  /** The table, filled from the last line back. */
  method Table(before: seq<Line>, after: seq<Line>) returns (common: array2<nat>)
    ensures fresh(common) && common.Length0 == |before| + 1 && common.Length1 == |after| + 1
    ensures Filled(before, after, common)
  {
    var m, n := |before|, |after|;
    common := new nat[m + 1, n + 1]((_, _) => 0);
    for i := m downto 0
      invariant fresh(common) && RowsFrom(before, after, common, i)
      invariant forall x, y :: 0 <= x < i && 0 <= y <= n ==> common[x, y] == 0
    {
      FillRow(before, after, common, i);
    }
  }

  /** The rows from `i` on are right. */
  ghost predicate RowsFrom(before: seq<Line>, after: seq<Line>, common: array2<nat>, i: nat)
    requires common.Length0 == |before| + 1 && common.Length1 == |after| + 1
    reads common
  {
    forall x, y :: i <= x <= |before| && 0 <= y <= |after| ==> common[x, y] == Common(before[x..], after[y..])
  }

  method FillRow(before: seq<Line>, after: seq<Line>, common: array2<nat>, i: nat)
    requires common.Length0 == |before| + 1 && common.Length1 == |after| + 1 && i < |before|
    requires RowsFrom(before, after, common, i + 1) && common[i, |after|] == 0
    modifies common
    ensures RowsFrom(before, after, common, i)
    ensures forall x, y :: 0 <= x < i && 0 <= y <= |after| ==> common[x, y] == old(common[x, y])
  {
    var n := |after|;
    assert Common(before[i..], after[n..]) == 0;
    for j := n downto 0
      invariant RowsFrom(before, after, common, i + 1)
      invariant forall y :: j <= y <= n ==> common[i, y] == Common(before[i..], after[y..])
      invariant forall x, y :: 0 <= x < i && 0 <= y <= n ==> common[x, y] == old(common[x, y])
    {
      CommonStep(before, after, i, j);
      hide Common;
      common[i, j] :=
        if before[i] == after[j] then common[i + 1, j + 1] + 1 else Max(common[i + 1, j], common[i, j + 1]);
    }
  }

  lemma {:induction false} CommonStep(a: seq<Line>, b: seq<Line>, i: nat, j: nat)
    requires i < |a| && j < |b|
    ensures Common(a[i..], b[j..]) ==
      if a[i] == b[j] then Common(a[i + 1..], b[j + 1..]) + 1
      else Max(Common(a[i + 1..], b[j..]), Common(a[i..], b[j + 1..]))
  {
  }

  // ------------------------------------------------------------------
  // The walk
  // ------------------------------------------------------------------

  ghost predicate StepOk(before: seq<Line>, after: seq<Line>, s: Step) {
    match s.op
    case Keep => s.i < |before| && s.j < |after| && before[s.i] == after[s.j]
    case Remove => s.i < |before| && s.j <= |after|
    case Add => s.i <= |before| && s.j < |after|
  }

  /** Each step starts where the last one ended, and the first at the top. */
  ghost predicate Path(before: seq<Line>, after: seq<Line>, steps: seq<Step>) {
    && (forall k :: 0 <= k < |steps| ==> StepOk(before, after, steps[k]))
    && (steps != [] ==> steps[0].i == 0 && steps[0].j == 0)
    && (forall k :: 0 < k < |steps| ==> Linked(steps, k))
  }

  ghost predicate Linked(steps: seq<Step>, k: nat)
    requires 0 < k < |steps|
  {
    steps[k].i == steps[k - 1].NextI() && steps[k].j == steps[k - 1].NextJ()
  }

  /** The positions after the first `k` steps. */
  function I(steps: seq<Step>, k: nat): nat
    requires k <= |steps|
  {
    if k == 0 then 0 else steps[k - 1].NextI()
  }

  function J(steps: seq<Step>, k: nat): nat
    requires k <= |steps|
  {
    if k == 0 then 0 else steps[k - 1].NextJ()
  }

  /** A path that uses up both files. */
  ghost predicate Script(before: seq<Line>, after: seq<Line>, steps: seq<Step>) {
    Path(before, after, steps) && I(steps, |steps|) == |before| && J(steps, |steps|) == |after|
  }

  /** The kept lines. */
  function KeptLines(before: seq<Line>, steps: seq<Step>): seq<Line> {
    if steps == [] then []
    else
      var s := steps[|steps| - 1];
      KeptLines(before, steps[..|steps| - 1]) + if s.op == Keep && s.i < |before| then [before[s.i]] else []
  }

  lemma {:induction false} PathStep(before: seq<Line>, after: seq<Line>, steps: seq<Step>, s: Step)
    requires Path(before, after, steps) && StepOk(before, after, s)
    requires s.i == I(steps, |steps|) && s.j == J(steps, |steps|)
    ensures Path(before, after, steps + [s])
    ensures I(steps + [s], |steps| + 1) == s.NextI() && J(steps + [s], |steps| + 1) == s.NextJ()
    ensures |KeptLines(before, steps + [s])| == |KeptLines(before, steps)| + if s.op == Keep then 1 else 0
  {
    var next := steps + [s];
    assert next[..|steps|] == steps;
    forall k | 0 < k < |next|
      ensures Linked(next, k)
    {
      if k < |steps| { assert Linked(steps, k); }
    }
  }

  /** The walk's choice loses nothing of what the suffixes have in common. */
  lemma {:induction false} ChoiceKeepsCommon(before: seq<Line>, after: seq<Line>, s: Step)
    requires StepOk(before, after, s)
    requires s.op != Keep && s.i < |before| && s.j < |after| ==>
      before[s.i] != after[s.j] &&
      (s.op == Remove <==> Common(before[s.i + 1..], after[s.j..]) >= Common(before[s.i..], after[s.j + 1..]))
    ensures Common(before[s.i..], after[s.j..]) ==
      Common(before[s.NextI()..], after[s.NextJ()..]) + if s.op == Keep then 1 else 0
  {
  }

  /** Equal lines are kept, and otherwise a line is removed rather than added
      where that leaves no less in common. */
  ghost predicate Preferred(before: seq<Line>, after: seq<Line>, s: Step)
    requires s.i <= |before| && s.j <= |after|
  {
    var equal := s.i < |before| && s.j < |after| && before[s.i] == after[s.j];
    var removable := s.i < |before|
      && (s.j == |after| || Common(before[s.i + 1..], after[s.j..]) >= Common(before[s.i..], after[s.j + 1..]));
    s.op == if equal then Keep else if removable then Remove else Add
  }

  ghost predicate AllPreferred(before: seq<Line>, after: seq<Line>, steps: seq<Step>) {
    forall k :: 0 <= k < |steps| ==>
      steps[k].i <= |before| && steps[k].j <= |after| && Preferred(before, after, steps[k])
  }

  /** The walk's choice at one position. */
  method Choose(before: seq<Line>, after: seq<Line>, common: array2<nat>, i: nat, j: nat) returns (op: Op)
    requires common.Length0 == |before| + 1 && common.Length1 == |after| + 1 && Filled(before, after, common)
    requires i <= |before| && j <= |after| && (i < |before| || j < |after|)
    ensures StepOk(before, after, Step(op, i, j)) && Preferred(before, after, Step(op, i, j))
    ensures var s := Step(op, i, j);
      Common(before[i..], after[j..]) == Common(before[s.NextI()..], after[s.NextJ()..]) + if op == Keep then 1 else 0
  {
    op :=
      if i < |before| && j < |after| && before[i] == after[j] then Keep
      else if i < |before| && (j == |after| || common[i + 1, j] >= common[i, j + 1]) then Remove
      else Add;
    ChoiceKeepsCommon(before, after, Step(op, i, j));
  }

  method Walk(before: seq<Line>, after: seq<Line>) returns (steps: seq<Step>)
    ensures Script(before, after, steps) && AllPreferred(before, after, steps)
    ensures |KeptLines(before, steps)| == Common(before, after)
  {
    hide Common, Script, Filled, Preferred;
    var common := Table(before, after);
    steps := [];
    var i, j := 0, 0;
    assert before[0..] == before && after[0..] == after;
    assert Path(before, after, steps) && I(steps, 0) == 0 && J(steps, 0) == 0 && |KeptLines(before, steps)| == 0;
    while i < |before| || j < |after|
      invariant i <= |before| && j <= |after| && Filled(before, after, common)
      invariant AllPreferred(before, after, steps)
      invariant Path(before, after, steps) && I(steps, |steps|) == i && J(steps, |steps|) == j
      invariant |KeptLines(before, steps)| + Common(before[i..], after[j..]) == Common(before, after)
      decreases |before| - i + |after| - j
    {
      var op := Choose(before, after, common, i, j);
      PathStep(before, after, steps, Step(op, i, j));
      steps := steps + [Step(op, i, j)];
      match op
      case Keep => i, j := i + 1, j + 1;
      case Remove => i := i + 1;
      case Add => j := j + 1;
    }
    PathEnds(before, after, steps);
  }

  lemma {:induction false} PathEnds(before: seq<Line>, after: seq<Line>, steps: seq<Step>)
    requires Path(before, after, steps) && I(steps, |steps|) == |before| && J(steps, |steps|) == |after|
    ensures Script(before, after, steps)
    ensures Common(before[|before|..], after[|after|..]) == 0
  {
  }

  // ------------------------------------------------------------------
  // What a run of steps holds of the two files
  // ------------------------------------------------------------------

  function OldLines(before: seq<Line>, steps: seq<Step>): seq<Line> {
    if steps == [] then []
    else
      var s := steps[|steps| - 1];
      OldLines(before, steps[..|steps| - 1]) + if s.op == Add || s.i >= |before| then [] else [before[s.i]]
  }

  function NewLines(after: seq<Line>, steps: seq<Step>): seq<Line> {
    if steps == [] then []
    else
      var s := steps[|steps| - 1];
      NewLines(after, steps[..|steps| - 1]) + if s.op == Remove || s.j >= |after| then [] else [after[s.j]]
  }

  lemma {:induction false} SliceGrows(s: seq<Line>, lo: nat, hi: nat)
    requires lo <= hi < |s|
    ensures s[lo..hi + 1] == s[lo..hi] + [s[hi]]
  {
  }

  lemma {:induction false} RunGrows(steps: seq<Step>, lo: nat, hi: nat)
    requires lo < hi <= |steps|
    ensures |steps[lo..hi]| == hi - lo
    ensures steps[lo..hi][..hi - lo - 1] == steps[lo..hi - 1] && steps[lo..hi][hi - lo - 1] == steps[hi - 1]
  {
  }

  lemma {:induction false} NextPosition(before: seq<Line>, after: seq<Line>, steps: seq<Step>, k: nat)
    requires k < |steps| && StepOk(before, after, steps[k])
    ensures I(steps, k + 1) == steps[k].i + (if steps[k].op == Add then 0 else 1)
    ensures J(steps, k + 1) == steps[k].j + (if steps[k].op == Remove then 0 else 1)
    ensures (steps[k].op != Add ==> steps[k].i < |before|) && (steps[k].op != Remove ==> steps[k].j < |after|)
  {
  }

  /** A run of a path's steps reads one stretch of the old file. */
  lemma {:induction false} RunReadsOld(before: seq<Line>, after: seq<Line>, steps: seq<Step>, lo: nat, hi: nat)
    requires Path(before, after, steps) && lo <= hi <= |steps|
    ensures I(steps, lo) <= I(steps, hi) <= |before|
    ensures OldLines(before, steps[lo..hi]) == before[I(steps, lo)..I(steps, hi)]
    decreases hi
  {
    hide *;
    Bounded(before, after, steps, hi);
    if lo < hi {
      RunReadsOld(before, after, steps, lo, hi - 1);
      StepAt(before, after, steps, hi - 1);
      NextPosition(before, after, steps, hi - 1);
      RunGrows(steps, lo, hi);
      LastLine(before, after, steps[lo..hi]);
      if steps[hi - 1].op != Add { SliceGrows(before, I(steps, lo), I(steps, hi - 1)); }
    } else {
      NothingRead(before, after, steps, lo);
    }
  }

  /** A run of a path's steps reads one stretch of the new file. */
  lemma {:induction false} RunReadsNew(before: seq<Line>, after: seq<Line>, steps: seq<Step>, lo: nat, hi: nat)
    requires Path(before, after, steps) && lo <= hi <= |steps|
    ensures J(steps, lo) <= J(steps, hi) <= |after|
    ensures NewLines(after, steps[lo..hi]) == after[J(steps, lo)..J(steps, hi)]
    decreases hi
  {
    hide *;
    Bounded(before, after, steps, hi);
    if lo < hi {
      RunReadsNew(before, after, steps, lo, hi - 1);
      StepAt(before, after, steps, hi - 1);
      NextPosition(before, after, steps, hi - 1);
      RunGrows(steps, lo, hi);
      LastLine(before, after, steps[lo..hi]);
      if steps[hi - 1].op != Remove { SliceGrows(after, J(steps, lo), J(steps, hi - 1)); }
    } else {
      NothingRead(before, after, steps, lo);
    }
  }

  lemma {:induction false} NothingRead(before: seq<Line>, after: seq<Line>, steps: seq<Step>, k: nat)
    requires k <= |steps|
    ensures OldLines(before, steps[k..k]) == [] && NewLines(after, steps[k..k]) == []
  {
    assert steps[k..k] == [];
  }

  lemma {:induction false} LastLine(before: seq<Line>, after: seq<Line>, run: seq<Step>)
    requires run != [] && StepOk(before, after, run[|run| - 1])
    ensures var s, rest := run[|run| - 1], run[..|run| - 1];
      && OldLines(before, run) == OldLines(before, rest) + (if s.op == Add then [] else [before[s.i]])
      && NewLines(after, run) == NewLines(after, rest) + (if s.op == Remove then [] else [after[s.j]])
  {
  }

  lemma {:induction false} Bounded(before: seq<Line>, after: seq<Line>, steps: seq<Step>, k: nat)
    requires Path(before, after, steps) && k <= |steps|
    ensures I(steps, k) <= |before| && J(steps, k) <= |after|
  {
  }

  lemma {:induction false} StepAt(before: seq<Line>, after: seq<Line>, steps: seq<Step>, k: nat)
    requires Path(before, after, steps) && k < |steps|
    ensures steps[k].i == I(steps, k) && steps[k].j == J(steps, k) && StepOk(before, after, steps[k])
  {
    if k > 0 { assert Linked(steps, k); }
  }

  /** Steps that change nothing read the same lines of both files. */
  lemma {:induction false} KeepsAgree(before: seq<Line>, after: seq<Line>, steps: seq<Step>, lo: nat, hi: nat)
    requires Path(before, after, steps) && lo <= hi <= |steps|
    requires forall k :: lo <= k < hi ==> steps[k].op == Keep
    ensures I(steps, lo) <= I(steps, hi) <= |before| && J(steps, lo) <= J(steps, hi) <= |after|
    ensures before[I(steps, lo)..I(steps, hi)] == after[J(steps, lo)..J(steps, hi)]
    decreases hi
  {
    Bounded(before, after, steps, hi);
    if lo < hi {
      hide Path;
      KeepsAgree(before, after, steps, lo, hi - 1);
      StepAt(before, after, steps, hi - 1);
      SliceGrows(before, I(steps, lo), I(steps, hi - 1));
      SliceGrows(after, J(steps, lo), J(steps, hi - 1));
    }
  }

  /** Replaying the steps gives back both files. */
  lemma {:induction false} ScriptReplays(before: seq<Line>, after: seq<Line>, steps: seq<Step>)
    requires Script(before, after, steps)
    ensures OldLines(before, steps) == before && NewLines(after, steps) == after
  {
    RunReadsOld(before, after, steps, 0, |steps|);
    RunReadsNew(before, after, steps, 0, |steps|);
    assert steps[0..|steps|] == steps;
  }

  /** The kept lines are common to both files, so no diff could keep more. */
  lemma {:induction false} KeptIsCommon(before: seq<Line>, after: seq<Line>, steps: seq<Step>)
    requires Path(before, after, steps)
    ensures I(steps, |steps|) <= |before| && J(steps, |steps|) <= |after|
    ensures IsSubsequence(KeptLines(before, steps), before[..I(steps, |steps|)])
    ensures IsSubsequence(KeptLines(before, steps), after[..J(steps, |steps|)])
  {
    if steps != [] {
      hide *;
      var n := |steps| - 1;
      var rest, s := steps[..n], steps[n];
      PathPrefix(before, after, steps);
      KeptIsCommon(before, after, rest);
      StepAt(before, after, steps, n);
      LastStep(before, after, steps);
      KeptGrows(KeptLines(before, rest), before, s.i, s.op == Keep, s.op != Add);
      KeptGrows(KeptLines(before, rest), after, s.j, s.op == Keep, s.op != Remove);
    }
  }

  /** No edit script between the two files keeps more lines than the walk. */
  lemma {:induction false} NoScriptKeepsMore(before: seq<Line>, after: seq<Line>, steps: seq<Step>)
    requires Script(before, after, steps)
    ensures |KeptLines(before, steps)| <= Common(before, after)
  {
    KeptIsCommon(before, after, steps);
    assert before[..|before|] == before && after[..|after|] == after;
    CommonIsLongest(before, after, KeptLines(before, steps));
  }

  /** A step that takes the next line of a file may keep it. */
  lemma {:induction false} KeptGrows(kept: seq<Line>, file: seq<Line>, i: nat, keep: bool, take: bool)
    requires i <= |file| && IsSubsequence(kept, file[..i]) && (take ==> i < |file|) && (keep ==> take)
    ensures IsSubsequence(if keep then kept + [file[i]] else kept, file[..if take then i + 1 else i])
  {
    if take {
      assert file[..i + 1] == file[..i] + [file[i]];
      Extend(kept, file[..i], file[i]);
    }
  }

  lemma {:induction false} LastStep(before: seq<Line>, after: seq<Line>, steps: seq<Step>)
    requires steps != [] && StepOk(before, after, steps[|steps| - 1])
    ensures var n, s := |steps| - 1, steps[|steps| - 1];
      && (s.op != Add ==> s.i < |before|) && (s.op != Remove ==> s.j < |after|)
      && (s.op == Keep ==> before[s.i] == after[s.j])
      && KeptLines(before, steps) ==
        (if s.op == Keep then KeptLines(before, steps[..n]) + [before[s.i]] else KeptLines(before, steps[..n]))
      && I(steps[..n], n) == I(steps, n) && J(steps[..n], n) == J(steps, n)
      && I(steps, n + 1) == (if s.op != Add then s.i + 1 else s.i)
      && J(steps, n + 1) == (if s.op != Remove then s.j + 1 else s.j)
  {
  }

  lemma {:induction false} PathPrefix(before: seq<Line>, after: seq<Line>, steps: seq<Step>)
    requires Path(before, after, steps) && steps != []
    ensures Path(before, after, steps[..|steps| - 1])
  {
    var rest := steps[..|steps| - 1];
    forall k | 0 < k < |rest|
      ensures Linked(rest, k)
    {
      assert Linked(steps, k);
    }
  }

  lemma {:induction false} Extend(c: seq<Line>, a: seq<Line>, x: Line)
    requires IsSubsequence(c, a)
    ensures IsSubsequence(c, a + [x]) && IsSubsequence(c + [x], a + [x])
  {
    if a != [] {
      assert (a + [x])[1..] == a[1..] + [x];
      if c != [] && c[0] == a[0] && IsSubsequence(c[1..], a[1..]) {
        Extend(c[1..], a[1..], x);
        assert (c + [x])[1..] == c[1..] + [x];
      } else if c != [] {
        Extend(c, a[1..], x);
      } else {
        Extend(c, a[1..], x);
        assert c + [x] == [x];
      }
    } else {
      assert c + [x] == [x] && a + [x] == [x];
    }
  }

  // ------------------------------------------------------------------
  // Hunks
  // ------------------------------------------------------------------

  /** A hunk as printed: the header's four numbers, and its marked lines. */
  datatype Hunk = Hunk(oldStart: nat, oldCount: nat, newStart: nat, newCount: nat, lines: seq<(Op, Line)>)

  function Marked(before: seq<Line>, after: seq<Line>, run: seq<Step>): seq<(Op, Line)>
    requires forall k :: 0 <= k < |run| ==> StepOk(before, after, run[k])
  {
    if run == [] then []
    else
      var s := run[|run| - 1];
      assert StepOk(before, after, s);
      Marked(before, after, run[..|run| - 1]) + [(s.op, if s.op == Add then after[s.j] else before[s.i])]
  }

  /** How many steps of a run are not `op`. */
  function CountNot(run: seq<Step>, op: Op): nat {
    if run == [] then 0 else CountNot(run[..|run| - 1], op) + if run[|run| - 1].op != op then 1 else 0
  }

  /** The lines of a hunk without those marked `op`. */
  function Side(lines: seq<(Op, Line)>, op: Op): seq<Line> {
    if lines == [] then []
    else Side(lines[..|lines| - 1], op) + if lines[|lines| - 1].0 != op then [lines[|lines| - 1].1] else []
  }

  /** What is printed for a range of steps. A side without lines starts at the
      number of lines before it, any other one later. */
  function HunkOf(before: seq<Line>, after: seq<Line>, run: seq<Step>): Hunk
    requires run != [] && forall k :: 0 <= k < |run| ==> StepOk(before, after, run[k])
  {
    var oldCount, newCount := CountNot(run, Add), CountNot(run, Remove);
    Hunk(run[0].i + (if oldCount > 0 then 1 else 0), oldCount,
         run[0].j + (if newCount > 0 then 1 else 0), newCount,
         Marked(before, after, run))
  }

  lemma {:induction false} SidesOfHunk(before: seq<Line>, after: seq<Line>, run: seq<Step>)
    requires forall k :: 0 <= k < |run| ==> StepOk(before, after, run[k])
    ensures Side(Marked(before, after, run), Add) == OldLines(before, run)
    ensures Side(Marked(before, after, run), Remove) == NewLines(after, run)
    ensures |OldLines(before, run)| == CountNot(run, Add) && |NewLines(after, run)| == CountNot(run, Remove)
  {
    if run != [] {
      var n := |run| - 1;
      SidesOfHunk(before, after, run[..n]);
      var lines := Marked(before, after, run);
      assert lines[..|lines| - 1] == Marked(before, after, run[..n]);
      assert StepOk(before, after, run[n]);
    }
  }

  /** The index a header's start and count stand for on one side. */
  function Index(start: nat, count: nat): Option<nat> {
    if count == 0 then Some(start) else if start == 0 then None else Some(start - 1)
  }

  /** A hunk fits at old line `pos` with `written` lines out: it starts where
      its header says in both files, matches the old lines it replaces, and
      counts what it holds. */
  predicate Fits(before: seq<Line>, pos: nat, written: nat, h: Hunk) {
    var oldAt, newAt := Index(h.oldStart, h.oldCount), Index(h.newStart, h.newCount);
    && oldAt.Some? && newAt.Some?
    && pos <= oldAt.value && oldAt.value + h.oldCount <= |before|
    && newAt.value == written + oldAt.value - pos
    && Side(h.lines, Add) == before[oldAt.value..oldAt.value + h.oldCount]
    && |Side(h.lines, Remove)| == h.newCount
  }

  /** Patch `before` from line `pos` on, with `written` lines out, reading
      nothing but the hunks. */
  function Patch(before: seq<Line>, pos: nat, written: nat, hunks: seq<Hunk>): Option<seq<Line>>
    requires pos <= |before|
    decreases |hunks|
  {
    if hunks == [] then Some(before[pos..])
    else if !Fits(before, pos, written, hunks[0]) then None
    else
      var h := hunks[0];
      var oldAt, newAt := Index(h.oldStart, h.oldCount).value, Index(h.newStart, h.newCount).value;
      match Patch(before, oldAt + h.oldCount, newAt + h.newCount, hunks[1..])
      case None => None
      case Some(rest) => Some(before[pos..oldAt] + Side(h.lines, Remove) + rest)
  }

  predicate IsChange(steps: seq<Step>, k: nat)
    requires k < |steps|
  {
    steps[k].op != Keep
  }

  predicate Inside(ranges: seq<(nat, nat)>, r: nat, k: nat)
    requires r < |ranges|
  {
    ranges[r].0 <= k < ranges[r].1
  }

  ghost predicate Covered(ranges: seq<(nat, nat)>, k: nat) {
    exists r :: 0 <= r < |ranges| && Inside(ranges, r, k)
  }

  /** The ranges are in order and do not overlap. */
  ghost predicate Disjoint(steps: seq<Step>, ranges: seq<(nat, nat)>) {
    && (forall r :: 0 <= r < |ranges| ==> ranges[r].0 < ranges[r].1 <= |steps|)
    && (forall q, r :: 0 <= q < r < |ranges| ==> ranges[q].1 <= ranges[r].0)
  }

  /** Ranges of steps, each holding every change near it, that hold every change. */
  ghost predicate Grouped(steps: seq<Step>, ranges: seq<(nat, nat)>) {
    Disjoint(steps, ranges) && forall k :: 0 <= k < |steps| && IsChange(steps, k) ==> Covered(ranges, k)
  }

  /** No change lies in two ranges. */
  lemma {:induction false} CoveredOnce(steps: seq<Step>, ranges: seq<(nat, nat)>, q: nat, r: nat, k: nat)
    requires Disjoint(steps, ranges) && q < |ranges| && r < |ranges|
    requires Inside(ranges, q, k) && Inside(ranges, r, k)
    ensures q == r
  {
  }

  ghost predicate HunksOf(before: seq<Line>, after: seq<Line>, steps: seq<Step>, ranges: seq<(nat, nat)>,
                          hunks: seq<Hunk>)
    requires Disjoint(steps, ranges) && Path(before, after, steps)
  {
    && |hunks| == |ranges|
    && forall r :: 0 <= r < |ranges| ==> hunks[r] == HunkOf(before, after, steps[ranges[r].0..ranges[r].1])
  }

  /** Where the steps stand after the first `r` hunks. */
  function EndOf(ranges: seq<(nat, nat)>, r: nat): nat
    requires r <= |ranges|
  {
    if r == 0 then 0 else ranges[r - 1].1
  }

  /** Between hunks nothing changes. */
  lemma {:induction false} GapKeeps(steps: seq<Step>, ranges: seq<(nat, nat)>, r: nat, k: nat)
    requires Grouped(steps, ranges) && r <= |ranges|
    requires EndOf(ranges, r) <= k < |steps| && (r < |ranges| ==> k < ranges[r].0)
    ensures steps[k].op == Keep
  {
    if IsChange(steps, k) {
      var q :| 0 <= q < |ranges| && Inside(ranges, q, k);
    }
  }

  /** One hunk, applied where its header says, writes the new lines of its range. */
  lemma {:induction false} HunkApplies(before: seq<Line>, after: seq<Line>, steps: seq<Step>, from: nat, start: nat,
                                       end: nat, rest: seq<Hunk>)
    requires Path(before, after, steps) && from <= start < end <= |steps|
    requires forall k :: from <= k < start ==> steps[k].op == Keep
    requires Rebuilds(before, after, steps, end, rest)
    ensures Rebuilds(before, after, steps, from, [HunkOf(before, after, steps[start..end])] + rest)
  {
    hide Path, HunkOf, Side, I, J, Patch, StepOk, Fits, Index;
    RunOk(before, after, steps, start, end);
    KeepsAgree(before, after, steps, from, start);
    HeaderOf(before, after, steps, start, end);
    PatchOne(before, after, HunkOf(before, after, steps[start..end]), rest,
             I(steps, from), J(steps, from), I(steps, start), J(steps, start));
  }

  /** What a hunk's header and lines say of the range it prints. */
  lemma {:induction false} HeaderOf(before: seq<Line>, after: seq<Line>, steps: seq<Step>, start: nat, end: nat)
    requires Path(before, after, steps) && start < end <= |steps|
    requires forall k :: 0 <= k < end - start ==> StepOk(before, after, steps[start..end][k])
    ensures I(steps, start) <= I(steps, end) <= |before| && J(steps, start) <= J(steps, end) <= |after|
    ensures var h := HunkOf(before, after, steps[start..end]);
      && h.oldStart == I(steps, start) + (if h.oldCount > 0 then 1 else 0)
      && h.newStart == J(steps, start) + (if h.newCount > 0 then 1 else 0)
      && I(steps, end) == I(steps, start) + h.oldCount && J(steps, end) == J(steps, start) + h.newCount
      && Side(h.lines, Add) == before[I(steps, start)..I(steps, end)]
      && Side(h.lines, Remove) == after[J(steps, start)..J(steps, end)]
  {
    hide Path, OldLines, NewLines, Marked, Side, CountNot;
    RunReadsOld(before, after, steps, start, end);
    RunReadsNew(before, after, steps, start, end);
    SidesOfHunk(before, after, steps[start..end]);
    StepAt(before, after, steps, start);
    assert steps[start..end][0] == steps[start];
  }

  lemma {:induction false} PatchOne(before: seq<Line>, after: seq<Line>, h: Hunk, rest: seq<Hunk>, pos: nat,
                                    written: nat, oldAt: nat, newAt: nat)
    requires pos <= oldAt && oldAt + h.oldCount <= |before| && written <= newAt && newAt + h.newCount <= |after|
    requires h.oldStart == oldAt + (if h.oldCount > 0 then 1 else 0)
    requires h.newStart == newAt + (if h.newCount > 0 then 1 else 0)
    requires Side(h.lines, Add) == before[oldAt..oldAt + h.oldCount]
    requires Side(h.lines, Remove) == after[newAt..newAt + h.newCount]
    requires before[pos..oldAt] == after[written..newAt]
    requires Patch(before, oldAt + h.oldCount, newAt + h.newCount, rest) == Some(after[newAt + h.newCount..])
    ensures Patch(before, pos, written, [h] + rest) == Some(after[written..])
  {
    hide Side;
    assert |before[pos..oldAt]| == |after[written..newAt]|;
    assert Fits(before, pos, written, h);
    var hunks := [h] + rest;
    assert hunks[0] == h && hunks[1..] == rest;
    Stitch(after, written, newAt, newAt + h.newCount);
  }

  lemma {:induction false} Stitch(s: seq<Line>, a: nat, b: nat, c: nat)
    requires a <= b <= c <= |s|
    ensures s[a..b] + s[b..c] + s[c..] == s[a..]
  {
  }

  /** From the end of hunk `r` on, the hunks rebuild the rest of the new file. */
  ghost predicate Rebuilds(before: seq<Line>, after: seq<Line>, steps: seq<Step>, e: nat, hunks: seq<Hunk>)
    requires e <= |steps|
  {
    && I(steps, e) <= |before| && J(steps, e) <= |after|
    && Patch(before, I(steps, e), J(steps, e), hunks) == Some(after[J(steps, e)..])
  }

  /** Applying the hunks by their headers rebuilds the new file. */
  lemma {:induction false} HunksApply(before: seq<Line>, after: seq<Line>, steps: seq<Step>, ranges: seq<(nat, nat)>,
                                      hunks: seq<Hunk>, r: nat)
    requires Script(before, after, steps) && Grouped(steps, ranges) && HunksOf(before, after, steps, ranges, hunks)
    requires r <= |ranges|
    ensures Rebuilds(before, after, steps, EndOf(ranges, r), hunks[r..])
    decreases |ranges| - r
  {
    hide *;
    GapsKeep(steps, ranges, r);
    if r == |ranges| {
      NoHunksLeft(before, after, steps, ranges, hunks);
      TailApplies(before, after, steps, EndOf(ranges, r));
    } else {
      HunksApply(before, after, steps, ranges, hunks, r + 1);
      HunkAt(before, after, steps, ranges, hunks, r);
      HunkApplies(before, after, steps, EndOf(ranges, r), ranges[r].0, ranges[r].1, hunks[r + 1..]);
    }
  }

  lemma {:induction false} NoHunksLeft(before: seq<Line>, after: seq<Line>, steps: seq<Step>, ranges: seq<(nat, nat)>,
                                       hunks: seq<Hunk>)
    requires Script(before, after, steps) && Grouped(steps, ranges) && HunksOf(before, after, steps, ranges, hunks)
    ensures |hunks| == |ranges| && hunks[|ranges|..] == []
  {
  }

  lemma {:induction false} HunkAt(before: seq<Line>, after: seq<Line>, steps: seq<Step>, ranges: seq<(nat, nat)>,
                                  hunks: seq<Hunk>, r: nat)
    requires Script(before, after, steps) && Grouped(steps, ranges) && HunksOf(before, after, steps, ranges, hunks)
    requires r < |ranges|
    ensures Path(before, after, steps) && EndOf(ranges, r + 1) == ranges[r].1
    ensures ranges[r].0 < ranges[r].1 <= |steps| && |hunks| == |ranges|
    ensures (forall k :: 0 <= k < ranges[r].1 - ranges[r].0 ==>
      StepOk(before, after, steps[ranges[r].0..ranges[r].1][k]))
    ensures hunks[r..] == [HunkOf(before, after, steps[ranges[r].0..ranges[r].1])] + hunks[r + 1..]
  {
  }

  lemma {:induction false} GapsKeep(steps: seq<Step>, ranges: seq<(nat, nat)>, r: nat)
    requires Grouped(steps, ranges) && r <= |ranges|
    ensures EndOf(ranges, r) <= if r < |ranges| then ranges[r].0 else |steps|
    ensures forall k :: EndOf(ranges, r) <= k < (if r < |ranges| then ranges[r].0 else |steps|) ==> steps[k].op == Keep
  {
    forall k | EndOf(ranges, r) <= k < (if r < |ranges| then ranges[r].0 else |steps|)
      ensures steps[k].op == Keep
    {
      GapKeeps(steps, ranges, r, k);
    }
  }

  /** After the last hunk the rest of the old file is the rest of the new one. */
  lemma {:induction false} TailApplies(before: seq<Line>, after: seq<Line>, steps: seq<Step>, e: nat)
    requires Script(before, after, steps) && e <= |steps|
    requires forall k :: e <= k < |steps| ==> steps[k].op == Keep
    ensures Rebuilds(before, after, steps, e, [])
  {
    KeepsAgree(before, after, steps, e, |steps|);
    assert before[I(steps, e)..|before|] == before[I(steps, e)..] &&
      after[J(steps, e)..|after|] == after[J(steps, e)..];
  }

  /** The positions of the changes among the first `n` steps. */
  function Changes(steps: seq<Step>, n: nat): (r: seq<nat>)
    requires n <= |steps|
    ensures forall x :: 0 <= x < |r| ==> r[x] < n && IsChange(steps, r[x])
    ensures forall x, y :: 0 <= x < y < |r| ==> r[x] < r[y]
    ensures forall k :: 0 <= k < n && IsChange(steps, k) ==> k in r
  {
    if n == 0 then []
    else if IsChange(steps, n - 1) then Changes(steps, n - 1) + [n - 1] else Changes(steps, n - 1)
  }

  /** The last change of the hunk that starts at change `first`, and the next hunk's first. */
  method ExtendHunk(changes: seq<nat>, first: nat) returns (last: nat, next: nat)
    requires first < |changes|
    requires forall x, y :: 0 <= x < y < |changes| ==> changes[x] < changes[y]
    ensures first < next <= |changes| && last == changes[next - 1]
    ensures next < |changes| ==> changes[next] > last + 2 * CONTEXT
    ensures forall x :: first < x < next ==> changes[x] <= changes[x - 1] + 2 * CONTEXT
  {
    last, next := changes[first], first + 1;
    while next < |changes| && changes[next] - last <= 2 * CONTEXT
      invariant first < next <= |changes| && last == changes[next - 1]
      invariant forall x :: first < x < next ==> changes[x] <= changes[x - 1] + 2 * CONTEXT
    {
      last := changes[next];
      next := next + 1;
    }
  }

  /** The range of steps the next hunk prints, and the next hunk's first change. */
  method NextRange(count: nat, changes: seq<nat>, first: nat) returns (start: nat, end: nat, next: nat)
    requires first < |changes|
    requires forall x, y :: 0 <= x < y < |changes| ==> changes[x] < changes[y]
    requires forall x :: 0 <= x < |changes| ==> changes[x] < count
    ensures first < next <= |changes| && start < end <= count && changes[first] <= start + CONTEXT
    ensures start == 0 || changes[first] == start + CONTEXT
    ensures forall x :: first <= x < next ==> start <= changes[x] < end
    ensures next < |changes| ==> end + CONTEXT <= changes[next]
    ensures end == Min(changes[next - 1] + CONTEXT + 1, count)
    ensures start == if changes[first] < CONTEXT then 0 else changes[first] - CONTEXT
    ensures next < |changes| ==> changes[next] > changes[next - 1] + 2 * CONTEXT
    ensures forall x :: first < x < next ==> changes[x] <= changes[x - 1] + 2 * CONTEXT
  {
    start := if changes[first] < CONTEXT then 0 else changes[first] - CONTEXT;
    var last;
    last, next := ExtendHunk(changes, first);
    end := if last + CONTEXT + 1 < count then last + CONTEXT + 1 else count;
  }

  ghost predicate Shared(ranges: seq<(nat, nat)>, x: nat, y: nat) {
    exists r :: 0 <= r < |ranges| && Inside(ranges, r, x) && Inside(ranges, r, y)
  }

  /** `x` and `y` are changes with none between them. */
  ghost predicate Neighbours(steps: seq<Step>, x: nat, y: nat) {
    x < y < |steps| && IsChange(steps, x) && IsChange(steps, y) && forall k :: x < k < y ==> !IsChange(steps, k)
  }

  /** From three steps before its first change, `p`, to three after its last,
      `q`, as far as there are any. */
  ghost predicate Surrounds(steps: seq<Step>, range: (nat, nat), p: nat, q: nat) {
    && range.0 <= p <= q < range.1 <= |steps| && IsChange(steps, p) && IsChange(steps, q)
    && (forall k :: range.0 <= k < p ==> !IsChange(steps, k)) && (forall k :: q < k < range.1 ==> !IsChange(steps, k))
    && range.0 == (if p < CONTEXT then 0 else p - CONTEXT) && range.1 == Min(q + CONTEXT + 1, |steps|)
  }

  ghost predicate Surrounded(steps: seq<Step>, range: (nat, nat)) {
    exists p: nat, q: nat :: Surrounds(steps, range, p, q)
  }

  /** Each hunk has its changes with their context, and neighbouring changes
      share one exactly if they are within two contexts. */
  ghost predicate Contexts(steps: seq<Step>, ranges: seq<(nat, nat)>) {
    && (forall r :: 0 <= r < |ranges| ==> Surrounded(steps, ranges[r]))
    && (forall x: nat, y: nat :: Neighbours(steps, x, y) ==> (Shared(ranges, x, y) <==> y - x <= 2 * CONTEXT))
  }

  /** The same of the first `n` changes. */
  ghost predicate ContextsTo(steps: seq<Step>, changes: seq<nat>, ranges: seq<(nat, nat)>, n: nat)
    requires n <= |changes|
  {
    && (forall r :: 0 <= r < |ranges| ==> Surrounded(steps, ranges[r]))
    && (forall i :: 0 < i < n ==> NearShared(ranges, changes, i))
    && EndWith(ranges, changes, n)
  }

  /** No range goes past the context of the first `n` changes. */
  ghost predicate EndWith(ranges: seq<(nat, nat)>, changes: seq<nat>, n: nat)
    requires n <= |changes|
  {
    forall r :: 0 <= r < |ranges| ==> n > 0 && ranges[r].1 <= changes[n - 1] + CONTEXT + 1
  }

  ghost predicate NearShared(ranges: seq<(nat, nat)>, changes: seq<nat>, i: nat)
    requires 0 < i < |changes|
  {
    Shared(ranges, changes[i - 1], changes[i]) <==> changes[i] - changes[i - 1] <= 2 * CONTEXT
  }

  /** The positions of all changes, in order. */
  ghost predicate AreChanges(steps: seq<Step>, changes: seq<nat>) {
    && (forall x :: 0 <= x < |changes| ==> changes[x] < |steps| && IsChange(steps, changes[x]))
    && (forall x, y :: 0 <= x < y < |changes| ==> changes[x] < changes[y])
    && (forall k :: 0 <= k < |steps| && IsChange(steps, k) ==> k in changes)
  }

  lemma {:induction false} ContextsStart(steps: seq<Step>)
    ensures AreChanges(steps, Changes(steps, |steps|)) && ContextsTo(steps, Changes(steps, |steps|), [], 0)
  {
  }

  lemma {:induction false} Adjacent(steps: seq<Step>, changes: seq<nat>, h: nat, i: nat)
    requires AreChanges(steps, changes) && h < |changes| && i < |changes|
    requires Neighbours(steps, changes[h], changes[i])
    ensures i == h + 1
  {
    assert h < i;
    assert IsChange(steps, changes[h + 1]);
  }

  lemma {:induction false} ContextsEnd(steps: seq<Step>, changes: seq<nat>, ranges: seq<(nat, nat)>)
    requires AreChanges(steps, changes) && ContextsTo(steps, changes, ranges, |changes|)
    ensures Contexts(steps, ranges)
  {
    forall x: nat, y: nat | Neighbours(steps, x, y)
      ensures Shared(ranges, x, y) <==> y - x <= 2 * CONTEXT
    {
      var i :| 0 <= i < |changes| && changes[i] == y;
      var h :| 0 <= h < |changes| && changes[h] == x;
      Adjacent(steps, changes, h, i);
      assert NearShared(ranges, changes, i);
    }
  }

  lemma {:induction false} ContextsNext(steps: seq<Step>, changes: seq<nat>, ranges: seq<(nat, nat)>, first: nat,
                                        start: nat, end: nat, next: nat)
    requires AreChanges(steps, changes) && first < next <= |changes| && ContextsTo(steps, changes, ranges, first)
    requires start == (if changes[first] < CONTEXT then 0 else changes[first] - CONTEXT)
    requires end == Min(changes[next - 1] + CONTEXT + 1, |steps|)
    requires forall x :: first < x < next ==> changes[x] <= changes[x - 1] + 2 * CONTEXT
    requires first > 0 ==> changes[first] > changes[first - 1] + 2 * CONTEXT
    requires next < |changes| ==> changes[next] > changes[next - 1] + 2 * CONTEXT
    ensures ContextsTo(steps, changes, ranges + [(start, end)], next)
  {
    var more := ranges + [(start, end)];
    RangeSurrounds(steps, changes, first, start, end, next);
    forall r | 0 <= r < |more|
      ensures Surrounded(steps, more[r])
    {
      if r < |ranges| {
        assert more[r] == ranges[r];
      } else {
        assert Surrounds(steps, more[r], changes[first], changes[next - 1]);
      }
    }
    forall i | 0 < i < next
      ensures NearShared(more, changes, i)
    {
      NearNext(changes, ranges, first, start, end, next, i);
    }
    forall r | 0 <= r < |more|
      ensures more[r].1 <= changes[next - 1] + CONTEXT + 1
    {
      if r < |ranges| {
        assert more[r] == ranges[r] && changes[first - 1] < changes[next - 1];
      } else {
        assert more[r].1 == end;
      }
    }
  }

  /** A change outside the ones from `first` to `next` is before them or after. */
  lemma {:induction false} Between(steps: seq<Step>, changes: seq<nat>, first: nat, next: nat, k: nat)
    requires AreChanges(steps, changes) && first < next <= |changes| && k < |steps|
    requires k < changes[first] || changes[next - 1] < k
    requires first > 0 ==> changes[first - 1] < k
    requires next < |changes| ==> k < changes[next]
    ensures !IsChange(steps, k)
  {
    if IsChange(steps, k) {
      var x :| 0 <= x < |changes| && changes[x] == k;
      assert false;
    }
  }

  lemma {:induction false} RangeSurrounds(steps: seq<Step>, changes: seq<nat>, first: nat, start: nat, end: nat,
                                          next: nat)
    requires AreChanges(steps, changes) && first < next <= |changes|
    requires start == (if changes[first] < CONTEXT then 0 else changes[first] - CONTEXT)
    requires end == Min(changes[next - 1] + CONTEXT + 1, |steps|)
    requires first > 0 ==> changes[first] > changes[first - 1] + 2 * CONTEXT
    requires next < |changes| ==> changes[next] > changes[next - 1] + 2 * CONTEXT
    ensures Surrounds(steps, (start, end), changes[first], changes[next - 1])
  {
    var p, q := changes[first], changes[next - 1];
    forall k | start <= k < p || q < k < end
      ensures !IsChange(steps, k)
    {
      Between(steps, changes, first, next, k);
    }
  }

  lemma {:induction false} NearNext(changes: seq<nat>, ranges: seq<(nat, nat)>, first: nat, start: nat, end: nat,
                                    next: nat, i: nat)
    requires first < next <= |changes| && 0 < i < next
    requires forall x, y :: 0 <= x < y < |changes| ==> changes[x] < changes[y]
    requires EndWith(ranges, changes, first)
    requires forall h :: 0 < h < first ==> NearShared(ranges, changes, h)
    requires start == (if changes[first] < CONTEXT then 0 else changes[first] - CONTEXT)
    requires start <= changes[first] && changes[next - 1] < end
    requires forall x :: first < x < next ==> changes[x] <= changes[x - 1] + 2 * CONTEXT
    requires first > 0 ==> changes[first] > changes[first - 1] + 2 * CONTEXT
    ensures NearShared(ranges + [(start, end)], changes, i)
  {
    var more := ranges + [(start, end)];
    var x, y := changes[i - 1], changes[i];
    if i < first {
      assert NearShared(ranges, changes, i);
      SharedBefore(ranges, start, end, x, y);
    } else if i == first {
      forall r | 0 <= r < |more|
        ensures !(Inside(more, r, x) && Inside(more, r, y))
      {
      }
    } else {
      assert Inside(more, |ranges|, x) && Inside(more, |ranges|, y);
    }
  }

  lemma {:induction false} SharedBefore(ranges: seq<(nat, nat)>, start: nat, end: nat, x: nat, y: nat)
    requires y < start
    ensures Shared(ranges + [(start, end)], x, y) <==> Shared(ranges, x, y)
  {
    var more := ranges + [(start, end)];
    if Shared(ranges, x, y) {
      var r :| 0 <= r < |ranges| && Inside(ranges, r, x) && Inside(ranges, r, y);
      assert Inside(more, r, x) && Inside(more, r, y);
    }
    if Shared(more, x, y) {
      var r :| 0 <= r < |more| && Inside(more, r, x) && Inside(more, r, y);
      assert r < |ranges| && Inside(ranges, r, x) && Inside(ranges, r, y);
    }
  }

  /** The changes before `next` are covered by hunks, which end before the
      context of the next one. */
  ghost predicate Grouping(before: seq<Line>, after: seq<Line>, steps: seq<Step>, changes: seq<nat>, next: nat,
                           ranges: seq<(nat, nat)>, hunks: seq<Hunk>)
  {
    && Path(before, after, steps) && next <= |changes|
    && Disjoint(steps, ranges) && HunksOf(before, after, steps, ranges, hunks)
    && (forall x :: 0 <= x < next ==> Covered(ranges, changes[x]))
    && (next < |changes| ==> forall r :: 0 <= r < |ranges| ==> ranges[r].1 + CONTEXT <= changes[next])
  }

  method Group(before: seq<Line>, after: seq<Line>, steps: seq<Step>)
    returns (hunks: seq<Hunk>, ghost ranges: seq<(nat, nat)>)
    requires Script(before, after, steps)
    ensures Grouped(steps, ranges) && HunksOf(before, after, steps, ranges, hunks) && Contexts(steps, ranges)
  {
    hide *;
    var changes := Changes(steps, |steps|);
    hunks, ranges := [], [];
    var next := 0;
    GroupingStarts(before, after, steps, changes);
    ContextsStart(steps);
    while next < |changes|
      invariant Grouping(before, after, steps, changes, next, ranges, hunks) && next <= |changes|
      invariant ContextsTo(steps, changes, ranges, next)
      invariant 0 < next < |changes| ==> changes[next] > changes[next - 1] + 2 * CONTEXT
    {
      var first, start, end := next, 0, 0;
      start, end, next := NextRange(|steps|, changes, first);
      GroupingNext(before, after, steps, changes, first, ranges, hunks, start, end, next);
      ContextsNext(steps, changes, ranges, first, start, end, next);
      hunks := hunks + [HunkOf(before, after, steps[start..end])];
      ranges := ranges + [(start, end)];
    }
    GroupingEnds(before, after, steps, changes, ranges, hunks);
    ContextsEnd(steps, changes, ranges);
  }

  lemma {:induction false} GroupingStarts(before: seq<Line>, after: seq<Line>, steps: seq<Step>, changes: seq<nat>)
    requires Script(before, after, steps)
    ensures Grouping(before, after, steps, changes, 0, [], [])
  {
  }

  lemma {:induction false} GroupingNext(before: seq<Line>, after: seq<Line>, steps: seq<Step>, changes: seq<nat>,
                                        first: nat, ranges: seq<(nat, nat)>, hunks: seq<Hunk>, start: nat, end: nat,
                                        next: nat)
    requires Grouping(before, after, steps, changes, first, ranges, hunks) && first < next <= |changes|
    requires start < end <= |steps| && changes[first] <= start + CONTEXT
    requires forall x :: first <= x < next ==> start <= changes[x] < end
    requires next < |changes| ==> end + CONTEXT <= changes[next]
    requires forall x, y :: 0 <= x < y < |changes| ==> changes[x] < changes[y]
    ensures forall k :: 0 <= k < end - start ==> StepOk(before, after, steps[start..end][k])
    ensures Grouping(before, after, steps, changes, next, ranges + [(start, end)],
                     hunks + [HunkOf(before, after, steps[start..end])])
  {
    hide Path, HunkOf, HunksOf, Disjoint, Covered, StepOk;
    RunOk(before, after, steps, start, end);
    GroupStep(before, after, steps, ranges, hunks, start, end);
    CoverStep(ranges, changes, first, next, start, end);
  }

  lemma {:induction false} GroupingEnds(before: seq<Line>, after: seq<Line>, steps: seq<Step>, changes: seq<nat>,
                                        ranges: seq<(nat, nat)>, hunks: seq<Hunk>)
    requires Grouping(before, after, steps, changes, |changes|, ranges, hunks)
    requires forall k :: 0 <= k < |steps| && IsChange(steps, k) ==> k in changes
    ensures Grouped(steps, ranges) && HunksOf(before, after, steps, ranges, hunks)
  {
    hide Path, HunkOf;
    forall k | 0 <= k < |steps| && IsChange(steps, k)
      ensures Covered(ranges, k)
    {
      var x :| 0 <= x < |changes| && changes[x] == k;
    }
  }

  lemma {:induction false} RunOk(before: seq<Line>, after: seq<Line>, steps: seq<Step>, start: nat, end: nat)
    requires Path(before, after, steps) && start <= end <= |steps|
    ensures forall k :: 0 <= k < end - start ==> StepOk(before, after, steps[start..end][k])
  {
  }

  lemma {:induction false} GroupStep(before: seq<Line>, after: seq<Line>, steps: seq<Step>, ranges: seq<(nat, nat)>,
                                     hunks: seq<Hunk>, start: nat, end: nat)
    requires Path(before, after, steps) && Disjoint(steps, ranges) && HunksOf(before, after, steps, ranges, hunks)
    requires start < end <= |steps| && forall r :: 0 <= r < |ranges| ==> ranges[r].1 <= start
    requires forall k :: 0 <= k < end - start ==> StepOk(before, after, steps[start..end][k])
    ensures Disjoint(steps, ranges + [(start, end)])
    ensures HunksOf(before, after, steps, ranges + [(start, end)], hunks + [HunkOf(before, after, steps[start..end])])
  {
  }

  lemma {:induction false} CoverStep(ranges: seq<(nat, nat)>, changes: seq<nat>, first: nat, next: nat, start: nat,
                                     end: nat)
    requires first <= next <= |changes|
    requires forall x :: 0 <= x < first ==> Covered(ranges, changes[x])
    requires forall x :: first <= x < next ==> start <= changes[x] < end
    ensures forall x :: 0 <= x < next ==> Covered(ranges + [(start, end)], changes[x])
  {
    var more := ranges + [(start, end)];
    forall x | 0 <= x < next
      ensures Covered(more, changes[x])
    {
      if x < first {
        var r :| 0 <= r < |ranges| && Inside(ranges, r, changes[x]);
        assert Inside(more, r, changes[x]);
      } else {
        assert Inside(more, |ranges|, changes[x]);
      }
    }
  }

  // ------------------------------------------------------------------
  // How many lines a diff marks
  // ------------------------------------------------------------------

  function CountOp(run: seq<Step>, op: Op): nat {
    if run == [] then 0 else CountOp(run[..|run| - 1], op) + if run[|run| - 1].op == op then 1 else 0
  }

  /** How many lines of the hunks carry a mark. */
  function Marks(lines: seq<(Op, Line)>, op: Op): nat {
    if lines == [] then 0 else Marks(lines[..|lines| - 1], op) + if lines[|lines| - 1].0 == op then 1 else 0
  }

  function AllMarks(hunks: seq<Hunk>, op: Op): nat {
    if hunks == [] then 0 else AllMarks(hunks[..|hunks| - 1], op) + Marks(hunks[|hunks| - 1].lines, op)
  }

  lemma {:induction false} MarksOfRun(before: seq<Line>, after: seq<Line>, run: seq<Step>, op: Op)
    requires forall k :: 0 <= k < |run| ==> StepOk(before, after, run[k])
    ensures Marks(Marked(before, after, run), op) == CountOp(run, op)
  {
    if run != [] {
      var n := |run| - 1;
      MarksOfRun(before, after, run[..n], op);
      var lines := Marked(before, after, run);
      assert lines[..|lines| - 1] == Marked(before, after, run[..n]);
    }
  }

  lemma {:induction false} CountOpJoins(steps: seq<Step>, a: nat, b: nat, op: Op)
    requires a <= b <= |steps|
    ensures CountOp(steps[..b], op) == CountOp(steps[..a], op) + CountOp(steps[a..b], op)
  {
    if a < b {
      CountOpJoins(steps, a, b - 1, op);
      assert steps[..b][..b - 1] == steps[..b - 1] && steps[a..b][..b - a - 1] == steps[a..b - 1];
    } else {
      assert steps[a..b] == [];
    }
  }

  lemma {:induction false} CountOpOfKeeps(run: seq<Step>, op: Op)
    requires op != Keep && forall k :: 0 <= k < |run| ==> run[k].op == Keep
    ensures CountOp(run, op) == 0
  {
    if run != [] {
      CountOpOfKeeps(run[..|run| - 1], op);
    }
  }

  /** Over a stretch without changes no mark is added. */
  lemma {:induction false} GapAddsNothing(steps: seq<Step>, a: nat, b: nat, op: Op)
    requires a <= b <= |steps| && op != Keep && forall k :: a <= k < b ==> steps[k].op == Keep
    ensures CountOp(steps[..b], op) == CountOp(steps[..a], op)
  {
    CountOpJoins(steps, a, b, op);
    CountOpOfKeeps(steps[a..b], op);
  }

  /** The changes up to the end of a range are those before it and its hunk's. */
  lemma {:induction false} MarksOfRange(before: seq<Line>, after: seq<Line>, steps: seq<Step>, from: nat, start: nat,
                                        end: nat, op: Op)
    requires from <= start < end <= |steps| && op != Keep
    requires forall k :: from <= k < start ==> steps[k].op == Keep
    requires forall k :: 0 <= k < end - start ==> StepOk(before, after, steps[start..end][k])
    ensures CountOp(steps[..end], op) ==
      CountOp(steps[..from], op) + Marks(HunkOf(before, after, steps[start..end]).lines, op)
  {
    GapAddsNothing(steps, from, start, op);
    CountOpJoins(steps, start, end, op);
    MarksOfRun(before, after, steps[start..end], op);
  }

  lemma {:induction false} AllMarksGrow(hunks: seq<Hunk>, r: nat, op: Op)
    requires r < |hunks|
    ensures AllMarks(hunks[..r + 1], op) == AllMarks(hunks[..r], op) + Marks(hunks[r].lines, op)
  {
    assert hunks[..r + 1][..r] == hunks[..r];
  }

  /** The first `r` hunks carry every change up to their end. */
  lemma {:induction false} MarksOfHunks(before: seq<Line>, after: seq<Line>, steps: seq<Step>,
                                        ranges: seq<(nat, nat)>, hunks: seq<Hunk>, r: nat, op: Op)
    requires Script(before, after, steps) && Grouped(steps, ranges) && HunksOf(before, after, steps, ranges, hunks)
    requires r <= |ranges| && op != Keep
    ensures |hunks| == |ranges| && EndOf(ranges, r) <= |steps|
    ensures AllMarks(hunks[..r], op) == CountOp(steps[..EndOf(ranges, r)], op)
  {
    NoHunksLeft(before, after, steps, ranges, hunks);
    if r > 0 {
      hide *;
      MarksOfHunks(before, after, steps, ranges, hunks, r - 1, op);
      HunkAt(before, after, steps, ranges, hunks, r - 1);
      GapsKeep(steps, ranges, r - 1);
      MarksOfRange(before, after, steps, EndOf(ranges, r - 1), ranges[r - 1].0, ranges[r - 1].1, op);
      AllMarksGrow(hunks, r - 1, op);
      assert hunks[r - 1..][0] == hunks[r - 1];
    }
  }

  lemma {:induction false} StepCounts(before: seq<Line>, after: seq<Line>, steps: seq<Step>)
    requires forall k :: 0 <= k < |steps| ==> StepOk(before, after, steps[k])
    ensures |OldLines(before, steps)| == |KeptLines(before, steps)| + CountOp(steps, Remove)
    ensures |NewLines(after, steps)| == |KeptLines(before, steps)| + CountOp(steps, Add)
  {
    if steps != [] {
      StepCounts(before, after, steps[..|steps| - 1]);
      assert StepOk(before, after, steps[|steps| - 1]);
    }
  }

  lemma {:induction false} DiffMarks(before: seq<Line>, after: seq<Line>, steps: seq<Step>, ranges: seq<(nat, nat)>,
                                     hunks: seq<Hunk>)
    requires Script(before, after, steps) && Grouped(steps, ranges) && HunksOf(before, after, steps, ranges, hunks)
    ensures AllMarks(hunks, Remove) + |KeptLines(before, steps)| == |before|
    ensures AllMarks(hunks, Add) + |KeptLines(before, steps)| == |after|
  {
    hide CountOp, AllMarks, OldLines, NewLines, KeptLines, Grouped, HunksOf;
    ScriptReplays(before, after, steps);
    StepCounts(before, after, steps);
    var n := |ranges|;
    MarksOfHunks(before, after, steps, ranges, hunks, n, Remove);
    MarksOfHunks(before, after, steps, ranges, hunks, n, Add);
    GapsKeep(steps, ranges, n);
    GapAddsNothing(steps, EndOf(ranges, n), |steps|, Remove);
    GapAddsNothing(steps, EndOf(ranges, n), |steps|, Add);
    assert hunks[..n] == hunks && steps[..|steps|] == steps;
  }

  /** `unified_diff`: hunks that rebuild the new lines from the old ones, and
      mark as few lines as any edit script could. */
  method Diff(before: seq<Line>, after: seq<Line>)
    returns (hunks: seq<Hunk>, ghost steps: seq<Step>, ghost ranges: seq<(nat, nat)>)
    ensures Script(before, after, steps) && AllPreferred(before, after, steps)
    ensures Grouped(steps, ranges) && HunksOf(before, after, steps, ranges, hunks) && Contexts(steps, ranges)
    ensures Patch(before, 0, 0, hunks) == Some(after)
    ensures AllMarks(hunks, Remove) + Common(before, after) == |before|
    ensures AllMarks(hunks, Add) + Common(before, after) == |after|
  {
    var script := Walk(before, after);
    steps := script;
    hunks, ranges := Group(before, after, script);
    HunksApply(before, after, steps, ranges, hunks, 0);
    DiffMarks(before, after, steps, ranges, hunks);
    assert Rebuilds(before, after, steps, 0, hunks[0..]);
    assert hunks[0..] == hunks && after[0..] == after;
  }
}
