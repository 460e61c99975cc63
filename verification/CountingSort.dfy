/**
 The counting sort of the author index (`Builder::finish` in corpus.rs): the
 kept events grouped by owner, in order, with the start of each group. Rows
 without an owner stay out.
 */
module CountingSort {

  import opened Basics

  type Owners = seq<Option<nat>>

  predicate Below(owner: Owners, owners: nat) {
    forall i :: 0 <= i < |owner| && owner[i].Some? ==> owner[i].value < owners
  }

  /** The events below `n` of owner `a`, in order. */
  function Group(owner: Owners, a: nat, n: nat): seq<nat>
    requires n <= |owner|
  {
    if n == 0 then [] else Group(owner, a, n - 1) + (if owner[n - 1] == Some(a) then [n - 1] else [])
  }

  lemma {:induction false} GroupHas(owner: Owners, a: nat, n: nat, i: nat)
    requires n <= |owner|
    ensures i in Group(owner, a, n) <==> i < n && owner[i] == Some(a)
  {
    if n > 0 {
      GroupHas(owner, a, n - 1, i);
    }
  }

  lemma {:induction false} GroupGrows(owner: Owners, a: nat, m: nat, n: nat)
    requires m <= n <= |owner|
    ensures Group(owner, a, m) <= Group(owner, a, n)
    ensures m < n && owner[m] == Some(a) ==> |Group(owner, a, m)| < |Group(owner, a, n)|
  {
    if m < n {
      GroupGrows(owner, a, m, n - 1);
    }
  }

  /** How many events below `n` the first `a` owners have. */
  function Base(owner: Owners, a: nat, n: nat): nat
    requires n <= |owner|
  {
    if a == 0 then 0 else Base(owner, a - 1, n) + |Group(owner, a - 1, n)|
  }

  lemma {:induction false} BaseStep(owner: Owners, a: nat, n: nat)
    requires n < |owner|
    ensures Base(owner, a, n + 1) == Base(owner, a, n) + if owner[n].Some? && owner[n].value < a then 1 else 0
  {
    if a > 0 {
      BaseStep(owner, a - 1, n);
    }
  }

  lemma {:induction false} BaseMonotone(owner: Owners, a: nat, b: nat, n: nat)
    requires n <= |owner| && a < b
    ensures Base(owner, a, n) + |Group(owner, a, n)| <= Base(owner, b, n)
  {
    hide Group;
    if a < b - 1 {
      BaseMonotone(owner, a, b - 1, n);
    }
  }

  function CountOwned(owner: Owners, n: nat): nat
    requires n <= |owner|
  {
    if n == 0 then 0 else CountOwned(owner, n - 1) + if owner[n - 1].Some? then 1 else 0
  }

  lemma {:induction false} BaseIsAll(owner: Owners, owners: nat, n: nat)
    requires n <= |owner| && Below(owner, owners)
    ensures Base(owner, owners, n) == CountOwned(owner, n)
  {
    hide Base;
    if n > 0 {
      BaseIsAll(owner, owners, n - 1);
      BaseStep(owner, owners, n - 1);
    } else {
      NoBase(owner, owners);
    }
  }

  lemma {:induction false} NoBase(owner: Owners, a: nat)
    ensures Base(owner, a, 0) == 0
  {
    if a > 0 {
      NoBase(owner, a - 1);
    }
  }

  /** The size of each group, one place up. */
  ghost predicate Sized(owner: Owners, start: seq<nat>, from: nat, n: nat)
    requires n <= |owner|
  {
    forall a :: from <= a < |start| ==> a > 0 ==> start[a] == |Group(owner, a - 1, n)|
  }

  method Sizes(owner: Owners, owners: nat) returns (start: seq<nat>)
    requires Below(owner, owners)
    ensures |start| == owners + 1 && start[0] == 0 && Sized(owner, start, 0, |owner|)
  {
    start := seq(owners + 1, _ => 0);
    for index := 0 to |owner|
      invariant |start| == owners + 1 && start[0] == 0 && Sized(owner, start, 0, index)
    {
      if owner[index].Some? {
        var a := owner[index].value;
        start := start[a + 1 := start[a + 1] + 1];
      }
    }
  }

  ghost predicate Based(owner: Owners, start: seq<nat>, n: nat) {
    n <= |start| && forall a :: 0 <= a < n ==> start[a] == Base(owner, a, |owner|)
  }

  method Starts(owner: Owners, owners: nat) returns (start: seq<nat>)
    requires Below(owner, owners)
    ensures |start| == owners + 1 && Based(owner, start, owners + 1)
  {
    start := Sizes(owner, owners);
    for a := 0 to owners
      invariant |start| == owners + 1
      invariant Based(owner, start, a + 1) && Sized(owner, start, a + 1, |owner|)
    {
      BaseNext(owner, a);
      hide Base, Group;
      start := start[a + 1 := start[a + 1] + start[a]];
    }
  }

  lemma {:induction false} BaseNext(owner: Owners, a: nat)
    ensures Base(owner, a + 1, |owner|) == Base(owner, a, |owner|) + |Group(owner, a, |owner|)|
  {
  }

  /** The run of group `a` in the list. */
  predicate Spans(start: seq<nat>, list: seq<nat>, a: nat)
    requires a + 1 < |start|
  {
    start[a] <= start[a + 1] <= |list|
  }

  /** Each group is the run from its start to the next. */
  ghost predicate Grouped(owner: Owners, owners: nat, start: seq<nat>, list: seq<nat>) {
    && |start| == owners + 1
    && (forall a :: 0 <= a < owners ==> Spans(start, list, a))
    && (forall a :: 0 <= a < owners ==>
      Spans(start, list, a) && list[start[a]..start[a + 1]] == Group(owner, a, |owner|))
  }

  /** The front of group `a` is in place after `n` events. */
  ghost predicate Placed(owner: Owners, list: seq<nat>, a: nat, n: nat)
    requires n <= |owner|
  {
    var base, group := Base(owner, a, |owner|), Group(owner, a, n);
    base + |group| <= |list| && list[base..base + |group|] == group
  }

  ghost predicate Filled(owner: Owners, owners: nat, list: seq<nat>, n: nat)
    requires n <= |owner|
  {
    forall a :: 0 <= a < owners ==> Placed(owner, list, a, n)
  }

  /** The next place of an event's group is free and its own. */
  lemma {:induction false} PlaceNext(owner: Owners, owners: nat, list: seq<nat>, n: nat, slot: nat, a: nat)
    requires n < |owner| && owner[n].Some? && owner[n].value < owners && a < owners
    requires |list| == Base(owner, owners, |owner|) && Placed(owner, list, a, n)
    requires slot == Base(owner, owner[n].value, |owner|) + |Group(owner, owner[n].value, n)|
    ensures slot < |list| && Placed(owner, list[slot := n], a, n + 1)
  {
    hide Base, Group;
    NextInGroup(owner, a, n);
    SlotOf(owner, owners, n, slot, a);
    UpdateSlice(list, Base(owner, a, |owner|), |Group(owner, a, n)|, slot, n);
  }

  /** An event's place is right after its own group's front and outside every
      other's. */
  lemma {:induction false} SlotOf(owner: Owners, owners: nat, n: nat, slot: nat, a: nat)
    requires n < |owner| && owner[n].Some? && owner[n].value < owners && a < owners
    requires slot == Base(owner, owner[n].value, |owner|) + |Group(owner, owner[n].value, n)|
    ensures
      var base, len := Base(owner, a, |owner|), |Group(owner, a, n)|;
      && slot < Base(owner, owners, |owner|) && base + len <= Base(owner, owners, |owner|)
      && if owner[n].value == a then slot == base + len else slot < base || base + len <= slot
  {
    hide Base, Group;
    var o, all := owner[n].value, |owner|;
    GroupGrows(owner, o, n, all);
    BaseMonotone(owner, o, owners, all);
    GroupGrows(owner, a, n, all);
    BaseMonotone(owner, a, owners, all);
    if a < o {
      BaseMonotone(owner, a, o, all);
    } else if o < a {
      BaseMonotone(owner, o, a, all);
    }
  }

  lemma {:induction false} NextInGroup(owner: Owners, a: nat, n: nat)
    requires n < |owner|
    ensures Group(owner, a, n + 1) == Group(owner, a, n) + if owner[n] == Some(a) then [n] else []
  {
  }

  /** A write beside a stretch leaves it, and one right after extends it. */
  lemma {:induction false} UpdateSlice(list: seq<nat>, base: nat, len: nat, slot: nat, v: nat)
    requires base + len <= |list| && slot < |list|
    ensures slot < base || base + len <= slot ==> list[slot := v][base..base + len] == list[base..base + len]
    ensures slot == base + len ==> list[slot := v][base..base + len + 1] == list[base..base + len] + [v]
  {
  }

  lemma {:induction false} FillStep(owner: Owners, owners: nat, list: seq<nat>, n: nat, slot: nat)
    requires n < |owner| && owner[n].Some? && owner[n].value < owners
    requires |list| == Base(owner, owners, |owner|) && Filled(owner, owners, list, n)
    requires slot == Base(owner, owner[n].value, |owner|) + |Group(owner, owner[n].value, n)|
    ensures slot < |list| && Filled(owner, owners, list[slot := n], n + 1)
  {
    hide Placed, Base, Group;
    assert Placed(owner, list, owner[n].value, n);
    PlaceNext(owner, owners, list, n, slot, owner[n].value);
    var list', m := list[slot := n], n + 1;
    forall a | 0 <= a < owners
      ensures Placed(owner, list', a, m)
    {
      PlaceNext(owner, owners, list, n, slot, a);
    }
  }

  lemma {:induction false} FillSkip(owner: Owners, owners: nat, list: seq<nat>, n: nat)
    requires n < |owner| && owner[n].None? && Filled(owner, owners, list, n)
    ensures Filled(owner, owners, list, n + 1)
  {
    var m := n + 1;
    forall a | 0 <= a < owners
      ensures Placed(owner, list, a, m)
    {
      assert Placed(owner, list, a, n);
      assert Group(owner, a, n + 1) == Group(owner, a, n);
    }
  }

  lemma {:induction false} FillNone(owner: Owners, owners: nat, list: seq<nat>)
    requires |list| == Base(owner, owners, |owner|)
    ensures Filled(owner, owners, list, 0)
  {
    forall a | 0 <= a < owners
      ensures Placed(owner, list, a, 0)
    {
      BaseMonotone(owner, a, owners, |owner|);
    }
  }

  /** Where each group's next event goes. */
  ghost predicate Nexts(owner: Owners, owners: nat, next: seq<nat>, n: nat)
    requires n <= |owner|
  {
    |next| == owners + 1 && forall a :: 0 <= a < owners ==> next[a] == Base(owner, a, |owner|) + |Group(owner, a, n)|
  }

  method Fill(owner: Owners, owners: nat, start: seq<nat>, total: nat) returns (list: seq<nat>)
    requires Below(owner, owners) && |start| == owners + 1 && Based(owner, start, owners + 1)
    requires total == Base(owner, owners, |owner|)
    ensures |list| == total && Filled(owner, owners, list, |owner|)
  {
    list := seq(total, _ => 0);
    var next := start;
    FillNone(owner, owners, list);
    for index := 0 to |owner|
      invariant |list| == total && Filled(owner, owners, list, index) && Nexts(owner, owners, next, index)
    {
      hide Base, Filled;
      if owner[index].Some? {
        var o := owner[index].value;
        var slot := next[o];
        FillStep(owner, owners, list, index, slot);
        list := list[slot := index];
        next := next[o := slot + 1];
      } else {
        FillSkip(owner, owners, list, index);
      }
    }
  }

  /** The events by owner. `total` is how many there are. */
  method Sort(owner: Owners, owners: nat, total: nat) returns (start: seq<nat>, list: seq<nat>)
    requires Below(owner, owners) && total == CountOwned(owner, |owner|)
    ensures Grouped(owner, owners, start, list) && |list| == total
  {
    start := Starts(owner, owners);
    BaseIsAll(owner, owners, |owner|);
    list := Fill(owner, owners, start, total);
    forall a | 0 <= a < owners
      ensures Spans(start, list, a) && list[start[a]..start[a + 1]] == Group(owner, a, |owner|)
    {
      assert Placed(owner, list, a, |owner|);
      BaseNext(owner, a);
    }
  }
}
