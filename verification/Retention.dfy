/**
 Replacement (NIP-01, section "Kinds") and deletion (NIP-09, by `e` tags only)
 as a property of a set of events, `Survives`, and the code that computes it.

 - `Retain` and `FlagRetained` decide it index by index, as corpus.rs does;
 - `Kept` decides it in one scan, as catchup.rs does.

 Both are proved equal to `Survives`, which makes the outcome independent of
 import order and repetition.

 An id is a number: the 32 bytes of the hash, most significant first, so that
 the order of numbers is the order of ids.
 */
module Retention {

  import opened Basics

  type Id = nat
  type Pubkey = nat

  /** A tag's first value: the written form of an id, or any other text. */
  datatype Value = Hex(id: Id) | Text(text: string)

  datatype Tag = Tag(name: string, value: Option<Value>)

  datatype Event = Event(id: Id, pubkey: Pubkey, kind: nat, createdAt: nat, tags: seq<Tag>, content: string)

  const DELETION := 5

  predicate Ephemeral(kind: nat) { 20_000 <= kind < 30_000 }

  predicate Replaceable(kind: nat) { kind == 0 || kind == 3 || 10_000 <= kind < 20_000 }

  predicate Addressable(kind: nat) { 30_000 <= kind < 40_000 }

  predicate Versioned(kind: nat) { Replaceable(kind) || Addressable(kind) }

  // ------------------------------------------------------------------
  // The generic rule: replacement and deletion over what retention reads
  // ------------------------------------------------------------------

  /** An event with only the fields the rules look at. Two events share an
      `Address` iff they may replace each other, so `d` must be equal on kinds
      without one. */
  datatype Seen<A, D> = Seen(id: Id, author: A, kind: nat, createdAt: nat, d: D)
  {
    function Address(): (A, nat, D) { (author, kind, d) }

    /** A strict order, total where ids differ. */
    predicate Supersedes(other: Seen<A, D>) {
      createdAt > other.createdAt || (createdAt == other.createdAt && id < other.id)
    }
  }

  /** The relay stores event `i`: it is not ephemeral and its id is new. */
  ghost predicate Stored<A, D>(events: seq<Seen<A, D>>, i: nat)
    requires i < |events|
  {
    && !Ephemeral(events[i].kind)
    && forall j :: 0 <= j < i && !Ephemeral(events[j].kind) ==> events[j].id != events[i].id
  }

  /** No stored version of event `i`'s address among the first `n` events beats it. */
  ghost predicate Unbeaten<A, D>(events: seq<Seen<A, D>>, n: nat, i: nat)
    requires i < n <= |events|
  {
    forall j :: 0 <= j < n && j != i && Stored(events, j) && events[j].Address() == events[i].Address()
      ==> events[i].Supersedes(events[j])
  }

  ghost predicate KeptAt<A, D>(events: seq<Seen<A, D>>, deleted: set<(Id, A)>, i: nat)
    requires i < |events|
  {
    && Stored(events, i)
    && (Versioned(events[i].kind) ==> Unbeaten(events, |events|, i))
    && (events[i].kind == DELETION || (events[i].id, events[i].author) !in deleted)
  }

  function Pairs<A(==)>(deletions: seq<(Id, A)>): set<(Id, A)> { set p | p in deletions }

  /** `newest` holds, for every address with a stored version among the first
      `n` events, the index of the version that beats the others. */
  ghost predicate Tracks<A, D>(events: seq<Seen<A, D>>, n: nat, newest: map<(A, nat, D), nat>)
    requires n <= |events|
  {
    && (forall a :: a in newest ==>
          && newest[a] < n
          && Stored(events, newest[a])
          && Versioned(events[newest[a]].kind)
          && events[newest[a]].Address() == a
          && Unbeaten(events, n, newest[a]))
    && (forall j :: 0 <= j < n && Stored(events, j) && Versioned(events[j].kind)
          ==> events[j].Address() in newest)
  }

  lemma {:induction false} TracksStep<A, D>(events: seq<Seen<A, D>>, n: nat, newest: map<(A, nat, D), nat>,
                                            next: map<(A, nat, D), nat>)
    requires n < |events|
    requires Tracks(events, n, newest)
    requires
      if !Stored(events, n) || !Versioned(events[n].kind) then
        next == newest
      else
        var a := events[n].Address();
        if a in newest && !events[n].Supersedes(events[newest[a]]) then next == newest
        else next == newest[a := n]
    ensures Tracks(events, n + 1, next)
  {
    hide Stored, Unbeaten, Seen.Supersedes;
    var stored := Stored(events, n) && Versioned(events[n].kind);
    var a := events[n].Address();
    if stored && a in newest {
      Rivals(events, newest[a], n);
    }
    forall b | b in newest && !(stored && b == a && next != newest)
      ensures Unbeaten(events, n + 1, newest[b])
    {
      StaysUnbeaten(events, n, newest[b]);
    }
    if next != newest {
      NewcomerUnbeaten(events, n, newest);
    }
  }

  lemma {:induction false} Rivals<A, D>(events: seq<Seen<A, D>>, i: nat, n: nat)
    requires i < n < |events| && Stored(events, i) && Stored(events, n)
    ensures events[n].Supersedes(events[i]) <==> !events[i].Supersedes(events[n])
  {
    assert events[i].id != events[n].id;
  }

  lemma {:induction false} StaysUnbeaten<A, D>(events: seq<Seen<A, D>>, n: nat, i: nat)
    requires i < n < |events| && Unbeaten(events, n, i)
    requires Stored(events, n) && events[n].Address() == events[i].Address() ==> events[i].Supersedes(events[n])
    ensures Unbeaten(events, n + 1, i)
  {
    hide Stored, Seen.Supersedes;
  }

  /** A version that beats the best so far, or is the first, beats all. */
  lemma {:induction false} NewcomerUnbeaten<A, D>(events: seq<Seen<A, D>>, n: nat, newest: map<(A, nat, D), nat>)
    requires n < |events| && Tracks(events, n, newest) && Versioned(events[n].kind)
    requires var a := events[n].Address(); a in newest ==> events[n].Supersedes(events[newest[a]])
    ensures Unbeaten(events, n + 1, n)
  {
    hide Stored;
    var a := events[n].Address();
    forall j | 0 <= j < n && Stored(events, j) && events[j].Address() == a
      ensures events[n].Supersedes(events[j])
    {
      assert a in newest;
      assert newest[a] != j ==> events[newest[a]].Supersedes(events[j]);
    }
  }

  /** Winners of the replacement rule: exactly the values of a full `newest`. */
  lemma {:induction false} TracksAll<A, D>(events: seq<Seen<A, D>>, newest: map<(A, nat, D), nat>, i: nat)
    requires Tracks(events, |events|, newest)
    requires i < |events| && Stored(events, i) && Versioned(events[i].kind)
    ensures i in newest.Values <==> Unbeaten(events, |events|, i)
  {
    var a := events[i].Address();
    var best := newest[a];
    assert best in newest.Values;
    if i != best {
      assert events[best].Supersedes(events[i]);
    }
  }

  /** Both oracles mark the winning versions once every event is seen. */
  method MarkWinners(kept: seq<bool>, winners: set<nat>) returns (r: seq<bool>)
    requires forall w :: w in winners ==> w < |kept|
    ensures |r| == |kept|
    ensures forall j :: 0 <= j < |kept| ==> (r[j] <==> kept[j] || j in winners)
  {
    r := kept;
    var left := winners;
    while left != {}
      invariant left <= winners
      invariant |r| == |kept|
      invariant forall j :: 0 <= j < |kept| ==> (r[j] <==> kept[j] || j in winners - left)
    {
      var index :| index in left;
      r := r[index := true];
      left := left - {index};
    }
  }

  /** `retain` of corpus.rs. */
  method Retain<A(==), D(==)>(events: seq<Seen<A, D>>, deletions: seq<(Id, A)>)
    returns (kept: seq<bool>)
    ensures |kept| == |events|
    ensures forall i :: 0 <= i < |events| ==>
      (kept[i] <==> KeptAt(events, Pairs(deletions), i))
  {
    hide Stored, Unbeaten;
    kept := RetainNewest(events);
    var deleted := Pairs(deletions);
    ghost var winning := kept;
    for index := 0 to |events|
      invariant |kept| == |events|
      invariant forall j :: 0 <= j < index ==> (kept[j] <==> KeptAt(events, deleted, j))
      invariant forall j :: index <= j < |events| ==> kept[j] == winning[j]
    {
      if kept[index] {
        var seen := events[index];
        kept := kept[index := seen.kind == DELETION || (seen.id, seen.author) !in deleted];
      }
    }
  }

  /** The flags where nothing was deleted. */
  method RetainNewest<A(==), D(==)>(events: seq<Seen<A, D>>) returns (kept: seq<bool>)
    ensures |kept| == |events|
    ensures forall i :: 0 <= i < |events| ==>
      (kept[i] <==> Stored(events, i) && (Versioned(events[i].kind) ==> Unbeaten(events, |events|, i)))
  {
    hide Unbeaten;
    kept := seq(|events|, _ => false);
    var ids: set<Id> := {};
    var newest: map<(A, nat, D), nat> := map[];
    for index := 0 to |events|
      invariant |kept| == |events| && ids == StoredIds(events, index)
      invariant forall j :: 0 <= j < index ==>
        (kept[j] <==> Stored(events, j) && !Versioned(events[j].kind))
      invariant forall j :: index <= j < |events| ==> !kept[j]
      invariant Tracks(events, index, newest)
    {
      StoredIfNew(events, index);
      hide Unbeaten, Stored, StoredIds;
      var seen := events[index];
      ghost var before := newest;
      if !Ephemeral(seen.kind) && seen.id !in ids {
        ids := ids + {seen.id};
        if !Replaceable(seen.kind) && !Addressable(seen.kind) {
          kept := kept[index := true];
        } else if seen.Address() !in newest {
          newest := newest[seen.Address() := index];
        } else if seen.Supersedes(events[newest[seen.Address()]]) {
          newest := newest[seen.Address() := index];
        }
      }
      TracksStep(events, index, before, newest);
    }
    TracksInRange(events, newest);
    forall j | 0 <= j < |events| && Stored(events, j) && Versioned(events[j].kind)
      ensures j in newest.Values <==> Unbeaten(events, |events|, j)
    {
      TracksAll(events, newest, j);
    }
    kept := MarkWinners(kept, newest.Values);
  }

  lemma {:induction false} TracksInRange<A, D>(events: seq<Seen<A, D>>, newest: map<(A, nat, D), nat>)
    requires Tracks(events, |events|, newest)
    ensures forall w :: w in newest.Values ==> w < |events| && Stored(events, w) && Versioned(events[w].kind)
  {
  }

  // ------------------------------------------------------------------
  // Whole events: the declarative rules, and the two oracles against them
  // ------------------------------------------------------------------

  /** The values of the tags called `name`, in order. */
  function TagValues(tags: seq<Tag>, name: string): seq<Value> {
    if tags == [] then []
    else if tags[0].name == name && tags[0].value.Some? then [tags[0].value.value] + TagValues(tags[1..], name)
    else TagValues(tags[1..], name)
  }

  /** The last part of an address, empty where a kind or an event lacks one. */
  function Identifier(e: Event): Value {
    var ds := TagValues(e.tags, "d");
    if Addressable(e.kind) && ds != [] then ds[0] else Text("")
  }

  function AsSeen(e: Event): Seen<Pubkey, Value> {
    Seen(e.id, e.pubkey, e.kind, e.createdAt, Identifier(e))
  }

  /** The events a kind 5 names. A target that is no id names nothing. */
  function Targets(e: Event): set<Id> {
    if e.kind == DELETION then set v | v in TagValues(e.tags, "e") && v.Hex? :: v.id else {}
  }

  predicate Deletes(d: Event, e: Event) {
    d.pubkey == e.pubkey && e.id in Targets(d)
  }

  predicate SameAddress(a: Event, b: Event) {
    AsSeen(a).Address() == AsSeen(b).Address()
  }

  /** The retention rules, over the set of imported events. */
  ghost predicate Survives(all: set<Event>, e: Event) {
    && e in all
    && !Ephemeral(e.kind)
    && (Versioned(e.kind) ==>
          forall o :: o in all && o != e && SameAddress(o, e) ==> AsSeen(e).Supersedes(AsSeen(o)))
    && (e.kind != DELETION ==> forall d :: d in all ==> !Deletes(d, e))
  }

  /** An event's id is the hash of its fields: equal ids, equal events. */
  ghost predicate Determined(events: seq<Event>) {
    forall i, j :: 0 <= i < |events| && 0 <= j < |events| && events[i].id == events[j].id ==>
      events[i] == events[j]
  }

  ghost predicate IsFirst(events: seq<Event>, i: nat)
    requires i < |events|
  {
    events[i] !in events[..i]
  }

  /** The events of `events` whose flag is set. */
  function Pick(events: seq<Event>, flags: seq<bool>): (r: seq<Event>)
    requires |events| == |flags|
    ensures |r| <= |events|
    ensures forall e :: e in r <==> exists i :: 0 <= i < |events| && flags[i] && events[i] == e
  {
    if events == [] then []
    else
      var n := |events| - 1;
      var rest := Pick(events[..n], flags[..n]);
      assert events == events[..n] + [events[n]] && flags == flags[..n] + [flags[n]];
      if flags[n] then rest + [events[n]] else rest
  }

  ghost function Flags(events: seq<Event>): (flags: seq<bool>)
    ensures |flags| == |events|
  {
    seq(|events|, i requires 0 <= i < |events| => IsFirst(events, i) && Survives(SetOf(events), events[i]))
  }

  /** What a relay holds after importing `events`, in import order. */
  ghost function Retained(events: seq<Event>): seq<Event> {
    Pick(events, Flags(events))
  }

  function AllSeen(events: seq<Event>): (r: seq<Seen<Pubkey, Value>>)
    ensures |r| == |events|
    ensures forall i :: 0 <= i < |events| ==> r[i] == AsSeen(events[i])
  {
    seq(|events|, i requires 0 <= i < |events| => AsSeen(events[i]))
  }

  /** What the deletions among `events` name, with who may delete it. */
  function Deletions(events: seq<Event>): (r: seq<(Id, Pubkey)>)
    ensures forall p :: p in r <==> exists d :: d in events && p.1 == d.pubkey && p.0 in Targets(d)
  {
    if events == [] then []
    else
      var n := |events| - 1;
      var d := events[n];
      assert events == events[..n] + [d];
      Deletions(events[..n]) + (if d.kind == DELETION then TargetPairs(TagValues(d.tags, "e"), d.pubkey) else [])
  }

  function TargetPairs(values: seq<Value>, author: Pubkey): (r: seq<(Id, Pubkey)>)
    ensures forall p :: p in r <==> Hex(p.0) in values && p.1 == author
  {
    if values == [] then []
    else
      var rest := TargetPairs(values[1..], author);
      assert values == [values[0]] + values[1..];
      if values[0].Hex? then [(values[0].id, author)] + rest else rest
  }

  lemma {:induction false} StoredIsFirst(events: seq<Event>, i: nat)
    requires Determined(events) && i < |events|
    ensures Stored(AllSeen(events), i) <==> !Ephemeral(events[i].kind) && IsFirst(events, i)
  {
    var seen := AllSeen(events);
    if !Ephemeral(events[i].kind) && !Stored(seen, i) {
      var j :| 0 <= j < i && !Ephemeral(seen[j].kind) && seen[j].id == seen[i].id;
      assert events[j].id == events[i].id;
      assert events[..i][j] == events[i];
    }
    if !IsFirst(events, i) {
      var j :| 0 <= j < i && events[..i][j] == events[i];
      assert seen[j] == seen[i];
    }
  }

  lemma {:induction false} FirstExists(events: seq<Event>, e: Event) returns (i: nat)
    requires e in events
    ensures i < |events| && events[i] == e && IsFirst(events, i)
  {
    i :| i < |events| && events[i] == e;
    if !IsFirst(events, i) {
      assert e in events[..i];
      i := FirstExists(events[..i], e);
      assert events[..i] == events[..|events|][..i];
    }
  }

  /** Keeping the winner of each address index by index is the rule over the set. */
  lemma {:induction false} NewestIsSurvivor(events: seq<Event>, i: nat)
    requires Determined(events) && i < |events|
    requires !Ephemeral(events[i].kind) && IsFirst(events, i) && Versioned(events[i].kind)
    ensures
      Unbeaten(AllSeen(events), |events|, i) <==>
      forall o :: o in events && o != events[i] && SameAddress(o, events[i]) ==>
        AsSeen(events[i]).Supersedes(AsSeen(o))
  {
    var seen := AllSeen(events);
    if Unbeaten(seen, |events|, i) {
      forall o | o in events && o != events[i] && SameAddress(o, events[i])
        ensures AsSeen(events[i]).Supersedes(AsSeen(o))
      {
        var j := FirstExists(events, o);
        StoredIsFirst(events, j);
      }
    }
    if !Unbeaten(seen, |events|, i) {
      var j :| 0 <= j < |events| && j != i && Stored(seen, j) && seen[j].Address() == seen[i].Address()
               && !seen[i].Supersedes(seen[j]);
      StoredIsFirst(events, j);
      assert events[j] != events[i] by {
        if j < i { assert events[..i][j] == events[j]; } else { assert events[..j][i] == events[i]; }
      }
    }
  }

  /** The indexed rule of `Retain` is the declarative one. */
  lemma {:induction false} KeptIsSurvivor(events: seq<Event>, i: nat)
    requires Determined(events) && i < |events|
    ensures KeptAt(AllSeen(events), Pairs(Deletions(events)), i)
       <==> IsFirst(events, i) && Survives(SetOf(events), events[i])
  {
    StoredIsFirst(events, i);
    var e := events[i];
    if !Ephemeral(e.kind) && IsFirst(events, i) {
      if Versioned(e.kind) { NewestIsSurvivor(events, i); }
      assert (e.id, e.pubkey) in Deletions(events) <==> exists d :: d in events && Deletes(d, e);
    }
  }

  /** `retention` of corpus.rs. */
  method FlagRetained(events: seq<Event>) returns (kept: seq<bool>)
    ensures |kept| == |events|
    ensures Determined(events) ==>
      forall i :: 0 <= i < |events| ==>
        (kept[i] <==> IsFirst(events, i) && Survives(SetOf(events), events[i]))
  {
    kept := Retain(AllSeen(events), Deletions(events));
    if Determined(events) {
      forall i | 0 <= i < |events|
        ensures kept[i] <==> IsFirst(events, i) && Survives(SetOf(events), events[i])
      {
        KeptIsSurvivor(events, i);
      }
    }
  }

  /** What the first copies of the first `n` events delete. */
  ghost predicate DeletedBy(events: seq<Event>, n: nat, deleted: set<(Id, Pubkey)>)
    requires n <= |events|
  {
    forall p :: p in deleted <==>
      exists j :: 0 <= j < n && Stored(AllSeen(events), j) && p.1 == events[j].pubkey && p.0 in Targets(events[j])
  }

  lemma {:induction false} DeletedByStep(events: seq<Event>, n: nat, deleted: set<(Id, Pubkey)>,
                                         next: set<(Id, Pubkey)>)
    requires n < |events| && DeletedBy(events, n, deleted)
    requires
      var more := set id | id in Targets(events[n]) :: (id, events[n].pubkey);
      next == if Stored(AllSeen(events), n) then deleted + more else deleted
    ensures DeletedBy(events, n + 1, next)
  {
    forall p | p in next
      ensures exists j ::
        0 <= j < n + 1 && Stored(AllSeen(events), j) && p.1 == events[j].pubkey && p.0 in Targets(events[j])
    {
      if p in deleted {
        var j :| 0 <= j < n && Stored(AllSeen(events), j) && p.1 == events[j].pubkey && p.0 in Targets(events[j]);
        assert 0 <= j < n + 1;
      }
    }
  }

  /** `kept` of catchup.rs: the same rules in one pass over the events. */
  method Kept(events: seq<Event>) returns (r: seq<Event>)
    ensures Determined(events) ==> r == Retained(events)
  {
    hide Tracks, Stored, DeletedBy, Determined, Unbeaten;
    var keep, newest, deleted := Scan(events);
    TracksInRange(AllSeen(events), newest);
    keep := MarkWinners(keep, newest.Values);
    var flags := seq(|events|, i requires 0 <= i < |events| =>
      keep[i] && (events[i].kind == DELETION || (events[i].id, events[i].pubkey) !in deleted));
    r := Pick(events, flags);
    if Determined(events) {
      KeptFlags(events, newest, deleted, keep, flags);
    }
  }

  /** The ids stored among the first `n` events. */
  ghost function StoredIds<A, D>(events: seq<Seen<A, D>>, n: nat): set<Id>
    requires n <= |events|
  {
    set j | 0 <= j < n && !Ephemeral(events[j].kind) :: events[j].id
  }

  lemma {:induction false} StoredIfNew<A, D>(events: seq<Seen<A, D>>, i: nat)
    requires i < |events|
    ensures Stored(events, i) <==> !Ephemeral(events[i].kind) && events[i].id !in StoredIds(events, i)
    ensures StoredIds(events, i + 1) == StoredIds(events, i) + if Stored(events, i) then {events[i].id} else {}
  {
  }

  method Scan(events: seq<Event>)
    returns (keep: seq<bool>, newest: map<(Pubkey, nat, Value), nat>, deleted: set<(Id, Pubkey)>)
    ensures |keep| == |events|
    ensures forall j :: 0 <= j < |events| ==> (keep[j] <==> Stored(AllSeen(events), j) && !Versioned(events[j].kind))
    ensures Tracks(AllSeen(events), |events|, newest) && DeletedBy(events, |events|, deleted)
  {
    keep := seq(|events|, _ => false);
    var ids: set<Id> := {};
    newest, deleted := map[], {};
    ghost var seen := AllSeen(events);
    for i := 0 to |events|
      invariant |keep| == |events| && ids == StoredIds(seen, i)
      invariant forall j :: 0 <= j < i ==> (keep[j] <==> Stored(seen, j) && !Versioned(events[j].kind))
      invariant forall j :: i <= j < |events| ==> !keep[j]
      invariant Tracks(seen, i, newest)
      invariant DeletedBy(events, i, deleted)
    {
      hide Unbeaten, DeletedBy, Stored, StoredIds;
      StoredIfNew(seen, i);
      var e := events[i];
      ghost var before, deletedBefore := newest, deleted;
      if !Ephemeral(e.kind) && e.id !in ids {
        ids := ids + {e.id};
        if e.kind == DELETION {
          deleted := deleted + (set id | id in Targets(e) :: (id, e.pubkey));
        }
        if !Versioned(e.kind) {
          keep := keep[i := true];
        } else {
          var address := (e.pubkey, e.kind, Identifier(e));
          if address !in newest || AsSeen(e).Supersedes(AsSeen(events[newest[address]])) {
            newest := newest[address := i];
          }
        }
      }
      TracksStep(seen, i, before, newest);
      DeletedByStep(events, i, deletedBefore, deleted);
    }
  }

  lemma {:induction false} KeptFlags(events: seq<Event>, newest: map<(Pubkey, nat, Value), nat>,
                                     deleted: set<(Id, Pubkey)>, keep: seq<bool>, flags: seq<bool>)
    requires Determined(events)
    requires |keep| == |flags| == |events|
    requires Tracks(AllSeen(events), |events|, newest) && DeletedBy(events, |events|, deleted)
    requires forall j :: 0 <= j < |events| ==>
      (keep[j] <==> (Stored(AllSeen(events), j) && !Versioned(events[j].kind)) || j in newest.Values)
    requires forall j :: 0 <= j < |events| ==>
      (flags[j] <==> keep[j] && (events[j].kind == DELETION || (events[j].id, events[j].pubkey) !in deleted))
    ensures flags == Flags(events)
  {
    DeletedByFirstCopies(events, deleted);
    forall i | 0 <= i < |events|
      ensures flags[i] == Flags(events)[i]
    {
      KeptIsSurvivor(events, i);
      if Stored(AllSeen(events), i) && Versioned(events[i].kind) { TracksAll(AllSeen(events), newest, i); }
    }
  }

  lemma {:induction false} DeletedByFirstCopies(events: seq<Event>, deleted: set<(Id, Pubkey)>)
    requires Determined(events) && DeletedBy(events, |events|, deleted)
    ensures deleted == Pairs(Deletions(events))
  {
    hide Deletions, Stored;
    forall p | p in Deletions(events)
      ensures p in deleted
    {
      var d :| d in events && p.1 == d.pubkey && p.0 in Targets(d);
      var j := FirstExists(events, d);
      StoredIsFirst(events, j);
      assert Stored(AllSeen(events), j) && p.0 in Targets(events[j]);
    }
    assert forall p :: p in deleted ==> p in Deletions(events);
  }

  // ------------------------------------------------------------------
  // What the rules promise
  // ------------------------------------------------------------------

  /** The set of kept events depends only on the set of imported events. */
  lemma {:induction false} RetainedContents(events: seq<Event>)
    ensures SetOf(Retained(events)) == set e | e in events && Survives(SetOf(events), e)
  {
    forall e | e in events && Survives(SetOf(events), e)
      ensures e in Retained(events)
    {
      var i := FirstExists(events, e);
      assert Flags(events)[i];
    }
  }

  /** Neither the order nor the repetition of imports changes what is kept. */
  lemma {:induction false} ImportOrderIsFree(a: seq<Event>, b: seq<Event>)
    requires SetOf(a) == SetOf(b)
    ensures SetOf(Retained(a)) == SetOf(Retained(b))
  {
    RetainedContents(a);
    RetainedContents(b);
    forall e ensures e in a <==> e in b {
      assert e in a <==> e in SetOf(a);
      assert e in b <==> e in SetOf(b);
    }
  }

  lemma {:induction false} PickDistinct(events: seq<Event>, flags: seq<bool>)
    requires |events| == |flags|
    requires forall i :: 0 <= i < |events| && flags[i] ==> IsFirst(events, i)
    ensures forall i, j :: 0 <= i < j < |Pick(events, flags)| ==> Pick(events, flags)[i] != Pick(events, flags)[j]
  {
    if events != [] {
      var n := |events| - 1;
      forall i | 0 <= i < n && flags[..n][i]
        ensures IsFirst(events[..n], i)
      {
        assert events[..n][..i] == events[..i];
      }
      PickDistinct(events[..n], flags[..n]);
      assert events[n] in Pick(events[..n], flags[..n]) ==> events[n] in events[..n];
    }
  }

  /** No event is kept twice. */
  lemma {:induction false} RetainedDistinct(events: seq<Event>)
    ensures forall i, j :: 0 <= i < j < |Retained(events)| ==> Retained(events)[i] != Retained(events)[j]
  {
    PickDistinct(events, Flags(events));
  }

  lemma {:induction false} PickAll(events: seq<Event>, flags: seq<bool>)
    requires |events| == |flags|
    requires forall i :: 0 <= i < |flags| ==> flags[i]
    ensures Pick(events, flags) == events
  {
    if events != [] {
      PickAll(events[..|events| - 1], flags[..|events| - 1]);
    }
  }

  /** Importing what a relay holds changes nothing. */
  lemma {:induction false} RetentionIsStable(events: seq<Event>)
    ensures Retained(Retained(events)) == Retained(events)
  {
    var held := Retained(events);
    RetainedContents(events);
    RetainedDistinct(events);
    forall i | 0 <= i < |held|
      ensures Flags(held)[i]
    {
      assert held[i] in SetOf(held);
      assert Survives(SetOf(events), held[i]);
      forall o | o in SetOf(held)
        ensures o in SetOf(events)
      {
      }
    }
    PickAll(held, Flags(held));
  }

  /** At most one version of an address is kept. */
  lemma {:induction false} OneVersionPerAddress(events: seq<Event>, a: Event, b: Event)
    requires Determined(events)
    requires a in Retained(events) && b in Retained(events)
    requires Versioned(a.kind) && SameAddress(a, b)
    ensures a == b
  {
    RetainedContents(events);
    assert a in SetOf(Retained(events)) && b in SetOf(Retained(events));
    assert a != b ==> AsSeen(a).Supersedes(AsSeen(b)) && AsSeen(b).Supersedes(AsSeen(a));
  }

  /** One is kept exactly if its author did not delete the newest; an older
      version does not come back in its place. */
  lemma {:induction false} NewestOrNone(events: seq<Event>, newest: Event)
    requires newest in events && Versioned(newest.kind)
    requires forall o :: o in events && o != newest && SameAddress(o, newest) ==> AsSeen(newest).Supersedes(AsSeen(o))
    ensures (exists e :: e in Retained(events) && SameAddress(e, newest)) <==> forall d :: d in events ==>
      !Deletes(d, newest)
  {
    RetainedContents(events);
    if e :| e in Retained(events) && SameAddress(e, newest) {
      assert e in SetOf(Retained(events));
      assert e != newest ==> AsSeen(e).Supersedes(AsSeen(newest)) && AsSeen(newest).Supersedes(AsSeen(e));
    }
    if forall d :: d in events ==> !Deletes(d, newest) {
      assert newest in SetOf(Retained(events));
    }
  }
}
