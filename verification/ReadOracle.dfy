/**
 The read oracle from end to end (corpus.rs): a corpus loaded event by event,
 a filter answered through its indexes, and a relay's reply judged by
 counting. The indexes, the numbers and the counting all drop out: a reply is
 accepted exactly when it is a newest reply over the retained events that the
 filter wants.
 */
module ReadOracle {

  import opened Basics
  import opened Retention
  import CorpusIndex
  import CorpusQuery
  import History

  /** The retained events that a filter wants. */
  ghost function AllWanted(events: seq<Event>, f: CorpusQuery.Filter): set<Event> {
    set e | e in Retained(events) && CorpusQuery.Wants(f, e)
  }

  /** What a reply check reads of a corpus row. */
  function View(r: CorpusIndex.Record): History.Record {
    History.Record(r.id, r.digest, r.createdAt)
  }

  ghost predicate Loaded(c: CorpusIndex.Corpus, events: seq<Event>, digest: Event -> nat) {
    && CorpusIndex.Represents(c, events) && CorpusIndex.Indexed(c)
    && |c.records| == |events| && forall i :: 0 <= i < |events| ==>
      View(c.records[i]) == History.RecordOf(digest, events[i])
  }

  method Load(events: seq<Event>, digest: Event -> nat) returns (c: CorpusIndex.Corpus)
    ensures Loaded(c, events, digest)
  {
    hide CorpusIndex.Builder.Valid;
    hide CorpusIndex.Represents, CorpusIndex.Indexed;
    var builder := new CorpusIndex.Builder();
    for i := 0 to |events|
      invariant fresh(builder) && builder.Valid()
      invariant builder.events == events[..i] && |builder.digests| == i
      invariant forall j :: 0 <= j < i ==> builder.digests[j] == digest(events[j])
    {
      builder.Push(events[i], digest(events[i]));
    }
    assert events[..|events|] == events;
    c := builder.Finish();
    RowsView(c, events, builder.digests, digest);
  }

  lemma {:induction false} RowsView(c: CorpusIndex.Corpus, events: seq<Event>, digests: seq<nat>, digest: Event -> nat)
    requires CorpusIndex.Represents(c, events) && CorpusIndex.DigestsStand(c.records, digests) && |digests| == |events|
    requires forall j :: 0 <= j < |events| ==> digests[j] == digest(events[j])
    ensures |c.records| == |events|
    ensures forall i :: 0 <= i < |events| ==> View(c.records[i]) == History.RecordOf(digest, events[i])
  {
    forall i | 0 <= i < |events|
      ensures View(c.records[i]) == History.RecordOf(digest, events[i])
    {
      assert CorpusIndex.Mirrors(c.records[i], events[i], c.authors, c.values);
    }
  }

  /** Rows found by their numbers: each kept, wanted row once. */
  ghost predicate Rows(c: CorpusIndex.Corpus, events: seq<Event>, f: CorpusQuery.Filter, r: seq<nat>) {
    && Increasing(r)
    && forall i: nat :: i in r <==> CorpusIndex.IsKept(c.kept, i) && i < |events| && CorpusQuery.Wants(f, events[i])
  }

  ghost predicate IdsDiffer(events: seq<Event>) {
    forall i, j :: 0 <= i < j < |events| ==> events[i].id != events[j].id
  }

  /** A row is kept exactly if its event is retained, and no two kept rows
      share an id. */
  lemma {:induction false} KeptRows(c: CorpusIndex.Corpus, events: seq<Event>)
    requires Determined(events) && CorpusIndex.Represents(c, events)
    ensures forall e :: e in Retained(events) <==>
      exists i: nat :: i < |events| && CorpusIndex.IsKept(c.kept, i) && events[i] == e
    ensures forall i: nat, j: nat ::
      i < j < |events| && CorpusIndex.IsKept(c.kept, i) && CorpusIndex.IsKept(c.kept, j) ==>
        events[i].id != events[j].id
  {
    CorpusIndex.LoaderKeepsRetained(events, c.kept);
    forall e | e in Retained(events)
      ensures exists i: nat :: i < |events| && CorpusIndex.IsKept(c.kept, i) && events[i] == e
    {
      var i :| 0 <= i < |events| && c.kept[i] && events[i] == e;
      assert CorpusIndex.IsKept(c.kept, i);
    }
    forall i: nat, j: nat | i < j < |events| && CorpusIndex.IsKept(c.kept, i) && CorpusIndex.IsKept(c.kept, j)
      ensures events[i].id != events[j].id
    {
      KeptIsSurvivor(events, j);
    }
  }

  /** The rows hold the wanted events, each once. */
  lemma {:induction false} RowsHold(c: CorpusIndex.Corpus, events: seq<Event>, f: CorpusQuery.Filter, r: seq<nat>,
                                    held: seq<Event>)
    requires Determined(events) && CorpusIndex.Represents(c, events) && Rows(c, events, f, r)
    requires |held| == |r| && forall k :: 0 <= k < |r| ==> r[k] < |events| && held[k] == events[r[k]]
    ensures SetOf(held) == AllWanted(events, f) && IdsDiffer(held)
  {
    forall k | 0 <= k < |r|
      ensures CorpusIndex.IsKept(c.kept, r[k]) && CorpusQuery.Wants(f, held[k])
    {
      assert r[k] in r;
    }
    KeptRows(c, events);
    hide CorpusIndex.Represents, CorpusIndex.IsKept, CorpusQuery.Wants, Determined, Retained;
    forall e
      ensures e in AllWanted(events, f) <==> e in held
    {
      if e in AllWanted(events, f) {
        RowOf(c, events, f, r, e);
      }
    }
    hide Rows;
    assert Increasing(r);
  }

  lemma {:induction false} RowOf(c: CorpusIndex.Corpus, events: seq<Event>, f: CorpusQuery.Filter, r: seq<nat>,
                                 e: Event)
    requires Determined(events) && CorpusIndex.Represents(c, events) && Rows(c, events, f, r)
    requires e in AllWanted(events, f)
    ensures exists k :: 0 <= k < |r| && r[k] < |events| && events[r[k]] == e
  {
    hide CorpusIndex.Represents, CorpusIndex.IsKept, CorpusQuery.Wants, Determined, Retained;
    KeptRows(c, events);
    var i: nat :| i < |events| && CorpusIndex.IsKept(c.kept, i) && events[i] == e;
    assert i in r;
  }

  lemma {:induction false} ViewsOf(digest: Event -> nat, held: seq<Event>, found: seq<History.Record>)
    requires IdsDiffer(held) && |found| == |held|
    requires forall k :: 0 <= k < |held| ==> found[k] == History.RecordOf(digest, held[k])
    ensures SetOf(found) == History.Records(digest, SetOf(held))
    ensures History.Distinct(found) && |found| == |SetOf(held)| && History.IdsUnique(SetOf(found))
  {
    forall e | e in SetOf(held)
      ensures History.RecordOf(digest, e) in found
    {
      var k :| 0 <= k < |held| && held[k] == e;
      assert found[k] == History.RecordOf(digest, e);
    }
    History.DistinctSize(held);
  }

  /** The matches of a filter, newest or not. */
  method MatchesOf(c: CorpusIndex.Corpus, ghost events: seq<Event>, ghost digest: Event -> nat, f: CorpusQuery.Filter)
    returns (found: seq<History.Record>)
    requires Determined(events) && Loaded(c, events, digest)
    ensures SetOf(found) == History.Records(digest, AllWanted(events, f))
    ensures History.Distinct(found) && |found| == |AllWanted(events, f)| && History.IdsUnique(SetOf(found))
  {
    hide CorpusIndex.Represents, CorpusIndex.Indexed, CorpusQuery.Wants, Determined;
    var r := CorpusQuery.Find(c, events, f);
    assert forall k :: 0 <= k < |r| ==> r[k] in r;
    found := seq(|r|, k requires 0 <= k < |r| && r[k] < |c.records| => View(c.records[r[k]]));
    ghost var held := seq(|r|, k requires 0 <= k < |r| && r[k] < |events| => events[r[k]]);
    RowsHold(c, events, f, r, held);
    ViewsOf(digest, held, found);
  }

  /** The whole oracle, over every corpus whose ids determine its events,
      every filter, limit and reply. The copy taken out of the corpus gives
      the same verdict. */
  method Judge(events: seq<Event>, digest: Event -> nat, f: CorpusQuery.Filter, limit: Option<nat>,
               actual: seq<History.Sent>)
    returns (ok: bool, owned: bool)
    requires Determined(events)
    ensures
      var wanted := AllWanted(events, f);
      ok <==> History.NewestReply(History.Records(digest, wanted), History.Asked(limit, |wanted|), actual)
    ensures owned == ok
  {
    hide *;
    var c := Load(events, digest);
    var found := MatchesOf(c, events, digest, f);
    AskedFits(limit, found);
    ghost var all, count := SetOf(found), History.Asked(limit, |found|);
    var x := History.ExpectedReply(found, limit);
    ok := History.ExpectedMatches(x, actual, all, count);
    var copy := History.Owned(x, all, count);
    owned := History.OwnedMatches(copy, actual, all, count);
  }

  lemma {:induction false} AskedFits(limit: Option<nat>, found: seq<History.Record>)
    requires History.Distinct(found)
    ensures History.Asked(limit, |found|) <= |SetOf(found)|
  {
    History.DistinctSize(found);
  }
}
