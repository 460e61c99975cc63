/**
 Queries against the read oracle's corpus (corpus.rs): a filter put in the
 corpus's numbers, candidates found through an index, and the ones that
 match, against what a scan of all kept events would find.
 */
module CorpusQuery {

  import opened Basics
  import CountingSort
  import opened CorpusIndex
  import opened Retention

  // ------------------------------------------------------------------
  // Filters and queries
  // ------------------------------------------------------------------

  datatype TagFilter = TagFilter(letter: char, values: seq<Value>)

  /** A filter as a client sends it. Ids and authors are any strings. */
  datatype Filter = Filter(
    ids: Option<seq<Value>>,
    authors: Option<seq<Value>>,
    kinds: Option<seq<nat>>,
    since: Option<nat>,
    until: Option<nat>,
    tags: seq<TagFilter>)

  /** The same in the corpus's numbers; what the corpus lacks is dropped. */
  datatype Query = Query(
    ids: Option<seq<Id>>,
    authors: Option<seq<nat>>,
    kinds: Option<seq<nat>>,
    since: Option<nat>,
    until: Option<nat>,
    tags: seq<seq<nat>>)

  predicate HasTag(t: TagFilter, e: Event) {
    exists l :: l in LetterTags(e.tags) && l.letter == t.letter && l.value in t.values
  }

  /** NIP-01's reading of a filter. */
  predicate Wants(f: Filter, e: Event) {
    && (f.ids.Some? ==> Hex(e.id) in f.ids.value)
    && (f.authors.Some? ==> Hex(e.pubkey) in f.authors.value)
    && (f.kinds.Some? ==> e.kind in f.kinds.value)
    && (f.since.Some? ==> e.createdAt >= f.since.value)
    && (f.until.Some? ==> e.createdAt <= f.until.value)
    && forall k :: 0 <= k < |f.tags| ==> HasTag(f.tags[k], e)
  }

  predicate HasKey(c: Corpus, keys: seq<nat>, i: nat)
    requires Shaped(c, i)
  {
    exists k :: k in KeysOf(c.tagStart, c.tagKeys, i) && k in keys
  }

  predicate Shaped(c: Corpus, i: nat) {
    i < |c.records| && i < |c.tagStart| && Offsets(c.tagStart, c.tagKeys)
  }

  /** Whether kept event `i` matches. The lists are sorted, and a search in
      one is membership. */
  predicate Matches(c: Corpus, q: Query, i: nat)
    requires Shaped(c, i)
  {
    var record := c.records[i];
    && (q.ids.Some? ==> record.id in q.ids.value)
    && (q.authors.Some? ==> record.author in q.authors.value)
    && (q.kinds.Some? ==> record.kind in q.kinds.value)
    && (q.since.Some? ==> record.createdAt >= q.since.value)
    && (q.until.Some? ==> record.createdAt <= q.until.value)
    && forall k :: 0 <= k < |q.tags| ==> HasKey(c, q.tags[k], i)
  }

  /** Sorted, and naming what the filter's values name in the corpus. */
  ghost predicate IdsFit(ids: seq<Id>, values: seq<Value>) {
    Increasing(ids) && forall id :: id in ids <==> id >= 0 && Hex(id) in values
  }

  ghost predicate AuthorsFit(c: Corpus, authors: seq<nat>, values: seq<Value>) {
    Increasing(authors) && forall a :: a in authors <==> 0 <= a < |c.authors| && Hex(c.authors[a]) in values
  }

  ghost predicate KeysFit(c: Corpus, keys: seq<nat>, t: TagFilter) {
    Increasing(keys) && forall k :: k in keys <==>
      0 <= k < |c.values| && c.values[k].letter == t.letter && c.values[k].value in t.values
  }

  ghost predicate Translates(c: Corpus, f: Filter, q: Query) {
    && (f.ids.Some? <==> q.ids.Some?) && (q.ids.Some? ==> IdsFit(q.ids.value, f.ids.value))
    && (f.authors.Some? <==> q.authors.Some?) && (q.authors.Some? ==> AuthorsFit(c, q.authors.value, f.authors.value))
    && q.kinds == f.kinds && q.since == f.since && q.until == f.until
    && |q.tags| == |f.tags| && forall k :: 0 <= k < |f.tags| ==> KeysFit(c, q.tags[k], f.tags[k])
  }

  method IdList(values: seq<Value>) returns (ids: seq<Id>)
    ensures IdsFit(ids, values)
  {
    ids := [];
    for k := 0 to |values|
      invariant IdsFit(ids, values[..k])
    {
      assert values[..k + 1] == values[..k] + [values[k]];
      if values[k].Hex? {
        InsertAdds(ids, values[k].id);
        ids := Insert(ids, values[k].id);
      }
    }
    assert values[..|values|] == values;
  }

  method AuthorList(c: Corpus, values: seq<Value>) returns (authors: seq<nat>)
    requires Numbered(c.authors, c.authorNumbers)
    ensures AuthorsFit(c, authors, values)
  {
    authors := [];
    for k := 0 to |values|
      invariant AuthorsFit(c, authors, values[..k])
    {
      assert values[..k + 1] == values[..k] + [values[k]];
      if values[k].Hex? && values[k].id in c.authorNumbers {
        var a := c.authorNumbers[values[k].id];
        InsertAdds(authors, a);
        authors := Insert(authors, a);
      }
    }
    assert values[..|values|] == values;
  }

  method KeyList(c: Corpus, t: TagFilter) returns (keys: seq<nat>)
    requires Numbered(c.values, c.keys)
    ensures KeysFit(c, keys, t)
  {
    keys := [];
    var values := t.values;
    for k := 0 to |values|
      invariant KeysFit(c, keys, TagFilter(t.letter, values[..k]))
    {
      assert values[..k + 1] == values[..k] + [values[k]];
      var l := Letter(t.letter, values[k]);
      if l in c.keys {
        InsertAdds(keys, c.keys[l]);
        keys := Insert(keys, c.keys[l]);
      }
    }
    assert values[..|values|] == values;
  }

  method ToQuery(c: Corpus, f: Filter) returns (q: Query)
    requires Numbered(c.authors, c.authorNumbers) && Numbered(c.values, c.keys)
    ensures Translates(c, f, q)
  {
    hide Numbered, IdsFit, AuthorsFit, KeysFit;
    q := Query(None, None, f.kinds, f.since, f.until, []);
    if f.ids.Some? {
      var ids := IdList(f.ids.value);
      q := q.(ids := Some(ids));
    }
    if f.authors.Some? {
      var authors := AuthorList(c, f.authors.value);
      q := q.(authors := Some(authors));
    }
    var tags := [];
    for k := 0 to |f.tags|
      invariant |tags| == k && forall j :: 0 <= j < k ==> KeysFit(c, tags[j], f.tags[j])
    {
      var keys := KeyList(c, f.tags[k]);
      tags := tags + [keys];
    }
    q := q.(tags := tags);
  }

  /** Matching numbers is matching the event, also where the filter names
      ids, authors or tags the corpus does not have. */
  lemma {:induction false} MatchesIsWants(c: Corpus, events: seq<Event>, f: Filter, q: Query, i: nat)
    requires Represents(c, events) && Translates(c, f, q) && i < |events|
    ensures Shaped(c, i) && (Matches(c, q, i) <==> Wants(f, events[i]))
  {
  }

  // ------------------------------------------------------------------
  // Candidates
  // ------------------------------------------------------------------

  /** Every event list has an id once. */
  lemma {:induction false} KeptIdsDiffer(c: Corpus, events: seq<Event>, i: nat, j: nat)
    requires Represents(c, events) && IsKept(c.kept, i) && IsKept(c.kept, j) && c.records[i].id == c.records[j].id
    ensures i == j
  {
  }

  /** The id index, searched. */
  method FindId(c: Corpus, id: Id) returns (found: Option<nat>)
    requires ById(c.records, c.kept, c.byId)
    ensures found.Some? ==> IsKept(c.kept, found.value) && c.records[found.value].id == id
    ensures found.None? ==> forall i: nat :: IsKept(c.kept, i) ==> c.records[i].id != id
  {
    var lo, hi := 0, |c.byId|;
    while lo < hi
      invariant 0 <= lo <= hi <= |c.byId|
      invariant forall k :: 0 <= k < lo ==> c.records[c.byId[k]].id < id
      invariant forall k :: hi <= k < |c.byId| ==> id < c.records[c.byId[k]].id
    {
      var mid := (lo + hi) / 2;
      var i := c.byId[mid];
      if c.records[i].id == id {
        assert i in c.byId;
        return Some(i);
      } else if c.records[i].id < id {
        lo := mid + 1;
      } else {
        hi := mid;
      }
    }
    forall i: nat | IsKept(c.kept, i)
      ensures c.records[i].id != id
    {
      assert i in c.byId;
    }
    return None;
  }

  method AddAll(list: seq<nat>, more: seq<nat>) returns (r: seq<nat>)
    requires Increasing(list)
    ensures Increasing(r) && forall x :: x in r <==> x in list || x in more
  {
    r := list;
    for k := 0 to |more|
      invariant Increasing(r) && forall x :: x in r <==> x in list || x in more[..k]
    {
      assert more[..k + 1] == more[..k] + [more[k]];
      InsertAdds(r, more[k]);
      hide Increasing;
      r := Insert(r, more[k]);
    }
    assert more[..|more|] == more;
  }

  method IdCandidates(c: Corpus, ghost events: seq<Event>, ids: seq<Id>) returns (r: seq<nat>)
    requires Represents(c, events) && Indexed(c)
    ensures Increasing(r) && forall i: nat :: i in r <==> IsKept(c.kept, i) && c.records[i].id in ids
  {
    hide Represents, Indexed, ById, IsKept, Insert, Increasing;
    r := [];
    NoIdsYet(c);
    assert ids[..0] == [];
    for k := 0 to |ids|
      invariant RowsOfIds(c, ids[..k], r)
    {
      var found := FindId(c, ids[k]);
      assert ids[..k + 1] == ids[..k] + [ids[k]];
      if found.Some? {
        RowFound(c, events, ids[..k], ids[k], r, found.value);
        r := Insert(r, found.value);
      } else {
        NoRowFound(c, ids[..k], ids[k], r);
      }
    }
    assert ids[..|ids|] == ids;
  }

  lemma {:induction false} NoIdsYet(c: Corpus)
    requires Indexed(c)
    ensures ById(c.records, c.kept, c.byId) && |c.kept| == |c.records| && RowsOfIds(c, [], [])
    ensures forall i: nat :: IsKept(c.kept, i) ==> i < |c.records|
  {
  }

  ghost predicate RowsOfIds(c: Corpus, ids: seq<Id>, r: seq<nat>) {
    Increasing(r) && forall i: nat :: i in r <==> IsKept(c.kept, i) && i < |c.records| && c.records[i].id in ids
  }

  lemma {:induction false} RowFound(c: Corpus, events: seq<Event>, ids: seq<Id>, id: Id, r: seq<nat>, row: nat)
    requires Represents(c, events) && RowsOfIds(c, ids, r) && |c.kept| == |c.records|
    requires IsKept(c.kept, row) && c.records[row].id == id
    ensures RowsOfIds(c, ids + [id], Insert(r, row))
  {
    hide Represents, Insert, Increasing;
    InsertAdds(r, row);
    forall i: nat | IsKept(c.kept, i) && c.records[i].id == id
      ensures i == row
    {
      KeptIdsDiffer(c, events, i, row);
    }
  }

  lemma {:induction false} NoRowFound(c: Corpus, ids: seq<Id>, id: Id, r: seq<nat>)
    requires RowsOfIds(c, ids, r) && |c.kept| == |c.records|
    requires forall i: nat :: IsKept(c.kept, i) ==> c.records[i].id != id
    ensures RowsOfIds(c, ids + [id], r)
  {
    hide Increasing;
  }

  method AuthorCandidates(c: Corpus, authors: seq<nat>) returns (r: seq<nat>)
    requires Indexed(c) && forall k :: 0 <= k < |authors| ==> authors[k] < |c.authors|
    ensures Increasing(r) && forall i: nat :: i in r <==> IsKept(c.kept, i) && c.records[i].author in authors
  {
    var owners := OwnersOf(c.records, c.kept);
    r := [];
    for k := 0 to |authors|
      invariant Increasing(r) && forall i: nat :: i in r <==> IsKept(c.kept, i) && c.records[i].author in authors[..k]
    {
      assert authors[..k + 1] == authors[..k] + [authors[k]];
      var a := authors[k];
      assert CountingSort.Spans(c.authorStart, c.byAuthor, a);
      var own := c.byAuthor[c.authorStart[a]..c.authorStart[a + 1]];
      forall i: nat
        ensures i in own <==> IsKept(c.kept, i) && c.records[i].author == a
      {
        CountingSort.GroupHas(owners, a, |owners|, i);
      }
      r := AddAll(r, own);
    }
    assert authors[..|authors|] == authors;
  }

  function EventsOf(pairs: seq<Pair>): (r: seq<nat>)
    ensures |r| == |pairs| && forall k :: 0 <= k < |pairs| ==> r[k] == pairs[k].event
  {
    seq(|pairs|, k requires 0 <= k < |pairs| => pairs[k].event)
  }

  function KeysIn(pairs: seq<Pair>): (r: seq<nat>)
    ensures |r| == |pairs| && forall k :: 0 <= k < |pairs| ==> r[k] == pairs[k].key
  {
    seq(|pairs|, k requires 0 <= k < |pairs| => pairs[k].key)
  }

  /** The run of one key in the tag index. */
  method TagRun(c: Corpus, key: nat) returns (own: seq<nat>)
    requires ByTag(c.kept, c.tagStart, c.tagKeys, c.byTag)
    ensures forall i: nat :: i in own <==> Pair(key, i) in c.byTag
  {
    var keys := KeysIn(c.byTag);
    assert Ascending(keys);
    var start := PartitionPoint(keys, key);
    var end := PartitionPoint(keys, key + 1);
    assert start > 0 ==> keys[start - 1] < key;
    assert forall k :: 0 <= k < |c.byTag| ==> keys[k] == c.byTag[k].key;
    hide ByTag, SortedPairs;
    own := EventsOf(c.byTag[start..end]);
    forall i: nat
      ensures i in own <==> Pair(key, i) in c.byTag
    {
      RunHas(c.byTag, key, start, end, i);
    }
  }

  lemma {:induction false} RunHas(pairs: seq<Pair>, key: nat, start: nat, end: nat, i: nat)
    requires start <= end <= |pairs|
    requires forall k :: 0 <= k < |pairs| ==> (pairs[k].key == key <==> start <= k < end)
    ensures i in EventsOf(pairs[start..end]) <==> Pair(key, i) in pairs
  {
  }

  method TagCandidates(c: Corpus, keys: seq<nat>) returns (r: seq<nat>)
    requires Indexed(c) && forall i: nat :: IsKept(c.kept, i) ==> Shaped(c, i)
    ensures Increasing(r) && forall i: nat :: i in r <==> IsKept(c.kept, i) && HasKey(c, keys, i)
  {
    r := [];
    for k := 0 to |keys|
      invariant Increasing(r) && forall i: nat :: i in r <==> exists j :: 0 <= j < k && Pair(keys[j], i) in c.byTag
    {
      var own := TagRun(c, keys[k]);
      r := AddAll(r, own);
    }
    forall i: nat
      ensures i in r <==> IsKept(c.kept, i) && HasKey(c, keys, i)
    {
      if i in r {
        var j :| 0 <= j < |keys| && Pair(keys[j], i) in c.byTag;
        assert keys[j] in KeysOf(c.tagStart, c.tagKeys, i);
      }
      if IsKept(c.kept, i) && HasKey(c, keys, i) {
        var key :| key in KeysOf(c.tagStart, c.tagKeys, i) && key in keys;
        var j :| 0 <= j < |keys| && keys[j] == key;
        assert Pair(keys[j], i) in c.byTag;
      }
    }
  }

  /** What the index a query goes through finds: by ids, else by authors, else
      by its first tag condition, else everything kept. */
  predicate Candidate(c: Corpus, q: Query, i: nat)
    requires Shaped(c, i)
  {
    if q.ids.Some? then c.records[i].id in q.ids.value
    else if q.authors.Some? then c.records[i].author in q.authors.value
    else if q.tags != [] then HasKey(c, q.tags[0], i)
    else true
  }

  method Candidates(c: Corpus, ghost events: seq<Event>, q: Query) returns (r: seq<nat>)
    requires Represents(c, events) && Indexed(c)
    requires q.authors.Some? ==> forall k :: 0 <= k < |q.authors.value| ==> q.authors.value[k] < |c.authors|
    ensures Increasing(r) && forall i: nat :: i in r <==> IsKept(c.kept, i) && Shaped(c, i) && Candidate(c, q, i)
  {
    hide Represents, HasKey;
    assert forall i: nat :: IsKept(c.kept, i) ==> Shaped(c, i);
    if q.ids.Some? {
      r := IdCandidates(c, events, q.ids.value);
    } else if q.authors.Some? {
      r := AuthorCandidates(c, q.authors.value);
    } else if q.tags != [] {
      r := TagCandidates(c, q.tags[0]);
    } else {
      r := AllKept(c);
    }
  }

  method AllKept(c: Corpus) returns (r: seq<nat>)
    ensures Increasing(r) && forall i: nat :: i in r <==> IsKept(c.kept, i)
  {
    r := [];
    for i := 0 to |c.kept|
      invariant Increasing(r) && forall j: nat :: j in r <==> j < i && IsKept(c.kept, j)
    {
      if c.kept[i] {
        AppendIncreasing(r, i);
        r := r + [i];
      }
    }
  }

  /** The events of a query, through an index, are those a scan of all kept
      events would give, in the same order. */
  method Find(c: Corpus, ghost events: seq<Event>, f: Filter) returns (r: seq<nat>)
    requires Represents(c, events) && Indexed(c)
    ensures Increasing(r) && forall i: nat :: i in r <==> IsKept(c.kept, i) && i < |events| && Wants(f, events[i])
  {
    hide Indexed, Translates, Matches, Candidate, Wants;
    var q := ToQuery(c, f);
    AuthorsKnown(c, f, q);
    var candidates := Candidates(c, events, q);
    FoundMeansWanted(c, events, f, q);
    r := Filtered(c, q, candidates);
  }

  /** The candidates that match, each once. */
  method Filtered(c: Corpus, q: Query, candidates: seq<nat>) returns (r: seq<nat>)
    requires forall k :: 0 <= k < |candidates| ==> Shaped(c, candidates[k])
    ensures Increasing(r) && forall i: nat :: i in r <==> i in candidates && Shaped(c, i) && Matches(c, q, i)
  {
    hide Matches, Shaped;
    r := [];
    for k := 0 to |candidates|
      invariant Increasing(r) && forall i: nat :: i in r <==> i in candidates[..k] && Shaped(c, i) && Matches(c, q, i)
    {
      var i := candidates[k];
      assert candidates[..k + 1] == candidates[..k] + [i];
      if Matches(c, q, i) {
        InsertAdds(r, i);
        hide Insert, Increasing;
        r := Insert(r, i);
      }
    }
    assert candidates[..|candidates|] == candidates;
  }

  lemma {:induction false} AuthorsKnown(c: Corpus, f: Filter, q: Query)
    requires Translates(c, f, q)
    ensures q.authors.Some? ==> forall k :: 0 <= k < |q.authors.value| ==> q.authors.value[k] < |c.authors|
  {
    if q.authors.Some? {
      assert forall k :: 0 <= k < |q.authors.value| ==> q.authors.value[k] in q.authors.value;
    }
  }

  /** A match is a candidate, and among the kept events the matches are the
      wanted events. */
  lemma {:induction false} FoundMeansWanted(c: Corpus, events: seq<Event>, f: Filter, q: Query)
    requires Represents(c, events) && Translates(c, f, q)
    ensures forall i: nat :: IsKept(c.kept, i) ==>
      i < |events| && Shaped(c, i) && (Matches(c, q, i) <==> Wants(f, events[i])) &&
        (Matches(c, q, i) ==> Candidate(c, q, i))
  {
    forall i: nat | IsKept(c.kept, i)
      ensures i < |events| && Shaped(c, i) && (Matches(c, q, i) <==> Wants(f, events[i]))
      ensures (Matches(c, q, i) ==> Candidate(c, q, i))
    {
      MatchesIsWants(c, events, f, q, i);
    }
  }
}
