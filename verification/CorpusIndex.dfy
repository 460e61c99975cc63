/**
 The read oracle's corpus (corpus.rs): events loaded one at a time with
 authors and tags as numbers, the retained ones indexed by id, author and
 tag, and queries answered through the indexes.

 Numbers are unbounded here; the source refuses more than 2^32 - 1 events.
 Ids and pubkeys are numbers, as in `Retention`, whose rules decide what is
 kept.
 */
module CorpusIndex {

  import opened Basics
  import CountingSort
  import opened Retention

  datatype Letter = Letter(letter: char, value: Value)

  /** The part of a tag list that filters can ask about. */
  function LetterTags(tags: seq<Tag>): seq<Letter> {
    if tags == [] then []
    else
      var tag := tags[0];
      (if |tag.name| == 1 && tag.value.Some? then [Letter(tag.name[0], tag.value.value)] else []) +
        LetterTags(tags[1..])
  }

  /** Position `m` holds the first tag with this letter. */
  predicate FirstAt(letters: seq<Letter>, c: char, m: nat) {
    m < |letters| && letters[m].letter == c && forall k :: 0 <= k < m ==> letters[k].letter != c
  }

  /** The values of a letter, in order. */
  function ValuesOf(letters: seq<Letter>, c: char): seq<Value> {
    if letters == [] then []
    else (if letters[0].letter == c then [letters[0].value] else []) + ValuesOf(letters[1..], c)
  }

  /** The letters give the same values as the tags. */
  lemma {:induction false} LettersAgree(tags: seq<Tag>, c: char)
    ensures ValuesOf(LetterTags(tags), c) == TagValues(tags, [c])
  {
    if tags != [] {
      LettersAgree(tags[1..], c);
      var tag := tags[0];
      if |tag.name| == 1 && tag.value.Some? {
        assert LetterTags(tags)[1..] == LetterTags(tags[1..]);
        assert tag.name == [tag.name[0]];
      } else {
        assert LetterTags(tags) == LetterTags(tags[1..]);
      }
    }
  }

  lemma {:induction false} ValuesOfHas(letters: seq<Letter>, c: char, v: Value)
    ensures v in ValuesOf(letters, c) <==> Letter(c, v) in letters
  {
    if letters != [] {
      ValuesOfHas(letters[1..], c, v);
      assert letters == [letters[0]] + letters[1..];
    }
  }

  lemma {:induction false} ValuesOfFirst(letters: seq<Letter>, c: char, m: nat)
    requires FirstAt(letters, c, m)
    ensures ValuesOf(letters, c) != [] && ValuesOf(letters, c)[0] == letters[m].value
  {
    if m > 0 {
      assert letters[0].letter != c;
      assert letters[1..][m - 1] == letters[m];
      ValuesOfFirst(letters[1..], c, m - 1);
    }
  }

  lemma {:induction false} ValuesOfNone(letters: seq<Letter>, c: char)
    requires forall k :: 0 <= k < |letters| ==> letters[k].letter != c
    ensures ValuesOf(letters, c) == []
  {
    if letters != [] {
      ValuesOfNone(letters[1..], c);
    }
  }

  /** What is kept of one event. Its author and `d` value are numbers. */
  datatype Record = Record(id: Id, digest: nat, createdAt: nat, kind: nat, author: nat, d: nat)

  /** A `d` that numbers no value; `Mirrors` says which rows have it. */
  const NO_D: nat := 0xFFFF_FFFF

  // ------------------------------------------------------------------
  // Numbering
  // ------------------------------------------------------------------

  /** `numbers` is the inverse of the list: each value has one number. */
  ghost predicate Numbered<T(!new)>(list: seq<T>, numbers: map<T, nat>) {
    && (forall k :: 0 <= k < |list| ==> list[k] in numbers && numbers[list[k]] == k)
    && (forall v :: v in numbers ==> numbers[v] < |list| && list[numbers[v]] == v)
  }

  /** The number of a value, new or not. Old numbers stay. */
  method Number<T(==, !new)>(list: seq<T>, numbers: map<T, nat>, v: T)
    returns (k: nat, list': seq<T>, numbers': map<T, nat>)
    requires Numbered(list, numbers)
    ensures Numbered(list', numbers') && list <= list'
    ensures k < |list'| && list'[k] == v
  {
    if v in numbers {
      return numbers[v], list, numbers;
    }
    return |list|, list + [v], numbers[v := |list|];
  }

  // ------------------------------------------------------------------
  // Loading
  // ------------------------------------------------------------------

  /** What the numbers of a tag list stand for. */
  ghost predicate Stands(keys: seq<nat>, values: seq<Letter>, tags: seq<Letter>) {
    |keys| == |tags| && forall k :: 0 <= k < |keys| ==> keys[k] < |values| && values[keys[k]] == tags[k]
  }

  ghost predicate Mirrors(record: Record, e: Event, authors: seq<Pubkey>, values: seq<Letter>) {
    && record.id == e.id && record.createdAt == e.createdAt && record.kind == e.kind
    && record.author < |authors| && authors[record.author] == e.pubkey
    && (Addressable(e.kind) ==> record.d < |values| && values[record.d] == Letter('d', Identifier(e)))
    && (!Addressable(e.kind) ==> record.d == NO_D)
  }

  /** The deletions, with their authors as pubkeys again. */
  ghost predicate DeletionsStand(deletions: seq<(Id, nat)>, authors: seq<Pubkey>, pairs: seq<(Id, Pubkey)>) {
    && (forall p :: p in deletions ==> p.1 < |authors| && (p.0, authors[p.1]) in pairs)
    && (forall q :: q in pairs ==> exists p :: p in deletions && p.1 < |authors| && p.0 == q.0 && authors[p.1] == q.1)
  }

  /** Where event `i`'s tag keys are. The last event's end with the list. */
  function KeysOf(start: seq<nat>, keys: seq<nat>, i: nat): seq<nat>
    requires i < |start| && Offsets(start, keys)
  {
    keys[start[i]..if i + 1 < |start| then start[i + 1] else |keys|]
  }

  predicate Offsets(start: seq<nat>, keys: seq<nat>) {
    && (forall i :: 0 <= i < |start| ==> start[i] <= |keys|)
    && (forall i, j :: 0 <= i < j < |start| ==> start[i] <= start[j])
  }

  ghost predicate TagsStand(start: seq<nat>, keys: seq<nat>, values: seq<Letter>, events: seq<Event>) {
    && |events| <= |start| && Offsets(start, keys)
    && forall i :: 0 <= i < |events| ==> Stands(KeysOf(start, keys, i), values, LetterTags(events[i].tags))
  }

  class Builder {
    var records: seq<Record>
    var authors: seq<Pubkey>
    var authorNumbers: map<Pubkey, nat>
    var values: seq<Letter>
    var keys: map<Letter, nat>
    var tagStart: seq<nat>
    var tagKeys: seq<nat>
    var deletions: seq<(Id, nat)>

    /** The events loaded so far. */
    ghost var events: seq<Event>
    /** The digests they came with. */
    ghost var digests: seq<nat>

    ghost predicate Valid()
      reads this
    {
      && Numbered(authors, authorNumbers) && Numbered(values, keys)
      && |tagStart| == |events| && RecordsStand(records, events, authors, values)
      && DigestsStand(records, digests)
      && TagsStand(tagStart, tagKeys, values, events)
      && DeletionsStand(deletions, authors, Deletions(events))
    }

    constructor ()
      ensures Valid() && events == [] && digests == []
    {
      records, authors, authorNumbers, values, keys := [], [], map[], [], map[];
      tagStart, tagKeys, deletions, events, digests := [], [], [], [], [];
    }

    /** The tags of one event: their keys, the first `d`, and what a deletion
        deletes. */
    method PushTags(letters: seq<Letter>, kind: nat, author: nat) returns (d: Option<nat>, ghost added: seq<nat>)
      requires Numbered(values, keys)
      modifies this`values, this`keys, this`tagKeys, this`deletions
      ensures Numbered(values, keys) && old(values) <= values
      ensures tagKeys == old(tagKeys) + added && Stands(added, values, letters)
      ensures HoldsD(letters, d, values) && (d.Some? ==> d.value < |values|)
      ensures forall p :: p in deletions <==>
        p in old(deletions) || (kind == DELETION && p.1 == author && Letter('e', Hex(p.0)) in letters)
    {
      hide Numbered;
      d, added := None, [];
      ghost var m: nat := 0;
      for k := 0 to |letters|
        invariant Numbered(values, keys) && old(values) <= values
        invariant tagKeys == old(tagKeys) + added && Stands(added, values, letters[..k])
        invariant d.Some? ==> FirstAt(letters, 'd', m) && d.value < |values| && values[d.value] == letters[m]
        invariant d.None? ==> forall j :: 0 <= j < k ==> letters[j].letter != 'd'
        invariant forall p :: p in deletions <==>
          p in old(deletions) || (kind == DELETION && p.1 == author && Letter('e', Hex(p.0)) in letters[..k])
      {
        var tag := letters[k];
        assert letters[..k + 1] == letters[..k] + [tag];
        if kind == DELETION && tag.letter == 'e' && tag.value.Hex? {
          deletions := deletions + [(tag.value.id, author)];
        }
        var key;
        key, values, keys := Number(values, keys, tag);
        if tag.letter == 'd' && d.None? {
          d, m := Some(key), k;
        }
        tagKeys, added := tagKeys + [key], added + [key];
      }
      assert letters[..|letters|] == letters;
    }

    /** The key of an addressable event's `d`, empty where it has none. */
    method ChooseD(e: Event, letters: seq<Letter>, found: Option<nat>) returns (d: nat)
      requires Numbered(values, keys) && letters == LetterTags(e.tags) && HoldsD(letters, found, values)
      requires found.Some? ==> found.value < |values|
      modifies this`values, this`keys
      ensures Numbered(values, keys) && old(values) <= values
      ensures if Addressable(e.kind) then d < |values| && values[d] == Letter('d', Identifier(e)) else d == NO_D
    {
      hide Numbered, LetterTags, HoldsD;
      d := NO_D;
      if Addressable(e.kind) {
        if found.Some? {
          d := found.value;
        } else {
          d, values, keys := Number(values, keys, Letter('d', Text("")));
        }
        HoldsStill(letters, found, old(values), values);
        IdentifierFound(e, letters, found, values, d);
      }
    }

    method PushLetters(e: Event, author: nat) returns (d: nat, ghost added: seq<nat>)
      requires Numbered(values, keys)
      modifies this`values, this`keys, this`tagStart, this`tagKeys, this`deletions
      ensures Numbered(values, keys) && old(values) <= values
      ensures tagStart == old(tagStart) + [|old(tagKeys)|]
      ensures tagKeys == old(tagKeys) + added && Stands(added, values, LetterTags(e.tags))
      ensures if Addressable(e.kind) then d < |values| && values[d] == Letter('d', Identifier(e)) else d == NO_D
      ensures forall p :: p in deletions <==>
        p in old(deletions) || (e.kind == DELETION && p.1 == author && Letter('e', Hex(p.0)) in LetterTags(e.tags))
    {
      hide Numbered, Stands, LetterTags, HoldsD, Identifier;
      var letters := LetterTags(e.tags);
      tagStart := tagStart + [|tagKeys|];
      var found;
      found, added := PushTags(letters, e.kind, author);
      ghost var tagged := values;
      d := ChooseD(e, letters, found);
      StandsStill(added, tagged, values, letters);
    }

    method Push(e: Event, digest: nat)
      requires Valid()
      modifies this
      ensures Valid() && events == old(events) + [e] && digests == old(digests) + [digest]
    {
      hide Numbered, Mirrors, TagsStand, DeletionsStand, Stands, RecordsStand, LetterTags, Deletions, HoldsD;
      var author;
      author, authors, authorNumbers := Number(authors, authorNumbers, e.pubkey);
      var d, added := PushLetters(e, author);
      records := records + [Record(e.id, digest, e.createdAt, e.kind, author, d)];
      events, digests := events + [e], digests + [digest];
      RecordsGrow(old(records), old(events), old(authors), old(values), authors, values, e, digest, author, d);
      TagsGrow(old(tagStart), old(tagKeys), old(values), old(events), values, added, e);
      DeletionsGrow(old(deletions), old(authors), old(events), deletions, authors, e, author);
    }

    /** Decides what is kept and builds the indexes over it. */
    method Finish() returns (c: Corpus)
      requires Valid()
      modifies this`tagStart
      ensures Represents(c, events) && Indexed(c) && DigestsStand(c.records, digests)
    {
      hide ById, ByTag, OwnersOf, CountingSort.Grouped, CountingSort.CountOwned, CountingSort.Below;
      hide Numbered, RecordsStand, TagsStand, DeletionsStand, DigestsStand, KeptAre;
      CloseTags(tagStart, tagKeys, values, events);
      tagStart := tagStart + [|tagKeys|];
      var kept := Keep();
      SameLengths(records, events, authors, values, kept);
      var byId := SortIds(records, kept);
      OwnersBelow(records, kept, events, authors, values);
      var start, byAuthor := CountingSort.Sort(OwnersOf(records, kept), |authors|, |byId|);
      var byTag := SortTags(kept, tagStart, tagKeys);
      c := Corpus(records, kept, authors, authorNumbers, values, keys, tagStart, tagKeys, byId, start, byAuthor, byTag);
    }

    /** What retention keeps of the loaded events, decided on numbers. */
    method Keep() returns (kept: seq<bool>)
      requires Numbered(authors, authorNumbers) && Numbered(values, keys)
      requires RecordsStand(records, events, authors, values) && DeletionsStand(deletions, authors, Deletions(events))
      ensures KeptAre(kept, events)
    {
      hide Numbered, RecordsStand, DeletionsStand;
      kept := Retain(SeenOf(records), deletions);
      RecordsAreRenamed(records, events, authors, authorNumbers, values, keys);
      forall i | 0 <= i < |events|
        ensures KeptAt(SeenOf(records), Pairs(deletions), i) <==> KeptAt(AllSeen(events), Pairs(Deletions(events)), i)
      {
        DeletedAlike(deletions, authors, authorNumbers, values, records, events, i);
        RenamedKept(SeenOf(records), AllSeen(events), Pairs(deletions), Pairs(Deletions(events)), i);
      }
    }
  }

  /** The key found for `d`, or the one of the empty value. */
  ghost predicate HoldsD(letters: seq<Letter>, found: Option<nat>, values: seq<Letter>) {
    match found
    case Some(d) => exists m: nat :: FirstAt(letters, 'd', m) && d < |values| && values[d] == letters[m]
    case None => forall k :: 0 <= k < |letters| ==> letters[k].letter != 'd'
  }

  lemma {:induction false} HoldsStill(letters: seq<Letter>, found: Option<nat>, values: seq<Letter>,
                                      values': seq<Letter>)
    requires HoldsD(letters, found, values) && values <= values'
    ensures HoldsD(letters, found, values')
  {
  }

  lemma {:induction false} StandsStill(keys: seq<nat>, values: seq<Letter>, values': seq<Letter>, tags: seq<Letter>)
    requires Stands(keys, values, tags) && values <= values'
    ensures Stands(keys, values', tags)
  {
  }

  lemma {:induction false} IdentifierFound(e: Event, letters: seq<Letter>, found: Option<nat>, values: seq<Letter>,
                                           d: nat)
    requires letters == LetterTags(e.tags) && HoldsD(letters, found, values)
    requires Addressable(e.kind) ==>
      d < |values| && (if found.Some? then d == found.value else values[d] == Letter('d', Text("")))
    ensures Addressable(e.kind) ==> values[d] == Letter('d', Identifier(e))
  {
    LettersAgree(e.tags, 'd');
    if found.Some? {
      var m: nat :| FirstAt(letters, 'd', m) && found.value < |values| && values[found.value] == letters[m];
      ValuesOfFirst(letters, 'd', m);
    } else {
      ValuesOfNone(letters, 'd');
    }
  }

  ghost predicate RecordsStand(records: seq<Record>, events: seq<Event>, authors: seq<Pubkey>, values: seq<Letter>) {
    |records| == |events| && forall i :: 0 <= i < |events| ==> Mirrors(records[i], events[i], authors, values)
  }

  ghost predicate DigestsStand(records: seq<Record>, digests: seq<nat>) {
    |records| == |digests| && forall i :: 0 <= i < |records| ==> records[i].digest == digests[i]
  }

  lemma {:induction false} RecordsGrow(records: seq<Record>, events: seq<Event>, authors: seq<Pubkey>,
                                       values: seq<Letter>, authors': seq<Pubkey>, values': seq<Letter>, e: Event,
                                       digest: nat, author: nat, d: nat)
    requires RecordsStand(records, events, authors, values) && authors <= authors' && values <= values'
    requires author < |authors'| && authors'[author] == e.pubkey
    requires if Addressable(e.kind) then d < |values'| && values'[d] == Letter('d', Identifier(e)) else d == NO_D
    ensures RecordsStand(records + [Record(e.id, digest, e.createdAt, e.kind, author, d)], events + [e],
                         authors', values')
  {
  }

  lemma {:induction false} TagsGrow(start: seq<nat>, keys: seq<nat>, values: seq<Letter>, events: seq<Event>,
                                    values': seq<Letter>, added: seq<nat>, e: Event)
    requires TagsStand(start, keys, values, events) && |start| == |events| && values <= values'
    requires Stands(added, values', LetterTags(e.tags))
    ensures TagsStand(start + [|keys|], keys + added, values', events + [e])
  {
    var start', keys', events' := start + [|keys|], keys + added, events + [e];
    forall i | 0 <= i < |events'|
      ensures Stands(KeysOf(start', keys', i), values', LetterTags(events'[i].tags))
    {
      if i < |events| {
        assert Stands(KeysOf(start, keys, i), values, LetterTags(events[i].tags));
        assert KeysOf(start', keys', i) == KeysOf(start, keys, i);
      } else {
        assert KeysOf(start', keys', i) == added;
      }
    }
  }

  lemma {:induction false} DeletionsGrow(deletions: seq<(Id, nat)>, authors: seq<Pubkey>, events: seq<Event>,
                                         deletions': seq<(Id, nat)>, authors': seq<Pubkey>, e: Event, author: nat)
    requires DeletionsStand(deletions, authors, Deletions(events)) && authors <= authors'
    requires author < |authors'| && authors'[author] == e.pubkey
    requires forall p :: p in deletions' <==>
      p in deletions || (e.kind == DELETION && p.1 == author && Letter('e', Hex(p.0)) in LetterTags(e.tags))
    ensures DeletionsStand(deletions', authors', Deletions(events + [e]))
  {
    hide Deletions, LetterTags;
    var pairs, pairs' := Deletions(events), Deletions(events + [e]);
    assert (events + [e])[..|events|] == events;
    forall q
      ensures q in pairs' <==>
        q in pairs || (e.kind == DELETION && q.1 == e.pubkey && Letter('e', Hex(q.0)) in LetterTags(e.tags))
    {
      LettersAgree(e.tags, 'e');
      ValuesOfHas(LetterTags(e.tags), 'e', Hex(q.0));
    }
    forall q | q in pairs'
      ensures exists p :: p in deletions' && p.1 < |authors'| && p.0 == q.0 && authors'[p.1] == q.1
    {
      if q in pairs {
        var p :| p in deletions && p.1 < |authors| && p.0 == q.0 && authors[p.1] == q.1;
        assert p in deletions';
      } else {
        assert (q.0, author) in deletions';
      }
    }
  }

  // ------------------------------------------------------------------
  // What is kept
  // ------------------------------------------------------------------

  function SeenOf(records: seq<Record>): (r: seq<Seen<nat, nat>>)
    ensures |r| == |records|
    ensures forall i :: 0 <= i < |records| ==>
      r[i] == Seen(records[i].id, records[i].author, records[i].kind, records[i].createdAt, records[i].d)
  {
    seq(|records|, i requires 0 <= i < |records| =>
      Seen(records[i].id, records[i].author, records[i].kind, records[i].createdAt, records[i].d))
  }

  /** The same events under other names for authors and `d` values. */
  ghost predicate Renamed<A, D, B, E>(s: seq<Seen<A, D>>, t: seq<Seen<B, E>>) {
    && |s| == |t|
    && (forall i :: 0 <= i < |s| ==> s[i].id == t[i].id && s[i].kind == t[i].kind && s[i].createdAt == t[i].createdAt)
    && (forall i, j :: 0 <= i < |s| && 0 <= j < |s| ==>
          (s[i].Address() == s[j].Address() <==> t[i].Address() == t[j].Address()))
  }

  /** Numbers for names do not change what is kept. */
  lemma {:induction false} RenamedKept<A, D, B, E>(s: seq<Seen<A, D>>, t: seq<Seen<B, E>>, deleted: set<(Id, A)>,
                                                   deleted': set<(Id, B)>, i: nat)
    requires Renamed(s, t) && i < |s|
    requires (s[i].id, s[i].author) in deleted <==> (t[i].id, t[i].author) in deleted'
    ensures KeptAt(s, deleted, i) <==> KeptAt(t, deleted', i)
  {
  }

  lemma {:induction false} RecordsAreRenamed(records: seq<Record>, events: seq<Event>, authors: seq<Pubkey>,
                                             authorNumbers: map<Pubkey, nat>, values: seq<Letter>,
                                             keys: map<Letter, nat>)
    requires RecordsStand(records, events, authors, values) && Numbered(authors, authorNumbers)
    requires Numbered(values, keys)
    ensures Renamed(SeenOf(records), AllSeen(events))
  {
  }

  // ------------------------------------------------------------------
  // The indexes
  // ------------------------------------------------------------------

  /** A tag key and an event that has it. */
  datatype Pair = Pair(key: nat, event: nat)

  datatype Corpus = Corpus(
    records: seq<Record>,
    kept: seq<bool>,
    authors: seq<Pubkey>,
    authorNumbers: map<Pubkey, nat>,
    values: seq<Letter>,
    keys: map<Letter, nat>,
    tagStart: seq<nat>,
    tagKeys: seq<nat>,
    byId: seq<nat>,
    authorStart: seq<nat>,
    byAuthor: seq<nat>,
    byTag: seq<Pair>)

  predicate IsKept(kept: seq<bool>, i: nat) {
    i < |kept| && kept[i]
  }

  /** The kept events in the order of their ids. */
  ghost predicate ById(records: seq<Record>, kept: seq<bool>, byId: seq<nat>) {
    && |records| == |kept|
    && (forall i :: i in byId <==> IsKept(kept, i))
    && SortedById(records, byId)
  }

  predicate SortedById(records: seq<Record>, list: seq<nat>) {
    && (forall j :: 0 <= j < |list| ==> list[j] < |records|)
    && (forall j, k :: 0 <= j < k < |list| ==> records[list[j]].id <= records[list[k]].id)
  }

  function IdBefore(records: seq<Record>): (nat, nat) -> bool {
    (i: nat, j: nat) => i < |records| && j < |records| && records[i].id < records[j].id
  }

  lemma {:induction false} InsertByIdAdds(records: seq<Record>, list: seq<nat>, i: nat)
    requires i < |records| && SortedById(records, list)
    ensures
      var r := InsertBy<nat>(list, i, IdBefore(records));
      SortedById(records, r) && |r| == |list| + 1 && forall x :: x in r <==> x == i || x in list
  {
    hide IdBefore, Orders, SortedBy, InsertBy;
    var before := IdBefore(records);
    assert forall x :: x in list ==> x < |records|;
    InsertByHas(list, i, before);
    IdOrder(records, SetOf(list) + {i}, list);
    IdOrder(records, SetOf(list) + {i}, InsertBy<nat>(list, i, before));
    InsertBySorts(list, i, before);
  }

  lemma {:induction false} IdOrder(records: seq<Record>, all: set<nat>, list: seq<nat>)
    requires forall x :: x in all ==> x < |records|
    requires forall x :: x in list ==> x in all
    ensures Orders(IdBefore(records), all) && forall x :: !IdBefore(records)(x, x)
    ensures SortedById(records, list) <==> SortedBy(list, IdBefore(records))
  {
    assert forall j :: 0 <= j < |list| ==> list[j] in list;
  }

  function OwnersOf(records: seq<Record>, kept: seq<bool>): CountingSort.Owners
    requires |records| == |kept|
  {
    seq(|records|, i requires 0 <= i < |records| => if kept[i] then Some(records[i].author) else None)
  }

  /** `by_id`, one longer for each kept event. */
  method SortIds(records: seq<Record>, kept: seq<bool>) returns (byId: seq<nat>)
    requires |records| == |kept|
    ensures ById(records, kept, byId)
    ensures |byId| == CountingSort.CountOwned(OwnersOf(records, kept), |kept|)
  {
    byId := [];
    for i := 0 to |records|
      invariant SortedById(records, byId)
      invariant forall j :: j in byId <==> IsKept(kept[..i], j)
      invariant |byId| == CountingSort.CountOwned(OwnersOf(records, kept), i)
    {
      if kept[i] {
        InsertByIdAdds(records, byId, i);
        byId := InsertBy<nat>(byId, i, IdBefore(records));
      }
    }
    assert kept[..|kept|] == kept;
  }

  predicate PairLess(a: Pair, b: Pair) {
    a.key < b.key || (a.key == b.key && a.event < b.event)
  }

  predicate SortedPairs(s: seq<Pair>) {
    forall i, j :: 0 <= i < j < |s| ==> PairLess(s[i], s[j])
  }

  predicate PairAtMost(a: Pair, b: Pair) {
    a == b || PairLess(a, b)
  }

  /** `p` in its place, once. */
  function InsertPair(s: seq<Pair>, p: Pair): seq<Pair> {
    if p in s then s else InsertBy(s, p, PairAtMost)
  }

  lemma {:induction false} InsertPairAdds(s: seq<Pair>, p: Pair)
    requires SortedPairs(s)
    ensures SortedPairs(InsertPair(s, p))
    ensures forall q :: q in InsertPair(s, p) <==> q == p || q in s
  {
    if p !in s {
      assert SortedBy(s, PairAtMost) && Orders(PairAtMost, SetOf(s) + {p});
      InsertBySorts(s, p, PairAtMost);
      InsertByHas(s, p, PairAtMost);
    }
  }

  /** Each kept event under each of its keys. */
  ghost predicate ByTag(kept: seq<bool>, start: seq<nat>, keys: seq<nat>, byTag: seq<Pair>) {
    && |start| > |kept| && Offsets(start, keys) && SortedPairs(byTag)
    && forall p :: p in byTag <==> IsKept(kept, p.event) && p.key in KeysOf(start, keys, p.event)
  }

  /** `by_tag`, sorted and without repetitions. */
  method SortTags(kept: seq<bool>, start: seq<nat>, keys: seq<nat>) returns (byTag: seq<Pair>)
    requires |start| == |kept| + 1 && Offsets(start, keys)
    ensures ByTag(kept, start, keys, byTag)
  {
    byTag := [];
    for i := 0 to |kept|
      invariant SortedPairs(byTag)
      invariant forall p :: p in byTag <==> p.event < i && kept[p.event] && p.key in KeysOf(start, keys, p.event)
    {
      if kept[i] {
        var own := KeysOf(start, keys, i);
        for k := 0 to |own|
          invariant SortedPairs(byTag)
          invariant forall p :: p in byTag <==>
            || (p.event < i && kept[p.event] && p.key in KeysOf(start, keys, p.event))
            || (p.event == i && p.key in own[..k])
        {
          InsertPairAdds(byTag, Pair(own[k], i));
          assert own[..k + 1] == own[..k] + [own[k]];
          hide KeysOf, SortedPairs;
          byTag := InsertPair(byTag, Pair(own[k], i));
        }
        assert own[..|own|] == own;
      }
    }
  }

  // ------------------------------------------------------------------
  // The finished corpus
  // ------------------------------------------------------------------

  /** The flags retention gives the loaded events. */
  ghost predicate KeptAre(kept: seq<bool>, events: seq<Event>) {
    |kept| == |events| && forall i :: 0 <= i < |events| ==>
      (kept[i] <==> KeptAt(AllSeen(events), Pairs(Deletions(events)), i))
  }

  /** The corpus stands for the loaded events, and keeps what is retained. */
  ghost predicate Represents(c: Corpus, events: seq<Event>) {
    && Numbered(c.authors, c.authorNumbers) && Numbered(c.values, c.keys)
    && RecordsStand(c.records, events, c.authors, c.values)
    && |c.tagStart| == |events| + 1 && TagsStand(c.tagStart, c.tagKeys, c.values, events)
    && KeptAre(c.kept, events)
  }

  ghost predicate Indexed(c: Corpus) {
    && ById(c.records, c.kept, c.byId)
    && CountingSort.Grouped(OwnersOf(c.records, c.kept), |c.authors|, c.authorStart, c.byAuthor)
    && ByTag(c.kept, c.tagStart, c.tagKeys, c.byTag)
  }

  /** The last event's tags end with the list, written down or not. */
  lemma {:induction false} CloseTags(start: seq<nat>, keys: seq<nat>, values: seq<Letter>, events: seq<Event>)
    requires TagsStand(start, keys, values, events) && |start| == |events|
    ensures TagsStand(start + [|keys|], keys, values, events) && Offsets(start + [|keys|], keys)
  {
  }

  lemma {:induction false} SameLengths(records: seq<Record>, events: seq<Event>, authors: seq<Pubkey>,
                                       values: seq<Letter>, kept: seq<bool>)
    requires RecordsStand(records, events, authors, values) && KeptAre(kept, events)
    ensures |records| == |events| == |kept| == |OwnersOf(records, kept)|
  {
  }

  lemma {:induction false} OwnersBelow(records: seq<Record>, kept: seq<bool>, events: seq<Event>,
                                       authors: seq<Pubkey>, values: seq<Letter>)
    requires RecordsStand(records, events, authors, values) && |kept| == |records|
    ensures CountingSort.Below(OwnersOf(records, kept), |authors|)
  {
  }

  lemma {:induction false} DeletedAlike(deletions: seq<(Id, nat)>, authors: seq<Pubkey>,
                                        authorNumbers: map<Pubkey, nat>, values: seq<Letter>, records: seq<Record>,
                                        events: seq<Event>, i: nat)
    requires DeletionsStand(deletions, authors, Deletions(events)) && Numbered(authors, authorNumbers)
    requires RecordsStand(records, events, authors, values) && i < |events|
    ensures (SeenOf(records)[i].id, SeenOf(records)[i].author) in Pairs(deletions) <==>
            (AllSeen(events)[i].id, AllSeen(events)[i].author) in Pairs(Deletions(events))
  {
  }

  /** With ids that determine events, the loader keeps exactly the retained
      events, once each and in import order. */
  lemma {:induction false} LoaderKeepsRetained(events: seq<Event>, kept: seq<bool>)
    requires Determined(events) && KeptAre(kept, events)
    ensures Pick(events, kept) == Retained(events)
  {
    forall i | 0 <= i < |events|
      ensures kept[i] == Flags(events)[i]
    {
      KeptIsSurvivor(events, i);
    }
    assert kept == Flags(events);
  }
}
