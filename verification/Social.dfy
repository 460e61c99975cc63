/**
 The social corpus generator of social.rs, as far as it decides what a relay
 keeps: every generated event is accounted for as it is built, in a counter
 that never looks back at the corpus. `Builder.Next` proves that the counter
 is always the number of events the retention rules keep of everything
 emitted so far.

 Random choices (authors, kinds, text, keys, backdating) are parameters. Ids
 are a hash of the event's fields, injective as a cryptographic hash is taken
 to be; equal events therefore share an id.
 */
module Social {
  import opened Basics
  import opened Retention

  type Hash = (Pubkey, nat, nat, seq<Tag>, string) -> Id

  const NOTE := 1
  const WRAP := 1_059
  const DELETABLE := 4

  /** The publication mix. */
  const KINDS: set<nat> := {7, 1, 0, 3, 10_002, 10_050, 10_000, 1_059, 6, 9_735, 1_111, 30_023, 20, 30_000,
                            10_003, 5, 445, 30_443, 9_802, 1_984, 30_311}
  /** Kinds whose drafts may name a target. */
  const POINTING: set<nat> := {6, 7, 9_735, 1_111, 9_802}
  /** Kinds signed by a key of their own: group messages, wraps and zap receipts. */
  const OWN_KEY: set<nat> := {445, 1_059, 9_735}

  /** The random part of an event. */
  datatype Draft = Draft(tags: seq<Tag>, content: string, ownKey: Pubkey, identifier: string, wrappedAt: nat)

  type Address = (nat, nat, string)

  ghost predicate Injective(hash: Hash) {
    forall p, k, t, tags, c, p', k', t', tags', c' ::
      hash(p, k, t, tags, c) == hash(p', k', t', tags', c') ==>
        p == p' && k == k' && t == t' && tags == tags' && c == c'
  }

  predicate IsHashed(hash: Hash, e: Event) {
    e.id == hash(e.pubkey, e.kind, e.createdAt, e.tags, e.content)
  }

  // ------------------------------------------------------------------
  // How one more event changes what is kept
  // ------------------------------------------------------------------

  /** The survivors of `all` among themselves. */
  ghost function Live(all: set<Event>): set<Event> {
    set e | e in all && Survives(all, e)
  }

  lemma {:induction false} SizeOfDistinct(s: seq<Event>)
    requires forall i, j :: 0 <= i < j < |s| ==> s[i] != s[j]
    ensures |SetOf(s)| == |s|
  {
    if s != [] {
      var n := |s| - 1;
      SizeOfDistinct(s[..n]);
      assert SetOf(s) == SetOf(s[..n]) + {s[n]};
    }
  }

  lemma {:induction false} RetainedSize(events: seq<Event>)
    ensures |Retained(events)| == |Live(SetOf(events))|
  {
    RetainedContents(events);
    RetainedDistinct(events);
    SizeOfDistinct(Retained(events));
    assert SetOf(Retained(events)) == Live(SetOf(events));
  }

  /** A regular event with a new id that no deletion names joins what is kept. */
  lemma {:induction false} RegularJoins(all: set<Event>, e: Event)
    requires e !in all && !Ephemeral(e.kind) && !Versioned(e.kind) && e.kind != DELETION
    requires forall d :: d in all ==> !Deletes(d, e)
    ensures Live(all + {e}) == Live(all) + {e} && |Live(all + {e})| == |Live(all)| + 1
  {
    assert Live(all + {e}) == Live(all) + {e};
  }

  /** A deletion joins what is kept, and takes out the one event it names. */
  lemma {:induction false} DeletionReplaces(all: set<Event>, d: Event, target: Event)
    requires d !in all && d.kind == DELETION && Targets(d) == {target.id}
    requires target in all && target.kind != DELETION && target.pubkey == d.pubkey
    requires forall o :: o in all && o.id == target.id ==> o == target
    ensures Live(all + {d}) == Live(all) - {target} + {d}
  {
  }

  /** A later version joins what is kept and takes out the version it beats. */
  lemma {:induction false} VersionReplaces(all: set<Event>, e: Event)
    requires e !in all && Versioned(e.kind) && Targets(e) == {}
    requires forall d :: d in all ==> !Deletes(d, e)
    requires forall o :: o in all && SameAddress(o, e) ==> AsSeen(e).Supersedes(AsSeen(o))
    ensures Live(all + {e}) == (set o | o in Live(all) && !SameAddress(o, e)) + {e}
  {
  }

  // ------------------------------------------------------------------
  // What the builder's fields record of the events emitted so far
  // ------------------------------------------------------------------

  /** The current second's ids tell a repeated regular event from a new one. */
  ghost predicate Seconds(all: set<Event>, second: nat, ids: set<Id>) {
    && (forall id :: id in ids ==> exists e :: e in all && e.id == id)
    && (forall e :: e in all && !Versioned(e.kind) && e.kind != WRAP ==>
          e.createdAt <= second && (e.createdAt == second ==> e.id in ids))
  }

  /** `id` is a regular event of `author` that no deletion names. */
  ghost predicate Intact(all: set<Event>, author: Pubkey, id: Id) {
    && (exists e :: e in all && e.id == id && e.pubkey == author && !Versioned(e.kind) && e.kind != DELETION)
    && (forall d :: d in all ==> id !in Targets(d))
  }

  /** The events a later deletion may name. */
  ghost predicate Nameable(pubkeys: seq<Pubkey>, all: set<Event>, deletable: map<nat, seq<Id>>) {
    forall a :: a in deletable ==>
      && a < |pubkeys|
      && (forall i, j :: 0 <= i < j < |deletable[a]| ==> deletable[a][i] != deletable[a][j])
      && (forall i :: 0 <= i < |deletable[a]| ==> Intact(all, pubkeys[a], deletable[a][i]))
  }

  /** Deletions name emitted regular events. */
  ghost predicate NamesRegular(all: set<Event>) {
    forall d, id :: d in all && id in Targets(d) ==> exists e :: e in all && e.id == id && !Versioned(e.kind)
  }

  /** `rank` numbers the authors' keys, as `pubkeys` lists them. */
  ghost predicate Ranks(pubkeys: seq<Pubkey>, rank: map<Pubkey, nat>) {
    && (forall a :: 0 <= a < |pubkeys| ==> pubkeys[a] in rank && rank[pubkeys[a]] == a)
    && (forall p :: p in rank ==> rank[p] < |pubkeys| && pubkeys[rank[p]] == p)
  }

  ghost predicate HasKey(rank: map<Pubkey, nat>, e: Event) {
    e.pubkey in rank && Identifier(e).Text?
  }

  ghost function KeyOf(rank: map<Pubkey, nat>, e: Event): Address
    requires HasKey(rank, e)
  {
    (rank[e.pubkey], e.kind, Identifier(e).text)
  }

  /** `best` is each address's latest version, at the recorded time; every
      other version is strictly older. */
  ghost predicate Latest(rank: map<Pubkey, nat>, all: set<Event>, addresses: map<Address, nat>,
                         best: map<Address, Event>) {
    && best.Keys == addresses.Keys
    && (forall key :: key in best ==>
          && best[key] in all && Versioned(best[key].kind) && HasKey(rank, best[key])
          && KeyOf(rank, best[key]) == key && best[key].createdAt == addresses[key])
    && (forall e :: e in all && Versioned(e.kind) ==>
          && HasKey(rank, e) && KeyOf(rank, e) in best
          && (e.createdAt < addresses[KeyOf(rank, e)] || e == best[KeyOf(rank, e)]))
  }

  ghost predicate Hashed(hash: Hash, all: set<Event>) {
    forall e :: e in all ==> IsHashed(hash, e) && !Ephemeral(e.kind)
  }

  /** A regular event whose id the current second has not seen is new. */
  lemma {:induction false} UnseenIsNew(hash: Hash, all: set<Event>, second: nat, ids: set<Id>, e: Event)
    requires Injective(hash) && Hashed(hash, all) && Seconds(all, second, ids) && IsHashed(hash, e)
    requires !Versioned(e.kind) && e.id !in ids
    requires if e.kind == WRAP then (forall o :: o in all ==> o.content != e.content) else e.createdAt == second
    ensures forall o :: o in all ==> o.id != e.id
  {
  }

  lemma {:induction false} SeenIsRepeated(hash: Hash, all: set<Event>, second: nat, ids: set<Id>, e: Event)
    requires Injective(hash) && Hashed(hash, all) && Seconds(all, second, ids) && IsHashed(hash, e)
    requires e.id in ids
    ensures e in all
  {
  }

  /** Nothing yet emitted names an event that is new. */
  lemma {:induction false} NewIsUnnamed(all: set<Event>, e: Event)
    requires NamesRegular(all) && forall o :: o in all ==> o.id != e.id
    ensures forall d :: d in all ==> e.id !in Targets(d)
  {
  }

  lemma {:induction false} SameKeySameAddress(pubkeys: seq<Pubkey>, rank: map<Pubkey, nat>, e: Event, o: Event)
    requires Ranks(pubkeys, rank) && HasKey(rank, e) && HasKey(rank, o)
    ensures KeyOf(rank, e) == KeyOf(rank, o) <==> SameAddress(e, o)
  {
  }

  /** A version later than the recorded time beats every earlier version. */
  lemma {:induction false} LaterBeatsAll(pubkeys: seq<Pubkey>, rank: map<Pubkey, nat>, all: set<Event>,
                                         addresses: map<Address, nat>, best: map<Address, Event>, e: Event)
    requires Ranks(pubkeys, rank) && Latest(rank, all, addresses, best)
    requires Versioned(e.kind) && HasKey(rank, e)
    requires KeyOf(rank, e) in addresses ==> addresses[KeyOf(rank, e)] < e.createdAt
    ensures forall o :: o in all && SameAddress(o, e) ==>
      KeyOf(rank, e) in addresses && AsSeen(e).Supersedes(AsSeen(o))
  {
  }

  lemma {:induction false} LatestStep(rank: map<Pubkey, nat>, all: set<Event>, addresses: map<Address, nat>,
                                      best: map<Address, Event>, e: Event)
    requires Latest(rank, all, addresses, best)
    requires Versioned(e.kind) && HasKey(rank, e)
    requires KeyOf(rank, e) in addresses ==> addresses[KeyOf(rank, e)] < e.createdAt
    ensures Latest(rank, all + {e}, addresses[KeyOf(rank, e) := e.createdAt], best[KeyOf(rank, e) := e])
  {
  }

  /** Of the versions of a recorded address exactly one, the latest, is kept. */
  lemma {:induction false} OneLiveVersion(pubkeys: seq<Pubkey>, rank: map<Pubkey, nat>, all: set<Event>,
                                          addresses: map<Address, nat>, best: map<Address, Event>, key: Address)
    requires Ranks(pubkeys, rank) && Latest(rank, all, addresses, best) && NamesRegular(all) && key in best
    requires forall e, o :: e in all && o in all && e.id == o.id ==> e == o
    ensures best[key] in Live(all)
    ensures forall o :: o in Live(all) && SameAddress(o, best[key]) ==> o == best[key]
  {
  }

  /** Replacing a kept version leaves the number of kept events as it was. */
  lemma {:induction false} ReplacementSize(live: set<Event>, beaten: Event, e: Event)
    requires beaten in live && e !in live
    requires forall o :: o in live && SameAddress(o, e) <==> o == beaten
    ensures |(set o | o in live && !SameAddress(o, e)) + {e}| == |live|
  {
    assert (set o | o in live && !SameAddress(o, e)) == live - {beaten};
  }

  lemma {:induction false} IntactStep(all: set<Event>, author: Pubkey, id: Id, e: Event)
    requires Intact(all, author, id) && id !in Targets(e)
    ensures Intact(all + {e}, author, id)
  {
  }

  lemma {:induction false} RegularIsIntact(all: set<Event>, e: Event)
    requires !Versioned(e.kind) && e.kind != DELETION && forall d :: d in all ==> e.id !in Targets(d)
    ensures Targets(e) == {} && Intact(all + {e}, e.pubkey, e.id)
  {
    assert e in all + {e};
  }

  lemma {:induction false} NameableStep(pubkeys: seq<Pubkey>, all: set<Event>, deletable: map<nat, seq<Id>>, e: Event)
    requires Nameable(pubkeys, all, deletable) && Targets(e) == {}
    ensures Nameable(pubkeys, all + {e}, deletable)
  {
    forall a, i | a in deletable && 0 <= i < |deletable[a]|
      ensures Intact(all + {e}, pubkeys[a], deletable[a][i])
    {
      IntactStep(all, pubkeys[a], deletable[a][i], e);
    }
  }

  lemma {:induction false} HashedStep(hash: Hash, all: set<Event>, e: Event)
    requires Hashed(hash, all) && IsHashed(hash, e) && !Ephemeral(e.kind)
    ensures Hashed(hash, all + {e})
  {
  }

  lemma {:induction false} LatestStays(rank: map<Pubkey, nat>, all: set<Event>, addresses: map<Address, nat>,
                                       best: map<Address, Event>, e: Event)
    requires Latest(rank, all, addresses, best) && !Versioned(e.kind)
    ensures Latest(rank, all + {e}, addresses, best)
  {
  }

  lemma {:induction false} NamesRegularStep(all: set<Event>, e: Event)
    requires NamesRegular(all)
    requires forall id :: id in Targets(e) ==> exists o :: o in all && o.id == id && !Versioned(o.kind)
    ensures NamesRegular(all + {e})
  {
  }

  lemma {:induction false} SecondsStep(all: set<Event>, second: nat, ids: set<Id>, e: Event)
    requires Seconds(all, second, ids)
    requires e.kind != WRAP && !Versioned(e.kind) ==> e.createdAt == second
    ensures Seconds(all + {e}, second, if Versioned(e.kind) then ids else ids + {e.id})
  {
  }

  /** What the builder's fields record of `all`, the events emitted so far. */
  ghost predicate Records(hash: Hash, pubkeys: seq<Pubkey>, rank: map<Pubkey, nat>, all: set<Event>, second: nat,
                          ids: set<Id>, deletable: map<nat, seq<Id>>, addresses: map<Address, nat>,
                          best: map<Address, Event>)
  {
    && Injective(hash) && Ranks(pubkeys, rank)
    && Hashed(hash, all)
    && Seconds(all, second, ids)
    && Nameable(pubkeys, all, deletable)
    && NamesRegular(all)
    && Latest(rank, all, addresses, best)
  }

  /** The queue of one author's deletable events after one more. */
  function Enqueue(deletable: map<nat, seq<Id>>, author: nat, id: Id): map<nat, seq<Id>> {
    var ids := (if author in deletable then deletable[author] else []) + [id];
    deletable[author := if |ids| > DELETABLE then ids[1..] else ids]
  }

  lemma {:induction false} EnqueueNameable(pubkeys: seq<Pubkey>, all: set<Event>, deletable: map<nat, seq<Id>>,
                                           author: nat, e: Event)
    requires Nameable(pubkeys, all, deletable) && author < |pubkeys|
    requires forall o :: o in all ==> o.id != e.id
    requires Intact(all + {e}, pubkeys[author], e.id) && Targets(e) == {}
    ensures Nameable(pubkeys, all + {e}, Enqueue(deletable, author, e.id))
  {
    forall a, i | a in deletable && 0 <= i < |deletable[a]|
      ensures Intact(all + {e}, pubkeys[a], deletable[a][i]) && deletable[a][i] != e.id
    {
      IntactStep(all, pubkeys[a], deletable[a][i], e);
      var id := deletable[a][i];
      assert exists o :: o in all && o.id == id;
    }
    var next := Enqueue(deletable, author, e.id);
    var ids := (if author in deletable then deletable[author] else []) + [e.id];
    assert next[author] == ids || next[author] == ids[1..];
  }

  /** A new regular event: one more kept. */
  lemma {:induction false} RegularStep(hash: Hash, pubkeys: seq<Pubkey>, rank: map<Pubkey, nat>, all: set<Event>,
                                       second: nat, ids: set<Id>, deletable: map<nat, seq<Id>>,
                                       addresses: map<Address, nat>, best: map<Address, Event>, author: nat, e: Event)
    requires Records(hash, pubkeys, rank, all, second, ids, deletable, addresses, best)
    requires IsHashed(hash, e) && !Ephemeral(e.kind) && !Versioned(e.kind) && e.kind != DELETION && e.id !in ids
    requires if e.kind == WRAP then (forall o :: o in all ==> o.content != e.content) else e.createdAt == second
    requires author < |pubkeys|
    ensures Records(hash, pubkeys, rank, all + {e}, second, ids + {e.id}, deletable, addresses, best)
    ensures e.pubkey == pubkeys[author] ==>
      Records(hash, pubkeys, rank, all + {e}, second, ids + {e.id}, Enqueue(deletable, author, e.id), addresses, best)
    ensures |Live(all + {e})| == |Live(all)| + 1
  {
    hide Seconds, Intact, Nameable, NamesRegular, Latest, Hashed, Injective, IsHashed, Ranks, Live, Targets, Enqueue;
    UnseenIsNew(hash, all, second, ids, e);
    NewIsUnnamed(all, e);
    RegularIsIntact(all, e);
    RegularJoins(all, e);
    SecondsStep(all, second, ids, e);
    NamesRegularStep(all, e);
    HashedStep(hash, all, e);
    LatestStays(rank, all, addresses, best, e);
    NameableStep(pubkeys, all, deletable, e);
    if e.pubkey == pubkeys[author] {
      EnqueueNameable(pubkeys, all, deletable, author, e);
    }
  }

  /** No event is deleted twice, so a deletion is never a repeat. */
  lemma {:induction false} DeletionIsNew(hash: Hash, pubkeys: seq<Pubkey>, all: set<Event>, second: nat, ids: set<Id>,
                                         deletable: map<nat, seq<Id>>, author: nat, d: Event)
    requires Injective(hash) && Hashed(hash, all) && Seconds(all, second, ids) && Nameable(pubkeys, all, deletable)
    requires IsHashed(hash, d) && author in deletable && deletable[author] != []
    requires Targets(d) == {deletable[author][|deletable[author]| - 1]}
    ensures d.id !in ids
  {
  }

  /** A deletion of an intact event: one more kept, one fewer. */
  lemma {:induction false} DeletionStep(hash: Hash, pubkeys: seq<Pubkey>, rank: map<Pubkey, nat>, all: set<Event>,
                                        second: nat, ids: set<Id>, deletable: map<nat, seq<Id>>,
                                        addresses: map<Address, nat>, best: map<Address, Event>, author: nat,
                                        d: Event)
    requires Records(hash, pubkeys, rank, all, second, ids, deletable, addresses, best)
    requires IsHashed(hash, d) && d.kind == DELETION && d.createdAt == second
    requires author in deletable && deletable[author] != [] && d.pubkey == pubkeys[author]
    requires Targets(d) == {deletable[author][|deletable[author]| - 1]}
    ensures Records(hash, pubkeys, rank, all + {d}, second, ids + {d.id},
                    deletable[author := deletable[author][..|deletable[author]| - 1]], addresses, best)
    ensures |Live(all + {d})| == |Live(all)|
  {
    UniqueIds(hash, all);
    DeletionIsNew(hash, pubkeys, all, second, ids, deletable, author, d);
    UnseenIsNew(hash, all, second, ids, d);
    DeletionCount(hash, all, pubkeys[author], deletable[author][|deletable[author]| - 1], d);
    SecondsStep(all, second, ids, d);
    DequeueNameable(pubkeys, rank, all, deletable, author, d);
  }

  lemma {:induction false} DeletionCount(hash: Hash, all: set<Event>, author: Pubkey, id: Id, d: Event)
    requires Hashed(hash, all) && NamesRegular(all) && Intact(all, author, id)
    requires forall e, o :: e in all && o in all && e.id == o.id ==> e == o
    requires d !in all && d.kind == DELETION && d.pubkey == author && Targets(d) == {id}
    ensures |Live(all + {d})| == |Live(all)|
    ensures NamesRegular(all + {d})
  {
    var target :| target in all && target.id == id && target.pubkey == author && !Versioned(target.kind) &&
      target.kind != DELETION;
    DeletionReplaces(all, d, target);
    assert Survives(all, target);
    NamesRegularStep(all, d);
  }

  lemma {:induction false} DequeueNameable(pubkeys: seq<Pubkey>, rank: map<Pubkey, nat>, all: set<Event>,
                                           deletable: map<nat, seq<Id>>, author: nat, d: Event)
    requires Ranks(pubkeys, rank) && Nameable(pubkeys, all, deletable)
    requires forall e, o :: e in all && o in all && e.id == o.id ==> e == o
    requires author in deletable && deletable[author] != []
    requires Targets(d) == {deletable[author][|deletable[author]| - 1]}
    ensures Nameable(pubkeys, all + {d}, deletable[author := deletable[author][..|deletable[author]| - 1]])
  {
  }

  lemma {:induction false} UniqueIds(hash: Hash, all: set<Event>)
    requires Injective(hash) && Hashed(hash, all)
    ensures forall e, o :: e in all && o in all && e.id == o.id ==> e == o
  {
  }

  /** A new version: one more kept if it is its address's first. */
  lemma {:induction false} VersionStep(hash: Hash, pubkeys: seq<Pubkey>, rank: map<Pubkey, nat>, all: set<Event>,
                                       second: nat, ids: set<Id>, deletable: map<nat, seq<Id>>,
                                       addresses: map<Address, nat>, best: map<Address, Event>, e: Event)
    requires Records(hash, pubkeys, rank, all, second, ids, deletable, addresses, best)
    requires IsHashed(hash, e) && Versioned(e.kind) && HasKey(rank, e)
    requires KeyOf(rank, e) in addresses ==> addresses[KeyOf(rank, e)] < e.createdAt
    ensures Records(hash, pubkeys, rank, all + {e}, second, ids, deletable,
                    addresses[KeyOf(rank, e) := e.createdAt], best[KeyOf(rank, e) := e])
    ensures |Live(all + {e})| == |Live(all)| + (if KeyOf(rank, e) in addresses then 0 else 1)
  {
    LatestStep(rank, all, addresses, best, e);
    SecondsStep(all, second, ids, e);
    NamesRegularStep(all, e);
    forall a, i | a in deletable && 0 <= i < |deletable[a]|
      ensures Intact(all + {e}, pubkeys[a], deletable[a][i])
    {
      IntactStep(all, pubkeys[a], deletable[a][i], e);
    }
    VersionCount(hash, pubkeys, rank, all, addresses, best, e);
  }

  lemma {:induction false} VersionCount(hash: Hash, pubkeys: seq<Pubkey>, rank: map<Pubkey, nat>, all: set<Event>,
                                        addresses: map<Address, nat>, best: map<Address, Event>, e: Event)
    requires Injective(hash) && Ranks(pubkeys, rank) && Hashed(hash, all) && NamesRegular(all)
    requires Latest(rank, all, addresses, best)
    requires IsHashed(hash, e) && Versioned(e.kind) && HasKey(rank, e)
    requires KeyOf(rank, e) in addresses ==> addresses[KeyOf(rank, e)] < e.createdAt
    ensures |Live(all + {e})| == |Live(all)| + (if KeyOf(rank, e) in addresses then 0 else 1)
  {
    var key := KeyOf(rank, e);
    LaterBeatsAll(pubkeys, rank, all, addresses, best, e);
    assert e !in all by {
      assert SameAddress(e, e) && !AsSeen(e).Supersedes(AsSeen(e));
    }
    UnnamedVersion(hash, all, e);
    VersionReplaces(all, e);
    if key in addresses {
      UniqueIds(hash, all);
      SameKeySameAddress(pubkeys, rank, best[key], e);
      OneLiveVersion(pubkeys, rank, all, addresses, best, key);
      assert forall o :: SameAddress(o, e) <==> SameAddress(o, best[key]);
      ReplacementSize(Live(all), best[key], e);
    } else {
      assert (set o | o in Live(all) && !SameAddress(o, e)) == Live(all);
    }
  }

  lemma {:induction false} UnnamedVersion(hash: Hash, all: set<Event>, e: Event)
    requires Injective(hash) && Hashed(hash, all) && NamesRegular(all) && IsHashed(hash, e) && Versioned(e.kind)
    ensures forall d :: d in all ==> !Deletes(d, e)
  {
  }

  /** The `e` tags of a deletion, one decrement each. */
  function ETags(tags: seq<Tag>): nat {
    if tags == [] then 0 else ETags(tags[..|tags| - 1]) + (if tags[|tags| - 1].name == "e" then 1 else 0)
  }

  // ------------------------------------------------------------------
  // Which event comes next
  // ------------------------------------------------------------------

  predicate NothingToDelete(deletable: map<nat, seq<Id>>, author: nat) {
    author !in deletable || deletable[author] == []
  }

  /** The picked kind, or a note where that kind has nothing to point at. */
  predicate KindOf(deletable: map<nat, seq<Id>>, author: nat, picked: nat, hasTarget: bool, kind: nat) {
    if picked in POINTING then kind == if hasTarget then picked else NOTE
    else if picked == DELETION then kind == if NothingToDelete(deletable, author) then NOTE else DELETION
    else kind == picked
  }

  /** A version comes at its second, or right after the last one of its
      address, and after all of them. */
  ghost predicate AfterVersions(all: set<Event>, second: nat, e: Event) {
    && second <= e.createdAt
    && (forall o :: o in all && SameAddress(o, e) ==> o.createdAt < e.createdAt)
    && (e.createdAt == second || exists o :: o in all && SameAddress(o, e) && e.createdAt == o.createdAt + 1)
  }

  /** It is the only thing named, its author's, regular and kept so far. */
  ghost predicate NamesKept(all: set<Event>, e: Event) {
    exists o ::
      && o in Live(all) && o.pubkey == e.pubkey && !Versioned(o.kind) && o.kind != DELETION
      && e.tags == [Tag("e", Some(Hex(o.id)))]
  }

  /** What the draft and the builder say of an event. */
  ghost predicate Made(all: set<Event>, second: nat, pubkey: Pubkey, draft: Draft, e: Event) {
    && e.pubkey == (if e.kind in OWN_KEY then draft.ownKey else pubkey)
    && e.content == (if e.kind == DELETION then "" else draft.content)
    && (Versioned(e.kind) ==> AfterVersions(all, second, e))
    && (!Versioned(e.kind) ==> e.createdAt == if e.kind == WRAP then draft.wrappedAt else second)
    && (Addressable(e.kind) ==> Identifier(e) == Text(draft.identifier))
    && (e.kind == DELETION ==> NamesKept(all, e))
    && (e.kind != DELETION ==> draft.tags == if Addressable(e.kind) && e.tags != [] then e.tags[1..] else e.tags)
  }

  /** What the author may delete next: a deletion takes the last, and a new
      regular event of the author's own key joins at the end. */
  ghost predicate Queued(before: map<nat, seq<Id>>, after: map<nat, seq<Id>>, all: set<Event>, author: nat, e: Event) {
    if e.kind == DELETION then
      && author in before && before[author] != []
      && e.tags == [Tag("e", Some(Hex(before[author][|before[author]| - 1])))]
      && after == before[author := before[author][..|before[author]| - 1]]
    else if !Versioned(e.kind) && e.kind !in OWN_KEY && e !in all then
      after == Enqueue(before, author, e.id)
    else after == before
  }

  /** The newest of the author's events is at the end of a queue, which loses
      nothing but its oldest when it is full. */
  lemma {:induction false} EnqueueHolds(deletable: map<nat, seq<Id>>, author: nat, id: Id)
    requires author in deletable ==> |deletable[author]| <= DELETABLE
    ensures
      var was := if author in deletable then deletable[author] else [];
      var queue := Enqueue(deletable, author, id)[author];
      && |queue| == Min(|was| + 1, DELETABLE) && queue[|queue| - 1] == id
      && queue[..|queue| - 1] == was[|was| + 1 - |queue|..]
    ensures Enqueue(deletable, author, id) - {author} == deletable - {author}
  {
  }

  lemma {:induction false} IntactIsLive(hash: Hash, all: set<Event>, author: Pubkey, id: Id)
    requires Hashed(hash, all) && Intact(all, author, id)
    ensures exists o :: o in Live(all) && o.id == id && o.pubkey == author && !Versioned(o.kind) && o.kind != DELETION
  {
    var o :| o in all && o.id == id && o.pubkey == author && !Versioned(o.kind) && o.kind != DELETION;
    assert o in Live(all);
  }

  lemma {:induction false} DeletionIsMade(hash: Hash, all: set<Event>, second: nat, author: Pubkey, id: Id,
                                          draft: Draft, e: Event)
    requires Hashed(hash, all) && Intact(all, author, id)
    requires e.kind == DELETION && e.pubkey == author && e.createdAt == second && e.content == ""
    requires e.tags == [Tag("e", Some(Hex(id)))]
    ensures Made(all, second, author, draft, e)
  {
    hide Intact, Hashed, Live;
    IntactIsLive(hash, all, author, id);
  }

  lemma {:induction false} VersionIsAfter(pubkeys: seq<Pubkey>, rank: map<Pubkey, nat>, all: set<Event>,
                                          addresses: map<Address, nat>, best: map<Address, Event>, second: nat,
                                          e: Event)
    requires Ranks(pubkeys, rank) && Latest(rank, all, addresses, best) && Versioned(e.kind) && HasKey(rank, e)
    requires
      var key := KeyOf(rank, e);
      e.createdAt == if key in addresses then Max(second, addresses[key] + 1) else second
    ensures AfterVersions(all, second, e)
  {
    forall o | o in all && SameAddress(o, e)
      ensures o.createdAt < e.createdAt
    {
      SameKeySameAddress(pubkeys, rank, o, e);
    }
    var key := KeyOf(rank, e);
    if e.createdAt != second {
      SameKeySameAddress(pubkeys, rank, best[key], e);
      assert best[key] in all && e.createdAt == best[key].createdAt + 1;
    }
  }

  class Builder {
    const hash: Hash
    const pubkeys: seq<Pubkey>
    var second: nat
    var secondIds: set<Id>
    var deletable: map<nat, seq<Id>>
    var addresses: map<Address, nat>
    var retained: nat

    ghost const rank: map<Pubkey, nat>
    ghost var best: map<Address, Event>
    ghost var emitted: seq<Event>

    ghost function All(): set<Event>
      reads this
    {
      SetOf(emitted)
    }

    ghost predicate Valid()
      reads this
    {
      && Records(hash, pubkeys, rank, All(), second, secondIds, deletable, addresses, best)
      && retained == |Live(All())|
    }

    constructor (hash: Hash, pubkeys: seq<Pubkey>, ghost rank: map<Pubkey, nat>)
      requires Injective(hash) && Ranks(pubkeys, rank)
      ensures Valid() && emitted == [] && retained == 0 && second == 0
    {
      this.hash, this.pubkeys, this.rank := hash, pubkeys, rank;
      second, secondIds, deletable, addresses, retained := 0, {}, map[], map[], 0;
      best, emitted := map[], [];
      new;
      assert Live(All()) == {};
    }

    /** Moves an address to a time past its last one; a new address is one
        more retained event. */
    method Replace(author: nat, kind: nat, identifier: string, createdAt: nat) returns (at: nat)
      modifies this`addresses, this`retained
      ensures addresses == old(addresses)[(author, kind, identifier) := at]
      ensures (author, kind, identifier) in old(addresses) ==>
        && at == Max(createdAt, old(addresses)[(author, kind, identifier)] + 1)
        && retained == old(retained)
      ensures (author, kind, identifier) !in old(addresses) ==> at == createdAt && retained == old(retained) + 1
    {
      var key := (author, kind, identifier);
      if key in addresses {
        at := Max(createdAt, addresses[key] + 1);
      } else {
        retained := retained + 1;
        at := createdAt;
      }
      addresses := addresses[key := at];
    }

    /** Tags naming the author's latest deletable event, which no later deletion may name. */
    method Deletion(author: nat) returns (tags: seq<Tag>)
      requires author in deletable && deletable[author] != []
      modifies this`deletable
      ensures var ids := old(deletable)[author];
        && tags == [Tag("e", Some(Hex(ids[|ids| - 1])))]
        && deletable == old(deletable)[author := ids[..|ids| - 1]]
    {
      var ids := deletable[author];
      tags := [Tag("e", Some(Hex(ids[|ids| - 1])))];
      deletable := deletable[author := ids[..|ids| - 1]];
    }

    /** Books a regular event or a deletion, unless its id repeats; `retained`
        moves as the size of `Live` does. */
    method Account(author: nat, byAuthor: bool, e: Event)
      requires e.kind == DELETION ==> ETags(e.tags) <= retained + 1
      modifies this`secondIds, this`retained, this`deletable
      ensures Versioned(e.kind) || e.id in old(secondIds) ==>
        secondIds == old(secondIds) && retained == old(retained) && deletable == old(deletable)
      ensures !Versioned(e.kind) && e.id !in old(secondIds) ==>
        && secondIds == old(secondIds) + {e.id}
        && retained == old(retained) + 1 - (if e.kind == DELETION then ETags(e.tags) else 0)
        && deletable == if byAuthor && e.kind != DELETION then Enqueue(old(deletable), author, e.id) else old(deletable)
    {
      if Versioned(e.kind) || e.id in secondIds {
        return;
      }
      secondIds := secondIds + {e.id};
      retained := retained + 1;
      if e.kind == DELETION {
        for i := 0 to |e.tags|
          invariant secondIds == old(secondIds) + {e.id} && deletable == old(deletable)
          invariant ETags(e.tags[..i]) <= ETags(e.tags)
          invariant retained == old(retained) + 1 - ETags(e.tags[..i])
        {
          assert e.tags[..i + 1][..i] == e.tags[..i];
          ETagsPrefix(e.tags, i + 1);
          if e.tags[i].name == "e" {
            retained := retained - 1;
          }
        }
        assert e.tags[..|e.tags|] == e.tags;
      }
      if byAuthor && e.kind != DELETION {
        deletable := Enqueue(deletable, author, e.id);
      }
    }

    /** Record an event the accounting already covers. */
    ghost method Emit(e: Event)
      requires Records(hash, pubkeys, rank, All() + {e}, second, secondIds, deletable, addresses, best)
      requires retained == |Live(All() + {e})|
      modifies this`emitted
      ensures Valid() && emitted == old(emitted) + [e]
    {
      emitted := emitted + [e];
      assert All() == old(All()) + {e};
    }

    /** Emits a versioned event later than all others of its address. */
    method NextVersion(author: nat, kind: nat, draft: Draft) returns (e: Event)
      requires Valid() && author < |pubkeys| && Versioned(kind)
      modifies this
      ensures Valid() && emitted == old(emitted) + [e] && second == old(second)
      ensures e.kind == kind && Made(SetOf(old(emitted)), second, pubkeys[author], draft, e)
      ensures Queued(old(deletable), deletable, SetOf(old(emitted)), author, e)
    {
      hide Seconds, Nameable, NamesRegular, Latest, Hashed, Injective, Live, AfterVersions, NamesKept;
      ghost var all, book := All(), addresses;
      var identifier := if Addressable(kind) then draft.identifier else "";
      var at := Replace(author, kind, identifier, second);
      var tags := VersionTags(kind, identifier, draft.tags);
      e := Event(hash(pubkeys[author], kind, at, tags, draft.content), pubkeys[author], kind, at, tags, draft.content);
      Account(author, true, e);
      VersionKey(pubkeys, rank, e, author, identifier);
      VersionIsAfter(pubkeys, rank, all, book, best, second, e);
      OwnKeysAreRegular(kind);
      VersionStep(hash, pubkeys, rank, all, second, secondIds, deletable, book, best, e);
      best := best[KeyOf(rank, e) := e];
      Emit(e);
    }

    method NextDeletion(author: nat, ghost draft: Draft) returns (e: Event)
      requires Valid() && author in deletable && deletable[author] != []
      modifies this
      ensures Valid() && emitted == old(emitted) + [e] && second == old(second) && author < |pubkeys|
      ensures e.kind == DELETION && Made(SetOf(old(emitted)), second, pubkeys[author], draft, e)
      ensures Queued(old(deletable), deletable, SetOf(old(emitted)), author, e)
    {
      hide Seconds, Intact, NamesRegular, Latest, Hashed, Injective, Live, AfterVersions, NamesKept, Targets, Made;
      ghost var all, ids, queues := All(), secondIds, deletable;
      var tags := Deletion(author);
      e := Event(hash(pubkeys[author], DELETION, second, tags, ""), pubkeys[author], DELETION, second, tags, "");
      OneTarget(e, queues[author][|queues[author]| - 1]);
      DeletionIsMade(hash, all, second, pubkeys[author], queues[author][|queues[author]| - 1], draft, e);
      DeletionIsNew(hash, pubkeys, all, second, ids, queues, author, e);
      Account(author, true, e);
      assert secondIds == ids + {e.id} && retained == old(retained) && All() == all;
      DeletionStep(hash, pubkeys, rank, all, second, ids, queues, addresses, best, author, e);
      Emit(e);
    }

    /** Every other kind; an event identical to one of this second counts once. */
    method NextRegular(author: nat, kind: nat, draft: Draft) returns (e: Event)
      requires Valid() && author < |pubkeys| && !Versioned(kind) && !Ephemeral(kind) && kind != DELETION
      requires kind == WRAP ==> forall o :: o in emitted ==> o.content != draft.content
      modifies this
      ensures Valid() && emitted == old(emitted) + [e] && second == old(second)
      ensures e.kind == kind && Made(SetOf(old(emitted)), second, pubkeys[author], draft, e)
      ensures Queued(old(deletable), deletable, SetOf(old(emitted)), author, e)
    {
      hide Seconds, Nameable, NamesRegular, Latest, Hashed, Injective, Live, AfterVersions, NamesKept;
      var own := kind in OWN_KEY;
      var pubkey := if own then draft.ownKey else pubkeys[author];
      var at := if kind == WRAP then draft.wrappedAt else second;
      e := Event(hash(pubkey, kind, at, draft.tags, draft.content), pubkey, kind, at, draft.tags, draft.content);
      if e.id in secondIds {
        SeenIsRepeated(hash, All(), second, secondIds, e);
        assert All() + {e} == All();
      } else {
        UnseenIsNew(hash, All(), second, secondIds, e);
        RegularStep(hash, pubkeys, rank, All(), second, secondIds, deletable, addresses, best, author, e);
      }
      Account(author, !own, e);
      Emit(e);
    }

    /** The clock moves on; a new second has no ids yet. */
    method Tick(createdAt: nat)
      requires Valid() && second <= createdAt
      modifies this`second, this`secondIds
      ensures Valid() && second == createdAt
      ensures secondIds == if createdAt == old(second) then old(secondIds) else {}
    {
      hide Intact, Nameable, NamesRegular, Latest, Hashed, Injective, Live;
      if createdAt != second {
        second := createdAt;
        secondIds := {};
      }
    }

    /** Emits one event and keeps the books: `retained` stays the size of
        `Live`. `hasTarget` says whether a kind of `POINTING` found something
        to name. The preconditions are what the caller's clock and random
        content give. */
    method Next(createdAt: nat, author: nat, picked: nat, hasTarget: bool, draft: Draft) returns (e: Event)
      requires Valid()
      requires second <= createdAt && author < |pubkeys| && picked in KINDS
      requires picked == WRAP ==> forall o :: o in emitted ==> o.content != draft.content
      modifies this
      ensures Valid()
      ensures emitted == old(emitted) + [e] && second == createdAt
      ensures retained == |Retained(emitted)|
      ensures KindOf(old(deletable), author, picked, hasTarget, e.kind)
      ensures Made(SetOf(old(emitted)), createdAt, pubkeys[author], draft, e)
      ensures Queued(old(deletable), deletable, SetOf(old(emitted)), author, e)
    {
      hide Records, Live, Made, Queued;
      Tick(createdAt);
      var kind := picked;
      if (kind in POINTING && !hasTarget) || (kind == DELETION && (author !in deletable || deletable[author] == [])) {
        kind := NOTE;
      }
      if Versioned(kind) {
        e := NextVersion(author, kind, draft);
      } else if kind == DELETION {
        e := NextDeletion(author, draft);
      } else {
        e := NextRegular(author, kind, draft);
      }
      RetainedSize(emitted);
    }
  }

  lemma {:induction false} OwnKeysAreRegular(kind: nat)
    requires Versioned(kind)
    ensures kind !in OWN_KEY && kind != DELETION && kind != WRAP
  {
  }

  /** An addressable version carries its identifier as its first tag. */
  function VersionTags(kind: nat, identifier: string, tags: seq<Tag>): seq<Tag> {
    if Addressable(kind) then [Tag("d", Some(Text(identifier)))] + tags else tags
  }

  lemma {:induction false} VersionKey(pubkeys: seq<Pubkey>, rank: map<Pubkey, nat>, e: Event, author: nat,
                                      identifier: string)
    requires Ranks(pubkeys, rank) && author < |pubkeys| && e.pubkey == pubkeys[author]
    requires exists tags :: e.tags == VersionTags(e.kind, identifier, tags)
    requires !Addressable(e.kind) ==> identifier == ""
    ensures HasKey(rank, e) && KeyOf(rank, e) == (author, e.kind, identifier)
  {
  }

  lemma {:induction false} OneTarget(d: Event, id: Id)
    requires d.kind == DELETION && d.tags == [Tag("e", Some(Hex(id)))]
    ensures Targets(d) == {id} && ETags(d.tags) == 1
  {
    assert TagValues(d.tags, "e") == [Hex(id)] by {
      assert TagValues(d.tags[1..], "e") == [];
    }
    assert d.tags[..0] == [];
  }

  lemma {:induction false} ETagsPrefix(tags: seq<Tag>, i: nat)
    requires i <= |tags|
    ensures ETags(tags[..i]) <= ETags(tags)
  {
    if i < |tags| {
      var n := |tags| - 1;
      ETagsPrefix(tags[..n], i);
      assert tags[..n][..i] == tags[..i];
    } else {
      assert tags[..i] == tags;
    }
  }
}
