/**
 `verify_history` of clients.rs for one filter, which checks every item of a
 history alone and then the oldest of its corpus events against the rest.

 `Acceptable` says exactly which histories pass. `HonestNeverMismatch` says
 that whatever a correct relay does (any tie order, any published events
 among the stored ones, catch-up events at the end, its own caps) passes.
 `AcceptedIsHonestIff` says which of the histories that pass a correct relay
 could have sent, and `AgreesWithExpected` that without published events and
 caps the check accepts the replies the corpus oracle accepts, and no others.
 */
module ClientHistory {
  import opened Basics
  import opened Retention
  import opened History

  const U64_MAX: nat := 0xFFFF_FFFF_FFFF_FFFF

  /** One received value. */
  datatype Item = NoId | Item(event: Event)

  /** The corpus, as a list and by id. */
  datatype Oracle = Oracle(events: seq<Event>, byId: map<Id, Event>)
  {
    ghost predicate Valid() {
      && Distinct(events)
      && (forall e :: e in events ==> e.id in byId && byId[e.id] == e)
      && (forall id :: id in byId ==> byId[id] in events && byId[id].id == id)
    }
  }

  type Published = map<Id, Event>

  /** The two limits a relay may apply unasked; see `Quota`. */
  datatype Caps = Caps(filter: nat, req: nat)

  /** A configured cap of 0 means none. */
  function NewCaps(filter: nat, req: nat): Caps {
    var cap := n => if n == 0 then U64_MAX else n;
    Caps(cap(filter), cap(req))
  }

  datatype Reason =
    | EventWithoutId | DoesNotMatch | NotVisible | AlteredCorpus | AlteredPublished | Unknown | Duplicate
    | OverLimit | NotTheNewest | MoreThanMatch | EndedEarly

  datatype Verdict = Complete | Truncated(returned: nat, expected: nat) | Mismatch(reason: Reason)

  function EventStamp(e: Event): Stamp { Stamp(e.createdAt, e.id) }

  /** The first rule an item breaks, if any. */
  function EventProblem(oracle: Oracle, published: Published, matches: Event -> bool, visible: Event -> bool,
                        item: Item)
    : (r: Option<Reason>)
    ensures r.None? <==> Deliverable(oracle, published, matches, visible, item)
    ensures r.Some? ==> Breaks(oracle, published, matches, visible, item, r.value)
  {
    match item
    case NoId => Some(EventWithoutId)
    case Item(e) =>
      if !matches(e) then Some(DoesNotMatch)
      else if !visible(e) then Some(NotVisible)
      else if e.id in oracle.byId then
        if oracle.byId[e.id] != e then Some(AlteredCorpus) else None
      else if e.id in published then
        if published[e.id] != e then Some(AlteredPublished) else None
      else Some(Unknown)
  }

  /** Known, imported or published, unaltered, matching and visible. */
  ghost predicate Deliverable(oracle: Oracle, published: Published, matches: Event -> bool, visible: Event -> bool,
                              item: Item) {
    && item.Item?
    && matches(item.event) && visible(item.event)
    && (if item.event.id in oracle.byId then oracle.byId[item.event.id] == item.event
        else item.event.id in published && published[item.event.id] == item.event)
  }

  /** What an item is reported for. */
  ghost predicate Breaks(oracle: Oracle, published: Published, matches: Event -> bool, visible: Event -> bool,
                         item: Item, reason: Reason) {
    if item.NoId? then reason == EventWithoutId
    else
      var e := item.event;
      match reason
      case DoesNotMatch => !matches(e)
      case NotVisible => matches(e) && !visible(e)
      case AlteredCorpus => matches(e) && visible(e) && e.id in oracle.byId && oracle.byId[e.id] != e
      case AlteredPublished =>
        matches(e) && visible(e) && e.id !in oracle.byId && e.id in published && published[e.id] != e
      case Unknown => matches(e) && visible(e) && e.id !in oracle.byId && e.id !in published
      case _ => false
  }

  /** Every item is deliverable and comes once. */
  ghost predicate Sound(oracle: Oracle, published: Published, matches: Event -> bool, visible: Event -> bool,
                        history: seq<Item>) {
    (forall i :: i in history ==> Deliverable(oracle, published, matches, visible, i)) && Distinct(history)
  }

  /** The first `n` items are sound and the next one is not, for that reason. */
  ghost predicate BreaksAt(oracle: Oracle, published: Published, matches: Event -> bool, visible: Event -> bool,
                           history: seq<Item>, n: nat, reason: Reason) {
    && n < |history| && Sound(oracle, published, matches, visible, history[..n])
    && (|| Breaks(oracle, published, matches, visible, history[n], reason)
        || (reason == Duplicate && Deliverable(oracle, published, matches, visible, history[n])
            && history[n] in history[..n]))
  }

  /** What a mismatch is reported for: the first rule broken, in the order
      item by item, limit, newest, complete. */
  ghost predicate Explains(oracle: Oracle, published: Published, matches: Event -> bool, visible: Event -> bool,
                           limit: Option<nat>, caps: Caps, history: seq<Item>, reason: Reason) {
    if !Sound(oracle, published, matches, visible, history) then
      exists n: nat :: BreaksAt(oracle, published, matches, visible, history, n, reason)
    else
      var all, held := Matching(oracle, matches, visible), CorpusPart(oracle, history);
      if limit.Some? && |held| > limit.value then reason == OverLimit
      else if !NoneNewer(all, held, EventStamp) then reason == NotTheNewest
      else reason == EndedEarly && held != all && |history| < Quota(limit, caps)
  }

  /** The corpus events the filter asks about. */
  ghost function Matching(oracle: Oracle, matches: Event -> bool, visible: Event -> bool): set<Event> {
    set e | e in oracle.events && matches(e) && visible(e)
  }

  /** The corpus events a history holds. */
  ghost function CorpusPart(oracle: Oracle, history: seq<Item>): set<Event> {
    set i | i in history && i.Item? && i.event.id in oracle.byId :: i.event
  }

  lemma {:induction false} CorpusPartStep(oracle: Oracle, history: seq<Item>, item: Item)
    requires item.Item?
    ensures CorpusPart(oracle, history + [item]) ==
      CorpusPart(oracle, history) + if item.event.id in oracle.byId then {item.event} else {}
  {
  }

  /** What the filter's limit and the relay's caps let a relay return. */
  function Quota(limit: Option<nat>, caps: Caps): nat {
    Min(Min(caps.filter, caps.req), match limit case None => caps.filter case Some(l) => l)
  }

  /** The histories that pass: every event is deliverable and comes once, the
      corpus part is within the limit and the newest of its size, and it stops
      short of the matches only where a limit or cap is reached. */
  ghost predicate Acceptable(oracle: Oracle, published: Published, matches: Event -> bool, visible: Event -> bool,
                             limit: Option<nat>, caps: Caps, history: seq<Item>)
  {
    var all, held := Matching(oracle, matches, visible), CorpusPart(oracle, history);
    && (forall i :: i in history ==> Deliverable(oracle, published, matches, visible, i))
    && Distinct(history)
    && (limit.Some? ==> |held| <= limit.value)
    && NoneNewer(all, held, EventStamp)
    && (held == all || |history| >= Quota(limit, caps))
  }

  lemma {:induction false} NothingNewerMissing(expected: seq<Event>, held: set<Event>, boundary: nat, e: Event)
    requires Sorted(expected, EventStamp)
    requires held <= SetOf(expected) && 0 < |held| <= |expected| && boundary == expected[|held| - 1].createdAt
    requires NoneNewer(SetOf(expected), held, EventStamp)
    requires e in expected && e.createdAt > boundary
    ensures e in held
  {
    if e !in held {
      var newer := expected[..|held| - 1];
      forall h | h in held
        ensures h in newer
      {
        assert EventStamp(e).createdAt <= EventStamp(h).createdAt;
        assert h in expected;
        var i :| 0 <= i < |expected| && expected[i] == h;
        assert !EventStamp(expected[|held| - 1]).Before(EventStamp(h));
        assert newer[i] == h;
      }
      SubsetSize(held, SetOf(newer));
      SetOfSize(newer);
    }
  }

  lemma {:induction false} NothingOlder(expected: seq<Event>, held: set<Event>, boundary: nat, h: Event)
    requires Distinct(expected) && Sorted(expected, EventStamp)
    requires held <= SetOf(expected) && 0 < |held| <= |expected| && boundary == expected[|held| - 1].createdAt
    requires NoneNewer(SetOf(expected), held, EventStamp)
    requires h in held
    ensures h.createdAt >= boundary
  {
    if h.createdAt < boundary {
      var upTo := expected[..|held|];
      forall e | e in upTo
        ensures e in held - {h}
      {
        var i :| 0 <= i < |upTo| && upTo[i] == e;
        assert expected[i] == e;
        assert EventStamp(e).createdAt >= boundary > EventStamp(h).createdAt;
      }
      DistinctSize(upTo);
      SubsetSize(SetOf(upTo), held - {h});
    }
  }

  /** The boundary test: with the right number of events, none newer than the
      boundary is missing and none is older, iff they are the newest. */
  lemma {:induction false} BoundaryIsNewest(expected: seq<Event>, held: set<Event>, boundary: nat)
    requires Distinct(expected) && Sorted(expected, EventStamp)
    requires held <= SetOf(expected) && 0 < |held| <= |expected| && boundary == expected[|held| - 1].createdAt
    ensures NoneNewer(SetOf(expected), held, EventStamp) <==>
      && (forall e :: e in expected && e.createdAt > boundary ==> e in held)
      && (forall e :: e in held ==> e.createdAt >= boundary)
  {
    if NoneNewer(SetOf(expected), held, EventStamp) {
      forall e | e in expected && e.createdAt > boundary
        ensures e in held
      {
        NothingNewerMissing(expected, held, boundary, e);
      }
      forall h | h in held
        ensures h.createdAt >= boundary
      {
        NothingOlder(expected, held, boundary, h);
      }
    }
  }

  /** The oracle's answer, newest first, ignoring the limit. */
  method OracleExpected(oracle: Oracle, matches: Event -> bool, visible: Event -> bool) returns (expected: seq<Event>)
    requires oracle.Valid()
    ensures Distinct(expected) && Sorted(expected, EventStamp)
    ensures SetOf(expected) == Matching(oracle, matches, visible)
  {
    var asked := e => matches(e) && visible(e);
    var found := Where(oracle.events, asked);
    WhereDistinct(oracle.events, asked);
    expected := NewestFirst(found, EventStamp);
    NewestFirstSorted(found, EventStamp);
    SortDistinct(found, EventStamp);
  }

  /** Whether the corpus part is the newest of its size, tested at the boundary. */
  method NotNewest(expected: seq<Event>, corpus: seq<Event>) returns (bad: bool)
    requires Distinct(expected) && Sorted(expected, EventStamp)
    requires Distinct(corpus) && SetOf(corpus) <= SetOf(expected) && corpus != []
    ensures bad <==> !NoneNewer(SetOf(expected), SetOf(corpus), EventStamp)
  {
    hide Sorted, Distinct, NoneNewer;
    DistinctSize(corpus);
    DistinctSize(expected);
    SubsetSize(SetOf(corpus), SetOf(expected));
    var boundary := expected[|corpus| - 1].createdAt;
    var got := set e | e in corpus;
    BoundaryIsNewest(expected, got, boundary);
    assert got == SetOf(corpus);
    bad := NewerMissing(expected, got, boundary);
    if !bad {
      bad := exists e :: e in corpus && e.createdAt < boundary;
    }
  }

  /** Whether an event newer than the boundary is missing; they come first. */
  method NewerMissing(expected: seq<Event>, got: set<Event>, boundary: nat) returns (missing: bool)
    requires Sorted(expected, EventStamp)
    ensures missing <==> exists e :: e in expected && e.createdAt > boundary && e !in got
  {
    var i := 0;
    while i < |expected| && expected[i].createdAt > boundary
      invariant 0 <= i <= |expected|
      invariant forall j :: 0 <= j < i ==> expected[j] in got
    {
      if expected[i] !in got {
        assert expected[i] in expected;
        return true;
      }
      i := i + 1;
    }
    forall e | e in expected && e.createdAt > boundary
      ensures e in got
    {
      var j :| 0 <= j < |expected| && expected[j] == e;
    }
    return false;
  }

  /** The first loop: each event on its own, and the corpus events among them. */
  method CheckEvents(oracle: Oracle, published: Published, matches: Event -> bool, visible: Event -> bool,
                     history: seq<Item>)
    returns (problem: Option<Reason>, corpus: seq<Event>, extra: nat)
    requires oracle.Valid()
    ensures problem.None? <==> Sound(oracle, published, matches, visible, history)
    ensures problem.Some? ==>
      exists n: nat :: BreaksAt(oracle, published, matches, visible, history, n, problem.value)
    ensures problem.None? ==>
      Distinct(corpus) && SetOf(corpus) == CorpusPart(oracle, history) && |corpus| + extra == |history|
  {
    var seen: set<Id> := {};
    problem, corpus, extra := None, [], 0;
    for n := 0 to |history|
      invariant problem.None?
      invariant forall i :: i in history[..n] ==> Deliverable(oracle, published, matches, visible, i)
      invariant Distinct(history[..n])
      invariant forall id :: id in seen <==> exists i :: i in history[..n] && i.Item? && i.event.id == id
      invariant Distinct(corpus) && SetOf(corpus) == CorpusPart(oracle, history[..n])
      invariant |corpus| + extra == n
    {
      var item := history[n];
      assert history[..n + 1] == history[..n] + [item];
      assert item in history;
      problem := EventProblem(oracle, published, matches, visible, item);
      if problem.Some? {
        assert BreaksAt(oracle, published, matches, visible, history, n, problem.value);
        return;
      }
      if item.event.id in seen {
        assert item in history[..n];
        ghost var j :| 0 <= j < n && history[..n][j] == item;
        assert history[j] == history[n];
        problem := Some(Duplicate);
        assert BreaksAt(oracle, published, matches, visible, history, n, Duplicate);
        return;
      }
      seen := seen + {item.event.id};
      CorpusPartStep(oracle, history[..n], item);
      if item.event.id in oracle.byId {
        assert item.event !in SetOf(corpus);
        corpus := corpus + [item.event];
      } else {
        extra := extra + 1;
      }
    }
    assert history[..|history|] == history;
  }

  /** `verify_history`, for one filter. */
  method VerifyHistory(oracle: Oracle, published: Published, matches: Event -> bool, visible: Event -> bool,
                       limit: Option<nat>, caps: Caps, history: seq<Item>)
    returns (verdict: Verdict)
    requires oracle.Valid()
    ensures verdict.Mismatch? <==> !Acceptable(oracle, published, matches, visible, limit, caps, history)
    ensures verdict.Mismatch? ==>
      Explains(oracle, published, matches, visible, limit, caps, history, verdict.reason)
    ensures !verdict.Mismatch? ==>
      (verdict.Complete? <==>
        || CorpusPart(oracle, history) == Matching(oracle, matches, visible)
        || (limit.Some? && |history| >= limit.value))
    ensures verdict.Truncated? ==> verdict.returned == |history| < verdict.expected
    ensures verdict.Truncated? ==>
      var all, held := |Matching(oracle, matches, visible)|, |CorpusPart(oracle, history)|;
      held <= |history| && verdict.expected == Asked(limit, all + |history| - held)
  {
    hide Deliverable, Distinct, Sorted, NoneNewer, BreaksAt;
    var problem, corpus, extra := CheckEvents(oracle, published, matches, visible, history);
    if problem.Some? {
      return Mismatch(problem.value);
    }
    var expected := OracleExpected(oracle, matches, visible);
    CorpusPartMatches(oracle, published, matches, visible, history);
    DistinctSize(corpus);
    DistinctSize(expected);
    SubsetSize(SetOf(corpus), SetOf(expected));
    if limit.Some? && |corpus| > limit.value {
      return Mismatch(OverLimit);
    }
    if corpus != [] && |corpus| <= |expected| {
      var bad := NotNewest(expected, corpus);
      if bad {
        return Mismatch(NotTheNewest);
      }
    } else if |corpus| > |expected| {
      return Mismatch(MoreThanMatch);
    } else {
      EmptyIsNewest(SetOf(expected), SetOf(corpus));
    }
    var underLimit := limit.None? || |history| < limit.value;
    if |corpus| < |expected| && underLimit {
      var wanted := if limit.Some? then Min(|expected| + extra, limit.value) else |expected| + extra;
      if |history| >= Min(caps.filter, caps.req) {
        return Truncated(|history|, wanted);
      }
      return Mismatch(EndedEarly);
    }
    return Complete;
  }

  lemma {:induction false} EmptyIsNewest(pool: set<Event>, taken: set<Event>)
    requires taken == {}
    ensures NoneNewer(pool, taken, EventStamp)
  {
  }

  lemma {:induction false} CorpusPartMatches(oracle: Oracle, published: Published, matches: Event -> bool,
                                             visible: Event -> bool, history: seq<Item>)
    requires oracle.Valid()
    requires forall i :: i in history ==> Deliverable(oracle, published, matches, visible, i)
    ensures CorpusPart(oracle, history) <= Matching(oracle, matches, visible)
  {
  }

  // ------------------------------------------------------------------
  // What an honest relay may send
  // ------------------------------------------------------------------

  /** The published events `stored` holds are known, asked for, and not corpus events. */
  ghost predicate Publishable(oracle: Oracle, published: Published, matches: Event -> bool, visible: Event -> bool,
                              events: set<Event>) {
    forall e :: e in events ==>
      e.id !in oracle.byId && e.id in published && published[e.id] == e && matches(e) && visible(e)
  }

  /** The relay holds the corpus matches and any published ones, sends the
      newest its limit and caps allow in any order, and then any published
      events it had not sent. */
  ghost predicate Honest(oracle: Oracle, published: Published, matches: Event -> bool, visible: Event -> bool,
                         limit: Option<nat>, caps: Caps, stored: set<Event>, reply: seq<Event>, catchUp: seq<Event>)
  {
    var pool := Matching(oracle, matches, visible) + stored;
    && Publishable(oracle, published, matches, visible, stored)
    && Publishable(oracle, published, matches, visible, SetOf(catchUp))
    && Distinct(reply + catchUp)
    && Newest(pool, SetOf(reply), Min(Quota(limit, caps), |pool|), EventStamp)
  }

  ghost function Items(events: seq<Event>): (items: seq<Item>)
    ensures |items| == |events|
    ensures forall i :: 0 <= i < |events| ==> items[i] == Item(events[i])
  {
    seq(|events|, i requires 0 <= i < |events| => Item(events[i]))
  }

  lemma {:induction false} HonestEvents(oracle: Oracle, published: Published, matches: Event -> bool,
                                        visible: Event -> bool, limit: Option<nat>, caps: Caps, stored: set<Event>,
                                        reply: seq<Event>, catchUp: seq<Event>)
    requires oracle.Valid()
    requires Honest(oracle, published, matches, visible, limit, caps, stored, reply, catchUp)
    ensures forall i :: i in Items(reply + catchUp) ==> Deliverable(oracle, published, matches, visible, i)
    ensures Distinct(Items(reply + catchUp))
    ensures CorpusPart(oracle, Items(reply + catchUp)) == SetOf(reply) * Matching(oracle, matches, visible)
  {
    var all, sent := Matching(oracle, matches, visible), reply + catchUp;
    var history := Items(sent);
    forall i | 0 <= i < |history|
      ensures Deliverable(oracle, published, matches, visible, history[i])
      ensures sent[i].id in oracle.byId <==> sent[i] in SetOf(reply) * all
    {
      if i < |reply| {
        assert sent[i] in SetOf(reply);
      } else {
        assert sent[i] == catchUp[i - |reply|];
        assert sent[i] in SetOf(catchUp);
      }
    }
    forall e | e in SetOf(reply) * all
      ensures e in CorpusPart(oracle, history)
    {
      var i :| 0 <= i < |reply| && reply[i] == e;
      assert history[i] == Item(e);
    }
    forall e | e in CorpusPart(oracle, history)
      ensures e in SetOf(reply) * all
    {
      var i :| 0 <= i < |history| && history[i] == Item(e);
      assert sent[i] == e;
    }
  }

  /** No correct relay is ever reported, and one without caps is complete. */
  lemma {:induction false} HonestNeverMismatch(oracle: Oracle, published: Published, matches: Event -> bool,
                                               visible: Event -> bool, limit: Option<nat>, caps: Caps,
                                               stored: set<Event>, reply: seq<Event>, catchUp: seq<Event>)
    requires oracle.Valid()
    requires Honest(oracle, published, matches, visible, limit, caps, stored, reply, catchUp)
    ensures Acceptable(oracle, published, matches, visible, limit, caps, Items(reply + catchUp))
    ensures caps == NewCaps(0, 0) && |reply + catchUp| < U64_MAX ==>
      || CorpusPart(oracle, Items(reply + catchUp)) == Matching(oracle, matches, visible)
      || (limit.Some? && |reply + catchUp| >= limit.value)
  {
    hide Matching, CorpusPart, Deliverable, Distinct, Items, SetOf, Publishable;
    var all, history := Matching(oracle, matches, visible), Items(reply + catchUp);
    var pool, held := all + stored, CorpusPart(oracle, Items(reply + catchUp));
    HonestEvents(oracle, published, matches, visible, limit, caps, stored, reply, catchUp);
    SetOfSize(reply);
    PartOfNewest(all, stored, SetOf(reply), Min(Quota(limit, caps), |pool|));
    assert held == SetOf(reply) * all;
    if held != all {
      assert |SetOf(reply)| == Quota(limit, caps) by {
        assert SetOf(reply) != pool;
        NewestShort(pool, SetOf(reply), Quota(limit, caps));
      }
    }
  }

  /** The share of one kind among the newest is newest among its kind. */
  lemma {:induction false} PartOfNewest(all: set<Event>, stored: set<Event>, sent: set<Event>, n: nat)
    requires Newest(all + stored, sent, n, EventStamp)
    ensures NoneNewer(all, sent * all, EventStamp) && |sent * all| <= |sent|
  {
    forall o, t | o in all && o !in sent * all && t in sent * all
      ensures EventStamp(o).createdAt <= EventStamp(t).createdAt
    {
      assert o in all + stored && o !in sent && t in sent;
    }
    SubsetSize(sent * all, sent);
  }

  lemma {:induction false} NewestShort(pool: set<Event>, sent: set<Event>, quota: nat)
    requires Newest(pool, sent, Min(quota, |pool|), EventStamp) && sent != pool
    ensures |sent| == quota
  {
    SubsetSize(sent, pool);
  }

  // ------------------------------------------------------------------
  // Which accepted histories an honest relay could have sent
  // ------------------------------------------------------------------

  /** Some honest relay sends this history. */
  ghost predicate Explained(oracle: Oracle, published: Published, matches: Event -> bool, visible: Event -> bool,
                            limit: Option<nat>, caps: Caps, history: seq<Item>)
  {
    exists stored, reply, catchUp ::
      Honest(oracle, published, matches, visible, limit, caps, stored, reply, catchUp) &&
        Items(reply + catchUp) == history
  }

  predicate FromCorpus(oracle: Oracle, item: Item) {
    item.Item? && item.event.id in oracle.byId
  }

  /** How many items there are up to and with the last corpus event. */
  function LastCorpus(oracle: Oracle, history: seq<Item>): nat {
    if history == [] then 0
    else if FromCorpus(oracle, history[|history| - 1]) then |history|
    else LastCorpus(oracle, history[..|history| - 1])
  }

  lemma {:induction false} LastCorpusIs(oracle: Oracle, history: seq<Item>, n: nat)
    requires n <= |history|
    ensures LastCorpus(oracle, history) <= n <==> forall k :: n <= k < |history| ==> !FromCorpus(oracle, history[k])
  {
    if n < |history| {
      LastCorpusIs(oracle, history[..|history| - 1], n);
    } else {
      LastCorpusBounded(oracle, history);
    }
  }

  lemma {:induction false} LastCorpusBounded(oracle: Oracle, history: seq<Item>)
    ensures LastCorpus(oracle, history) <= |history|
  {
    if history != [] {
      LastCorpusBounded(oracle, history[..|history| - 1]);
    }
  }

  /** No published event among the first `n` items is older than a corpus
      match the history omits. */
  ghost predicate NoneOlder(oracle: Oracle, matches: Event -> bool, visible: Event -> bool, history: seq<Item>,
                            n: nat) {
    forall k, m ::
      0 <= k < n && k < |history| && history[k].Item? && !FromCorpus(oracle, history[k])
      && m in Matching(oracle, matches, visible) - CorpusPart(oracle, history)
      ==> m.createdAt <= history[k].event.createdAt
  }

  /** What the check does not look at: the corpus events come within the quota
      and, where a match is left out, so does nothing older than it. */
  ghost predicate InPlace(oracle: Oracle, matches: Event -> bool, visible: Event -> bool, limit: Option<nat>,
                          caps: Caps, history: seq<Item>)
  {
    && LastCorpus(oracle, history) <= Quota(limit, caps)
    && (CorpusPart(oracle, history) == Matching(oracle, matches, visible)
        || NoneOlder(oracle, matches, visible, history, Quota(limit, caps)))
  }

  /** The events of a history in which everything has an id. */
  ghost function EventsOf(history: seq<Item>): seq<Event>
    requires forall i :: i in history ==> i.Item?
  {
    seq(|history|, i requires 0 <= i < |history| => assert history[i] in history; history[i].event)
  }

  lemma {:induction false} EventsOfItems(history: seq<Item>)
    requires forall i :: i in history ==> i.Item?
    ensures Items(EventsOf(history)) == history
  {
    assert forall i :: 0 <= i < |history| ==> history[i] in history;
  }

  /** An accepted history is one an honest relay could have sent exactly when
      its corpus events are in place. */
  lemma {:induction false} AcceptedIsHonestIff(oracle: Oracle, published: Published, matches: Event -> bool,
                                               visible: Event -> bool, limit: Option<nat>, caps: Caps,
                                               history: seq<Item>)
    requires oracle.Valid() && Acceptable(oracle, published, matches, visible, limit, caps, history)
    ensures Explained(oracle, published, matches, visible, limit, caps, history)
       <==> InPlace(oracle, matches, visible, limit, caps, history)
  {
    if Explained(oracle, published, matches, visible, limit, caps, history) {
      var stored, reply, catchUp :|
        Honest(oracle, published, matches, visible, limit, caps, stored, reply, catchUp) &&
          Items(reply + catchUp) == history;
      HonestIsInPlace(oracle, published, matches, visible, limit, caps, stored, reply, catchUp);
    }
    if InPlace(oracle, matches, visible, limit, caps, history) {
      var cut := if CorpusPart(oracle, history) == Matching(oracle, matches, visible) then LastCorpus(oracle, history)
                 else Quota(limit, caps);
      LastCorpusBounded(oracle, history);
      CutIsHonest(oracle, published, matches, visible, limit, caps, history, cut);
    }
    hide Acceptable, InPlace;
  }

  /** The histories honest relays send are those that pass the check with
      their corpus events in place. */
  lemma {:induction false} HonestHistories(oracle: Oracle, published: Published, matches: Event -> bool,
                                           visible: Event -> bool, limit: Option<nat>, caps: Caps, history: seq<Item>)
    requires oracle.Valid()
    ensures Explained(oracle, published, matches, visible, limit, caps, history)
       <==> && Acceptable(oracle, published, matches, visible, limit, caps, history)
            && InPlace(oracle, matches, visible, limit, caps, history)
  {
    hide Acceptable, InPlace, Honest;
    if Explained(oracle, published, matches, visible, limit, caps, history) {
      var stored, reply, catchUp :|
        Honest(oracle, published, matches, visible, limit, caps, stored, reply, catchUp) &&
          Items(reply + catchUp) == history;
      HonestNeverMismatch(oracle, published, matches, visible, limit, caps, stored, reply, catchUp);
    }
    if Acceptable(oracle, published, matches, visible, limit, caps, history) {
      AcceptedIsHonestIff(oracle, published, matches, visible, limit, caps, history);
    }
  }

  lemma {:induction false} HonestIsInPlace(oracle: Oracle, published: Published, matches: Event -> bool,
                                           visible: Event -> bool, limit: Option<nat>, caps: Caps, stored: set<Event>,
                                           reply: seq<Event>, catchUp: seq<Event>)
    requires oracle.Valid()
    requires Honest(oracle, published, matches, visible, limit, caps, stored, reply, catchUp)
    ensures InPlace(oracle, matches, visible, limit, caps, Items(reply + catchUp))
  {
    hide Matching, CorpusPart, LastCorpus, Deliverable, NoneNewer, Items;
    var history, q := Items(reply + catchUp), Quota(limit, caps);
    HonestEvents(oracle, published, matches, visible, limit, caps, stored, reply, catchUp);
    ReplySize(reply, catchUp);
    forall k | |reply| <= k < |history|
      ensures !FromCorpus(oracle, history[k])
    {
      assert catchUp[k - |reply|] in SetOf(catchUp);
    }
    LastCorpusIs(oracle, history, |reply|);
    var all := Matching(oracle, matches, visible);
    if CorpusPart(oracle, history) != all {
      ReplyIsNotOlder(all, stored, reply, catchUp, q);
    }
  }

  /** A full reply that leaves out a match holds nothing older. */
  lemma {:induction false} ReplyIsNotOlder(all: set<Event>, stored: set<Event>, reply: seq<Event>,
                                           catchUp: seq<Event>, q: nat)
    requires |SetOf(reply)| == |reply| && Newest(all + stored, SetOf(reply), Min(q, |all + stored|), EventStamp)
    requires SetOf(reply) * all != all
    ensures |reply| == q
    ensures forall k, m :: 0 <= k < q && m in all - SetOf(reply) * all ==>
      m.createdAt <= Items(reply + catchUp)[k].event.createdAt
  {
    NewestShort(all + stored, SetOf(reply), q);
    forall k, m | 0 <= k < q && m in all - SetOf(reply) * all
      ensures m.createdAt <= Items(reply + catchUp)[k].event.createdAt
    {
      assert reply[k] in SetOf(reply) && m in all + stored && m !in SetOf(reply);
      assert EventStamp(m).createdAt <= EventStamp(reply[k]).createdAt;
    }
  }

  lemma {:induction false} ReplySize(reply: seq<Event>, catchUp: seq<Event>)
    requires Distinct(reply + catchUp)
    ensures |SetOf(reply)| == |reply|
  {
    assert forall i :: 0 <= i < |reply| ==> (reply + catchUp)[i] == reply[i];
    DistinctSize(reply);
  }

  /** Cut at `n`, the history is a reply and its catch-up. */
  lemma {:induction false} CutIsHonest(oracle: Oracle, published: Published, matches: Event -> bool,
                                       visible: Event -> bool, limit: Option<nat>, caps: Caps, history: seq<Item>,
                                       n: nat)
    requires oracle.Valid() && Acceptable(oracle, published, matches, visible, limit, caps, history)
    requires InPlace(oracle, matches, visible, limit, caps, history)
    requires LastCorpus(oracle, history) <= n <= |history| && n <= Quota(limit, caps)
    requires n == Quota(limit, caps) ||
      (n == LastCorpus(oracle, history) && CorpusPart(oracle, history) == Matching(oracle, matches, visible))
    ensures Explained(oracle, published, matches, visible, limit, caps, history)
  {
    assert forall i :: i in history ==> Deliverable(oracle, published, matches, visible, i);
    EventsOfItems(history);
    var sent := EventsOf(history);
    hide *;
    var stored := CutReply(oracle, published, matches, visible, limit, caps, history, sent, n);
    ExplainedBy(oracle, published, matches, visible, limit, caps, history, stored, sent[..n], sent[n..]);
  }

  lemma {:induction false} ExplainedBy(oracle: Oracle, published: Published, matches: Event -> bool,
                                       visible: Event -> bool, limit: Option<nat>, caps: Caps, history: seq<Item>,
                                       stored: set<Event>, reply: seq<Event>, catchUp: seq<Event>)
    requires Honest(oracle, published, matches, visible, limit, caps, stored, reply, catchUp)
    requires Items(reply + catchUp) == history
    ensures Explained(oracle, published, matches, visible, limit, caps, history)
  {
  }

  lemma {:induction false} CutReply(oracle: Oracle, published: Published, matches: Event -> bool,
                                    visible: Event -> bool, limit: Option<nat>, caps: Caps, history: seq<Item>,
                                    sent: seq<Event>, n: nat)
    returns (stored: set<Event>)
    requires oracle.Valid() && Acceptable(oracle, published, matches, visible, limit, caps, history)
    requires InPlace(oracle, matches, visible, limit, caps, history) && Items(sent) == history
    requires LastCorpus(oracle, history) <= n <= |history| && n <= Quota(limit, caps)
    requires n == Quota(limit, caps) || CorpusPart(oracle, history) == Matching(oracle, matches, visible)
    ensures n <= |sent| && Honest(oracle, published, matches, visible, limit, caps, stored, sent[..n], sent[n..])
    ensures Items(sent[..n] + sent[n..]) == history
  {
    hide InPlace, LastCorpus, Deliverable, Publishable, Matching, CorpusPart, Newest, Distinct, NoneNewer, NoneOlder;
    stored := set e | e in sent[..n] && e.id !in oracle.byId;
    CutParts(oracle, published, matches, visible, history, sent, n);
    DistinctEvents(sent);
    CutIsNewest(oracle, published, matches, visible, limit, caps, history, sent, n, stored);
    assert sent[..n] + sent[n..] == sent;
  }

  lemma {:induction false} DistinctEvents(sent: seq<Event>)
    requires Distinct(Items(sent))
    ensures Distinct(sent)
  {
    assert forall i :: 0 <= i < |sent| ==> Items(sent)[i] == Item(sent[i]);
  }

  lemma {:induction false} CutIsNewest(oracle: Oracle, published: Published, matches: Event -> bool,
                                       visible: Event -> bool, limit: Option<nat>, caps: Caps, history: seq<Item>,
                                       sent: seq<Event>, n: nat, stored: set<Event>)
    requires oracle.Valid() && Acceptable(oracle, published, matches, visible, limit, caps, history)
    requires InPlace(oracle, matches, visible, limit, caps, history)
    requires Items(sent) == history && Distinct(sent) && n <= |history| && n <= Quota(limit, caps)
    requires n == Quota(limit, caps) || CorpusPart(oracle, history) == Matching(oracle, matches, visible)
    requires CorpusPart(oracle, history) <= Matching(oracle, matches, visible)
    requires SetOf(sent[..n]) == CorpusPart(oracle, history) + stored
    ensures var pool := Matching(oracle, matches, visible) + stored;
      Newest(pool, SetOf(sent[..n]), Min(Quota(limit, caps), |pool|), EventStamp)
  {
    hide Matching, CorpusPart, Acceptable, InPlace, Items;
    var all, taken := Matching(oracle, matches, visible), SetOf(sent[..n]);
    ReplySize(sent[..n], sent[n..]);
    SubsetSize(taken, all + stored);
    forall o, t | o in all + stored && o !in taken && t in taken
      ensures EventStamp(o).createdAt <= EventStamp(t).createdAt
    {
      OmittedIsOlder(oracle, published, matches, visible, limit, caps, history, sent, n, o, t);
    }
  }

  /** The corpus part lies before the cut, and the rest is publishable. */
  lemma {:induction false} CutParts(oracle: Oracle, published: Published, matches: Event -> bool,
                                    visible: Event -> bool, history: seq<Item>, sent: seq<Event>, n: nat)
    requires oracle.Valid() && forall i :: i in history ==> Deliverable(oracle, published, matches, visible, i)
    requires Items(sent) == history && LastCorpus(oracle, history) <= n <= |history|
    ensures var stored := set e | e in sent[..n] && e.id !in oracle.byId;
      && SetOf(sent[..n]) == CorpusPart(oracle, history) + stored
      && CorpusPart(oracle, history) <= Matching(oracle, matches, visible)
      && Publishable(oracle, published, matches, visible, stored)
      && Publishable(oracle, published, matches, visible, SetOf(sent[n..]))
  {
    LastCorpusIs(oracle, history, n);
    forall k | 0 <= k < |sent|
      ensures Deliverable(oracle, published, matches, visible, Item(sent[k]))
      ensures n <= k ==> sent[k].id !in oracle.byId
    {
      assert history[k] == Item(sent[k]) && history[k] in history;
    }
    forall e | e in sent[..n]
      ensures Item(e) in history
    {
      var k :| 0 <= k < n && sent[..n][k] == e;
      assert history[k] == Item(e);
    }
    forall e | e in CorpusPart(oracle, history)
      ensures e in sent[..n]
    {
      var k :| 0 <= k < |history| && history[k] == Item(e);
      assert sent[k] == e;
      assert sent[..n][k] == e;
    }
  }

  /** What the reply leaves out is a match no newer than anything in it. */
  lemma {:induction false} OmittedIsOlder(oracle: Oracle, published: Published, matches: Event -> bool,
                                          visible: Event -> bool, limit: Option<nat>, caps: Caps, history: seq<Item>,
                                          sent: seq<Event>, n: nat, o: Event, t: Event)
    requires oracle.Valid() && Acceptable(oracle, published, matches, visible, limit, caps, history)
    requires InPlace(oracle, matches, visible, limit, caps, history)
    requires Items(sent) == history && n <= |history|
    requires n == Quota(limit, caps) || CorpusPart(oracle, history) == Matching(oracle, matches, visible)
    requires o in Matching(oracle, matches, visible) - CorpusPart(oracle, history) && t in sent[..n]
    ensures EventStamp(o).createdAt <= EventStamp(t).createdAt
  {
    var k :| 0 <= k < n && sent[..n][k] == t;
    assert history[k] == Item(t) && history[k] in history;
    if FromCorpus(oracle, history[k]) {
      assert t in CorpusPart(oracle, history);
    }
  }

  predicate Any(e: Event) { true }

  /** One stored match and one older published event, asked for with a limit of one. */
  const STORED := Event(1, 0, 1, 10, [], "")
  const OLDER := Event(2, 0, 1, 5, [], "")
  const ONE_STORED := Oracle([STORED], map[1 := STORED])
  const ONE_PUBLISHED: Published := map[2 := OLDER]

  ghost predicate PassesWithoutHonesty(history: seq<Item>) {
    && Acceptable(ONE_STORED, ONE_PUBLISHED, Any, Any, Some(1), NewCaps(0, 0), history)
    && !Explained(ONE_STORED, ONE_PUBLISHED, Any, Any, Some(1), NewCaps(0, 0), history)
  }

  /** An old published event in the place of a newer stored match passes. */
  lemma {:induction false} FilledPlacePasses()
    ensures ONE_STORED.Valid() && PassesWithoutHonesty([Item(OLDER)])
  {
    var history := [Item(OLDER)];
    assert CorpusPart(ONE_STORED, history) == {} && STORED in Matching(ONE_STORED, Any, Any);
    AcceptedIsHonestIff(ONE_STORED, ONE_PUBLISHED, Any, Any, Some(1), NewCaps(0, 0), history);
    assert history[0].Item? && !FromCorpus(ONE_STORED, history[0]);
  }

  /** And so does a stored match that comes after the limit is used up. */
  lemma {:induction false} LatePlacePasses()
    ensures ONE_STORED.Valid() && PassesWithoutHonesty([Item(OLDER), Item(STORED)])
  {
    var history := [Item(OLDER), Item(STORED)];
    assert Matching(ONE_STORED, Any, Any) == {STORED};
    assert history[1] in history;
    assert CorpusPart(ONE_STORED, history) == {STORED};
    AcceptedIsHonestIff(ONE_STORED, ONE_PUBLISHED, Any, Any, Some(1), NewCaps(0, 0), history);
    assert LastCorpus(ONE_STORED, history) == 2;
  }

  // ------------------------------------------------------------------
  // The two oracles agree
  // ------------------------------------------------------------------

  function SentOf(digest: Event -> nat, item: Item): Sent {
    match item
    case NoId => Sent(None, None)
    case Item(e) => Sent(Some(e.id), Some(digest(e)))
  }

  ghost function SentAll(digest: Event -> nat, history: seq<Item>): (r: seq<Sent>)
    ensures |r| == |history|
    ensures forall i :: 0 <= i < |history| ==> r[i] == SentOf(digest, history[i])
  {
    seq(|history|, i requires 0 <= i < |history| => SentOf(digest, history[i]))
  }

  ghost predicate InjectiveDigest(digest: Event -> nat) {
    forall a, b :: digest(a) == digest(b) ==> a == b
  }

  lemma {:induction false} RecordsSize(digest: Event -> nat, events: set<Event>)
    requires InjectiveDigest(digest)
    ensures |Records(digest, events)| == |events|
  {
    if events != {} {
      var e :| e in events;
      RecordsSize(digest, events - {e});
      assert Records(digest, events) == Records(digest, events - {e}) + {RecordOf(digest, e)};
    }
  }

  lemma {:induction false} RecordsNewest(digest: Event -> nat, pool: set<Event>, taken: set<Event>, count: nat)
    requires InjectiveDigest(digest)
    ensures taken <= pool && |taken| == count && NoneNewer(pool, taken, EventStamp)
       <==> History.Newest(Records(digest, pool), Records(digest, taken), count, RecordStamp)
  {
    RecordsSize(digest, taken);
    forall e
      ensures e in taken <==> RecordOf(digest, e) in Records(digest, taken)
      ensures e in pool <==> RecordOf(digest, e) in Records(digest, pool)
    {
    }
    if taken <= pool && NoneNewer(pool, taken, EventStamp) {
      forall o, t | o in Records(digest, pool) && o !in Records(digest, taken) && t in Records(digest, taken)
        ensures RecordStamp(o).createdAt <= RecordStamp(t).createdAt
      {
        var e :| e in pool && RecordOf(digest, e) == o;
        var f :| f in taken && RecordOf(digest, f) == t;
        assert EventStamp(e).createdAt <= EventStamp(f).createdAt;
      }
    }
    if Records(digest, taken) <= Records(digest, pool) &&
      NoneNewer(Records(digest, pool), Records(digest, taken), RecordStamp) {
      forall o, t | o in pool && o !in taken && t in taken
        ensures EventStamp(o).createdAt <= EventStamp(t).createdAt
      {
        assert RecordStamp(RecordOf(digest, o)).createdAt <= RecordStamp(RecordOf(digest, t)).createdAt;
      }
    }
  }

  /** Event by event, both oracles ask the same of a reply without published events. */
  lemma {:induction false} ItemsAgree(oracle: Oracle, matches: Event -> bool, visible: Event -> bool,
                                      digest: Event -> nat, item: Item)
    requires oracle.Valid() && InjectiveDigest(digest)
    ensures Deliverable(oracle, map[], matches, visible, item)
       <==> exists m :: m in Records(digest, Matching(oracle, matches, visible)) && AsSent(m) == SentOf(digest, item)
  {
    var recs := Records(digest, Matching(oracle, matches, visible));
    if Deliverable(oracle, map[], matches, visible, item) {
      assert RecordOf(digest, item.event) in recs;
      assert AsSent(RecordOf(digest, item.event)) == SentOf(digest, item);
    }
    if m :| m in recs && AsSent(m) == SentOf(digest, item) {
      var e :| e in Matching(oracle, matches, visible) && RecordOf(digest, e) == m;
      assert digest(e) == digest(item.event);
    }
  }

  lemma {:induction false} DistinctAgree(digest: Event -> nat, history: seq<Item>)
    requires InjectiveDigest(digest)
    ensures Distinct(history) <==> Distinct(SentAll(digest, history))
  {
  }

  lemma {:induction false} ShownAgrees(oracle: Oracle, matches: Event -> bool, visible: Event -> bool,
                                       digest: Event -> nat, history: seq<Item>)
    requires oracle.Valid() && InjectiveDigest(digest)
    requires forall i :: i in history ==> Deliverable(oracle, map[], matches, visible, i)
    ensures Shown(Records(digest, Matching(oracle, matches, visible)), SentAll(digest, history))
         == Records(digest, CorpusPart(oracle, history))
  {
  }

  lemma {:induction false} HeldSize(oracle: Oracle, published: Published, matches: Event -> bool,
                                    visible: Event -> bool, history: seq<Item>)
    requires published == map[] && Distinct(history)
    requires forall i :: i in history ==> Deliverable(oracle, published, matches, visible, i)
    ensures |CorpusPart(oracle, history)| == |history|
  {
    if history != [] {
      var n := |history| - 1;
      var rest, last := history[..n], history[n];
      assert history == rest + [last];
      assert last in history && forall i :: i in rest ==> i in history;
      HeldSize(oracle, published, matches, visible, rest);
      CorpusPartStep(oracle, rest, last);
      assert last.event !in CorpusPart(oracle, rest);
    }
  }

  /** Without published events and caps, `verify_history` accepts exactly the
      replies `Expected::matches` accepts. */
  lemma {:induction false} AgreesWithExpected(oracle: Oracle, matches: Event -> bool, visible: Event -> bool,
                                              digest: Event -> nat, limit: Option<nat>, history: seq<Item>)
    requires oracle.Valid() && InjectiveDigest(digest) && |history| < U64_MAX
    ensures
      var all := Matching(oracle, matches, visible);
      Acceptable(oracle, map[], matches, visible, limit, NewCaps(0, 0), history)
      <==> NewestReply(Records(digest, all), Asked(limit, |all|), SentAll(digest, history))
  {
    var all, sent := Matching(oracle, matches, visible), SentAll(digest, history);
    var held := CorpusPart(oracle, history);
    DistinctAgree(digest, history);
    EachAgrees(oracle, matches, visible, digest, history);
    if Distinct(history) && forall i :: i in history ==> Deliverable(oracle, map[], matches, visible, i) {
      ShownAgrees(oracle, matches, visible, digest, history);
      HeldSize(oracle, map[], matches, visible, history);
      CorpusPartMatches(oracle, map[], matches, visible, history);
      SubsetSize(held, all);
      RecordsNewest(digest, all, held, Asked(limit, |all|));
    }
  }

  lemma {:induction false} EachAgrees(oracle: Oracle, matches: Event -> bool, visible: Event -> bool,
                                      digest: Event -> nat, history: seq<Item>)
    requires oracle.Valid() && InjectiveDigest(digest)
    ensures (forall i :: i in history ==> Deliverable(oracle, map[], matches, visible, i))
       <==> (forall s :: s in SentAll(digest, history) ==>
               exists m :: m in Records(digest, Matching(oracle, matches, visible)) && AsSent(m) == s)
  {
    var sent, recs := SentAll(digest, history), Records(digest, Matching(oracle, matches, visible));
    forall i | 0 <= i < |history|
      ensures Deliverable(oracle, map[], matches, visible, history[i]) <==>
        exists m :: m in recs && AsSent(m) == sent[i]
    {
      ItemsAgree(oracle, matches, visible, digest, history[i]);
    }
    if forall s :: s in sent ==> exists m :: m in recs && AsSent(m) == s {
      forall i | i in history
        ensures Deliverable(oracle, map[], matches, visible, i)
      {
        var n :| 0 <= n < |history| && history[n] == i;
        assert sent[n] in sent;
      }
    }
  }
}
