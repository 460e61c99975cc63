/**
 A client session (`Session` in clients.rs): subscriptions, publications,
 NIP-42 authentication, NIP-77 passes, and the end of a visit.

 The relay is arbitrary and so is the order of requests, messages and
 timers. Every look at the clock gives some instant no earlier than the one
 before. What a message says is kept as far as it decides what the session
 does; latencies, samples and most counters are left out.
 */
module ClientSession {

  import opened Basics

  type Id = nat
  type Sid = nat
  type Pubkey = nat

  /** A frame to the relay. A REQ carries the identities accepted so far, as
      the subscription keeps them. */
  datatype Frame =
    | Req(sid: Sid, identities: seq<Pubkey>)
    | Event(id: Id)
    | Auth(id: Id)
    | NegOpen(sid: Sid)
    | NegMsg(sid: Sid)
    | NegClose(sid: Sid)
    | Close(sid: Sid)

  /** Frames that `Punctual` forbids after the end. */
  predicate Work(frame: Frame) {
    frame.Req? || frame.Event? || frame.Auth? || frame.NegOpen?
  }

  datatype Sent = Sent(frame: Frame, at: nat)

  datatype Sub = Sub(fetch: bool, identities: seq<Pubkey>, eose: bool, closed: bool, refused: bool)

  datatype Pending = Pending(background: bool, attempts: nat, retry: bool)

  datatype AuthState = NotSent | Waiting | Done | Failed

  datatype Burst = Burst(due: nat, total: nat, accepted: nat, failed: nat)

  datatype Retry = Retry(at: nat, id: Id)

  datatype Reason = AuthRequired | RateLimited | Other

  /** How a NIP-77 message leaves its pass. */
  datatype Pass = More | Over | Bad

  /** The identity that may judge a REQ sent as number `k`. */
  function IdentitiesAt(me: Pubkey, auth: AuthState, authed: nat, k: nat): seq<Pubkey> {
    if auth == Done && authed <= k then [me] else []
  }

  /** Undecided publications. */
  function Undecided(published: map<Id, Option<bool>>): set<Id> {
    set id | id in published && published[id] == None
  }

  /** Decided verdicts stay, and no publication is forgotten. */
  predicate Keeps(before: map<Id, Option<bool>>, after: map<Id, Option<bool>>) {
    forall id :: id in before ==> id in after && (before[id].Some? ==> after[id] == before[id])
  }

  function Progressed(burst: Option<Burst>, accepted: bool): Option<Burst> {
    match burst
    case None => None
    case Some(b) => Some(if accepted then b.(accepted := b.accepted + 1) else b.(failed := b.failed + 1))
  }

  ghost predicate Ledger(published: map<Id, Option<bool>>, pending: map<Id, Pending>, burstIds: set<Id>) {
    && pending.Keys == Undecided(published)
    && burstIds <= published.Keys
    && forall id :: id in pending ==> (pending[id].background <==> id !in burstIds)
  }

  /** The burst counts each of its publications once, when it is decided, and
      has had its outcome exactly when all of them are. */
  ghost predicate BurstFits(burst: Option<Burst>, burstIds: set<Id>, open: set<Id>, completed: nat, refused: nat) {
    match burst
    case None => burstIds == {} && completed == 0 && refused == 0
    case Some(b) =>
      && b.total > 0 && |burstIds| <= b.total
      && b.accepted + b.failed + |burstIds * open| == |burstIds|
      && completed == (if b.accepted == b.total then 1 else 0)
      && refused == (if b.accepted + b.failed == b.total && b.accepted < b.total then 1 else 0)
  }

  /** Those of `ids` with that verdict. */
  function With(ids: set<Id>, published: map<Id, Option<bool>>, verdict: bool): set<Id> {
    set id | id in ids && id in published && published[id] == Some(verdict)
  }

  /** The burst's counts are the numbers of its publications with each verdict. */
  ghost predicate BurstCounts(burst: Option<Burst>, burstIds: set<Id>, published: map<Id, Option<bool>>) {
    burst.Some? ==>
      && burst.value.accepted == |With(burstIds, published, true)|
      && burst.value.failed == |With(burstIds, published, false)|
  }

  lemma {:induction false} CountsSettle(burst: Option<Burst>, burstIds: set<Id>, published: map<Id, Option<bool>>,
                                        id: Id, verdict: bool)
    requires BurstCounts(burst, burstIds, published) && id in published && published[id] == None
    ensures id in burstIds ==> BurstCounts(Progressed(burst, verdict), burstIds, published[id := Some(verdict)])
    ensures id !in burstIds ==> BurstCounts(burst, burstIds, published[id := Some(verdict)])
  {
    hide With;
    WithSettled(burstIds, published, id, verdict);
  }

  lemma {:induction false} WithSettled(ids: set<Id>, published: map<Id, Option<bool>>, id: Id, verdict: bool)
    requires id in published && published[id] == None
    ensures
      var after := published[id := Some(verdict)];
      && With(ids, after, !verdict) == With(ids, published, !verdict)
      && |With(ids, after, verdict)| == |With(ids, published, verdict)| + if id in ids then 1 else 0
  {
    hide With;
    var more := if id in ids then {id} else {};
    WithOther(ids, published, id, verdict, !verdict);
    WithMore(ids, published, id, verdict);
    assert |With(ids, published, verdict) + more| == |With(ids, published, verdict)| + |more|;
  }

  lemma {:induction false} WithOther(ids: set<Id>, published: map<Id, Option<bool>>, id: Id, verdict: bool, not: bool)
    requires id in published && published[id] == None && not != verdict
    ensures With(ids, published[id := Some(verdict)], not) == With(ids, published, not)
  {
    var after := published[id := Some(verdict)];
    forall other
      ensures other in With(ids, after, not) <==> other in With(ids, published, not)
    {
    }
  }

  lemma {:induction false} WithMore(ids: set<Id>, published: map<Id, Option<bool>>, id: Id, verdict: bool)
    requires id in published && published[id] == None
    ensures id !in With(ids, published, verdict)
    ensures With(ids, published[id := Some(verdict)], verdict) ==
      With(ids, published, verdict) + if id in ids then {id} else {}
  {
    forall other
      ensures other in With(ids, published[id := Some(verdict)], verdict) <==>
        other in With(ids, published, verdict) || (other == id && id in ids)
    {
    }
  }

  lemma {:induction false} CountsBook(burst: Option<Burst>, burstIds: set<Id>, published: map<Id, Option<bool>>,
                                      id: Id, burstIds': set<Id>)
    requires BurstCounts(burst, burstIds, published) && id !in published
    requires burstIds <= published.Keys && (burstIds' == burstIds || burstIds' == burstIds + {id})
    ensures BurstCounts(burst, burstIds', published[id := None])
  {
    forall verdict: bool
      ensures With(burstIds', published[id := None], verdict) == With(burstIds, published, verdict)
    {
    }
  }

  lemma {:induction false} LedgerSettles(published: map<Id, Option<bool>>, pending: map<Id, Pending>,
                                         burstIds: set<Id>, id: Id, verdict: bool)
    requires Ledger(published, pending, burstIds) && id in pending
    ensures Ledger(published[id := Some(verdict)], pending - {id}, burstIds)
  {
  }

  lemma {:induction false} BurstSettles(b: Burst, burstIds: set<Id>, open: set<Id>, completed: nat, refused: nat,
                                        id: Id, verdict: bool)
    requires BurstFits(Some(b), burstIds, open, completed, refused) && id in burstIds && id in open
    ensures completed == 0 && refused == 0 && b.accepted + b.failed < b.total
    ensures
      var b' := Progressed(Some(b), verdict).value;
      BurstFits(Some(b'), burstIds, open - {id}, if b'.accepted == b'.total then 1 else 0,
                if b'.accepted != b'.total && b'.accepted + b'.failed == b'.total then 1 else 0)
  {
    assert burstIds * (open - {id}) == burstIds * open - {id};
    assert id in burstIds * open;
  }

  lemma {:induction false} BurstIgnores(burst: Option<Burst>, burstIds: set<Id>, open: set<Id>, completed: nat,
                                        refused: nat, id: Id)
    requires BurstFits(burst, burstIds, open, completed, refused) && id !in burstIds
    ensures BurstFits(burst, burstIds, open - {id}, completed, refused)
    ensures BurstFits(burst, burstIds, open + {id}, completed, refused)
  {
    assert burstIds * (open - {id}) == burstIds * open;
    assert burstIds * (open + {id}) == burstIds * open;
  }

  /** What a step of the burst adds to the two counts. */
  function CompletedNow(burst: Option<Burst>): nat {
    if burst.Some? && burst.value.accepted == burst.value.total then 1 else 0
  }

  function RefusedNow(burst: Option<Burst>): nat {
    if burst.Some? && burst.value.accepted != burst.value.total
      && burst.value.accepted + burst.value.failed == burst.value.total
    then 1 else 0
  }

  ghost predicate BooksFit(published: map<Id, Option<bool>>, pending: map<Id, Pending>, burst: Option<Burst>,
                           burstIds: set<Id>, completed: nat, refused: nat, authId: Id) {
    && Ledger(published, pending, burstIds)
    && authId !in published
    && BurstFits(burst, burstIds, pending.Keys, completed, refused)
    && BurstCounts(burst, burstIds, published)
  }

  lemma {:induction false} SettleFits(published: map<Id, Option<bool>>, pending: map<Id, Pending>,
                                      burst: Option<Burst>, burstIds: set<Id>, completed: nat, refused: nat,
                                      authId: Id, id: Id, verdict: bool)
    requires BooksFit(published, pending, burst, burstIds, completed, refused, authId) && id in pending
    ensures Keeps(published, published[id := Some(verdict)]) && published[id := Some(verdict)].Keys == published.Keys
    ensures pending[id].background ==>
      BooksFit(published[id := Some(verdict)], pending - {id}, burst, burstIds, completed, refused, authId)
    ensures !pending[id].background ==>
      var b := Progressed(burst, verdict);
      BooksFit(published[id := Some(verdict)], pending - {id}, b, burstIds,
               completed + CompletedNow(b), refused + RefusedNow(b), authId)
  {
    hide BurstCounts, BurstFits, Ledger, Keeps, Undecided, Progressed, CompletedNow, RefusedNow;
    LedgerSettles(published, pending, burstIds, id, verdict);
    LedgerOf(published, pending, burstIds, id, verdict);
    CountsSettle(burst, burstIds, published, id, verdict);
    if pending[id].background {
      BurstIgnores(burst, burstIds, pending.Keys, completed, refused, id);
    } else {
      BurstMoves(burst, burstIds, pending.Keys, completed, refused, id, verdict);
    }
  }

  lemma {:induction false} LedgerOf(published: map<Id, Option<bool>>, pending: map<Id, Pending>, burstIds: set<Id>,
                                    id: Id, verdict: bool)
    requires Ledger(published, pending, burstIds) && id in pending
    ensures id in published && published[id] == None && (pending[id].background <==> id !in burstIds)
    ensures Keeps(published, published[id := Some(verdict)]) && published[id := Some(verdict)].Keys == published.Keys
    ensures (pending - {id}).Keys == pending.Keys - {id}
  {
    assert id in Undecided(published);
  }

  lemma {:induction false} BurstMoves(burst: Option<Burst>, burstIds: set<Id>, open: set<Id>, completed: nat,
                                      refused: nat, id: Id, verdict: bool)
    requires BurstFits(burst, burstIds, open, completed, refused) && id in burstIds && id in open
    ensures
      var b := Progressed(burst, verdict);
      BurstFits(b, burstIds, open - {id}, completed + CompletedNow(b), refused + RefusedNow(b))
  {
    assert burst.Some?;
    BurstSettles(burst.value, burstIds, open, completed, refused, id, verdict);
  }

  lemma {:induction false} LedgerAdds(published: map<Id, Option<bool>>, pending: map<Id, Pending>, burstIds: set<Id>,
                                      id: Id, p: Pending)
    requires Ledger(published, pending, burstIds) && id !in published
    ensures Ledger(published[id := None], pending[id := p], if p.background then burstIds else burstIds + {id})
    ensures id !in pending.Keys && id !in burstIds
  {
  }

  lemma {:induction false} BurstAdds(burst: Option<Burst>, burstIds: set<Id>, open: set<Id>, completed: nat,
                                     refused: nat, id: Id, background: bool)
    requires BurstFits(burst, burstIds, open, completed, refused) && id !in burstIds && id !in open
    requires !background ==> burst.Some? && |burstIds| < burst.value.total
    ensures BurstFits(burst, if background then burstIds else burstIds + {id}, open + {id}, completed, refused)
  {
    if background {
      BurstIgnores(burst, burstIds, open, completed, refused, id);
    } else {
      assert (burstIds + {id}) * (open + {id}) == burstIds * open + {id};
    }
  }

  lemma {:induction false} LedgerKnows(published: map<Id, Option<bool>>, pending: map<Id, Pending>, burstIds: set<Id>)
    requires Ledger(published, pending, burstIds)
    ensures burstIds <= published.Keys
  {
  }

  lemma {:induction false} BookFits(published: map<Id, Option<bool>>, pending: map<Id, Pending>, burst: Option<Burst>,
                                    burstIds: set<Id>, completed: nat, refused: nat, id: Id, p: Pending)
    requires Ledger(published, pending, burstIds) && id !in published
    requires BurstFits(burst, burstIds, pending.Keys, completed, refused) && BurstCounts(burst, burstIds, published)
    requires !p.background ==> burst.Some? && |burstIds| < burst.value.total
    ensures
      var ids := if p.background then burstIds else burstIds + {id};
      Ledger(published[id := None], pending[id := p], ids) &&
        BurstFits(burst, ids, pending[id := p].Keys, completed, refused) &&
        BurstCounts(burst, ids, published[id := None])
  {
    hide *;
    LedgerKnows(published, pending, burstIds);
    CountsBook(burst, burstIds, published, id, if p.background then burstIds else burstIds + {id});
    LedgerAdds(published, pending, burstIds, id, p);
    BurstAdds(burst, burstIds, pending.Keys, completed, refused, id, p.background);
    assert pending[id := p].Keys == pending.Keys + {id};
  }

  function IdsOf(retries: seq<Retry>): seq<Id> {
    seq(|retries|, i requires 0 <= i < |retries| => retries[i].id)
  }

  /** The retries that are due, or those that are not. */
  function Due(retries: seq<Retry>, now: nat, due: bool): seq<Retry> {
    if retries == [] then []
    else
      var last := retries[|retries| - 1];
      Due(retries[..|retries| - 1], now, due) + (if (last.at <= now) == due then [last] else [])
  }

  /** At the end: undecided in part, due in the visit, and not cut off. */
  predicate Unanswered(burst: Option<Burst>, gone: bool, until: nat) {
    burst.Some? && burst.value.accepted + burst.value.failed < burst.value.total && !gone && burst.value.due < until
  }

  /** A subscription once its history ended. */
  function Ended(sub: Sub, refused: bool): Sub {
    sub.(eose := true, closed := sub.closed || sub.fetch, refused := sub.refused || refused)
  }

  /** The subscriptions with some of them refused. */
  function Refused(subs: map<Sid, Sub>, sids: seq<Sid>): map<Sid, Sub> {
    map sid | sid in subs :: if sid in sids then subs[sid].(refused := true) else subs[sid]
  }

  lemma {:induction false} RefusedStep(subs: map<Sid, Sub>, sids: seq<Sid>, i: nat)
    requires i < |sids|
    ensures Refused(Refused(subs, sids[..i]), [sids[i]]) == Refused(subs, sids[..i + 1])
  {
  }

  /** The subscriptions with some of them asked again from the start. */
  function AskedAgain(subs: map<Sid, Sub>, sids: seq<Sid>, identities: seq<Pubkey>): map<Sid, Sub> {
    map sid | sid in subs :: if sid in sids then Sub(subs[sid].fetch, identities, false, false, false) else subs[sid]
  }

  lemma {:induction false} AskedAgainStep(subs: map<Sid, Sub>, sids: seq<Sid>, identities: seq<Pubkey>, i: nat)
    requires i < |sids|
    ensures AskedAgain(AskedAgain(subs, sids[..i], identities), [sids[i]], identities) ==
      AskedAgain(subs, sids[..i + 1], identities)
    ensures AskedAgain(subs, sids[..i], identities).Keys == subs.Keys
  {
  }

  lemma {:induction false} NoneAsked(subs: map<Sid, Sub>, identities: seq<Pubkey>, at: nat)
    ensures AskedAgain(subs, [], identities) == subs && Requests([], subs.Keys, identities, at) == []
  {
  }

  lemma {:induction false} AskedAgainOne(subs: map<Sid, Sub>, sid: Sid, identities: seq<Pubkey>)
    ensures sid in subs ==>
      (subs - {sid})[sid := Sub(subs[sid].fetch, identities, false, false, false)] ==
        AskedAgain(subs, [sid], identities)
    ensures sid !in subs ==> subs == AskedAgain(subs, [sid], identities)
  {
  }

  lemma {:induction false} RequestsStep(sids: seq<Sid>, known: set<Sid>, identities: seq<Pubkey>, at: nat, i: nat)
    requires i < |sids|
    ensures Requests(sids[..i + 1], known, identities, at) ==
      Requests(sids[..i], known, identities, at) + Requests([sids[i]], known, identities, at)
  {
    assert sids[..i + 1][..i] == sids[..i];
  }

  /** The verdicts once the undecided among `ids` are given up. */
  function GivenUp(published: map<Id, Option<bool>>, ids: seq<Id>): map<Id, Option<bool>> {
    map id | id in published :: if id in ids && published[id] == None then Some(false) else published[id]
  }

  lemma {:induction false} GiveUpFits(published: map<Id, Option<bool>>, pending: map<Id, Pending>, burstIds: set<Id>,
                                      id: Id)
    requires Ledger(published, pending, burstIds)
    ensures id in pending ==> published[id := Some(false)] == GivenUp(published, [id])
    ensures id !in pending ==> published == GivenUp(published, [id]) && pending == pending - {id}
  {
  }

  lemma {:induction false} KeepsSame(published: map<Id, Option<bool>>)
    ensures Keeps(published, published)
  {
  }

  lemma {:induction false} GivenUpKeeps(published: map<Id, Option<bool>>, ids: seq<Id>)
    ensures Keeps(published, GivenUp(published, ids)) && GivenUp(published, ids).Keys == published.Keys
  {
  }

  lemma {:induction false} GivenUpStep(published: map<Id, Option<bool>>, ids: seq<Id>, i: nat)
    requires i < |ids|
    ensures GivenUp(GivenUp(published, ids[..i]), [ids[i]]) == GivenUp(published, ids[..i + 1])
  {
  }

  lemma {:induction false} GivenUpTwice(published: map<Id, Option<bool>>, a: seq<Id>, b: seq<Id>)
    ensures Keeps(published, GivenUp(GivenUp(published, a), b))
  {
  }

  /** An EVENT for `id` went out at or after frame `from`. */
  ghost predicate ResentIn(sent: seq<Sent>, from: nat, id: Id) {
    exists k :: from <= k < |sent| && sent[k].frame == Event(id)
  }

  function FramesOf(sent: seq<Sent>): seq<Frame> {
    seq(|sent|, k requires 0 <= k < |sent| => sent[k].frame)
  }

  function EventFrames(ids: seq<Id>, known: set<Id>): seq<Frame> {
    if ids == [] then []
    else
      var last := ids[|ids| - 1];
      EventFrames(ids[..|ids| - 1], known) + (if last in known then [Event(last)] else [])
  }

  /** The first `k` ids went out again, in order, and the rest are given up. */
  ghost predicate Retried(sent: seq<Sent>, from: nat, before: map<Id, Option<bool>>, after: map<Id, Option<bool>>,
                          ids: seq<Id>, k: nat)
  {
    && from <= |sent| && k <= |ids|
    && FramesOf(sent[from..]) == EventFrames(ids[..k], before.Keys)
    && after == GivenUp(before, ids[k..])
  }

  lemma {:induction false} NoneRetried(sent: seq<Sent>, published: map<Id, Option<bool>>)
    ensures Retried(sent, |sent|, published, published, [], 0)
  {
  }

  lemma {:induction false} RetriedNext(sent: seq<Sent>, from: nat, published: map<Id, Option<bool>>,
                                       after: map<Id, Option<bool>>, ids: seq<Id>, i: nat, at: nat)
    requires i < |ids| && Retried(sent, from, published, after, ids[..i], i)
    ensures after == published
    ensures Retried(sent + Events([ids[i]], published.Keys, at), from, published, published, ids[..i + 1], i + 1)
  {
    var sent' := sent + Events([ids[i]], published.Keys, at);
    assert ids[..i + 1][..i + 1][..i] == ids[..i] && ids[..i][..i] == ids[..i];
    assert ids[..i][i..] == [] && ids[..i + 1][i + 1..] == [];
    assert Events([ids[i]], published.Keys, at) == if ids[i] in published then [Sent(Event(ids[i]), at)] else [];
    assert FramesOf(sent'[from..]) == FramesOf(sent[from..]) + if ids[i] in published then [Event(ids[i])] else [];
  }

  lemma {:induction false} RetriedNoMore(sent: seq<Sent>, from: nat, before: map<Id, Option<bool>>,
                                         after: map<Id, Option<bool>>, ids: seq<Id>, i: nat, k: nat)
    requires i < |ids| && Retried(sent, from, before, after, ids[..i], k)
    ensures Retried(sent, from, before, GivenUp(after, [ids[i]]), ids[..i + 1], k)
  {
    assert ids[..i + 1][..k] == ids[..i][..k] && ids[..i + 1][k..] == ids[..i][k..] + [ids[i]];
  }

  /** Each known id went out again or is decided. */
  ghost predicate AllHandled(sent: seq<Sent>, from: nat, published: map<Id, Option<bool>>, ids: seq<Id>) {
    forall id :: id in ids && id in published ==> ResentIn(sent, from, id) || published[id].Some?
  }

  lemma {:induction false} RetriedHandles(sent: seq<Sent>, from: nat, before: map<Id, Option<bool>>,
                                          after: map<Id, Option<bool>>, ids: seq<Id>, k: nat)
    requires Retried(sent, from, before, after, ids, k)
    ensures AllHandled(sent, from, after, ids) && Keeps(before, after) && after.Keys == before.Keys
  {
    forall id | id in ids && id in after && after[id] == None
      ensures ResentIn(sent, from, id)
    {
      assert ids == ids[..k] + ids[k..];
      EventFrameOf(ids[..k], before.Keys, id);
      var j :| 0 <= j < |FramesOf(sent[from..])| && FramesOf(sent[from..])[j] == Event(id);
      assert sent[from + j].frame == Event(id);
    }
  }

  lemma {:induction false} EventFrameOf(ids: seq<Id>, known: set<Id>, id: Id)
    requires id in ids && id in known
    ensures Event(id) in EventFrames(ids, known)
  {
    var n := |ids| - 1;
    if ids[n] != id {
      EventFrameOf(ids[..n], known, id);
    }
  }

  /** The EVENTs that publish known ids again. */
  function Events(ids: seq<Id>, known: set<Id>, at: nat): seq<Sent> {
    if ids == [] then []
    else
      var last := ids[|ids| - 1];
      Events(ids[..|ids| - 1], known, at) + (if last in known then [Sent(Event(last), at)] else [])
  }

  /** The REQs that ask known subscriptions again. */
  function Requests(sids: seq<Sid>, known: set<Sid>, identities: seq<Pubkey>, at: nat): seq<Sent> {
    if sids == [] then []
    else
      var last := sids[|sids| - 1];
      Requests(sids[..|sids| - 1], known, identities, at) +
        (if last in known then [Sent(Req(last, identities), at)] else [])
  }

  lemma {:induction false} ProgressSame(burst: Option<Burst>, accepted: bool)
    ensures SameBurst(burst, burst) && SameBurst(burst, Progressed(burst, accepted))
  {
  }

  /** Since frame `from`, a NEG-CLOSE and the REQs of the first `k` fetches. */
  ghost predicate Fetched(sent: seq<Sent>, from: nat, sid: Sid, fetches: seq<Sid>, identities: seq<Pubkey>, k: nat) {
    && k <= |fetches| && |sent| == from + 1 + k && sent[from].frame == NegClose(sid)
    && forall j :: 0 <= j < k ==> sent[from + 1 + j].frame == Req(fetches[j], identities)
  }

  predicate SameBurst(before: Option<Burst>, after: Option<Burst>) {
    && (before.Some? <==> after.Some?)
    && (before.Some? ==> before.value.due == after.value.due && before.value.total == after.value.total)
  }

  // ------------------------------------------------------------------
  // What each input may do, as relations between the state before, `a`,
  // and after, `b`
  // ------------------------------------------------------------------

  datatype Config = Config(me: Pubkey, hasKeys: bool, authId: Id, until: nat)

  datatype State = State(
    clock: nat,
    sent: seq<Sent>,
    gone: bool,
    challenge: bool,
    auth: AuthState,
    identities: seq<Pubkey>,
    authWaiting: seq<Sid>,
    authEvents: seq<Id>,
    subs: map<Sid, Sub>,
    negs: set<Sid>,
    published: map<Id, Option<bool>>,
    pending: map<Id, Pending>,
    retries: seq<Retry>,
    burst: Option<Burst>,
    burstIds: set<Id>,
    liveRefusals: nat,
    liveRefused: nat)

  /** New work may go out at the state's last look at the clock. */
  predicate IsOpen(c: Config, s: State) {
    !s.gone && s.clock < c.until
  }

  /** Nothing pending is new or changed. */
  predicate Within(after: map<Id, Pending>, before: map<Id, Pending>) {
    forall id :: id in after ==> id in before && after[id] == before[id]
  }

  ghost predicate AfterRequest(c: Config, a: State, b: State, sid: Sid, fetch: bool) {
    && b == a.(clock := b.clock, sent := b.sent, subs := b.subs)
    && a.clock <= b.clock
    && if IsOpen(c, b) then
         && b.sent == a.sent + [Sent(Req(sid, a.identities), b.clock)]
         && b.subs == a.subs[sid := Sub(fetch, a.identities, false, false, false)]
       else b.sent == a.sent && b.subs == a.subs
  }

  ghost predicate AfterPublish(c: Config, a: State, b: State, id: Id, retry: bool) {
    && b == a.(clock := b.clock, sent := b.sent, published := b.published, pending := b.pending)
    && a.clock <= b.clock
    && if IsOpen(c, b) then
         && b.sent == a.sent + [Sent(Event(id), b.clock)]
         && b.published == a.published[id := None] && b.pending == a.pending[id := Pending(true, 1, retry)]
       else b.sent == a.sent && b.published == a.published && b.pending == a.pending
  }

  /** The EVENTs of `ids`, in order, are what went out. */
  ghost predicate EventsOut(before: seq<Sent>, after: seq<Sent>, ids: seq<Id>) {
    && before <= after && |after| == |before| + |ids|
    && forall j :: 0 <= j < |ids| ==> after[|before| + j].frame == Event(ids[j])
  }

  function AllNone(ids: seq<Id>): map<Id, Option<bool>> {
    map id | id in ids :: None
  }

  function AllPending(ids: seq<Id>, p: Pending): map<Id, Pending> {
    map id | id in ids :: p
  }

  /** `ids` are booked for the burst. */
  ghost predicate BurstBooked(a: State, b: State, ids: seq<Id>) {
    && b.published == a.published + AllNone(ids)
    && b.pending == a.pending + AllPending(ids, Pending(false, 1, true))
    && b.burstIds == a.burstIds + SetOf(ids)
  }

  /** The first `k` of `ids` went out and are booked for the burst. */
  ghost predicate BurstOut(a: State, b: State, ids: seq<Id>, k: nat) {
    k <= |ids| && EventsOut(a.sent, b.sent, ids[..k]) && BurstBooked(a, b, ids[..k])
  }

  lemma {:induction false} NoneOut(a: State, ids: seq<Id>)
    ensures BurstOut(a, a, ids, 0)
  {
  }

  lemma {:induction false} NotOut(a: State, b: State, ids: seq<Id>, k: nat, i: nat)
    requires BurstOut(a, b, ids, k) && k <= i < |ids| && ids[i] !in a.published
    requires forall i, j :: 0 <= i < j < |ids| ==> ids[i] != ids[j]
    ensures ids[i] !in b.published
  {
  }

  lemma {:induction false} SameOut(a: State, b: State, a': State, b': State, ids: seq<Id>, k: nat)
    requires BurstOut(a, b, ids, k) && b'.sent == b.sent && b'.published == b.published && b'.pending == b.pending
    requires b'.burstIds == b.burstIds && a'.sent == a.sent && a'.published == a.published && a'.pending == a.pending
    requires a'.burstIds == a.burstIds
    ensures BurstOut(a', b', ids, k)
  {
  }

  lemma {:induction false} NextBooked(a: State, b: State, b': State, ids: seq<Id>, id: Id)
    requires BurstBooked(a, b, ids) && b'.published == b.published[id := None] && b'.burstIds == b.burstIds + {id}
    requires b'.pending == b.pending[id := Pending(false, 1, true)]
    ensures BurstBooked(a, b', ids + [id])
  {
    hide AllNone, AllPending, SetOf;
    AddNone(a.published, ids, id);
    AddPending(a.pending, ids, id, Pending(false, 1, true));
    AddId(a.burstIds, ids, id);
  }

  lemma {:induction false} AddNone(published: map<Id, Option<bool>>, ids: seq<Id>, id: Id)
    ensures published + AllNone(ids + [id]) == (published + AllNone(ids))[id := None]
  {
  }

  lemma {:induction false} AddPending(pending: map<Id, Pending>, ids: seq<Id>, id: Id, p: Pending)
    ensures pending + AllPending(ids + [id], p) == (pending + AllPending(ids, p))[id := p]
  {
  }

  lemma {:induction false} AddId(burstIds: set<Id>, ids: seq<Id>, id: Id)
    ensures burstIds + SetOf(ids + [id]) == burstIds + SetOf(ids) + {id}
  {
  }

  lemma {:induction false} NextOut(a: State, b: State, b': State, ids: seq<Id>, k: nat)
    requires BurstOut(a, b, ids, k) && k < |ids| && b'.sent == b.sent + [Sent(Event(ids[k]), b'.clock)]
    requires b'.published == b.published[ids[k] := None] && b'.burstIds == b.burstIds + {ids[k]}
    requires b'.pending == b.pending[ids[k] := Pending(false, 1, true)]
    ensures BurstOut(a, b', ids, k + 1)
  {
    hide BurstBooked;
    assert ids[..k + 1] == ids[..k] + [ids[k]];
    NextBooked(a, b, b', ids[..k], ids[k]);
  }

  lemma {:induction false} BurstBooks(a: State, b: State, ids: seq<Id>, k: nat)
    requires BurstOut(a, b, ids, k) && SetOf(ids) !! a.published.Keys
    ensures Keeps(a.published, b.published) && b.published.Keys <= a.published.Keys + SetOf(ids)
    ensures SetOf(ids[..k]) == SetOf(ids) * b.published.Keys
  {
  }

  ghost predicate AfterBurst(c: Config, a: State, b: State, due: nat, ids: seq<Id>) {
    && b == a.(clock := b.clock, sent := b.sent, published := b.published, pending := b.pending, burst := b.burst,
               burstIds := b.burstIds)
    && a.clock <= b.clock
    && (b.burst.None? ==>
          && !IsOpen(c, b) && b.sent == a.sent && b.published == a.published && b.pending == a.pending
          && b.burstIds == a.burstIds)
    && (b.burst.Some? ==>
          && b.burst == Some(Burst(due, |ids|, 0, 0))
          && exists k: nat :: BurstOut(a, b, ids, k) && (IsOpen(c, b) ==> k == |ids|))
  }

  /** The AUTH goes out where there are keys and a challenge and it has not. */
  predicate AuthBegun(c: Config, able: bool, auth: AuthState, sent: seq<Sent>, auth': AuthState, sent': seq<Sent>,
                      at: nat) {
    if c.hasKeys && able && auth == NotSent && at < c.until then
      auth' == Waiting && sent' == sent + [Sent(Auth(c.authId), at)]
    else auth' == auth && sent' == sent
  }

  ghost predicate AfterChallenge(c: Config, a: State, b: State, some: bool) {
    && b == a.(clock := b.clock, sent := b.sent, auth := b.auth, challenge := b.challenge)
    && b.challenge == some && a.clock <= b.clock
    && if a.authWaiting != [] || a.authEvents != [] then
         AuthBegun(c, some && !a.gone, a.auth, a.sent, b.auth, b.sent, b.clock)
       else b.clock == a.clock && b.auth == a.auth && b.sent == a.sent
  }

  /** Where the AUTH can still help; the last look at the clock has to agree. */
  predicate MayAuth(c: Config, a: State) {
    c.hasKeys && (a.auth == NotSent || a.auth == Waiting) && !a.gone
  }

  ghost predicate AfterClosed(c: Config, a: State, b: State, sid: Sid, reason: Reason) {
    if sid !in a.subs || a.subs[sid].closed then b == a
    else
      var may := reason == AuthRequired && !a.subs[sid].eose && MayAuth(c, a);
      var waits := b.subs == a.subs && b.authWaiting == a.authWaiting + [sid]
        && AuthBegun(c, a.challenge && !a.gone, a.auth, a.sent, b.auth, b.sent, b.clock);
      var refused := b.subs == Refused(a.subs, [sid]) && b.authWaiting == a.authWaiting && b.sent == a.sent
        && b.auth == a.auth;
      && b == a.(clock := b.clock, sent := b.sent, auth := b.auth, authWaiting := b.authWaiting, subs := b.subs)
      && a.clock <= b.clock
      && (waits || refused) && (may && b.clock < c.until ==> waits) && (!may ==> refused)
  }

  /** The relay's answer to the AUTH. What waited goes out again, or stays
      refused. */
  ghost predicate AfterAuthAnswer(c: Config, a: State, b: State, accepted: bool) {
    && b == a.(clock := b.clock, sent := b.sent, auth := b.auth, identities := b.identities, subs := b.subs,
               authWaiting := b.authWaiting, authEvents := b.authEvents, published := b.published,
               pending := b.pending, burst := b.burst)
    && b.auth == (if accepted then Done else Failed) && b.identities == (if accepted then [c.me] else a.identities)
    && b.authWaiting == [] && b.authEvents == []
    && a.clock <= b.clock && SameBurst(a.burst, b.burst) && Within(b.pending, a.pending)
    && if accepted && IsOpen(c, b) then
         && b.sent == a.sent + Requests(a.authWaiting, a.subs.Keys, [c.me], b.clock)
                      + Events(a.authEvents, a.published.Keys, b.clock)
         && b.subs == AskedAgain(a.subs, a.authWaiting, [c.me]) && b.published == a.published
       else
         && b.sent == a.sent && b.subs == Refused(a.subs, a.authWaiting)
         && b.published == GivenUp(a.published, a.authEvents)
  }

  ghost predicate IsSettled(a: State, b: State, id: Id, verdict: bool) {
    && b.published == a.published[id := Some(verdict)] && b.pending == a.pending - {id}
    && b.sent == a.sent && b.auth == a.auth && b.authEvents == a.authEvents && b.retries == a.retries
    && SameBurst(a.burst, b.burst)
  }

  function Delay(p: Pending): nat {
    250 * Min(p.attempts, 12)
  }

  /** It waits for the AUTH. */
  ghost predicate IsHeld(c: Config, a: State, b: State, id: Id) {
    && b.published == a.published && b.pending == a.pending && b.burst == a.burst && b.retries == a.retries
    && b.authEvents == a.authEvents + [id]
    && AuthBegun(c, a.challenge && !a.gone, a.auth, a.sent, b.auth, b.sent, b.clock)
  }

  /** It is tried again at `at`. */
  ghost predicate IsDelayed(a: State, b: State, id: Id, at: nat)
    requires id in a.pending
  {
    && b.published == a.published && b.burst == a.burst
    && b.pending == a.pending[id := a.pending[id].(attempts := a.pending[id].attempts + 1)]
    && b.retries == a.retries + [Retry(at, id)]
    && b.sent == a.sent && b.auth == a.auth && b.authEvents == a.authEvents
  }

  /** An OK for a pending publication: it is decided, waits for the AUTH, or
      is tried again later. */
  ghost predicate AfterAnswer(c: Config, a: State, b: State, at: nat, id: Id, accepted: bool, reason: Reason)
    requires id in a.pending
  {
    var p := a.pending[id];
    var may := p.retry && reason == AuthRequired && MayAuth(c, a);
    var again := p.retry && reason == RateLimited && at + Delay(p) < c.until;
    && b == a.(clock := b.clock, sent := b.sent, auth := b.auth, authEvents := b.authEvents, retries := b.retries,
               published := b.published, pending := b.pending, burst := b.burst)
    && a.clock <= b.clock
    && (accepted ==> IsSettled(a, b, id, true))
    && (!accepted && again ==> IsDelayed(a, b, id, at + Delay(p)))
    && (!accepted && !again ==> IsHeld(c, a, b, id) || IsSettled(a, b, id, false))
    && (!accepted && may && b.clock < c.until ==> IsHeld(c, a, b, id))
    && (!accepted && !may && !again ==> IsSettled(a, b, id, false))
  }

  lemma {:induction false} AcceptedFollows(c: Config, a: State, b: State, at: nat, id: Id, reason: Reason)
    requires id in a.pending && a.clock <= b.clock && IsSettled(a, b, id, true)
    requires b == a.(clock := b.clock, sent := b.sent, auth := b.auth, authEvents := b.authEvents,
                     retries := b.retries, published := b.published, pending := b.pending, burst := b.burst)
    ensures AfterAnswer(c, a, b, at, id, true, reason)
  {
  }

  lemma {:induction false} RefusalFollows(c: Config, a: State, b: State, at: nat, id: Id, reason: Reason, held: bool,
                                          delayed: bool)
    requires id in a.pending && a.clock <= b.clock
    requires
      var may := a.pending[id].retry && reason == AuthRequired && MayAuth(c, a);
      (may && b.clock < c.until ==> held) && (held ==> may)
    requires delayed <==> a.pending[id].retry && reason == RateLimited && at + Delay(a.pending[id]) < c.until
    requires held ==> IsHeld(c, a, b, id)
    requires delayed ==> IsDelayed(a, b, id, at + Delay(a.pending[id]))
    requires !held && !delayed ==> IsSettled(a, b, id, false)
    requires b == a.(clock := b.clock, sent := b.sent, auth := b.auth, authEvents := b.authEvents,
                     retries := b.retries, published := b.published, pending := b.pending, burst := b.burst)
    ensures AfterAnswer(c, a, b, at, id, false, reason)
  {
  }

  ghost predicate AfterOk(c: Config, a: State, b: State, at: nat, id: Id, accepted: bool, reason: Reason) {
    if a.auth == Waiting && id == c.authId then AfterAuthAnswer(c, a, b, accepted)
    else if id in a.pending then AfterAnswer(c, a, b, at, id, accepted, reason)
    else b == a
  }

  ghost predicate AfterTimer(c: Config, a: State, b: State, now: nat) {
    && b == a.(clock := b.clock, sent := b.sent, retries := b.retries, published := b.published,
               pending := b.pending, burst := b.burst)
    && b.retries == Due(a.retries, now, false)
    && a.clock <= b.clock && a.sent <= b.sent && SameBurst(a.burst, b.burst) && Within(b.pending, a.pending)
    && exists k: nat :: TimerOut(c, a, b, IdsOf(Due(a.retries, now, true)), k)
  }

  /** The first `k` of `ids` went out again and the rest are given up. */
  ghost predicate TimerOut(c: Config, a: State, b: State, ids: seq<Id>, k: nat) {
    && Retried(b.sent, |a.sent|, a.published, b.published, ids, k)
    && (a.gone ==> k == 0) && (IsOpen(c, b) ==> k == |ids|)
  }

  ghost predicate AfterEose(a: State, b: State, sid: Sid) {
    if sid !in a.subs || a.subs[sid].eose || a.subs[sid].refused then b == a
    else
      && b == a.(clock := b.clock, sent := b.sent, subs := b.subs, liveRefusals := b.liveRefusals,
                 liveRefused := b.liveRefused)
      && b.subs == a.subs[sid := Ended(a.subs[sid], a.liveRefusals > 0)]
      && b.liveRefusals == (if a.liveRefusals > 0 then a.liveRefusals - 1 else 0)
      && b.liveRefused == (if a.liveRefusals > 0 then a.liveRefused + 1 else a.liveRefused)
      && a.clock <= b.clock && b.sent == a.sent + if a.subs[sid].fetch then [Sent(Close(sid), b.clock)] else []
  }

  ghost predicate AfterOpenNeg(c: Config, a: State, b: State, sid: Sid) {
    && b == a.(clock := b.clock, sent := b.sent, negs := b.negs)
    && a.clock <= b.clock
    && if IsOpen(c, b) then b.sent == a.sent + [Sent(NegOpen(sid), b.clock)] && b.negs == a.negs + {sid}
       else b.sent == a.sent && b.negs == a.negs
  }

  ghost predicate AfterNegErr(c: Config, a: State, b: State, sid: Sid, reopen: bool) {
    && b == a.(clock := b.clock, sent := b.sent, negs := b.negs)
    && a.clock <= b.clock
    && if sid in a.negs && reopen && IsOpen(c, b) then
         b.sent == a.sent + [Sent(NegOpen(sid), b.clock)] && b.negs == a.negs
       else b.sent == a.sent && b.negs == a.negs - {sid}
  }

  function AllAsked(sids: seq<Sid>, identities: seq<Pubkey>): map<Sid, Sub> {
    map sid | sid in sids :: Sub(true, identities, false, false, false)
  }

  lemma {:induction false} NoneFetched(before: seq<Sent>, sent: seq<Sent>, sid: Sid, fetches: seq<Sid>,
                                       identities: seq<Pubkey>, subs: map<Sid, Sub>)
    requires |sent| == |before| + 1 && sent[|before|].frame == NegClose(sid)
    ensures Fetched(sent, |before|, sid, fetches, identities, 0) && subs == subs + AllAsked(fetches[..0], identities)
  {
  }

  lemma {:induction false} FetchedNext(sent: seq<Sent>, from: nat, sid: Sid, fetches: seq<Sid>,
                                       identities: seq<Pubkey>, k: nat, at: nat)
    requires k < |fetches| && Fetched(sent, from, sid, fetches, identities, k)
    ensures Fetched(sent + [Sent(Req(fetches[k], identities), at)], from, sid, fetches, identities, k + 1)
  {
  }

  lemma {:induction false} AskedMore(subs: map<Sid, Sub>, sids: seq<Sid>, i: nat, identities: seq<Pubkey>)
    requires i < |sids|
    ensures (subs + AllAsked(sids[..i], identities))[sids[i] := Sub(true, identities, false, false, false)] ==
      subs + AllAsked(sids[..i + 1], identities)
  {
  }

  /** A NEG-CLOSE and the first `k` fetches went out. */
  ghost predicate FetchesOut(a: State, b: State, sid: Sid, fetches: seq<Sid>, k: nat) {
    && a.sent <= b.sent && Fetched(b.sent, |a.sent|, sid, fetches, a.identities, k)
    && b.subs == a.subs + AllAsked(fetches[..k], a.identities)
  }

  ghost predicate AfterNegReply(c: Config, a: State, b: State, sid: Sid, pass: Pass, fetches: seq<Sid>) {
    && b == a.(clock := b.clock, sent := b.sent, negs := b.negs, subs := b.subs)
    && a.clock <= b.clock
    && b.negs == (if pass.More? then a.negs else a.negs - {sid})
    && if sid in a.negs && pass.Over? then
         exists k: nat :: FetchesOut(a, b, sid, fetches, k) && (a.gone ==> k == 0) && (IsOpen(c, b) ==> k == |fetches|)
       else
         && b.subs == a.subs
         && b.sent == a.sent + if sid in a.negs && pass.More? then [Sent(NegMsg(sid), b.clock)] else []
  }

  /** What each input may do. */
  ghost predicate Follows(c: Config, a: State, input: Input, b: State) {
    match input
    case Request(sid, fetch) => AfterRequest(c, a, b, sid, fetch)
    case Publish(id, retry) => AfterPublish(c, a, b, id, retry)
    case SendBurst(due, ids) => AfterBurst(c, a, b, due, ids)
    case OpenNeg(sid) => AfterOpenNeg(c, a, b, sid)
    case Timer(now) => AfterTimer(c, a, b, now)
    case Challenge(some) => AfterChallenge(c, a, b, some)
    case Closed(sid, reason) => AfterClosed(c, a, b, sid, reason)
    case Eose(sid) => AfterEose(a, b, sid)
    case Ok(at, id, accepted, reason) => AfterOk(c, a, b, at, id, accepted, reason)
    case NegErr(sid, reopen) => AfterNegErr(c, a, b, sid, reopen)
    case NegReply(sid, pass, fetches) => AfterNegReply(c, a, b, sid, pass, fetches)
    case Notice => b == a.(liveRefusals := a.liveRefusals + 1)
    case Gone => b == a.(gone := true)
  }

  /** The end of the session. */
  ghost predicate AfterFinish(a: State, b: State) {
    && b.authWaiting == [] && b.authEvents == [] && b.retries == [] && b.subs == Refused(a.subs, a.authWaiting)
    && b.published == GivenUp(GivenUp(a.published, a.authEvents), IdsOf(a.retries))
    && SameBurst(a.burst, b.burst) && Within(b.pending, a.pending)
    && b == a.(authWaiting := b.authWaiting, authEvents := b.authEvents, retries := b.retries, subs := b.subs,
               published := b.published, pending := b.pending, burst := b.burst)
  }

  class Session {
    const me: Pubkey
    const hasKeys: bool
    const authId: Id
    const until: nat

    var clock: nat
    var sent: seq<Sent>
    var gone: bool
    var challenge: bool
    var auth: AuthState
    var identities: seq<Pubkey>
    var authWaiting: seq<Sid>
    var authEvents: seq<Id>
    var subs: map<Sid, Sub>
    var negs: set<Sid>
    var published: map<Id, Option<bool>>
    var pending: map<Id, Pending>
    var retries: seq<Retry>
    var burst: Option<Burst>
    var burstsCompleted: nat
    var burstsRefused: nat
    var burstsUnanswered: nat
    /** Notices of a subscription without live events that no EOSE has followed. */
    var liveRefusals: nat
    /** Subscriptions whose EOSE followed such a notice. */
    var liveRefused: nat

    /** How many frames were out when the relay went away. */
    ghost var goneAfter: nat
    /** How many frames were out when the AUTH was accepted. */
    ghost var authedAfter: nat
    /** The number of the AUTH frame. */
    ghost var authFrame: nat
    /** The number of each subscription's last REQ. */
    ghost var lastReq: map<Sid, nat>
    /** The publications of the burst that went out. */
    ghost var burstIds: set<Id>

    ghost function Settings(): Config {
      Config(me, hasKeys, authId, until)
    }

    ghost function Current(): State
      reads this
    {
      State(clock, sent, gone, challenge, auth, identities, authWaiting, authEvents, subs, negs, published, pending,
            retries, burst, burstIds, liveRefusals, liveRefused)
    }

    /** No new work after the visit's end or the relay's. */
    ghost predicate Punctual()
      reads this`sent, this`gone, this`goneAfter
    {
      && (gone ==> goneAfter <= |sent|)
      && forall k :: 0 <= k < |sent| && Work(sent[k].frame) ==> sent[k].at < until && (gone ==> k < goneAfter)
    }

    /** At most one AUTH, and none before it is needed. */
    ghost predicate OneAuth()
      reads this`sent, this`auth, this`authFrame
    {
      && (auth != NotSent ==> hasKeys && authFrame < |sent| && sent[authFrame].frame == Auth(authId))
      && forall k :: 0 <= k < |sent| && sent[k].frame.Auth? ==> auth != NotSent && k == authFrame
    }

    /** Nothing waits on an AUTH that was answered. */
    ghost predicate NoneStranded()
      reads this`auth, this`authWaiting, this`authEvents
    {
      auth == Done || auth == Failed ==> authWaiting == [] && authEvents == []
    }

    /** Every REQ, and every subscription through its last REQ, carries
        exactly the identities accepted before it went out. */
    ghost predicate Identified()
      reads this`sent, this`auth, this`identities, this`authedAfter, this`subs, this`lastReq
    {
      && identities == (if auth == Done then [me] else [])
      && (auth == Done ==> authedAfter <= |sent|)
      && (forall k :: 0 <= k < |sent| && sent[k].frame.Req? ==>
            sent[k].frame.identities == IdentitiesAt(me, auth, authedAfter, k))
      && subs.Keys <= lastReq.Keys
      && (forall sid :: sid in subs ==>
            lastReq[sid] < |sent| && sent[lastReq[sid]].frame == Req(sid, subs[sid].identities))
      && (forall k :: 0 <= k < |sent| && sent[k].frame.Req? && sent[k].frame.sid in subs ==>
            k <= lastReq[sent[k].frame.sid])
    }

    /** Pending publications are the undecided ones, and the burst counts
        each of its own once when it is decided. */
    ghost predicate Booked()
      reads this`published, this`pending, this`burst, this`burstIds, this`burstsCompleted, this`burstsRefused
    {
      BooksFit(published, pending, burst, burstIds, burstsCompleted, burstsRefused, authId)
    }

    /** What every handler keeps also where it breaks `NoneStranded`. */
    ghost predicate InOrder()
      reads this
    {
      Punctual() && OneAuth() && Identified() && Booked()
    }

    ghost predicate Valid()
      reads this
    {
      InOrder() && NoneStranded()
    }

    constructor (me: Pubkey, hasKeys: bool, authId: Id, until: nat)
      ensures Valid() && burstsUnanswered == 0 && Settings() == Config(me, hasKeys, authId, until)
      ensures Current() == FRESH
    {
      this.me, this.hasKeys, this.authId, this.until := me, hasKeys, authId, until;
      clock, sent, gone, challenge, auth, identities := 0, [], false, false, NotSent, [];
      authWaiting, authEvents, subs, negs := [], [], map[], {};
      published, pending, retries := map[], map[], [];
      burst, burstsCompleted, burstsRefused, burstsUnanswered := None, 0, 0, 0;
      liveRefusals, liveRefused := 0, 0;
      goneAfter, authedAfter, authFrame, lastReq, burstIds := 0, 0, 0, map[], {};
    }

    /** Some later instant. */
    method Now() returns (now: nat)
      modifies this`clock
      ensures old(clock) <= now == clock
    {
      now :| clock <= now;
      clock := now;
    }

    /** Takes an instant and says whether `Punctual` allows work at it. */
    method Open() returns (open: bool, at: nat)
      modifies this`clock
      ensures old(clock) <= at == clock && (open <==> !gone && at < until)
    {
      at := Now();
      open := !gone && at < until;
    }

    method Send(frame: Frame, at: nat)
      modifies this`sent
      ensures sent == old(sent) + [Sent(frame, at)]
    {
      sent := sent + [Sent(frame, at)];
    }

    // ----------------------------------------------------------------
    // Subscriptions
    // ----------------------------------------------------------------

    method SendReq(sid: Sid, fetch: bool, at: nat)
      requires Punctual() && OneAuth() && Identified() && !gone && at < until
      modifies this`sent, this`subs, this`lastReq
      ensures Punctual() && OneAuth() && Identified()
      ensures sent == old(sent) + [Sent(Req(sid, identities), at)]
      ensures subs == old(subs)[sid := Sub(fetch, identities, false, false, false)]
    {
      Send(Req(sid, identities), at);
      lastReq := lastReq[sid := |sent| - 1];
      subs := subs[sid := Sub(fetch, identities, false, false, false)];
    }

    method Request(sid: Sid, fetch: bool) returns (ok: bool)
      requires Valid()
      modifies this`clock, this`sent, this`subs, this`lastReq
      ensures Valid() && old(clock) <= clock && (ok <==> !gone && clock < until)
      ensures sent == if ok then old(sent) + [Sent(Req(sid, identities), clock)] else old(sent)
      ensures subs == if ok then old(subs)[sid := Sub(fetch, identities, false, false, false)] else old(subs)
      ensures AfterRequest(Settings(), old(Current()), Current(), sid, fetch)
    {
      hide Punctual, OneAuth, NoneStranded, Identified, Booked;
      var at;
      ok, at := Open();
      if ok {
        SendReq(sid, fetch, at);
      }
      assert unchanged(`gone, `challenge, `auth, `identities, `authWaiting, `authEvents, `negs, `published, `pending,
                       `retries, `burst, `burstIds, `liveRefusals, `liveRefused);
    }

    method RefuseSub(sid: Sid)
      requires Identified()
      modifies this`subs
      ensures Identified() && subs == Refused(old(subs), [sid])
    {
      if sid in subs {
        subs := subs[sid := subs[sid].(refused := true)];
      }
    }

    // ----------------------------------------------------------------
    // Publications
    // ----------------------------------------------------------------

    method BurstProgress(accepted: bool)
      modifies this`burst, this`burstsCompleted, this`burstsRefused
      ensures burst == Progressed(old(burst), accepted)
      ensures burstsCompleted == old(burstsCompleted) + CompletedNow(burst)
      ensures burstsRefused == old(burstsRefused) + RefusedNow(burst)
    {
      if burst.None? {
        return;
      }
      var b := burst.value;
      if accepted {
        b := b.(accepted := b.accepted + 1);
      } else {
        b := b.(failed := b.failed + 1);
      }
      burst := Some(b);
      if b.accepted == b.total {
        burstsCompleted := burstsCompleted + 1;
      } else if b.accepted + b.failed == b.total {
        burstsRefused := burstsRefused + 1;
      }
    }

    /** A verdict on a pending publication, which nothing changes later. */
    method Settle(id: Id, verdict: bool)
      requires Booked() && id in pending
      modifies this`published, this`pending, this`burst, this`burstsCompleted, this`burstsRefused
      ensures Booked() && published == old(published)[id := Some(verdict)] && pending == old(pending) - {id}
      ensures Keeps(old(published), published) && published.Keys == old(published.Keys)
      ensures SameBurst(old(burst), burst)
    {
      hide BooksFit, CompletedNow, RefusedNow, Keeps, Progressed, SameBurst;
      ProgressSame(burst, verdict);
      SettleFits(published, pending, burst, burstIds, burstsCompleted, burstsRefused, authId, id, verdict);
      var background := pending[id].background;
      published := published[id := Some(verdict)];
      pending := pending - {id};
      if !background {
        BurstProgress(verdict);
      }
    }

    method GiveUp(id: Id)
      requires Booked()
      modifies this`published, this`pending, this`burst, this`burstsCompleted, this`burstsRefused
      ensures Booked() && published == GivenUp(old(published), [id]) && pending == old(pending) - {id}
      ensures SameBurst(old(burst), burst)
    {
      hide GivenUp, Keeps;
      GiveUpFits(published, pending, burstIds, id);
      if id in pending {
        Settle(id, false);
      }
    }

    method Resend(id: Id, at: nat)
      requires Punctual() && OneAuth() && Identified() && !gone && at < until
      modifies this`sent
      ensures Punctual() && OneAuth() && Identified() && sent == old(sent) + Events([id], published.Keys, at)
    {
      if id in published {
        Send(Event(id), at);
      }
    }

    /** Books a fresh id and sends its EVENT, or does neither. */
    method Publish(id: Id, retry: bool)
      requires Valid() && id !in published && id != authId
      modifies this`clock, this`sent, this`published, this`pending, this`burstIds
      ensures Valid() && AfterPublish(Settings(), old(Current()), Current(), id, retry)
    {
      hide Valid;
      var _ := Enter(id, true, retry);
      assert unchanged(`gone, `challenge, `auth, `identities, `authWaiting, `authEvents, `subs, `negs, `retries,
                       `burst, `liveRefusals, `liveRefused);
    }

    /** The same of any publication, of the burst or not. */
    method Enter(id: Id, background: bool, retry: bool) returns (ok: bool)
      requires Valid() && id !in published && id != authId
      requires !background ==> burst.Some? && |burstIds| < burst.value.total
      modifies this`clock, this`sent, this`published, this`pending, this`burstIds
      ensures Valid() && old(clock) <= clock && (ok <==> !gone && clock < until)
      ensures sent == if ok then old(sent) + [Sent(Event(id), clock)] else old(sent)
      ensures published == if ok then old(published)[id := None] else old(published)
      ensures pending == if ok then old(pending)[id := Pending(background, 1, retry)] else old(pending)
      ensures burstIds == if ok && !background then old(burstIds) + {id} else old(burstIds)
    {
      hide Punctual, OneAuth, NoneStranded, Identified, Booked;
      var at;
      ok, at := Open();
      if ok {
        Book(id, Pending(background, 1, retry));
        SendEvent(id, at);
      }
    }

    method Book(id: Id, p: Pending)
      requires Booked() && id !in published && id != authId
      requires !p.background ==> burst.Some? && |burstIds| < burst.value.total
      modifies this`published, this`pending, this`burstIds
      ensures Booked() && published == old(published)[id := None] && pending == old(pending)[id := p]
      ensures burstIds == if !p.background then old(burstIds) + {id} else old(burstIds)
    {
      hide Ledger, BurstFits, BurstCounts, Undecided;
      BookFits(published, pending, burst, burstIds, burstsCompleted, burstsRefused, id, p);
      ghost var ids := if p.background then burstIds else burstIds + {id};
      assert Ledger(published[id := None], pending[id := p], ids);
      assert BurstFits(burst, ids, pending[id := p].Keys, burstsCompleted, burstsRefused);
      assert BurstCounts(burst, ids, published[id := None]);
      published, pending, burstIds := published[id := None], pending[id := p], ids;
    }

    method SendEvent(id: Id, at: nat)
      requires Punctual() && OneAuth() && Identified() && !gone && at < until
      modifies this`sent
      ensures Punctual() && OneAuth() && Identified() && sent == old(sent) + [Sent(Event(id), at)]
    {
      Send(Event(id), at);
    }

    method StartBurst(due: nat, total: nat) returns (open: bool)
      requires Valid() && burst.None? && total > 0
      modifies this`clock, this`burst
      ensures Valid() && burstIds == {} && old(clock) <= clock && (open <==> !gone && clock < until)
      ensures burst == if open then Some(Burst(due, total, 0, 0)) else None
    {
      hide Punctual, OneAuth, NoneStranded, Identified;
      var at;
      open, at := Open();
      if open {
        burst := Some(Burst(due, total, 0, 0));
      }
    }

    /** Books and sends every id of a burst until the session ends; the burst
        counts them all. */
    method SendBurst(due: nat, ids: seq<Id>)
      requires Valid() && burst.None? && ids != []
      requires forall i :: 0 <= i < |ids| ==> ids[i] !in published && ids[i] != authId
      requires forall i, j :: 0 <= i < j < |ids| ==> ids[i] != ids[j]
      modifies this`clock, this`sent, this`published, this`pending, this`burstIds, this`burst
      ensures Valid() && AfterBurst(Settings(), old(Current()), Current(), due, ids)
    {
      hide Valid;
      hide BurstOut;
      var open := StartBurst(due, |ids|);
      assert unchanged(`sent, `published, `pending, `burstIds);
      if open {
        ghost var a := Current();
        ghost var k := SendAll(due, ids);
        SameOut(a, Current(), old(Current()), Current(), ids, k);
      }
      assert unchanged(`gone, `challenge, `auth, `identities, `authWaiting, `authEvents, `subs, `negs, `retries,
                       `liveRefusals, `liveRefused);
    }

    /** The first `k` of `ids` go out, all of them unless the session ends. */
    method SendAll(due: nat, ids: seq<Id>) returns (ghost k: nat)
      requires Valid() && burst == Some(Burst(due, |ids|, 0, 0)) && burstIds == {} && !gone
      requires forall i :: 0 <= i < |ids| ==> ids[i] !in published && ids[i] != authId
      requires forall i, j :: 0 <= i < j < |ids| ==> ids[i] != ids[j]
      modifies this`clock, this`sent, this`published, this`pending, this`burstIds
      ensures Valid() && old(clock) <= clock && BurstOut(old(Current()), Current(), ids, k)
      ensures clock < until ==> k == |ids|
    {
      hide Valid;
      hide BurstOut;
      ghost var a := Current();
      NoneOut(a, ids);
      k := 0;
      for i := 0 to |ids|
        invariant Valid() && old(clock) <= clock && |burstIds| <= i && k <= i
        invariant BurstOut(a, Current(), ids, k) && (clock < until ==> k == i)
      {
        ghost var b := Current();
        NotOut(a, b, ids, k, i);
        var ok := Enter(ids[i], false, true);
        if ok {
          NextOut(a, b, Current(), ids, k);
          k := i + 1;
        } else {
          SameOut(a, b, a, Current(), ids, k);
        }
      }
    }

    // ----------------------------------------------------------------
    // Authentication
    // ----------------------------------------------------------------

    method StartAuth() returns (started: bool)
      requires Punctual() && OneAuth() && Identified()
      modifies this`clock, this`sent, this`auth, this`authFrame
      ensures Punctual() && OneAuth() && Identified() && old(clock) <= clock
      ensures
        if hasKeys && challenge && old(auth) == NotSent && !gone && clock < until then
          started && auth == Waiting && sent == old(sent) + [Sent(Auth(authId), clock)]
        else
          && auth == old(auth) && sent == old(sent)
          && (started <==> hasKeys && challenge && (auth == Waiting || auth == Done))
    {
      if !hasKeys || !challenge {
        return false;
      }
      if auth != NotSent {
        return auth == Waiting || auth == Done;
      }
      var open, at := Open();
      if !open {
        return false;
      }
      Send(Auth(authId), at);
      auth := Waiting;
      authFrame := |sent| - 1;
      return true;
    }

    method OnChallenge(some: bool)
      requires Valid()
      modifies this`clock, this`sent, this`auth, this`authFrame, this`challenge
      ensures Valid() && challenge == some
      ensures
        if (authWaiting != [] || authEvents != [])
          && hasKeys && some && old(auth) == NotSent && !gone && clock < until then
          auth == Waiting && sent == old(sent) + [Sent(Auth(authId), clock)]
        else auth == old(auth) && sent == old(sent)
      ensures AfterChallenge(Settings(), old(Current()), Current(), some)
    {
      hide Punctual, OneAuth, Identified, Booked;
      challenge := some;
      if authWaiting != [] || authEvents != [] {
        var _ := StartAuth();
      }
      assert unchanged(`gone, `identities, `authWaiting, `authEvents, `subs, `negs, `published, `pending, `retries,
                       `burst, `burstIds, `liveRefusals, `liveRefused);
    }

    method CanAuth() returns (can: bool)
      modifies this`clock
      ensures old(clock) <= clock
      ensures can <==> !gone && clock < until && hasKeys && (auth == NotSent || auth == Waiting)
    {
      var open, _ := Open();
      can := open && hasKeys && (auth == NotSent || auth == Waiting);
    }

    /** A subscription the relay closed waits for the AUTH where one can
        still help, and is refused otherwise. */
    method OnClosed(sid: Sid, reason: Reason)
      requires Valid()
      modifies this`clock, this`sent, this`auth, this`authFrame, this`authWaiting, this`subs
      ensures Valid() && AfterClosed(Settings(), old(Current()), Current(), sid, reason)
    {
      hide Valid;
      hide Refused, AuthBegun;
      if sid in subs && !subs[sid].closed {
        ghost var waits := WaitOrRefuse(sid, reason == AuthRequired && !subs[sid].eose);
        assert unchanged(`gone, `challenge, `identities, `authEvents, `negs, `published, `pending, `retries, `burst,
                         `burstIds, `liveRefusals, `liveRefused);
      }
    }

    method WaitOrRefuse(sid: Sid, wanted: bool) returns (ghost waits: bool)
      requires Valid()
      modifies this`clock, this`sent, this`auth, this`authFrame, this`authWaiting, this`subs
      ensures Valid() && old(clock) <= clock
      ensures
        var may := wanted && hasKeys && old(auth) in {NotSent, Waiting} && !gone;
        (may && clock < until ==> waits) && (waits ==> may)
      ensures waits ==> AuthBegun(Settings(), challenge && !gone, old(auth), old(sent), auth, sent, clock)
      ensures waits ==> subs == old(subs) && authWaiting == old(authWaiting) + [sid]
      ensures !waits ==>
        && subs == Refused(old(subs), [sid]) && authWaiting == old(authWaiting) && sent == old(sent)
        && auth == old(auth)
    {
      hide Punctual, OneAuth, Identified, Booked, NoneStranded, Refused, AuthBegun;
      waits := false;
      var can := CanAuth();
      if wanted && can {
        var behind := WaitSub(sid);
        if behind {
          waits := true;
          return;
        }
      }
      RefuseSub(sid);
    }

    /** Puts a subscription behind the AUTH, starting it where it can start. */
    method WaitSub(sid: Sid) returns (waits: bool)
      requires Punctual() && OneAuth() && Identified() && NoneStranded() && (auth == NotSent || auth == Waiting)
      modifies this`clock, this`sent, this`auth, this`authFrame, this`authWaiting
      ensures Punctual() && OneAuth() && Identified() && NoneStranded() && old(sent) <= sent && old(clock) <= clock
      ensures authWaiting == if waits then old(authWaiting) + [sid] else old(authWaiting)
      ensures hasKeys && !gone && clock < until ==> waits
      ensures waits ==> AuthBegun(Settings(), challenge && !gone, old(auth), old(sent), auth, sent, clock)
      ensures !waits ==> sent == old(sent) && auth == old(auth)
    {
      hide Punctual, OneAuth, Identified;
      authWaiting := authWaiting + [sid];
      var started := StartAuth();
      waits := started || !challenge;
      if !waits {
        authWaiting := authWaiting[..|authWaiting| - 1];
      }
    }

    method AskAgain(open: bool, at: nat)
      requires Punctual() && OneAuth() && Identified() && (open ==> !gone && at < until)
      modifies this`sent, this`subs, this`lastReq, this`authWaiting
      ensures Punctual() && OneAuth() && Identified()
      ensures authWaiting == []
      ensures sent == old(sent) + if open then Requests(old(authWaiting), old(subs.Keys), identities, at) else []
      ensures open ==> subs == AskedAgain(old(subs), old(authWaiting), identities)
      ensures !open ==> subs == Refused(old(subs), old(authWaiting))
    {
      hide Punctual, OneAuth, Identified, Requests, AskedAgain, Refused;
      if !open {
        RefuseWaiting();
        return;
      }
      var waiting := authWaiting;
      authWaiting := [];
      NoneAsked(subs, identities, at);
      for i := 0 to |waiting|
        invariant Punctual() && OneAuth() && Identified() && authWaiting == []
        invariant sent == old(sent) + Requests(waiting[..i], old(subs.Keys), identities, at)
        invariant subs == AskedAgain(old(subs), waiting[..i], identities)
      {
        AskedAgainStep(old(subs), waiting, identities, i);
        RequestsStep(waiting, old(subs.Keys), identities, at, i);
        RequestAgain(waiting[i], at);
      }
      assert waiting[..|waiting|] == waiting;
    }

    method RequestAgain(sid: Sid, at: nat)
      requires Punctual() && OneAuth() && Identified() && !gone && at < until
      modifies this`sent, this`subs, this`lastReq
      ensures Punctual() && OneAuth() && Identified()
      ensures sent == old(sent) + Requests([sid], old(subs.Keys), identities, at)
      ensures subs == AskedAgain(old(subs), [sid], identities)
    {
      hide Punctual, OneAuth, Identified, AskedAgain;
      AskedAgainOne(subs, sid, identities);
      if sid in subs {
        var fetch := subs[sid].fetch;
        ForgetSub(sid);
        SendReq(sid, fetch, at);
      }
    }

    method ForgetSub(sid: Sid)
      requires Identified()
      modifies this`subs
      ensures Identified() && subs == old(subs) - {sid}
    {
      subs := subs - {sid};
    }

    method PublishAgain(open: bool, at: nat)
      requires Punctual() && OneAuth() && Identified() && Booked() && (open ==> !gone && at < until)
      modifies this`sent, this`authEvents, this`published, this`pending, this`burst, this`burstsCompleted,
               this`burstsRefused
      ensures Punctual() && OneAuth() && Identified() && Booked() && SameBurst(old(burst), burst)
      ensures authEvents == []
      ensures sent == old(sent) + if open then Events(old(authEvents), published.Keys, at) else []
      ensures published == if open then old(published) else GivenUp(old(published), old(authEvents))
      ensures Within(pending, old(pending))
    {
      hide Punctual, OneAuth, Identified, Booked;
      var events := authEvents;
      authEvents := [];
      if !open {
        GiveUpAll(events);
        return;
      }
      for i := 0 to |events|
        modifies this`sent
        invariant Punctual() && OneAuth() && Identified()
        invariant sent == old(sent) + Events(events[..i], published.Keys, at)
      {
        assert events[..i + 1][..i] == events[..i];
        Resend(events[i], at);
      }
      assert events[..|events|] == events;
    }

    /** The relay's answer to the AUTH. What waited for it is sent again, or
        stays refused. */
    method OnAuthAnswer(accepted: bool)
      requires Valid() && auth == Waiting
      modifies this`clock, this`sent, this`auth, this`identities, this`authedAfter, this`subs, this`lastReq,
               this`authWaiting, this`authEvents, this`published, this`pending, this`burst, this`burstsCompleted,
               this`burstsRefused
      ensures Valid() && old(sent) <= sent
      ensures Keeps(old(published), published) && published.Keys == old(published.Keys) && SameBurst(old(burst), burst)
      ensures auth == (if accepted then Done else Failed) && authWaiting == [] && authEvents == []
      ensures AfterAuthAnswer(Settings(), old(Current()), Current(), accepted)
    {
      hide Valid;
      hide Keeps, GivenUp, AskedAgain, Requests, Events, Refused, Within, SameBurst;
      GivenUpKeeps(published, authEvents);
      KeepsSame(published);
      DrainWaiting(accepted);
      assert unchanged(`gone, `challenge, `negs, `retries, `burstIds, `liveRefusals, `liveRefused);
    }

    method DrainWaiting(accepted: bool)
      requires Valid() && auth == Waiting
      modifies this`clock, this`sent, this`auth, this`identities, this`authedAfter, this`subs, this`lastReq,
               this`authWaiting, this`authEvents, this`published, this`pending, this`burst, this`burstsCompleted,
               this`burstsRefused
      ensures Valid() && old(clock) <= clock && SameBurst(old(burst), burst) && Within(pending, old(pending))
      ensures auth == (if accepted then Done else Failed) && authWaiting == [] && authEvents == []
      ensures identities == if accepted then [me] else old(identities)
      ensures
        if accepted && !gone && clock < until then
          && sent == old(sent) + Requests(old(authWaiting), old(subs.Keys), [me], clock) +
            Events(old(authEvents), old(published.Keys), clock)
          && subs == AskedAgain(old(subs), old(authWaiting), [me]) && published == old(published)
        else
          && sent == old(sent)
          && subs == Refused(old(subs), old(authWaiting)) && published == GivenUp(old(published), old(authEvents))
    {
      hide Punctual, OneAuth, Identified, Booked, Keeps, GivenUp, AskedAgain, Requests, Events, Refused, Within;
      var open, at := Answered(accepted);
      AskAgain(open, at);
      PublishAgain(open, at);
    }

    method Answered(accepted: bool) returns (open: bool, at: nat)
      requires OneAuth() && Identified() && auth == Waiting
      modifies this`clock, this`auth, this`identities, this`authedAfter
      ensures OneAuth() && Identified() && auth == (if accepted then Done else Failed)
      ensures identities == if accepted then [me] else old(identities)
      ensures old(clock) <= clock && (open <==> accepted && !gone && clock < until) && (open ==> at == clock)
    {
      open, at := false, 0;
      if accepted {
        auth := Done;
        identities := identities + [me];
        authedAfter := |sent|;
        open, at := Open();
      } else {
        auth := Failed;
      }
    }

    // ----------------------------------------------------------------
    // Answers and timers
    // ----------------------------------------------------------------

    method OnOk(at: nat, id: Id, accepted: bool, reason: Reason)
      requires Valid()
      modifies this`clock, this`sent, this`auth, this`authFrame, this`identities, this`authedAfter, this`subs,
               this`lastReq, this`authWaiting, this`authEvents, this`retries, this`published, this`pending, this`burst,
               this`burstsCompleted, this`burstsRefused
      ensures Valid() && old(sent) <= sent
      ensures Keeps(old(published), published) && published.Keys == old(published.Keys) && SameBurst(old(burst), burst)
      ensures AfterOk(Settings(), old(Current()), Current(), at, id, accepted, reason)
    {
      hide Punctual, OneAuth, Identified, Booked, NoneStranded, AfterAuthAnswer, AfterAnswer;
      if auth == Waiting && id == authId {
        OnAuthAnswer(accepted);
      } else if id in pending {
        OnAnswer(at, id, accepted, reason);
      }
    }

    /** A refused publication waits for the AUTH, is tried later, or is given
        up. */
    method OnAnswer(at: nat, id: Id, accepted: bool, reason: Reason)
      requires Valid() && id in pending
      modifies this`clock, this`sent, this`auth, this`authFrame, this`authEvents, this`retries,
               this`published, this`pending, this`burst, this`burstsCompleted, this`burstsRefused
      ensures Valid() && old(sent) <= sent
      ensures Keeps(old(published), published) && published.Keys == old(published.Keys) && SameBurst(old(burst), burst)
      ensures AfterAnswer(Settings(), old(Current()), Current(), at, id, accepted, reason)
    {
      hide Valid;
      hide Keeps, AuthBegun, AfterAnswer;
      ghost var a := Current();
      if accepted {
        Accept(id);
        assert unchanged(`gone, `challenge, `identities, `authWaiting, `subs, `negs, `burstIds);
        assert unchanged(`liveRefusals, `liveRefused);
        AcceptedFollows(Settings(), a, Current(), at, id, reason);
      } else {
        ghost var held, delayed := OnRefusal(at, id, reason);
        assert unchanged(`gone, `challenge, `identities, `authWaiting, `subs, `negs, `burstIds);
        assert unchanged(`liveRefusals, `liveRefused);
        RefusalFollows(Settings(), a, Current(), at, id, reason, held, delayed);
      }
    }

    method Accept(id: Id)
      requires Valid() && id in pending
      modifies this`published, this`pending, this`burst, this`burstsCompleted, this`burstsRefused
      ensures Valid() && published == old(published)[id := Some(true)] && pending == old(pending) - {id}
      ensures Keeps(old(published), published) && published.Keys == old(published.Keys)
      ensures SameBurst(old(burst), burst)
    {
      hide Punctual, OneAuth, Identified, NoneStranded, Booked, Keeps;
      Settle(id, true);
    }

    /** `held`: behind the AUTH; `delayed`: in the queue of retries; neither: given up. */
    method OnRefusal(at: nat, id: Id, reason: Reason) returns (ghost held: bool, ghost delayed: bool)
      requires Valid() && id in pending
      modifies this`clock, this`sent, this`auth, this`authFrame, this`authEvents, this`retries,
               this`published, this`pending, this`burst, this`burstsCompleted, this`burstsRefused
      ensures Valid() && old(sent) <= sent && old(clock) <= clock && SameBurst(old(burst), burst)
      ensures Keeps(old(published), published) && published.Keys == old(published.Keys)
      ensures
        var may := old(pending)[id].retry && reason == AuthRequired && hasKeys && old(auth) in {NotSent, Waiting} &&
          !gone;
        && (may && clock < until ==> held) && (held ==> may)
        && (delayed <==> old(pending)[id].retry && reason == RateLimited && at + Delay(old(pending)[id]) < until)
      ensures held ==> AuthBegun(Settings(), challenge && !gone, old(auth), old(sent), auth, sent, clock)
      ensures !held ==> auth == old(auth) && sent == old(sent)
      ensures held || delayed ==> published == old(published) && burst == old(burst)
      ensures !held && !delayed ==> published == old(published)[id := Some(false)] && pending == old(pending) - {id}
      ensures held ==> pending == old(pending)
      ensures delayed ==>
        pending == old(pending)[id := old(pending)[id].(attempts := old(pending)[id].attempts + 1)]
      ensures authEvents == if held then old(authEvents) + [id] else old(authEvents)
      ensures retries == if delayed then old(retries) + [Retry(at + Delay(old(pending)[id]), id)] else old(retries)
    {
      hide Punctual, OneAuth, Identified, NoneStranded, Booked, Keeps, AuthBegun;
      held, delayed := false, false;
      KeepsSame(published);
      var retry, attempts := pending[id].retry, pending[id].attempts;
      if retry && reason == AuthRequired {
        var waits := TryAuth(id);
        if waits {
          held := true;
          return;
        }
      }
      var delay := 250 * Min(attempts, 12);
      if retry && reason == RateLimited && at + delay < until {
        TryLater(id, at + delay);
        delayed := true;
        return;
      }
      Settle(id, false);
    }

    method TryAuth(id: Id) returns (waits: bool)
      requires Punctual() && OneAuth() && Identified() && NoneStranded()
      modifies this`clock, this`sent, this`auth, this`authFrame, this`authEvents
      ensures Punctual() && OneAuth() && Identified() && NoneStranded() && old(sent) <= sent && old(clock) <= clock
      ensures waits ==> AuthBegun(Settings(), challenge && !gone, old(auth), old(sent), auth, sent, clock)
      ensures waits ==> hasKeys && old(auth) in {NotSent, Waiting} && !gone && authEvents == old(authEvents) + [id]
      ensures !waits ==> authEvents == old(authEvents) && sent == old(sent) && auth == old(auth)
      ensures hasKeys && old(auth) in {NotSent, Waiting} && !gone && clock < until ==> waits
    {
      hide Punctual, OneAuth, Identified, NoneStranded, AuthBegun;
      waits := CanAuth();
      if waits {
        waits := WaitForAuth(id);
      }
    }

    /** Puts a publication behind the AUTH, starting it where it can start. */
    method WaitForAuth(id: Id) returns (waits: bool)
      requires Punctual() && OneAuth() && Identified() && NoneStranded() && (auth == NotSent || auth == Waiting)
      modifies this`clock, this`sent, this`auth, this`authFrame, this`authEvents
      ensures Punctual() && OneAuth() && Identified() && NoneStranded() && old(sent) <= sent && old(clock) <= clock
      ensures authEvents == if waits then old(authEvents) + [id] else old(authEvents)
      ensures hasKeys && !gone && clock < until ==> waits
      ensures waits ==> AuthBegun(Settings(), challenge && !gone, old(auth), old(sent), auth, sent, clock)
      ensures !waits ==> sent == old(sent) && auth == old(auth)
    {
      hide Punctual, OneAuth, Identified;
      authEvents := authEvents + [id];
      var started := StartAuth();
      waits := started || !challenge;
      if !waits {
        authEvents := authEvents[..|authEvents| - 1];
      }
    }

    method TryLater(id: Id, at: nat)
      requires Booked() && id in pending
      modifies this`pending, this`retries
      ensures Booked() && pending == old(pending)[id := old(pending)[id].(attempts := old(pending)[id].attempts + 1)]
      ensures retries == old(retries) + [Retry(at, id)]
    {
      pending := pending[id := pending[id].(attempts := pending[id].attempts + 1)];
      retries := retries + [Retry(at, id)];
    }

    /** No retry due at `now` is left: the first `k` of them were sent again,
        in order, and the rest, which the session's end overtook, are decided. */
    method OnTimer(now: nat) returns (ghost k: nat)
      requires Valid()
      modifies this`clock, this`sent, this`retries
      modifies this`published, this`pending, this`burst, this`burstsCompleted, this`burstsRefused
      ensures Valid() && AfterTimer(Settings(), old(Current()), Current(), now)
      ensures
        var ids := IdsOf(Due(old(retries), now, true));
        && Retried(sent, |old(sent)|, old(published), published, ids, k)
        && AllHandled(sent, |old(sent)|, published, ids)
    {
      hide Valid;
      hide Retried, AllHandled, Keeps, Within, SameBurst;
      ghost var ids := IdsOf(Due(retries, now, true));
      k := RetryDue(now);
      RetriedHandles(sent, |old(sent)|, old(published), published, ids, k);
      assert TimerOut(Settings(), old(Current()), Current(), ids, k);
      assert unchanged(`gone, `challenge, `auth, `identities, `authWaiting, `authEvents, `subs, `negs, `burstIds,
                       `liveRefusals, `liveRefused);
    }

    method RetryDue(now: nat) returns (ghost k: nat)
      requires Valid()
      modifies this`clock, this`sent, this`retries
      modifies this`published, this`pending, this`burst, this`burstsCompleted, this`burstsRefused
      ensures Valid() && old(clock) <= clock && old(sent) <= sent && SameBurst(old(burst), burst)
      ensures retries == Due(old(retries), now, false) && Within(pending, old(pending))
      ensures
        var ids := IdsOf(Due(old(retries), now, true));
        && Retried(sent, |old(sent)|, old(published), published, ids, k)
        && (gone ==> k == 0) && (!gone && clock < until ==> k == |ids|)
    {
      hide Punctual, OneAuth, Identified, Booked, NoneStranded, Retried, Within, SameBurst;
      var ids := IdsOf(Due(retries, now, true));
      retries := Due(retries, now, false);
      k := RetryAll(ids);
    }

    /** Of `ids`, handed over at a given state, `k` went out again so far. */
    ghost predicate Retrying(a: State, ids: seq<Id>, k: nat)
      reads this
    {
      && InOrder() && a.clock <= clock && a.sent <= sent && SameBurst(a.burst, burst) && Within(pending, a.pending)
      && Retried(sent, |a.sent|, a.published, published, ids, k)
      && (gone ==> k == 0) && (!gone && clock < until ==> k == |ids|)
    }

    lemma {:induction false} NothingRetried()
      requires InOrder()
      ensures Retrying(Current(), [], 0)
    {
      hide InOrder;
      NoneRetried(sent, published);
    }

    method RetryAll(ids: seq<Id>) returns (ghost k: nat)
      requires InOrder()
      modifies this`clock, this`sent, this`published, this`pending, this`burst, this`burstsCompleted, this`burstsRefused
      ensures Retrying(old(Current()), ids, k)
    {
      hide *;
      k := 0;
      NothingRetried();
      assert ids[..0] == [];
      for i := 0 to |ids|
        invariant Retrying(old(Current()), ids[..i], k)
      {
        k := RetryOne(ids, i, k, old(Current()));
      }
      assert ids[..|ids|] == ids;
    }

    method RetryOne(ids: seq<Id>, i: nat, ghost k: nat, ghost a: State) returns (ghost k': nat)
      requires i < |ids| && Retrying(a, ids[..i], k)
      modifies this`clock, this`sent, this`published, this`pending, this`burst, this`burstsCompleted, this`burstsRefused
      ensures Retrying(a, ids[..i + 1], k')
    {
      hide Punctual, OneAuth, Identified, Booked, Retried, Events, GivenUp;
      k' := k;
      var open, at := Open();
      if open {
        RetriedNext(sent, |a.sent|, a.published, published, ids, i, at);
        Resend(ids[i], at);
        k' := i + 1;
      } else {
        RetriedNoMore(sent, |a.sent|, a.published, published, ids, i, k);
        GiveUp(ids[i]);
      }
    }

    // ----------------------------------------------------------------
    // Other messages
    // ----------------------------------------------------------------

    method SendPlain(frame: Frame)
      requires Valid() && !Work(frame)
      modifies this`clock, this`sent
      ensures Valid() && sent == old(sent) + [Sent(frame, clock)] && old(clock) <= clock
    {
      hide Booked, NoneStranded;
      var at := Now();
      Send(frame, at);
    }

    /** A NOTICE that some subscription gets no live events. It does not say
        which one; the next EOSE does. */
    method OnNotice()
      requires Valid()
      modifies this`liveRefusals
      ensures Valid() && Current() == old(Current()).(liveRefusals := old(Current()).liveRefusals + 1)
    {
      hide Punctual, OneAuth, Identified, Booked, NoneStranded;
      liveRefusals := liveRefusals + 1;
    }

    method UpdateSub(sid: Sid, sub: Sub)
      requires Identified() && sid in subs && sub.identities == subs[sid].identities
      modifies this`subs
      ensures Identified() && subs == old(subs)[sid := sub]
    {
      subs := subs[sid := sub];
    }

    method MarkEose(sid: Sid)
      requires Valid() && sid in subs
      modifies this`subs, this`liveRefusals, this`liveRefused
      ensures Valid()
      ensures subs == old(subs)[sid := Ended(old(subs)[sid], old(liveRefusals) > 0)]
      ensures old(liveRefusals) == 0 ==> liveRefusals == 0 && liveRefused == old(liveRefused)
      ensures old(liveRefusals) > 0 ==> liveRefusals == old(liveRefusals) - 1 && liveRefused == old(liveRefused) + 1
    {
      hide Punctual, OneAuth, Identified, Booked, NoneStranded;
      UpdateSub(sid, Ended(subs[sid], liveRefusals > 0));
      if liveRefusals > 0 {
        liveRefusals, liveRefused := liveRefusals - 1, liveRefused + 1;
      }
    }

    /** The first EOSE ends the history; a fetch is then closed. One notice, if
        any is left, is this subscription's: it is refused from here on. */
    method OnEose(sid: Sid)
      requires Valid()
      modifies this`clock, this`sent, this`subs, this`liveRefusals, this`liveRefused
      ensures Valid() && AfterEose(old(Current()), Current(), sid)
    {
      hide Valid;
      if sid in subs && !subs[sid].eose && !subs[sid].refused {
        var fetch := subs[sid].fetch;
        MarkEose(sid);
        if fetch {
          SendPlain(Close(sid));
        }
      }
      assert unchanged(`gone, `challenge, `auth, `identities, `authWaiting, `authEvents, `negs, `published, `pending,
                       `retries, `burst, `burstIds);
    }

    method SendNegOpen(sid: Sid, at: nat)
      requires Punctual() && OneAuth() && Identified() && !gone && at < until
      modifies this`sent, this`negs
      ensures Punctual() && OneAuth() && Identified() && sent == old(sent) + [Sent(NegOpen(sid), at)]
      ensures negs == old(negs) + {sid}
    {
      Send(NegOpen(sid), at);
      negs := negs + {sid};
    }

    method OpenNeg(sid: Sid)
      requires Valid()
      modifies this`clock, this`sent, this`negs
      ensures Valid()
      ensures
        if !gone && clock < until then sent == old(sent) + [Sent(NegOpen(sid), clock)] && negs == old(negs) + {sid}
        else sent == old(sent) && negs == old(negs)
      ensures AfterOpenNeg(Settings(), old(Current()), Current(), sid)
    {
      hide Punctual, OneAuth, Identified, Booked, NoneStranded;
      var open, at := Open();
      if open {
        SendNegOpen(sid, at);
      }
      assert unchanged(`gone, `challenge, `auth, `identities, `authWaiting, `authEvents, `subs, `published, `pending,
                       `retries, `burst, `burstIds, `liveRefusals, `liveRefused);
    }

    /** A pass the relay ended; it is opened again only where the relay asks
        for that and the session may. */
    method OnNegErr(sid: Sid, reopen: bool)
      requires Valid()
      modifies this`clock, this`sent, this`negs
      ensures Valid()
      ensures
        if sid in old(negs) && reopen && !gone && clock < until then
          sent == old(sent) + [Sent(NegOpen(sid), clock)] && negs == old(negs)
        else sent == old(sent) && negs == old(negs) - {sid}
      ensures AfterNegErr(Settings(), old(Current()), Current(), sid, reopen)
    {
      hide Punctual, OneAuth, Identified, Booked, NoneStranded;
      if sid in negs {
        negs := negs - {sid};
        var open, at := Open();
        if reopen && open {
          SendNegOpen(sid, at);
        }
      }
      assert unchanged(`gone, `challenge, `auth, `identities, `authWaiting, `authEvents, `subs, `published, `pending,
                       `retries, `burst, `burstIds, `liveRefusals, `liveRefused);
    }

    /** A finished pass is closed, and the first `k` of `fetches` are asked for. */
    method OnNegMsg(sid: Sid, pass: Pass, fetches: seq<Sid>)
      requires Valid()
      modifies this`clock, this`sent, this`negs, this`subs, this`lastReq
      ensures Valid() && AfterNegReply(Settings(), old(Current()), Current(), sid, pass, fetches)
    {
      hide Valid;
      hide Fetched, AllAsked;
      if sid in negs {
        match pass {
          case More => SendPlain(NegMsg(sid));
          case Bad => DropNeg(sid);
          case Over =>
            DropNeg(sid);
            ghost var k := FetchAll(sid, fetches);
            assert FetchesOut(old(Current()), Current(), sid, fetches, k);
        }
      }
      assert unchanged(`gone, `challenge, `auth, `identities, `authWaiting, `authEvents, `published, `pending,
                       `retries, `burst, `burstIds, `liveRefusals, `liveRefused);
    }

    method DropNeg(sid: Sid)
      requires Valid()
      modifies this`negs
      ensures Valid() && negs == old(negs) - {sid}
    {
      hide Punctual, OneAuth, Identified, Booked, NoneStranded;
      negs := negs - {sid};
    }

    method FetchAll(sid: Sid, fetches: seq<Sid>) returns (ghost k: nat)
      requires Valid()
      modifies this`clock, this`sent, this`subs, this`lastReq
      ensures Valid() && old(sent) <= sent && old(clock) <= clock
      ensures Fetched(sent, |old(sent)|, sid, fetches, identities, k)
      ensures subs == old(subs) + AllAsked(fetches[..k], identities)
      ensures (gone ==> k == 0) && (!gone && clock < until ==> k == |fetches|)
    {
      hide Valid;
      hide AfterRequest, Fetched, AllAsked;
      k := 0;
      SendPlain(NegClose(sid));
      NoneFetched(old(sent), sent, sid, fetches, identities, subs);
      for i := 0 to |fetches|
        invariant Valid() && old(sent) <= sent && old(clock) <= clock && k <= i
        invariant Fetched(sent, |old(sent)|, sid, fetches, identities, k)
        invariant subs == old(subs) + AllAsked(fetches[..k], identities)
        invariant (gone ==> k == 0) && (!gone && clock < until ==> k == i)
      {
        var ok := Request(fetches[i], true);
        if ok {
          AskedMore(old(subs), fetches, i, identities);
          FetchedNext(sent[..|sent| - 1], |old(sent)|, sid, fetches, identities, i, clock);
          k := i + 1;
        }
      }
    }

    method OnGone()
      requires Valid()
      modifies this`gone, this`goneAfter
      ensures Valid() && goneAfter == if old(gone) then old(goneAfter) else |sent|
      ensures Current() == old(Current()).(gone := true)
    {
      hide OneAuth, NoneStranded, Identified, Booked;
      if !gone {
        gone := true;
        goneAfter := |sent|;
      }
    }

    /** The end of the session: what still waits stays refused, and a burst
        without its outcome counts as unanswered unless the relay cut the
        session off. */
    method Finish()
      requires Valid()
      modifies this`authWaiting, this`authEvents, this`retries, this`subs,
               this`published, this`pending, this`burst, this`burstsCompleted, this`burstsRefused, this`burstsUnanswered
      ensures Valid() && authWaiting == [] && authEvents == [] && retries == []
      ensures published == GivenUp(GivenUp(old(published), old(authEvents)), IdsOf(old(retries)))
      ensures Keeps(old(published), published)
      ensures SameBurst(old(burst), burst)
      ensures burstsUnanswered == old(burstsUnanswered) + (if Unanswered(burst, gone, until) then 1 else 0)
      ensures AfterFinish(old(Current()), Current())
    {
      hide Valid;
      hide GivenUp, Keeps, IdsOf, Unanswered, Refused, Within, SameBurst;
      EndAll();
      assert unchanged(`clock, `sent, `gone, `challenge, `auth, `identities, `negs, `burstIds);
      assert unchanged(`liveRefusals, `liveRefused);
    }

    method EndAll()
      requires Valid()
      modifies this`authWaiting, this`authEvents, this`retries, this`subs,
               this`published, this`pending, this`burst, this`burstsCompleted, this`burstsRefused, this`burstsUnanswered
      ensures Valid() && authWaiting == [] && authEvents == [] && retries == []
      ensures published == GivenUp(GivenUp(old(published), old(authEvents)), IdsOf(old(retries)))
      ensures subs == Refused(old(subs), old(authWaiting))
      ensures Keeps(old(published), published) && Within(pending, old(pending))
      ensures SameBurst(old(burst), burst)
      ensures burstsUnanswered == old(burstsUnanswered) + (if Unanswered(burst, gone, until) then 1 else 0)
    {
      hide Punctual, OneAuth, Identified, Booked, GivenUp, Keeps, IdsOf, Unanswered, Refused, Within;
      RefuseWaiting();
      RefuseRest();
      EndBurst();
    }

    method RefuseRest()
      requires Booked()
      modifies this`authEvents, this`retries, this`published, this`pending, this`burst, this`burstsCompleted,
               this`burstsRefused
      ensures Booked() && authEvents == [] && retries == []
      ensures published == GivenUp(GivenUp(old(published), old(authEvents)), IdsOf(old(retries)))
      ensures Keeps(old(published), published)
      ensures SameBurst(old(burst), burst) && Within(pending, old(pending))
    {
      hide Booked, GivenUp, Keeps, IdsOf;
      var ids := authEvents;
      authEvents := [];
      GiveUpAll(ids);
      ids := IdsOf(retries);
      retries := [];
      GiveUpAll(ids);
      GivenUpTwice(old(published), old(authEvents), ids);
    }

    method RefuseWaiting()
      requires Identified()
      modifies this`authWaiting, this`subs
      ensures Identified() && authWaiting == []
      ensures subs == Refused(old(subs), old(authWaiting))
    {
      hide Identified;
      var waiting := authWaiting;
      authWaiting := [];
      assert Refused(subs, waiting[..0]) == subs;
      for i := 0 to |waiting|
        invariant Identified() && authWaiting == []
        invariant subs == Refused(old(subs), waiting[..i])
      {
        RefusedStep(old(subs), waiting, i);
        hide Refused;
        RefuseSub(waiting[i]);
      }
      assert waiting[..|waiting|] == waiting;
    }

    method EndBurst()
      modifies this`burstsUnanswered
      ensures burstsUnanswered == old(burstsUnanswered) + (if Unanswered(burst, gone, until) then 1 else 0)
    {
      if burst.Some? && burst.value.accepted + burst.value.failed < burst.value.total {
        if !gone && burst.value.due < until {
          burstsUnanswered := burstsUnanswered + 1;
        }
      }
    }

    method GiveUpAll(ids: seq<Id>)
      requires Booked()
      modifies this`published, this`pending, this`burst, this`burstsCompleted, this`burstsRefused
      ensures Booked() && published == GivenUp(old(published), ids)
      ensures SameBurst(old(burst), burst) && Within(pending, old(pending))
    {
      hide Booked;
      assert GivenUp(published, ids[..0]) == published;
      for i := 0 to |ids|
        invariant Booked() && published == GivenUp(old(published), ids[..i])
        invariant SameBurst(old(burst), burst) && Within(pending, old(pending))
      {
        GivenUpStep(old(published), ids, i);
        hide GivenUp;
        GiveUp(ids[i]);
      }
      assert ids[..|ids|] == ids;
    }

    /** One message of the relay, or its going away. */
    method OnMessage(input: Input)
      requires Valid() && IsMessage(input)
      modifies this
      ensures Valid() && burstsUnanswered == old(burstsUnanswered)
      ensures Follows(Settings(), old(Current()), input, Current())
    {
      hide Valid, Current, Settings;
      hide AfterRequest, AfterPublish, AfterBurst, AfterTimer, AfterChallenge, AfterClosed, AfterEose, AfterOk,
           AfterOpenNeg, AfterNegErr, AfterNegReply;
      match input {
        case Challenge(some) => OnChallenge(some);
        case Closed(sid, reason) => OnClosed(sid, reason);
        case Eose(sid) => OnEose(sid);
        case Ok(at, id, accepted, reason) => OnOk(at, id, accepted, reason);
        case NegErr(sid, reopen) => OnNegErr(sid, reopen);
        case NegReply(sid, pass, fetches) => OnNegMsg(sid, pass, fetches);
        case Notice => OnNotice();
        case Gone => OnGone();
      }
    }

    /** One request, message or timer. */
    method Handle(input: Input)
      requires Valid() && Fits(input, published.Keys, burst, authId)
      modifies this
      ensures Valid() && burstsUnanswered == old(burstsUnanswered)
      ensures Follows(Settings(), old(Current()), input, Current())
    {
      hide Valid, Current, Settings;
      hide AfterRequest, AfterPublish, AfterBurst, AfterTimer, AfterChallenge, AfterClosed, AfterEose, AfterOk,
           AfterOpenNeg, AfterNegErr, AfterNegReply;
      match input {
        case Request(sid, fetch) =>
          var _ := Request(sid, fetch);
        case Publish(id, retry) => Publish(id, retry);
        case SendBurst(due, ids) => SendBurst(due, ids);
        case OpenNeg(sid) => OpenNeg(sid);
        case Timer(now) =>
          ghost var _ := OnTimer(now);
        case _ => OnMessage(input);
      }
    }

    /** Whether the AUTH was answered, and how much waits on it. */
    method Waits() returns (answered: bool, waiting: nat)
      requires Valid()
      ensures answered ==> waiting == 0
      ensures (answered <==> auth in {Done, Failed}) && waiting == |authWaiting| + |authEvents|
    {
      answered := auth == Done || auth == Failed;
      waiting := |authWaiting| + |authEvents|;
    }

    lemma {:induction false} ValidKnows()
      requires Valid()
      ensures Known(Settings(), Current())
      ensures BurstCounts(Current().burst, Current().burstIds, Current().published)
    {
      hide Punctual, OneAuth, Identified, NoneStranded, BurstFits, BurstCounts;
    }

    lemma {:induction false} ReadyFor(inputs: seq<Input>, i: nat, states: seq<State>)
      requires FreshVisit(inputs, Settings().authId) && i < |inputs| && |states| == i + 1 && states[i] == Current()
      requires Run(Settings(), inputs[..i], states)
      ensures Fits(inputs[i], published.Keys, burst, authId)
    {
      hide Accounted, Fits, FreshVisit, Follows, Stays;
      FitsNow(inputs, authId, i, states[i]);
    }

    method Report(ghost states: seq<State>) returns (o: Outcome, ghost h: History)
      requires Valid() && burstsUnanswered == if Unanswered(burst, gone, until) then 1 else 0
      ensures NoLateWork(o, h, Settings().until) && AtMostOneAuth(o) && JudgedAsSent(o, h, Settings().me)
      ensures OneOutcome(o, Settings().until)
      ensures o.pending == Undecided(o.published) && h.states == states && h.verdicts == VerdictsOf(states)
      ensures Tells(o, Current())
    {
      o := Outcome(sent, gone, published, pending.Keys, subs, burst, burstsCompleted + burstsRefused + burstsUnanswered,
                   liveRefused, liveRefusals);
      h := History(goneAfter, if auth == Done then Some(authedAfter) else None, lastReq, states, VerdictsOf(states));
      assert burst.Some? ==> burst.value.accepted + burst.value.failed <= burst.value.total;
    }
  }

  // ------------------------------------------------------------------
  // Visits
  // ------------------------------------------------------------------

  /** What can happen to a session, in any order. */
  datatype Input =
    | Request(sid: Sid, fetch: bool)
    | Publish(id: Id, retry: bool)
    | SendBurst(due: nat, ids: seq<Id>)
    | OpenNeg(sid: Sid)
    | Timer(now: nat)
    | Challenge(some: bool)
    | Closed(sid: Sid, reason: Reason)
    | Eose(sid: Sid)
    | Ok(at: nat, id: Id, accepted: bool, reason: Reason)
    | NegErr(sid: Sid, reopen: bool)
    | NegReply(sid: Sid, pass: Pass, fetches: seq<Sid>)
    | Notice
    | Gone

  predicate IsMessage(input: Input) {
    input.Challenge? || input.Closed? || input.Eose? || input.Ok? || input.NegErr? || input.NegReply? || input.Notice?
      || input.Gone?
  }

  function NewIds(input: Input): set<Id> {
    match input
    case Publish(id, _) => {id}
    case SendBurst(_, ids) => set id | id in ids
    case _ => {}
  }

  /** New events have fresh ids, and a session has one burst at most. */
  predicate Fits(input: Input, used: set<Id>, burst: Option<Burst>, authId: Id) {
    && NewIds(input) !! used && authId !in NewIds(input)
    && (input.SendBurst? ==>
          && burst.None? && input.ids != []
          && forall i, j :: 0 <= i < j < |input.ids| ==> input.ids[i] != input.ids[j])
  }

  /** The same, of a whole visit. */
  ghost predicate FreshVisit(inputs: seq<Input>, authId: Id) {
    && (forall i :: 0 <= i < |inputs| ==> Fits(inputs[i], {}, None, authId))
    && (forall i, j :: 0 <= i < j < |inputs| ==> NewIds(inputs[i]) !! NewIds(inputs[j]))
    && (forall i, j :: 0 <= i < j < |inputs| ==> !(inputs[i].SendBurst? && inputs[j].SendBurst?))
  }

  /** What a visit leaves behind. */
  datatype Outcome = Outcome(
    sent: seq<Sent>,
    gone: bool,
    published: map<Id, Option<bool>>,
    pending: set<Id>,
    subs: map<Sid, Sub>,
    burst: Option<Burst>,
    burstOutcomes: nat,
    liveRefused: nat,
    noticesLeft: nat)

  /** The frames after which the relay went away and the AUTH was accepted,
      the number of each subscription's last REQ, and the states and verdicts
      at the start, after each input and at the end. */
  datatype History = History(goneAfter: nat, authedAfter: Option<nat>, lastReq: map<Sid, nat>, states: seq<State>,
                             verdicts: seq<map<Id, Option<bool>>>)

  function VerdictsOf(states: seq<State>): seq<map<Id, Option<bool>>> {
    seq(|states|, i requires 0 <= i < |states| => states[i].published)
  }

  ghost predicate Tells(o: Outcome, s: State) {
    && o.sent == s.sent && o.gone == s.gone && o.published == s.published && o.subs == s.subs && o.burst == s.burst
    && o.liveRefused == s.liveRefused && o.noticesLeft == s.liveRefusals
  }

  ghost predicate NoLateWork(o: Outcome, h: History, until: nat) {
    forall k :: 0 <= k < |o.sent| && Work(o.sent[k].frame) ==> o.sent[k].at < until && (o.gone ==> k < h.goneAfter)
  }

  ghost predicate AtMostOneAuth(o: Outcome) {
    forall j, k :: 0 <= j < k < |o.sent| ==> !(o.sent[j].frame.Auth? && o.sent[k].frame.Auth?)
  }

  ghost function IdentitiesBefore(h: History, me: Pubkey, k: nat): seq<Pubkey> {
    if h.authedAfter.Some? && h.authedAfter.value <= k then [me] else []
  }

  /** A subscription is judged under the identity accepted before its last
      REQ went out, if one was. */
  ghost predicate JudgedAsSent(o: Outcome, h: History, me: Pubkey) {
    && o.subs.Keys <= h.lastReq.Keys
    && (forall sid :: sid in o.subs ==>
          && h.lastReq[sid] < |o.sent|
          && o.sent[h.lastReq[sid]].frame == Req(sid, o.subs[sid].identities)
          && o.subs[sid].identities == IdentitiesBefore(h, me, h.lastReq[sid]))
    && (forall k :: 0 <= k < |o.sent| && o.sent[k].frame.Req? && o.sent[k].frame.sid in o.subs ==>
          k <= h.lastReq[o.sent[k].frame.sid])
  }

  ghost predicate Stays(verdicts: seq<map<Id, Option<bool>>>) {
    forall i, j :: 0 <= i < j < |verdicts| ==> Keeps(verdicts[i], verdicts[j])
  }

  /** Exactly one outcome for a burst that was sent, unless the relay cut the
      session off, or it was due after the visit, with some publication
      undecided; then none. */
  predicate OneOutcome(o: Outcome, until: nat) {
    o.burstOutcomes ==
    if o.burst.Some?
      && (o.burst.value.accepted + o.burst.value.failed == o.burst.value.total
          || (!o.gone && o.burst.value.due < until))
    then 1 else 0
  }

  function Notices(inputs: seq<Input>): nat {
    if inputs == [] then 0 else Notices(inputs[..|inputs| - 1]) + if inputs[|inputs| - 1].Notice? then 1 else 0
  }

  // ------------------------------------------------------------------
  // What decides a publication
  // ------------------------------------------------------------------

  /** The verdict is new. */
  predicate Becomes(before: map<Id, Option<bool>>, after: map<Id, Option<bool>>, id: Id, verdict: bool) {
    id in after && after[id] == Some(verdict) && !(id in before && before[id] == Some(verdict))
  }

  predicate IsUndecided(published: map<Id, Option<bool>>, id: Id) {
    id in published && published[id] == None
  }

  /** An id becomes accepted exactly by an accepting OK while it is undecided. */
  ghost predicate AcceptedByOk(before: map<Id, Option<bool>>, input: Input, after: map<Id, Option<bool>>, id: Id) {
    Becomes(before, after, id, true) <==>
    input.Ok? && input.id == id && input.accepted && IsUndecided(before, id)
  }

  /** The AUTH it waits for is answered, or its time to be sent again came. */
  predicate MayGiveUp(c: Config, a: State, input: Input, id: Id) {
    || (input.Ok? && a.auth == Waiting && input.id == c.authId && id in a.authEvents)
    || (input.Timer? && id in IdsOf(Due(a.retries, input.now, true)))
  }

  /** It becomes refused only by a refusing OK, or by being given up. */
  ghost predicate RefusedByOk(c: Config, a: State, input: Input, after: map<Id, Option<bool>>, id: Id) {
    Becomes(a.published, after, id, false) ==>
      && IsUndecided(a.published, id)
      && ((input.Ok? && input.id == id && !input.accepted) || MayGiveUp(c, a, input, id))
  }

  /** At the end exactly what still waits is refused. */
  ghost predicate RefusedAtEnd(a: State, after: map<Id, Option<bool>>, id: Id) {
    && !Becomes(a.published, after, id, true)
    && (Becomes(a.published, after, id, false) <==>
          IsUndecided(a.published, id) && (id in a.authEvents || id in IdsOf(a.retries)))
  }

  ghost predicate Known(c: Config, s: State) {
    s.pending.Keys == Undecided(s.published) && c.authId !in s.published
  }

  lemma {:induction false} OkVerdict(c: Config, a: State, input: Input, b: State, id: Id)
    requires Known(c, a) && Follows(c, a, input, b) && input.Ok?
    ensures AcceptedByOk(a.published, input, b.published, id) && RefusedByOk(c, a, input, b.published, id)
  {
    hide Requests, Events, AskedAgain, Refused, Within, AuthBegun;
  }

  lemma {:induction false} TimerVerdict(c: Config, a: State, input: Input, b: State, id: Id)
    requires Follows(c, a, input, b) && input.Timer?
    ensures AcceptedByOk(a.published, input, b.published, id) && RefusedByOk(c, a, input, b.published, id)
  {
    hide EventFrames, FramesOf, Due, Within;
    var ids := IdsOf(Due(a.retries, input.now, true));
    var k: nat :| TimerOut(c, a, b, ids, k);
    assert id in ids[k..] ==> id in ids;
  }

  lemma {:induction false} BurstVerdict(c: Config, a: State, input: Input, b: State, id: Id)
    requires Follows(c, a, input, b) && input.SendBurst? && Fits(input, a.published.Keys, a.burst, c.authId)
    ensures AcceptedByOk(a.published, input, b.published, id) && RefusedByOk(c, a, input, b.published, id)
  {
    hide EventsOut, AllPending;
    if b.burst.Some? {
      var k: nat :| BurstOut(a, b, input.ids, k);
    }
  }

  lemma {:induction false} OtherVerdict(c: Config, a: State, input: Input, b: State, id: Id)
    requires Follows(c, a, input, b) && !input.Ok? && !input.Timer? && !input.SendBurst?
    requires Fits(input, a.published.Keys, a.burst, c.authId)
    ensures AcceptedByOk(a.published, input, b.published, id) && RefusedByOk(c, a, input, b.published, id)
  {
    hide AuthBegun, Refused, EventsOut, Fetched, AllAsked, Ended, AfterOk, AfterTimer, AfterBurst;
  }

  lemma {:induction false} Verdict(c: Config, a: State, input: Input, b: State, id: Id)
    requires Known(c, a) && Follows(c, a, input, b) && Fits(input, a.published.Keys, a.burst, c.authId)
    ensures AcceptedByOk(a.published, input, b.published, id) && RefusedByOk(c, a, input, b.published, id)
  {
    hide *;
    if input.Ok? {
      OkVerdict(c, a, input, b, id);
    } else if input.Timer? {
      TimerVerdict(c, a, input, b, id);
    } else if input.SendBurst? {
      BurstVerdict(c, a, input, b, id);
    } else {
      OtherVerdict(c, a, input, b, id);
    }
  }

  lemma {:induction false} EndVerdict(a: State, b: State, id: Id)
    requires AfterFinish(a, b)
    ensures RefusedAtEnd(a, b.published, id)
  {
    hide Refused, Within, IdsOf;
  }

  const FRESH: State :=
    State(0, [], false, false, NotSent, [], [], [], map[], {}, map[], map[], [], None, {}, 0, 0)

  /** The states of a visit so far: each input leads to the next one. */
  ghost predicate Traces(c: Config, inputs: seq<Input>, states: seq<State>) {
    && |states| == |inputs| + 1 && states[0] == FRESH
    && (forall i :: 0 <= i < |inputs| ==> Follows(c, states[i], inputs[i], states[i + 1]))
  }

  /** What is counted fits the inputs so far. */
  ghost predicate Accounted(inputs: seq<Input>, s: State) {
    && s.published.Keys <= UsedIds(inputs)
    && (s.burst.Some? ==> IsBurst(inputs, s.burst.value))
    && s.burstIds == BurstIds(inputs) * s.published.Keys
    && s.liveRefusals + s.liveRefused == Notices(inputs)
  }

  /** The burst is the one the inputs ask for. */
  ghost predicate IsBurst(inputs: seq<Input>, b: Burst) {
    exists j :: 0 <= j < |inputs| && inputs[j].SendBurst? && b.due == inputs[j].due && b.total == |inputs[j].ids|
  }

  function BurstIds(inputs: seq<Input>): set<Id> {
    if inputs == [] then {}
    else
      var last := inputs[|inputs| - 1];
      BurstIds(inputs[..|inputs| - 1]) + if last.SendBurst? then SetOf(last.ids) else {}
  }

  /** Every input decides what it may, and so does the end. */
  ghost predicate DecidedByAnswers(c: Config, inputs: seq<Input>, h: History)
    requires |h.states| == |h.verdicts| == |inputs| + 2
  {
    && (forall i, id :: 0 <= i < |inputs| ==> DecidedAt(c, inputs, h, i, id))
    && var n := |inputs|;
       var a, after := h.states[n], h.verdicts[n + 1];
       forall id :: RefusedAtEnd(a, after, id)
  }

  ghost predicate DecidedAt(c: Config, inputs: seq<Input>, h: History, i: nat, id: Id)
    requires |h.states| == |h.verdicts| == |inputs| + 2 && i < |inputs|
  {
    && AcceptedByOk(h.verdicts[i], inputs[i], h.verdicts[i + 1], id)
    && RefusedByOk(c, h.states[i], inputs[i], h.verdicts[i + 1], id)
  }

  /** Any visit: whatever the relay answers, in whatever order and at
      whatever instants. `answered` and `waiting` are taken before the end. */
  method Visit(me: Pubkey, hasKeys: bool, authId: Id, until: nat, inputs: seq<Input>)
    returns (o: Outcome, answered: bool, waiting: nat, ghost h: History)
    requires FreshVisit(inputs, authId)
    ensures NoLateWork(o, h, until)
    ensures AtMostOneAuth(o)
    ensures answered ==> waiting == 0
    ensures JudgedAsSent(o, h, me)
    ensures o.pending == Undecided(o.published)
    ensures |h.states| == |inputs| + 2 && h.verdicts == VerdictsOf(h.states) && Stays(h.verdicts)
    ensures Traces(Config(me, hasKeys, authId, until), inputs, h.states[..|inputs| + 1])
    ensures AfterFinish(h.states[|inputs|], h.states[|inputs| + 1]) && Tells(o, h.states[|inputs| + 1])
    ensures DecidedByAnswers(Config(me, hasKeys, authId, until), inputs, h)
    ensures o.burst.Some? ==> IsBurst(inputs, o.burst.value) && BurstCounts(o.burst, BurstIds(inputs), o.published)
    ensures OneOutcome(o, until)
    ensures o.liveRefused + o.noticesLeft == Notices(inputs)
  {
    hide *;
    var session := new Session(me, hasKeys, authId, until);
    ghost var c, states := session.Settings(), [session.Current()];
    VisitStarts(c);
    assert inputs[..0] == [];
    for i := 0 to |inputs|
      invariant fresh(session) && session.Valid() && session.Settings() == c && session.burstsUnanswered == 0
      invariant |states| == i + 1 && states[i] == session.Current() && Run(c, inputs[..i], states)
    {
      session.ValidKnows();
      session.ReadyFor(inputs, i, states);
      session.Handle(inputs[i]);
      session.ValidKnows();
      RunStep(c, inputs, i, states, session.Current());
      states := states + [session.Current()];
    }
    assert inputs[..|inputs|] == inputs;
    answered, waiting := session.Waits();
    session.Finish();
    session.ValidKnows();
    o, h := session.Report(states + [session.Current()]);
    VisitEnds(c, inputs, states, session.Current(), o, h);
  }

  ghost function UsedIds(inputs: seq<Input>): set<Id> {
    set i, id | 0 <= i < |inputs| && id in NewIds(inputs[i]) :: id
  }

  /** The trace so far, with what follows from each of its steps. */
  ghost predicate Run(c: Config, inputs: seq<Input>, states: seq<State>) {
    && Traces(c, inputs, states) && Stays(VerdictsOf(states)) && Accounted(inputs, states[|inputs|])
    && forall i, id :: 0 <= i < |inputs| ==> DecidedIn(c, inputs, states, i, id)
  }

  ghost predicate DecidedIn(c: Config, inputs: seq<Input>, states: seq<State>, i: nat, id: Id)
    requires i < |inputs| < |states|
  {
    DecidedStep(c, states[i], inputs[i], states[i + 1], id)
  }

  ghost predicate DecidedStep(c: Config, a: State, input: Input, b: State, id: Id) {
    AcceptedByOk(a.published, input, b.published, id) && RefusedByOk(c, a, input, b.published, id)
  }

  lemma {:induction false} VisitStarts(c: Config)
    ensures Run(c, [], [FRESH])
  {
    assert UsedIds([]) == {};
  }

  lemma {:induction false} FitsNow(inputs: seq<Input>, authId: Id, i: nat, a: State)
    requires FreshVisit(inputs, authId) && i < |inputs| && Accounted(inputs[..i], a)
    ensures Fits(inputs[i], a.published.Keys, a.burst, authId)
  {
  }

  lemma {:induction false} UsedStep(inputs: seq<Input>, i: nat)
    requires i < |inputs|
    ensures UsedIds(inputs[..i + 1]) == UsedIds(inputs[..i]) + NewIds(inputs[i])
  {
    var before, after := inputs[..i], inputs[..i + 1];
    assert after == before + [inputs[i]];
    forall id
      ensures id in UsedIds(after) <==> id in UsedIds(before) || id in NewIds(inputs[i])
    {
      if id in UsedIds(before) {
        var k :| 0 <= k < i && id in NewIds(before[k]);
        assert id in NewIds(after[k]);
      } else if id in NewIds(inputs[i]) {
        assert id in NewIds(after[i]);
      }
    }
  }

  lemma {:induction false} BurstIdsStep(inputs: seq<Input>, i: nat)
    requires i < |inputs|
    ensures BurstIds(inputs[..i + 1]) == BurstIds(inputs[..i]) +
      if inputs[i].SendBurst? then SetOf(inputs[i].ids) else {}
    ensures Notices(inputs[..i + 1]) == Notices(inputs[..i]) + if inputs[i].Notice? then 1 else 0
  {
    assert inputs[..i + 1][..i] == inputs[..i];
  }

  lemma {:induction false} BurstIdsUsed(inputs: seq<Input>, i: nat)
    requires i <= |inputs|
    ensures BurstIds(inputs[..i]) <= UsedIds(inputs[..i])
  {
    hide *;
    if i > 0 {
      BurstIdsUsed(inputs, i - 1);
      BurstIdsStep(inputs, i - 1);
      UsedStep(inputs, i - 1);
      NewOfBurst(inputs[i - 1]);
    } else {
      NoBurst(inputs);
    }
  }

  lemma {:induction false} NoBurst(inputs: seq<Input>)
    ensures BurstIds(inputs[..0]) == {}
  {
  }

  lemma {:induction false} NewOfBurst(input: Input)
    ensures input.SendBurst? ==> NewIds(input) == SetOf(input.ids)
  {
  }

  /** What an input changes in the books: it forgets no publication and no
      verdict, and adds its own ids at most. */
  ghost predicate BooksGrow(a: State, input: Input, b: State) {
    && Keeps(a.published, b.published) && b.published.Keys <= a.published.Keys + NewIds(input)
    && b.liveRefusals + b.liveRefused == a.liveRefusals + a.liveRefused + (if input.Notice? then 1 else 0)
    && if input.SendBurst? then
         && (b.burst.None? || b.burst == Some(Burst(input.due, |input.ids|, 0, 0)))
         && b.burstIds == a.burstIds + SetOf(input.ids) * b.published.Keys
       else SameBurst(a.burst, b.burst) && b.burstIds == a.burstIds
  }

  lemma {:induction false} OkGrows(c: Config, a: State, input: Input, b: State)
    requires Known(c, a) && Follows(c, a, input, b) && input.Ok?
    ensures BooksGrow(a, input, b)
  {
    hide Requests, Events, AskedAgain, Refused, Within, AuthBegun;
  }

  lemma {:induction false} TimerGrows(c: Config, a: State, input: Input, b: State)
    requires Follows(c, a, input, b) && input.Timer?
    ensures BooksGrow(a, input, b)
  {
    hide EventFrames, FramesOf, Due, Within;
    var ids := IdsOf(Due(a.retries, input.now, true));
    var k: nat :| TimerOut(c, a, b, ids, k);
  }

  lemma {:induction false} BurstGrows(c: Config, a: State, input: Input, b: State)
    requires Follows(c, a, input, b) && input.SendBurst? && Fits(input, a.published.Keys, a.burst, c.authId)
    ensures BooksGrow(a, input, b)
  {
    hide EventsOut, AllPending, AllNone, SetOf, NewIds;
    NewOfBurst(input);
    BurstKeeps(a, b, input.ids);
    if b.burst.Some? {
      var k: nat :| BurstOut(a, b, input.ids, k);
      BurstBooks(a, b, input.ids, k);
    }
  }

  lemma {:induction false} BurstKeeps(a: State, b: State, ids: seq<Id>)
    requires SetOf(ids) !! a.published.Keys
    ensures b.published == a.published ==> Keeps(a.published, b.published) && SetOf(ids) * b.published.Keys == {}
  {
  }

  lemma {:induction false} OtherGrows(c: Config, a: State, input: Input, b: State)
    requires Follows(c, a, input, b) && !input.Ok? && !input.Timer? && !input.SendBurst?
    requires Fits(input, a.published.Keys, a.burst, c.authId)
    ensures BooksGrow(a, input, b)
  {
    hide AuthBegun, Refused, Fetched, AllAsked, Ended;
  }

  lemma {:induction false} Grows(c: Config, a: State, input: Input, b: State)
    requires Known(c, a) && Follows(c, a, input, b) && Fits(input, a.published.Keys, a.burst, c.authId)
    ensures BooksGrow(a, input, b)
  {
    hide *;
    if input.Ok? {
      OkGrows(c, a, input, b);
    } else if input.Timer? {
      TimerGrows(c, a, input, b);
    } else if input.SendBurst? {
      BurstGrows(c, a, input, b);
    } else {
      OtherGrows(c, a, input, b);
    }
  }

  lemma {:induction false} AccountedStep(inputs: seq<Input>, i: nat, authId: Id, a: State, b: State)
    requires FreshVisit(inputs, authId) && i < |inputs| && Accounted(inputs[..i], a) && BooksGrow(a, inputs[i], b)
    ensures Accounted(inputs[..i + 1], b)
  {
    hide Keeps, UsedIds, BurstIds, Notices, NewIds, FreshVisit;
    UsedStep(inputs, i);
    BurstIdsStep(inputs, i);
    BurstIdsUsed(inputs, i);
    NewIsUnused(inputs, authId, i);
    NewOfBurst(inputs[i]);
    KeepsKeys(a.published, b.published);
    assert BurstIds(inputs[..i]) * b.published.Keys == BurstIds(inputs[..i]) * a.published.Keys;
    BurstCarries(inputs, i, a, b);
  }

  lemma {:induction false} NewIsUnused(inputs: seq<Input>, authId: Id, i: nat)
    requires FreshVisit(inputs, authId) && i < |inputs|
    ensures NewIds(inputs[i]) !! UsedIds(inputs[..i])
  {
  }

  lemma {:induction false} KeepsKeys(before: map<Id, Option<bool>>, after: map<Id, Option<bool>>)
    requires Keeps(before, after)
    ensures before.Keys <= after.Keys
  {
  }

  lemma {:induction false} BurstCarries(inputs: seq<Input>, i: nat, a: State, b: State)
    requires i < |inputs| && (a.burst.Some? ==> IsBurst(inputs[..i], a.burst.value)) && BooksGrow(a, inputs[i], b)
    ensures b.burst.Some? ==> IsBurst(inputs[..i + 1], b.burst.value)
  {
    hide Keeps;
    if b.burst.Some? {
      if inputs[i].SendBurst? {
        assert inputs[..i + 1][i] == inputs[i];
      } else {
        var j :| 0 <= j < i && inputs[..i][j].SendBurst? && a.burst.value.due == inputs[..i][j].due
          && a.burst.value.total == |inputs[..i][j].ids|;
        assert inputs[..i + 1][j] == inputs[..i][j];
      }
    }
  }

  lemma {:induction false} StaysOn(states: seq<State>, next: State)
    requires Stays(VerdictsOf(states)) && states != [] && Keeps(states[|states| - 1].published, next.published)
    ensures Stays(VerdictsOf(states + [next]))
  {
    var verdicts := VerdictsOf(states);
    assert VerdictsOf(states + [next]) == verdicts + [next.published];
    forall i | 0 <= i < |verdicts|
      ensures Keeps(verdicts[i], next.published)
    {
      var last := |verdicts| - 1;
      if i < last {
        assert Keeps(verdicts[i], verdicts[last]);
      }
    }
  }

  lemma {:induction false} RunStep(c: Config, inputs: seq<Input>, i: nat, states: seq<State>, next: State)
    requires FreshVisit(inputs, c.authId) && i < |inputs| && |states| == i + 1 && Run(c, inputs[..i], states)
    requires Known(c, states[i]) && Follows(c, states[i], inputs[i], next)
    ensures Run(c, inputs[..i + 1], states + [next])
  {
    hide Follows, FreshVisit, Fits, Stays, Accounted, DecidedStep, BooksGrow, Keeps, Known, VerdictsOf;
    var inputs', states' := inputs[..i + 1], states + [next];
    var a := states[i];
    FitsNow(inputs, c.authId, i, a);
    Grows(c, a, inputs[i], next);
    AccountedStep(inputs, i, c.authId, a, next);
    GrowsKeeps(a, inputs[i], next);
    StaysOn(states, next);
    forall j: nat, id | j <= i
      ensures DecidedIn(c, inputs', states', j, id)
    {
      if j < i {
        assert DecidedIn(c, inputs[..i], states, j, id);
      } else {
        Decided(c, a, inputs[i], next, id);
      }
    }
    forall j: nat | j <= i
      ensures Follows(c, states'[j], inputs'[j], states'[j + 1])
    {
      if j < i {
        assert Follows(c, states[j], inputs[..i][j], states[j + 1]);
      }
    }
  }

  lemma {:induction false} GrowsKeeps(a: State, input: Input, b: State)
    requires BooksGrow(a, input, b)
    ensures Keeps(a.published, b.published)
  {
  }

  lemma {:induction false} Decided(c: Config, a: State, input: Input, b: State, id: Id)
    requires Known(c, a) && Follows(c, a, input, b) && Fits(input, a.published.Keys, a.burst, c.authId)
    ensures DecidedStep(c, a, input, b, id)
  {
    hide Known, Follows, Fits, AcceptedByOk, RefusedByOk;
    Verdict(c, a, input, b, id);
  }

  lemma {:induction false} FinishKeeps(a: State, b: State)
    requires AfterFinish(a, b)
    ensures Keeps(a.published, b.published) && b.published.Keys == a.published.Keys
  {
  }

  lemma {:induction false} CountsOfInputs(inputs: seq<Input>, s: State)
    requires s.burstIds == BurstIds(inputs) * s.published.Keys && BurstCounts(s.burst, s.burstIds, s.published)
    ensures BurstCounts(s.burst, BurstIds(inputs), s.published)
  {
    forall verdict: bool
      ensures With(BurstIds(inputs), s.published, verdict) == With(s.burstIds, s.published, verdict)
    {
    }
  }

  lemma {:induction false} VisitEnds(c: Config, inputs: seq<Input>, states: seq<State>, last: State, o: Outcome,
                                     h: History)
    requires Run(c, inputs, states) && AfterFinish(states[|inputs|], last)
    requires BurstCounts(last.burst, last.burstIds, last.published) && Tells(o, last)
    requires h.states == states + [last] && h.verdicts == VerdictsOf(h.states)
    ensures |h.states| == |inputs| + 2 && Stays(h.verdicts) && Traces(c, inputs, h.states[..|inputs| + 1])
    ensures AfterFinish(h.states[|inputs|], h.states[|inputs| + 1]) && Tells(o, h.states[|inputs| + 1])
    ensures DecidedByAnswers(c, inputs, h)
    ensures o.burst.Some? ==> IsBurst(inputs, o.burst.value) && BurstCounts(o.burst, BurstIds(inputs), o.published)
    ensures o.liveRefused + o.noticesLeft == Notices(inputs)
  {
    hide Follows, Keeps, Stays, AcceptedByOk, RefusedByOk, RefusedAtEnd, BurstCounts, BurstIds, GivenUp, Refused, IdsOf;
    var a := states[|inputs|];
    FinishKeeps(a, last);
    StaysOn(states, last);
    assert h.states[..|inputs| + 1] == states;
    CountsOfInputs(inputs, last);
    forall id
      ensures RefusedAtEnd(a, last.published, id)
    {
      EndVerdict(a, last, id);
    }
    forall i: nat, id | i < |inputs|
      ensures DecidedAt(c, inputs, h, i, id)
    {
      assert DecidedIn(c, inputs, states, i, id);
      assert h.verdicts[i] == states[i].published && h.verdicts[i + 1] == states[i + 1].published;
    }
  }
}
