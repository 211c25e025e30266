/**
 * The web-worker crypto engine: a proxy that turns calls into numbered messages, and a worker
 * that dispatches them to the inline engine. E, Q, R are the engine's state, requests and results.
 */
module CryptoRpc {
  import opened Common

  datatype RemoteError = RemoteError(name: string, message: string)

  type Reply<R> = Result<R, RemoteError>

  datatype Cause = WorkerTerminated | WorkerError | NotPosted

  datatype Outcome<R> = Replied(reply: Reply<R>) | Rejected(cause: Cause)

  /** One call to a promise's resolve or reject; a promise keeps its first. */
  datatype Settlement<R> = Settlement(id: nat, outcome: Outcome<R>)

  /** A request carrying the number its reply must carry. */
  datatype Message<Q> = Message(id: nat, request: Q)

  /** `pending` keeps insertion order, as the proxy's map does. */
  datatype Proxy<R> = Proxy(nextId: nat, pending: seq<nat>, settled: seq<Settlement<R>>)

  function Without(ids: seq<nat>, id: nat): (rest: seq<nat>)
    ensures forall i :: i in rest <==> i in ids && i != id
    ensures |rest| <= |ids|
  {
    if ids == [] then []
    else if ids[0] == id then Without(ids[1..], id)
    else
      assert forall i :: i in ids <==> i == ids[0] || i in ids[1..];
      [ids[0]] + Without(ids[1..], id)
  }

  function RejectAll<R>(ids: seq<nat>, why: Cause): (s: seq<Settlement<R>>)
    ensures |s| == |ids| && forall i :: 0 <= i < |ids| ==> s[i] == Settlement(ids[i], Rejected(why))
  {
    seq(|ids|, i requires 0 <= i < |ids| => Settlement(ids[i], Rejected(why)))
  }

  /** Register under the next number; if the post throws, the promise rejects but the entry stays. */
  function Register<R>(p: Proxy<R>, posts: bool): Proxy<R> {
    Proxy(p.nextId + 1, p.pending + [p.nextId],
          if posts then p.settled else p.settled + [Settlement(p.nextId, Rejected(NotPosted))])
  }

  function Receive<R>(p: Proxy<R>, id: nat, reply: Reply<R>): Proxy<R> {
    if id !in p.pending then p
    else p.(pending := Without(p.pending, id), settled := p.settled + [Settlement(id, Replied(reply))])
  }

  function FailAll<R>(p: Proxy<R>, why: Cause): Proxy<R> {
    p.(pending := [], settled := p.settled + RejectAll(p.pending, why))
  }

  class WebWorkerCryptoEngine<Q, R> {
    var nextId: nat
    var pending: seq<nat>
    var settled: seq<Settlement<R>>
    var posted: seq<Message<Q>>

    constructor ()
      ensures View() == Proxy(1, [], []) && posted == []
    {
      nextId, pending, settled, posted := 1, [], [], [];
    }

    function View(): Proxy<R>
      reads this
    {
      Proxy(nextId, pending, settled)
    }

    method Call(request: Q, posts: bool) returns (id: nat)
      modifies this
      ensures View() == Register(old(View()), posts)
      ensures id == old(nextId)
      ensures posted == old(posted) + if posts then [Message(id, request)] else []
    {
      id := nextId;
      nextId := nextId + 1;
      pending := pending + [id];
      if posts {
        posted := posted + [Message(id, request)];
      } else {
        settled := settled + [Settlement(id, Rejected(NotPosted))];
      }
    }

    /** `data` is none for a message that is not a reply. */
    method OnMessage(data: Option<(nat, Reply<R>)>)
      modifies this
      ensures View() == (if data.None? then old(View()) else Receive(old(View()), data.value.0, data.value.1))
      ensures posted == old(posted)
    {
      if data.None? || data.value.0 !in pending {
        return;
      }
      pending := Without(pending, data.value.0);
      settled := settled + [Settlement(data.value.0, Replied(data.value.1))];
    }

    method RejectPending(why: Cause)
      modifies this
      ensures View() == FailAll(old(View()), why) && posted == old(posted)
    {
      var before := settled;
      for i := 0 to |pending|
        invariant pending == old(pending) && nextId == old(nextId) && posted == old(posted)
        invariant settled == before + RejectAll(pending, why)[..i]
      {
        settled := settled + [Settlement(pending[i], Rejected(why))];
      }
      assert RejectAll<R>(pending, why)[..|pending|] == RejectAll(pending, why);
      pending := [];
    }
  }

  // ---------------------------------------------------------------------------
  // Proxy and worker together
  // ---------------------------------------------------------------------------

  /** The inline engine: each request takes the engine to its next state and gives a reply. */
  type Engine<!E, !Q, !R> = (E, Q) -> (E, Reply<R>)

  datatype System<E, Q, R> = System(
    proxy: Proxy<R>,
    asked: map<nat, Q>,          // every call ever made, by number
    unposted: set<nat>,          // those whose post threw
    inbox: map<nat, Q>,          // posted, not yet dispatched
    outbox: map<nat, Reply<R>>,  // replied, not yet delivered
    engine: E,
    alive: bool,
    served: seq<Message<Q>>)     // in the order the worker dispatched them

  datatype Event<Q> =
    | Invoke(request: Q, posts: bool)
    | Serve(id: nat)             // dispatched in any order
    | Deliver(id: nat)           // delivered in any order
    | Stray(id: nat)             // a reply-shaped message the worker did not send for an open call
    | Break                      // the worker's error event
    | Terminate

  ghost predicate Possible<E, Q, R>(s: System<E, Q, R>, e: Event<Q>) {
    match e
    case Invoke(_, _) => true
    case Serve(id) => s.alive && id in s.inbox
    case Deliver(id) => id in s.outbox
    case Stray(id) => id !in s.proxy.pending
    case Break => true
    case Terminate => true
  }

  function Next<E, Q, R>(run: Engine<E, Q, R>, s: System<E, Q, R>, e: Event<Q>, noise: Reply<R>): System<E, Q, R>
    requires Possible(s, e)
  {
    match e
    case Invoke(q, posts) =>
      var id := s.proxy.nextId;
      s.(proxy := Register(s.proxy, posts), asked := s.asked[id := q],
        unposted := if posts then s.unposted else s.unposted + {id}, inbox := if posts then s.inbox[id := q] else s.inbox)
    case Serve(id) =>
      var (engine, reply) := run(s.engine, s.inbox[id]);
      s.(engine := engine, inbox := s.inbox - {id}, outbox := s.outbox[id := reply], served := s.served + [Message(id, s.inbox[id])])
    case Deliver(id) => s.(proxy := Receive(s.proxy, id, s.outbox[id]), outbox := s.outbox - {id})
    case Stray(id) => s.(proxy := Receive(s.proxy, id, noise))
    case Break => s.(proxy := FailAll(s.proxy, WorkerError))
    case Terminate => s.(proxy := FailAll(s.proxy, WorkerTerminated), alive := false)
  }

  ghost predicate IsRun<E, Q, R>(run: Engine<E, Q, R>, start: E, ss: seq<System<E, Q, R>>, es: seq<Event<Q>>, noise: Reply<R>) {
    && |ss| == |es| + 1
    && ss[0] == System(Proxy(1, [], []), map[], {}, map[], map[], start, true, [])
    && forall i :: 0 <= i < |es| ==> Possible(ss[i], es[i]) && ss[i + 1] == Next(run, ss[i], es[i], noise)
  }

  /** The inline engine after these requests, one at a time. */
  function EngineAfter<E, Q, R>(run: Engine<E, Q, R>, start: E, served: seq<Message<Q>>): E {
    if served == [] then start
    else run(EngineAfter(run, start, served[..|served| - 1]), served[|served| - 1].request).0
  }

  /** What the inline engine answers the i-th of them. */
  function AnswerAt<E, Q, R>(run: Engine<E, Q, R>, start: E, served: seq<Message<Q>>, i: nat): Reply<R>
    requires i < |served|
  {
    run(EngineAfter(run, start, served[..i]), served[i].request).1
  }

  /** `reply` is the inline engine's answer to the call numbered `id`, in the order served. */
  ghost predicate Answers<E, Q, R>(run: Engine<E, Q, R>, start: E, served: seq<Message<Q>>, id: nat, reply: Reply<R>) {
    exists i :: 0 <= i < |served| && served[i].id == id && AnswerAt(run, start, served, i) == reply
  }

  lemma AnswersStay<E, Q, R>(run: Engine<E, Q, R>, start: E, served: seq<Message<Q>>, m: Message<Q>, id: nat, reply: Reply<R>)
    requires Answers(run, start, served, id, reply)
    ensures Answers(run, start, served + [m], id, reply)
  {
    var i :| 0 <= i < |served| && served[i].id == id && AnswerAt(run, start, served, i) == reply;
    assert (served + [m])[..i] == served[..i] && (served + [m])[i] == served[i];
    assert AnswerAt(run, start, served + [m], i) == reply;
  }

  // ---------------------------------------------------------------------------
  // The invariant
  // ---------------------------------------------------------------------------

  ghost predicate NumbersOk<E, Q, R>(s: System<E, Q, R>) {
    && s.proxy.nextId >= 1
    && (forall id :: id in s.asked <==> 1 <= id < s.proxy.nextId)
    && (forall id :: id in s.proxy.pending ==> id in s.asked)
    && (forall id :: id in s.unposted ==> id in s.asked && id !in s.inbox)
    && (forall id :: id in s.inbox ==> id in s.asked && s.inbox[id] == s.asked[id])
    && Distinct(s.proxy.pending)
  }

  /** The worker has run the engine on distinct calls, and every undelivered reply is the engine's. */
  ghost predicate ServedOk<E, Q, R>(run: Engine<E, Q, R>, start: E, s: System<E, Q, R>) {
    MessagesOk(s) && EngineOk(run, start, s.engine, s.served, s.outbox)
  }

  ghost predicate MessagesOk<E, Q, R>(s: System<E, Q, R>) {
    && (forall m :: m in s.served ==> m.id in s.asked && m.request == s.asked[m.id] && m.id !in s.inbox && m.id !in s.unposted)
    && (forall i, j :: 0 <= i < j < |s.served| ==> s.served[i].id != s.served[j].id)
  }

  ghost predicate EngineOk<E, Q, R>(run: Engine<E, Q, R>, start: E, engine: E, served: seq<Message<Q>>, replies: map<nat, Reply<R>>) {
    && engine == EngineAfter(run, start, served)
    && forall id :: id in replies ==> Answers(run, start, served, id, replies[id])
  }

  function Count<R>(settled: seq<Settlement<R>>, id: nat): nat {
    if settled == [] then 0 else Count(settled[..|settled| - 1], id) + if settled[|settled| - 1].id == id then 1 else 0
  }

  function Due<E, Q, R>(s: System<E, Q, R>, id: nat): nat {
    if id !in s.asked then 0
    else (if id in s.unposted then 1 else 0) + (if id in s.proxy.pending then 0 else 1)
  }

  /** A call is pending or settled, never both; only a call whose post threw can be settled twice. */
  ghost predicate SettledOk<E, Q, R>(s: System<E, Q, R>) {
    forall id :: Count(s.proxy.settled, id) == Due(s, id)
  }

  /** Every settlement with a reply carries the engine's answer to that very call. */
  ghost predicate RepliesOk<E, Q, R>(run: Engine<E, Q, R>, start: E, s: System<E, Q, R>) {
    forall x :: x in s.proxy.settled && x.outcome.Replied? ==> Answers(run, start, s.served, x.id, x.outcome.reply)
  }

  /** A pending call that was posted has its message with the worker or its reply on the way back. */
  ghost predicate OnItsWay<E, Q, R>(s: System<E, Q, R>) {
    forall id :: id in s.proxy.pending && id !in s.unposted ==> id in s.inbox || id in s.outbox
  }

  ghost predicate Inv<E, Q, R>(run: Engine<E, Q, R>, start: E, s: System<E, Q, R>) {
    NumbersOk(s) && ServedOk(run, start, s) && SettledOk(s) && RepliesOk(run, start, s) && OnItsWay(s)
  }

  // ---------------------------------------------------------------------------
  // Each event keeps it
  // ---------------------------------------------------------------------------

  lemma CountAppend<R>(settled: seq<Settlement<R>>, x: Settlement<R>, id: nat)
    ensures Count(settled + [x], id) == Count(settled, id) + if x.id == id then 1 else 0
  {
    assert (settled + [x])[..|settled|] == settled;
  }

  ghost predicate Distinct(ids: seq<nat>) { forall i, j :: 0 <= i < j < |ids| ==> ids[i] != ids[j] }

  lemma {:induction false} CountConcat<R>(a: seq<Settlement<R>>, b: seq<Settlement<R>>, id: nat)
    ensures Count(a + b, id) == Count(a, id) + Count(b, id)
  {
    if b == [] {
      assert a + b == a;
    } else {
      CountConcat(a, b[..|b| - 1], id);
      assert (a + b)[..|a + b| - 1] == a + b[..|b| - 1];
    }
  }

  lemma {:induction false} CountRejected<R>(ids: seq<nat>, why: Cause, id: nat)
    requires Distinct(ids)
    ensures Count(RejectAll<R>(ids, why), id) == if id in ids then 1 else 0
  {
    if ids != [] {
      var n := |ids| - 1;
      CountRejected<R>(ids[..n], why, id);
      assert RejectAll<R>(ids, why)[..n] == RejectAll<R>(ids[..n], why);
      assert id in ids <==> id in ids[..n] || id == ids[n];
    }
  }

  lemma {:induction false} WithoutDistinct(ids: seq<nat>, id: nat)
    requires Distinct(ids)
    ensures Distinct(Without(ids, id))
  {
    if ids != [] {
      WithoutDistinct(ids[1..], id);
      assert ids[0] !in ids[1..];
    }
  }

  lemma InvokeKeeps<E, Q, R>(run: Engine<E, Q, R>, start: E, s: System<E, Q, R>, q: Q, posts: bool, noise: Reply<R>)
    requires Inv(run, start, s)
    ensures Inv(run, start, Next(run, s, Invoke(q, posts), noise))
  {
    var s' := Next(run, s, Invoke(q, posts), noise);
    InvokeNumbers(run, s, q, posts, noise);
    InvokeSettles(run, s, q, posts, noise);
    assert ServedOk(run, start, s');
  }

  lemma InvokeNumbers<E, Q, R>(run: Engine<E, Q, R>, s: System<E, Q, R>, q: Q, posts: bool, noise: Reply<R>)
    requires NumbersOk(s) && OnItsWay(s)
    ensures NumbersOk(Next(run, s, Invoke(q, posts), noise)) && OnItsWay(Next(run, s, Invoke(q, posts), noise))
  {
    PendingNext(s.proxy.pending, s.proxy.nextId);
  }

  lemma PendingNext(pending: seq<nat>, n: nat)
    ensures forall id :: id in pending + [n] <==> id in pending || id == n
    ensures Distinct(pending) && n !in pending ==> Distinct(pending + [n])
  {
  }

  lemma InvokeSettles<E, Q, R>(run: Engine<E, Q, R>, s: System<E, Q, R>, q: Q, posts: bool, noise: Reply<R>)
    requires NumbersOk(s) && SettledOk(s)
    ensures SettledOk(Next(run, s, Invoke(q, posts), noise))
  {
    var s', n := Next(run, s, Invoke(q, posts), noise), s.proxy.nextId;
    forall id ensures Count(s'.proxy.settled, id) == Due(s', id) {
      assert Count(s.proxy.settled, id) == Due(s, id);
      CountAppend(s.proxy.settled, Settlement(n, Rejected(NotPosted)), id);
    }
  }

  lemma ServeKeeps<E, Q, R>(run: Engine<E, Q, R>, start: E, s: System<E, Q, R>, id: nat, noise: Reply<R>)
    requires Inv(run, start, s) && Possible(s, Serve(id))
    ensures Inv(run, start, Next(run, s, Serve(id), noise))
  {
    ServeServes(run, start, s, id, noise);
    ServeReplies(run, start, s, id, noise);
    ServeSettles(run, s, id, noise);
  }

  /** One more request served: the engine's next state, and its answer. */
  lemma ServedNext<E, Q, R>(run: Engine<E, Q, R>, start: E, served: seq<Message<Q>>, m: Message<Q>)
    ensures EngineAfter(run, start, served + [m]) == run(EngineAfter(run, start, served), m.request).0
    ensures Answers(run, start, served + [m], m.id, run(EngineAfter(run, start, served), m.request).1)
  {
    var all := served + [m];
    assert all[..|served|] == served;
    assert AnswerAt(run, start, all, |served|) == run(EngineAfter(run, start, served), m.request).1;
  }

  lemma ServeServes<E, Q, R>(run: Engine<E, Q, R>, start: E, s: System<E, Q, R>, id: nat, noise: Reply<R>)
    requires NumbersOk(s) && ServedOk(run, start, s) && Possible(s, Serve(id))
    ensures ServedOk(run, start, Next(run, s, Serve(id), noise))
  {
    EngineServes(run, start, s.engine, s.served, s.outbox, Message(id, s.inbox[id]));
    MessageServed(run, s, id, noise);
  }

  lemma EngineServes<E, Q, R>(
      run: Engine<E, Q, R>, start: E, engine: E, served: seq<Message<Q>>, replies: map<nat, Reply<R>>, m: Message<Q>)
    requires EngineOk(run, start, engine, served, replies)
    ensures EngineOk(run, start, run(engine, m.request).0, served + [m], replies[m.id := run(engine, m.request).1])
  {
    var replies' := replies[m.id := run(engine, m.request).1];
    ServedNext(run, start, served, m);
    AnswersKept(run, start, served, m, replies);
    forall n | n in replies' ensures Answers(run, start, served + [m], n, replies'[n]) {
      assert n == m.id || (n in replies && replies'[n] == replies[n]);
    }
  }

  lemma AnswersKept<E, Q, R>(run: Engine<E, Q, R>, start: E, served: seq<Message<Q>>, m: Message<Q>, replies: map<nat, Reply<R>>)
    requires forall n :: n in replies ==> Answers(run, start, served, n, replies[n])
    ensures forall n :: n in replies ==> Answers(run, start, served + [m], n, replies[n])
  {
    forall n | n in replies ensures Answers(run, start, served + [m], n, replies[n]) {
      AnswersStay(run, start, served, m, n, replies[n]);
    }
  }

  lemma MessageServed<E, Q, R>(run: Engine<E, Q, R>, s: System<E, Q, R>, id: nat, noise: Reply<R>)
    requires NumbersOk(s) && MessagesOk(s) && Possible(s, Serve(id))
    ensures MessagesOk(Next(run, s, Serve(id), noise))
  {
    ServedDistinct(s, id);
  }

  lemma ServeReplies<E, Q, R>(run: Engine<E, Q, R>, start: E, s: System<E, Q, R>, id: nat, noise: Reply<R>)
    requires RepliesOk(run, start, s) && Possible(s, Serve(id))
    ensures RepliesOk(run, start, Next(run, s, Serve(id), noise))
  {
    var m := Message(id, s.inbox[id]);
    forall x | x in s.proxy.settled && x.outcome.Replied? ensures Answers(run, start, s.served + [m], x.id, x.outcome.reply) {
      AnswersStay(run, start, s.served, m, x.id, x.outcome.reply);
    }
  }

  lemma ServeSettles<E, Q, R>(run: Engine<E, Q, R>, s: System<E, Q, R>, id: nat, noise: Reply<R>)
    requires NumbersOk(s) && SettledOk(s) && OnItsWay(s) && Possible(s, Serve(id))
    ensures var s' := Next(run, s, Serve(id), noise); NumbersOk(s') && SettledOk(s') && OnItsWay(s')
  {
    var s' := Next(run, s, Serve(id), noise);
    assert forall i :: Due(s', i) == Due(s, i);
  }

  lemma ServedDistinct<E, Q, R>(s: System<E, Q, R>, id: nat)
    requires id in s.inbox && forall m :: m in s.served ==> m.id !in s.inbox
    requires forall i, j :: 0 <= i < j < |s.served| ==> s.served[i].id != s.served[j].id
    ensures var served' := s.served + [Message(id, s.inbox[id])];
            forall i, j :: 0 <= i < j < |served'| ==> served'[i].id != served'[j].id
  {
    forall i | 0 <= i < |s.served| ensures s.served[i].id != id { assert s.served[i] in s.served; }
  }

  lemma DeliverKeeps<E, Q, R>(run: Engine<E, Q, R>, start: E, s: System<E, Q, R>, id: nat, noise: Reply<R>)
    requires Inv(run, start, s) && Possible(s, Deliver(id))
    ensures Inv(run, start, Next(run, s, Deliver(id), noise))
  {
    var s' := Next(run, s, Deliver(id), noise);
    DeliverSettles(run, s, id, noise);
    WithoutDistinct(s.proxy.pending, id);
    assert ServedOk(run, start, s');
    assert NumbersOk(s') && OnItsWay(s');
  }

  lemma DeliverSettles<E, Q, R>(run: Engine<E, Q, R>, s: System<E, Q, R>, id: nat, noise: Reply<R>)
    requires NumbersOk(s) && SettledOk(s) && Possible(s, Deliver(id))
    ensures SettledOk(Next(run, s, Deliver(id), noise))
  {
    var s' := Next(run, s, Deliver(id), noise);
    forall i ensures Count(s'.proxy.settled, i) == Due(s', i) {
      assert Count(s.proxy.settled, i) == Due(s, i);
      CountAppend(s.proxy.settled, Settlement(id, Replied(s.outbox[id])), i);
    }
  }

  lemma FailAllKeeps<E, Q, R>(run: Engine<E, Q, R>, start: E, s: System<E, Q, R>, e: Event<Q>, noise: Reply<R>)
    requires Inv(run, start, s) && (e.Break? || e.Terminate?)
    ensures Inv(run, start, Next(run, s, e, noise))
  {
    var s' := Next(run, s, e, noise);
    var why := if e.Break? then WorkerError else WorkerTerminated;
    forall id ensures Count(s'.proxy.settled, id) == Due(s', id) {
      assert Count(s.proxy.settled, id) == Due(s, id);
      CountConcat(s.proxy.settled, RejectAll<R>(s.proxy.pending, why), id);
      CountRejected<R>(s.proxy.pending, why, id);
    }
    assert ServedOk(run, start, s');
  }

  lemma NextKeeps<E, Q, R>(run: Engine<E, Q, R>, start: E, s: System<E, Q, R>, e: Event<Q>, noise: Reply<R>)
    requires Inv(run, start, s) && Possible(s, e)
    ensures Inv(run, start, Next(run, s, e, noise))
  {
    match e
    case Invoke(q, posts) => InvokeKeeps(run, start, s, q, posts, noise);
    case Serve(id) => ServeKeeps(run, start, s, id, noise);
    case Deliver(id) => DeliverKeeps(run, start, s, id, noise);
    case Stray(_) =>
    case Break => FailAllKeeps(run, start, s, e, noise);
    case Terminate => FailAllKeeps(run, start, s, e, noise);
  }

  lemma {:induction false} InvThroughout<E, Q, R>(
      run: Engine<E, Q, R>, start: E, ss: seq<System<E, Q, R>>, es: seq<Event<Q>>, noise: Reply<R>, i: nat)
    requires IsRun(run, start, ss, es, noise) && i < |ss|
    ensures Inv(run, start, ss[i])
  {
    if i > 0 {
      InvThroughout(run, start, ss, es, noise, i - 1);
      NextKeeps(run, start, ss[i - 1], es[i - 1], noise);
    }
  }

  // ---------------------------------------------------------------------------
  // Main results
  // ---------------------------------------------------------------------------

  /**
   * The worker is the inline engine: its state is the inline engine's after the calls it served,
   * each served once, and every call that settles with a reply gets what the inline engine
   * answers to that call's own request.
   */
  lemma RefinesInlineEngine<E, Q, R>(
      run: Engine<E, Q, R>, start: E, ss: seq<System<E, Q, R>>, es: seq<Event<Q>>, noise: Reply<R>, i: nat, x: Settlement<R>)
    requires IsRun(run, start, ss, es, noise) && i < |ss|
    ensures ss[i].engine == EngineAfter(run, start, ss[i].served)
    ensures forall j, k :: 0 <= j < k < |ss[i].served| ==> ss[i].served[j].id != ss[i].served[k].id
    ensures x in ss[i].proxy.settled && x.outcome.Replied? ==>
              exists j :: 0 <= j < |ss[i].served|
                && ss[i].served[j].id == x.id && x.id in ss[i].asked && ss[i].served[j].request == ss[i].asked[x.id]
                && AnswerAt(run, start, ss[i].served, j) == x.outcome.reply
  {
    InvThroughout(run, start, ss, es, noise, i);
    if x in ss[i].proxy.settled && x.outcome.Replied? {
      var j :| 0 <= j < |ss[i].served| && ss[i].served[j].id == x.id && AnswerAt(run, start, ss[i].served, j) == x.outcome.reply;
      assert ss[i].served[j] in ss[i].served;
    }
  }

  /**
   * A posted call settles at most once, exactly when it stops being pending; until then its
   * message or its reply is on its way, unless the worker it was posted to is dead.
   */
  lemma SettlesAtMostOnce<E, Q, R>(
      run: Engine<E, Q, R>, start: E, ss: seq<System<E, Q, R>>, es: seq<Event<Q>>, noise: Reply<R>, i: nat, id: nat)
    requires IsRun(run, start, ss, es, noise) && i < |ss|
    requires id in ss[i].asked && id !in ss[i].unposted
    ensures Count(ss[i].proxy.settled, id) == if id in ss[i].proxy.pending then 0 else 1
    ensures id in ss[i].proxy.pending ==>
              id in ss[i].outbox || (id in ss[i].inbox && ss[i].alive) || Stranded(ss[i], id)
  {
    InvThroughout(run, start, ss, es, noise, i);
    assert Count(ss[i].proxy.settled, id) == Due(ss[i], id);
  }

  /** A call whose post threw is rejected at once and stays registered; closing it settles it again. */
  lemma UnpostedCount<E, Q, R>(
      run: Engine<E, Q, R>, start: E, ss: seq<System<E, Q, R>>, es: seq<Event<Q>>, noise: Reply<R>, i: nat, id: nat)
    requires IsRun(run, start, ss, es, noise) && i < |ss| && id in ss[i].unposted
    ensures Count(ss[i].proxy.settled, id) == if id in ss[i].proxy.pending then 1 else 2
    ensures forall x :: x in ss[i].proxy.settled && x.id == id ==> x.outcome.Rejected?
  {
    InvThroughout(run, start, ss, es, noise, i);
    assert Count(ss[i].proxy.settled, id) == Due(ss[i], id);
    forall x | x in ss[i].proxy.settled && x.outcome.Replied? ensures x.id !in ss[i].unposted {
      RepliedWasPosted(run, start, ss[i], x);
    }
  }

  lemma RepliedWasPosted<E, Q, R>(run: Engine<E, Q, R>, start: E, s: System<E, Q, R>, x: Settlement<R>)
    requires Inv(run, start, s) && x in s.proxy.settled && x.outcome.Replied?
    ensures x.id !in s.unposted
  {
    var j :| 0 <= j < |s.served| && s.served[j].id == x.id;
    assert s.served[j] in s.served;
  }

  lemma StepNumbers<E, Q, R>(run: Engine<E, Q, R>, s: System<E, Q, R>, e: Event<Q>, noise: Reply<R>, id: nat)
    requires NumbersOk(s) && Possible(s, e) && id in s.asked
    ensures id in Next(run, s, e, noise).asked && Next(run, s, e, noise).asked[id] == s.asked[id]
    ensures id !in s.proxy.pending ==> id !in Next(run, s, e, noise).proxy.pending
  {
  }

  ghost predicate Carries<E, Q, R>(s: System<E, Q, R>, s': System<E, Q, R>, id: nat) {
    id in s.asked ==>
      id in s'.asked && s'.asked[id] == s.asked[id] && (id !in s.proxy.pending ==> id !in s'.proxy.pending)
  }

  lemma {:induction false} CarriedAlong<E, Q, R>(ss: seq<System<E, Q, R>>, i: nat, j: nat, id: nat)
    requires i <= j < |ss| && id in ss[i].asked
    requires forall k :: i <= k < j ==> Carries(ss[k], ss[k + 1], id)
    ensures Carries(ss[i], ss[j], id)
    decreases j - i
  {
    if i < j {
      CarriedAlong(ss, i, j - 1, id);
      assert Carries(ss[j - 1], ss[j - 1 + 1], id);
    }
  }

  /** Numbers are given out once: a call's request never changes under its number, and a call once settled never reopens. */
  lemma NumbersAreNeverReused<E, Q, R>(
      run: Engine<E, Q, R>, start: E, ss: seq<System<E, Q, R>>, es: seq<Event<Q>>, noise: Reply<R>, i: nat, j: nat, id: nat)
    requires IsRun(run, start, ss, es, noise) && i <= j < |ss| && id in ss[i].asked
    ensures id in ss[j].asked && ss[j].asked[id] == ss[i].asked[id]
    ensures id !in ss[i].proxy.pending ==> id !in ss[j].proxy.pending
  {
    forall k | i <= k < j ensures Carries(ss[k], ss[k + 1], id) {
      InvThroughout(run, start, ss, es, noise, k);
      if id in ss[k].asked { StepNumbers(run, ss[k], es[k], noise, id); }
    }
    CarriedAlong(ss, i, j, id);
  }

  /** An open call whose message lies with a dead worker. */
  predicate Stranded<E, Q, R>(s: System<E, Q, R>, id: nat) {
    !s.alive && id in s.inbox && id in s.proxy.pending
  }

  /** A call made after terminate is posted to a dead worker. */
  lemma CallAfterTerminateIsStranded<E, Q, R>(run: Engine<E, Q, R>, s: System<E, Q, R>, q: Q, noise: Reply<R>)
    requires !s.alive
    ensures Stranded(Next(run, s, Invoke(q, true), noise), s.proxy.nextId)
  {
    assert (s.proxy.pending + [s.proxy.nextId])[|s.proxy.pending|] == s.proxy.nextId;
  }

  predicate Clears<Q>(e: Event<Q>) { e.Break? || e.Terminate? }

  lemma DeadStep<E, Q, R>(run: Engine<E, Q, R>, start: E, s: System<E, Q, R>, e: Event<Q>, noise: Reply<R>, id: nat)
    requires Inv(run, start, s) && Possible(s, e) && !s.alive && id in s.inbox
    ensures !Next(run, s, e, noise).alive && id in Next(run, s, e, noise).inbox
    ensures id in Next(run, s, e, noise).proxy.pending <==> id in s.proxy.pending && !Clears(e)
  {
    if e.Deliver? { assert Answers(run, start, s.served, e.id, s.outbox[e.id]); }
  }

  lemma {:induction false} DeadAlong<E, Q, R>(
      run: Engine<E, Q, R>, start: E, ss: seq<System<E, Q, R>>, es: seq<Event<Q>>, noise: Reply<R>, i: nat, j: nat, id: nat)
    requires IsRun(run, start, ss, es, noise) && i <= j < |ss| && Stranded(ss[i], id)
    ensures !ss[j].alive && id in ss[j].inbox
    ensures id in ss[j].proxy.pending <==> forall k :: i <= k < j ==> !Clears(es[k])
    decreases j - i
  {
    if i < j {
      DeadAlong(run, start, ss, es, noise, i, j - 1, id);
      InvThroughout(run, start, ss, es, noise, j - 1);
      DeadStep(run, start, ss[j - 1], es[j - 1], noise, id);
    }
  }

  /** A call to a dead worker never gets a reply, and is never settled at all unless the proxy is cleared again. */
  lemma StrandedSettlesExactlyWhenCleared<E, Q, R>(
      run: Engine<E, Q, R>, start: E, ss: seq<System<E, Q, R>>, es: seq<Event<Q>>, noise: Reply<R>, i: nat, j: nat, id: nat)
    requires IsRun(run, start, ss, es, noise) && i <= j < |ss| && Stranded(ss[i], id)
    ensures Count(ss[j].proxy.settled, id) == if forall k :: i <= k < j ==> !Clears(es[k]) then 0 else 1
    ensures forall x :: x in ss[j].proxy.settled && x.id == id ==> x.outcome.Rejected?
  {
    DeadAlong(run, start, ss, es, noise, i, j, id);
    InvThroughout(run, start, ss, es, noise, j);
    assert Count(ss[j].proxy.settled, id) == Due(ss[j], id);
    forall x | x in ss[j].proxy.settled && x.outcome.Replied? ensures x.id !in ss[j].inbox {
      assert Answers(run, start, ss[j].served, x.id, x.outcome.reply);
    }
  }

  lemma UnpostedStep<E, Q, R>(run: Engine<E, Q, R>, start: E, s: System<E, Q, R>, e: Event<Q>, noise: Reply<R>, id: nat)
    requires Inv(run, start, s) && Possible(s, e) && id in s.unposted
    ensures id in Next(run, s, e, noise).unposted
    ensures id in Next(run, s, e, noise).proxy.pending <==> id in s.proxy.pending && !Clears(e)
  {
    if e.Deliver? { assert Answers(run, start, s.served, e.id, s.outbox[e.id]); }
  }

  /** The call stays unposted, and stays open unless the event clears the proxy. */
  ghost predicate StaysUnposted<E, Q, R>(s: System<E, Q, R>, e: Event<Q>, s': System<E, Q, R>, id: nat) {
    id in s.unposted ==>
      id in s'.unposted && (id in s'.proxy.pending <==> id in s.proxy.pending && !Clears(e))
  }

  lemma {:induction false} UnpostedAlong<E, Q, R>(ss: seq<System<E, Q, R>>, es: seq<Event<Q>>, i: nat, j: nat, id: nat)
    requires i <= j < |ss| == |es| + 1 && id in ss[i].unposted && id in ss[i].proxy.pending
    requires forall k :: i <= k < j ==> StaysUnposted(ss[k], es[k], ss[k + 1], id)
    ensures id in ss[j].unposted
    ensures id in ss[j].proxy.pending <==> forall k :: i <= k < j ==> !Clears(es[k])
    decreases j - i
  {
    if i < j {
      UnpostedAlong(ss, es, i, j - 1, id);
      assert StaysUnposted(ss[j - 1], es[j - 1], ss[j - 1 + 1], id);
    }
  }

  /**
   * A call whose post throws is rejected at once, stays registered, and is rejected a second time
   * exactly when the proxy is cleared at some later point, by an error or by terminate.
   */
  lemma UnpostedSettlesTwiceExactlyWhenCleared<E, Q, R>(
      run: Engine<E, Q, R>, start: E, ss: seq<System<E, Q, R>>, es: seq<Event<Q>>, noise: Reply<R>, i: nat, j: nat, q: Q)
    requires IsRun(run, start, ss, es, noise) && i < j < |ss| && es[i] == Invoke(q, false)
    ensures var id := ss[i].proxy.nextId;
            && Count(ss[j].proxy.settled, id) == (if forall k :: i < k < j ==> !Clears(es[k]) then 1 else 2)
            && forall x :: x in ss[j].proxy.settled && x.id == id ==> x.outcome.Rejected?
  {
    var id := ss[i].proxy.nextId;
    assert ss[i + 1] == Next(run, ss[i], es[i], noise);
    assert (ss[i].proxy.pending + [id])[|ss[i].proxy.pending|] == id;
    forall k | i + 1 <= k < j ensures StaysUnposted(ss[k], es[k], ss[k + 1], id) {
      InvThroughout(run, start, ss, es, noise, k);
      if id in ss[k].unposted { UnpostedStep(run, start, ss[k], es[k], noise, id); }
    }
    UnpostedAlong(ss, es, i + 1, j, id);
    InvThroughout(run, start, ss, es, noise, j);
    UnpostedCount(run, start, ss, es, noise, j, id);
  }
}
