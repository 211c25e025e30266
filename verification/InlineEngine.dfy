/**
 * The inline engine behind the worker, at its awaits: dispatches interleave wherever a method
 * waits, and only openSession touches the session cache on both sides of a wait. Each dispatch
 * still takes effect at one instant, so that serving requests one at a time, as CryptoRpc does,
 * loses nothing.
 */
module InlineEngine {
  import opened Common
  import opened CryptoRpc

  type SessionId = string

  type Seed = string

  type Keys = nat

  datatype Request =
    | OpenSession(seed: Seed, curve: nat)
    | CloseSession(id: SessionId)
    | Use(id: SessionId, job: string)      // the methods that only look a session's keys up

  datatype Answer = Session(id: SessionId, keys: Keys) | Closed | Computed(result: string)

  type Cache = map<SessionId, Keys>

  function Get(cache: Cache, id: SessionId): Option<Keys> { if id in cache then Some(cache[id]) else None }

  /** The foreign functions: hashing a seed, deriving keys from it, and computing with keys. */
  datatype Crypto = Crypto(
    idOf: (Seed, nat) -> SessionId,
    derive: (Seed, nat) -> Reply<Keys>,
    compute: (Keys, string) -> Reply<Answer>)
  {
    /** A session id stands for one seed and curve, as far as the keys go. */
    ghost predicate NoCollisions() {
      forall s, c, s', c' :: idOf(s, c) == idOf(s', c') ==> derive(s, c) == derive(s', c')
    }

    function Opened(seed: Seed, curve: nat): Reply<Answer> {
      match derive(seed, curve)
      case Ok(keys) => Ok(Session(idOf(seed, curve), keys))
      case Err(e) => Err(e)
    }

    /** A request served without interruption. */
    function Atomic(cache: Cache, q: Request): (Cache, Reply<Answer>) {
      match q
      case OpenSession(seed, curve) =>
        var id := idOf(seed, curve);
        if id in cache then (cache, Ok(Session(id, cache[id])))
        else (if derive(seed, curve).Ok? then cache[id := derive(seed, curve).value] else cache, Opened(seed, curve))
      case CloseSession(id) => (cache - {id}, Ok(Closed))
      case Use(id, job) =>
        (cache, if id in cache then compute(cache[id], job) else Err(RemoteError("Error", "unknown session " + id)))
    }
  }

  datatype State = State(
    cache: Cache,
    asked: map<nat, Request>,            // dispatched, by number
    deriving: map<nat, Request>,         // opens that missed the cache and wait for their keys
    replies: map<nat, Reply<Answer>>,
    served: seq<Message<Request>>)       // in the order they took effect

  datatype Step =
    | Dispatch(n: nat, request: Request)   // up to the method's last look at the cache, or its wait for keys
    | Resume(n: nat)                       // the keys are there, or their derivation threw

  predicate Possible(s: State, e: Step) {
    match e
    case Dispatch(n, _) => n !in s.asked
    case Resume(n) => n in s.deriving && s.deriving[n].OpenSession?
  }

  function Finish(s: State, n: nat, q: Request, cache: Cache, reply: Reply<Answer>): State {
    State(cache, s.asked[n := q], s.deriving - {n}, s.replies[n := reply], s.served + [Message(n, q)])
  }

  function Next(c: Crypto, s: State, e: Step): State
    requires Possible(s, e)
  {
    match e
    case Dispatch(n, OpenSession(seed, curve)) =>
      var id := c.idOf(seed, curve);
      if id in s.cache then Finish(s, n, e.request, s.cache, Ok(Session(id, s.cache[id])))
      else s.(asked := s.asked[n := e.request], deriving := s.deriving[n := e.request])
    case Dispatch(n, CloseSession(id)) => Finish(s, n, e.request, s.cache - {id}, Ok(Closed))
    case Dispatch(n, Use(id, job)) =>
      Finish(s, n, e.request, s.cache,
             if id in s.cache then c.compute(s.cache[id], job) else Err(RemoteError("Error", "unknown session " + id)))
    case Resume(n) =>
      var q := s.deriving[n];
      match c.derive(q.seed, q.curve)
      case Ok(keys) => Finish(s, n, q, s.cache[c.idOf(q.seed, q.curve) := keys], Ok(Session(c.idOf(q.seed, q.curve), keys)))
      case Err(error) => Finish(s, n, q, s.cache, Err(error))
  }

  const Fresh := State(map[], map[], map[], map[], [])

  ghost predicate IsRun(c: Crypto, ss: seq<State>, es: seq<Step>) {
    && |ss| == |es| + 1
    && ss[0] == Fresh
    && forall i :: 0 <= i < |es| ==> Possible(ss[i], es[i]) && ss[i + 1] == Next(c, ss[i], es[i])
  }

  /** Cached keys are the ones their seed derives. */
  ghost predicate Sound(c: Crypto, cache: Cache) {
    forall seed, curve :: c.idOf(seed, curve) in cache ==> c.derive(seed, curve) == Ok(cache[c.idOf(seed, curve)])
  }

  /** Every request dispatched is waiting or has taken effect, once, as it was dispatched. */
  ghost predicate OnceEach(s: State) {
    && (forall n :: n in s.asked <==> n in s.deriving || n in s.replies)
    && (forall n :: n in s.deriving ==> n !in s.replies && s.deriving[n] == s.asked[n])
    && (forall m :: m in s.served ==> m.id in s.replies && m.request == s.asked[m.id])
    && (forall i, j :: 0 <= i < j < |s.served| ==> s.served[i].id != s.served[j].id)
  }

  ghost predicate Inv(c: Crypto, s: State) {
    && Sound(c, s.cache)
    && EngineOk(c.Atomic, map[], s.cache, s.served, s.replies)
    && OnceEach(s)
  }

  function RequestOf(s: State, e: Step): Request
    requires Possible(s, e)
  {
    if e.Dispatch? then e.request else s.deriving[e.n]
  }

  /** The step is where its request takes effect: it does not start a wait. */
  predicate Effective(c: Crypto, s: State, e: Step) {
    !(e.Dispatch? && e.request.OpenSession? && c.idOf(e.request.seed, e.request.curve) !in s.cache)
  }

  /** The instant of effect: the step does to the cache, and answers, what the whole request would do at once. */
  lemma EffectIsAtomic(c: Crypto, s: State, e: Step)
    requires c.NoCollisions() && Sound(c, s.cache) && Possible(s, e)
    ensures if Effective(c, s, e) then
              var (cache, reply) := c.Atomic(s.cache, RequestOf(s, e));
              Next(c, s, e) == Finish(s, e.n, RequestOf(s, e), cache, reply)
            else Next(c, s, e) == s.(asked := s.asked[e.n := e.request], deriving := s.deriving[e.n := e.request])
  {
    if e.Resume? {
      var q := s.deriving[e.n];
      var id := c.idOf(q.seed, q.curve);
      if id in s.cache { assert s.cache[id := s.cache[id]] == s.cache; }
    }
  }

  lemma AtomicSound(c: Crypto, cache: Cache, q: Request)
    requires c.NoCollisions() && Sound(c, cache)
    ensures Sound(c, c.Atomic(cache, q).0)
  {}

  lemma EffectOnce(s: State, n: nat, q: Request, cache: Cache, reply: Reply<Answer>)
    requires OnceEach(s) && n !in s.replies && (n in s.asked ==> s.asked[n] == q)
    ensures OnceEach(Finish(s, n, q, cache, reply))
  {
    forall m | m in s.served ensures m.id != n {}
    forall i | 0 <= i < |s.served| ensures s.served[i].id != n { assert s.served[i] in s.served; }
  }

  lemma EffectKeeps(c: Crypto, s: State, n: nat, q: Request)
    requires c.NoCollisions() && Inv(c, s) && n !in s.replies && (n in s.asked ==> s.asked[n] == q)
    ensures Inv(c, Finish(s, n, q, c.Atomic(s.cache, q).0, c.Atomic(s.cache, q).1))
  {
    AtomicSound(c, s.cache, q);
    EffectOnce(s, n, q, c.Atomic(s.cache, q).0, c.Atomic(s.cache, q).1);
    EngineServes(c.Atomic, map[], s.cache, s.served, s.replies, Message(n, q));
  }

  lemma NextKeeps(c: Crypto, s: State, e: Step)
    requires c.NoCollisions() && Inv(c, s) && Possible(s, e)
    ensures Inv(c, Next(c, s, e))
  {
    EffectIsAtomic(c, s, e);
    if Effective(c, s, e) {
      EffectKeeps(c, s, e.n, RequestOf(s, e));
    } else {
      WaitKeeps(s, e.n, e.request);
    }
  }

  lemma WaitKeeps(s: State, n: nat, q: Request)
    requires OnceEach(s) && n !in s.asked
    ensures OnceEach(s.(asked := s.asked[n := q], deriving := s.deriving[n := q]))
  {
  }

  lemma {:induction false} InvThroughout(c: Crypto, ss: seq<State>, es: seq<Step>, i: nat)
    requires c.NoCollisions() && IsRun(c, ss, es) && i < |ss|
    ensures Inv(c, ss[i])
  {
    if i > 0 {
      InvThroughout(c, ss, es, i - 1);
      NextKeeps(c, ss[i - 1], es[i - 1]);
    }
  }

  /**
   * However the dispatches interleave at their awaits, cache and replies are those of the requests
   * served whole, one at a time, in the order in which they took effect: each request that was
   * dispatched at most once, and as it was dispatched.
   */
  lemma InterleavingIsSerial(c: Crypto, ss: seq<State>, es: seq<Step>, i: nat, n: nat)
    requires c.NoCollisions() && IsRun(c, ss, es) && i < |ss|
    ensures ss[i].cache == EngineAfter(c.Atomic, map[], ss[i].served)
    ensures n in ss[i].replies ==> Answers(c.Atomic, map[], ss[i].served, n, ss[i].replies[n])
    ensures OnceEach(ss[i])
  {
    InvThroughout(c, ss, es, i);
  }

  // ---------------------------------------------------------------------------
  // Sessions: open from an open to the next close
  // ---------------------------------------------------------------------------

  predicate Opens(c: Crypto, q: Request, id: SessionId) {
    q.OpenSession? && c.idOf(q.seed, q.curve) == id && c.derive(q.seed, q.curve).Ok?
  }

  predicate Closes(q: Request, id: SessionId) { q.CloseSession? && q.id == id }

  /** The keys under an id after these requests: those of its last successful open, if no close follows. */
  function OpenKeys(c: Crypto, served: seq<Message<Request>>, id: SessionId): Option<Keys> {
    if served == [] then None
    else
      var last := served[|served| - 1].request;
      if Opens(c, last, id) then Some(c.derive(last.seed, last.curve).value)
      else if Closes(last, id) then None
      else OpenKeys(c, served[..|served| - 1], id)
  }

  /** Open by position: some open of the id has no close of it after. */
  lemma {:induction false} OpenExactly(c: Crypto, served: seq<Message<Request>>, id: SessionId)
    ensures OpenKeys(c, served, id).Some? <==>
              exists i :: 0 <= i < |served| && Opens(c, served[i].request, id)
                && forall j :: i < j < |served| ==> !Closes(served[j].request, id)
  {
    if served != [] {
      var n := |served| - 1;
      OpenExactly(c, served[..n], id);
      if i :| 0 <= i < n && Opens(c, served[..n][i].request, id) && forall j :: i < j < n ==> !Closes(served[..n][j].request, id) {
        assert served[i] == served[..n][i];
        if !Closes(served[n].request, id) {
          forall j | i < j < |served| ensures !Closes(served[j].request, id) {
            if j < n { assert served[j] == served[..n][j]; }
          }
        }
      }
      if i :| 0 <= i < |served| && Opens(c, served[i].request, id) && forall j :: i < j < |served| ==> !Closes(served[j].request, id) {
        if i < n {
          assert served[..n][i] == served[i];
          forall j | i < j < n ensures !Closes(served[..n][j].request, id) { assert served[..n][j] == served[j]; }
        }
      }
    }
  }

  /** The cache holds exactly the open sessions, each with the keys its seed derives. */
  lemma {:induction false} CacheIsOpenSessions(c: Crypto, served: seq<Message<Request>>, id: SessionId)
    requires c.NoCollisions()
    ensures Get(EngineAfter(c.Atomic, map[], served), id) == OpenKeys(c, served, id)
  {
    if served != [] {
      var n := |served| - 1;
      CacheIsOpenSessions(c, served[..n], id);
      KeysAreDerived(c, served[..n]);
    }
  }

  lemma {:induction false} KeysAreDerived(c: Crypto, served: seq<Message<Request>>)
    requires c.NoCollisions()
    ensures Sound(c, EngineAfter(c.Atomic, map[], served))
  {
    if served != [] {
      KeysAreDerived(c, served[..|served| - 1]);
      AtomicSound(c, EngineAfter(c.Atomic, map[], served[..|served| - 1]), served[|served| - 1].request);
    }
  }

  /** What the k-th request to take effect is answered, by the requests before it alone. */
  function Told(c: Crypto, served: seq<Message<Request>>, k: nat): Reply<Answer>
    requires k < |served|
  {
    match served[k].request
    case OpenSession(seed, curve) =>
      (match c.derive(seed, curve)
       case Ok(keys) => Ok(Session(c.idOf(seed, curve), keys))
       case Err(error) => Err(error))
    case CloseSession(id) => Ok(Closed)
    case Use(id, job) =>
      match OpenKeys(c, served[..k], id)
      case Some(keys) => c.compute(keys, job)
      case None => Err(RemoteError("Error", "unknown session " + id))
  }

  lemma ToldByAtomic(c: Crypto, served: seq<Message<Request>>, k: nat)
    requires c.NoCollisions() && k < |served|
    ensures AnswerAt(c.Atomic, map[], served, k) == Told(c, served, k)
  {
    KeysAreDerived(c, served[..k]);
    match served[k].request
    case Use(id, job) => CacheIsOpenSessions(c, served[..k], id);
    case _ =>
  }

  /**
   * In every run: an id is in the cache exactly while it is open, and each request is told what
   * the sessions open when it took effect say. Between a close and the next open of an id every
   * use of it fails as unknown; after an open it works with the keys of that open's seed.
   */
  lemma SessionsOpenAndClose(c: Crypto, ss: seq<State>, es: seq<Step>, i: nat, id: SessionId, k: nat)
    requires c.NoCollisions() && IsRun(c, ss, es) && i < |ss|
    ensures Get(ss[i].cache, id) == OpenKeys(c, ss[i].served, id)
    ensures k < |ss[i].served| ==>
              ss[i].served[k].id in ss[i].replies && ss[i].replies[ss[i].served[k].id] == Told(c, ss[i].served, k)
  {
    InvThroughout(c, ss, es, i);
    CacheIsOpenSessions(c, ss[i].served, id);
    if k < |ss[i].served| {
      var s := ss[i];
      assert s.served[k] in s.served;
      var n := s.served[k].id;
      var j :| 0 <= j < |s.served| && s.served[j].id == n && AnswerAt(c.Atomic, map[], s.served, j) == s.replies[n];
      assert j == k;
      ToldByAtomic(c, s.served, k);
    }
  }

  // ---------------------------------------------------------------------------
  // Proxy, messages and the waiting worker together
  // ---------------------------------------------------------------------------

  /** CryptoRpc's system with this worker in place of one that serves a message at once. */
  datatype Whole = Whole(
    proxy: Proxy<Answer>,
    asked: map<nat, Request>,
    unposted: set<nat>,
    mail: map<nat, Request>,             // posted, not yet dispatched
    outbox: map<nat, Reply<Answer>>,
    alive: bool,
    worker: State)

  datatype Happening =
    | Outside(event: CryptoRpc.Event<Request>)   // anything but the worker's own steps
    | Worker(step: Step)

  predicate CanHappen(w: Whole, h: Happening) {
    match h
    case Outside(e) => !e.Serve? && (e.Deliver? ==> e.id in w.outbox) && (e.Stray? ==> e.id !in w.proxy.pending)
    case Worker(step) =>
      && w.alive
      && match step
         case Dispatch(n, q) => n in w.mail && w.mail[n] == q && n !in w.worker.asked
         case Resume(n) => Possible(w.worker, step)
  }

  /** A message counts as unserved until it takes effect. */
  function Unserved(w: Whole): map<nat, Request> { w.mail + w.worker.deriving }

  function Abstract(w: Whole): System<Cache, Request, Answer> {
    System(w.proxy, w.asked, w.unposted, Unserved(w), w.outbox, w.worker.cache, w.alive, w.worker.served)
  }

  function Happen(c: Crypto, w: Whole, h: Happening, noise: Reply<Answer>): Whole
    requires CanHappen(w, h)
  {
    match h
    case Outside(Invoke(q, posts)) =>
      var id := w.proxy.nextId;
      w.(proxy := Register(w.proxy, posts), asked := w.asked[id := q],
         unposted := if posts then w.unposted else w.unposted + {id}, mail := if posts then w.mail[id := q] else w.mail)
    case Outside(Deliver(id)) => w.(proxy := Receive(w.proxy, id, w.outbox[id]), outbox := w.outbox - {id})
    case Outside(Stray(id)) => w.(proxy := Receive(w.proxy, id, noise))
    case Outside(Break) => w.(proxy := FailAll(w.proxy, WorkerError))
    case Outside(Terminate) => w.(proxy := FailAll(w.proxy, WorkerTerminated), alive := false)
    case Worker(step) =>
      var worker := Next(c, w.worker, step);
      w.(worker := worker, mail := w.mail - {step.n},
         outbox := if step.n in worker.replies then w.outbox[step.n := worker.replies[step.n]] else w.outbox)
  }

  ghost predicate IsWholeRun(c: Crypto, ws: seq<Whole>, hs: seq<Happening>, noise: Reply<Answer>) {
    && |ws| == |hs| + 1
    && ws[0] == Whole(Proxy(1, [], []), map[], {}, map[], map[], true, Fresh)
    && forall i :: 0 <= i < |hs| ==> CanHappen(ws[i], hs[i]) && ws[i + 1] == Happen(c, ws[i], hs[i], noise)
  }

  /** Numbers at the worker were given out, and mail is for numbers it has not seen. */
  ghost predicate MailOk(w: Whole) {
    && (forall n :: n in w.mail ==> n !in w.worker.asked && n < w.proxy.nextId)
    && (forall n :: n in w.worker.asked ==> n < w.proxy.nextId)
  }

  ghost predicate WholeInv(c: Crypto, w: Whole) {
    && Inv(c, w.worker)
    && MailOk(w)
    && CryptoRpc.Inv(c.Atomic, map[], Abstract(w))
  }

  lemma EffectShape(c: Crypto, w: Whole, step: Step, noise: Reply<Answer>)
    requires c.NoCollisions() && Sound(c, w.worker.cache) && CanHappen(w, Worker(step)) && Effective(c, w.worker, step)
    ensures var q := RequestOf(w.worker, step);
            var (cache, reply) := c.Atomic(w.worker.cache, q);
            Happen(c, w, Worker(step), noise) ==
              w.(worker := Finish(w.worker, step.n, q, cache, reply), mail := w.mail - {step.n}, outbox := w.outbox[step.n := reply])
  {
    EffectIsAtomic(c, w.worker, step);
  }

  lemma WaitShape(c: Crypto, w: Whole, step: Step, noise: Reply<Answer>)
    requires c.NoCollisions() && Sound(c, w.worker.cache) && OnceEach(w.worker)
    requires CanHappen(w, Worker(step)) && !Effective(c, w.worker, step)
    ensures Happen(c, w, Worker(step), noise) ==
              w.(worker := w.worker.(asked := w.worker.asked[step.n := step.request], deriving := w.worker.deriving[step.n := step.request]),
                 mail := w.mail - {step.n})
  {
    EffectIsAtomic(c, w.worker, step);
  }

  /** Where a request is unserved: in the mail, or waiting at the worker. */
  lemma UnservedRequest(w: Whole, step: Step)
    requires OnceEach(w.worker) && MailOk(w) && CanHappen(w, Worker(step))
    ensures step.n in Unserved(w) && Unserved(w)[step.n] == RequestOf(w.worker, step)
    ensures (w.mail - {step.n}) + (w.worker.deriving - {step.n}) == Unserved(w) - {step.n}
    ensures step.Dispatch? ==> (w.mail - {step.n}) + w.worker.deriving[step.n := step.request] == Unserved(w)
  {
  }

  /** The refinement: a worker step is a Serve where its request takes effect, and nothing where it starts to wait. */
  lemma WorkerStepRefines(c: Crypto, w: Whole, step: Step, noise: Reply<Answer>)
    requires c.NoCollisions() && Sound(c, w.worker.cache) && OnceEach(w.worker) && MailOk(w) && CanHappen(w, Worker(step))
    ensures if Effective(c, w.worker, step) then
              && CryptoRpc.Possible(Abstract(w), Serve(step.n))
              && Abstract(Happen(c, w, Worker(step), noise)) == CryptoRpc.Next(c.Atomic, Abstract(w), Serve(step.n), noise)
            else Abstract(Happen(c, w, Worker(step), noise)) == Abstract(w)
  {
    UnservedRequest(w, step);
    if Effective(c, w.worker, step) {
      EffectShape(c, w, step, noise);
    } else {
      WaitShape(c, w, step, noise);
    }
  }

  lemma OutsideRefines(c: Crypto, w: Whole, e: CryptoRpc.Event<Request>, noise: Reply<Answer>)
    requires MailOk(w) && OnceEach(w.worker) && CanHappen(w, Outside(e))
    ensures CryptoRpc.Possible(Abstract(w), e)
    ensures Abstract(Happen(c, w, Outside(e), noise)) == CryptoRpc.Next(c.Atomic, Abstract(w), e, noise)
  {
    if e.Invoke? && e.posts {
      assert w.proxy.nextId !in w.worker.deriving;
      assert w.mail[w.proxy.nextId := e.request] + w.worker.deriving == Unserved(w)[w.proxy.nextId := e.request];
    }
  }

  lemma MailStays(c: Crypto, w: Whole, h: Happening, noise: Reply<Answer>)
    requires OnceEach(w.worker) && MailOk(w) && CanHappen(w, h)
    ensures MailOk(Happen(c, w, h, noise))
  {
    if h.Worker? { NextAsks(c, w.worker, h.step); }
  }

  lemma NextAsks(c: Crypto, s: State, e: Step)
    requires OnceEach(s) && Possible(s, e)
    ensures Next(c, s, e).asked == s.asked[e.n := RequestOf(s, e)]
  {
  }

  lemma HappenKeeps(c: Crypto, w: Whole, h: Happening, noise: Reply<Answer>)
    requires c.NoCollisions() && WholeInv(c, w) && CanHappen(w, h)
    ensures WholeInv(c, Happen(c, w, h, noise))
  {
    MailStays(c, w, h, noise);
    match h
    case Outside(e) =>
      OutsideRefines(c, w, e, noise);
      CryptoRpc.NextKeeps(c.Atomic, map[], Abstract(w), e, noise);
    case Worker(step) =>
      WorkerStepRefines(c, w, step, noise);
      NextKeeps(c, w.worker, step);
      if Effective(c, w.worker, step) {
        CryptoRpc.NextKeeps(c.Atomic, map[], Abstract(w), Serve(step.n), noise);
      }
  }

  lemma {:induction false} WholeThroughout(c: Crypto, ws: seq<Whole>, hs: seq<Happening>, noise: Reply<Answer>, i: nat)
    requires c.NoCollisions() && IsWholeRun(c, ws, hs, noise) && i < |ws|
    ensures WholeInv(c, ws[i])
  {
    if i > 0 {
      WholeThroughout(c, ws, hs, noise, i - 1);
      HappenKeeps(c, ws[i - 1], hs[i - 1], noise);
    }
  }

  /**
   * Proxy and worker with its awaits, over every order of posts, waits, replies, errors and
   * terminate: a call that settles with a reply gets what the engine, serving whole requests one
   * at a time, answers to that call's own request.
   */
  lemma WaitingWorkerRefines(c: Crypto, ws: seq<Whole>, hs: seq<Happening>, noise: Reply<Answer>, i: nat, x: Settlement<Answer>)
    requires c.NoCollisions() && IsWholeRun(c, ws, hs, noise) && i < |ws|
    requires x in ws[i].proxy.settled && x.outcome.Replied?
    ensures exists j :: 0 <= j < |ws[i].worker.served|
              && ws[i].worker.served[j].id == x.id && x.id in ws[i].asked && ws[i].worker.served[j].request == ws[i].asked[x.id]
              && AnswerAt(c.Atomic, map[], ws[i].worker.served, j) == x.outcome.reply
  {
    WholeThroughout(c, ws, hs, noise, i);
    var served := ws[i].worker.served;
    var j :| 0 <= j < |served| && served[j].id == x.id && AnswerAt(c.Atomic, map[], served, j) == x.outcome.reply;
    assert served[j] in served;
  }
}
