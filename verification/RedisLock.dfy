/** The Redis lock over time: SET NX PX, token-checked delete, and the polling acquire. */
module RedisLock {
  type Token = nat

  type Key = string

  datatype Lease = Lease(token: Token, expires: nat)

  datatype Phase =
    | Waiting(deadline: nat)
    | Inside(since: nat)      // between the SET that succeeded and the end of the critical section
    | Leaving
    | Done

  datatype Client = Client(key: Key, ttl: nat, phase: Phase)

  /** Redis, the callers of withLock by token, and the clock. */
  datatype System = System(now: nat, store: map<Key, Lease>, clients: map<Token, Client>)

  /** A lease is there until its expiry. */
  predicate Leased(s: System, k: Key) { k in s.store && s.now < s.store[k].expires }

  predicate Holds(s: System, t: Token) {
    t in s.clients && s.clients[t].key in s.store && s.store[s.clients[t].key].token == t
  }

  datatype Event =
    | Tick(ms: nat)
    | Call(token: Token, key: Key, ttl: nat, timeout: nat)
    | TrySet(token: Token)
    | Finish(token: Token)                       // the critical section returns or throws
    | Release(token: Token, delivered: bool)     // the script runs, or the call to Redis fails

  predicate Possible(s: System, e: Event) {
    match e
    case Tick(_) => true
    case Call(t, _, _, _) => t !in s.clients
    case TrySet(t) => t in s.clients && s.clients[t].phase.Waiting?
    case Finish(t) => t in s.clients && s.clients[t].phase.Inside?
    case Release(t, _) => t in s.clients && s.clients[t].phase.Leaving?
  }

  function SetPhase(s: System, t: Token, phase: Phase): System
    requires t in s.clients
  {
    s.(clients := s.clients[t := s.clients[t].(phase := phase)])
  }

  /** The release script: delete the key only while it carries this token. */
  function Delete(s: System, t: Token): map<Key, Lease>
    requires t in s.clients
  {
    var k := s.clients[t].key;
    if Leased(s, k) && s.store[k].token == t then s.store - {k} else s.store
  }

  function Next(s: System, e: Event): System
    requires Possible(s, e)
  {
    match e
    case Tick(ms) => s.(now := s.now + ms)
    case Call(t, k, ttl, timeout) => s.(clients := s.clients[t := Client(k, ttl, Waiting(s.now + timeout))])
    case TrySet(t) =>
      var c := s.clients[t];
      if c.phase.deadline <= s.now then SetPhase(s, t, Done)
      else if Leased(s, c.key) then s
      else SetPhase(s, t, Inside(s.now)).(store := s.store[c.key := Lease(t, s.now + c.ttl)])
    case Finish(t) => SetPhase(s, t, Leaving)
    case Release(t, delivered) => SetPhase(s, t, Done).(store := if delivered then Delete(s, t) else s.store)
  }

  ghost predicate IsRun(ss: seq<System>, es: seq<Event>) {
    && |ss| == |es| + 1
    && ss[0] == System(0, map[], map[])
    && forall i :: 0 <= i < |es| ==> Possible(ss[i], es[i]) && ss[i + 1] == Next(ss[i], es[i])
  }

  predicate InTime(s: System, t: Token) {
    t in s.clients && s.clients[t].phase.Inside? && s.now < s.clients[t].phase.since + s.clients[t].ttl
  }

  /** Whoever is inside and in time holds the unexpired lease that its own SET wrote. */
  ghost predicate Inv(s: System) {
    && (forall t :: t in s.clients && s.clients[t].phase.Inside? ==> s.clients[t].phase.since <= s.now)
    && (forall t :: InTime(s, t) ==> HoldsOwnLease(s, t))
    && StoreOk(s)
  }

  predicate HoldsOwnLease(s: System, t: Token) {
    && Holds(s, t) && s.clients[t].phase.Inside?
    && s.store[s.clients[t].key].expires == s.clients[t].phase.since + s.clients[t].ttl
  }

  /** A lease was written by a caller that had been inside its key. */
  ghost predicate StoreOk(s: System) {
    forall k :: k in s.store ==> s.store[k].token in s.clients && s.clients[s.store[k].token].key == k
                                 && !s.clients[s.store[k].token].phase.Waiting?
  }

  lemma NextStoreOk(s: System, e: Event)
    requires StoreOk(s) && Possible(s, e)
    ensures StoreOk(Next(s, e))
  {}

  lemma NextHolds(s: System, e: Event, t: Token)
    requires Inv(s) && Possible(s, e) && InTime(Next(s, e), t)
    ensures HoldsOwnLease(Next(s, e), t)
  {
    if e.Tick? || (t in s.clients && s.clients[t] == Next(s, e).clients[t]) { assert InTime(s, t); }
  }

  lemma NextKeeps(s: System, e: Event)
    requires Inv(s) && Possible(s, e)
    ensures Inv(Next(s, e))
  {
    NextStoreOk(s, e);
    forall t | InTime(Next(s, e), t) ensures HoldsOwnLease(Next(s, e), t) { NextHolds(s, e, t); }
  }

  lemma {:induction false} InvThroughout(ss: seq<System>, es: seq<Event>, i: nat)
    requires IsRun(ss, es) && i < |ss|
    ensures Inv(ss[i])
  {
    if i > 0 {
      InvThroughout(ss, es, i - 1);
      NextKeeps(ss[i - 1], es[i - 1]);
    }
  }

  /** With no timing assumption at all: of two callers inside one key, at least one has outlived its lease. */
  lemma OverlapMeansOverrun(ss: seq<System>, es: seq<Event>, i: nat, t: Token, u: Token)
    requires IsRun(ss, es) && i < |ss| && t != u
    requires t in ss[i].clients && u in ss[i].clients && ss[i].clients[t].key == ss[i].clients[u].key
    requires ss[i].clients[t].phase.Inside? && ss[i].clients[u].phase.Inside?
    ensures !InTime(ss[i], t) || !InTime(ss[i], u)
  {
    InvThroughout(ss, es, i);
  }

  /** If every critical section ends within its ttl, at most one caller is inside a key at any instant. */
  lemma MutualExclusion(ss: seq<System>, es: seq<Event>, i: nat, t: Token, u: Token)
    requires IsRun(ss, es) && i < |ss|
    requires forall v :: v in ss[i].clients && ss[i].clients[v].phase.Inside? ==> InTime(ss[i], v)
    requires t in ss[i].clients && u in ss[i].clients && ss[i].clients[t].key == ss[i].clients[u].key
    requires ss[i].clients[t].phase.Inside? && ss[i].clients[u].phase.Inside?
    ensures t == u
  {
    if t != u { OverlapMeansOverrun(ss, es, i, t, u); }
  }

  /**
   * An attempt gets in exactly before its deadline and while no unexpired lease is on its key; it
   * then holds a lease of its own, from now for its ttl. Otherwise the store stays as it was.
   */
  lemma AttemptDoes(s: System, t: Token)
    requires Possible(s, TrySet(t))
    ensures var s', c := Next(s, TrySet(t)), s.clients[t];
            var free := c.key !in s.store || s.store[c.key].expires <= s.now;
            && s'.now == s.now
            && s'.store == (if s.now < c.phase.deadline && free then s.store[c.key := Lease(t, s.now + c.ttl)] else s.store)
            && s'.clients == s.clients[t := c.(phase := if s.now >= c.phase.deadline then Done else if free then Inside(s.now) else c.phase)]
  {
    assert s.clients[t := s.clients[t].(phase := s.clients[t].phase)] == s.clients;
  }

  /** A lease taken now keeps its key for exactly its ttl, if it is left alone. */
  lemma LeaseLasts(s: System, t: Token, ms: nat)
    requires Possible(s, TrySet(t)) && Next(s, TrySet(t)).clients[t].phase.Inside?
    ensures Leased(Next(Next(s, TrySet(t)), Tick(ms)), s.clients[t].key) <==> ms < s.clients[t].ttl
  {
  }

  /** However late it comes, a release leaves every other caller's lease where it was. */
  lemma ReleaseSparesOthers(s: System, t: Token, delivered: bool, u: Token)
    requires Possible(s, Release(t, delivered)) && u != t && Holds(s, u)
    ensures Holds(Next(s, Release(t, delivered)), u)
    ensures Next(s, Release(t, delivered)).store[s.clients[u].key] == s.store[s.clients[u].key]
  {
  }

  /** A delivered release in time frees the key. */
  lemma ReleaseInTimeFrees(ss: seq<System>, es: seq<Event>, i: nat, t: Token)
    requires IsRun(ss, es) && i < |ss| && InTime(ss[i], t)
    ensures var s := Next(ss[i], Finish(t));
            Possible(s, Release(t, true)) && !Leased(Next(s, Release(t, true)), ss[i].clients[t].key)
  {
    InvThroughout(ss, es, i);
  }

  /** A section that overruns its ttl really can be joined by another caller. */
  lemma OverrunOverlaps()
    ensures exists ss: seq<System>, es: seq<Event> ::
      && IsRun(ss, es)
      && var s := ss[|es|];
         1 in s.clients && 2 in s.clients && s.clients[1].key == s.clients[2].key
         && s.clients[1].phase.Inside? && s.clients[2].phase.Inside?
  {
    var es := [Call(1, "k", 10, 60), TrySet(1), Tick(10), Call(2, "k", 10, 60), TrySet(2)];
    var s0 := System(0, map[], map[]);
    var s1 := Next(s0, es[0]);
    var s2 := Next(s1, es[1]);
    var s3 := Next(s2, es[2]);
    var s4 := Next(s3, es[3]);
    var s5 := Next(s4, es[4]);
    var ss := [s0, s1, s2, s3, s4, s5];
    assert IsRun(ss, es);
    assert ss[|es|] == s5;
  }

  // ---------------------------------------------------------------------------
  // The polling acquire
  // ---------------------------------------------------------------------------

  /** Milliseconds gone after n attempts; each one costs its round trip and the sleep that follows. */
  function Elapsed(cost: nat -> nat, n: nat): nat {
    if n == 0 then 0 else Elapsed(cost, n - 1) + cost(n - 1)
  }

  /** The first n attempts all failed, each begun before the deadline. */
  ghost predicate Failed(free: nat -> bool, cost: nat -> nat, n: nat, timeout: int) {
    forall i: nat :: i < n ==> !free(i) && Elapsed(cost, i) < timeout
  }

  /**
   * Poll until a SET succeeds or the deadline passes; `free(i)` says whether attempt i would
   * succeed. It stops, at the first success and never after the deadline.
   */
  method Acquire(free: nat -> bool, cost: nat -> nat, acquireTimeoutMs: int) returns (ok: bool, failures: nat)
    requires forall i: nat :: cost(i) > 0
    ensures Failed(free, cost, failures, acquireTimeoutMs)
    ensures ok <==> Elapsed(cost, failures) < acquireTimeoutMs
    ensures ok ==> free(failures)
  {
    var now := 0;
    failures := 0;
    while now < acquireTimeoutMs
      invariant now == Elapsed(cost, failures)
      invariant Failed(free, cost, failures, acquireTimeoutMs)
      decreases acquireTimeoutMs - now
    {
      if free(failures) {
        return true, failures;
      }
      now := now + cost(failures);
      failures := failures + 1;
    }
    return false, failures;
  }
}
