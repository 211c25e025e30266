/** The single-process lock: a held set and one waiting queue per key. */
module InProcessLock {
  import opened Common

  type Ticket = nat

  /** `waiters` keeps a key's queue once it exists, even when it has drained. */
  datatype Queue = Queue(held: set<string>, waiters: map<string, seq<Ticket>>)
  {
    function Line(key: string): seq<Ticket> { if key in waiters then waiters[key] else [] }
  }

  /** Take the key, or join its queue; answers the ticket that now owns the key, if one was granted. */
  function Arrive(q: Queue, key: string, t: Ticket): (Queue, Option<Ticket>) {
    if key !in q.held then (q.(held := q.held + {key}), Some(t))
    else (q.(waiters := q.waiters[key := q.Line(key) + [t]]), None)
  }

  /** Hand the key to the longest waiter, or free it. */
  function Leave(q: Queue, key: string): (Queue, Option<Ticket>) {
    if q.Line(key) != [] then (q.(waiters := q.waiters[key := q.Line(key)[1..]]), Some(q.Line(key)[0]))
    else (q.(held := q.held - {key}), None)
  }

  class InProcessQueue {
    var held: set<string>
    var waiters: map<string, seq<Ticket>>

    constructor ()
      ensures View() == Queue({}, map[])
    {
      held, waiters := {}, map[];
    }

    function View(): Queue
      reads this
    {
      Queue(held, waiters)
    }

    method Acquire(key: string, t: Ticket) returns (granted: Option<Ticket>)
      modifies this
      ensures (View(), granted) == Arrive(old(View()), key, t)
    {
      if key !in held {
        held := held + {key};
        return Some(t);
      }
      var q := if key in waiters then waiters[key] else [];
      q := q + [t];
      waiters := waiters[key := q];
      return None;
    }

    method Release(key: string) returns (granted: Option<Ticket>)
      modifies this
      ensures (View(), granted) == Leave(old(View()), key)
    {
      if key in waiters && waiters[key] != [] {
        granted := Some(waiters[key][0]);
        waiters := waiters[key := waiters[key][1..]];
      } else {
        granted := None;
        held := held - {key};
      }
    }
  }

  // ---------------------------------------------------------------------------
  // Runs
  // ---------------------------------------------------------------------------

  datatype Event = Arrives(key: string, ticket: Ticket) | Leaves(key: string)

  function Apply(q: Queue, e: Event): (Queue, Option<Ticket>) {
    match e
    case Arrives(key, t) => Arrive(q, key, t)
    case Leaves(key) => Leave(q, key)
  }

  function After(es: seq<Event>): Queue {
    if es == [] then Queue({}, map[]) else Apply(After(es[..|es| - 1]), es[|es| - 1]).0
  }

  /** Tickets that asked for a key, in order of arrival. */
  function Arrivals(es: seq<Event>, key: string): seq<Ticket> {
    if es == [] then []
    else
      var e := es[|es| - 1];
      Arrivals(es[..|es| - 1], key) + if e.Arrives? && e.key == key then [e.ticket] else []
  }

  /** Tickets that were given a key, in order of grant. */
  function Grants(es: seq<Event>, key: string): seq<Ticket> {
    if es == [] then []
    else
      var e := es[|es| - 1];
      var granted := Apply(After(es[..|es| - 1]), e).1;
      Grants(es[..|es| - 1], key) + if e.key == key && granted.Some? then [granted.value] else []
  }

  function Departures(es: seq<Event>, key: string): nat {
    if es == [] then 0
    else
      var e := es[|es| - 1];
      Departures(es[..|es| - 1], key) + if e.Leaves? && e.key == key then 1 else 0
  }

  /** Every release is by an owner: so many have been granted the key that one is still inside. */
  ghost predicate Paired(es: seq<Event>) {
    es == [] ||
    var e := es[|es| - 1];
    Paired(es[..|es| - 1]) && (e.Leaves? ==> Departures(es[..|es| - 1], e.key) < |Grants(es[..|es| - 1], e.key)|)
  }

  /**
   * For every sequence of acquires and paired releases, key by key: grants are the arrivals in
   * arrival order; at most one owner is inside, and one is exactly while the key is held; whoever
   * has not been granted is in the queue, in order, and the queue is empty unless the key is held.
   */
  lemma {:induction false} FirstComeFirstServed(es: seq<Event>, key: string)
    requires Paired(es)
    ensures Arrivals(es, key) == Grants(es, key) + After(es).Line(key)
    ensures |Grants(es, key)| == Departures(es, key) + if key in After(es).held then 1 else 0
    ensures After(es).Line(key) != [] ==> key in After(es).held
  {
    if es != [] {
      FirstComeFirstServed(es[..|es| - 1], key);
    }
  }

  /** No wake-up is lost: a release with anyone waiting makes the longest waiter the next owner. */
  lemma ReleaseWakesTheLongestWaiter(es: seq<Event>, key: string)
    requires Paired(es) && Departures(es, key) < |Grants(es, key)| < |Arrivals(es, key)|
    ensures Grants(es + [Leaves(key)], key) == Arrivals(es, key)[..|Grants(es, key)| + 1]
  {
    var es' := es + [Leaves(key)];
    assert es'[..|es|] == es;
    FirstComeFirstServed(es, key);
    FirstComeFirstServed(es', key);
  }

  /** The k-th to arrive is granted the key exactly when k owners before it have left: there is no other way out of the line. */
  lemma GrantedExactly(es: seq<Event>, key: string, k: nat)
    requires Paired(es) && k < |Arrivals(es, key)|
    ensures k < |Grants(es, key)| <==> k <= Departures(es, key)
    ensures k < |Grants(es, key)| ==> Grants(es, key)[k] == Arrivals(es, key)[k]
  {
    FirstComeFirstServed(es, key);
  }

  /** Behind an owner that never leaves, the second caller waits for ever, whatever else happens. */
  lemma WaitsForever(key: string, first: Ticket, second: Ticket, more: seq<Event>)
    requires forall i :: 0 <= i < |more| ==> !(more[i].Leaves? && more[i].key == key)
    requires Paired([Arrives(key, first), Arrives(key, second)] + more)
    ensures Grants([Arrives(key, first), Arrives(key, second)] + more, key) == [first]
  {
    var es := [Arrives(key, first), Arrives(key, second)];
    TwoArrive(key, first, second);
    ArrivalsGrow(es, more, key);
    NobodyLeaves(es, more, key);
    GrantedExactly(es + more, key, 0);
    GrantedExactly(es + more, key, 1);
  }

  lemma TwoArrive(key: string, first: Ticket, second: Ticket)
    ensures Arrivals([Arrives(key, first), Arrives(key, second)], key) == [first, second]
    ensures Departures([Arrives(key, first), Arrives(key, second)], key) == 0
  {
    var es := [Arrives(key, first), Arrives(key, second)];
    assert es[..1] == [Arrives(key, first)];
    assert es[..1][..0] == [];
    assert Arrivals(es[..1], key) == [first] && Departures(es[..1], key) == 0;
  }

  lemma {:induction false} NobodyLeaves(es: seq<Event>, more: seq<Event>, key: string)
    requires forall i :: 0 <= i < |more| ==> !(more[i].Leaves? && more[i].key == key)
    ensures Departures(es + more, key) == Departures(es, key)
    decreases |more|
  {
    if more == [] {
      assert es + more == es;
    } else {
      var n := |more| - 1;
      NobodyLeaves(es, more[..n], key);
      assert (es + more)[..|es + more| - 1] == es + more[..n];
    }
  }

  lemma {:induction false} ArrivalsGrow(es: seq<Event>, more: seq<Event>, key: string)
    ensures Arrivals(es, key) <= Arrivals(es + more, key)
    decreases |more|
  {
    if more == [] {
      assert es + more == es;
    } else {
      var n := |more| - 1;
      ArrivalsGrow(es, more[..n], key);
      assert (es + more)[..|es + more| - 1] == es + more[..n];
    }
  }
}
