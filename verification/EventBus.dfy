/**
 The in-process event bus (api/services/event_bus.py): one bounded queue per subscription,
 and for each company the set of queues that are subscribed.
 */
module EventBus {
  import opened Runs

  const CAPACITY := 64

  datatype Event = Event(kind: string, data: string)

  /** Subscribed queues by company, and what every queue holds; queues may be objects or names. */
  datatype Bus<!Q(==)> = Bus(subscribers: map<string, set<Q>>, held: map<Q, seq<Event>>)

  datatype Step<Q> =
      Enter(company: string, queue: Q)
    | Exit(company: string, queue: Q)
    | Publish(company: string, event: Event)
    | Receive(queue: Q)

  function Subscribed<Q(==)>(b: Bus<Q>, company: string): set<Q> {
    if company in b.subscribers then b.subscribers[company] else {}
  }

  function Held<Q(==)>(b: Bus<Q>, q: Q): seq<Event> {
    if q in b.held then b.held[q] else []
  }

  function Entered<Q(==)>(b: Bus<Q>, company: string, q: Q): Bus<Q> {
    Bus(b.subscribers[company := Subscribed(b, company) + {q}], b.held[q := Held(b, q)])
  }

  /** Leaving: a company whose last queue leaves is forgotten. */
  function Exited<Q(==)>(b: Bus<Q>, company: string, q: Q): Bus<Q> {
    if Subscribed(b, company) == {} then b
    else if Subscribed(b, company) - {q} == {} then b.(subscribers := b.subscribers - {company})
    else b.(subscribers := b.subscribers[company := Subscribed(b, company) - {q}])
  }

  /** The queues a publication reaches: those with room. */
  function Reached<Q(==)>(b: Bus<Q>, company: string): set<Q> {
    set q | q in Subscribed(b, company) && |Held(b, q)| < CAPACITY
  }

  function Published<Q(==)>(b: Bus<Q>, company: string, e: Event): Bus<Q> {
    b.(held := map q | q in b.held :: if q in Reached(b, company) then b.held[q] + [e] else b.held[q])
  }

  function Taken<Q(==)>(b: Bus<Q>, q: Q): Bus<Q> {
    if Held(b, q) == [] then b else b.(held := b.held[q := Held(b, q)[1..]])
  }

  function Next<Q(==)>(b: Bus<Q>, step: Step<Q>): Bus<Q> {
    match step
    case Enter(c, q) => Entered(b, c, q)
    case Exit(c, q) => Exited(b, c, q)
    case Publish(c, e) => Published(b, c, e)
    case Receive(q) => Taken(b, q)
  }

  function After<Q(==)>(run: Run<Step<Q>>): Bus<Q> {
    match run
    case Start => Bus(map[], map[])
    case Then(before, step) => Next(After(before), step)
  }

  // ---------------------------------------------------------------- one queue's history

  /** An event published while the queue was subscribed, and whether the queue had room. */
  datatype Offer = Offer(event: Event, hadRoom: bool)

  function Offers<Q(==)>(run: Run<Step<Q>>, q: Q): seq<Offer> {
    match run
    case Start => []
    case Then(before, step) =>
      Offers(before, q) +
      if step.Publish? && q in Subscribed(After(before), step.company)
      then [Offer(step.event, |Held(After(before), q)| < 64)] else []
  }

  /** What the reader of a queue took from it. */
  function Received<Q(==)>(run: Run<Step<Q>>, q: Q): seq<Event> {
    match run
    case Start => []
    case Then(before, step) =>
      Received(before, q) +
      if step == Receive(q) && Held(After(before), q) != [] then [Held(After(before), q)[0]] else []
  }

  /** The events that found room, in order. */
  function Accepted(offers: seq<Offer>): seq<Event> {
    if offers == [] then [] else
      Accepted(offers[..|offers| - 1]) + if offers[|offers| - 1].hadRoom then [offers[|offers| - 1].event] else []
  }

  ghost predicate WellFormed<Q>(b: Bus<Q>) {
    forall c :: c in b.subscribers ==> b.subscribers[c] != {} && b.subscribers[c] <= b.held.Keys
  }

  lemma NextWellFormed<Q>(b: Bus<Q>, step: Step<Q>)
    requires WellFormed(b)
    ensures WellFormed(Next(b, step))
  {
  }

  /** No company is ever mapped to an empty set, and every subscribed queue is there. */
  lemma {:induction false} NoEmptySets<Q>(run: Run<Step<Q>>)
    ensures WellFormed(After(run))
  {
    if run.Then? {
      hide WellFormed, Next;
      NoEmptySets(run.before);
      NextWellFormed(After(run.before), run.last);
    }
  }

  lemma AcceptedStep(offers: seq<Offer>, o: Offer)
    ensures Accepted(offers + [o]) == Accepted(offers) + if o.hadRoom then [o.event] else []
  {
    assert (offers + [o])[..|offers|] == offers;
  }

  lemma HeldAfterPublish<Q>(b: Bus<Q>, company: string, e: Event, q: Q)
    requires WellFormed(b)
    ensures Held(Published(b, company, e), q)
         == Held(b, q) + if q in Subscribed(b, company) && |Held(b, q)| < CAPACITY then [e] else []
  {
  }

  lemma HeldOtherwise<Q>(b: Bus<Q>, step: Step<Q>, q: Q)
    requires !step.Publish?
    ensures Held(Next(b, step), q) == if step == Receive(q) && Held(b, q) != [] then Held(b, q)[1..] else Held(b, q)
  {
  }

  predicate Accounted<Q(==)>(run: Run<Step<Q>>, q: Q) {
    Received(run, q) + Held(After(run), q) == Accepted(Offers(run, q)) && |Held(After(run), q)| <= CAPACITY
  }

  lemma AccountedAfterPublish<Q>(run: Run<Step<Q>>, q: Q)
    requires run.Then? && run.last.Publish? && Accounted(run.before, q)
    ensures Accounted(run, q)
  {
    hide Next, Held, Accepted, WellFormed, Subscribed;
    var b, company, e := After(run.before), run.last.company, run.last.event;
    NoEmptySets(run.before);
    AfterPublish(run);
    HeldAfterPublish(b, company, e, q);
    AcceptedStep(Offers(run.before, q), Offer(e, |Held(b, q)| < CAPACITY));
    assert Received(run, q) == Received(run.before, q);
    if q in Subscribed(b, company) {
      assert Offers(run, q) == Offers(run.before, q) + [Offer(e, |Held(b, q)| < CAPACITY)];
    } else {
      assert Offers(run, q) == Offers(run.before, q);
    }
  }

  lemma AccountedOtherwise<Q>(run: Run<Step<Q>>, q: Q)
    requires run.Then? && !run.last.Publish? && Accounted(run.before, q)
    ensures Accounted(run, q)
  {
    hide Next, Held, Accepted, Subscribed;
    var held := Held(After(run.before), q);
    HeldOtherwise(After(run.before), run.last, q);
    assert Offers(run, q) == Offers(run.before, q);
    if run.last == Receive(q) && held != [] {
      assert [held[0]] + held[1..] == held;
      assert Received(run, q) + held[1..] == Received(run.before, q) + held;
    } else {
      assert Received(run, q) == Received(run.before, q);
    }
  }

  /**
   In every run, what a queue's reader has received plus what the queue still holds is, in
   order, what was published to the queue while it was subscribed, missing exactly the
   events published when it already held 64.
   */
  lemma {:induction false} ReceivedAndHeld<Q>(run: Run<Step<Q>>, q: Q)
    ensures Received(run, q) + Held(After(run), q) == Accepted(Offers(run, q))
    ensures |Held(After(run), q)| <= 64
  {
    if run.Then? {
      ReceivedAndHeld(run.before, q);
      if run.last.Publish? {
        AccountedAfterPublish(run, q);
      } else {
        AccountedOtherwise(run, q);
      }
    }
  }

  lemma AfterPublish<Q>(run: Run<Step<Q>>)
    requires run.Then? && run.last.Publish?
    ensures After(run) == Published(After(run.before), run.last.company, run.last.event)
  {
  }

  /** Where in the offers each accepted event was. */
  function Positions(offers: seq<Offer>): (positions: seq<nat>)
    ensures |positions| == |Accepted(offers)|
    ensures forall i :: 0 <= i < |positions| ==> positions[i] < |offers|
  {
    if offers == [] then [] else
      Positions(offers[..|offers| - 1]) + if offers[|offers| - 1].hadRoom then [|offers| - 1] else []
  }

  /** The accepted events are a subsequence of the offers: their positions rise. */
  lemma {:induction false} AcceptedInOrder(offers: seq<Offer>, i: nat, j: nat)
    requires i < |Accepted(offers)| && j < |Accepted(offers)|
    ensures offers[Positions(offers)[i]] == Offer(Accepted(offers)[i], true)
    ensures i < j ==> Positions(offers)[i] < Positions(offers)[j]
  {
    var before := offers[..|offers| - 1];
    var n := |Accepted(before)|;
    if i < n {
      AcceptedInOrder(before, i, if j < n then j else i);
    }
  }

  /** Only the offers that found no room are missing. */
  lemma {:induction false} OnlyFullMissing(offers: seq<Offer>, p: nat) returns (i: nat)
    requires p < |offers| && offers[p].hadRoom
    ensures i < |Accepted(offers)| && Positions(offers)[i] == p
  {
    var last := |offers| - 1;
    if p == last {
      i := |Accepted(offers[..last])|;
    } else {
      i := OnlyFullMissing(offers[..last], p);
    }
  }

  // ---------------------------------------------------------------- companies

  predicate EntersOwnCompany<Q(==)>(run: Run<Step<Q>>, owner: Q -> string) {
    run.Then? ==> EntersOwnCompany(run.before, owner)
                  && (run.last.Enter? ==> run.last.company == owner(run.last.queue))
  }

  /** A subscription that enters for its own company is never reached by another company's events. */
  lemma {:induction false} OnlyOwnCompany<Q>(run: Run<Step<Q>>, owner: Q -> string, company: string, q: Q)
    requires EntersOwnCompany(run, owner) && q in Subscribed(After(run), company)
    ensures company == owner(q)
  {
    if run.Then? {
      if q in Subscribed(After(run.before), company) {
        OnlyOwnCompany(run.before, owner, company, q);
      } else {
        assert run.last == Enter(company, q);
      }
    }
  }

  /** Leaving undoes entering. */
  lemma ExitUndoesEnter<Q>(b: Bus<Q>, company: string, q: Q)
    requires WellFormed(b) && q !in Subscribed(b, company)
    ensures Exited(Entered(b, company, q), company, q).subscribers == b.subscribers
    ensures Held(Exited(Entered(b, company, q), company, q), q) == Held(b, q)
  {
    var entered := Entered(b, company, q);
    assert Subscribed(entered, company) == Subscribed(b, company) + {q};
    assert q in Subscribed(entered, company);
    assert Subscribed(entered, company) - {q} == Subscribed(b, company);
  }

  // ---------------------------------------------------------------- the bus

  class Queue {
    var items: seq<Event>

    constructor ()
      ensures items == []
    {
      items := [];
    }

    /** Refused when the queue is full. */
    method PutNowait(e: Event) returns (ok: bool)
      modifies this
      ensures ok == (|old(items)| < CAPACITY)
      ensures items == if ok then old(items) + [e] else old(items)
    {
      ok := |items| < CAPACITY;
      if ok {
        items := items + [e];
      }
    }
  }

  /** One attempt per queue, in any order; counts the queues that took the event. */
  method OfferToAll(subs: set<Queue>, e: Event) returns (delivered: nat, ghost took: set<Queue>)
    modifies subs
    ensures forall q :: q in subs ==>
              q.items == if |old(q.items)| < CAPACITY then old(q.items) + [e] else old(q.items)
    ensures delivered == |took| && forall q :: q in took <==> q in subs && |old(q.items)| < CAPACITY
  {
    delivered := 0;
    took := {};
    var todo := subs;
    while todo != {}
      invariant todo <= subs
      invariant forall q :: q in subs && q !in todo ==>
                  q.items == if |old(q.items)| < CAPACITY then old(q.items) + [e] else old(q.items)
      invariant forall q :: q in todo ==> q.items == old(q.items)
      invariant forall q :: q in took <==> q in subs && q !in todo && |old(q.items)| < CAPACITY
      invariant delivered == |took|
      decreases todo
    {
      var q :| q in todo;
      var ok := q.PutNowait(e);
      if ok {
        delivered := delivered + 1;
        took := took + {q};
      }
      todo := todo - {q};
    }
  }

  class SubscriberTable {
    var subscribers: map<string, set<Queue>>

    /** Every queue made so far. */
    ghost var queues: set<Queue>

    ghost predicate Valid()
      reads this
    {
      forall c :: c in subscribers ==> subscribers[c] != {} && subscribers[c] <= queues
    }

    ghost function State(): Bus<Queue>
      reads this, queues
    {
      Bus(subscribers, map q | q in queues :: q.items)
    }

    constructor ()
      ensures Valid() && State() == Bus(map[], map[])
    {
      subscribers, queues := map[], {};
    }

    /** A new queue, not subscribed yet. */
    method NewQueue() returns (q: Queue)
      requires Valid()
      modifies this`queues
      ensures Valid() && fresh(q) && queues == old(queues) + {q}
      ensures q.items == []
    {
      q := new Queue();
      queues := queues + {q};
    }

    method EnterSubscription(company: string, q: Queue)
      requires Valid() && q in queues
      modifies this
      ensures Valid() && State() == Entered(old(State()), company, q) && queues == old(queues)
    {
      var subs := if company in subscribers then subscribers[company] else {};
      subscribers := subscribers[company := subs + {q}];
    }

    method ExitSubscription(company: string, q: Queue)
      requires Valid() && q in queues
      modifies this
      ensures Valid() && State() == Exited(old(State()), company, q) && queues == old(queues)
    {
      if company in subscribers {
        var subs := subscribers[company] - {q};
        if subs == {} {
          subscribers := subscribers - {company};
        } else {
          subscribers := subscribers[company := subs];
        }
      }
    }

    /** Offers the event to every subscribed queue and returns how many took it. */
    method PublishEvent(company: string, e: Event) returns (delivered: nat)
      requires Valid()
      modifies if company in subscribers then subscribers[company] else {}
      ensures Valid() && State() == Published(old(State()), company, e) && queues == old(queues)
      ensures delivered == |Reached(old(State()), company)|
    {
      ghost var before := State();
      if company !in subscribers {
        assert Reached(before, company) == {};
        assert State() == Published(before, company, e);
        return 0;
      }
      ghost var took;
      delivered, took := OfferToAll(subscribers[company], e);
      assert took == Reached(before, company);
      assert State() == Published(before, company, e);
    }

    /** What the stream of a subscription takes next, when there is something. */
    method Get(q: Queue) returns (e: Event)
      requires Valid() && q in queues && q.items != []
      modifies q
      ensures Valid() && State() == Taken(old(State()), q) && e == Held(old(State()), q)[0]
    {
      ghost var before := State();
      e := q.items[0];
      q.items := q.items[1..];
      assert Held(before, q) == old(q.items);
      assert State() == Taken(before, q);
    }
  }
}
