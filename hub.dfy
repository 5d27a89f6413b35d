/**
 * The hub: the single event loop that owns the set of live connections and
 * fans register, unregister and inbound events out to the registered
 * handlers, in registration order. The channels feeding it become a sequence
 * of events; handler calls are recorded in a trace. Kicks and queue closes are
 * recorded as multisets, because shutdown visits the connections in map order.
 */
module WssHub {
  import opened Base

  /** A registered subscriber (a non-nil Handler). */
  type HandlerId = string

  datatype Event =
    | Register(client: ConnId)
    | Unregister(client: ConnId)
    | Inbound(client: ConnId, message: string)
    | Shutdown // the root context is cancelled

  datatype Kind = Connect | Disconnect | Message(message: string)

  datatype Call =
    | OnConnect(handler: HandlerId, client: ConnId)
    | OnDisconnect(handler: HandlerId, client: ConnId)
    | OnMessage(handler: HandlerId, client: ConnId, message: string)

  function CallOf(k: Kind, h: HandlerId, c: ConnId): Call
  {
    match k
    case Connect => OnConnect(h, c)
    case Disconnect => OnDisconnect(h, c)
    case Message(m) => OnMessage(h, c, m)
  }

  /** One call per handler, in the order the handlers were registered. */
  function Notify(handlers: seq<HandlerId>, k: Kind, c: ConnId): (calls: seq<Call>)
    ensures |calls| == |handlers|
  {
    if handlers == [] then [] else [CallOf(k, handlers[0], c)] + Notify(handlers[1..], k, c)
  }

  /** The i-th call goes to the i-th registered handler. */
  lemma {:induction false} NotifyCallsEachHandler(handlers: seq<HandlerId>, k: Kind, c: ConnId, i: int)
    requires 0 <= i < |handlers|
    ensures Notify(handlers, k, c)[i] == CallOf(k, handlers[i], c)
    decreases |handlers|
  {
    if i > 0 {
      NotifyCallsEachHandler(handlers[1..], k, c, i - 1);
    }
  }

  datatype HubState = HubState(
    clients: set<ConnId>,
    handlers: seq<HandlerId>,
    trace: seq<Call>,
    kicked: multiset<ConnId>,  // connections kicked with "Server is shutting down."
    closed: multiset<ConnId>,  // send queues closed
    running: bool)

  /** One case of the run loop's select. */
  function Step(s: HubState, e: Event): HubState
  {
    match e
    case Register(c) =>
      s.(clients := s.clients + {c}, trace := s.trace + Notify(s.handlers, Connect, c))
    case Unregister(c) =>
      if c in s.clients then
        s.(clients := s.clients - {c}, closed := s.closed + multiset{c},
           trace := s.trace + Notify(s.handlers, Disconnect, c))
      else s
    case Inbound(c, m) =>
      s.(trace := s.trace + Notify(s.handlers, Message(m), c))
    case Shutdown =>
      s.(clients := {}, kicked := s.kicked + multiset(s.clients),
         closed := s.closed + multiset(s.clients), running := false)
  }

  /** The run loop over a sequence of events: nothing is processed after shutdown. */
  function Run(s: HubState, events: seq<Event>): HubState
    decreases |events|
  {
    if events == [] || !s.running then s else Run(Step(s, events[0]), events[1..])
  }

  /** A new hub with the given handlers registered. */
  function Started(handlers: seq<HandlerId>): HubState
  {
    HubState({}, handlers, [], multiset{}, multiset{}, true)
  }

  /** How often x occurs in s. */
  function Count<T(==)>(s: seq<T>, x: T): (n: nat)
    ensures n <= |s|
  {
    if s == [] then 0 else Count(s[..|s| - 1], x) + (if s[|s| - 1] == x then 1 else 0)
  }

  lemma {:induction false} CountConcat<T>(a: seq<T>, b: seq<T>, x: T)
    ensures Count(a + b, x) == Count(a, x) + Count(b, x)
    decreases |b|
  {
    if b == [] {
      assert a + b == a;
    } else {
      assert (a + b)[..|a + b| - 1] == a + b[..|b| - 1];
      CountConcat(a, b[..|b| - 1], x);
    }
  }

  lemma {:induction false} NotifyAppend(handlers: seq<HandlerId>, h: HandlerId, k: Kind, c: ConnId)
    ensures Notify(handlers + [h], k, c) == Notify(handlers, k, c) + [CallOf(k, h, c)]
    decreases |handlers|
  {
    if handlers != [] {
      assert (handlers + [h])[1..] == handlers[1..] + [h];
      NotifyAppend(handlers[1..], h, k, c);
    }
  }

  /** A notification round holds one call per registration of the handler, and nothing else. */
  lemma {:induction false} NotifyCounts(handlers: seq<HandlerId>, k: Kind, c: ConnId, x: Call)
    ensures Count(Notify(handlers, k, c), x) ==
      (if x == CallOf(k, x.handler, c) then Count(handlers, x.handler) else 0)
    decreases |handlers|
  {
    if handlers != [] {
      var init, last := handlers[..|handlers| - 1], handlers[|handlers| - 1];
      NotifyCounts(init, k, c, x);
      assert handlers == init + [last];
      NotifyAppend(init, last, k, c);
      assert Count([CallOf(k, last, c)], x) == (if CallOf(k, last, c) == x then 1 else 0);
      CountConcat(Notify(init, k, c), [CallOf(k, last, c)], x);
    }
  }

  /** OnDisconnect calls are balanced by OnConnect calls, per handler and client. */
  ghost predicate Balanced(s: HubState)
  {
    forall h, c ::
      Count(s.trace, OnDisconnect(h, c)) + (if c in s.clients then Count(s.handlers, h) else 0)
      <= Count(s.trace, OnConnect(h, c))
  }

  /** Appending one round of notifications of kind k for client d. */
  lemma NotifyTrace(s: HubState, k: Kind, d: ConnId, h: HandlerId, c: ConnId)
    ensures var t := s.trace + Notify(s.handlers, k, d);
      Count(t, OnConnect(h, c)) == Count(s.trace, OnConnect(h, c))
        + (if k == Connect && c == d then Count(s.handlers, h) else 0)
      && Count(t, OnDisconnect(h, c)) == Count(s.trace, OnDisconnect(h, c))
        + (if k == Disconnect && c == d then Count(s.handlers, h) else 0)
  {
    NotifyCounts(s.handlers, k, d, OnConnect(h, c));
    NotifyCounts(s.handlers, k, d, OnDisconnect(h, c));
    CountConcat(s.trace, Notify(s.handlers, k, d), OnConnect(h, c));
    CountConcat(s.trace, Notify(s.handlers, k, d), OnDisconnect(h, c));
  }

  lemma RegisterBalanced(s: HubState, d: ConnId)
    requires Balanced(s)
    ensures Balanced(Step(s, Register(d)))
  {
    var t := Step(s, Register(d));
    forall h, c
      ensures Count(t.trace, OnDisconnect(h, c)) + (if c in t.clients then Count(t.handlers, h) else 0)
              <= Count(t.trace, OnConnect(h, c))
    {
      NotifyTrace(s, Connect, d, h, c);
    }
  }

  lemma UnregisterBalanced(s: HubState, d: ConnId)
    requires Balanced(s)
    ensures Balanced(Step(s, Unregister(d)))
  {
    var t := Step(s, Unregister(d));
    if d in s.clients {
      forall h, c
        ensures Count(t.trace, OnDisconnect(h, c)) + (if c in t.clients then Count(t.handlers, h) else 0)
                <= Count(t.trace, OnConnect(h, c))
      {
        NotifyTrace(s, Disconnect, d, h, c);
      }
    }
  }

  lemma InboundBalanced(s: HubState, d: ConnId, m: string)
    requires Balanced(s)
    ensures Balanced(Step(s, Inbound(d, m)))
  {
    var t := Step(s, Inbound(d, m));
    forall h, c
      ensures Count(t.trace, OnDisconnect(h, c)) + (if c in t.clients then Count(t.handlers, h) else 0)
              <= Count(t.trace, OnConnect(h, c))
    {
      NotifyTrace(s, Message(m), d, h, c);
    }
  }

  lemma StepBalanced(s: HubState, e: Event)
    requires Balanced(s)
    ensures Balanced(Step(s, e))
  {
    match e
    case Register(d) => RegisterBalanced(s, d);
    case Unregister(d) => UnregisterBalanced(s, d);
    case Inbound(d, m) => InboundBalanced(s, d, m);
    case Shutdown =>
  }

  lemma {:induction false} RunBalanced(s: HubState, events: seq<Event>)
    requires Balanced(s)
    ensures Balanced(Run(s, events))
    decreases |events|
  {
    if events != [] && s.running {
      StepBalanced(s, events[0]);
      RunBalanced(Step(s, events[0]), events[1..]);
    }
  }

  /**
   * Whatever the events, no handler ever sees more OnDisconnect than
   * OnConnect calls for a client: OnDisconnect fires at most once per
   * registration, since unregistering an unknown client does nothing.
   */
  lemma DisconnectsNeverExceedConnects(handlers: seq<HandlerId>, events: seq<Event>, h: HandlerId, c: ConnId)
    ensures Count(Run(Started(handlers), events).trace, OnDisconnect(h, c))
         <= Count(Run(Started(handlers), events).trace, OnConnect(h, c))
  {
    RunBalanced(Started(handlers), events);
  }

  function Registrations(events: seq<Event>, c: ConnId): nat
  {
    if events == [] then 0
    else (if events[0] == Register(c) then 1 else 0) + Registrations(events[1..], c)
  }

  /**
   * A send queue is closed at most once per registration of its connection:
   * a connection registered once is never closed twice (which would panic).
   */
  lemma {:induction false} ClosedAtMostOncePerRegistration(s: HubState, events: seq<Event>, c: ConnId)
    ensures var t := Run(s, events);
      t.closed[c] + (if c in t.clients then 1 else 0)
      <= s.closed[c] + (if c in s.clients then 1 else 0) + Registrations(events, c)
    decreases |events|
  {
    if events != [] && s.running {
      ClosedAtMostOncePerRegistration(Step(s, events[0]), events[1..], c);
    }
  }

  /**
   * Only register, unregister and shutdown change the client set: a run of
   * inbound events leaves it alone, whether or not their senders are members.
   */
  lemma {:induction false} InboundKeepsClients(s: HubState, events: seq<Event>)
    requires forall i | 0 <= i < |events| :: events[i].Inbound?
    ensures Run(s, events).clients == s.clients
    ensures Run(s, events).closed == s.closed && Run(s, events).kicked == s.kicked
    decreases |events|
  {
    if events != [] && s.running {
      InboundKeepsClients(Step(s, events[0]), events[1..]);
    }
  }

  /** Shutdown kicks and closes every live client, empties the set and ends the loop. */
  lemma ShutdownIsFinal(s: HubState, rest: seq<Event>)
    requires s.running
    ensures var t := Run(s, [Shutdown] + rest);
      t.clients == {} && !t.running && t.trace == s.trace
      && t.kicked == s.kicked + multiset(s.clients) && t.closed == s.closed + multiset(s.clients)
  {
    assert ([Shutdown] + rest)[1..] == rest;
  }

  class Hub {
    var clients: set<ConnId>
    var handlers: seq<HandlerId>
    var trace: seq<Call>
    var kicked: multiset<ConnId>
    var closed: multiset<ConnId>
    var running: bool

    function State(): HubState
      reads this
    {
      HubState(clients, handlers, trace, kicked, closed, running)
    }

    /** newHub. */
    constructor ()
      ensures State() == Started([])
    {
      clients, handlers, trace := {}, [], [];
      kicked, closed, running := multiset{}, multiset{}, true;
    }

    /** registerHandler: a nil handler is ignored; others are appended. */
    method RegisterHandler(handler: Option<HandlerId>)
      modifies this`handlers
      ensures handlers == old(handlers) + (if handler.Some? then [handler.value] else [])
    {
      if handler.Some? {
        handlers := handlers + [handler.value];
      }
    }

    /** The loop over the handlers that every event case runs. */
    method NotifyAll(k: Kind, c: ConnId)
      modifies this`trace
      ensures trace == old(trace) + Notify(handlers, k, c)
    {
      var i := 0;
      while i < |handlers|
        invariant 0 <= i <= |handlers|
        invariant trace == old(trace) + Notify(handlers[..i], k, c)
      {
        assert handlers[..i + 1] == handlers[..i] + [handlers[i]];
        NotifyAppend(handlers[..i], handlers[i], k, c);
        trace := trace + [CallOf(k, handlers[i], c)];
        i := i + 1;
      }
      assert handlers[..i] == handlers;
    }

    /** One pass of the select in run. */
    method Dispatch(e: Event)
      requires running
      modifies this
      ensures State() == Step(old(State()), e)
    {
      match e
      case Register(c) =>
        clients := clients + {c};
        NotifyAll(Connect, c);
      case Unregister(c) =>
        if c in clients {
          clients := clients - {c};
          closed := closed + multiset{c};
          NotifyAll(Disconnect, c);
        }
      case Inbound(c, m) =>
        NotifyAll(Message(m), c);
      case Shutdown =>
        ShutdownAll();
    }

    /** The shutdown case: kick, drop and close every live client, then stop. */
    method ShutdownAll()
      requires running
      modifies this`clients, this`kicked, this`closed, this`running
      ensures State() == Step(old(State()), Shutdown)
    {
      var live, kicks, closes := clients, kicked, closed;
      ghost var done := {};
      while live != {}
        invariant unchanged(this)
        invariant done !! live && done + live == clients
        invariant kicks == kicked + multiset(done) && closes == closed + multiset(done)
        decreases |live|
      {
        var c :| c in live;
        MoveOne(done, live, c);
        kicks := kicks + multiset{c};
        live := live - {c};
        closes := closes + multiset{c};
        done := done + {c};
      }
      clients, kicked, closed, running := live, kicks, closes, false;
    }

    /** run: processes the events in order until shutdown. */
    method RunLoop(events: seq<Event>)
      modifies this
      ensures State() == Run(old(State()), events)
    {
      var i := 0;
      while i < |events| && running
        invariant 0 <= i <= |events|
        invariant Run(old(State()), events) == Run(State(), events[i..])
      {
        assert events[i..][1..] == events[i + 1..];
        Dispatch(events[i]);
        i := i + 1;
      }
    }
  }
}
