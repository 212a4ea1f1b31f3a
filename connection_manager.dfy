/**
  The TCP server's connection manager. Every accepted connection runs its own
  protocol handler and starts out "budding"; the first connection to deliver
  an output key is promoted to "active", and every budding connection older
  than it is dropped. Keys from the active connection are forwarded, keys
  from connections older than the active one are discarded.

  Dropping a connection's handle aborts its task, so the live connections
  are exactly the active one and the budding ones. The handles themselves,
  the tasks and the listener are not modelled.

  The bookkeeping is specified by step functions on `ManagerState`; the class
  `ConnectionManager` implements the handlers and is proved against them.
*/
module ConnectionManager {
  import opened Bytes
  import opened Wrappers
  import opened Errors
  import opened Osk
  import opened Events

  /** At most this many connections are budding at a time (`MAX_BUDDING_CONNECTIONS`). */
  const MAX_BUDDING_CONNECTIONS: nat := 2000

  datatype ManagerState = ManagerState(
    next: ConnectionId,
    active: Option<ConnectionId>,
    budding: set<ConnectionId>)

  const INITIAL: ManagerState := ManagerState(0, None, {})

  /**
    The bookkeeping invariant: ids below `next` were handed out, budding
    connections are newer than the active one, and there are at most
    `MAX_BUDDING_CONNECTIONS` of them.
  */
  ghost predicate Inv(s: ManagerState)
  {
    && (s.active.Some? ==> s.active.value < s.next)
    && (forall b :: b in s.budding ==> b < s.next)
    && (forall b :: b in s.budding && s.active.Some? ==> s.active.value < b)
    && |s.budding| <= MAX_BUDDING_CONNECTIONS
  }

  lemma InitialInv()
    ensures Inv(INITIAL)
  {
  }

  /** The smallest id of a non-empty set, as `BTreeMap::pop_first` finds it. */
  ghost function MinOf(s: set<ConnectionId>): (m: ConnectionId)
    requires s != {}
    ensures m in s
    ensures forall b :: b in s ==> m <= b
    decreases s
  {
    var x :| x in s;
    if s == {x} then
      assert forall b :: b in s ==> b == x;
      x
    else
      var y := MinOf(s - {x});
      assert forall b :: b in s ==> b == x || b in s - {x};
      if x < y then x else y
  }

  /**
    `on_accept`: the next id goes to the new connection, which starts out
    budding; when the budding set is full its oldest member is pruned first.
  */
  ghost function AcceptStep(s: ManagerState): (r: (ManagerState, ConnectionId))
  {
    var id := s.next;
    var kept := if |s.budding| >= MAX_BUDDING_CONNECTIONS then s.budding - {MinOf(s.budding)} else s.budding;
    (ManagerState(s.next + 1, s.active, kept + {id}), id)
  }

  /**
    An accepted connection gets an id never used before, becomes budding, and
    only the oldest budding connection can be pruned to make room for it.
  */
  lemma AcceptStepSpec(s: ManagerState)
    requires Inv(s)
    ensures var (t, id) := AcceptStep(s);
      && id == s.next
      && id !in s.budding && s.active != Some(id)
      && id in t.budding && t.active == s.active && t.next == s.next + 1
      && (|s.budding| < MAX_BUDDING_CONNECTIONS ==> t.budding == s.budding + {id})
      && (|s.budding| >= MAX_BUDDING_CONNECTIONS ==>
            exists oldest :: oldest in s.budding && (forall b :: b in s.budding ==> oldest <= b)
                        && t.budding == s.budding - {oldest} + {id})
      && Inv(t)
  {
    var (t, id) := AcceptStep(s);
    if |s.budding| >= MAX_BUDDING_CONNECTIONS {
      assert s.budding != {};
      var m := MinOf(s.budding);
      assert |s.budding - {m}| == |s.budding| - 1;
      assert |t.budding| <= |s.budding - {m}| + 1;
    }
  }

  /**
    `on_exit`: the exited connection is no longer active or budding. An exit
    of an unknown connection changes nothing.
  */
  function ExitStep(s: ManagerState, id: ConnectionId): (t: ManagerState)
  {
    if s.active == Some(id) then s.(active := None)
    else if id in s.budding then s.(budding := s.budding - {id})
    else s
  }

  lemma ExitStepSpec(s: ManagerState, id: ConnectionId)
    requires Inv(s)
    ensures var t := ExitStep(s, id);
      && t.active != Some(id) && id !in t.budding
      && t.next == s.next
      && (s.active != Some(id) ==> t.active == s.active)
      && t.budding == s.budding - {id}
      && Inv(t)
  {
    var t := ExitStep(s, id);
    if s.active == Some(id) {
      assert id !in s.budding;
    }
    assert |t.budding| <= |s.budding|;
  }

  /** How an output key's connection compares with the active one; without an active connection every connection counts as newer. */
  datatype Lifecycle = Older | Current | Newer

  function LifecycleOf(s: ManagerState, id: ConnectionId): (l: Lifecycle)
    ensures l == Older <==> s.active.Some? && id < s.active.value
    ensures l == Current <==> s.active == Some(id)
  {
    if s.active.None? || id > s.active.value then Newer
    else if id == s.active.value then Current
    else Older
  }

  /**
    `on_osk`: the new state and whether the key goes to the output handler.
    A key from an older connection is dropped, one from the active connection
    is forwarded, and one from a budding connection promotes that connection
    to active, drops every budding connection older than it, and is forwarded.
    A key from a connection that is neither is ignored.
  */
  function OskStep(s: ManagerState, id: ConnectionId): (r: (ManagerState, bool))
  {
    match LifecycleOf(s, id)
    case Older => (s, false)
    case Current => (s, true)
    case Newer =>
      if id !in s.budding then (s, false)
      else (s.(active := Some(id), budding := set b | b in s.budding && b > id), true)
  }

  /**
    A key is forwarded exactly when it comes from the active connection or
    from a budding one; afterwards its connection is the active one, and no
    budding connection older than it survives.
  */
  lemma OskStepSpec(s: ManagerState, id: ConnectionId)
    requires Inv(s)
    ensures var (t, forward) := OskStep(s, id);
      && (forward <==> s.active == Some(id) || id in s.budding)
      && (forward ==> t.active == Some(id))
      && (!forward ==> t == s)
      && (id in s.budding ==> t.budding == set b | b in s.budding && b > id)
      && (s.active == Some(id) ==> t == s)
      && t.next == s.next
      && t.budding <= s.budding
      && Inv(t)
  {
    var (t, forward) := OskStep(s, id);
    if id in s.budding {
      assert s.active.Some? ==> s.active.value < id;
      assert t.budding <= s.budding;
      SubsetCardinality(t.budding, s.budding);
    }
  }

  lemma SubsetCardinality(a: set<ConnectionId>, b: set<ConnectionId>)
    requires a <= b
    ensures |a| <= |b|
  {
    assert b == a + (b - a);
  }

  /** A key from a connection older than the active one never reaches the output handler. */
  lemma StaleKeysDiscarded(s: ManagerState, id: ConnectionId)
    requires Inv(s)
    requires s.active.Some? && id < s.active.value
    ensures OskStep(s, id) == (s, false)
  {
  }

  /** What the manager's loop wakes up with. */
  datatype Wakeup =
    | Accepted                                    // `listener.accept()` returned a connection
    | AcceptFailed(kind: IoErrorKind)             // `listener.accept()` failed
    | Notified(event: ConnectionHandlerEvent)     // a handler's notification
    | QueueClosed                                 // the notification queue was closed

  /** `on_event` on the bookkeeping: the new state and the key event forwarded, if any. */
  ghost function EventStep(s: ManagerState, e: StreamEvent): (r: (ManagerState, Option<OskEvent>))
  {
    match e
    case Accept => (AcceptStep(s).0, None)
    case Exit(exit) => (ExitStep(s, exit.connectionId), None)
    case Osk(osk) =>
      var (t, forward) := OskStep(s, osk.connectionId);
      (t, if forward then Some(osk) else None)
  }

  /** The stream event a wake-up delivers, or none when the loop fails instead. */
  function EventOf(w: Wakeup): Option<StreamEvent>
  {
    match w
    case Accepted => Some(Accept)
    case AcceptFailed(_) => None
    case Notified(e) => Some(FromHandlerEvent(e))
    case QueueClosed => None
  }

  datatype Trace = Trace(state: ManagerState, forwarded: seq<OskEvent>)

  /** The bookkeeping after a run of stream events, and the key events it forwarded, in order. */
  ghost function Run(s: ManagerState, events: seq<StreamEvent>): Trace
    decreases |events|
  {
    if events == [] then Trace(s, [])
    else
      var prior := Run(s, events[..|events| - 1]);
      var (t, f) := EventStep(prior.state, events[|events| - 1]);
      Trace(t, prior.forwarded + if f.Some? then [f.value] else [])
  }

  /** The invariant holds after every run that starts where it holds. */
  lemma {:induction false} RunInv(s: ManagerState, events: seq<StreamEvent>)
    requires Inv(s)
    ensures Inv(Run(s, events).state)
    decreases |events|
  {
    if events != [] {
      var prior := Run(s, events[..|events| - 1]);
      RunInv(s, events[..|events| - 1]);
      match events[|events| - 1]
      case Accept => AcceptStepSpec(prior.state);
      case Exit(exit) => ExitStepSpec(prior.state, exit.connectionId);
      case Osk(osk) => OskStepSpec(prior.state, osk.connectionId);
    }
  }

  /**
    Everything at or after the connection `x`: `x` was handed out, and the
    active and budding connections are not older than it.
  */
  ghost predicate NotBefore(s: ManagerState, x: ConnectionId)
  {
    && x < s.next
    && (s.active.Some? ==> x <= s.active.value)
    && (forall b :: b in s.budding ==> x < b)
  }

  /** One event keeps `NotBefore`, and a key it forwards is not from a connection older than `x`. */
  lemma EventStepNotBefore(s: ManagerState, e: StreamEvent, x: ConnectionId)
    requires Inv(s) && NotBefore(s, x)
    ensures NotBefore(EventStep(s, e).0, x)
    ensures EventStep(s, e).1.Some? ==> x <= EventStep(s, e).1.value.connectionId
  {
    match e
    case Accept => AcceptStepSpec(s);
    case Exit(exit) => ExitStepSpec(s, exit.connectionId);
    case Osk(osk) => OskStepSpec(s, osk.connectionId);
  }

  /** Once the run has reached `x`, nothing forwarded later comes from a connection older than `x`. */
  lemma {:induction false} RunNotBefore(s: ManagerState, events: seq<StreamEvent>, x: ConnectionId)
    requires Inv(s) && NotBefore(s, x)
    ensures NotBefore(Run(s, events).state, x)
    ensures forall k :: 0 <= k < |Run(s, events).forwarded| ==> x <= Run(s, events).forwarded[k].connectionId
    decreases |events|
  {
    if events != [] {
      var rest := events[..|events| - 1];
      RunNotBefore(s, rest, x);
      RunInv(s, rest);
      EventStepNotBefore(Run(s, rest).state, events[|events| - 1], x);
    }
  }

  /** A forwarded key leaves its connection active, so the state is then `NotBefore` that connection. */
  lemma ForwardedIsNotBefore(s: ManagerState, e: StreamEvent)
    requires Inv(s)
    requires EventStep(s, e).1.Some?
    ensures NotBefore(EventStep(s, e).0, EventStep(s, e).1.value.connectionId)
  {
    OskStepSpec(s, e.osk.connectionId);
  }

  /** The connection ids of a list of key events never decrease. */
  ghost predicate IdsNonDecreasing(f: seq<OskEvent>)
  {
    forall i, j :: 0 <= i < j < |f| ==> f[i].connectionId <= f[j].connectionId
  }

  /** Appending an event not older than the last keeps the ids non-decreasing. */
  lemma IdsNonDecreasingSnoc(f: seq<OskEvent>, e: OskEvent)
    requires IdsNonDecreasing(f)
    requires f != [] ==> f[|f| - 1].connectionId <= e.connectionId
    ensures IdsNonDecreasing(f + [e])
  {
    var g := f + [e];
    forall i, j | 0 <= i < j < |g|
      ensures g[i].connectionId <= g[j].connectionId
    {
      if j == |f| && i < |f| - 1 {
        assert f[i].connectionId <= f[|f| - 1].connectionId;
      }
    }
  }

  /**
    The output handler sees keys from ever newer connections: the connection
    ids of the forwarded keys never decrease over a run.
  */
  lemma {:induction false} ForwardedIdsNonDecreasing(s: ManagerState, events: seq<StreamEvent>)
    requires Inv(s)
    ensures IdsNonDecreasing(Run(s, events).forwarded)
    decreases |events|
  {
    if events != [] {
      var n := |events| - 1;
      var rest := events[..n];
      var prior := Run(s, rest);
      ForwardedIdsNonDecreasing(s, rest);
      RunInv(s, rest);
      var (t, f) := EventStep(prior.state, events[n]);
      if f.Some? {
        if prior.forwarded != [] {
          var m := |prior.forwarded| - 1;
          ForwardedLastNotBefore(s, rest, prior.forwarded[m].connectionId);
          EventStepNotBefore(prior.state, events[n], prior.forwarded[m].connectionId);
        }
        IdsNonDecreasingSnoc(prior.forwarded, f.value);
      } else {
        assert Run(s, events).forwarded == prior.forwarded + [];
      }
    }
  }

  /** After a run that forwarded key events, the state is `NotBefore` the last forwarded connection. */
  lemma {:induction false} ForwardedLastNotBefore(s: ManagerState, events: seq<StreamEvent>, x: ConnectionId)
    requires Inv(s)
    requires Run(s, events).forwarded != []
    requires x == Run(s, events).forwarded[|Run(s, events).forwarded| - 1].connectionId
    ensures NotBefore(Run(s, events).state, x)
    decreases |events|
  {
    var n := |events| - 1;
    var rest := events[..n];
    var prior := Run(s, rest);
    RunInv(s, rest);
    var step := EventStep(prior.state, events[n]);
    assert Run(s, events) == Trace(step.0, prior.forwarded + if step.1.Some? then [step.1.value] else []);
    if step.1.Some? {
      ForwardedIsNotBefore(prior.state, events[n]);
    } else {
      assert prior.forwarded + [] == prior.forwarded;
      ForwardedLastNotBefore(s, rest, x);
      EventStepNotBefore(prior.state, events[n], x);
    }
  }

  /** The output-key calls a list of forwarded key events makes. */
  ghost function CallsOf(forwarded: seq<OskEvent>): (calls: seq<OskCall>)
    ensures |calls| == |forwarded|
    decreases |forwarded|
  {
    if forwarded == [] then []
    else
      var last := forwarded[|forwarded| - 1];
      CallsOf(forwarded[..|forwarded| - 1]) + [OskCall(last.key, last.reason)]
  }

  /** The output-key call a step makes, if it forwards a key event. */
  function ForwardCall(f: Option<OskEvent>): (calls: seq<OskCall>)
    ensures |calls| == if f.Some? then 1 else 0
  {
    if f.Some? then [OskCall(f.value.key, f.value.reason)] else []
  }

  /** How the manager's loop ended. */
  datatype LoopStatus =
    | Running              // every wake-up handled; the loop waits for the next one
    | Stopped(error: Error) // the loop returned this error

  class ConnectionManager {
    const oskHandler: OskHandler
    var nextConnectionId: ConnectionId
    var activeConnection: Option<ConnectionId>
    var buddingConnections: set<ConnectionId>

    function State(): ManagerState
      reads this
    {
      ManagerState(nextConnectionId, activeConnection, buddingConnections)
    }

    ghost predicate Valid()
      reads this
    {
      Inv(State())
    }

    /** `ConnectionManager::new`: no connection yet, ids start at 0. */
    constructor (oskHandler: OskHandler)
      ensures State() == INITIAL && Valid()
      ensures this.oskHandler == oskHandler
    {
      this.oskHandler := oskHandler;
      nextConnectionId := 0;
      activeConnection := None;
      buddingConnections := {};
    }

    method AllocateConnectionId() returns (id: ConnectionId)
      modifies this`nextConnectionId
      ensures id == old(nextConnectionId) && nextConnectionId == id + 1
    {
      id := nextConnectionId;
      nextConnectionId := nextConnectionId + 1;
    }

    method OnAccept() returns (id: ConnectionId)
      requires Valid()
      modifies this
      ensures (State(), id) == AcceptStep(old(State()))
      ensures Valid()
    {
      AcceptStepSpec(State());
      id := AllocateConnectionId();
      if |buddingConnections| >= MAX_BUDDING_CONNECTIONS {
        ghost var oldest := MinOf(buddingConnections);
        var pruned :| pruned in buddingConnections && forall b :: b in buddingConnections ==> pruned <= b;
        assert pruned == oldest;
        buddingConnections := buddingConnections - {pruned};
      }
      buddingConnections := buddingConnections + {id};
    }

    method OnExit(ev: ExitEvent)
      requires Valid()
      modifies this
      ensures State() == ExitStep(old(State()), ev.connectionId)
      ensures Valid()
    {
      ExitStepSpec(State(), ev.connectionId);
      if Some(ev.connectionId) == activeConnection {
        activeConnection := None;
      } else if ev.connectionId in buddingConnections {
        buddingConnections := buddingConnections - {ev.connectionId};
      }
    }

    /** `on_osk` and its three cases. A forwarded key's outcome is the output handler's. */
    method OnOsk(ev: OskEvent) returns (o: Outcome<Error>)
      requires Valid()
      modifies this, oskHandler
      ensures State() == OskStep(old(State()), ev.connectionId).0
      ensures Valid()
      ensures if OskStep(old(State()), ev.connectionId).1 then
                && (o.Pass? <==> old(oskHandler.NextAccepted()))
                && (o.Fail? ==> o.error == OskRejected)
                && oskHandler.calls == (if o.Pass? then old(oskHandler.calls) + [OskCall(ev.key, ev.reason)] else old(oskHandler.calls))
                && oskHandler.outcomes == old(oskHandler.OutcomesAfterNext())
              else
                o == Pass && oskHandler.calls == old(oskHandler.calls) && oskHandler.outcomes == old(oskHandler.outcomes)
    {
      OskStepSpec(State(), ev.connectionId);
      match LifecycleOf(State(), ev.connectionId) {
        case Older =>
          o := Pass;
        case Current =>
          o := oskHandler.SetOsk(ev.key, ev.reason);
        case Newer =>
          if ev.connectionId !in buddingConnections {
            o := Pass;
          } else {
            buddingConnections := buddingConnections - {ev.connectionId};
            buddingConnections := set b | b in buddingConnections && b > ev.connectionId;
            activeConnection := Some(ev.connectionId);
            o := oskHandler.SetOsk(ev.key, ev.reason);
          }
      }
    }

    /** `on_event`: dispatches to the three handlers. */
    method OnEvent(e: StreamEvent) returns (o: Outcome<Error>)
      requires Valid()
      modifies this, oskHandler
      ensures Valid()
      ensures State() == EventStep(old(State()), e).0
      ensures var f := EventStep(old(State()), e).1;
              && (o.Pass? <==> f.None? || old(oskHandler.NextAccepted()))
              && (o.Fail? ==> o.error == OskRejected)
              && oskHandler.calls == (if o.Pass? then old(oskHandler.calls) + ForwardCall(f) else old(oskHandler.calls))
              && oskHandler.outcomes == if f.Some? then old(oskHandler.OutcomesAfterNext()) else old(oskHandler.outcomes)
    {
      match e {
        case Accept =>
          var _ := OnAccept();
          o := Pass;
        case Exit(exit) =>
          OnExit(exit);
          o := Pass;
        case Osk(osk) =>
          o := OnOsk(osk);
      }
    }

    /**
      One turn of `event_loop`: a failed accept or a closed queue ends the
      loop with an error; otherwise the event is handled by `on_event`.
    */
    method OnWakeup(w: Wakeup) returns (o: Outcome<Error>)
      requires Valid()
      modifies this, oskHandler
      ensures Valid()
      ensures EventOf(w).None? ==> State() == old(State()) && oskHandler.calls == old(oskHandler.calls)
      ensures w.AcceptFailed? ==> o == Fail(Io(w.kind))
      ensures w.QueueClosed? ==> o == Fail(ChannelClosed)
      ensures EventOf(w).Some? ==>
                var f := EventStep(old(State()), EventOf(w).value).1;
                && State() == EventStep(old(State()), EventOf(w).value).0
                && (o.Pass? <==> f.None? || old(oskHandler.NextAccepted()))
                && (o.Fail? ==> o.error == OskRejected)
                && (o.Pass? ==> oskHandler.calls == old(oskHandler.calls) + ForwardCall(f))
      ensures o.Fail? ==> oskHandler.calls == old(oskHandler.calls)
    {
      var ev: StreamEvent;
      match w {
        case AcceptFailed(kind) =>
          return Fail(Io(kind));
        case QueueClosed =>
          return Fail(ChannelClosed);
        case Accepted =>
          ev := Accept;
        case Notified(n) =>
          ev := FromHandlerEvent(n);
      }
      o := OnEvent(ev);
    }

    /**
      One wake-up of `event_loop`, taken where the trace `prior` left the
      manager: the trace goes on by the event the wake-up delivers, if any.
    */
    method Take(ghost prior: Trace, ghost calls0: seq<OskCall>, w: Wakeup) returns (o: Outcome<Error>)
      requires Valid()
      requires State() == prior.state
      requires oskHandler.calls == calls0 + CallsOf(prior.forwarded)
      modifies this, oskHandler
      ensures Valid()
      ensures State() == Next(prior, w).state
      ensures o.Pass? ==> oskHandler.calls == calls0 + CallsOf(Next(prior, w).forwarded)
      ensures o.Fail? ==>
                && oskHandler.calls == calls0 + CallsOf(prior.forwarded)
                && (w.AcceptFailed? ==> o.error == Io(w.kind))
                && (w.QueueClosed? ==> o.error == ChannelClosed)
                && (EventOf(w).Some? ==> o.error == OskRejected)
    {
      o := OnWakeup(w);
      if EventOf(w).Some? {
        ghost var f := EventStep(prior.state, EventOf(w).value).1;
        if f.Some? {
          CallsSnoc(prior.forwarded, f.value);
        } else {
          assert prior.forwarded + [] == prior.forwarded;
        }
      }
    }

    /**
      `event_loop` over a finite list of wake-ups. It stops at the first
      failure: a failed accept, a closed notification queue, or an output
      handler that rejects a forwarded key. `handled` counts the wake-ups taken.
    */
    method EventLoop(wakeups: seq<Wakeup>) returns (status: LoopStatus, handled: nat)
      requires Valid()
      modifies this, oskHandler
      ensures Valid()
      ensures handled <= |wakeups|
      ensures status.Running? ==> handled == |wakeups|
      ensures status.Stopped? ==> handled >= 1
      ensures State() == Run(old(State()), EventsOf(wakeups[..handled])).state
      ensures status.Running? ==>
                oskHandler.calls == old(oskHandler.calls) + CallsOf(Run(old(State()), EventsOf(wakeups)).forwarded)
      ensures status.Stopped? ==>
                var last := wakeups[handled - 1];
                && oskHandler.calls == old(oskHandler.calls) + CallsOf(Run(old(State()), EventsOf(wakeups[..handled - 1])).forwarded)
                && (last.AcceptFailed? ==> status.error == Io(last.kind))
                && (last.QueueClosed? ==> status.error == ChannelClosed)
                && (EventOf(last).Some? ==> status.error == OskRejected)
    {
      ghost var s0 := State();
      ghost var calls0 := oskHandler.calls;
      handled := 0;
      status := Running;
      while handled < |wakeups|
        invariant handled <= |wakeups|
        invariant Valid()
        invariant State() == Run(s0, EventsOf(wakeups[..handled])).state
        invariant oskHandler.calls == calls0 + CallsOf(Run(s0, EventsOf(wakeups[..handled])).forwarded)
      {
        EventsSnoc(wakeups, handled);
        RunNext(s0, EventsOf(wakeups[..handled]), wakeups[handled]);
        var o := Take(Run(s0, EventsOf(wakeups[..handled])), calls0, wakeups[handled]);
        handled := handled + 1;
        if o.Fail? {
          status := Stopped(o.error);
          return;
        }
      }
      assert wakeups[..handled] == wakeups;
    }
  }

  /** The stream event a wake-up delivers, as a list of none or one. */
  function Delivered(w: Wakeup): (d: seq<StreamEvent>)
  {
    if EventOf(w).Some? then [EventOf(w).value] else []
  }

  /** The trace after one more wake-up: unchanged unless the wake-up delivers an event. */
  ghost function Next(prior: Trace, w: Wakeup): Trace
  {
    match EventOf(w)
    case None => prior
    case Some(e) =>
      var (t, f) := EventStep(prior.state, e);
      Trace(t, prior.forwarded + if f.Some? then [f.value] else [])
  }

  /** The stream events of a list of wake-ups that all deliver one. */
  ghost function EventsOf(wakeups: seq<Wakeup>): (events: seq<StreamEvent>)
    decreases |wakeups|
  {
    if wakeups == [] then []
    else
      var w := wakeups[|wakeups| - 1];
      EventsOf(wakeups[..|wakeups| - 1]) + Delivered(w)
  }

  lemma EventsSnoc(wakeups: seq<Wakeup>, n: nat)
    requires n < |wakeups|
    ensures EventsOf(wakeups[..n + 1]) == EventsOf(wakeups[..n]) + Delivered(wakeups[n])
  {
    assert wakeups[..n + 1][..n] == wakeups[..n];
  }

  lemma RunSnoc(s: ManagerState, events: seq<StreamEvent>, e: StreamEvent)
    ensures Run(s, events + [e]).state == EventStep(Run(s, events).state, e).0
    ensures var f := EventStep(Run(s, events).state, e).1;
      Run(s, events + [e]).forwarded == Run(s, events).forwarded + if f.Some? then [f.value] else []
  {
    assert (events + [e])[..|events|] == events;
  }

  lemma RunNext(s: ManagerState, events: seq<StreamEvent>, w: Wakeup)
    ensures Run(s, events + Delivered(w)) == Next(Run(s, events), w)
  {
    if EventOf(w).None? {
      assert events + Delivered(w) == events;
    } else {
      RunSnoc(s, events, EventOf(w).value);
    }
  }

  lemma CallsSnoc(forwarded: seq<OskEvent>, e: OskEvent)
    ensures CallsOf(forwarded + [e]) == CallsOf(forwarded) + [OskCall(e.key, e.reason)]
  {
    assert (forwarded + [e])[..|forwarded|] == forwarded;
  }
}
