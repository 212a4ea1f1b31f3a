/**
  `OskDeadman`: an output-key handler that erases the key when no fresh key
  arrives in time. The front end only queues requests; the worker erases the
  key when it starts, forwards every queued request to the real handler (the
  "broker"), erases the key whenever `erase_after` passes without a request,
  and erases it once more and stops when the queue is closed.

  The worker's thread, runtime and channel are not modelled. Its loop runs
  over the sequence of what each wait yields: a request, the closed channel,
  or the timeout. A timeout stands for `erase_after` having passed since the
  previous event was handled (the deadline is reset after every event).
*/
module Deadman {
  import opened Bytes
  import opened Wrappers
  import opened Errors
  import opened Osk

  /** `DeadmanRequest::SetOsk`. */
  datatype DeadmanRequest = SetOskRequest(key: Key, reason: SetOskReason)

  /**
    What `timeout_at(next_erase, requests.recv())` yields: a request, the
    closed channel, or the timeout. The two events that erase the key carry
    the random key the erase draws.
  */
  datatype WorkerEvent =
    | Received(request: DeadmanRequest)
    | Closed(random: Key)
    | TimedOut(random: Key)

  /** No event of `events` is the close. */
  predicate Open(events: seq<WorkerEvent>)
  {
    forall k :: 0 <= k < |events| ==> !events[k].Closed?
  }

  /** The broker call one event causes: forward the request, or erase with the event's random key. */
  function CallFor(e: WorkerEvent): (c: OskCall)
    ensures e.Received? ==> c == OskCall(e.request.key, e.request.reason)
    ensures !e.Received? ==> c == OskCall(e.random, Stale)
  {
    match e
    case Received(SetOskRequest(k, r)) => OskCall(k, r)
    case Closed(random) => OskCall(random, Stale)
    case TimedOut(random) => OskCall(random, Stale)
  }

  /** The broker calls after the initial erase: one per event, up to and including the close. */
  function Planned(events: seq<WorkerEvent>): seq<OskCall>
    decreases |events|
  {
    if events == [] then []
    else if events[0].Closed? then [CallFor(events[0])]
    else [CallFor(events[0])] + Planned(events[1..])
  }

  /** Every broker call of the worker, starting with the erase at start-up that uses `start`. */
  function Schedule(start: Key, events: seq<WorkerEvent>): seq<OskCall>
  {
    [OskCall(start, Stale)] + Planned(events)
  }

  /** Event number `i` causes call number `i` of the plan, and the plan has one call per event up to the close. */
  lemma {:induction false} PlannedPointwise(events: seq<WorkerEvent>)
    ensures |Planned(events)| <= |events|
    ensures Open(events) ==> |Planned(events)| == |events|
    ensures forall i :: 0 <= i < |Planned(events)| ==> Planned(events)[i] == CallFor(events[i])
    decreases |events|
  {
    if events != [] && !events[0].Closed? {
      var rest := events[1..];
      PlannedPointwise(rest);
      assert Planned(events) == [CallFor(events[0])] + Planned(rest);
      forall i | 1 <= i < |Planned(events)|
        ensures Planned(events)[i] == CallFor(events[i])
      {
        assert Planned(events)[i] == Planned(rest)[i - 1];
        assert rest[i - 1] == events[i];
      }
      if Open(events) {
        forall k | 0 <= k < |rest|
          ensures !rest[k].Closed?
        {
          assert rest[k] == events[k + 1];
        }
      }
    }
  }

  /** Every event before the first close has its call in the plan. */
  lemma {:induction false} PlannedCoversOpenPrefix(events: seq<WorkerEvent>, i: nat)
    requires i < |events| && Open(events[..i])
    ensures i < |Planned(events)| && Planned(events)[i] == CallFor(events[i])
    decreases i
  {
    if i > 0 {
      assert events[..i][0] == events[0];
      assert events[1..][..i - 1] == events[..i][1..];
      PlannedCoversOpenPrefix(events[1..], i - 1);
    }
  }

  /** Nothing after the first close reaches the broker, and the close itself erases. */
  lemma {:induction false} PlannedStopsAtClose(before: seq<WorkerEvent>, random: Key, after: seq<WorkerEvent>)
    requires Open(before)
    ensures Planned(before + [Closed(random)] + after) == Planned(before) + [OskCall(random, Stale)]
    decreases |before|
  {
    var events := before + [Closed(random)] + after;
    if before != [] {
      assert events[0] == before[0];
      assert events[1..] == before[1..] + [Closed(random)] + after;
      assert Open(before[1..]) by {
        forall k | 0 <= k < |before[1..]|
          ensures !before[1..][k].Closed?
        {
          assert before[1..][k] == before[k + 1];
        }
      }
      PlannedStopsAtClose(before[1..], random, after);
    } else {
      assert events[0] == Closed(random);
    }
  }

  /** A close after `i` open events ends the plan with its own erase. */
  lemma PlannedLengthAtClose(events: seq<WorkerEvent>, i: nat)
    requires i < |events| && events[i].Closed? && Open(events[..i])
    ensures |Planned(events)| == i + 1 && !Open(events)
  {
    assert events == events[..i] + [Closed(events[i].random)] + events[i + 1..];
    PlannedStopsAtClose(events[..i], events[i].random, events[i + 1..]);
    PlannedPointwise(events[..i]);
  }

  /** Without a close the plan has one call per event. */
  lemma OpenPlannedLength(events: seq<WorkerEvent>, i: nat)
    requires i == |events| && Open(events[..i])
    ensures |Planned(events)| == i && Open(events)
  {
    assert events[..i] == events;
    PlannedPointwise(events);
  }

  /** When the queue is closed, the worker's last broker call is an erase. */
  lemma {:induction false} ClosedEndsWithErase(events: seq<WorkerEvent>)
    requires !Open(events)
    ensures Planned(events) != [] && Planned(events)[|Planned(events)| - 1].reason == Stale
    decreases |events|
  {
    if !events[0].Closed? {
      assert !Open(events[1..]) by {
        var k :| 0 <= k < |events| && events[k].Closed?;
        assert events[1..][k - 1] == events[k];
      }
      ClosedEndsWithErase(events[1..]);
    }
  }

  /**
    The worker never makes up a fresh key: every call of its schedule that
    sets a key as fresh forwards a received fresh request for that key.
  */
  lemma {:induction false} FreshCallsAreForwarded(events: seq<WorkerEvent>, c: OskCall)
    requires c in Planned(events) && c.reason == Fresh
    ensures Received(SetOskRequest(c.key, Fresh)) in events
    decreases |events|
  {
    if events[0].Closed? || c == CallFor(events[0]) {
      assert events[0] == Received(SetOskRequest(c.key, Fresh));
    } else {
      FreshCallsAreForwarded(events[1..], c);
      assert forall e :: e in events[1..] ==> e in events;
    }
  }

  /** Whether call number `j` is accepted by a handler that started with the script `outcomes`. */
  predicate Accepts(outcomes: seq<bool>, j: nat)
  {
    j >= |outcomes| || outcomes[j]
  }

  /** The first `n` calls are all accepted. */
  predicate AllAccepted(outcomes: seq<bool>, n: nat)
  {
    n == 0 || (AllAccepted(outcomes, n - 1) && Accepts(outcomes, n - 1))
  }

  /** The script left after `n` calls. */
  function Drop(outcomes: seq<bool>, n: nat): (rest: seq<bool>)
    ensures |rest| == if n >= |outcomes| then 0 else |outcomes| - n
  {
    if n >= |outcomes| then [] else outcomes[n..]
  }

  /** After `n` calls the handler accepts the next one exactly when the original script accepts call `n`. */
  lemma DropStep(outcomes: seq<bool>, n: nat)
    ensures (Drop(outcomes, n) == [] || Drop(outcomes, n)[0]) <==> Accepts(outcomes, n)
    ensures (if Drop(outcomes, n) == [] then [] else Drop(outcomes, n)[1..]) == Drop(outcomes, n + 1)
  {
  }

  /** What handling event `i` (the call numbered `i + 1`) does to the schedule. */
  lemma StepFacts(start: Key, events: seq<WorkerEvent>, i: nat)
    requires i < |events| && Open(events[..i])
    ensures i + 1 < |Schedule(start, events)|
    ensures Schedule(start, events)[..i + 2] == Schedule(start, events)[..i + 1] + [CallFor(events[i])]
    ensures events[i].Closed? ==> |Schedule(start, events)| == i + 2 && !Open(events)
    ensures !events[i].Closed? ==> Open(events[..i + 1])
  {
    PlannedCoversOpenPrefix(events, i);
    if events[i].Closed? {
      PlannedLengthAtClose(events, i);
    } else {
      assert events[..i + 1] == events[..i] + [events[i]];
    }
  }

  datatype LoopStatus =
    | Finished            // the queue was closed: `Ok(())` after the final erase
    | Waiting             // every event handled, the worker waits for the next one
    | Failed(error: Error) // a broker call failed: the loop ends with its error

  /**
    The state of one front end: the queue it sends into, and whether the
    worker still receives. `workerRunning` is an input: it stands for the
    receiving end of the channel still being alive. In the source the send
    fails only after the worker thread has panicked, which no member of this
    model does.
  */
  class OskDeadman {
    var queue: seq<DeadmanRequest>
    var workerRunning: bool

    constructor ()
      ensures queue == [] && workerRunning
    {
      queue := [];
      workerRunning := true;
    }

    /** `set_osk` on the front end: only queues the request. Sending fails once the worker is gone. */
    method SetOsk(key: Key, reason: SetOskReason) returns (o: Outcome<Error>)
      modifies this`queue
      ensures o.Pass? <==> workerRunning
      ensures o.Fail? ==> o.error == Errors.ChannelClosed
      ensures queue == if o.Pass? then old(queue) + [SetOskRequest(key, reason)] else old(queue)
    {
      if workerRunning {
        queue := queue + [SetOskRequest(key, reason)];
        o := Pass;
      } else {
        o := Fail(Errors.ChannelClosed);
      }
    }
  }

  class DeadmanWorker {
    const broker: OskHandler

    /**
      `DeadmanWorker::start` keeps the broker. Its `erase_after` duration only
      bounds each wait on the queue; here every expired wait is a `TimedOut`
      event, so the duration is not kept.
    */
    constructor (broker: OskHandler)
      ensures this.broker == broker
    {
      this.broker := broker;
    }

    /**
      `event_loop`, erasing first with the random key `start`. `attempted`
      counts the broker calls made; all but a failing last one were accepted,
      and the broker has recorded exactly the accepted calls of the schedule,
      in order.
    */
    method EventLoop(start: Key, events: seq<WorkerEvent>) returns (status: LoopStatus, attempted: nat)
      modifies broker
      ensures 1 <= attempted <= |Schedule(start, events)|
      ensures AllAccepted(old(broker.outcomes), attempted - 1)
      ensures status.Failed? <==> !Accepts(old(broker.outcomes), attempted - 1)
      ensures status.Failed? ==> status.error == OskRejected
      ensures !status.Failed? ==> attempted == |Schedule(start, events)|
      ensures status.Finished? <==> !status.Failed? && !Open(events)
      ensures var accepted := if status.Failed? then attempted - 1 else attempted;
              broker.calls == old(broker.calls) + Schedule(start, events)[..accepted]
      ensures broker.outcomes == Drop(old(broker.outcomes), attempted)
    {
      DropStep(broker.outcomes, 0);
      var o := broker.EraseStaleOsk(start);
      if o.Fail? {
        status, attempted := Failed(o.error), 1;
        return;
      }
      status, attempted := Serve(start, events, old(broker.outcomes), old(broker.calls));
    }

    /** One event of `event_loop`: forward the request, or erase with the event's random key. */
    method Handle(e: WorkerEvent) returns (o: Outcome<Error>)
      modifies broker
      ensures o.Pass? <==> old(broker.NextAccepted())
      ensures o.Fail? ==> o.error == OskRejected
      ensures broker.calls == if o.Pass? then old(broker.calls) + [CallFor(e)] else old(broker.calls)
      ensures broker.outcomes == old(broker.OutcomesAfterNext())
    {
      match e {
        case Received(SetOskRequest(k, r)) =>
          o := broker.SetOsk(k, r);
        case TimedOut(random) =>
          o := broker.EraseStaleOsk(random);
        case Closed(random) =>
          o := broker.EraseStaleOsk(random);
      }
    }

    /** The loop of `event_loop` after the erase at start-up was accepted. */
    method Serve(start: Key, events: seq<WorkerEvent>, ghost script: seq<bool>, ghost before: seq<OskCall>)
      returns (status: LoopStatus, attempted: nat)
      requires AllAccepted(script, 1)
      requires broker.calls == before + [OskCall(start, Stale)]
      requires broker.outcomes == Drop(script, 1)
      modifies broker
      ensures 1 <= attempted <= |Schedule(start, events)|
      ensures AllAccepted(script, attempted - 1)
      ensures status.Failed? <==> !Accepts(script, attempted - 1)
      ensures status.Failed? ==> status.error == OskRejected
      ensures !status.Failed? ==> attempted == |Schedule(start, events)|
      ensures status.Finished? <==> !status.Failed? && !Open(events)
      ensures var accepted := if status.Failed? then attempted - 1 else attempted;
              broker.calls == before + Schedule(start, events)[..accepted]
      ensures broker.outcomes == Drop(script, attempted)
    {
      attempted := 1;
      var i := 0;
      while i < |events|
        invariant 0 <= i <= |events|
        invariant Open(events[..i])
        invariant attempted == i + 1 <= |Schedule(start, events)|
        invariant AllAccepted(script, attempted)
        invariant broker.calls == before + Schedule(start, events)[..attempted]
        invariant broker.outcomes == Drop(script, attempted)
      {
        StepFacts(start, events, i);
        DropStep(script, i + 1);
        var o := Handle(events[i]);
        attempted := attempted + 1;
        if o.Fail? {
          status := Failed(o.error);
          return;
        }
        if events[i].Closed? {
          status := Finished;
          return;
        }
        i := i + 1;
      }
      OpenPlannedLength(events, i);
      status := Waiting;
    }
  }
}
