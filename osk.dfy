/**
  Output-key ("OSK") handlers: whatever receives the keys Daisyway derives.
  `OskHandler` stands for any implementation of the Rust trait: it records
  the `set_osk` calls it accepts, and `outcomes` scripts which of the next
  calls fail (a failed write, a closed channel). The two default methods of
  the trait are written, as in the source, as one call to `SetOsk`.
*/
module Osk {
  import opened Bytes
  import opened Wrappers
  import opened Errors

  /** Why a key is set: a freshly negotiated key, or a random key that erases the old one. */
  datatype SetOskReason = Fresh | Stale

  /** Position in the derived `Ord` (declaration order). */
  function ReasonRank(r: SetOskReason): nat
  {
    match r
    case Fresh => 0
    case Stale => 1
  }

  predicate ReasonLess(a: SetOskReason, b: SetOskReason)
  {
    ReasonRank(a) < ReasonRank(b)
  }

  /** The derived order puts `Fresh` before `Stale` and relates no other pair. */
  lemma ReasonOrder(a: SetOskReason, b: SetOskReason)
    ensures ReasonLess(a, b) <==> a == Fresh && b == Stale
    ensures a != b ==> ReasonLess(a, b) || ReasonLess(b, a)
  {
  }

  /** One `set_osk(key, reason)` call. */
  datatype OskCall = OskCall(key: Key, reason: SetOskReason)

  /** Whether the next call is accepted: once the script is used up every call is. */
  predicate Accepted(outcomes: seq<bool>)
  {
    outcomes == [] || outcomes[0]
  }

  function AfterOutcome(outcomes: seq<bool>): seq<bool>
  {
    if outcomes == [] then [] else outcomes[1..]
  }

  /** The handler calls that set `keys` as fresh keys, in order. */
  function FreshCalls(keys: seq<Key>): (calls: seq<OskCall>)
    ensures |calls| == |keys|
    ensures forall i :: 0 <= i < |keys| ==> calls[i] == OskCall(keys[i], Fresh)
  {
    seq(|keys|, i requires 0 <= i < |keys| => OskCall(keys[i], Fresh))
  }

  /** Handing one more key to a handler that already holds `earlier` calls. */
  lemma FreshCallsSnoc(earlier: seq<OskCall>, keys: seq<Key>, k: Key)
    ensures earlier + FreshCalls(keys) + [OskCall(k, Fresh)] == earlier + FreshCalls(keys + [k])
  {
    assert FreshCalls(keys + [k]) == FreshCalls(keys) + [OskCall(k, Fresh)];
  }

  class OskHandler {
    var calls: seq<OskCall>
    var outcomes: seq<bool>

    constructor (outcomes: seq<bool>)
      ensures calls == [] && this.outcomes == outcomes
    {
      calls := [];
      this.outcomes := outcomes;
    }

    function NextAccepted(): bool
      reads this
    {
      Accepted(outcomes)
    }

    function OutcomesAfterNext(): seq<bool>
      reads this
    {
      AfterOutcome(outcomes)
    }

    /** `set_osk`: the only method an implementation must provide. */
    method SetOsk(key: Key, reason: SetOskReason) returns (o: Outcome<Error>)
      modifies this
      ensures o.Pass? <==> old(NextAccepted())
      ensures o.Fail? ==> o.error == OskRejected
      ensures calls == if o.Pass? then old(calls) + [OskCall(key, reason)] else old(calls)
      ensures outcomes == old(OutcomesAfterNext())
    {
      var accepted := NextAccepted();
      outcomes := OutcomesAfterNext();
      if accepted {
        calls := calls + [OskCall(key, reason)];
        o := Pass;
      } else {
        o := Fail(OskRejected);
      }
    }

    /** `set_fresh_osk(key)`: `set_osk(key, Fresh)`. */
    method SetFreshOsk(key: Key) returns (o: Outcome<Error>)
      modifies this
      ensures o.Pass? <==> old(NextAccepted())
      ensures o.Fail? ==> o.error == OskRejected
      ensures calls == if o.Pass? then old(calls) + [OskCall(key, Fresh)] else old(calls)
      ensures outcomes == old(OutcomesAfterNext())
    {
      o := SetOsk(key, Fresh);
    }

    /**
      `erase_stale_osk()`: `set_osk(random, Stale)`, where `random` is the key
      drawn from the random generator, not chosen by the caller.
    */
    method EraseStaleOsk(random: Key) returns (o: Outcome<Error>)
      modifies this
      ensures o.Pass? <==> old(NextAccepted())
      ensures o.Fail? ==> o.error == OskRejected
      ensures calls == if o.Pass? then old(calls) + [OskCall(random, Stale)] else old(calls)
      ensures outcomes == old(OutcomesAfterNext())
    {
      o := SetOsk(random, Stale);
    }
  }
}
