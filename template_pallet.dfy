/** The `template` pallet: the `Something` storage value and the events it
    deposits as the fields of a `Pallet` object, its two dispatchable calls
    as methods that update them in place. It has no offchain worker.
    The class repeats `SignPallet.Pallet` without the worker hook, as the
    two source pallets repeat each other. */
module TemplatePallet {
  import opened Primitives
  import GuardedCounter

  class Pallet {
    /** The `Something` storage value. */
    var something: Option<uint32>
    /** The events this pallet has deposited, oldest first. */
    var events: seq<Event>

    /** The storage and event log as a value of the counter's state machine. */
    function State(): GuardedCounter.CounterState
      reads this
    {
      GuardedCounter.CounterState(something, events)
    }

    /** Genesis: nothing stored, no events. */
    constructor ()
      ensures State() == GuardedCounter.Genesis
    {
      something := None;
      events := [];
    }

    /** `do_something`: a signed caller overwrites `Something` and deposits
        `SomethingStored` naming itself; other origins change nothing. */
    method DoSomething(origin: Origin, something: uint32) returns (r: DispatchResult)
      modifies this
      ensures var step := GuardedCounter.DoSomething(old(State()), origin, something);
              State() == step.state && r == step.result
      ensures origin.Signed? ==>
                r == Ok && this.something == Some(something) &&
                events == old(events) + [SomethingStored(something, origin.who)]
      ensures !origin.Signed? ==> r == Err(BadOrigin) && unchanged(this)
    {
      if !origin.Signed? {
        return Err(BadOrigin);
      }
      var who := origin.who;
      this.something := Some(something);
      events := events + [SomethingStored(something, who)];
      r := Ok;
    }

    /** `cause_error`: a signed caller increments `Something` with checked
        addition; an absent value fails with `NoneValue`, `u32::MAX` with
        `StorageOverflow`, and a failure writes nothing. No event. */
    method CauseError(origin: Origin) returns (r: DispatchResult)
      modifies this
      ensures var step := GuardedCounter.CauseError(old(State()), origin);
              State() == step.state && r == step.result
      ensures events == old(events)
      ensures r.Err? ==> unchanged(this)
      ensures r == Ok <==> origin.Signed? && old(something).Some? && old(something).value < U32_MAX
      ensures r == Ok ==> something == Some(old(something).value + 1)
    {
      if !origin.Signed? {
        return Err(BadOrigin);
      }
      match something
      case None =>
        r := Err(NoneValue);
      case Some(prev) =>
        var next := CheckedAdd(prev, 1);
        if next.None? {
          return Err(StorageOverflow);
        }
        something := Some(next.value);
        r := Ok;
    }

  }
}
