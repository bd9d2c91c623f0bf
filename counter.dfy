/** The guarded counter both pallets implement, as a pure state machine: the
    `Something` storage value, the event log, and the two dispatchable calls
    `do_something` and `cause_error`. The pallet classes are proved against
    the functions here. */
module GuardedCounter {
  import opened Primitives

  /** The state the two calls read and write: the optional `Something`
      storage value and the events deposited so far. */
  datatype CounterState = CounterState(something: Option<uint32>, events: seq<Event>)

  /** The state at genesis: nothing stored, no events. */
  const Genesis: CounterState := CounterState(None, [])

  /** The pallet's dispatchable calls. */
  datatype Call = DoSomethingCall(something: uint32) | CauseErrorCall

  /** A call together with the origin it is dispatched from. */
  datatype Extrinsic = Extrinsic(origin: Origin, call: Call)

  /** The state after a call and the result the call returned. */
  datatype Step = Step(state: CounterState, result: DispatchResult)

  /** `do_something`: a signed origin overwrites the stored value, whatever
      it was, and deposits one `SomethingStored` event naming the caller;
      any other origin fails with `BadOrigin` and changes nothing. */
  function DoSomething(s: CounterState, origin: Origin, something: uint32): (r: Step)
    ensures r.result.Ok? <==> origin.Signed?
    ensures r.result.Err? ==> r.result.error == BadOrigin && r.state == s
    ensures r.result.Ok? ==> r.state.something == Some(something)
    ensures |r.state.events| == |s.events| + (if r.result.Ok? then 1 else 0)
    ensures r.state.events[..|s.events|] == s.events
    ensures r.result.Ok? ==> r.state.events[|s.events|] == SomethingStored(something, origin.who)
  {
    if !origin.Signed? then
      Step(s, Err(BadOrigin))
    else
      Step(CounterState(Some(something), s.events + [SomethingStored(something, origin.who)]), Ok)
  }

  /** `cause_error`: a signed origin increments a stored value by one with
      checked addition; it fails with `NoneValue` when nothing is stored and
      with `StorageOverflow` when the value is already `u32::MAX`. Every
      failure leaves the state as it was, and no path deposits an event. */
  function CauseError(s: CounterState, origin: Origin): (r: Step)
    ensures r.state.events == s.events
    ensures r.result.Err? ==> r.state == s
    ensures !origin.Signed? ==> r.result == Err(BadOrigin)
    ensures origin.Signed? && s.something.None? ==> r.result == Err(NoneValue)
    ensures origin.Signed? && s.something == Some(U32_MAX) ==> r.result == Err(StorageOverflow)
    ensures origin.Signed? && s.something.Some? && s.something.value < U32_MAX ==>
              r.result == Ok && r.state.something == Some(s.something.value + 1)
  {
    if !origin.Signed? then
      Step(s, Err(BadOrigin))
    else
      match s.something
      case None => Step(s, Err(NoneValue))
      case Some(prev) =>
        match CheckedAdd(prev, 1)
        case None => Step(s, Err(StorageOverflow))
        case Some(next) => Step(s.(something := Some(next)), Ok)
  }

  /** Routes an extrinsic to the call it names. */
  function Dispatch(s: CounterState, x: Extrinsic): Step
  {
    match x.call
    case DoSomethingCall(v) => DoSomething(s, x.origin, v)
    case CauseErrorCall => CauseError(s, x.origin)
  }

  /** The state after dispatching a sequence of extrinsics in order. */
  function Run(s: CounterState, xs: seq<Extrinsic>): CounterState
    decreases |xs|
  {
    if xs == [] then s else Run(Dispatch(s, xs[0]).state, xs[1..])
  }

  /** True of a signed `do_something`, the only extrinsic that stores a
      value regardless of the prior state. */
  predicate IsSignedStore(x: Extrinsic)
  {
    x.origin.Signed? && x.call.DoSomethingCall?
  }

  /** The events a sequence of extrinsics is expected to deposit: one
      `SomethingStored` per signed `do_something`, in order. */
  function StoredEvents(xs: seq<Extrinsic>): seq<Event>
    decreases |xs|
  {
    if xs == [] then []
    else
      (if IsSignedStore(xs[0]) then [SomethingStored(xs[0].call.something, xs[0].origin.who)] else [])
      + StoredEvents(xs[1..])
  }

  /** Storing `v` and then incrementing it yields `v + 1` when `v` is below
      `u32::MAX`, and `StorageOverflow` with `u32::MAX` still stored when it
      is not; only the store deposits an event. */
  lemma StoreThenCauseError(s: CounterState, who: AccountId, v: uint32)
    ensures var s1 := DoSomething(s, Signed(who), v).state;
            var r := CauseError(s1, Signed(who));
            r.state.events == s.events + [SomethingStored(v, who)] &&
            (v < U32_MAX ==> r.result == Ok && r.state.something == Some(v + 1)) &&
            (v == U32_MAX ==> r.result == Err(StorageOverflow) && r.state.something == Some(U32_MAX))
  {
  }

  /** The event log after any sequence of dispatches is the old log followed
      by exactly one `SomethingStored` per signed `do_something`: failed
      calls and `cause_error` never deposit events. */
  lemma {:induction false} RunEvents(s: CounterState, xs: seq<Extrinsic>)
    ensures Run(s, xs).events == s.events + StoredEvents(xs)
    decreases |xs|
  {
    if xs != [] {
      var s1 := Dispatch(s, xs[0]).state;
      RunEvents(s1, xs[1..]);
      assert s1.events == s.events + StoredEvents(xs[..1]) by {
        assert StoredEvents(xs[..1]) ==
          (if IsSignedStore(xs[0]) then [SomethingStored(xs[0].call.something, xs[0].origin.who)] else []);
      }
      assert StoredEvents(xs) ==
        (if IsSignedStore(xs[0]) then [SomethingStored(xs[0].call.something, xs[0].origin.who)] else [])
        + StoredEvents(xs[1..]);
    }
  }

  /** After any sequence of dispatches the storage value is absent exactly
      when it was absent before and no extrinsic was a signed
      `do_something`: `cause_error` never initialises the value and nothing
      removes it. */
  lemma {:induction false} RunAbsent(s: CounterState, xs: seq<Extrinsic>)
    ensures Run(s, xs).something.None? <==>
            s.something.None? && forall i :: 0 <= i < |xs| ==> !IsSignedStore(xs[i])
    decreases |xs|
  {
    if xs != [] {
      var s1 := Dispatch(s, xs[0]).state;
      RunAbsent(s1, xs[1..]);
      assert forall i :: 1 <= i < |xs| ==> xs[i] == xs[1..][i - 1];
    }
  }

  /** `k` signed `cause_error` calls from a stored `v` leave
      `min(v + k, u32::MAX)` stored: the value climbs by one per call and
      sticks at `u32::MAX`, where every further call overflows without
      writing. */
  lemma {:induction false} CauseErrorSaturates(s: CounterState, who: AccountId, v: uint32, k: nat)
    requires s.something == Some(v)
    ensures Run(s, seq(k, _ => Extrinsic(Signed(who), CauseErrorCall))).something ==
            Some(if v + k <= U32_MAX then v + k else U32_MAX)
    ensures Run(s, seq(k, _ => Extrinsic(Signed(who), CauseErrorCall))).events == s.events
    decreases k
  {
    var xs := seq(k, _ => Extrinsic(Signed(who), CauseErrorCall));
    if k > 0 {
      var s1 := CauseError(s, Signed(who)).state;
      var v1: uint32 := if v < U32_MAX then v + 1 else U32_MAX;
      assert s1.something == Some(v1);
      CauseErrorSaturates(s1, who, v1, k - 1);
      assert xs[1..] == seq(k - 1, _ => Extrinsic(Signed(who), CauseErrorCall));
    }
  }
}
