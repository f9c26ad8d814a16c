/** The RPC client `MyRpc`: request issuance, the background completer's loop
    body, its idempotent start, and how a pair of requests combines its results.
    Every operation is taken to run atomically and in sequence; the reply
    channels are stood in for by `delivered`, which maps a channel to the one
    value sent on it.
 */
module Rpc {
  import opened Registry

  /** The Rust `Result<T, String>` that the client's requests return. */
  datatype Result<T> = Ok(value: T) | Err(error: string)

  /** What a receive on a reply channel yields: a value, or the error that the
      sending side was dropped without sending. */
  datatype Recv = Received(value: U16) | Disconnected

  const RECEIVE_FAILED: string := "Failed to receive response"

  /** `request()`'s `map_err`: a received value becomes the response, a
      disconnected channel the fixed error message. */
  function MapRecvError(recv: Recv): (r: Result<U16>)
    ensures r.Ok? <==> recv.Received?
    ensures r.Ok? ==> r.value == recv.value
    ensures r.Err? ==> r.error == RECEIVE_FAILED
  {
    match recv
    case Received(v) => Ok(v)
    case Disconnected => Err(RECEIVE_FAILED)
  }

  /** `Ok((result1?, result2?))`: both responses, in the order the requests were
      made, or the first error. */
  function CombineTwo(result1: Result<U16>, result2: Result<U16>): (r: Result<(U16, U16)>)
    ensures r.Ok? <==> result1.Ok? && result2.Ok?
    ensures r.Ok? ==> r.value.0 == result1.value && r.value.1 == result2.value
    ensures result1.Err? ==> r.Err? && r.error == result1.error
    ensures result1.Ok? && result2.Err? ==> r.Err? && r.error == result2.error
  {
    match result1
    case Err(e) => Err(e)
    case Ok(v1) =>
      match result2
      case Err(e) => Err(e)
      case Ok(v2) => Ok((v1, v2))
  }

  /** What `Vec::pop` hands the completer. */
  datatype Option = None | Some(entry: Entry)

  class MyRpc {
    /** The in-flight messages, oldest first. */
    var inflight: seq<Entry>
    /** The next message id the counter hands out. */
    var nextId: U16
    /** Whether the background processor has been started. */
    var started: bool
    /** The value sent on each reply channel that has received one. */
    var delivered: map<nat, U16>
    /** How many reply channels have been created: the next channel's number. */
    var nextChan: nat

    ghost predicate Valid()
      reads this
    {
      && nextId == CounterAfter(nextChan)
      && Correlated(inflight, delivered, nextChan)
    }

    /** `MyRpc::new`: nothing in flight, the counter at 0, no processor. */
    constructor New()
      ensures Valid()
      ensures inflight == [] && nextId == 0 && !started
      ensures delivered == map[] && nextChan == 0
    {
      inflight := [];
      nextId := 0;
      started := false;
      delivered := map[];
      nextChan := 0;
    }

    /** The synchronous part of `request()`: take the counter's value as the id
        and advance the counter, create a fresh channel, and append the entry. */
    method Issue() returns (id: U16, chan: nat)
      requires Valid()
      modifies this
      ensures Valid()
      ensures id == old(nextId) && nextId == WrappingInc(old(nextId))
      ensures chan == old(nextChan) && nextChan == chan + 1
      ensures chan !in old(delivered)
      ensures forall i :: 0 <= i < |old(inflight)| ==> old(inflight)[i].chan != chan
      ensures inflight == old(inflight) + [Entry(id, chan)]
      ensures delivered == old(delivered) && started == old(started)
      ensures nextChan <= MODULUS ==> IdsDistinct(inflight)
    {
      PushKeepsCorrelated(inflight, delivered, nextChan);
      id := nextId;
      nextId := WrappingInc(nextId);
      chan := nextChan;
      nextChan := nextChan + 1;
      inflight := inflight + [Entry(id, chan)];
      if nextChan <= MODULUS {
        IdsDistinctBeforeWrap(inflight, delivered, nextChan);
      }
    }

    /** One iteration of the background loop: pop the last entry, if any, and
        send its own id on its channel.  The loop runs only on the background
        thread, so only once the processor has been started. */
    method CompleteOne() returns (popped: Option)
      requires Valid() && started
      modifies this`inflight, this`delivered
      ensures Valid()
      ensures (inflight, delivered) == Step(old(inflight), old(delivered))
      ensures popped.None? <==> old(inflight) == []
      ensures popped.Some? ==>
        && popped.entry == old(inflight)[|old(inflight)| - 1]
        && popped.entry.chan !in old(delivered)
        && popped.entry.chan in delivered && delivered[popped.entry.chan] == popped.entry.id
      ensures nextChan <= MODULUS ==> IdsDistinct(inflight)
    {
      StepKeepsCorrelated(inflight, delivered, nextChan);
      if inflight == [] {
        popped := None;
      } else {
        var last := inflight[|inflight| - 1];
        inflight := inflight[..|inflight| - 1];
        delivered := delivered[last.chan := last.id];
        popped := Some(last);
      }
      if nextChan <= MODULUS {
        IdsDistinctBeforeWrap(inflight, delivered, nextChan);
      }
    }

    /** `start_background_processor`: start the processor unless it is
        already running. */
    method StartBackground()
      requires Valid()
      modifies this`started
      ensures Valid() && started
      ensures old(started) ==> unchanged(this)
    {
      if started {
        return;
      }
      started := true;
    }

    /** `request()` awaited to completion: the request is registered, the
        completer's next iteration runs, and the caller receives what arrived
        on its channel.  The caller gets exactly the id it was issued, and the
        in-flight list is left as it was before the call. */
    method Request() returns (r: Result<U16>)
      requires Valid() && started
      modifies this
      ensures Valid() && started
      ensures r == Ok(old(nextId))
      ensures nextId == WrappingInc(old(nextId)) && nextChan == old(nextChan) + 1
      ensures inflight == old(inflight)
      ensures delivered == old(delivered)[old(nextChan) := old(nextId)]
    {
      var id, chan := Issue();
      var popped := CompleteOne();
      assert popped.entry == Entry(id, chan);
      r := MapRecvError(Received(delivered[chan]));
    }

    /** `request_two()` awaited to completion: both requests are registered
        before any completion, the completer runs until both channels have a
        value (it answers the second one first), and the results are paired in
        the order the requests were made. */
    method RequestTwo() returns (r: Result<(U16, U16)>)
      requires Valid() && started
      modifies this
      ensures Valid() && started
      ensures r == Ok((old(nextId), WrappingInc(old(nextId))))
      ensures nextId == WrappingInc(WrappingInc(old(nextId))) && nextChan == old(nextChan) + 2
      ensures inflight == old(inflight)
      ensures delivered == old(delivered)[old(nextChan) + 1 := WrappingInc(old(nextId))][old(nextChan) := old(nextId)]
    {
      var id1, chan1 := Issue();
      var id2, chan2 := Issue();
      var first := CompleteOne();
      assert first.entry == Entry(id2, chan2);
      var second := CompleteOne();
      assert second.entry == Entry(id1, chan1);
      var result1 := MapRecvError(Received(delivered[chan1]));
      var result2 := MapRecvError(Received(delivered[chan2]));
      r := CombineTwo(result1, result2);
    }
  }
}
