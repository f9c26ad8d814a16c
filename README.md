# MyRpc request/response correlation, modelled in Dafny

`MyRpc` is an RPC client that correlates each request with its response. A
call to `request()` takes a 16-bit message id from a wrapping counter. It
creates a one-slot reply channel and appends an in-flight entry (id, channel)
to a shared list. It then waits on the channel. A background processor
repeatedly pops the last in-flight entry and sends that entry's own id on the
entry's channel. `request_two()` issues two such requests together and pairs
their results. A second `start_background_processor()` call does nothing.

The model keeps only this state machine. Every operation is treated as atomic
and sequential.

- `registry.dfy`, module `Registry`: the pure part. It holds the 16-bit id type
  `U16`, the counter step `WrappingInc` and its iterate `CounterAfter`, and the
  in-flight entry `Entry`. It also holds `Step`, one iteration of the
  background loop on the list and the reply channels, and the invariant
  `Correlated` with the lemmas that keep it.
- `client.dfy`, module `Rpc`: the class `MyRpc`. Its fields are `inflight`,
  `nextId`, `started`, `delivered` (the value sent on each channel) and
  `nextChan` (how many channels have been created). It also holds the pure
  result handling of `request()` and `request_two()`.

A reply channel is identified by the order in which it was created. Channel `c` belongs to the
`c`-th request ever issued, whose id is `CounterAfter(c)`, that is
`c mod 2^16`. The invariant `MyRpc.Valid()` says four things:
- the list is in issue order;
- each entry carries its request's id;
- no channel still in the list has received a value;
- every value sent on a channel equals the id that channel was created with.

That last fact holds in every reachable state, wrapped counter or not. After a
wrap two in-flight entries may share an id, but delivery goes by channel, so a
caller never receives another request's value.

`Request` and `RequestTwo` model an awaited call in the sequential setting.
The request (or both requests of a pair) is registered. Then the completer's
next iteration(s) run, and the caller reads its channel. With the last-in,
first-out pop, the completer answers the pair's second request first. The
results are still paired in request order.

## Model

| member | source | states |
|---|---|---|
| Registry.WrappingInc | mylib/src/asyn/my_rpc.rs:62 | `fetch_add(1)` on the 16-bit counter: the new value is the old one plus 1 modulo 2^16, and exactly old + 1 below 65535 |
| Registry.CounterAfter | mylib/src/asyn/my_rpc.rs:25-32 | after n requests from the initial 0, the counter (and so the n-th request's id) is n mod 2^16 |
| Registry.Step | mylib/src/asyn/my_rpc.rs:48-54 | one loop iteration: on an empty list nothing changes; otherwise the list loses exactly its last entry, the prefix stays, and that entry's own id is sent on its channel, with every other channel untouched |
| Registry.PushKeepsCorrelated | mylib/src/asyn/my_rpc.rs:62-66 | appending the next request (counter's id, new channel) keeps the list in issue order, ids matching their channels, and pending channels empty |
| Registry.StepKeepsCorrelated | mylib/src/asyn/my_rpc.rs:49-54 | a completion step keeps that invariant, and the channel it sends on had received nothing before (each channel receives at most one value) |
| Registry.IdsDistinctInWindow | mylib/src/asyn/my_rpc.rs:62-66 | in-flight ids are pairwise distinct whenever fewer than 2^16 requests were issued since the oldest entry still in flight |
| Registry.IdsDistinctBeforeWrap | mylib/src/asyn/my_rpc.rs:25 | if at most 2^16 requests have been issued in total, in-flight ids are pairwise distinct |
| Rpc.MapRecvError | mylib/src/asyn/my_rpc.rs:69-70 | a received value is the `Ok` response; a disconnected channel gives the error "Failed to receive response" |
| Rpc.CombineTwo | mylib/src/asyn/my_rpc.rs:79 | `Ok` exactly when both results are `Ok`, with the values in request order; otherwise the first request's error, else the second's |
| Rpc.MyRpc.New | mylib/src/asyn/my_rpc.rs:31-33 | a new client has an empty in-flight list, next id 0, no processor and no channels |
| Rpc.MyRpc.Issue | mylib/src/asyn/my_rpc.rs:62-67 | the id is the counter's old value and the counter advances modulo 2^16; the channel is fresh; exactly one entry (id, channel) is appended and the old entries stay in place; the invariant holds and ids are distinct before a wrap |
| Rpc.MyRpc.CompleteOne | mylib/src/asyn/my_rpc.rs:45-55 | the new list and channels are `Step` of the old ones; it pops nothing exactly when the list was empty; otherwise it pops the last entry, whose channel was empty and now holds that entry's id |
| Rpc.MyRpc.StartBackground | mylib/src/asyn/my_rpc.rs:37-58 | afterwards the processor is started; if it already was, nothing changes (idempotent) |
| Rpc.MyRpc.Request | mylib/src/asyn/my_rpc.rs:61-71 | the caller receives `Ok` of exactly the id it was issued; the in-flight list is as before and only its channel received a value |
| Rpc.MyRpc.RequestTwo | mylib/src/asyn/my_rpc.rs:75-80 | both requests are registered before any completion, and the result is `Ok((id1, id2))` with the two consecutive ids in request order, although the second is answered first |

## Left out

- The background thread, `thread::sleep` and the endless loop (lines 43-47).
  Only one iteration of the loop body is modelled, as `CompleteOne`. Its
  precondition `started` says that the iteration runs only after the
  processor has been started.
- `Mutex`, `Arc`, the atomic counter's memory ordering and all concurrency. Each
  operation is one atomic step of a sequential model. So `Request` and
  `RequestTwo` show one order of events: registration, then the completer's
  next iterations. They do not show an order in which the completer pops
  other requests in between.
- A request made while the processor is never started, which never resolves.
  `Issue` needs no started processor. Only `CompleteOne` fills a
  channel, and it needs one. Non-termination itself is not modelled.
- The internals of `flume` channels, `into_recv_async().await` and
  `futures_lite::future::zip`. Channels are numbers with the map `delivered`.
  The one-slot bound is the fact that a channel is sent to at most once.
- `Rpc.MapRecvError`: the disconnected case is modelled, but no operation
  of the model reaches it. A sender is dropped only after it has sent, and the
  background thread never ends.
- `start_time: Instant::now()` (line 66): a clock read that nothing uses.
- The blocking wrappers `request_sync` and `request_two_sync`
  (mylib/src/sync/my_rpc.rs). They only run the asynchronous calls to
  completion with `smol::block_on`.
- The greeting and delay demos (say_hello.rs), the executable's entry point and
  the tests. The tests only print elapsed times and check `is_ok()`.
