# SimpleRx in Dafny

A model of `SimpleRx<T>`, a one-class reactive stream library. A stream has:

- three handler lists (item, error and completion handlers);
- two terminal flags, `completed` and `hasError`;
- a source function, which subscribe calls with three dispatch callbacks.

`subscribe` works in two steps:

1. It appends each non-null handler to its list.
2. It runs the source.

Each dispatch callback is gated. Once either flag is set, it does nothing. Otherwise:

- an error sets `hasError` and a completion sets `completed`;
- then every handler of the matching list runs, in registration order.

The `Subscription` that subscribe returns has `dispose`. Its first call:

- sets `completed`;
- empties all three lists of the stream it came from.

Later calls do nothing. The factories `just`, `from`, `error` and `create` build streams from a source. The operators `map` and `filter` build a stream whose source subscribes to the receiver.

How the model is laid out:

- **`Events`** (events.dfy): what a source does, as the finite trace of calls it makes on the three callbacks. It defines:
  - the traces of the factories;
  - the gate `Passed`, which is what the dispatch callbacks let through;
  - the `map`/`filter` transformations of traces.
- **`Machine`** (machine.dfy): the state of one instance as a value. It covers:
  - the three lists, the two flags, and a record of every handler invocation made so far;
  - `Register`, `Dispatch`, `Run` and `Dispose`, and the lemmas about them;
  - the lifetime of an instance under any sequence of subscribes and disposes.
- **`Rx`** (simple_rx.dfy): the imperative model.
  - The class `Stream` has the lists and flags as fields. Its dispatch methods loop over a handler list. `Subscribe` appends, then feeds its source's calls through the dispatch methods.
  - The class `Subscription` has the `disposed` flag and `Dispose`.
  - Every method is proved against the `Machine` functions. A method's postcondition gives the new `Core()` of its stream from the old one.
- **`Operators`** (operators.dfy): what the subscriber of a `map` or `filter` stream receives. This follows the upstream's forwarding handlers and shows what handler accumulation does.
- **`Scenarios`** (scenarios.dfy): the library's usage scenarios as clients of `Rx`. Most scenarios return the exact handler invocations their stream made. `DisposeScenario` also returns what `isDisposed` reports, and `DisposedReport` returns only those reports. The setup methods (`SubscribeOneTwo`, `SubscribeMapOfFrom`, `SubscribeFilterOfFrom`, `SubscribeMapTwice`) return the streams instead, with their states given as `Machine` terms.

Handlers are values:

- `Callback(id)` is a caller's handler.
- `PrintStackTrace` and `Ignore` are the defaults of the one-argument subscribe.
- `Forward(x)` is the handler an operator stream `x` registers on its upstream. It invokes `x`'s dispatch callback with the event.
- A null handler is `None`.

Invoking a handler appends a `Delivery(handler, event)` to the instance's record.

## Model

| member | source | states |
|---|---|---|
| Rx.Stream.constructor | src/main/java/com/demo/rxjava/SimpleRx.java:55-57 | a new instance keeps its source, has empty lists, neither flag set and nothing delivered |
| Rx.Stream.Just | src/main/java/com/demo/rxjava/SimpleRx.java:64-71 | a fresh instance whose source emits the value, then completes |
| Rx.Stream.From | src/main/java/com/demo/rxjava/SimpleRx.java:79-88 | a fresh instance whose source emits every value in input order, then completes once |
| Rx.Stream.Error | src/main/java/com/demo/rxjava/SimpleRx.java:95-101 | a fresh instance whose source signals the error and nothing else |
| Rx.Stream.Create | src/main/java/com/demo/rxjava/SimpleRx.java:108-110 | a fresh instance whose source makes exactly the given calls |
| Rx.Stream.Map | src/main/java/com/demo/rxjava/SimpleRx.java:117-125 | a fresh instance whose source is the mapper over the receiver; the receiver is unchanged |
| Rx.Stream.Filter | src/main/java/com/demo/rxjava/SimpleRx.java:132-144 | a fresh instance whose source is the predicate over the receiver; the receiver is unchanged |
| Rx.Stream.AddHandlers | src/main/java/com/demo/rxjava/SimpleRx.java:170-172 | each non-null handler is appended to its own list; null ones are skipped; flags and record untouched |
| Rx.Stream.Invoke | src/main/java/com/demo/rxjava/SimpleRx.java:177-179 | the loop invokes every handler of the list with the event, in list order, and nothing else |
| Rx.Stream.DispatchItem | src/main/java/com/demo/rxjava/SimpleRx.java:175-181 | when neither flag is set, every item handler receives the item in order; otherwise nothing happens |
| Rx.Stream.DispatchError | src/main/java/com/demo/rxjava/SimpleRx.java:182-189 | only from the open state: hasError is set, then every error handler receives the error; otherwise nothing happens |
| Rx.Stream.DispatchComplete | src/main/java/com/demo/rxjava/SimpleRx.java:190-196 | only from the open state: completed is set, then every completion handler runs; otherwise nothing happens |
| Rx.Stream.Feed | src/main/java/com/demo/rxjava/SimpleRx.java:174-202 | the source's calls on the three callbacks, one after the other, leave the instance in the state `Run` gives |
| Rx.Stream.Consume | src/main/java/com/demo/rxjava/SimpleRx.java:174-202 | the calls the source made are recorded, and the instance ends as `Run` of them gives |
| Rx.Stream.Pull | src/main/java/com/demo/rxjava/SimpleRx.java:118-143 | an operator's source subscribes the upstream with one forwarding handler per list; it returns the mapped (or filtered) events that reached those handlers |
| Rx.Stream.Subscribe | src/main/java/com/demo/rxjava/SimpleRx.java:169-205 | registers, then runs the source through the gated callbacks; for an operator it also gives the upstream's new state and what it fed this stream; returns a fresh, undisposed handle |
| Rx.Stream.SubscribeItems | src/main/java/com/demo/rxjava/SimpleRx.java:212-214 | subscribe with the item handler, the printing error handler and the empty completion handler |
| Rx.Subscription.constructor | src/main/java/com/demo/rxjava/SimpleRx.java:219-220 | a new handle belongs to its instance and is not disposed |
| Rx.Subscription.Dispose | src/main/java/com/demo/rxjava/SimpleRx.java:225-237 | the first call sets disposed and completed and empties the three lists; a second call changes nothing; isDisposed is then true |
| Machine.Register | src/main/java/com/demo/rxjava/SimpleRx.java:170-172 | old lists are prefixes of the new ones; a list grows by one exactly when its handler is non-null and then ends with it; flags and record untouched |
| Machine.Dispatch | src/main/java/com/demo/rxjava/SimpleRx.java:175-196 | a terminated instance is left as it is; from the open state an error sets hasError and a completion sets completed, never both, and the event goes to each handler of its own list in order; the lists are untouched |
| Machine.Run | src/main/java/com/demo/rxjava/SimpleRx.java:174-202 | a run never touches the lists, never clears a flag, and only appends to the record |
| Machine.Dispose | src/main/java/com/demo/rxjava/SimpleRx.java:225-237 | completed is set and the lists are emptied; the record and hasError are unchanged |
| Machine.RunDelivers | src/main/java/com/demo/rxjava/SimpleRx.java:174-202 | closed form of a run: only the gate's events are delivered, each to every handler of its list in registration order; the lists are untouched; a passed terminal sets its own flag |
| Machine.RunItems | src/main/java/com/demo/rxjava/SimpleRx.java:175-181 | on an open instance, a source that only emits items reaches every item handler with every item, in order, and leaves the flags and lists as they were |
| Machine.TerminalAbsorbs | src/main/java/com/demo/rxjava/SimpleRx.java:176-191 | once a flag is set, any further calls from the source change nothing |
| Machine.RunExclusive | src/main/java/com/demo/rxjava/SimpleRx.java:182-196 | an error and a completion never both get through; a trace is cut short only after the instance has terminated |
| Machine.RunTerminates | src/main/java/com/demo/rxjava/SimpleRx.java:182-201 | an open instance ends terminated exactly when its gate let a terminal event through |
| Machine.RunFresh | src/main/java/com/demo/rxjava/SimpleRx.java:169-202 | a first subscriber on a fresh instance, fed well-formed calls: each call reaches its whole list; the flags are those of the last call |
| Machine.RunAppend | src/main/java/com/demo/rxjava/SimpleRx.java:174-202 | feeding two traces in turn is feeding their concatenation |
| Machine.SubscribeAfterTerminal | src/main/java/com/demo/rxjava/SimpleRx.java:169-202 | a subscribe on a terminated instance still appends its handlers, but nothing is delivered |
| Machine.DisposeIdempotent | src/main/java/com/demo/rxjava/SimpleRx.java:225-237 | applying dispose twice is applying it once |
| Machine.DisposeSilences | src/main/java/com/demo/rxjava/SimpleRx.java:225-237 | after dispose, a new subscriber's handlers are kept but receive nothing |
| Machine.FlagsNeverReset | src/main/java/com/demo/rxjava/SimpleRx.java:182-201 | over any sequence of subscribes and disposes, a set flag stays set and the record only grows |
| Machine.AtMostOneTerminal | src/main/java/com/demo/rxjava/SimpleRx.java:182-201 | over the whole life of an instance, at most one terminal event gets through, and only as the last event; a terminated instance lets nothing through |
| Machine.PerformGate | src/main/java/com/demo/rxjava/SimpleRx.java:169-237 | one subscribe or dispose: what gets through is well formed; a terminated instance passes nothing and stays terminated; unless only items got through, the instance is terminated after it |
| Machine.ForwardedFanOut | src/main/java/com/demo/rxjava/SimpleRx.java:119-123 | one dispatch reaches an operator stream once per forwarding handler into it in the list |
| Machine.ForwardedBroadcast | src/main/java/com/demo/rxjava/SimpleRx.java:118-124 | what an operator stream receives from its upstream's run is each event, repeated once per forwarding handler into it |
| Machine.EchoOnce | src/main/java/com/demo/rxjava/SimpleRx.java:118-124 | registered once per list, an operator stream receives the upstream's events exactly once each, in order |
| Machine.ForwardedOnce | src/main/java/com/demo/rxjava/SimpleRx.java:118-124 | on a first subscribe, what reaches the operator stream is exactly what the upstream's gate let through |
| Machine.BroadcastItems | src/main/java/com/demo/rxjava/SimpleRx.java:82-84 | a single item handler receives each value once, in input order |
| Machine.FromBroadcast | src/main/java/com/demo/rxjava/SimpleRx.java:79-88 | with a single item handler, the calls from(vs) makes reach that handler with each value in input order, then each completion handler once |
| Machine.FromDelivers | src/test/java/com/demo/rxjava/SimpleRxTest.java:88-92 | from(vs) on a fresh instance: the item handler gets every value in order, each completion handler runs once after them, no error handler runs |
| Events.From | src/main/java/com/demo/rxjava/SimpleRx.java:79-88 | one item per value, in input order, then a completion; at most one terminal call, at the end |
| Events.Just | src/main/java/com/demo/rxjava/SimpleRx.java:64-71 | the calls of just(v) are those of from(v) |
| Events.Fail | src/main/java/com/demo/rxjava/SimpleRx.java:95-101 | exactly one call, the error with its own value; an open gate passes it whole and is then closed |
| Events.Passed | src/main/java/com/demo/rxjava/SimpleRx.java:175-201 | the gate passes a prefix of the source's calls; a closed gate passes nothing |
| Events.PassedWellFormed | src/main/java/com/demo/rxjava/SimpleRx.java:175-201 | the gate never passes more than one terminal event, and that one last |
| Events.PassedCut | src/main/java/com/demo/rxjava/SimpleRx.java:175-201 | an open gate cuts the calls short only right after a terminal event |
| Events.PassedWhole | src/main/java/com/demo/rxjava/SimpleRx.java:175-201 | an open gate passes all calls if and only if at most one terminal call is made, and only as the last |
| Events.PassedAppend | src/main/java/com/demo/rxjava/SimpleRx.java:175-201 | gating two call sequences in turn: the second meets the gate as the first left it |
| Events.MapTrace | src/main/java/com/demo/rxjava/SimpleRx.java:117-125 | map keeps every event in place and of the same kind; items carry the mapped value; errors pass unchanged |
| Events.MapPassed | src/main/java/com/demo/rxjava/SimpleRx.java:117-125 | mapping commutes with the gate |
| Events.MapFrom | src/main/java/com/demo/rxjava/SimpleRx.java:117-125 | from(vs) mapped is from of the mapped values |
| Events.MapCompose | src/main/java/com/demo/rxjava/SimpleRx.java:117-125 | two maps in a row are one map by the composed function |
| Events.FilterAppend | src/main/java/com/demo/rxjava/SimpleRx.java:132-144 | filtering works call by call; it distributes over concatenation |
| Events.FilterTrace | src/main/java/com/demo/rxjava/SimpleRx.java:132-144 | filtering never lengthens the calls, keeps only calls of the original, and every item it keeps satisfies the predicate |
| Events.FilterKeeps | src/main/java/com/demo/rxjava/SimpleRx.java:135-139 | every item kept satisfies the predicate; the filtered trace has a terminal call if and only if the original does |
| Events.FilterPassed | src/main/java/com/demo/rxjava/SimpleRx.java:132-144 | filtering commutes with the gate |
| Events.FilterItems | src/main/java/com/demo/rxjava/SimpleRx.java:135-139 | items filtered are the items of the values satisfying the predicate, in order |
| Events.FilterFrom | src/main/java/com/demo/rxjava/SimpleRx.java:132-144 | from(vs) filtered is from of the values satisfying the predicate |
| Events.FactoriesWellFormed | src/main/java/com/demo/rxjava/SimpleRx.java:64-101 | the sources of just, from and error each pass the gate whole |
| Events.FromPasses | src/main/java/com/demo/rxjava/SimpleRx.java:79-88 | the calls from(vs) makes have at most one terminal call, at the end, so an open gate passes them all |
| Operators.MapOverFrom | src/test/java/com/demo/rxjava/SimpleRxTest.java:108-113 | from(vs).map(f) subscribed once: the item handler receives f of each value in order, then the completion handlers run; no error handler runs |
| Operators.FilterOverFrom | src/test/java/com/demo/rxjava/SimpleRxTest.java:129-133 | from(vs).filter(p) subscribed once: the item handler receives exactly the values satisfying p, in order, then completion |
| Operators.MapOverTrace | src/main/java/com/demo/rxjava/SimpleRx.java:117-125 | create(t).map(f) subscribed once, for any source calls t: each list of the map stream receives f of what the upstream's gate passed, in registration order; the map stream ends with the upstream's flags |
| Operators.FilterOverTrace | src/main/java/com/demo/rxjava/SimpleRx.java:132-144 | create(t).filter(p) subscribed once, for any source calls t: each list of the filter stream receives the gated calls with the items failing p dropped; it terminates exactly when the upstream does |
| Operators.UpstreamFlags | src/main/java/com/demo/rxjava/SimpleRx.java:182-201 | after a first forwarding subscribe on a fresh instance, its flags are those of the last event its gate passed |
| Operators.FromForwarded | src/main/java/com/demo/rxjava/SimpleRx.java:79-88 | a first operator subscribe on a fresh from(vs) receives all of its calls |
| Operators.MapFeed | src/main/java/com/demo/rxjava/SimpleRx.java:117-125 | on its first subscribe, from any upstream state, a map stream is fed f of exactly the events the upstream's gate passed; so at most one terminal, at the end |
| Operators.FilterFeed | src/main/java/com/demo/rxjava/SimpleRx.java:132-144 | on its first subscribe, from any upstream state, a filter stream is fed the passed items satisfying p and the passed terminal; this equals gating the filtered trace |
| Operators.HandlersAccumulate | src/main/java/com/demo/rxjava/SimpleRx.java:170-180 | on an instance whose source only emits items, a second subscribe reaches the first subscriber's handler again as well as the new one |
| Operators.ForwardedTwice | src/main/java/com/demo/rxjava/SimpleRx.java:118-124 | an operator stream subscribed twice has two forwarding handlers per upstream list, so every upstream event reaches it twice in a row |
| Operators.EchoTwice | src/main/java/com/demo/rxjava/SimpleRx.java:118-124 | with two forwarding handlers per list, an operator stream receives each upstream event twice in a row, and nothing else |
| Operators.MapFirstSubscribe | src/main/java/com/demo/rxjava/SimpleRx.java:117-125 | the first subscribe of a map over an item-only upstream: the upstream gets one forwarding handler per list and forwards every item once; the map stream's item handler receives f of each, and neither instance terminates |
| Operators.MapSecondSubscribe | src/main/java/com/demo/rxjava/SimpleRx.java:170-180 | a second subscribe of that map stream: the upstream forwards every item twice in a row, and each of the two map stream item handlers receives f of each copy, in registration order |
| Scenarios.JustScenario | src/test/java/com/demo/rxjava/SimpleRxTest.java:68-72 | just(42) with one item handler: the item handler gets 42, then the empty completion handler runs |
| Scenarios.FromScenario | src/test/java/com/demo/rxjava/SimpleRxTest.java:88-92 | from(1..5): 1, 2, 3, 4, 5 in order, then completion |
| Scenarios.MapScenario | src/test/java/com/demo/rxjava/SimpleRxTest.java:108-113 | from(1, 2, 3).map(i -> 10 * i): the subscriber gets 10, 20, 30, then completion |
| Scenarios.SubscribeMapOfFrom | src/main/java/com/demo/rxjava/SimpleRx.java:117-125 | from(values).map(f) subscribed once: the upstream's state is that of a first subscribe by the map stream, and the map stream runs f over exactly what its forwarding handlers received |
| Scenarios.MapFromScenario | src/test/java/com/demo/rxjava/SimpleRxTest.java:108-113 | from(values).map(f) with one item handler: f of each value in order, then completion, and no error |
| Scenarios.FilterFromScenario | src/main/java/com/demo/rxjava/SimpleRx.java:132-144 | from(values).filter(p) with one item handler: exactly the values satisfying p in order, then completion |
| Scenarios.SubscribeFilterOfFrom | src/main/java/com/demo/rxjava/SimpleRx.java:132-144 | from(values).filter(p) subscribed once: the upstream's state is that of a first subscribe by the filter stream, and the filter stream runs p over exactly what its forwarding handlers received |
| Scenarios.FilterScenario | src/test/java/com/demo/rxjava/SimpleRxTest.java:129-133 | from(1..6).filter(even): the subscriber gets 2, 4, 6, then completion |
| Scenarios.EvensUpToSix | src/test/java/com/demo/rxjava/SimpleRxTest.java:131 | the values of 1..6 that pass the even-number predicate are 2, 4, 6 |
| Scenarios.ErrorScenario | src/test/java/com/demo/rxjava/SimpleRxTest.java:185-193 | error(e) with three handlers: only the error handler runs, once |
| Scenarios.SubscribeOneTwo | src/main/java/com/demo/rxjava/SimpleRx.java:169-214 | create(emit 1, emit 2) subscribed with one item handler: the handler receives 1 then 2, the stream stays open, and the returned handle belongs to it and is not disposed |
| Scenarios.DisposeScenario | src/main/java/com/demo/rxjava/SimpleRx.java:225-237 | dispose twice on an unfinished stream, then a new subscribe: no further delivery, and the handle reports disposed |
| Scenarios.DisposedReport | src/main/java/com/demo/rxjava/SimpleRx.java:243-245 | isDisposed on the handle from subscribe: false at first, true after dispose, still true after a second dispose |
| Scenarios.AccumulateScenario | src/main/java/com/demo/rxjava/SimpleRx.java:170-180 | two subscribes with null error and completion handlers: the first handler receives the item twice, the second once |
| Scenarios.SubscribeMapTwice | src/main/java/com/demo/rxjava/SimpleRx.java:117-125 | create(t).map(f) subscribed twice: the states of the upstream and the map stream after the first subscribe, and after the second as a function of them |
| Scenarios.MapAccumulateScenario | src/main/java/com/demo/rxjava/SimpleRx.java:170-180 | create(emit 1).map(i -> i + 1) subscribed twice: handler 0 receives 2 once from the first subscribe; then, from the second, handlers 0 and 1 each receive 2, twice over |

`isDisposed` (src/main/java/com/demo/rxjava/SimpleRx.java:243-245) is `Rx.Subscription.IsDisposed`. It is a read-only function of the `disposed` flag. What it returns is stated by the postconditions of `Subscribe`, `Subscription.constructor` and `Dispose`, and shown end to end by `Scenarios.DisposedReport`.

## Left out

- `subscribeOnThread` (src/main/java/com/demo/rxjava/SimpleRx.java:150-160) is not modelled. The same goes for the executor shutdown in the completion callback (198-200) and in `dispose` (233-235). Threads and executors are outside this sequential model.
- Printing a stack trace is recorded only as a delivery to the `PrintStackTrace` handler. Console output is I/O.
- Exceptions thrown by a handler, a mapper or a predicate are not modelled. Mappers and predicates are total Dafny functions.
- Re-entrancy is not modelled, such as a handler that subscribes or disposes while a dispatch loop runs. Concurrent use of one instance is not modelled either.
- A source is a fixed, finite trace of calls, the same on every subscribe. A `create` source that loops forever, or that behaves differently on each subscribe, is not modelled.
- Rx.Stream.Subscribe: it does not update any operator stream other than the one subscribing whose forwarding handlers sit on this instance.
  - An operator stream that subscribed earlier leaves its forwarding handlers on its upstream's lists. A later subscribe on that upstream dispatches to them too. This holds when the upstream itself is subscribed directly, when a second `map`/`filter` stream on the same upstream is subscribed, and when a stream further down a chain is subscribed.
  - Example: `rx = create(emit 1)`, `m = rx.map(f)`, `m.subscribe(h0)`, then `rx.subscribe(h1)`. In Java, the second subscribe also delivers `f(1)` to `h0` again through `m`.
  - The model records the delivery to `Forward(m)` in the upstream's record. It does not change `m`'s state or record.
- Rx.Stream.Subscribe: it does not record the global order across streams.
  - In Java, a downstream's handlers run inside the upstream's dispatch loop, interleaved with the upstream's own handlers.
  - In the model, the upstream runs fully, then the downstream is fed what its forwarding handlers received.
  - Each stream's own record and state are the same either way. The single global order across two streams is not recorded.
- Rx.Stream.Map: in the class layer, map is `V -> V` over one value type per chain. Java's generics are erased, so a chain carries one runtime value type. A mapper that changes the element type, as `SimpleRxTest` line 110 does with string formatting, is modelled only at the value level (`Events.MapTrace`, `Operators.MapOverFrom`).
- Rx.Stream.Subscribe: the upstream part of its postcondition reaches two levels of a chain. It gives the direct upstream's new state and what that upstream was fed. It says nothing about what an upstream's own upstream, two operators away, ends as.
- Scenarios.MapScenario: it uses `i -> 10 * i` instead of `i -> "Number: " + i`, for the same reason.
- Null sources, null mappers and null predicates are not modelled. Java fails on them with a `NullPointerException`.
- The test harness itself is not modelled. Its counters, console output and the threading test (`SimpleRxTest` lines 144-173) are left out.
- The example program (`SimpleExample`) is not modelled.
