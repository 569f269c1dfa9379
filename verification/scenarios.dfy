/**
 * The library's usage scenarios, written as clients of `Rx`: each builds streams
 * with the factories and operators, subscribes, and returns every handler
 * invocation the subscribed stream made, which its postcondition gives exactly.
 * Handlers are named by number: `Callback(0)` is the subscriber's item handler,
 * `Callback(1)` and `Callback(2)` its error and completion handlers.
 */
module Scenarios {
  import opened Events
  import opened Machine
  import opened Operators
  import opened Rx

  /** just(42) with an item handler only: the item, then the default completion handler. */
  method JustScenario() returns (received: seq<Delivery<nat, int, string>>)
    ensures received == [Delivery(Callback(0), Item(42)), Delivery(Ignore, Complete)]
  {
    var rx := Stream<nat, int, string>.Just(42);
    var _ := rx.SubscribeItems(Some(Callback(0)));
    FromDelivers<nat, int, string>(Callback(0), Some(PrintStackTrace), Some(Ignore), [42]);
    assert rx.fed == Events.From([42]);
    received := rx.delivered;
  }

  /** from(1, 2, 3, 4, 5): the five values in order, then the default completion handler. */
  method FromScenario() returns (received: seq<Delivery<nat, int, string>>)
    ensures received == [Delivery(Callback(0), Item(1)), Delivery(Callback(0), Item(2)),
                         Delivery(Callback(0), Item(3)), Delivery(Callback(0), Item(4)),
                         Delivery(Callback(0), Item(5)), Delivery(Ignore, Complete)]
  {
    var rx := Stream<nat, int, string>.From([1, 2, 3, 4, 5]);
    var _ := rx.SubscribeItems(Some(Callback(0)));
    assert rx.fed == Events.From([1, 2, 3, 4, 5]);
    FromDelivers<nat, int, string>(Callback(0), Some(PrintStackTrace), Some(Ignore), [1, 2, 3, 4, 5]);
    received := rx.delivered;
  }

  /** error(e) with all three handlers: only the error handler runs, once. */
  method ErrorScenario() returns (received: seq<Delivery<nat, int, string>>)
    ensures received == [Delivery(Callback(1), Event.Error("Test error"))]
  {
    var rx := Stream<nat, int, string>.Error("Test error");
    var _ := rx.Subscribe(Some(Callback(0)), Some(Callback(1)), Some(Callback(2)));
    received := rx.delivered;
  }

  /**
   * from(values).map(f) subscribed with an item handler only: the upstream has run
   * its trace with one forwarding handler per list into the map stream, and the map
   * stream has run f of what those handlers received.
   */
  method SubscribeMapOfFrom(values: seq<int>, f: int -> int) returns (rx: Stream<nat, int, string>, mapped: Stream<nat, int, string>)
    ensures rx.Core() == UpstreamAfter(Fresh<nat, int, string>(), mapped, Events.From(values))
    ensures mapped.Core() == Run(Register(Fresh<nat, int, string>(), Some(Callback(0)), Some(PrintStackTrace), Some(Ignore)),
                                 MapTrace(f, ForwardedTo(mapped, rx.delivered)))
  {
    rx := Stream<nat, int, string>.From(values);
    mapped := rx.Map(f);
    var _ := mapped.SubscribeItems(Some(Callback(0)));
    assert rx.delivered[0..] == rx.delivered;
    assert mapped.fed == MapTrace(f, ForwardedTo(mapped, rx.delivered));
    assert rx.fed == Events.From(values);
  }

  /**
   * from(values).map(f) subscribed with an item handler only: the handler
   * receives f of each value, in order, then the default completion handler runs.
   */
  method MapFromScenario(values: seq<int>, f: int -> int) returns (received: seq<Delivery<nat, int, string>>)
    ensures received == seq(|values|, i requires 0 <= i < |values| => Delivery(Callback(0), Item(f(values[i]))))
                        + [Delivery(Ignore, Complete)]
  {
    var rx, mapped := SubscribeMapOfFrom(values, f);
    MapOverFrom<nat, int, int, string>(mapped, f, values, Callback(0), Some(PrintStackTrace), Some(Ignore));
    received := mapped.delivered;
  }

  /** from(1, 2, 3).map(i -> 10 * i): the subscriber of the map stream receives 10, 20, 30 in order, then completes. */
  method MapScenario() returns (received: seq<Delivery<nat, int, string>>)
    ensures received == [Delivery(Callback(0), Item(10)), Delivery(Callback(0), Item(20)),
                         Delivery(Callback(0), Item(30)), Delivery(Ignore, Complete)]
  {
    received := MapFromScenario([1, 2, 3], i => 10 * i);
  }

  /** from(values).filter(p) subscribed with an item handler only: both streams' states after the subscribe. */
  method SubscribeFilterOfFrom(values: seq<int>, p: int -> bool)
    returns (rx: Stream<nat, int, string>, filtered: Stream<nat, int, string>)
    ensures rx.Core() == UpstreamAfter(Fresh<nat, int, string>(), filtered, Events.From(values))
    ensures filtered.Core() == Run(Register(Fresh<nat, int, string>(), Some(Callback(0)), Some(PrintStackTrace), Some(Ignore)),
                                   FilterTrace(p, ForwardedTo(filtered, rx.delivered)))
  {
    rx := Stream<nat, int, string>.From(values);
    filtered := rx.Filter(p);
    var _ := filtered.SubscribeItems(Some(Callback(0)));
    assert rx.delivered[0..] == rx.delivered;
    assert filtered.fed == FilterTrace(p, ForwardedTo(filtered, rx.delivered));
    assert rx.fed == Events.From(values);
  }

  /**
   * from(values).filter(p) subscribed with an item handler only: the handler
   * receives exactly the values satisfying `p`, in order, then the default
   * completion handler runs.
   */
  method FilterFromScenario(values: seq<int>, p: int -> bool) returns (received: seq<Delivery<nat, int, string>>)
    ensures var kept := Select(p, values);
      received == seq(|kept|, i requires 0 <= i < |kept| => Delivery(Callback(0), Item(kept[i])))
                  + [Delivery(Ignore, Complete)]
  {
    var rx, filtered := SubscribeFilterOfFrom(values, p);
    FilterOverFrom<nat, int, string>(filtered, p, values, Callback(0), Some(PrintStackTrace), Some(Ignore));
    received := filtered.delivered;
  }

  /** from(1, ..., 6).filter(i -> i % 2 == 0): the subscriber of the filter stream receives 2, 4, 6, then completes. */
  method FilterScenario() returns (received: seq<Delivery<nat, int, string>>)
    ensures received == [Delivery(Callback(0), Item(2)), Delivery(Callback(0), Item(4)),
                         Delivery(Callback(0), Item(6)), Delivery(Ignore, Complete)]
  {
    var even := (i: int) => i % 2 == 0;
    received := FilterFromScenario([1, 2, 3, 4, 5, 6], even);
    EvensUpToSix(even);
  }

  /** The even numbers among 1, ..., 6 are 2, 4 and 6. */
  lemma EvensUpToSix(p: int -> bool)
    requires forall i :: p(i) == (i % 2 == 0)
    ensures Select(p, [1, 2, 3, 4, 5, 6]) == [2, 4, 6]
  {
    assert Select(p, [6]) == [6];
    assert Select(p, [5, 6]) == [6];
    assert Select(p, [4, 5, 6]) == [4, 6];
    assert Select(p, [3, 4, 5, 6]) == [4, 6];
    assert Select(p, [2, 3, 4, 5, 6]) == [2, 4, 6];
  }

  /** create(emit 1, emit 2) subscribed with item handler 0: the handle and the stream it belongs to. */
  method SubscribeOneTwo() returns (rx: Stream<nat, int, string>, sub: Subscription<nat, int, string>)
    ensures fresh(rx) && fresh(sub) && sub.owner == rx && !sub.IsDisposed() && rx.Valid() && rx.Upstreams == {}
    ensures rx.delivered == [Delivery(Callback(0), Item(1)), Delivery(Callback(0), Item(2))]
    ensures rx.fed == [Item(1), Item(2)] && !rx.Core().Terminated()
  {
    rx := Stream<nat, int, string>.Create([Item(1), Item(2)]);
    sub := rx.SubscribeItems(Some(Callback(0)));
    assert rx.fed == [Item(1), Item(2)];
    assert rx.delivered == [Delivery(Callback(0), Item(1)), Delivery(Callback(0), Item(2))];
  }

  /**
   * A stream whose source emits 1 and 2 and never terminates: after its only
   * subscription is disposed (twice; the second call changes nothing), the
   * instance counts as completed, and a later subscriber receives nothing.
   */
  method DisposeScenario() returns (received: seq<Delivery<nat, int, string>>, disposed: bool)
    ensures received == [Delivery(Callback(0), Item(1)), Delivery(Callback(0), Item(2))]
    ensures disposed
  {
    var rx, sub := SubscribeOneTwo();
    sub.Dispose();
    sub.Dispose();
    ghost var before := rx.Core();
    var _ := rx.SubscribeItems(Some(Callback(1)));
    DisposeSilences(before, Some(Callback(1)), Some(PrintStackTrace), Some(Ignore), rx.fed);
    received := rx.delivered;
    disposed := sub.IsDisposed();
  }

  /**
   * What isDisposed reports for the handle subscribe returns: false at first,
   * true once dispose has been called, and still true after a second dispose.
   */
  method DisposedReport() returns (atFirst: bool, afterDispose: bool, afterSecond: bool)
    ensures !atFirst && afterDispose && afterSecond
  {
    var rx := Stream<nat, int, string>.From([1, 2, 3, 4, 5]);
    var sub := rx.SubscribeItems(Some(Callback(0)));
    atFirst := sub.IsDisposed();
    sub.Dispose();
    afterDispose := sub.IsDisposed();
    sub.Dispose();
    afterSecond := sub.IsDisposed();
  }

  /**
   * Handlers accumulate: a source that emits 1 and never terminates, subscribed
   * twice with item handlers only (null error and completion handlers), reaches
   * the first handler on both subscribes and the second handler on the second.
   */
  method AccumulateScenario() returns (received: seq<Delivery<nat, int, string>>)
    ensures received == [Delivery(Callback(0), Item(1)), Delivery(Callback(0), Item(1)), Delivery(Callback(1), Item(1))]
  {
    var rx := Stream<nat, int, string>.Create([Item(1)]);
    var _ := rx.Subscribe(Some(Callback(0)), None, None);
    var _ := rx.Subscribe(Some(Callback(1)), None, None);
    HandlersAccumulate<nat, int, string>(Callback(0), Callback(1), [Item(1)]);
    received := rx.delivered;
  }

  /**
   * create(t).map(f) subscribed twice, first with item handler 0, then with item
   * handler 1 (null error and completion handlers): the states of both instances
   * after each subscribe.
   */
  method SubscribeMapTwice(t: seq<Event<int, string>>, f: int -> int)
    returns (rx: Stream<nat, int, string>, mapped: Stream<nat, int, string>,
             ghost u1: State<nat, int, string>, ghost d1: State<nat, int, string>)
    ensures u1 == UpstreamAfter(Fresh<nat, int, string>(), mapped, t)
    ensures d1 == Run(Register(Fresh<nat, int, string>(), Some(Callback(0)), None, None),
                      MapTrace(f, ForwardedTo(mapped, u1.delivered)))
    ensures rx.Core() == UpstreamAfter(u1, mapped, t) && u1.delivered <= rx.delivered
    ensures mapped.Core() == Run(Register(d1, Some(Callback(1)), None, None),
                                 MapTrace(f, ForwardedTo(mapped, rx.delivered[|u1.delivered|..])))
  {
    rx := Stream<nat, int, string>.Create(t);
    mapped := rx.Map(f);
    var _ := mapped.Subscribe(Some(Callback(0)), None, None);
    assert rx.delivered[0..] == rx.delivered;
    u1, d1 := rx.Core(), mapped.Core();
    var _ := mapped.Subscribe(Some(Callback(1)), None, None);
  }

  /**
   * Accumulation through an operator: create(source emitting 1, never terminating)
   * .map(i -> i + 1) subscribed twice. The second subscribe registers a second
   * forwarding handler on the upstream, so the mapped item reaches the map stream
   * twice, and each time both of its item handlers run.
   */
  method MapAccumulateScenario() returns (received: seq<Delivery<nat, int, string>>)
    ensures received == [Delivery(Callback(0), Item(2)),
                         Delivery(Callback(0), Item(2)), Delivery(Callback(1), Item(2)),
                         Delivery(Callback(0), Item(2)), Delivery(Callback(1), Item(2))]
  {
    var f := (i: int) => i + 1;
    var t: seq<Event<int, string>> := [Item(1)];
    var rx, mapped, u1, d1 := SubscribeMapTwice(t, f);
    MapFirstSubscribe<nat, int, string>(mapped, f, t, Callback(0));
    MapSecondSubscribe<nat, int, string>(mapped, f, t, u1, d1, Callback(0), Callback(1));
    OncePlusTwice(f, t, Callback(0), Callback(1));
    received := mapped.delivered;
  }

  /** The deliveries of the two subscribes above, computed for the item 1 and the mapper i -> i + 1. */
  lemma OncePlusTwice(f: int -> int, one: seq<Event<int, string>>, h1: Handler<nat>, h2: Handler<nat>)
    requires forall i :: f(i) == i + 1
    requires one == [Item(1)]
    ensures Broadcast(Registry([h1], [], []), MapTrace(f, one))
            + Broadcast(Registry([h1, h2], [], []), MapTrace(f, Doubled(one)))
            == [Delivery(h1, Item(2)), Delivery(h1, Item(2)), Delivery(h2, Item(2)), Delivery(h1, Item(2)), Delivery(h2, Item(2))]
  {
    var two: seq<Event<int, string>> := [Item(2)];
    assert MapTrace(f, one) == two;
    assert Doubled(one) == [Item(1), Item(1)];
    assert MapTrace(f, Doubled(one)) == two + two;
    BroadcastAppend(Registry([h1, h2], [], []), two, two);
  }
}
