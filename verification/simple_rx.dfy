/**
 * SimpleRx itself: a stream instance with its three handler lists and two terminal
 * flags, the subscribe that registers handlers and runs the source through three
 * gated dispatch callbacks, the factories, the map/filter operators, and the
 * Subscription handle whose dispose tears the instance down.
 *
 * Each method is proved against the value-level functions of `Machine`: its
 * postcondition gives the instance's new `Core()` in terms of the old one.
 */
module Rx {
  import opened Events
  import opened Machine

  /** A stream's source function. */
  datatype Source<H, !V, E> =
    | Emit(trace: seq<Event<V, E>>)               // just, from, error, create: the calls the source makes
    | Mapped(up: Stream<H, V, E>, f: V -> V)       // map(f) applied to `up`
    | Filtered(up: Stream<H, V, E>, p: V -> bool)  // filter(p) applied to `up`
  {
    /** The calls an operator source makes on the dispatch callbacks, given what its forwarding handlers received. */
    function Transform(received: seq<Event<V, E>>): seq<Event<V, E>> {
      match this
      case Emit(trace) => trace
      case Mapped(_, f) => MapTrace(f, received)
      case Filtered(_, p) => FilterTrace(p, received)
    }
  }

  /**
   * What a stream `x` with source `src` was fed in a subscribe during which its
   * upstream's record went from `before` to `after`: the trace itself, or the
   * transformed events that reached forwarding handlers into `x` meanwhile.
   */
  ghost predicate FedBy<H, V, E>(src: Source<H, V, E>, x: object, fed: seq<Event<V, E>>,
                                 before: seq<Delivery<H, V, E>>, after: seq<Delivery<H, V, E>>)
  {
    if src.Emit? then fed == src.trace
    else before <= after && fed == src.Transform(ForwardedTo(x, after[|before|..]))
  }

  class Stream<H, V, E> {
    var nextHandlers: seq<Handler<H>>
    var errorHandlers: seq<Handler<H>>
    var completeHandlers: seq<Handler<H>>
    const source: Source<H, V, E>
    var completed: bool
    var hasError: bool
    /** Every handler invocation made by this instance, in order. */
    var delivered: seq<Delivery<H, V, E>>
    /** The calls the source made on the dispatch callbacks during the latest subscribe. */
    ghost var fed: seq<Event<V, E>>
    /** The number of operators between this stream and the stream whose source is a trace. */
    ghost const depth: nat
    /** The streams this one subscribes to, directly or through other operators. */
    ghost const Upstreams: set<Stream<H, V, E>>

    /** The operator chain above this stream is finite and acyclic. */
    ghost predicate Valid()
      decreases depth
      ensures Valid() ==> forall s :: s in Upstreams ==> s.depth < depth
    {
      if source.Emit? then Upstreams == {}
      else source.up.depth < depth && source.up.Valid() && Upstreams == {source.up} + source.up.Upstreams
    }

    /** The instance's state as a value. */
    ghost function Core(): State<H, V, E>
      reads this
    {
      State(Registry(nextHandlers, errorHandlers, completeHandlers), completed, hasError, delivered)
    }

    /** The private constructor every factory and operator goes through. */
    constructor (src: Source<H, V, E>)
      requires !src.Emit? ==> src.up.Valid()
      ensures source == src && Valid()
      ensures Core() == Fresh() && fed == []
    {
      source := src;
      if src.Emit? {
        depth := 0;
        Upstreams := {};
      } else {
        depth := src.up.depth + 1;
        Upstreams := {src.up} + src.up.Upstreams;
      }
      nextHandlers, errorHandlers, completeHandlers := [], [], [];
      completed, hasError := false, false;
      delivered := [];
      fed := [];
    }

    /** `just(v)`: a new stream whose source emits `v`, then completes. */
    static method Just(v: V) returns (s: Stream<H, V, E>)
      ensures fresh(s) && s.Valid() && s.Core() == Fresh()
      ensures s.Upstreams == {}
      ensures s.source == Emit([Item(v), Complete])
    {
      s := new Stream(Emit(Events.Just(v)));
    }

    /** `from(values...)`: a new stream whose source emits each value in order, then completes. */
    static method From(values: seq<V>) returns (s: Stream<H, V, E>)
      ensures fresh(s) && s.Valid() && s.Core() == Fresh()
      ensures s.Upstreams == {}
      ensures s.source == Emit(Events.From(values))
    {
      s := new Stream(Emit(Events.From(values)));
    }

    /** `error(e)`: a new stream whose source signals `e` and nothing else. */
    static method Error(e: E) returns (s: Stream<H, V, E>)
      ensures fresh(s) && s.Valid() && s.Core() == Fresh()
      ensures s.Upstreams == {}
      ensures s.source == Emit([Event.Error(e)])
    {
      s := new Stream(Emit(Fail(e)));
    }

    /** `create(source)`: a new stream whose source makes exactly the calls of `trace`. */
    static method Create(trace: seq<Event<V, E>>) returns (s: Stream<H, V, E>)
      ensures fresh(s) && s.Valid() && s.Core() == Fresh()
      ensures s.Upstreams == {}
      ensures s.source == Emit(trace)
    {
      s := new Stream(Emit(trace));
    }

    /** `map(f)`: a new stream whose source subscribes to this one and re-emits `f` of each item. */
    method Map(f: V -> V) returns (s: Stream<H, V, E>)
      requires Valid()
      ensures fresh(s) && s.Valid() && s.Core() == Fresh()
      ensures s.Upstreams == {this} + Upstreams
      ensures s.source.Mapped? && s.source.up == this && s.source.f == f
    {
      s := new Stream(Mapped(this, f));
    }

    /** `filter(p)`: a new stream whose source subscribes to this one and re-emits the items satisfying `p`. */
    method Filter(p: V -> bool) returns (s: Stream<H, V, E>)
      requires Valid()
      ensures fresh(s) && s.Valid() && s.Core() == Fresh()
      ensures s.Upstreams == {this} + Upstreams
      ensures s.source.Filtered? && s.source.up == this && s.source.p == p
    {
      s := new Stream(Filtered(this, p));
    }

    /** Invokes every handler of `hs` with `ev`, in list order. */
    method Invoke(hs: seq<Handler<H>>, ev: Event<V, E>)
      modifies this`delivered
      ensures delivered == old(delivered) + FanOut(hs, ev)
    {
      for i := 0 to |hs|
        invariant delivered == old(delivered) + FanOut(hs[..i], ev)
      {
        assert FanOut(hs[..i + 1], ev) == FanOut(hs[..i], ev) + [Delivery(hs[i], ev)];
        delivered := delivered + [Delivery(hs[i], ev)];
      }
      assert hs[..|hs|] == hs;
    }

    /** The item dispatch callback: every item handler, in order, unless a terminal flag is set. */
    method DispatchItem(v: V)
      modifies this`delivered
      ensures Core() == Dispatch(old(Core()), Item(v))
      ensures old(completed || hasError) ==> delivered == old(delivered)
      ensures !old(completed || hasError) ==> delivered == old(delivered) + FanOut(nextHandlers, Item(v))
    {
      if !completed && !hasError {
        Invoke(nextHandlers, Item(v));
      }
    }

    /** The error dispatch callback: from the non-terminal state only, set hasError, then every error handler. */
    method DispatchError(e: E)
      modifies this`hasError, this`delivered
      ensures Core() == Dispatch(old(Core()), Event.Error(e))
      ensures hasError == old(hasError || !completed)
      ensures old(completed || hasError) ==> delivered == old(delivered)
      ensures !old(completed || hasError) ==> delivered == old(delivered) + FanOut(errorHandlers, Event.Error(e))
    {
      if !completed && !hasError {
        hasError := true;
        Invoke(errorHandlers, Event.Error(e));
      }
    }

    /** The completion dispatch callback: from the non-terminal state only, set completed, then every completion handler. */
    method DispatchComplete()
      modifies this`completed, this`delivered
      ensures Core() == Dispatch(old(Core()), Complete)
      ensures completed == old(completed || !hasError)
      ensures old(completed || hasError) ==> delivered == old(delivered)
      ensures !old(completed || hasError) ==> delivered == old(delivered) + FanOut(completeHandlers, Complete)
    {
      if !completed && !hasError {
        completed := true;
        Invoke(completeHandlers, Complete);
      }
    }

    /** A source making the calls of `events` on the three dispatch callbacks, one after the other. */
    method Feed(events: seq<Event<V, E>>)
      modifies this`completed, this`hasError, this`delivered
      ensures Core() == Run(old(Core()), events)
    {
      for i := 0 to |events|
        invariant Run(Core(), events[i..]) == Run(old(Core()), events)
      {
        assert events[i..][0] == events[i] && events[i..][1..] == events[i + 1..];
        match events[i]
        case Item(v) => DispatchItem(v);
        case Error(e) => DispatchError(e);
        case Complete => DispatchComplete();
      }
    }

    /**
     * subscribe(onNext, onError, onComplete): appends each non-null handler to its
     * list, then runs the source with the three dispatch callbacks.  For a map or
     * filter stream the source subscribes to the upstream with forwarding handlers
     * into this stream, and feeds this stream's callbacks with what those received.
     */
    method Subscribe(onNext: Option<Handler<H>>, onError: Option<Handler<H>>, onComplete: Option<Handler<H>>)
      returns (sub: Subscription<H, V, E>)
      requires Valid()
      modifies this, Upstreams
      decreases depth, 1
      ensures fresh(sub) && sub.owner == this && !sub.IsDisposed()
      ensures Core() == Run(Register(old(Core()), onNext, onError, onComplete), fed)
      ensures source.Emit? ==> fed == source.trace
      ensures !source.Emit? ==> FedBy(source, this, fed, old(source.up.delivered), source.up.delivered)
      ensures !source.Emit? ==>
        source.up.Core() == Run(Register(old(source.up.Core()), Some(Forward(this)), Some(Forward(this)),
                                         Some(Forward(this))), source.up.fed)
      ensures !source.Emit? && source.up.source.Emit? ==> source.up.fed == source.up.source.trace
      ensures !source.Emit? && !source.up.source.Emit? ==>
        FedBy(source.up.source, source.up, source.up.fed, old(source.up.source.up.delivered), source.up.source.up.delivered)
    {
      AddHandlers(onNext, onError, onComplete);
      var events: seq<Event<V, E>>;
      if source.Emit? {
        events := source.trace;
      } else {
        events := Pull();
      }
      Consume(events);
      sub := new Subscription(this);
    }

    /** The first half of subscribe: each non-null handler appended to its list. */
    method AddHandlers(onNext: Option<Handler<H>>, onError: Option<Handler<H>>, onComplete: Option<Handler<H>>)
      modifies this`nextHandlers, this`errorHandlers, this`completeHandlers
      ensures Core() == Register(old(Core()), onNext, onError, onComplete)
    {
      if onNext.Some? {
        nextHandlers := nextHandlers + [onNext.value];
      }
      if onError.Some? {
        errorHandlers := errorHandlers + [onError.value];
      }
      if onComplete.Some? {
        completeHandlers := completeHandlers + [onComplete.value];
      }
    }

    /** The second half of subscribe: the source's calls `events` made on the three dispatch callbacks. */
    method Consume(events: seq<Event<V, E>>)
      modifies this`fed, this`completed, this`hasError, this`delivered
      ensures fed == events && Core() == Run(old(Core()), events)
    {
      fed := events;
      Feed(events);
    }

    /**
     * The source of a map or filter stream: subscribes to the upstream with a
     * forwarding handler into this stream on each of its three lists, and returns
     * what those handlers received, mapped by `f` or filtered by `p`.
     */
    method Pull() returns (events: seq<Event<V, E>>)
      requires Valid() && !source.Emit?
      modifies Upstreams
      decreases depth, 0
      ensures FedBy(source, this, events, old(source.up.delivered), source.up.delivered)
      ensures source.up.Core() == Run(Register(old(source.up.Core()), Some(Forward(this)), Some(Forward(this)),
                                               Some(Forward(this))), source.up.fed)
      ensures source.up.source.Emit? ==> source.up.fed == source.up.source.trace
      ensures !source.up.source.Emit? ==>
        FedBy(source.up.source, source.up, source.up.fed, old(source.up.source.up.delivered), source.up.source.up.delivered)
    {
      var up := source.up;
      var start := |up.delivered|;
      var _ := up.Subscribe(Some(Forward(this)), Some(Forward(this)), Some(Forward(this)));
      var received := ForwardedTo(this, up.delivered[start..]);
      events := source.Transform(received);
    }

    /** subscribe(onNext): the item handler, plus a default error handler that prints the error and an empty completion handler. */
    method SubscribeItems(onNext: Option<Handler<H>>) returns (sub: Subscription<H, V, E>)
      requires Valid()
      modifies this, Upstreams
      ensures fresh(sub) && sub.owner == this && !sub.IsDisposed()
      ensures Core() == Run(Register(old(Core()), onNext, Some(PrintStackTrace), Some(Ignore)), fed)
      ensures source.Emit? ==> fed == source.trace
      ensures !source.Emit? ==> FedBy(source, this, fed, old(source.up.delivered), source.up.delivered)
      ensures !source.Emit? ==>
        source.up.Core() == Run(Register(old(source.up.Core()), Some(Forward(this)), Some(Forward(this)),
                                         Some(Forward(this))), source.up.fed)
      ensures !source.Emit? && source.up.source.Emit? ==> source.up.fed == source.up.source.trace
      ensures !source.Emit? && !source.up.source.Emit? ==>
        FedBy(source.up.source, source.up, source.up.fed, old(source.up.source.up.delivered), source.up.source.up.delivered)
    {
      sub := Subscribe(onNext, Some(PrintStackTrace), Some(Ignore));
    }
  }

  /** The handle a subscribe returns: disposing it tears down the stream it came from. */
  class Subscription<H, V, E> {
    const owner: Stream<H, V, E>
    var disposed: bool

    constructor (owner: Stream<H, V, E>)
      ensures this.owner == owner && !disposed
    {
      this.owner := owner;
      disposed := false;
    }

    /**
     * The first call marks the handle disposed, forces the owner's completed flag on
     * and empties its three handler lists; later calls change nothing.
     */
    method Dispose()
      modifies this, owner
      ensures IsDisposed()
      ensures old(disposed) ==> unchanged(this) && unchanged(owner)
      ensures !old(disposed) ==> owner.Core() == Machine.Dispose(old(owner.Core()))
      ensures owner.fed == old(owner.fed)
    {
      if !disposed {
        disposed := true;
        owner.completed := true;
        owner.nextHandlers := [];
        owner.errorHandlers := [];
        owner.completeHandlers := [];
      }
    }

    /** isDisposed: reads the flag and changes nothing. */
    function IsDisposed(): bool
      reads this
    {
      disposed
    }
  }
}
