/**
 * The state of one SimpleRx instance as a value, and what subscribe, the three
 * dispatch callbacks and dispose do to it.  The class `Rx.Stream` is proved to
 * follow these functions; the lemmas here state what they promise.
 */
module Machine {
  import opened Events

  datatype Option<T> = None | Some(value: T)

  /** A registered handler, named by its identity; invoking it is recorded as a delivery. */
  datatype Handler<H> =
    | Callback(id: H)          // a handler the caller passed to subscribe
    | PrintStackTrace          // the error handler the one-argument subscribe adds
    | Ignore                   // the empty completion handler the one-argument subscribe adds
    | Forward(target: object)  // a map/filter forwarding handler into the stream `target`

  /** One invocation of a handler with an event. */
  datatype Delivery<H, V, E> = Delivery(handler: Handler<H>, event: Event<V, E>)

  /** The three handler lists, each in registration order. */
  datatype Registry<H> = Registry(next: seq<Handler<H>>, errors: seq<Handler<H>>, completes: seq<Handler<H>>)
  {
    /** The list whose handlers receive `ev`. */
    function For<V, E>(ev: Event<V, E>): seq<Handler<H>> {
      match ev
      case Item(_) => next
      case Error(_) => errors
      case Complete => completes
    }
  }

  /** Handler lists, the two terminal flags, and every delivery made so far. */
  datatype State<H, V, E> = State(reg: Registry<H>, completed: bool, hasError: bool, delivered: seq<Delivery<H, V, E>>)
  {
    predicate Terminated() {
      completed || hasError
    }
  }

  /** A newly constructed stream: no handlers, neither flag set, nothing delivered. */
  function Fresh<H, V, E>(): State<H, V, E> {
    State(Registry([], [], []), false, false, [])
  }

  /** A handler argument as a list: a null handler contributes nothing. */
  function Present<T>(o: Option<T>): seq<T> {
    if o.Some? then [o.value] else []
  }

  /**
   * The registration half of subscribe: each non-null handler joins the end of its
   * list.  Registration only ever appends: each old list is a prefix of the new one,
   * which is one longer exactly when that handler is non-null and then ends with it;
   * the flags and the deliveries are untouched.
   */
  function Register<H, V, E>(s: State<H, V, E>, onNext: Option<Handler<H>>, onError: Option<Handler<H>>,
                             onComplete: Option<Handler<H>>): (r: State<H, V, E>)
    ensures s.reg.next <= r.reg.next && s.reg.errors <= r.reg.errors && s.reg.completes <= r.reg.completes
    ensures |r.reg.next| == |s.reg.next| + (if onNext.Some? then 1 else 0)
    ensures |r.reg.errors| == |s.reg.errors| + (if onError.Some? then 1 else 0)
    ensures |r.reg.completes| == |s.reg.completes| + (if onComplete.Some? then 1 else 0)
    ensures onNext.Some? ==> r.reg.next[|r.reg.next| - 1] == onNext.value
    ensures onError.Some? ==> r.reg.errors[|r.reg.errors| - 1] == onError.value
    ensures onComplete.Some? ==> r.reg.completes[|r.reg.completes| - 1] == onComplete.value
    ensures r.completed == s.completed && r.hasError == s.hasError && r.delivered == s.delivered
  {
    s.(reg := Registry(s.reg.next + Present(onNext), s.reg.errors + Present(onError),
                       s.reg.completes + Present(onComplete)))
  }

  /** `ev` delivered to each handler of `hs`, in order. */
  function FanOut<H, V, E>(hs: seq<Handler<H>>, ev: Event<V, E>): seq<Delivery<H, V, E>> {
    seq(|hs|, i requires 0 <= i < |hs| => Delivery(hs[i], ev))
  }

  /**
   * One call of a dispatch callback: ignored once a flag is set; otherwise an error
   * sets hasError and a completion sets completed, then every handler of the
   * matching list receives the event.
   */
  function Dispatch<H, V, E>(s: State<H, V, E>, ev: Event<V, E>): (r: State<H, V, E>)
    ensures s.Terminated() ==> r == s
    ensures !s.Terminated() ==> r.completed == ev.Complete? && r.hasError == ev.Error?
    ensures !s.Terminated() ==> r.Terminated() == ev.Terminal() && !(r.completed && r.hasError)
    ensures !s.Terminated() ==> r.delivered == s.delivered + FanOut(s.reg.For(ev), ev)
    ensures r.reg == s.reg
  {
    if s.Terminated() then s
    else s.(completed := ev.Complete?, hasError := ev.Error?,
            delivered := s.delivered + FanOut(s.reg.For(ev), ev))
  }

  /** A source feeding the events of `t` to the dispatch callbacks, one after the other. */
  function Run<H, V, E>(s: State<H, V, E>, t: seq<Event<V, E>>): (r: State<H, V, E>)
    ensures r.reg == s.reg
    ensures s.completed ==> r.completed
    ensures s.hasError ==> r.hasError
    ensures s.delivered <= r.delivered
    decreases |t|
  {
    if t == [] then s else Run(Dispatch(s, t[0]), t[1..])
  }

  /** Every event of `evs` delivered to the whole of its list of `reg`. */
  function Broadcast<H, V, E>(reg: Registry<H>, evs: seq<Event<V, E>>): seq<Delivery<H, V, E>>
    decreases |evs|
  {
    if evs == [] then [] else FanOut(reg.For(evs[0]), evs[0]) + Broadcast(reg, evs[1..])
  }

  /** Subscription.dispose on its first call: completed forced on, the three lists cleared. */
  function Dispose<H, V, E>(s: State<H, V, E>): (r: State<H, V, E>)
    ensures r.completed && r.reg == Registry([], [], [])
    ensures r.delivered == s.delivered && r.hasError == s.hasError
  {
    s.(reg := Registry([], [], []), completed := true)
  }

  /** The events delivered to forwarding handlers into `x`, in delivery order. */
  function ForwardedTo<H, V, E>(x: object, ds: seq<Delivery<H, V, E>>): seq<Event<V, E>>
    decreases |ds|
  {
    if ds == [] then []
    else (if ds[0].handler.Forward? && ds[0].handler.target == x then [ds[0].event] else [])
         + ForwardedTo(x, ds[1..])
  }

  lemma BroadcastCons<H, V, E>(reg: Registry<H>, ev: Event<V, E>, evs: seq<Event<V, E>>)
    ensures Broadcast(reg, [ev] + evs) == FanOut(reg.For(ev), ev) + Broadcast(reg, evs)
  {
    assert ([ev] + evs)[0] == ev;
    assert ([ev] + evs)[1..] == evs;
  }

  /**
   * What a run of a source does, in closed form: the gate lets through `Passed`,
   * each passed event reaches every handler of its list as registered, the handler
   * lists are untouched, and a passed error or completion sets its flag.
   */
  lemma {:induction false} RunDelivers<H, V, E>(s: State<H, V, E>, t: seq<Event<V, E>>)
    ensures var p := Passed(s.Terminated(), t);
      Run(s, t) == s.(completed := s.completed || (p != [] && p[|p| - 1].Complete?),
                      hasError := s.hasError || (p != [] && p[|p| - 1].Error?),
                      delivered := s.delivered + Broadcast(s.reg, p))
    decreases |t|
  {
    if t != [] {
      var s1 := Dispatch(s, t[0]);
      RunDelivers(s1, t[1..]);
      if s.Terminated() {
        assert s1 == s;
      } else {
        var q := Passed(t[0].Terminal(), t[1..]);
        var p := Passed(false, t);
        assert p == [t[0]] + q;
        assert s1.reg == s.reg && s1.Terminated() == t[0].Terminal();
        BroadcastCons(s.reg, t[0], q);
        assert s.delivered + Broadcast(s.reg, p) == s1.delivered + Broadcast(s.reg, q);
        PassedWellFormed(t[0].Terminal(), t[1..]);
        if q != [] {
          assert !t[0].Terminal();
          assert p[|p| - 1] == q[|q| - 1];
        }
      }
    }
  }

  /** On an open instance, a source that emits only items reaches every item handler with each, and leaves it open. */
  lemma RunItems<H, V, E>(s: State<H, V, E>, t: seq<Event<V, E>>)
    requires AllItems(t) && !s.Terminated()
    ensures Run(s, t) == s.(delivered := s.delivered + Broadcast(s.reg, t))
  {
    RunDelivers(s, t);
    assert WellFormed(t);
    PassedWhole(t);
    if t != [] {
      assert t[|t| - 1].Item?;
    }
  }

  /** Once a flag is set, a source can run as it likes: nothing changes. */
  lemma {:induction false} TerminalAbsorbs<H, V, E>(s: State<H, V, E>, t: seq<Event<V, E>>)
    requires s.Terminated()
    ensures Run(s, t) == s
    decreases |t|
  {
    if t != [] {
      TerminalAbsorbs(s, t[1..]);
    }
  }

  /** An error and a completion never both get through one gate: the first one wins. */
  lemma RunExclusive<H, V, E>(s: State<H, V, E>, t: seq<Event<V, E>>)
    requires !s.Terminated()
    ensures !(Run(s, t).completed && Run(s, t).hasError)
    ensures |Passed(false, t)| < |t| ==> Run(s, t).Terminated()
  {
    RunDelivers(s, t);
    PassedCut(false, t);
  }

  /** An open instance ends terminated exactly when its gate let a terminal event through. */
  lemma RunTerminates<H, V, E>(s: State<H, V, E>, t: seq<Event<V, E>>)
    requires !s.Terminated()
    ensures Run(s, t).Terminated() == !AllItems(Passed(false, t))
  {
    RunDelivers(s, t);
    PassedWellFormed(false, t);
    var p := Passed(false, t);
    if p != [] && !p[|p| - 1].Terminal() {
      assert AllItems(p);
    }
  }

  /**
   * A first subscriber on a fresh instance whose source makes well-formed calls:
   * every call reaches the whole of its list, and the instance ends with the flag of
   * the last call if that one is terminal.
   */
  lemma RunFresh<H, V, E>(h: Handler<H>, onError: Option<Handler<H>>, onComplete: Option<Handler<H>>,
                          t: seq<Event<V, E>>)
    requires WellFormed(t)
    ensures var d := Run(Register(Fresh<H, V, E>(), Some(h), onError, onComplete), t);
      && d.delivered == Broadcast(Registry([h], Present(onError), Present(onComplete)), t)
      && d.completed == (t != [] && t[|t| - 1].Complete?)
      && d.hasError == (t != [] && t[|t| - 1].Error?)
  {
    var r := Register(Fresh<H, V, E>(), Some(h), onError, onComplete);
    assert r.reg == Registry([h], Present(onError), Present(onComplete));
    PassedWhole(t);
    RunDelivers(r, t);
  }

  /** Feeding two traces one after the other is feeding their concatenation. */
  lemma {:induction false} RunAppend<H, V, E>(s: State<H, V, E>, a: seq<Event<V, E>>, b: seq<Event<V, E>>)
    ensures Run(Run(s, a), b) == Run(s, a + b)
    decreases |a|
  {
    if a == [] {
      assert a + b == b;
    } else {
      assert (a + b)[0] == a[0];
      assert (a + b)[1..] == a[1..] + b;
      RunAppend(Dispatch(s, a[0]), a[1..], b);
    }
  }

  /**
   * A later subscribe on a stream that has already terminated (or been disposed)
   * still appends its handlers, but its source reaches no handler at all.
   */
  lemma SubscribeAfterTerminal<H, V, E>(s: State<H, V, E>, onNext: Option<Handler<H>>, onError: Option<Handler<H>>,
                                        onComplete: Option<Handler<H>>, t: seq<Event<V, E>>)
    requires s.Terminated()
    ensures Run(Register(s, onNext, onError, onComplete), t) == Register(s, onNext, onError, onComplete)
    ensures Run(Register(s, onNext, onError, onComplete), t).delivered == s.delivered
  {
    TerminalAbsorbs(Register(s, onNext, onError, onComplete), t);
  }

  /** After dispose, handlers registered later are kept but receive nothing. */
  lemma DisposeSilences<H, V, E>(s: State<H, V, E>, onNext: Option<Handler<H>>, onError: Option<Handler<H>>,
                                 onComplete: Option<Handler<H>>, t: seq<Event<V, E>>)
    ensures var r := Run(Register(Dispose(s), onNext, onError, onComplete), t);
      r.delivered == s.delivered && r.completed &&
      r.reg == Registry(Present(onNext), Present(onError), Present(onComplete))
  {
    SubscribeAfterTerminal(Dispose(s), onNext, onError, onComplete, t);
  }

  /** Disposing a second time changes nothing. */
  lemma DisposeIdempotent<H, V, E>(s: State<H, V, E>)
    ensures Dispose(Dispose(s)) == Dispose(s)
  {
  }

  /** Everything that can happen to one stream instance from outside: a subscribe (with its source's trace) or a dispose. */
  datatype Call<H, V, E> =
    | SubscribeCall(onNext: Option<Handler<H>>, onError: Option<Handler<H>>, onComplete: Option<Handler<H>>,
                    feed: seq<Event<V, E>>)
    | DisposeCall

  function Perform<H, V, E>(s: State<H, V, E>, c: Call<H, V, E>): State<H, V, E> {
    match c
    case SubscribeCall(n, e, d, feed) => Run(Register(s, n, e, d), feed)
    case DisposeCall => Dispose(s)
  }

  /** The events that got through the gate over a sequence of calls, in order. */
  function History<H, V, E>(s: State<H, V, E>, calls: seq<Call<H, V, E>>): seq<Event<V, E>>
    decreases |calls|
  {
    if calls == [] then []
    else (if calls[0].SubscribeCall? then Passed(s.Terminated(), calls[0].feed) else [])
         + History(Perform(s, calls[0]), calls[1..])
  }

  /** The state after a sequence of calls. */
  function After<H, V, E>(s: State<H, V, E>, calls: seq<Call<H, V, E>>): State<H, V, E>
    decreases |calls|
  {
    if calls == [] then s else After(Perform(s, calls[0]), calls[1..])
  }

  /**
   * Neither flag is ever cleared: once set, it stays set whatever subscribes and
   * disposes follow, and the record of deliveries only grows.
   */
  lemma {:induction false} FlagsNeverReset<H, V, E>(s: State<H, V, E>, calls: seq<Call<H, V, E>>)
    ensures s.completed ==> After(s, calls).completed
    ensures s.hasError ==> After(s, calls).hasError
    ensures s.delivered <= After(s, calls).delivered
    decreases |calls|
  {
    if calls != [] {
      var s1 := Perform(s, calls[0]);
      FlagsNeverReset(s1, calls[1..]);
    }
  }

  lemma WellFormedAppend<V, E>(a: seq<Event<V, E>>, b: seq<Event<V, E>>)
    requires AllItems(a) && WellFormed(b)
    ensures WellFormed(a + b)
  {
    forall i | 0 <= i < |a + b| - 1 ensures (a + b)[i].Item? {
      if i >= |a| { assert (a + b)[i] == b[i - |a|]; }
    }
  }

  /**
   * Whatever the subscribes and disposes, over the whole life of an instance at most
   * one terminal event gets through, and it is the last event that does; a stream
   * that starts terminated lets nothing through ever.
   */
  lemma {:induction false} AtMostOneTerminal<H, V, E>(s: State<H, V, E>, calls: seq<Call<H, V, E>>)
    ensures WellFormed(History(s, calls))
    ensures s.Terminated() ==> History(s, calls) == []
    decreases |calls|
  {
    if calls != [] {
      var s1 := Perform(s, calls[0]);
      AtMostOneTerminal(s1, calls[1..]);
      var p := if calls[0].SubscribeCall? then Passed(s.Terminated(), calls[0].feed) else [];
      assert History(s, calls) == p + History(s1, calls[1..]);
      PerformGate(s, calls[0]);
      if AllItems(p) {
        WellFormedAppend(p, History(s1, calls[1..]));
      }
    }
  }

  /**
   * One call from outside: what its gate lets through is well formed, nothing once
   * terminated; a terminated instance stays so, and unless only items got through
   * (or it was a dispose) the instance is terminated afterwards.
   */
  lemma PerformGate<H, V, E>(s: State<H, V, E>, c: Call<H, V, E>)
    ensures var p := if c.SubscribeCall? then Passed(s.Terminated(), c.feed) else [];
      && WellFormed(p) && (s.Terminated() ==> p == [] && Perform(s, c).Terminated())
      && (AllItems(p) || Perform(s, c).Terminated())
      && (c.DisposeCall? ==> Perform(s, c).Terminated())
  {
    if c.SubscribeCall? {
      PassedWellFormed(s.Terminated(), c.feed);
      if !s.Terminated() {
        RunTerminates(Register(s, c.onNext, c.onError, c.onComplete), c.feed);
      }
    }
  }

  /** How many times a forwarding handler into `x` occurs in `hs`. */
  function ForwardCount<H>(hs: seq<Handler<H>>, x: object): nat
    decreases |hs|
  {
    if hs == [] then 0
    else (if hs[0].Forward? && hs[0].target == x then 1 else 0) + ForwardCount(hs[1..], x)
  }

  lemma {:induction false} ForwardCountAppend<H>(a: seq<Handler<H>>, b: seq<Handler<H>>, x: object)
    ensures ForwardCount(a + b, x) == ForwardCount(a, x) + ForwardCount(b, x)
    decreases |a|
  {
    if a == [] {
      assert a + b == b;
    } else {
      assert (a + b)[0] == a[0];
      assert (a + b)[1..] == a[1..] + b;
      ForwardCountAppend(a[1..], b, x);
    }
  }

  lemma {:induction false} ForwardedAppend<H, V, E>(x: object, a: seq<Delivery<H, V, E>>, b: seq<Delivery<H, V, E>>)
    ensures ForwardedTo(x, a + b) == ForwardedTo(x, a) + ForwardedTo(x, b)
    decreases |a|
  {
    if a == [] {
      assert a + b == b;
    } else {
      assert (a + b)[0] == a[0];
      assert (a + b)[1..] == a[1..] + b;
      ForwardedAppend(x, a[1..], b);
    }
  }

  /** `n` copies of `ev`. */
  function Copies<V, E>(ev: Event<V, E>, n: nat): seq<Event<V, E>> {
    seq(n, _ => ev)
  }

  /** One dispatch reaches the stream `x` once per forwarding handler into `x` in the list. */
  lemma {:induction false} ForwardedFanOut<H, V, E>(x: object, hs: seq<Handler<H>>, ev: Event<V, E>)
    ensures ForwardedTo(x, FanOut(hs, ev)) == Copies(ev, ForwardCount(hs, x))
    decreases |hs|
  {
    if hs != [] {
      var d := FanOut(hs, ev);
      assert d == [Delivery(hs[0], ev)] + FanOut(hs[1..], ev);
      ForwardedAppend(x, [Delivery(hs[0], ev)], FanOut(hs[1..], ev));
      ForwardedFanOut(x, hs[1..], ev);
      var k := ForwardCount(hs[1..], x);
      if hs[0].Forward? && hs[0].target == x {
        assert [ev] + Copies(ev, k) == Copies(ev, k + 1);
      } else {
        assert ForwardedTo(x, [Delivery(hs[0], ev)]) == [];
      }
    }
  }

  /**
   * What a downstream operator stream `x` receives through its forwarding handlers
   * while its upstream broadcasts `evs`: each event as many times as `x` is
   * registered in the matching list (handlers accumulate across subscribes).
   */
  function Echo<H, V, E>(reg: Registry<H>, x: object, evs: seq<Event<V, E>>): seq<Event<V, E>>
    decreases |evs|
  {
    if evs == [] then [] else Copies(evs[0], ForwardCount(reg.For(evs[0]), x)) + Echo(reg, x, evs[1..])
  }

  lemma {:induction false} ForwardedBroadcast<H, V, E>(x: object, reg: Registry<H>, evs: seq<Event<V, E>>)
    ensures ForwardedTo(x, Broadcast(reg, evs)) == Echo(reg, x, evs)
    decreases |evs|
  {
    if evs != [] {
      ForwardedAppend(x, FanOut(reg.For(evs[0]), evs[0]), Broadcast(reg, evs[1..]));
      ForwardedFanOut(x, reg.For(evs[0]), evs[0]);
      ForwardedBroadcast(x, reg, evs[1..]);
    }
  }

  /** Registered exactly once in each list, the downstream receives every broadcast event exactly once, in order. */
  lemma {:induction false} EchoOnce<H, V, E>(reg: Registry<H>, x: object, evs: seq<Event<V, E>>)
    requires ForwardCount(reg.next, x) == 1 && ForwardCount(reg.errors, x) == 1 && ForwardCount(reg.completes, x) == 1
    ensures Echo(reg, x, evs) == evs
    decreases |evs|
  {
    if evs != [] {
      EchoOnce(reg, x, evs[1..]);
      assert Copies(evs[0], 1) == [evs[0]];
      assert evs == [evs[0]] + evs[1..];
    }
  }

  /**
   * The upstream half of subscribing to a `map`/`filter` stream `x` for the first
   * time: the upstream registers one forwarding handler into `x` per list and runs
   * its source `t`; what reaches `x` is exactly what the upstream's gate let through.
   */
  lemma ForwardedOnce<H, V, E>(u: State<H, V, E>, x: object, t: seq<Event<V, E>>)
    requires ForwardCount(u.reg.next, x) == 0 && ForwardCount(u.reg.errors, x) == 0
    requires ForwardCount(u.reg.completes, x) == 0
    ensures var u' := Run(Register(u, Some(Forward(x)), Some(Forward(x)), Some(Forward(x))), t);
      u.delivered <= u'.delivered &&
      ForwardedTo(x, u'.delivered[|u.delivered|..]) == Passed(u.Terminated(), t)
  {
    var r := Register(u, Some(Forward(x)), Some(Forward(x)), Some(Forward(x)));
    RunDelivers(r, t);
    var p := Passed(u.Terminated(), t);
    var u' := Run(r, t);
    assert u'.delivered[|u.delivered|..] == Broadcast(r.reg, p);
    ForwardCountAppend(u.reg.next, [Forward(x)], x);
    ForwardCountAppend(u.reg.errors, [Forward(x)], x);
    ForwardCountAppend(u.reg.completes, [Forward(x)], x);
    ForwardedBroadcast(x, r.reg, p);
    EchoOnce(r.reg, x, p);
  }

  /** A single item handler receives each value of `vs` once, in input order. */
  lemma {:induction false} BroadcastItems<H, V, E>(reg: Registry<H>, h: Handler<H>, vs: seq<V>)
    requires reg.next == [h]
    ensures Broadcast(reg, Items<V, E>(vs)) == seq(|vs|, i requires 0 <= i < |vs| => Delivery(h, Item(vs[i])))
    decreases |vs|
  {
    if vs != [] {
      var t := Items<V, E>(vs);
      assert t == [Item(vs[0])] + Items<V, E>(vs[1..]);
      BroadcastCons(reg, Item(vs[0]), Items<V, E>(vs[1..]));
      BroadcastItems<H, V, E>(reg, h, vs[1..]);
      var first: Event<V, E> := Item(vs[0]);
      assert FanOut(reg.For(first), first) == [Delivery(h, first)];
    }
  }

  lemma {:induction false} BroadcastAppend<H, V, E>(reg: Registry<H>, a: seq<Event<V, E>>, b: seq<Event<V, E>>)
    ensures Broadcast(reg, a + b) == Broadcast(reg, a) + Broadcast(reg, b)
    decreases |a|
  {
    if a == [] {
      assert a + b == b;
    } else {
      assert (a + b)[0] == a[0];
      assert (a + b)[1..] == a[1..] + b;
      BroadcastAppend(reg, a[1..], b);
    }
  }

  /** Broadcasting from's trace: the single item handler gets every value in order, then every completion handler runs. */
  lemma FromBroadcast<H, V, E>(reg: Registry<H>, h: Handler<H>, vs: seq<V>)
    requires reg.next == [h]
    ensures Broadcast(reg, From<V, E>(vs))
            == seq(|vs|, i requires 0 <= i < |vs| => Delivery(h, Item(vs[i]))) + FanOut(reg.completes, Complete)
  {
    BroadcastAppend(reg, Items<V, E>(vs), [Complete]);
    BroadcastItems<H, V, E>(reg, h, vs);
    BroadcastCons<H, V, E>(reg, Complete, []);
  }

  /**
   * `from(vs)` subscribed on a fresh instance with one item handler: that handler
   * receives every value in order, each completion handler runs once, the error
   * handlers never run, and the stream ends completed.
   */
  lemma FromDelivers<H, V, E>(h: Handler<H>, onError: Option<Handler<H>>, onComplete: Option<Handler<H>>, vs: seq<V>)
    ensures var r := Run(Register(Fresh<H, V, E>(), Some(h), onError, onComplete), From<V, E>(vs));
      && r.delivered == seq(|vs|, i requires 0 <= i < |vs| => Delivery(h, Item(vs[i])))
                        + FanOut(Present(onComplete), Complete)
      && r.completed && !r.hasError
  {
    var t := From<V, E>(vs);
    RunFresh<H, V, E>(h, onError, onComplete, t);
    assert t[|t| - 1] == Complete;
    FromBroadcast<H, V, E>(Registry([h], Present(onError), Present(onComplete)), h, vs);
  }
}
