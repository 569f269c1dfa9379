/**
 * What a subscriber of a `map` or `filter` stream receives, put together from the
 * upstream's run (which reaches this stream through its forwarding handlers) and
 * this stream's own run; and what handler accumulation across subscribes does.
 */
module Operators {
  import opened Events
  import opened Machine

  /** The upstream's state after a subscribe by an operator stream `x` that runs the upstream source `t`. */
  function UpstreamAfter<H, V, E>(u: State<H, V, E>, x: object, t: seq<Event<V, E>>): State<H, V, E> {
    Run(Register(u, Some(Forward(x)), Some(Forward(x)), Some(Forward(x))), t)
  }

  /**
   * `from(vs).map(f)` subscribed once, both instances fresh: the item handler
   * receives `f(v)` for every value in input order, every completion handler runs
   * once after them, and no error handler runs.
   */
  lemma MapOverFrom<H, V, W, E>(x: object, f: V -> W, vs: seq<V>, h: Handler<H>,
                                onError: Option<Handler<H>>, onComplete: Option<Handler<H>>)
    ensures var u := UpstreamAfter(Fresh<H, V, E>(), x, From<V, E>(vs));
      var d := Run(Register(Fresh<H, W, E>(), Some(h), onError, onComplete), MapTrace(f, ForwardedTo(x, u.delivered)));
      && d.delivered == seq(|vs|, i requires 0 <= i < |vs| => Delivery(h, Item(f(vs[i]))))
                        + FanOut(Present(onComplete), Complete)
      && d.completed && !d.hasError
  {
    var u := UpstreamAfter(Fresh<H, V, E>(), x, From<V, E>(vs));
    var ws := Apply(f, vs);
    FromForwarded<H, V, E>(x, vs);
    MapFrom<V, W, E>(f, vs);
    assert MapTrace(f, ForwardedTo(x, u.delivered)) == From<W, E>(ws);
    FromDelivers<H, W, E>(h, onError, onComplete, ws);
    var viaApply: seq<Delivery<H, W, E>> := seq(|ws|, i requires 0 <= i < |ws| => Delivery(h, Item(ws[i])));
    var direct: seq<Delivery<H, W, E>> := seq(|vs|, i requires 0 <= i < |vs| => Delivery(h, Item(f(vs[i]))));
    assert viaApply == direct;
  }

  /** On a first subscribe by `x`, what reaches `x` from a fresh `from(vs)` is the whole of its calls. */
  lemma FromForwarded<H, V, E>(x: object, vs: seq<V>)
    ensures ForwardedTo(x, UpstreamAfter(Fresh<H, V, E>(), x, From<V, E>(vs)).delivered) == From<V, E>(vs)
  {
    var t := From<V, E>(vs);
    var u := UpstreamAfter(Fresh<H, V, E>(), x, t);
    ForwardedOnce(Fresh<H, V, E>(), x, t);
    assert u.delivered[0..] == u.delivered;
    FromPasses<V, E>(vs);
  }

  /**
   * `from(vs).filter(p)` subscribed once, both instances fresh: the item handler
   * receives exactly the values satisfying `p`, in their original order, then
   * every completion handler runs once.
   */
  lemma FilterOverFrom<H, V, E>(x: object, p: V -> bool, vs: seq<V>, h: Handler<H>,
                                onError: Option<Handler<H>>, onComplete: Option<Handler<H>>)
    ensures var u := UpstreamAfter(Fresh<H, V, E>(), x, From<V, E>(vs));
      var d := Run(Register(Fresh<H, V, E>(), Some(h), onError, onComplete), FilterTrace(p, ForwardedTo(x, u.delivered)));
      var kept := Select(p, vs);
      && d.delivered == seq(|kept|, i requires 0 <= i < |kept| => Delivery(h, Item(kept[i])))
                        + FanOut(Present(onComplete), Complete)
      && d.completed && !d.hasError
  {
    var u := UpstreamAfter(Fresh<H, V, E>(), x, From<V, E>(vs));
    ForwardedOnce(Fresh<H, V, E>(), x, From<V, E>(vs));
    assert u.delivered[0..] == u.delivered;
    PassedWhole(From<V, E>(vs));
    FilterFrom<V, E>(p, vs);
    FromDelivers<H, V, E>(h, onError, onComplete, Select(p, vs));
  }

  /**
   * An operator stream `x` whose upstream is open and has never seen `x` before:
   * whatever the upstream's source `t`, `x` is fed `f` of exactly the events the
   * upstream's gate let through, each once, in order, and so at most one terminal
   * event, at the end.
   */
  lemma MapFeed<H, V, W, E>(u: State<H, V, E>, x: object, f: V -> W, t: seq<Event<V, E>>)
    requires ForwardCount(u.reg.next, x) == 0 && ForwardCount(u.reg.errors, x) == 0
    requires ForwardCount(u.reg.completes, x) == 0
    ensures var u' := UpstreamAfter(u, x, t);
      && u.delivered <= u'.delivered
      && MapTrace(f, ForwardedTo(x, u'.delivered[|u.delivered|..])) == MapTrace(f, Passed(u.Terminated(), t))
      && WellFormed(MapTrace(f, ForwardedTo(x, u'.delivered[|u.delivered|..])))
  {
    ForwardedOnce(u, x, t);
    PassedWellFormed(u.Terminated(), t);
    var m := MapTrace(f, Passed(u.Terminated(), t));
    forall i | 0 <= i < |m| - 1 ensures m[i].Item? {
      assert Passed(u.Terminated(), t)[i].Item?;
    }
  }

  /** The same for `filter(p)`: the items of the upstream's passed events that satisfy `p`, and its terminal event. */
  lemma FilterFeed<H, V, E>(u: State<H, V, E>, x: object, p: V -> bool, t: seq<Event<V, E>>)
    requires ForwardCount(u.reg.next, x) == 0 && ForwardCount(u.reg.errors, x) == 0
    requires ForwardCount(u.reg.completes, x) == 0
    ensures var u' := UpstreamAfter(u, x, t);
      && u.delivered <= u'.delivered
      && FilterTrace(p, ForwardedTo(x, u'.delivered[|u.delivered|..])) == FilterTrace(p, Passed(u.Terminated(), t))
      && FilterTrace(p, Passed(u.Terminated(), t)) == Passed(u.Terminated(), FilterTrace(p, t))
  {
    ForwardedOnce(u, x, t);
    FilterPassed(p, u.Terminated(), t);
  }

  /**
   * `create(t).map(f)` subscribed once, both instances fresh, whatever calls the
   * source makes (errors, and calls after a terminal one, included): each handler
   * list of the map stream receives, in registration order, `f` of the events the
   * upstream's gate let through, and the map stream ends with the upstream's flags.
   */
  lemma MapOverTrace<H, V, W, E>(x: object, f: V -> W, t: seq<Event<V, E>>, h: Handler<H>,
                                 onError: Option<Handler<H>>, onComplete: Option<Handler<H>>)
    ensures var u := UpstreamAfter(Fresh<H, V, E>(), x, t);
      var d := Run(Register(Fresh<H, W, E>(), Some(h), onError, onComplete), MapTrace(f, ForwardedTo(x, u.delivered)));
      && d.delivered == Broadcast(Registry([h], Present(onError), Present(onComplete)), MapTrace(f, Passed(false, t)))
      && d.completed == u.completed && d.hasError == u.hasError
  {
    var u := UpstreamAfter(Fresh<H, V, E>(), x, t);
    var passed := Passed(false, t);
    var m := MapTrace(f, passed);
    MapFeed(Fresh<H, V, E>(), x, f, t);
    assert u.delivered[0..] == u.delivered;
    assert MapTrace(f, ForwardedTo(x, u.delivered)) == m && WellFormed(m);
    RunFresh<H, W, E>(h, onError, onComplete, m);
    UpstreamFlags<H, V, E>(x, t);
    if passed != [] {
      assert m[|m| - 1] == MapEvent(f, passed[|passed| - 1]);
    }
  }

  /** After a first forwarding subscribe on a fresh instance, its flags are those of the last event its gate passed. */
  lemma UpstreamFlags<H, V, E>(x: object, t: seq<Event<V, E>>)
    ensures var u := UpstreamAfter(Fresh<H, V, E>(), x, t);
      var passed := Passed(false, t);
      && u.completed == (passed != [] && passed[|passed| - 1].Complete?)
      && u.hasError == (passed != [] && passed[|passed| - 1].Error?)
      && u.Terminated() == !AllItems(passed)
  {
    var r := Register(Fresh<H, V, E>(), Some(Forward(x)), Some(Forward(x)), Some(Forward(x)));
    RunDelivers(r, t);
    RunTerminates(r, t);
  }

  /**
   * `create(t).filter(p)` subscribed once, both instances fresh, whatever calls the
   * source makes: each handler list of the filter stream receives, in registration
   * order, the gated calls of `t` with the items failing `p` dropped, and the filter
   * stream terminates exactly when the upstream did.
   */
  lemma FilterOverTrace<H, V, E>(x: object, p: V -> bool, t: seq<Event<V, E>>, h: Handler<H>,
                                 onError: Option<Handler<H>>, onComplete: Option<Handler<H>>)
    ensures var u := UpstreamAfter(Fresh<H, V, E>(), x, t);
      var d := Run(Register(Fresh<H, V, E>(), Some(h), onError, onComplete), FilterTrace(p, ForwardedTo(x, u.delivered)));
      && d.delivered == Broadcast(Registry([h], Present(onError), Present(onComplete)), FilterTrace(p, Passed(false, t)))
      && d.Terminated() == u.Terminated()
  {
    var u := UpstreamAfter(Fresh<H, V, E>(), x, t);
    var passed := Passed(false, t);
    var q := FilterTrace(p, passed);
    FilterFeed(Fresh<H, V, E>(), x, p, t);
    assert u.delivered[0..] == u.delivered;
    assert FilterTrace(p, ForwardedTo(x, u.delivered)) == q;
    PassedWellFormed(false, FilterTrace(p, t));
    RunFresh<H, V, E>(h, onError, onComplete, q);
    UpstreamFlags<H, V, E>(x, t);
    FilterKeeps(p, passed);
    RunTerminates(Register(Fresh<H, V, E>(), Some(h), onError, onComplete), q);
    PassedWhole(q);
  }

  /**
   * Handlers accumulate across subscribes on one instance: after a first subscribe
   * whose source emitted only items, a second subscribe runs its source to every
   * handler registered so far, the first subscriber's and the second's alike.
   */
  lemma HandlersAccumulate<H, V, E>(h1: Handler<H>, h2: Handler<H>, t: seq<Event<V, E>>)
    requires AllItems(t)
    ensures var s1 := Run(Register(Fresh<H, V, E>(), Some(h1), None, None), t);
      var s2 := Run(Register(s1, Some(h2), None, None), t);
      && s2.reg.next == [h1, h2]
      && s2.delivered == s1.delivered + Broadcast(Registry([h1, h2], [], []), t)
      && !s2.Terminated()
  {
    var r1 := Register(Fresh<H, V, E>(), Some(h1), None, None);
    RunDelivers(r1, t);
    assert WellFormed(t);
    PassedWhole(t);
    PassedCut(false, t);
    var s1 := Run(r1, t);
    if t != [] {
      assert t[|t| - 1].Item?;
    }
    assert !s1.Terminated() && s1.reg == Registry([h1], [], []);
    var r2 := Register(s1, Some(h2), None, None);
    assert r2.reg == Registry([h1, h2], [], []);
    RunDelivers(r2, t);
  }

  /** Every event of `evs` twice in a row. */
  function Doubled<V, E>(evs: seq<Event<V, E>>): seq<Event<V, E>>
    decreases |evs|
  {
    if evs == [] then [] else [evs[0], evs[0]] + Doubled(evs[1..])
  }

  /** Event `i` of `evs` sits at positions `2 * i` and `2 * i + 1` of `Doubled(evs)`. */
  lemma {:induction false} DoubledAt<V, E>(evs: seq<Event<V, E>>)
    ensures |Doubled(evs)| == 2 * |evs|
    ensures forall i :: 0 <= i < |evs| ==> Doubled(evs)[2 * i] == evs[i] && Doubled(evs)[2 * i + 1] == evs[i]
    decreases |evs|
  {
    if evs != [] {
      DoubledAt(evs[1..]);
      forall i | 0 < i < |evs|
        ensures Doubled(evs)[2 * i] == evs[i] && Doubled(evs)[2 * i + 1] == evs[i]
      {
        assert evs[1..][i - 1] == evs[i];
      }
    }
  }

  /** Registered twice in each list, the downstream receives every broadcast event twice in a row. */
  lemma {:induction false} EchoTwice<H, V, E>(reg: Registry<H>, x: object, evs: seq<Event<V, E>>)
    requires ForwardCount(reg.next, x) == 2 && ForwardCount(reg.errors, x) == 2 && ForwardCount(reg.completes, x) == 2
    ensures Echo(reg, x, evs) == Doubled(evs)
    decreases |evs|
  {
    if evs != [] {
      EchoTwice(reg, x, evs[1..]);
      assert Copies(evs[0], 2) == [evs[0], evs[0]];
    }
  }

  /**
   * The same accumulation seen through an operator: when the upstream holds two
   * forwarding handlers into `x` per list (two subscribes to `x`), every event the
   * upstream passes reaches `x` twice in a row.
   */
  lemma ForwardedTwice<H, V, E>(reg: Registry<H>, x: object, evs: seq<Event<V, E>>)
    requires ForwardCount(reg.next, x) == 2 && ForwardCount(reg.errors, x) == 2 && ForwardCount(reg.completes, x) == 2
    ensures |ForwardedTo(x, Broadcast(reg, evs))| == 2 * |evs|
    ensures forall i :: 0 <= i < |evs| ==>
      ForwardedTo(x, Broadcast(reg, evs))[2 * i] == evs[i] && ForwardedTo(x, Broadcast(reg, evs))[2 * i + 1] == evs[i]
  {
    ForwardedBroadcast(x, reg, evs);
    EchoTwice(reg, x, evs);
    DoubledAt(evs);
  }

  /**
   * The first subscribe, with item handler `h1` only, to a map stream `x` over a
   * fresh upstream whose source `t` emits only items: the upstream holds one
   * forwarding handler into `x` per list, `x` receives `t` once, `h1` gets f of
   * every item, and neither instance terminates.
   */
  lemma MapFirstSubscribe<H, V, E>(x: object, f: V -> V, t: seq<Event<V, E>>, h1: Handler<H>)
    requires AllItems(t)
    ensures var u1 := UpstreamAfter(Fresh<H, V, E>(), x, t);
      var d1 := Run(Register(Fresh<H, V, E>(), Some(h1), None, None), MapTrace(f, ForwardedTo(x, u1.delivered)));
      && u1.reg == Registry([Forward(x)], [Forward(x)], [Forward(x)]) && !u1.Terminated()
      && ForwardedTo(x, u1.delivered) == t
      && d1.reg == Registry([h1], [], []) && !d1.Terminated()
      && d1.delivered == Broadcast(Registry([h1], [], []), MapTrace(f, t))
  {
    var fr := Fresh<H, V, E>();
    var fx: Option<Handler<H>> := Some(Forward(x));
    var u1 := UpstreamAfter(fr, x, t);
    RunItems(Register(fr, fx, fx, fx), t);
    assert u1.reg == Registry([Forward(x)], [Forward(x)], [Forward(x)]) && !u1.Terminated();
    assert u1.delivered == Broadcast(u1.reg, t);
    ForwardedBroadcast(x, u1.reg, t);
    EchoOnce(u1.reg, x, t);
    var m := MapTrace(f, t);
    MapItems(f, t);
    var r1 := Register(fr, Some(h1), None, None);
    assert r1.reg == Registry([h1], [], []) && r1.delivered == [];
    RunItems(r1, m);
    assert Run(r1, m).delivered == [] + Broadcast(r1.reg, m);
  }

  /**
   * A later subscribe, with item handler `h2` only, to a map stream `x` that holds
   * item handler `h1` and is registered once per list on an upstream whose source
   * `t` emits only items: the upstream now forwards every item into `x` twice, so
   * `x` is fed f of each item twice in a row, and each time both `h1` and `h2` run.
   */
  lemma MapSecondSubscribe<H, V, E>(x: object, f: V -> V, t: seq<Event<V, E>>, u: State<H, V, E>, d: State<H, V, E>,
                                    h1: Handler<H>, h2: Handler<H>)
    requires AllItems(t)
    requires u.reg == Registry([Forward(x)], [Forward(x)], [Forward(x)]) && !u.Terminated()
    requires d.reg == Registry([h1], [], []) && !d.Terminated()
    ensures var u2 := UpstreamAfter(u, x, t);
      && |u.delivered| <= |u2.delivered|
      && var d2 := Run(Register(d, Some(h2), None, None), MapTrace(f, ForwardedTo(x, u2.delivered[|u.delivered|..])));
      && d2.delivered == d.delivered + Broadcast(Registry([h1, h2], [], []), MapTrace(f, Doubled(t)))
      && !d2.Terminated()
  {
    var fx: Option<Handler<H>> := Some(Forward(x));
    var r2 := Register(u, fx, fx, fx);
    assert r2.reg == Registry([Forward(x), Forward(x)], [Forward(x), Forward(x)], [Forward(x), Forward(x)]);
    RunItems(r2, t);
    var u2 := Run(r2, t);
    assert u2.delivered[|u.delivered|..] == Broadcast(r2.reg, t);
    var one: seq<Handler<H>> := [Forward(x)];
    assert one[1..] == [] && ForwardCount(one, x) == 1;
    assert ForwardCount(one + one, x) == 2 by {
      ForwardCountAppend(one, one, x);
    }
    ForwardedBroadcast(x, r2.reg, t);
    EchoTwice(r2.reg, x, t);
    DoubledItems(t);
    MapItems(f, Doubled(t));
    var r3 := Register(d, Some(h2), None, None);
    assert r3.reg == Registry([h1, h2], [], []);
    RunItems(r3, MapTrace(f, Doubled(t)));
  }

  /** Mapping a trace of items gives a trace of items. */
  lemma MapItems<V, W, E>(f: V -> W, t: seq<Event<V, E>>)
    requires AllItems(t)
    ensures AllItems(MapTrace(f, t))
  {
  }

  /** Doubling a trace of items gives a trace of items. */
  lemma {:induction false} DoubledItems<V, E>(t: seq<Event<V, E>>)
    requires AllItems(t)
    ensures AllItems(Doubled(t))
    decreases |t|
  {
    if t != [] {
      assert AllItems(t[1..]) by {
        forall i | 0 <= i < |t[1..]| ensures t[1..][i].Item? {
          assert t[1..][i] == t[i + 1];
        }
      }
      DoubledItems(t[1..]);
      var d := Doubled(t);
      forall i | 0 <= i < |d| ensures d[i].Item? {
        if i >= 2 {
          assert d[i] == Doubled(t[1..])[i - 2];
        }
      }
    }
  }
}
