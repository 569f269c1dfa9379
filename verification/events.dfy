/**
 * What a source function of a SimpleRx stream does, seen from the outside: the
 * sequence of calls it makes on the three callbacks it is handed (onNext, onError,
 * onComplete).  The factories `just`, `from` and `error` are fixed traces; `map`
 * and `filter` are transformers of traces; `Passed` is the terminal gate that every
 * dispatch callback applies (no delivery once an error or a completion got through).
 */
module Events {

  /** One call of a source on its callbacks: onNext(value), onError(error) or onComplete(). */
  datatype Event<V, E> = Item(value: V) | Error(error: E) | Complete
  {
    /** Errors and completions end a stream; items do not. */
    predicate Terminal() {
      !Item?
    }
  }

  /** One onNext call per value of `vs`, in order. */
  function Items<V, E>(vs: seq<V>): seq<Event<V, E>> {
    seq(|vs|, i requires 0 <= i < |vs| => Item(vs[i]))
  }

  /** The source of `from(vs...)`: every value in input order, then completion. */
  function From<V, E>(vs: seq<V>): (r: seq<Event<V, E>>)
    ensures |r| == |vs| + 1 && r[|vs|] == Complete
    ensures forall i :: 0 <= i < |vs| ==> r[i] == Item(vs[i])
    ensures WellFormed(r) && !AllItems(r)
  {
    Items(vs) + [Complete]
  }

  /** The source of `just(v)`: the value, then completion -- the same calls as `from(v)`. */
  function Just<V, E>(v: V): (r: seq<Event<V, E>>)
    ensures r == From([v])
  {
    [Item(v), Complete]
  }

  /** The source of `error(e)`: the error and nothing else; an open gate passes it and closes. */
  function Fail<V, E>(e: E): (r: seq<Event<V, E>>)
    ensures |r| == 1 && r[0].Error? && r[0].error == e
    ensures WellFormed(r) && !AllItems(r) && Passed(false, r) == r
  {
    var r: seq<Event<V, E>> := [Error(e)];
    assert r[1..] == [] && Passed(false, r) == [r[0]] + Passed(true, r[1..]);
    r
  }

  /** Zero or more items followed by at most one terminal event. */
  predicate WellFormed<V, E>(t: seq<Event<V, E>>) {
    forall i :: 0 <= i < |t| - 1 ==> t[i].Item?
  }

  predicate AllItems<V, E>(t: seq<Event<V, E>>) {
    forall i :: 0 <= i < |t| ==> t[i].Item?
  }

  /**
   * The events of `t` that a dispatch gate lets through, starting closed or open:
   * nothing once closed; otherwise every event up to and including the first
   * terminal one, which closes the gate.
   */
  function Passed<V, E>(closed: bool, t: seq<Event<V, E>>): (r: seq<Event<V, E>>)
    ensures r <= t
    ensures closed ==> r == []
    decreases |t|
  {
    if closed || t == [] then [] else [t[0]] + Passed(t[0].Terminal(), t[1..])
  }

  /** Whether the gate is closed once `t` has gone through it. */
  predicate ClosedAfter<V, E>(closed: bool, t: seq<Event<V, E>>) {
    closed || !AllItems(t)
  }

  /** The gate never passes more than one terminal event, and that one last. */
  lemma {:induction false} PassedWellFormed<V, E>(closed: bool, t: seq<Event<V, E>>)
    ensures WellFormed(Passed(closed, t))
    decreases |t|
  {
    if !closed && t != [] {
      var rest := Passed(t[0].Terminal(), t[1..]);
      PassedWellFormed(t[0].Terminal(), t[1..]);
      assert Passed(closed, t) == [t[0]] + rest;
      if t[0].Terminal() {
        assert rest == [];
      }
    }
  }

  /** The gate cuts a trace short only right after a terminal event (or when it started closed). */
  lemma {:induction false} PassedCut<V, E>(closed: bool, t: seq<Event<V, E>>)
    ensures var p := Passed(closed, t);
      |p| < |t| ==> closed || (p != [] && p[|p| - 1].Terminal())
    decreases |t|
  {
    if !closed && t != [] {
      PassedCut(t[0].Terminal(), t[1..]);
      var rest := Passed(t[0].Terminal(), t[1..]);
      assert Passed(closed, t) == [t[0]] + rest;
    }
  }

  /** An open gate lets a whole trace through exactly when the trace is well formed. */
  lemma {:induction false} PassedWhole<V, E>(t: seq<Event<V, E>>)
    ensures Passed(false, t) == t <==> WellFormed(t)
    decreases |t|
  {
    PassedWellFormed(false, t);
    if t != [] && WellFormed(t) {
      assert WellFormed(t[1..]) by {
        forall i | 0 <= i < |t[1..]| - 1 ensures t[1..][i].Item? {
          assert t[1..][i] == t[i + 1];
        }
      }
      PassedWhole(t[1..]);
      if t[0].Terminal() {
        assert |t| == 1;
        assert t[1..] == [];
      } else {
        assert t == [t[0]] + t[1..];
      }
    }
  }

  /** A trace is all items exactly when its first event is an item and the rest are all items. */
  lemma AllItemsCons<V, E>(t: seq<Event<V, E>>)
    requires t != []
    ensures AllItems(t) <==> t[0].Item? && AllItems(t[1..])
  {
    if t[0].Item? && AllItems(t[1..]) {
      forall i | 0 <= i < |t| ensures t[i].Item? {
        if i > 0 { assert t[i] == t[1..][i - 1]; }
      }
    }
  }

  /** Gating a concatenation: the second part meets the gate as the first part left it. */
  lemma {:induction false} PassedAppend<V, E>(closed: bool, a: seq<Event<V, E>>, b: seq<Event<V, E>>)
    ensures Passed(closed, a + b) == Passed(closed, a) + Passed(ClosedAfter(closed, a), b)
    decreases |a|
  {
    if a == [] {
      assert a + b == b;
    } else if !closed {
      assert (a + b)[0] == a[0];
      assert (a + b)[1..] == a[1..] + b;
      PassedAppend(a[0].Terminal(), a[1..], b);
      AllItemsCons(a);
    }
  }

  /** `map`'s item transformation: errors and completion pass unchanged. */
  function MapEvent<V, W, E>(f: V -> W, ev: Event<V, E>): Event<W, E> {
    match ev
    case Item(v) => Item(f(v))
    case Error(e) => Error(e)
    case Complete => Complete
  }

  /** What the stream returned by `map(f)` feeds its callbacks, given what its upstream delivered. */
  function MapTrace<V, W, E>(f: V -> W, t: seq<Event<V, E>>): (r: seq<Event<W, E>>)
    ensures |r| == |t|
    ensures forall i :: 0 <= i < |t| ==>
      r[i].Item? == t[i].Item? && r[i].Complete? == t[i].Complete? &&
      (t[i].Item? ==> r[i].value == f(t[i].value)) &&
      (t[i].Error? ==> r[i].error == t[i].error)
  {
    seq(|t|, i requires 0 <= i < |t| => MapEvent(f, t[i]))
  }

  /** `f` applied to every value, in order. */
  function Apply<V, W>(f: V -> W, vs: seq<V>): seq<W> {
    seq(|vs|, i requires 0 <= i < |vs| => f(vs[i]))
  }

  /** Mapping commutes with the terminal gate: it neither adds nor removes a terminal event. */
  lemma {:induction false} MapPassed<V, W, E>(f: V -> W, closed: bool, t: seq<Event<V, E>>)
    ensures MapTrace(f, Passed(closed, t)) == Passed(closed, MapTrace(f, t))
    decreases |t|
  {
    if !closed && t != [] {
      var m := MapTrace(f, t);
      assert m[0] == MapEvent(f, t[0]);
      assert m[1..] == MapTrace(f, t[1..]);
      MapPassed(f, t[0].Terminal(), t[1..]);
      assert MapTrace(f, [t[0]] + Passed(t[0].Terminal(), t[1..]))
          == [MapEvent(f, t[0])] + MapTrace(f, Passed(t[0].Terminal(), t[1..]));
    }
  }

  /** `from(vs).map(f)` feeds the values `f(v)` in order, then completion (SimpleRxTest's map case). */
  lemma MapFrom<V, W, E>(f: V -> W, vs: seq<V>)
    ensures MapTrace(f, From<V, E>(vs)) == From<W, E>(Apply(f, vs))
  {
    var l := MapTrace(f, From<V, E>(vs));
    var r := From<W, E>(Apply(f, vs));
    assert |l| == |r|;
    forall i | 0 <= i < |l| ensures l[i] == r[i] {
      if i < |vs| {
        assert From<V, E>(vs)[i] == Item(vs[i]);
      } else {
        assert From<V, E>(vs)[i] == Complete;
      }
    }
  }

  /** Two maps in a row are one map by the composed function. */
  lemma MapCompose<U, V, W, E>(f: U -> V, g: V -> W, t: seq<Event<U, E>>)
    ensures MapTrace(g, MapTrace(f, t)) == MapTrace(x => g(f(x)), t)
  {
    var l := MapTrace(g, MapTrace(f, t));
    var r := MapTrace(x => g(f(x)), t);
    assert |l| == |r|;
    forall i | 0 <= i < |l| ensures l[i] == r[i] {
      match t[i]
      case Item(v) =>
      case Error(e) =>
      case Complete =>
    }
  }

  /** What the stream returned by `filter(p)` feeds its callbacks: items failing `p` are dropped. */
  function FilterTrace<V, E>(p: V -> bool, t: seq<Event<V, E>>): (r: seq<Event<V, E>>)
    ensures |r| <= |t|
    ensures forall ev :: ev in r ==> ev in t && (ev.Item? ==> p(ev.value))
    decreases |t|
  {
    if t == [] then []
    else (if t[0].Item? && !p(t[0].value) then [] else [t[0]]) + FilterTrace(p, t[1..])
  }

  /** The values of `vs` satisfying `p`, in their original relative order. */
  function Select<V>(p: V -> bool, vs: seq<V>): seq<V>
    decreases |vs|
  {
    if vs == [] then [] else (if p(vs[0]) then [vs[0]] else []) + Select(p, vs[1..])
  }

  /** Filtering works event by event: it distributes over concatenation. */
  lemma {:induction false} FilterAppend<V, E>(p: V -> bool, a: seq<Event<V, E>>, b: seq<Event<V, E>>)
    ensures FilterTrace(p, a + b) == FilterTrace(p, a) + FilterTrace(p, b)
    decreases |a|
  {
    if a == [] {
      assert a + b == b;
    } else {
      var head: seq<Event<V, E>> := if a[0].Item? && !p(a[0].value) then [] else [a[0]];
      assert (a + b)[0] == a[0];
      assert (a + b)[1..] == a[1..] + b;
      assert FilterTrace(p, a + b) == head + FilterTrace(p, a[1..] + b);
      FilterAppend(p, a[1..], b);
      assert head + (FilterTrace(p, a[1..]) + FilterTrace(p, b)) == (head + FilterTrace(p, a[1..])) + FilterTrace(p, b);
    }
  }

  /** Every item that survives the filter satisfies `p`, and every terminal event survives. */
  lemma {:induction false} FilterKeeps<V, E>(p: V -> bool, t: seq<Event<V, E>>)
    ensures forall i :: 0 <= i < |FilterTrace(p, t)| && FilterTrace(p, t)[i].Item? ==> p(FilterTrace(p, t)[i].value)
    ensures AllItems(FilterTrace(p, t)) == AllItems(t)
    decreases |t|
  {
    var kept := FilterTrace(p, t);
    forall i | 0 <= i < |kept| && kept[i].Item? ensures p(kept[i].value) {
      assert kept[i] in kept;
    }
    if t != [] {
      FilterKeeps(p, t[1..]);
      var head: seq<Event<V, E>> := if t[0].Item? && !p(t[0].value) then [] else [t[0]];
      assert kept == head + FilterTrace(p, t[1..]);
      AllItemsAppend(head, FilterTrace(p, t[1..]));
      AllItemsCons(t);
    }
  }

  /** A concatenation is all items exactly when both parts are. */
  lemma AllItemsAppend<V, E>(a: seq<Event<V, E>>, b: seq<Event<V, E>>)
    ensures AllItems(a + b) <==> AllItems(a) && AllItems(b)
  {
    if AllItems(a + b) {
      forall i | 0 <= i < |a| ensures a[i].Item? {
        assert (a + b)[i] == a[i];
      }
      forall i | 0 <= i < |b| ensures b[i].Item? {
        assert (a + b)[|a| + i] == b[i];
      }
    }
    if AllItems(a) && AllItems(b) {
      forall i | 0 <= i < |a + b| ensures (a + b)[i].Item? {
        if i >= |a| { assert (a + b)[i] == b[i - |a|]; }
      }
    }
  }

  /** Filtering commutes with the terminal gate, because it never drops a terminal event. */
  lemma {:induction false} FilterPassed<V, E>(p: V -> bool, closed: bool, t: seq<Event<V, E>>)
    ensures FilterTrace(p, Passed(closed, t)) == Passed(closed, FilterTrace(p, t))
    decreases |t|
  {
    if !closed && t != [] {
      var rest := Passed(t[0].Terminal(), t[1..]);
      FilterPassed(p, t[0].Terminal(), t[1..]);
      assert ([t[0]] + rest)[0] == t[0];
      assert ([t[0]] + rest)[1..] == rest;
      var ft := FilterTrace(p, t[1..]);
      if t[0].Item? && !p(t[0].value) {
        assert FilterTrace(p, t) == ft;
      } else {
        assert FilterTrace(p, t) == [t[0]] + ft;
      }
    }
  }

  lemma {:induction false} FilterItems<V, E>(p: V -> bool, vs: seq<V>)
    ensures FilterTrace(p, Items<V, E>(vs)) == Items<V, E>(Select(p, vs))
    decreases |vs|
  {
    if vs != [] {
      var t := Items<V, E>(vs);
      assert t[0] == Item(vs[0]);
      assert t[1..] == Items<V, E>(vs[1..]);
      FilterItems<V, E>(p, vs[1..]);
      var head: seq<V> := if p(vs[0]) then [vs[0]] else [];
      assert Items<V, E>(head + Select(p, vs[1..])) == Items<V, E>(head) + Items<V, E>(Select(p, vs[1..]));
    }
  }

  /** `from(vs).filter(p)` feeds exactly the values satisfying `p`, in order, then completion (SimpleRxTest's filter case). */
  lemma FilterFrom<V, E>(p: V -> bool, vs: seq<V>)
    ensures FilterTrace(p, From<V, E>(vs)) == From<V, E>(Select(p, vs))
  {
    FilterAppend(p, Items<V, E>(vs), [Complete]);
    FilterItems<V, E>(p, vs);
    var done: seq<Event<V, E>> := [Complete];
    assert FilterTrace(p, done) == done + FilterTrace(p, done[1..]);
  }

  /** from's trace ends in its only terminal event, so an open gate lets it through whole. */
  lemma FromPasses<V, E>(vs: seq<V>)
    ensures WellFormed(From<V, E>(vs)) && Passed(false, From<V, E>(vs)) == From(vs)
  {
    var t := From<V, E>(vs);
    forall i | 0 <= i < |t| - 1 ensures t[i].Item? {
      assert t[i] == Items<V, E>(vs)[i];
    }
    PassedWhole(t);
  }

  /** The factory traces are well formed, so an open gate lets each through whole. */
  lemma FactoriesWellFormed<V, E>(v: V, vs: seq<V>, e: E)
    ensures Passed(false, Just<V, E>(v)) == Just(v)
    ensures Passed(false, From<V, E>(vs)) == From(vs)
    ensures Passed(false, Fail<V, E>(e)) == Fail(e)
  {
    PassedWhole(Just<V, E>(v));
    FromPasses<V, E>(vs);
    PassedWhole(Fail<V, E>(e));
  }
}
