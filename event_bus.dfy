/** The event-bus proxy the `launchBus` override hands to the remote side
    (lib/server.js, `methodOverride.launchBus`), and the raw bus it wraps. */
module EventBus {
  import opened Common

  /** A listener callback, identified by the function object's identity. */
  type Listener = nat

  /** One call received by the raw bus. A missing listener argument is `None`. */
  datatype BusCall =
    | Subscribe(name: string, listener: Option<Listener>)    // bus.on(name[, listener])
    | Unsubscribe(name: string, listener: Option<Listener>)  // bus.off(name[, listener])
    | Close                                                  // bus.close()

  /** The raw bus returned by the supervisor's `launchBus`: the listeners attached under each
      event name in attachment order, how often it was closed, and every call it received. */
  datatype Bus = Bus(attached: map<string, seq<Listener>>, closeCount: nat, log: seq<BusCall>)

  /** The list stored under `name`, or the empty list when there is none. */
  function Listeners(m: map<string, seq<Listener>>, name: string): seq<Listener> {
    if name in m then m[name] else []
  }

  function Without(s: seq<Listener>, l: Listener): (r: seq<Listener>)
    ensures forall x: Listener :: x in r <==> x in s && x != l
  {
    if s == [] then [] else (if s[0] == l then [] else [s[0]]) + Without(s[1..], l)
  }

  predicate Attaches(c: BusCall, n: string, x: Listener) {
    c == Subscribe(n, Some(x))
  }

  predicate Detaches(c: BusCall, n: string, x: Listener) {
    c.Unsubscribe? && c.name == n && (c.listener.None? || c.listener == Some(x))
  }

  /** How the raw bus answers one call: `on` with a listener appends it, `off` with a listener
      removes that listener from the name, `off` without one removes every listener of the
      name, `close` is counted; every call is logged. */
  function Perform(b: Bus, c: BusCall): (r: Bus)
    ensures r.log == b.log + [c]
    ensures r.closeCount == if c.Close? then b.closeCount + 1 else b.closeCount
    ensures forall n: string, x: Listener {:trigger x in Listeners(r.attached, n)} :: x in Listeners(r.attached, n) <==>
      Attaches(c, n, x) || (x in Listeners(b.attached, n) && !Detaches(c, n, x))
    ensures c.Subscribe? && c.listener.Some? ==>
      Listeners(r.attached, c.name) == Listeners(b.attached, c.name) + [c.listener.value]
  {
    var attached :=
      match c
      case Subscribe(n, Some(l)) => b.attached[n := Listeners(b.attached, n) + [l]]
      case Subscribe(_, None) => b.attached
      case Unsubscribe(n, Some(l)) => if n in b.attached then b.attached[n := Without(b.attached[n], l)] else b.attached
      case Unsubscribe(n, None) => b.attached - {n}
      case Close => b.attached;
    Bus(attached, if c.Close? then b.closeCount + 1 else b.closeCount, b.log + [c])
  }

  /** The bus after receiving `cs` in order. */
  function PerformAll(b: Bus, cs: seq<BusCall>): Bus {
    if cs == [] then b else Perform(PerformAll(b, cs[..|cs| - 1]), cs[|cs| - 1])
  }

  lemma PerformAllAppend(b: Bus, cs: seq<BusCall>, c: BusCall)
    ensures PerformAll(b, cs + [c]) == Perform(PerformAll(b, cs), c)
  {
    assert (cs + [c])[..|cs|] == cs;
  }

  lemma {:induction false} PerformAllConcat(b: Bus, cs: seq<BusCall>, ds: seq<BusCall>)
    ensures PerformAll(b, cs + ds) == PerformAll(PerformAll(b, cs), ds)
  {
    if ds == [] {
      assert cs + ds == cs;
    } else {
      var k := |ds| - 1;
      PerformAllConcat(b, cs, ds[..k]);
      assert cs + ds == (cs + ds[..k]) + [ds[k]];
      assert ds == ds[..k] + [ds[k]];
      PerformAllAppend(b, cs + ds[..k], ds[k]);
      PerformAllAppend(PerformAll(b, cs), ds[..k], ds[k]);
    }
  }

  /** The bus logs exactly the calls it received, in order. */
  lemma {:induction false} PerformAllLog(b: Bus, cs: seq<BusCall>)
    ensures PerformAll(b, cs).log == b.log + cs
  {
    if cs != [] {
      var k := |cs| - 1;
      PerformAllLog(b, cs[..k]);
      assert cs == cs[..k] + [cs[k]];
    }
  }

  // ---------------------------------------------------------------------------------------
  // The proxy's state and its operations

  /** The proxy's tracking dictionary (event name to listeners registered through the proxy,
      in registration order) together with the raw bus it owns. */
  datatype ProxyState = ProxyState(tracked: map<string, seq<Listener>>, bus: Bus)

  /** A proxy just built around the bus `b`: nothing tracked yet. */
  function Fresh(b: Bus): ProxyState {
    ProxyState(map[], b)
  }

  /** The proxy's `on(name, cb)`: forward to the raw bus, then append `cb` to the name's list,
      starting an empty list for a name not seen before. */
  function OnStep(s: ProxyState, name: string, l: Listener): (r: ProxyState)
    ensures Listeners(r.tracked, name) == Listeners(s.tracked, name) + [l]
    ensures forall n :: n != name ==> Listeners(r.tracked, n) == Listeners(s.tracked, n)
    ensures Listeners(r.bus.attached, name) == Listeners(s.bus.attached, name) + [l]
  {
    ProxyState(s.tracked[name := Listeners(s.tracked, name) + [l]], Perform(s.bus, Subscribe(name, Some(l))))
  }

  /** The proxy's `off(name)` with the evidently intended forwarding to the raw bus's `off`:
      the raw bus drops every listener of the name, and the whole tracking entry goes too. */
  function OffStep(s: ProxyState, name: string): (r: ProxyState)
    ensures name !in r.tracked && Listeners(r.bus.attached, name) == []
    ensures forall n :: n != name ==> Listeners(r.tracked, n) == Listeners(s.tracked, n)
  {
    ProxyState(s.tracked - {name}, Perform(s.bus, Unsubscribe(name, None)))
  }

  /** The proxy's `off(name, ...)` as written: its arguments are forwarded to the raw bus's
      `on`, not `off`, and the whole tracking entry is deleted. */
  function OffStepAsWritten(s: ProxyState, name: string, extra: Option<Listener>): (r: ProxyState)
    ensures name !in r.tracked
    ensures forall n :: n != name ==> Listeners(r.tracked, n) == Listeners(s.tracked, n)
    ensures forall x: Listener :: x in Listeners(s.bus.attached, name) ==> x in Listeners(r.bus.attached, name)
  {
    ProxyState(s.tracked - {name}, Perform(s.bus, Subscribe(name, extra)))
  }

  /** The proxy's `on(name, cb)` as written, with the tracking dictionary a plain object: for a
      name inherited from Object.prototype, `listeners[name] || []` yields a non-array and the
      `push` throws, after the raw bus has already attached `cb`. `Err` carries that bus. */
  function OnStepAsWritten(s: ProxyState, name: string, l: Listener): (r: Result<ProxyState, Bus>)
    ensures name !in InheritedNames ==> r == Ok(OnStep(s, name, l))
    ensures name in InheritedNames ==> r.Err? && l in Listeners(r.error.attached, name)
  {
    var bus := Perform(s.bus, Subscribe(name, Some(l)));
    if name in InheritedNames then Err(bus)
    else Ok(ProxyState(s.tracked[name := Listeners(s.tracked, name) + [l]], bus))
  }

  /** Every listener attached to the raw bus is either tracked under its name or was already
      on the bus, under that name, before the proxy existed (`base`). */
  ghost predicate Covers(s: ProxyState, base: map<string, seq<Listener>>) {
    forall n: string, x: Listener {:trigger x in Listeners(s.bus.attached, n)} :: x in Listeners(s.bus.attached, n) ==> x in Listeners(s.tracked, n) || x in Listeners(base, n)
  }

  // ---------------------------------------------------------------------------------------
  // Teardown on the owning transport's `end`

  /** `bus.off(n, l)` for every `l` of `ls`, in order. */
  function Detachments(n: string, ls: seq<Listener>): seq<BusCall> {
    seq(|ls|, i requires 0 <= i < |ls| => Unsubscribe(n, Some(ls[i])))
  }

  lemma DetachmentsSnoc(n: string, ls: seq<Listener>, l: Listener)
    ensures Detachments(n, ls + [l]) == Detachments(n, ls) + [Unsubscribe(n, Some(l))]
  {
  }

  /** The calls the teardown loop makes when it visits the tracked names in `order`. */
  function TeardownCalls(m: map<string, seq<Listener>>, order: seq<string>): seq<BusCall> {
    if order == [] then []
    else
      var last := order[|order| - 1];
      TeardownCalls(m, order[..|order| - 1]) + Detachments(last, Listeners(m, last))
  }

  /** `order` lists each key of the tracking dictionary exactly once. */
  ghost predicate IsOrdering(order: seq<string>, keys: set<string>) {
    && (forall i, j :: 0 <= i < j < |order| ==> order[i] != order[j])
    && (forall n :: n in order <==> n in keys)
  }

  /** The proxy after teardown visiting the tracked names in `order`: the tracking dictionary
      emptied, and the raw bus having received exactly the `off` calls for the tracked
      listeners followed by one `close`. */
  function TornDown(s: ProxyState, order: seq<string>): (r: ProxyState)
    ensures r.tracked == map[]
    ensures r.bus.closeCount == s.bus.closeCount + 1
    ensures r.bus.log == s.bus.log + TeardownCalls(s.tracked, order) + [Close]
  {
    var cs := TeardownCalls(s.tracked, order);
    TeardownCallsEffect(s.bus, s.tracked, order);
    PerformAllAppend(s.bus, cs, Close);
    PerformAllLog(s.bus, cs + [Close]);
    ProxyState(map[], PerformAll(s.bus, cs + [Close]))
  }

  lemma {:induction false} DetachmentsEffect(b: Bus, u: string, ls: seq<Listener>)
    ensures PerformAll(b, Detachments(u, ls)).closeCount == b.closeCount
    ensures forall n: string, x: Listener {:trigger x in Listeners(PerformAll(b, Detachments(u, ls)).attached, n)} :: x in Listeners(PerformAll(b, Detachments(u, ls)).attached, n) <==>
      x in Listeners(b.attached, n) && !(n == u && x in ls)
  {
    if ls != [] {
      var k := |ls| - 1;
      DetachmentsEffect(b, u, ls[..k]);
      var mid := PerformAll(b, Detachments(u, ls[..k]));
      assert ls == ls[..k] + [ls[k]];
      DetachmentsSnoc(u, ls[..k], ls[k]);
      PerformAllAppend(b, Detachments(u, ls[..k]), Unsubscribe(u, Some(ls[k])));
      assert PerformAll(b, Detachments(u, ls)) == Perform(mid, Unsubscribe(u, Some(ls[k])));
      forall n: string, x: Listener
        ensures x in Listeners(PerformAll(b, Detachments(u, ls)).attached, n) <==>
          x in Listeners(b.attached, n) && !(n == u && x in ls)
      {
        assert ls == ls[..k] + [ls[k]];
        assert x in ls <==> x in ls[..k] || x == ls[k];
        assert x in Listeners(mid.attached, n) <==> x in Listeners(b.attached, n) && !(n == u && x in ls[..k]);
        var c := Unsubscribe(u, Some(ls[k]));
        assert x in Listeners(Perform(mid, c).attached, n) <==> Attaches(c, n, x) || (x in Listeners(mid.attached, n) && !Detaches(c, n, x));
      }
      assert PerformAll(b, Detachments(u, ls)).closeCount == b.closeCount;
    }
  }

  lemma {:induction false} TeardownCallsEffect(b: Bus, m: map<string, seq<Listener>>, order: seq<string>)
    ensures PerformAll(b, TeardownCalls(m, order)).closeCount == b.closeCount
    ensures forall n: string, x: Listener {:trigger x in Listeners(PerformAll(b, TeardownCalls(m, order)).attached, n)} :: x in Listeners(PerformAll(b, TeardownCalls(m, order)).attached, n) <==>
      x in Listeners(b.attached, n) && !(n in order && x in Listeners(m, n))
  {
    if order != [] {
      var k := |order| - 1;
      var last := order[k];
      var ds := Detachments(last, Listeners(m, last));
      TeardownCallsEffect(b, m, order[..k]);
      var mid := PerformAll(b, TeardownCalls(m, order[..k]));
      PerformAllConcat(b, TeardownCalls(m, order[..k]), ds);
      assert PerformAll(b, TeardownCalls(m, order)) == PerformAll(mid, ds);
      DetachmentsEffect(mid, last, Listeners(m, last));
      forall n: string, x: Listener
        ensures x in Listeners(PerformAll(b, TeardownCalls(m, order)).attached, n) <==>
          x in Listeners(b.attached, n) && !(n in order && x in Listeners(m, n))
      {
        InButLast(order, n);
      }
    }
  }

  /** Teardown detaches exactly the tracked listeners: afterwards a listener is attached iff it
      was attached before and was not tracked under that name. */
  lemma TeardownDetachesTracked(s: ProxyState, order: seq<string>)
    requires IsOrdering(order, s.tracked.Keys)
    ensures forall n: string, x: Listener {:trigger x in Listeners(TornDown(s, order).bus.attached, n)} :: x in Listeners(TornDown(s, order).bus.attached, n) <==>
      x in Listeners(s.bus.attached, n) && x !in Listeners(s.tracked, n)
  {
    var cs := TeardownCalls(s.tracked, order);
    TeardownCallsEffect(s.bus, s.tracked, order);
    PerformAllAppend(s.bus, cs, Close);
  }

  /** When every attached listener is covered, teardown leaves on the raw bus only what was
      there before the proxy was built. */
  lemma TeardownReleasesCovered(s: ProxyState, base: map<string, seq<Listener>>, order: seq<string>)
    requires Covers(s, base)
    requires IsOrdering(order, s.tracked.Keys)
    ensures Covers(TornDown(s, order), base)
    ensures forall n: string, x: Listener {:trigger x in Listeners(TornDown(s, order).bus.attached, n)} :: x in Listeners(TornDown(s, order).bus.attached, n) ==> x in Listeners(base, n)
  {
    TeardownDetachesTracked(s, order);
  }

  /** The listeners of the `off(n, l)` calls in `cs`, in call order. */
  function Detached(cs: seq<BusCall>, n: string): seq<Listener> {
    if cs == [] then [] else DetachedBy(cs[0], n) + Detached(cs[1..], n)
  }

  function DetachedBy(c: BusCall, n: string): seq<Listener> {
    if c.Unsubscribe? && c.name == n && c.listener.Some? then [c.listener.value] else []
  }

  lemma {:induction false} DetachedConcat(cs: seq<BusCall>, ds: seq<BusCall>, n: string)
    ensures Detached(cs + ds, n) == Detached(cs, n) + Detached(ds, n)
  {
    if cs == [] {
      assert cs + ds == ds;
    } else {
      var c, rest := cs[0], cs[1..];
      DetachedConcat(rest, ds, n);
      assert cs == [c] + rest;
      AppendAssoc([c], rest, ds);
      DetachedCons(c, rest, n);
      DetachedCons(c, rest + ds, n);
      AppendAssoc(DetachedBy(c, n), Detached(rest, n), Detached(ds, n));
    }
  }

  lemma AppendAssoc<T>(a: seq<T>, b: seq<T>, c: seq<T>)
    ensures (a + b) + c == a + (b + c)
  {
  }

  lemma DetachedCons(c: BusCall, rest: seq<BusCall>, n: string)
    ensures Detached([c] + rest, n) == DetachedBy(c, n) + Detached(rest, n)
  {
    assert ([c] + rest)[1..] == rest;
  }

  lemma {:induction false} DetachedDetachments(u: string, ls: seq<Listener>, n: string)
    ensures Detached(Detachments(u, ls), n) == if u == n then ls else []
  {
    if ls != [] {
      DetachedDetachments(u, ls[1..], n);
      assert Detachments(u, ls)[1..] == Detachments(u, ls[1..]);
    }
  }

  lemma InButLast<T>(s: seq<T>, x: T)
    requires s != []
    ensures x in s <==> x in s[..|s| - 1] || x == s[|s| - 1]
  {
    if x in s {
      var i :| 0 <= i < |s| && s[i] == x;
      if i < |s| - 1 {
        assert s[..|s| - 1][i] == x;
      }
    }
  }

  /** Within each event name, teardown detaches the tracked listeners in registration order. */
  lemma {:induction false} TeardownOrderWithinName(m: map<string, seq<Listener>>, order: seq<string>, n: string)
    requires forall i, j :: 0 <= i < j < |order| ==> order[i] != order[j]
    ensures Detached(TeardownCalls(m, order), n) == if n in order then Listeners(m, n) else []
  {
    if order != [] {
      var k := |order| - 1;
      var last := order[k];
      var ds := Detachments(last, Listeners(m, last));
      var prefix := TeardownCalls(m, order[..k]);
      assert forall i, j :: 0 <= i < j < k ==> order[..k][i] != order[..k][j];
      TeardownOrderWithinName(m, order[..k], n);
      assert TeardownCalls(m, order) == prefix + ds;
      DetachedConcat(prefix, ds, n);
      DetachedDetachments(last, Listeners(m, last), n);
      InButLast(order, n);
      if n == last {
        assert n !in order[..k];
        assert Detached(TeardownCalls(m, order), n) == [] + Listeners(m, n);
      } else {
        assert Detached(TeardownCalls(m, order), n) == Detached(prefix, n) + [];
      }
    }
  }

  // ---------------------------------------------------------------------------------------
  // Whole sessions of proxy use

  /** A call the remote side makes on the proxy. */
  datatype ProxyOp = OpOn(name: string, listener: Listener) | OpOff(name: string)

  function Run(s: ProxyState, ops: seq<ProxyOp>): ProxyState {
    if ops == [] then s
    else
      var prev := Run(s, ops[..|ops| - 1]);
      match ops[|ops| - 1]
      case OpOn(n, l) => OnStep(prev, n, l)
      case OpOff(n) => OffStep(prev, n)
  }

  lemma OnPreservesCovers(s: ProxyState, base: map<string, seq<Listener>>, name: string, l: Listener)
    requires Covers(s, base)
    ensures Covers(OnStep(s, name, l), base)
  {
  }

  lemma OffPreservesCovers(s: ProxyState, base: map<string, seq<Listener>>, name: string)
    requires Covers(s, base)
    ensures Covers(OffStep(s, name), base)
  {
  }

  /** Any sequence of `on`/`off` calls on a fresh proxy, followed by the teardown, leaves on the
      raw bus only the listeners it had when `launchBus` returned it, and closes it once. */
  lemma {:induction false} RunThenTeardownReleases(b: Bus, ops: seq<ProxyOp>, order: seq<string>)
    requires IsOrdering(order, Run(Fresh(b), ops).tracked.Keys)
    ensures TornDown(Run(Fresh(b), ops), order).bus.closeCount == b.closeCount + 1
    ensures forall n: string, x: Listener :: x in Listeners(TornDown(Run(Fresh(b), ops), order).bus.attached, n) ==>
      x in Listeners(b.attached, n)
  {
    RunCovers(b, ops);
    TeardownReleasesCovered(Run(Fresh(b), ops), b.attached, order);
    TeardownDetachesTracked(Run(Fresh(b), ops), order);
  }

  lemma {:induction false} RunCovers(b: Bus, ops: seq<ProxyOp>)
    ensures Covers(Run(Fresh(b), ops), b.attached)
    ensures Run(Fresh(b), ops).bus.closeCount == b.closeCount
  {
    if ops != [] {
      var k := |ops| - 1;
      RunCovers(b, ops[..k]);
      match ops[k]
      case OpOn(n, l) => OnPreservesCovers(Run(Fresh(b), ops[..k]), b.attached, n, l);
      case OpOff(n) => OffPreservesCovers(Run(Fresh(b), ops[..k]), b.attached, n);
    }
  }

  // ---------------------------------------------------------------------------------------
  // The two defects of the proxy as written

  /** As written, `off(name)` after `on(name, l)` forwards to the raw bus's `on`, which leaves
      `l` attached, yet deletes its tracking entry, so the teardown on `end` never detaches it. */
  lemma OffAsWrittenLeaks(b: Bus, name: string, l: Listener)
    ensures var s := OffStepAsWritten(OnStep(Fresh(b), name, l), name, None);
      && l in Listeners(TornDown(s, []).bus.attached, name)
      && IsOrdering([], s.tracked.Keys)
      && !Covers(s, map[])
  {
    var s := OffStepAsWritten(OnStep(Fresh(b), name, l), name, None);
    assert s.tracked == map[];
    TeardownDetachesTracked(s, []);
  }

  /** With the forwarding corrected, teardown releases a listener removed by `off`: nothing the
      proxy attached stays on the bus. */
  lemma OffThenTeardownReleases(b: Bus, name: string, l: Listener)
    requires b.attached == map[]
    ensures var s := OffStep(OnStep(Fresh(b), name, l), name);
      && IsOrdering([], s.tracked.Keys)
      && forall n: string, x: Listener :: x !in Listeners(TornDown(s, []).bus.attached, n)
  {
    var s := OffStep(OnStep(Fresh(b), name, l), name);
    OnPreservesCovers(Fresh(b), b.attached, name, l);
    OffPreservesCovers(OnStep(Fresh(b), name, l), b.attached, name);
    assert s.tracked == map[];
    TeardownReleasesCovered(s, b.attached, []);
  }

  /** As written, `on` under a name a plain object inherits attaches the listener to the raw bus
      and then throws, so the listener is on the bus but in no tracked list. */
  lemma InheritedNameLeaks(s: ProxyState, base: map<string, seq<Listener>>, l: Listener)
    requires l !in Listeners(s.tracked, "constructor") && l !in Listeners(base, "constructor")
    ensures OnStepAsWritten(s, "constructor", l).Err?
    ensures var b := OnStepAsWritten(s, "constructor", l).error;
      l in Listeners(b.attached, "constructor") && !Covers(ProxyState(s.tracked, b), base)
  {
    var b := OnStepAsWritten(s, "constructor", l).error;
    assert l in Listeners(b.attached, "constructor");
  }

  // ---------------------------------------------------------------------------------------
  // The proxy object

  class BusProxy {
    var tracked: map<string, seq<Listener>>
    var bus: Bus
    /** The listeners the raw bus had when the proxy was built. */
    ghost const baseline: map<string, seq<Listener>>

    function State(): ProxyState
      reads this
    {
      ProxyState(tracked, bus)
    }

    ghost predicate Valid()
      reads this
    {
      Covers(State(), baseline)
    }

    /** Nothing is tracked and nothing the proxy attached is left on the raw bus. */
    ghost predicate Released()
      reads this
    {
      tracked == map[] && forall n: string, x: Listener {:trigger x in Listeners(bus.attached, n)} :: x in Listeners(bus.attached, n) ==> x in Listeners(baseline, n)
    }

    /** The proxy is the teardown of `before`, visiting its names in `order`. */
    ghost predicate TornDownFrom(before: ProxyState, order: seq<string>)
      reads this
    {
      IsOrdering(order, before.tracked.Keys) && State() == TornDown(before, order) && Valid() && Released()
    }

    constructor (b: Bus)
      ensures Valid() && State() == Fresh(b) && baseline == b.attached
    {
      tracked := map[];
      bus := b;
      baseline := b.attached;
    }

    method On(name: string, l: Listener)
      requires Valid()
      modifies this
      ensures Valid() && State() == OnStep(old(State()), name, l)
    {
      bus := Perform(bus, Subscribe(name, Some(l)));
      tracked := tracked[name := Listeners(tracked, name) + [l]];
      OnPreservesCovers(old(State()), baseline, name, l);
    }

    method Off(name: string)
      requires Valid()
      modifies this
      ensures Valid() && State() == OffStep(old(State()), name)
    {
      bus := Perform(bus, Unsubscribe(name, None));
      tracked := tracked - {name};
      OffPreservesCovers(old(State()), baseline, name);
    }

    /** The hook run once on the owning transport's `end`: detach every tracked listener, name
        by name in some order and in registration order within a name, forget them all, and
        close the raw bus. `order` is the order in which the names were visited. */
    method Teardown() returns (ghost order: seq<string>)
      requires Valid()
      modifies this
      ensures IsOrdering(order, old(tracked).Keys)
      ensures State() == TornDown(old(State()), order)
      ensures bus.closeCount == old(bus.closeCount) + 1
      ensures Valid() && Released()
    {
      ghost var m := tracked;
      var names := tracked.Keys;
      order := [];
      while names != {}
        invariant forall i, j :: 0 <= i < j < |order| ==> order[i] != order[j]
        invariant forall n :: n in m <==> n in order || n in names
        invariant forall n :: n in order ==> n !in names
        invariant tracked == m
        invariant bus == PerformAll(old(bus), TeardownCalls(m, order))
        decreases names
      {
        var t :| t in names;
        DetachEach(t, tracked[t]);
        PerformAllConcat(old(bus), TeardownCalls(m, order), Detachments(t, m[t]));
        assert (order + [t])[..|order|] == order;
        forall n ensures n in order + [t] <==> n in order || n == t {
          InButLast(order + [t], n);
        }
        assert t !in order;
        order := order + [t];
        names := names - {t};
      }
      tracked := map[];
      PerformAllAppend(old(bus), TeardownCalls(m, order), Close);
      bus := Perform(bus, Close);
      TeardownDetachesTracked(old(State()), order);
      TeardownReleasesCovered(old(State()), baseline, order);
    }

    /** `listeners[name].forEach(l => bus.off(name, l))`. */
    method DetachEach(name: string, ls: seq<Listener>)
      modifies this
      ensures bus == PerformAll(old(bus), Detachments(name, ls))
      ensures tracked == old(tracked)
    {
      var i := 0;
      while i < |ls|
        invariant 0 <= i <= |ls|
        invariant tracked == old(tracked)
        invariant bus == PerformAll(old(bus), Detachments(name, ls[..i]))
      {
        PerformAllAppend(old(bus), Detachments(name, ls[..i]), Unsubscribe(name, Some(ls[i])));
        assert ls[..i + 1] == ls[..i] + [ls[i]];
        DetachmentsSnoc(name, ls[..i], ls[i]);
        bus := Perform(bus, Unsubscribe(name, Some(ls[i])));
        i := i + 1;
      }
      assert ls[..|ls|] == ls;
    }
  }
}
