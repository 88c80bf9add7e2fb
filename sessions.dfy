/** One bridge session (lib/server.js, `Server`): a duplex stream wrapped around a dnode
    transport that exposes the method table to the remote side. */
module Sessions {
  import opened Common
  import opened MethodTable
  import opened EventBus
  import opened Decisions
  import opened SessionId

  /** The caller's configuration object. `autoInit` is `None` when the object has no such own
      key, otherwise the JavaScript truthiness of its value (`undefined`, `null`, `0`, `""` and
      `NaN` given explicitly are all `Some(false)`). */
  datatype Config = Config(autoInit: Option<bool>)

  /** `Object.assign({autoInit: true, ...}, conf || {})` then `if (this.config.autoInit)`:
      auto-initialise unless the caller gave the key a falsy value. */
  function AutoInit(conf: Option<Config>): (on: bool)
    ensures !on <==> conf.Some? && conf.value.autoInit == Some(false)
  {
    match conf
    case None => true
    case Some(c) => c.autoInit.None? || c.autoInit.value
  }

  /** What the session pushes to its readable side. */
  datatype Push = Data(chunk: Chunk) | EndOfStream

  /** The transport (the dnode instance) as far as the session drives it: the names it
      exposes, the chunks written into it, and whether it was asked to end. */
  datatype Transport = Transport(exposed: set<string>, inbound: seq<Chunk>, ending: bool)

  /** Events the session re-emits from its transport or its socket. */
  datatype Signal =
    | ErrorSignal(err: Option<Error>)
    | Remote(remote: nat)
    | Local(local: nat)
    | Fail(fail: nat)

  /** The socket the session is piped to: one it dialed, or one a listener accepted. */
  datatype Link = Dialed(endpoint: Endpoint) | Accepted

  /** The reply the `launchBus` override sends back. */
  datatype BusReply =
    | BusFailed(err: Error)     // cb(err)
    | BusReady(proxy: BusProxy) // cb(null, cloned)
    | Crashed                   // the transport was already gone: `this._dnode.on` throws
    | NotCallable               // the supervisor has no `launchBus` function: calling it throws

  /** Every field of a session except the inside of its bus proxies. */
  datatype SessionState = SessionState(
    destroyed: bool,
    dnode: Option<Transport>,
    methods: Option<Table>,
    readable: seq<Push>,
    emitted: seq<Signal>,
    endHooks: seq<BusProxy>,
    id: Option<string>,
    stream: Option<Link>,
    remoteBlocks: nat,
    finishHandlers: nat)

  class Session {
    const autoInit: bool
    /** The names the supervisor module exposes as functions. */
    const supervisor: set<string>
    var destroyed: bool
    var dnode: Option<Transport>
    var methods: Option<Table>
    var readable: seq<Push>
    var emitted: seq<Signal>
    /** The bus proxies whose teardown is hooked to the current transport's `end`, in the
        order they were hooked. */
    var endHooks: seq<BusProxy>
    var id: Option<string>
    var stream: Option<Link>
    /** How many `remote` listeners `connect` registered. */
    var remoteBlocks: nat
    /** How many `finish` handlers the session carries: one per `init`. */
    var finishHandlers: nat

    function State(): SessionState
      reads this
    {
      SessionState(destroyed, dnode, methods, readable, emitted, endHooks, id, stream, remoteBlocks, finishHandlers)
    }

    /** The table and the transport come and go together; the transport exposes exactly the
        table's names; the hooked proxies are distinct and each keeps its own invariant. */
    ghost predicate Valid()
      reads this, endHooks
    {
      && (dnode.Some? <==> methods.Some?)
      && (methods.Some? ==>
            && methods.value.Keys == Mirrored(supervisor) + {"disconnect", "launchBus"}
            && BackrefName !in methods.value
            && dnode.value.exposed == methods.value.Keys)
      && (dnode.Some? ==> finishHandlers > 0)
      && (forall i, j :: 0 <= i < j < |endHooks| ==> endHooks[i] != endHooks[j])
      && (forall i :: 0 <= i < |endHooks| ==> endHooks[i].Valid())
    }

    /** What `_write` and `_read` assert before touching the transport. */
    predicate CanTransfer()
      reads this
    {
      !destroyed && dnode.Some?
    }

    constructor (conf: Option<Config>, supervisor: set<string>)
      ensures Valid()
      ensures this.autoInit == AutoInit(conf) && this.supervisor == supervisor
      ensures !destroyed && readable == [] && emitted == [] && endHooks == []
      ensures id == None && stream == None && remoteBlocks == 0
      ensures finishHandlers == if AutoInit(conf) then 1 else 0
      ensures dnode.Some? <==> AutoInit(conf)
      ensures dnode.Some? ==> dnode.value == Transport(methods.value.Keys, [], false)
    {
      this.autoInit := AutoInit(conf);
      this.supervisor := supervisor;
      destroyed := false;
      dnode := None;
      methods := None;
      readable := [];
      emitted := [];
      endHooks := [];
      id := None;
      stream := None;
      remoteBlocks := 0;
      finishHandlers := 0;
      new;
      if autoInit {
        Init();
      }
    }

    /** `init()`: build the method table and a new transport over it, and add one more
        `finish` handler. The new transport has no bus teardown hooked yet. */
    method Init()
      modifies this
      ensures Valid()
      ensures methods.Some? && dnode == Some(Transport(methods.value.Keys, [], false))
      ensures methods.value.Keys == Mirrored(supervisor) + {"disconnect", "launchBus"}
      ensures forall n :: n in methods.value ==>
        methods.value[n] == (if n in OverrideNames then Override(n) else Bound(n))
      ensures State() == old(State()).(dnode := dnode, methods := methods, endHooks := [],
        finishHandlers := old(finishHandlers) + 1)
    {
      var t := BuildTable(supervisor);
      methods := Some(t);
      dnode := Some(Transport(t.Keys, [], false));
      endHooks := [];
      finishHandlers := finishHandlers + 1;
    }

    /** `_write`: fails its assertion unless the session can transfer; otherwise the chunk goes
        to the transport and the write is acknowledged. */
    method Write(chunk: Chunk) returns (accepted: bool)
      requires Valid()
      modifies this
      ensures Valid()
      ensures accepted == old(CanTransfer())
      ensures accepted ==>
        State() == old(State()).(dnode := Some(old(dnode.value).(inbound := old(dnode.value.inbound) + [chunk])))
      ensures !accepted ==> State() == old(State())
    {
      if destroyed || dnode.None? {
        return false;
      }
      dnode := Some(dnode.value.(inbound := dnode.value.inbound + [chunk]));
      return true;
    }

    /** `_read`: the same assertions and nothing else; data arrives through `OnTransportData`. */
    method Read() returns (accepted: bool)
      ensures accepted <==> !destroyed && dnode.Some?
    {
      accepted := !destroyed && dnode.Some?;
    }

    /** The transport's `data`: pushed to the readable side. */
    method OnTransportData(chunk: Chunk)
      requires dnode.Some?
      modifies this
      ensures State() == old(State()).(readable := old(readable) + [Data(chunk)])
    {
      readable := readable + [Data(chunk)];
    }

    /** The transport's `error`, `remote`, `local` and `fail`: re-emitted unchanged. */
    method OnTransportSignal(sig: Signal)
      requires dnode.Some?
      modifies this
      ensures State() == old(State()).(emitted := old(emitted) + [sig])
    {
      emitted := emitted + [sig];
    }

    /** The session's own `finish`: every handler `init` registered asks the transport to
        end. Without a handler nothing happens; with the transport already gone the first
        handler throws. */
    method OnFinish() returns (threw: bool)
      modifies this
      ensures threw <==> old(finishHandlers) > 0 && old(dnode).None?
      ensures old(finishHandlers) == 0 || threw ==> State() == old(State())
      ensures old(finishHandlers) > 0 && !threw ==>
        State() == old(State()).(dnode := Some(old(dnode.value).(ending := true)))
    {
      if finishHandlers == 0 {
        return false;
      }
      if dnode.None? {
        return true;
      }
      dnode := Some(dnode.value.(ending := true));
      return false;
    }

    /** The transport's `end`. The session's own handler runs first (it was attached in
        `init`): end the readable side, drop the transport and the table, mark the session
        destroyed. Then every hooked bus proxy is torn down, in the order it was hooked. */
    method OnTransportEnd() returns (ghost orders: seq<seq<string>>)
      requires Valid() && dnode.Some?
      modifies this, endHooks
      ensures Valid()
      ensures destroyed && dnode == None && methods == None && endHooks == []
      ensures State() == old(State()).(destroyed := true, dnode := None, methods := None,
        readable := old(readable) + [EndOfStream], endHooks := [])
      ensures |orders| == |old(endHooks)|
      ensures forall i :: 0 <= i < |old(endHooks)| ==> old(endHooks)[i].TornDownFrom(old(endHooks[i].State()), orders[i])
      ensures forall i :: 0 <= i < |old(endHooks)| ==>
        old(endHooks)[i].bus.closeCount == old(endHooks[i].bus.closeCount) + 1
    {
      var hooks := endHooks;
      Invalidate();
      orders := TeardownAll(hooks);
      endHooks := [];
    }

    /** The session's own `end` handler: end the readable side, drop the transport and the
        table, mark the session destroyed. */
    method Invalidate()
      modifies this
      ensures State() == old(State()).(destroyed := true, dnode := None, methods := None,
        readable := old(readable) + [EndOfStream])
    {
      readable := readable + [EndOfStream];
      dnode := None;
      methods := None;
      destroyed := true;
    }

    /** A listener files the session under `id` and pipes it to the accepted socket. */
    method Adopt(newId: string)
      requires Valid()
      modifies this
      ensures Valid()
      ensures State() == old(State()).(id := Some(newId), stream := Some(Accepted))
    {
      id := Some(newId);
      stream := Some(Accepted);
    }

    /** The raw socket's `error`: broken pipes are eaten, anything else is re-emitted. */
    method OnSocketError(err: Option<Error>)
      modifies this
      ensures State() == old(State()).(emitted := old(emitted) +
        match SocketErrorRule(err) case Swallow => [] case Reemit(e) => [ErrorSignal(e)])
    {
      if err.Some? && err.value.code == Some("EPIPE") {
        return;
      }
      emitted := emitted + [ErrorSignal(err)];
    }

    /** The `launchBus` override, given what the supervisor's `launchBus` produced. On success a
        fresh proxy over the raw bus is hooked to the current transport's `end` and sent back;
        with the transport already gone the callback throws and the bus stays open. */
    method LaunchBus(outcome: Result<Bus, Error>) returns (reply: BusReply)
      requires Valid()
      modifies this
      ensures Valid()
      ensures "launchBus" !in supervisor ==> reply == NotCallable && State() == old(State())
      ensures "launchBus" in supervisor && outcome.Err? ==> reply == BusFailed(outcome.error) && State() == old(State())
      ensures "launchBus" in supervisor && outcome.Ok? && old(dnode).None? ==> reply == Crashed && State() == old(State())
      ensures "launchBus" in supervisor && outcome.Ok? && old(dnode).Some? ==>
        && reply.BusReady? && fresh(reply.proxy)
        && reply.proxy.State() == Fresh(outcome.value) && reply.proxy.Valid()
        && reply.proxy.baseline == outcome.value.attached
        && State() == old(State()).(endHooks := old(endHooks) + [reply.proxy])
    {
      if "launchBus" !in supervisor {
        return NotCallable;
      }
      match outcome
      case Err(e) =>
        return BusFailed(e);
      case Ok(b) =>
        if dnode.None? {
          return Crashed;
        }
        var p := new BusProxy(b);
        endHooks := endHooks + [p];
        return BusReady(p);
    }

    /** `connect(...)`: choose the endpoint (no endpoint throws before anything happens),
        register the `remote` callback if one was given, take a new id from `draw` and pipe
        the session to the dialed socket. */
    method Connect(p: Params, draw: seq<string>) returns (r: Result<Endpoint, ConfigError>)
      requires |draw| == 4
      requires Valid()
      modifies this
      ensures Valid()
      ensures r == ConnectEndpoint(p)
      ensures r.Err? ==> State() == old(State())
      ensures r.Ok? ==> State() == old(State()).(id := Some(Concat(draw)), stream := Some(Dialed(r.value)),
        remoteBlocks := old(remoteBlocks) + if p.block then 1 else 0)
    {
      r := ConnectEndpoint(p);
      if r.Err? {
        return;
      }
      if p.block {
        remoteBlocks := remoteBlocks + 1;
      }
      var s := RandomId(draw);
      id := Some(s);
      stream := Some(Dialed(r.value));
    }
  }

  /** Tear down each of `hooks`, in order; `orders[j]` is the order in which the teardown of
      `hooks[j]` visited its names. */
  method TeardownAll(hooks: seq<BusProxy>) returns (ghost orders: seq<seq<string>>)
    requires forall j, k :: 0 <= j < k < |hooks| ==> hooks[j] != hooks[k]
    requires forall j :: 0 <= j < |hooks| ==> hooks[j].Valid()
    modifies hooks
    ensures |orders| == |hooks|
    ensures forall j :: 0 <= j < |hooks| ==> hooks[j].TornDownFrom(old(hooks[j].State()), orders[j])
    ensures forall j :: 0 <= j < |hooks| ==> hooks[j].bus.closeCount == old(hooks[j].bus.closeCount) + 1
  {
    orders := [];
    for i := 0 to |hooks|
      invariant |orders| == i
      invariant forall j :: i <= j < |hooks| ==> hooks[j].Valid() && hooks[j].State() == old(hooks[j].State())
      invariant forall j :: 0 <= j < i ==> hooks[j].TornDownFrom(old(hooks[j].State()), orders[j])
    {
      ghost var order := hooks[i].Teardown();
      orders := orders + [order];
    }
  }
}
