/** The listening side (lib/server.js, `Server.prototype.listen`): a socket server that wraps
    every accepted connection in a new session and keeps the live sessions by id. */
module Registry {
  import opened Common
  import opened Decisions
  import opened SessionId
  import opened Sessions

  /** `server.emit('local' | 'remote', ref, d)`: a session's signal re-announced by the server
      together with the session. */
  datatype Announcement = Announcement(signal: Signal, session: Session)

  /** `server.sessions[id]` on a plain object: truthy for an own key and for every name the
      object inherits (those are functions). For an id of hex digits that is exactly key
      membership. */
  predicate Occupied(sessions: map<string, Session>, id: string): (b: bool)
    ensures IsHex(id) ==> (b <==> id in sessions)
  {
    InheritedNamesNotHex();
    id in sessions || id in InheritedNames
  }

  class ListeningServer {
    /** `server.sessions`, the live sessions by id. */
    var sessions: map<string, Session>
    var announced: seq<Announcement>
    /** The names the supervisor module exposes as functions, handed to every session. */
    const supervisor: set<string>
    const endpoint: Endpoint
    /** Whether `listen` registered a `listening` callback. */
    const onListening: bool

    /** Every session is filed under its own id. */
    ghost predicate Valid()
      reads this, sessions.Values
    {
      forall k :: k in sessions ==> sessions[k].id == Some(k)
    }

    constructor (supervisor: set<string>, endpoint: Endpoint, onListening: bool)
      ensures Valid() && sessions == map[] && announced == []
      ensures this.supervisor == supervisor && this.endpoint == endpoint && this.onListening == onListening
    {
      sessions := map[];
      announced := [];
      this.supervisor := supervisor;
      this.endpoint := endpoint;
      this.onListening := onListening;
    }

    /** A new connection: a session with the listener's configuration and `autoInit` forced on,
        an id drawn until it is not occupied, filed under that id and piped to the socket. */
    method Accept(draws: seq<seq<string>>) returns (d: Session, k: nat)
      requires Valid()
      requires forall i :: 0 <= i < |draws| ==> |draws[i]| == 4
      requires exists i :: 0 <= i < |draws| && !Occupied(sessions, Concat(draws[i]))
      modifies this
      ensures Valid() && fresh(d) && d.Valid()
      ensures k < |draws| && d.id == Some(Concat(draws[k]))
      ensures d.id.value !in old(sessions) && d.id.value !in InheritedNames
      ensures forall j :: 0 <= j < k ==> Occupied(old(sessions), Concat(draws[j]))
      ensures sessions == old(sessions)[d.id.value := d] && announced == old(announced)
      ensures d.supervisor == supervisor && d.autoInit && d.dnode.Some? && !d.destroyed
      ensures d.stream == Some(Accepted) && d.readable == [] && d.emitted == [] && d.endHooks == []
    {
      var id;
      id, k := FreshId(sessions.Keys + InheritedNames, draws);
      d := new Session(Some(Config(Some(true))), supervisor);
      d.Adopt(id);
      sessions := sessions[id := d];
    }

    /** A session's `end`: delete the entry under its id (nothing happens if there is none). */
    method OnSessionEnd(d: Session)
      requires Valid() && d.id.Some?
      modifies this
      ensures Valid()
      ensures sessions == old(sessions) - {d.id.value} && announced == old(announced)
    {
      sessions := map k | k in sessions && k != d.id.value :: sessions[k];
    }

    /** A session's `local` and `remote` events are re-announced with the session; others are
        not the listener's business. */
    method OnSessionSignal(d: Session, sig: Signal)
      modifies this
      ensures sessions == old(sessions)
      ensures announced == old(announced) + if sig.Local? || sig.Remote? then [Announcement(sig, d)] else []
    {
      if sig.Local? || sig.Remote? {
        announced := announced + [Announcement(sig, d)];
      }
    }
  }

  /** `listen(port, ...)`: the first argument must be a number; a listener is created and bound
      to the chosen endpoint, or the call throws when there is none. */
  method Listen(firstIsNumber: bool, p: Params, supervisor: set<string>) returns (r: Result<ListeningServer, ConfigError>)
    ensures r.Err? <==> ListenEndpoint(firstIsNumber, p).Err?
    ensures r.Err? ==> r.error == ListenEndpoint(firstIsNumber, p).error
    ensures r.Ok? ==>
      && fresh(r.value) && r.value.Valid() && r.value.sessions == map[]
      && r.value.endpoint == ListenEndpoint(firstIsNumber, p).value
      && r.value.supervisor == supervisor && r.value.onListening == p.block
  {
    var e := ListenEndpoint(firstIsNumber, p);
    if e.Err? {
      return Err(e.error);
    }
    var server := new ListeningServer(supervisor, e.value, p.block);
    return Ok(server);
  }

  /** With hex draws the retry loop as written (which also treats inherited names as taken)
      picks the same id as a pure key-membership test would. */
  lemma HexDrawsIgnoreInherited(sessions: map<string, Session>, draw: seq<string>)
    requires forall i :: 0 <= i < |draw| ==> IsHex(draw[i])
    ensures Occupied(sessions, Concat(draw)) <==> Concat(draw) in sessions
  {
    ConcatHex(draw);
  }
}
