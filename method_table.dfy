/** The table of remotely callable operations a session hands to its transport
    (lib/server.js, the allow-list and `Server.prototype.init`). */
module MethodTable {

  /** The fixed allow-list of supervisor operations. */
  const AllowList: seq<string> := [
    "connect", "start", "disconnect", "stop", "restart", "delete", "gracefulReload",
    "killDaemon", "describe", "list", "dump", "flush", "reloadLogs", "launchBus",
    "sendSignalToProcessName", "sendDataToProcessId", "startup"
  ]

  /** The operations the bridge replaces with its own implementations. */
  const OverrideNames: seq<string> := ["disconnect", "launchBus"]

  /** The name of the back-reference getter installed on the table. */
  const BackrefName: string := "_dnode"

  /** What a table entry invokes: the supervisor's function of that name bound to the
      supervisor, or the bridge's override bound to the table. */
  datatype Entry = Bound(name: string) | Override(name: string)

  type Table = map<string, Entry>

  /** The allow-listed names the supervisor exposes as functions. */
  function Mirrored(callable: set<string>): set<string> {
    set n | n in AllowList && n in callable
  }

  /** The map/filter/reduce pipeline over `names`: one bound entry for every name that is a
      function on the supervisor, and nothing for the others. */
  function Mirror(names: seq<string>, callable: set<string>): (t: Table)
    ensures t.Keys == set n | n in names && n in callable
    ensures forall n :: n in t ==> t[n] == Bound(n)
  {
    if names == [] then map[]
    else
      var rest := Mirror(names[1..], callable);
      assert forall n :: n in names <==> n == names[0] || n in names[1..];
      if names[0] in callable then rest[names[0] := Bound(names[0])] else rest
  }

  /** Builds the method table: mirror the allow-listed functions, then install every
      override whether or not the supervisor has that function. */
  method BuildTable(callable: set<string>) returns (t: Table)
    ensures t.Keys == Mirrored(callable) + {"disconnect", "launchBus"}
    ensures forall n :: n in t ==> t[n] == (if n in OverrideNames then Override(n) else Bound(n))
    ensures BackrefName !in t
  {
    t := Mirror(AllowList, callable);
    for i := 0 to |OverrideNames|
      invariant t.Keys == Mirrored(callable) + Installed(i)
      invariant forall n :: n in t ==> t[n] == (if n in Installed(i) then Override(n) else Bound(n))
    {
      InstalledStep(i);
      t := t[OverrideNames[i] := Override(OverrideNames[i])];
    }
    InstalledAll();
    BackrefNotAllowListed();
  }

  /** The overrides the loop has installed after `i` rounds. */
  function Installed(i: nat): set<string>
    requires i <= |OverrideNames|
  {
    set j | 0 <= j < i :: OverrideNames[j]
  }

  lemma InstalledStep(i: nat)
    requires i < |OverrideNames|
    ensures Installed(i + 1) == Installed(i) + {OverrideNames[i]}
  {
  }

  lemma InstalledAll()
    ensures Installed(|OverrideNames|) == {"disconnect", "launchBus"}
    ensures forall n :: n in Installed(|OverrideNames|) <==> n in OverrideNames
  {
    assert OverrideNames[0] == "disconnect" && OverrideNames[1] == "launchBus";
  }

  /** The back-reference is a getter, not an entry: no allow-listed name collides with it. */
  lemma BackrefNotAllowListed()
    ensures BackrefName !in AllowList
  {
    forall i | 0 <= i < |AllowList| ensures AllowList[i] != BackrefName {
      assert AllowList[i][0] != BackrefName[0];
    }
  }
}
