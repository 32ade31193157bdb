/** The table of MCP servers: entries filed by name, overwritten by a newer process of the same name,
    and removed by name when any process of that name exits. */
module McpTable {
  import opened Wrappers
  import opened Text
  import opened Protocol

  class MCPServer {
    const name: string
    /** Started by Spawn, so it has a process and its pipes; a server that only registered has neither. */
    const spawned: bool
    var active: bool
    var tools: seq<string>
    var connected: bool

    constructor (name: string, spawned: bool, tools: seq<string>, connected: bool)
      ensures this.name == name && this.spawned == spawned && active && this.tools == tools
        && this.connected == connected
    {
      this.name, this.spawned, this.tools, this.connected := name, spawned, tools, connected;
      active := true;
    }
  }

  datatype InvokeOutcome = ToolNotFound | ServerNotActive | NilStdin | Sent(server: MCPServer)

  class MCPManager {
    var servers: map<string, MCPServer>
    /** Every server object made, those whose Wait has seen the exit, and those of them whose Unregister
        is still to come. */
    ghost var all: set<MCPServer>
    ghost var exited: set<MCPServer>
    ghost var cleanups: set<MCPServer>
    /** Servers that lost their entry to a Spawn of their name or to an Unregister, and those whose process
        a ShutdownAll terminated. */
    ghost var displaced: set<MCPServer>
    ghost var stopped: set<MCPServer>

    constructor ()
      ensures Valid() && servers == map[] && all == {} && exited == {} && cleanups == {} && displaced == {}
        && stopped == {}
    {
      servers, all, exited, cleanups, displaced, stopped := map[], {}, {}, {}, {}, {};
    }

    predicate Filed(s: MCPServer)
      reads this
    {
      s.name in servers && servers[s.name] == s
    }

    /** Each entry is filed under its server's name, and an inactive one has its cleanup pending. A server
        made is filed, displaced or stopped. */
    ghost predicate Valid()
      reads this, all
    {
      (forall n | n in servers ::
        servers[n] in all && servers[n].name == n && (servers[n].active || servers[n] in cleanups))
      && cleanups <= exited <= all
      && (forall s | s in cleanups :: !s.active)
      && displaced + stopped <= all && forall s | s in all :: Filed(s) <==> s !in displaced + stopped
    }

    /** The server was filed and is no longer. */
    ghost static predicate Removed(s: MCPServer, was: map<string, MCPServer>, now: map<string, MCPServer>) {
      s.name in was && was[s.name] == s && s.name !in now
    }

    ghost function ActiveNames(): set<string>
      reads this, all
      requires Valid()
    {
      set n | n in servers && servers[n].active
    }

    /** The pending cleanups whose server is still the one filed under its name. */
    ghost function FiledCleanups(): set<MCPServer>
      reads this, all
      requires Valid()
    {
      set s | s in cleanups && s.name in servers && servers[s.name] == s
    }

    /** Spawn, when the process starts: RegisterProcess overwrites whatever had the name. */
    method Spawn(name: string) returns (server: MCPServer)
      requires Valid()
      modifies this
      ensures Valid() && fresh(server) && server.name == name && server.spawned && server.active
      ensures servers == old(servers)[name := server] && all == old(all) + {server}
      ensures exited == old(exited) && cleanups == old(cleanups) && stopped == old(stopped)
      ensures displaced == old(displaced) + if name in old(servers) then {old(servers)[name]} else {}
    {
      server := new MCPServer(name, true, [], false);
      if name in servers {
        displaced := displaced + {servers[name]};
      }
      all := all + {server};
      servers := servers[name := server];
    }

    /** DiscoverTools: what the new process answers is appended to its tools. */
    method DiscoverTools(server: MCPServer, found: seq<string>)
      requires Valid()
      modifies server`tools
      ensures Valid() && server.tools == old(server.tools) + found
    {
      server.tools := server.tools + found;
    }

    /** Register: an existing entry keeps its process and its activity. */
    method Register(name: string, tools: seq<string>)
      requires Valid()
      modifies this, all`tools, all`connected
      ensures Valid() && name in servers && servers[name].tools == tools && servers[name].connected
      ensures servers.Keys == old(servers.Keys) + {name} && forall n | n in old(servers) ::
        servers[n] == old(servers[n])
      ensures name !in old(servers) ==> fresh(servers[name]) && servers[name].active && !servers[name].spawned
      ensures forall s | s in old(all) && s != servers[name] ::
        s.tools == old(s.tools) && s.connected == old(s.connected)
      ensures exited == old(exited) && cleanups == old(cleanups) && displaced == old(displaced)
        && stopped == old(stopped)
      ensures old(all) <= all && fresh(all - old(all))
    {
      if name in servers {
        var existing := servers[name];
        existing.connected := true;
        existing.tools := tools;
        return;
      }
      var server := new MCPServer(name, false, tools, true);
      all := all + {server};
      servers := servers[name := server];
    }

    /** Unregister: by name, whichever server has it. */
    method Unregister(name: string)
      requires Valid()
      modifies this, all`active
      ensures Valid() && servers == old(servers) - {name} && all == old(all)
      ensures forall s | s in all :: s.active == (old(s.active) && !(name in old(servers) && old(servers[name]) == s))
      ensures exited == old(exited) && cleanups == old(cleanups) && stopped == old(stopped)
      ensures displaced == old(displaced) + if name in old(servers) then {old(servers)[name]} else {}
    {
      if name in servers {
        var s := servers[name];
        s.active := false;
        displaced := displaced + {s};
        servers := servers - {name};
      }
    }

    /** Wait's write, once the process has exited. */
    method WaitExit(server: MCPServer)
      requires Valid() && server in all && server !in exited
      modifies this, server`active
      ensures Valid() && !server.active
      ensures servers == old(servers) && all == old(all)
      ensures exited == old(exited) + {server} && cleanups == old(cleanups) + {server}
      ensures displaced == old(displaced) && stopped == old(stopped)
    {
      server.active := false;
      exited := exited + {server};
      cleanups := cleanups + {server};
    }

    /** The rest of Wait: the entry of that name goes, whose ever it is, and the process is started again
        unless it is a bridge or the daemon shuts down. Another server loses its entry exactly if the name
        is filed with another. */
    method WaitCleanUp(server: MCPServer, state: State) returns (restart: bool)
      requires Valid() && server in cleanups
      modifies this, all`active
      ensures Valid() && servers == old(servers) - {server.name} && all == old(all)
      ensures exited == old(exited) && cleanups == old(cleanups) - {server}
      ensures forall s | s in all ::
        s.active == (old(s.active) && !(server.name in old(servers) && old(servers[server.name]) == s))
      ensures restart <==> !HasPrefix(server.name, "bridge-") && state != Shutdown
      ensures (exists s :: s != server && Removed(s, old(servers), servers))
              <==> server.name in old(servers) && old(servers)[server.name] != server
      ensures stopped == old(stopped)
      ensures displaced == old(displaced) + if server.name in old(servers) then {old(servers)[server.name]} else {}
    {
      assert server.name in servers && servers[server.name] != server ==> servers[server.name].name == server.name;
      ghost var filed := if server.name in servers then servers[server.name] else server;
      assert filed != server ==> Removed(filed, servers, servers - {server.name});
      Unregister(server.name);
      cleanups := cleanups - {server};
      restart := !HasPrefix(server.name, "bridge-") && state != Shutdown;
    }

    /** One visit of ShutdownAll's loop; it reports whether the entry has a process to terminate. */
    method Terminate(name: string) returns (process: bool)
      requires Valid() && name in servers
      modifies this`servers, this`stopped, all`active
      ensures Valid() && stopped == old(stopped) + {old(servers)[name]}
      ensures servers == old(servers) - {name} && process == old(servers)[name].spawned
      ensures forall s | s in all :: s.active == (old(s.active) && s != old(servers)[name])
    {
      var server := servers[name];
      process := server.spawned;
      server.active := false;
      stopped := stopped + {server};
      servers := servers - {name};
    }

    /** ShutdownAll: nothing stays filed; the processes of the entries are terminated. The processes it
        misses are exactly those displaced before, and those that an earlier ShutdownAll had terminated. */
    method ShutdownAll() returns (terminated: set<MCPServer>)
      requires Valid()
      modifies this`servers, this`stopped, all`active
      ensures Valid() && servers == map[]
      ensures forall s :: s in terminated <==> s.spawned && Removed(s, old(servers), map[])
      ensures forall s | s in all :: s.active == (old(s.active) && !Removed(s, old(servers), map[]))
      ensures forall s | s in all && s.spawned :: s !in terminated <==> s in displaced + old(stopped)
    {
      terminated := {};
      ghost var was := servers;
      EntriesNamed();
      MissedOnes();
      hide Valid;
      while servers != map[]
        invariant Valid()
        invariant forall n | n in servers :: n in was && servers[n] == was[n] && servers[n].name == n
        invariant forall s :: s in terminated <==> s.spawned && Removed(s, was, servers)
        invariant forall s | s in all :: s.active == (old(s.active) && !Removed(s, was, servers))
        decreases |servers|
      {
        var name :| name in servers;
        var server := servers[name];
        var process := Terminate(name);
        if process {
          terminated := terminated + {server};
        }
      }
    }

    lemma {:induction false} MissedOnes()
      requires Valid()
      ensures forall s | s in all :: !Removed(s, servers, map[]) <==> s in displaced + stopped
    {}

    lemma {:induction false} EntriesNamed()
      requires Valid()
      ensures forall n | n in servers :: servers[n].name == n
    {}

    /** An order in which Go's range may visit the table: any. */
    predicate IsOrder(order: seq<string>)
      reads this
    {
      (forall i, j | 0 <= i < j < |order| :: order[i] != order[j])
      && (forall n | n in order :: n in servers) && forall n | n in servers :: n in order
    }

    predicate Lists(name: string, tool: string)
      reads this, servers.Values
    {
      name in servers && tool in servers[name].tools
    }

    /** Visited in this order, entry k is the first whose server lists the tool. */
    ghost predicate FirstLister(order: seq<string>, tool: string, k: int)
      reads this, servers.Values
    {
      0 <= k < |order| && Lists(order[k], tool) && forall j | 0 <= j < k :: !Lists(order[j], tool)
    }

    /** Registered but never spawned, so it has no stdin to write to. */
    predicate Stdinless(name: string)
      reads this, servers.Values
    {
      name in servers && servers[name].active && !servers[name].spawned
    }

    /** resolveServer, the map visited in the order given. */
    method ResolveServer(tool: string, order: seq<string>) returns (name: Option<string>)
      requires Valid() && IsOrder(order)
      ensures name.Some? ==> exists k :: FirstLister(order, tool, k) && name.value == order[k]
      ensures name.None? <==> forall n | n in servers :: !Lists(n, tool)
    {
      for k := 0 to |order|
        invariant forall j | 0 <= j < k :: !Lists(order[j], tool)
      {
        if tool in servers[order[k]].tools {
          assert FirstLister(order, tool, k);
          return Some(order[k]);
        }
      }
      name := None;
    }

    /** Invoke up to the write, the map visited in the order given. A tool that nobody lists is not found;
        else the first server that lists it decides: not active, without a stdin (a nil dereference), or
        sent the request. Only a server in mid-cleanup is not active. */
    method Invoke(tool: string, order: seq<string>) returns (out: InvokeOutcome)
      requires Valid() && IsOrder(order)
      ensures out.ToolNotFound? <==> forall n | n in servers :: !Lists(n, tool)
      ensures out.NilStdin? <==> exists k :: FirstLister(order, tool, k) && Stdinless(order[k])
      ensures out.ServerNotActive? <==> exists k :: FirstLister(order, tool, k) && servers[order[k]] in cleanups
      ensures out.Sent? ==> exists k ::
        FirstLister(order, tool, k) && out.server == servers[order[k]] && out.server.active && out.server.spawned
    {
      hide IsOrder;
      var name := ResolveServer(tool, order);
      if name.None? {
        NoFirst(order, tool);
        return ToolNotFound;
      }
      var server := servers[name.value];
      ghost var k :| FirstLister(order, tool, k) && name.value == order[k];
      OneFirst(order, tool, k);
      if !server.active {
        return ServerNotActive;
      }
      if !server.spawned {
        return NilStdin;
      }
      out := Sent(server);
    }

    lemma {:induction false} OneFirst(order: seq<string>, tool: string, k: int)
      requires FirstLister(order, tool, k)
      ensures forall j | FirstLister(order, tool, j) :: j == k
      ensures Lists(order[k], tool)
    {}

    lemma {:induction false} NoFirst(order: seq<string>, tool: string)
      requires forall n | n in servers :: !Lists(n, tool)
      ensures forall j :: !FirstLister(order, tool, j)
    {}

    /** An invocation meets a nil stdin under this order. */
    ghost predicate NilUnder(order: seq<string>, tool: string)
      reads this, servers.Values
    {
      exists k :: FirstLister(order, tool, k) && Stdinless(order[k])
    }

    static lemma {:induction false} Enumerate(names: set<string>) returns (order: seq<string>)
      ensures forall n :: n in order <==> n in names
      ensures forall i, j | 0 <= i < j < |order| :: order[i] != order[j]
      decreases |names|
    {
      if names == {} {
        order := [];
      } else {
        var n :| n in names;
        var rest := Enumerate(names - {n});
        order := [n] + rest;
      }
    }

    /** An invocation is safe from a nil stdin under every order if and only if no active server that lists
        the tool lacks one. */
    lemma {:induction false} SafeInEveryOrder(tool: string)
      ensures (forall order | IsOrder(order) :: !NilUnder(order, tool)) <==> forall n | Lists(n, tool) :: !Stdinless(n)
    {
      forall n | Lists(n, tool) && Stdinless(n)
        ensures exists order :: IsOrder(order) && NilUnder(order, tool)
      {
        var rest := Enumerate(servers.Keys - {n});
        var order := [n] + rest;
        assert IsOrder(order) && FirstLister(order, tool, 0);
        assert NilUnder(order, tool);
      }
      forall order | IsOrder(order) && NilUnder(order, tool)
        ensures exists n :: Lists(n, tool) && Stdinless(n)
      {
        var k :| FirstLister(order, tool, k) && Stdinless(order[k]);
        assert Lists(order[k], tool);
      }
    }

    /** ActiveCount counts the entries. It exceeds the active ones by exactly the pending cleanups whose
        server is still filed, so by no more than the pending cleanups, and by none when none is. */
    method ActiveCount() returns (n: nat)
      requires Valid()
      ensures n == |ActiveNames()| + |FiledCleanups()|
      ensures |ActiveNames()| <= n <= |ActiveNames()| + |cleanups|
      ensures cleanups == {} ==> n == |ActiveNames()|
    {
      n := |servers|;
      CountEntries();
    }

    lemma {:induction false} CountEntries()
      requires Valid()
      ensures |servers| == |ActiveNames()| + |FiledCleanups()|
      ensures |FiledCleanups()| <= |cleanups|
    {
      var inactive := set n | n in servers && !servers[n].active;
      assert servers.Keys == ActiveNames() + inactive && ActiveNames() !! inactive;
      NamesOf(FiledCleanups());
      assert inactive == set s | s in FiledCleanups() :: s.name;
      Subset(FiledCleanups(), cleanups);
    }

    lemma {:induction false} Subset(a: set<MCPServer>, b: set<MCPServer>)
      requires a <= b
      ensures |a| <= |b|
    {
      assert b == a + (b - a);
    }

    /** Filed servers have different names. */
    lemma {:induction false} NamesOf(ss: set<MCPServer>)
      requires Valid() && forall s | s in ss :: s.name in servers && servers[s.name] == s
      ensures |set s | s in ss :: s.name| == |ss|
    {
      var names := set s | s in ss :: s.name;
      if ss != {} {
        var s :| s in ss;
        var rest := ss - {s};
        NamesOf(rest);
        assert names == (set r | r in rest :: r.name) + {s.name};
        assert s.name !in set r | r in rest :: r.name;
      } else {
        assert names == {};
      }
    }
  }

  // ---------- Any schedule ----------

  datatype TableStep =
    | SpawnStep(name: string)
    | DiscoverStep(k: nat, found: seq<string>)
    | RegisterStep(name: string, tools: seq<string>)
    | UnregisterStep(name: string)
    | ShutdownStep
    | ExitStep(k: nat)
    | CleanUpStep(k: nat, state: State)

  /** The names of the processes started, in order. */
  function Started(steps: seq<TableStep>): seq<string> {
    if steps == [] then []
    else
      var l := steps[|steps| - 1];
      Started(steps[..|steps| - 1]) + if l.SpawnStep? then [l.name] else []
  }

  /** Those of them that have exited. */
  function Gone(steps: seq<TableStep>): set<nat> {
    if steps == [] then {}
    else
      var before, l := steps[..|steps| - 1], steps[|steps| - 1];
      Gone(before) + if l.ExitStep? && l.k < |Started(before)| then {l.k} else {}
  }

  predicate Alive(steps: seq<TableStep>, k: nat) {
    k < |Started(steps)| && k !in Gone(steps)
  }

  /** Two processes that have not exited share a name. */
  ghost predicate TwoShare(steps: seq<TableStep>) {
    exists j: nat, k: nat :: j < k && Alive(steps, j) && Alive(steps, k) && Started(steps)[j] == Started(steps)[k]
  }

  /** Step i starts a process under the name of one that has not exited. */
  ghost predicate Doubles(steps: seq<TableStep>, i: nat) {
    i < |steps| && steps[i].SpawnStep? && exists k: nat ::
      Alive(steps[..i], k) && Started(steps[..i])[k] == steps[i].name
  }

  lemma {:induction false} StepShares(steps: seq<TableStep>, i: nat)
    requires i < |steps| && !TwoShare(steps[..i])
    ensures TwoShare(steps[..i + 1]) <==> Doubles(steps, i)
  {
    var before, after := steps[..i], steps[..i + 1];
    assert after[..i] == before && after[i] == steps[i];
    var n := |Started(before)|;
    assert forall k: nat | k < n :: Alive(after, k) ==> Alive(before, k) && Started(after)[k] == Started(before)[k];
    GoneStarted(before);
    if Doubles(steps, i) {
      var k: nat :| Alive(before, k) && Started(before)[k] == steps[i].name;
      assert Alive(after, k) && Alive(after, n);
    }
  }

  lemma {:induction false} GoneStarted(steps: seq<TableStep>)
    ensures forall k | k in Gone(steps) :: k < |Started(steps)|
  {
    if steps != [] {
      GoneStarted(steps[..|steps| - 1]);
    }
  }

  /** At some moment of a schedule two processes that have not exited share a name if and only if some Spawn
      used the name of a process that had not exited. */
  lemma {:induction false} SharedExactly(steps: seq<TableStep>, n: nat)
    requires n <= |steps|
    ensures (exists i: nat :: i <= n && TwoShare(steps[..i])) <==> exists i: nat :: i < n && Doubles(steps, i)
  {
    hide TwoShare, Doubles;
    if n == 0 {
      NoneShare();
      assert steps[..0] == [];
    } else {
      SharedExactly(steps, n - 1);
      if !TwoShare(steps[..n - 1]) {
        StepShares(steps, n - 1);
      }
    }
  }

  lemma {:induction false} NoneShare()
    ensures !TwoShare([])
  {
  }

  /** Whatever the order of spawns, registrations, exits, cleanups and shutdowns, the table stays valid,
      and so ActiveCount stays within the pending cleanups of the truth. processes are those started. */
  method RunSchedule(steps: seq<TableStep>) returns (m: MCPManager, count: nat, ghost processes: seq<MCPServer>)
    ensures m.Valid()
    ensures count == |m.ActiveNames()| + |m.FiledCleanups()| && |m.FiledCleanups()| <= |m.cleanups|
    ensures |processes| == |Started(steps)| && forall k: nat | k < |processes| ::
      processes[k] in m.all && processes[k].spawned && processes[k].name == Started(steps)[k]
        && (processes[k] in m.exited <==> k in Gone(steps))
  {
    hide Started, Gone;
    m := new MCPManager();
    var started: seq<MCPServer> := [];
    var exited, cleaned: set<MCPServer> := {}, {};
    NothingStarted();
    for i := 0 to |steps|
      invariant m.Valid() && fresh(m) && fresh(m.all)
      invariant exited == m.exited && cleaned <= exited && m.cleanups == exited - cleaned
      invariant |started| == |Started(steps[..i])| && forall j, k | 0 <= j < k < |started| :: started[j] != started[k]
      invariant forall k: nat | k < |started| ::
        started[k] in m.all && started[k].spawned && started[k].name == Started(steps[..i])[k]
          && (started[k] in exited <==> k in Gone(steps[..i]))
    {
      OneMoreStep(steps, i);
      match steps[i]
      case SpawnStep(name) =>
        var s := m.Spawn(name);
        started := started + [s];
      case DiscoverStep(k, found) =>
        if k < |started| {
          m.DiscoverTools(started[k], found);
        }
      case RegisterStep(name, tools) =>
        m.Register(name, tools);
      case UnregisterStep(name) =>
        m.Unregister(name);
      case ShutdownStep =>
        var terminated := m.ShutdownAll();
      case ExitStep(k) =>
        if k < |started| && started[k] !in exited {
          m.WaitExit(started[k]);
          exited := exited + {started[k]};
        }
      case CleanUpStep(k, state) =>
        if k < |started| && started[k] in exited - cleaned {
          var restart := m.WaitCleanUp(started[k], state);
          cleaned := cleaned + {started[k]};
        }
    }
    assert steps[..|steps|] == steps;
    processes := started;
    count := m.ActiveCount();
    m.CountEntries();
  }

  lemma {:induction false} NothingStarted()
    ensures Started([]) == [] && Gone([]) == {}
  {
  }

  lemma {:induction false} OneMoreStep(steps: seq<TableStep>, i: nat)
    requires i < |steps|
    ensures Started(steps[..i + 1]) == Started(steps[..i]) + if steps[i].SpawnStep? then [steps[i].name] else []
    ensures Gone(steps[..i + 1]) == Gone(steps[..i]) + if steps[i].ExitStep? && steps[i].k < |Started(steps[..i])|
      then {steps[i].k} else {}
    ensures forall k | k in Gone(steps[..i]) :: k < |Started(steps[..i])|
    ensures steps[..0] == []
  {
    assert steps[..i + 1][..i] == steps[..i];
    GoneStarted(steps[..i]);
  }

  /** The exit of the older of two live processes of one name removes the newer from the table while the
      newer runs on. */
  method StaleCleanUp(name: string) returns (m: MCPManager, newer: MCPServer, restart: bool)
    ensures m.Valid() && newer in m.all && newer.spawned && newer.name == name
    ensures newer !in m.exited && !newer.active && name !in m.servers
    ensures restart <==> !HasPrefix(name, "bridge-")
  {
    m := new MCPManager();
    var older := m.Spawn(name);
    newer := m.Spawn(name);
    m.WaitExit(older);
    restart := m.WaitCleanUp(older, Idle);
  }

  /** A server that only registered, over its socket, meets a nil stdin when its tool is invoked. */
  method RegisterThenInvoke(name: string, tool: string) returns (out: InvokeOutcome)
    ensures out.NilStdin?
  {
    var m := new MCPManager();
    m.Register(name, [tool]);
    assert m.FirstLister([name], tool, 0) && m.Stdinless([name][0]);
    out := m.Invoke(tool, [name]);
  }
}
