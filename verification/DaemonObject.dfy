/** The daemon object: its state and listener, its table of clients, its handlers and the read loop of a
    connection as the source writes them, and the prompt worker. One goroutine is followed; between its
    steps others do what they like. */
module DaemonObject {
  import opened Wrappers
  import opened Text
  import opened ToolCalls
  import opened Protocol
  import opened ToolLoop
  import opened Worker
  import opened Handlers
  import opened Wording
  import Clients = ClientTable

  /** What other goroutines do meanwhile. */
  datatype Move = WriteState(written: State) | CloseTheListener | OnTable(step: Clients.TableStep)

  /** What they do during one shutdown: before its broadcast, before it closes the listener, before its
      client loop, and while that runs. */
  datatype Disturbance = Disturbance(atBroadcast: seq<Move>, atClose: seq<Move>, atLoop: seq<Move>,
      closers: seq<set<nat>>)

  const CALM: Disturbance := Disturbance([], [], [], [])

  /** None of the moves gives a connection the name id. */
  predicate NoneNames(moves: seq<Move>, id: string) {
    forall k | 0 <= k < |moves| :: moves[k].OnTable? ==> Clients.NamesNot(moves[k].step, id)
  }

  predicate Nameless(d: Disturbance, id: string) {
    NoneNames(d.atBroadcast, id) && NoneNames(d.atClose, id) && NoneNames(d.atLoop, id)
  }

  /** They only write the state. */
  predicate OnlyWrite(moves: seq<Move>) {
    forall k | 0 <= k < |moves| :: moves[k].WriteState?
  }

  function AfterWrites(s: State, moves: seq<Move>): State
    requires OnlyWrite(moves)
  {
    if moves == [] then s else moves[|moves| - 1].written
  }

  /** What settles a shutdown's fate: clientsMu is kept for ever; the listener is open; some entry of the
      table is of an open connection; and the connection that asks for it has the name id, alone, and is in
      the table. */
  datatype Glance = Glance(stuck: bool, listenerOpen: bool, entryOpen: bool, own: bool, id: string, closed: bool)

  /** A line read: not an envelope (the error reply carries a fresh id), or a message with its answers. */
  datatype Line = Garbled(freshID: string) | Message(env: Envelope, a: Answers)

  /** A line, and what others do while it is waited for, between its filing and its handling, and during
      the shutdown it may ask for. */
  datatype Input = Input(line: Line, scan: seq<Move>, filing: seq<Move>, d: Disturbance)

  /** Others do no more than write the state while the line is waited for. */
  predicate Calm(input: Input) {
    OnlyWrite(input.scan) && input.filing == [] && input.d == CALM
  }

  predicate AllCalm(inputs: seq<Input>) {
    forall k | 0 <= k < |inputs| :: Calm(inputs[k])
  }

  predicate NamesNobody(input: Input, id: string) {
    NoneNames(input.scan, id) && NoneNames(input.filing, id) && Nameless(input.d, id)
  }

  /** What the daemon was like when a line was handled: whether AddClient waited for ever, the state the
      handler saw, and how its shutdown went if it asked for one. */
  datatype Circumstance = Circumstance(waitsToFile: bool, seen: State, fate: Fate)

  ghost function LineEffects(c: Circumstance, line: Line): seq<Effect> {
    match line
    case Garbled(id) => [Reply("error", id, Error("E_INVALID_PAYLOAD"))]
    case Message(env, a) => if c.waitsToFile then [Hang] else MessageEffects(env, a, c.seen, c.fate)
  }

  function NextIdentity(id: string, line: Line): string {
    if id == "" && line.Message? then line.env.from else id
  }

  /** Only a naming message waits to be filed, and only a message that shuts down meets a fate. */
  predicate Fits(id: string, line: Line, c: Circumstance) {
    (c.waitsToFile ==> Naming(id, line)) && (!c.fate.Ends? ==> ShutsDownBy(c.seen, line))
  }

  /** The line names its connection, which has the name id so far. */
  predicate Naming(id: string, line: Line) {
    id == "" && line.Message? && line.env.from != ""
  }

  /** The line shuts the daemon down if it is handled in state s. */
  predicate ShutsDownBy(s: State, line: Line) {
    line.Message? && ShutsDown(line.env, line.a, s)
  }

  lemma {:induction false} GarbledStopsNot(id: string)
    ensures !Stops([Reply("error", id, Error("E_INVALID_PAYLOAD"))])
  {
  }

  lemma {:induction false} WaitStops()
    ensures Stops([Hang])
  {
  }

  datatype WorkerEnd = Finished | Panicked | Waits

  /** t is t0 and then w up to one of its outputs, at which the goroutine waits for ever. */
  ghost predicate WaitsIn(t0: seq<Effect>, t: seq<Effect>, w: seq<Effect>) {
    exists n :: 0 <= n < |w| && w[n].Output? && t == t0 + w[..n] + [Hang]
  }

  lemma {:induction false} WaitsLonger(t0: seq<Effect>, pre: seq<Effect>, t: seq<Effect>, w: seq<Effect>,
      post: seq<Effect>)
    requires WaitsIn(t0 + pre, t, w)
    ensures WaitsIn(t0, t, pre + w + post)
  {
    var n :| 0 <= n < |w| && w[n].Output? && t == t0 + pre + w[..n] + [Hang];
    var all := pre + w + post;
    assert all[..|pre| + n] == pre + w[..n] && all[|pre| + n] == w[n];
    assert t == t0 + all[..|pre| + n] + [Hang];
  }

  function BeforeShutdown(code: Code): seq<Effect> {
    if code.SecurityCode? then [SetState(Security), UnloadModel("security"), StopServers]
      else [UnloadModel("reset"), StopServers]
  }

  lemma {:induction false} CodeShutsDown(env: Envelope, code: Code, a: Answers, fate: Fate)
    requires env.body.Fields? && ShutdownCode(code)
    ensures CodeEffects(env, code, a, fate)
      == BeforeShutdown(code)
         + WithReply(ShutdownEffects(if code.SecurityCode? then "security_code" else "reset_code", fate), fate,
           Okay(env))
  {
    hide ShutdownEffects, ResponseType;
  }

  class Daemon {
    const table: Clients.ClientTable
    var state: State
    var listenerOpen: bool
    /** The states written, by whichever goroutine. */
    ghost var writes: seq<State>
    /** The effects of the goroutine followed. */
    ghost var trace: seq<Effect>

    constructor (t: Clients.ClientTable)
      requires t.Valid()
      ensures Valid() && table == t && trace == [] && listenerOpen && state == Idle
    {
      table, state, listenerOpen, writes, trace := t, Idle, true, [], [];
    }

    /** The state field holds the last state written, Idle before any. */
    ghost predicate Valid()
      reads this, table, table.conns
    {
      table.Valid() && state == if writes == [] then Idle else writes[|writes| - 1]
    }

    /** Connection me is the followed goroutine's: only a loop that then waits for ever marks it closed. */
    ghost predicate Serves(me: nat)
      reads table, table.conns
    {
      me < |table.conns| && (!table.stuck ==> !table.conns[me].done)
        && (table.conns[me].id != "" ==> table.conns[me].added)
    }

    lemma {:induction false} ServesConn(me: nat)
      requires Serves(me)
      ensures me < |table.conns|
    {
    }

    method Do(e: Effect)
      requires Valid()
      modifies this
      ensures Valid() && trace == old(trace) + [e] && listenerOpen == (old(listenerOpen) && !e.CloseListener?)
      ensures if e.SetState? then state == e.state && writes == old(writes) + [e.state]
              else state == old(state) && writes == old(writes)
    {
      if e.SetState? {
        state := e.state;
        writes := writes + [e.state];
      }
      if e.CloseListener? {
        listenerOpen := false;
      }
      trace := trace + [e];
    }

    method SetState(s: State)
      requires Valid()
      modifies this
      ensures Valid() && trace == old(trace) + [Effect.SetState(s)] && state == s
      ensures writes == old(writes) + [s] && listenerOpen == old(listenerOpen)
    {
      Do(Effect.SetState(s));
    }

    /** Other goroutines move; connection me is not theirs. If none of them gives a connection the name id,
        nobody else comes to have it. */
    method Others(moves: seq<Move>, me: Option<nat>, ghost id: string)
      requires Valid()
      modifies this, table, table.All()
      ensures Valid() && trace == old(trace) && old(writes) <= writes
      ensures old(table.conns) <= table.conns && fresh(table.All() - old(table.All()))
      ensures (old(table.stuck) ==> table.stuck) && (listenerOpen ==> old(listenerOpen))
      ensures me.Some? && old(Serves(me.value)) ==>
        Serves(me.value) && table.conns[me.value].id == old(table.conns[me.value].id)
      ensures me.Some? && id != "" && NoneNames(moves, id) && old(table.NobodyElse(me.value, id)) ==>
        table.NobodyElse(me.value, id)
      ensures me.Some? && old(table.Own(me.value)) && NoneNames(moves, old(table.conns[me.value].id)) ==>
        table.Own(me.value)
      ensures OnlyWrite(moves) ==> state == AfterWrites(old(state), moves) && listenerOpen == old(listenerOpen)
      ensures OnlyWrite(moves) ==> unchanged(table) && forall c | c in table.conns :: unchanged(c)
    {
      if OnlyWrite(moves) {
        OthersWrite(moves);
        return;
      }
      if me.Some? {
        table.OwnConn(me.value);
      }
      hide Clients.ClientTable.Own, Clients.ClientTable.NobodyElse, Valid;
      for k := 0 to |moves|
        invariant Valid() && trace == old(trace) && old(writes) <= writes
        invariant old(table.conns) <= table.conns && fresh(table.All() - old(table.All()))
        invariant (old(table.stuck) ==> table.stuck) && (listenerOpen ==> old(listenerOpen))
        invariant me.Some? && old(Serves(me.value)) ==>
          Serves(me.value) && table.conns[me.value].id == old(table.conns[me.value].id)
        invariant me.Some? && id != "" && NoneNames(moves, id) && old(table.NobodyElse(me.value, id)) ==>
          table.NobodyElse(me.value, id)
        invariant me.Some? && me.value < |old(table.conns)| && old(table.Own(me.value))
                  && NoneNames(moves, old(table.conns[me.value].id)) ==>
          table.Own(me.value) && table.conns[me.value].id == old(table.conns[me.value].id)
      {
        OneMove(moves[k], me, id);
        if me.Some? {
          table.OwnConn(me.value);
          if old(Serves(me.value)) {
            ServesConn(me.value);
          }
        }
      }
    }

    method OneMove(move: Move, me: Option<nat>, ghost id: string)
      requires Valid()
      modifies this`state, this`writes, this`listenerOpen, table, table.All()
      ensures Valid() && old(writes) <= writes
      ensures old(table.conns) <= table.conns && fresh(table.All() - old(table.All()))
      ensures (old(table.stuck) ==> table.stuck) && (listenerOpen ==> old(listenerOpen))
      ensures me.Some? && old(Serves(me.value)) ==>
        Serves(me.value) && table.conns[me.value].id == old(table.conns[me.value].id)
      ensures me.Some? && id != "" && NoneNames([move], id) && old(table.NobodyElse(me.value, id)) ==>
        table.NobodyElse(me.value, id)
      ensures me.Some? && old(table.Own(me.value)) && NoneNames([move], old(table.conns[me.value].id)) ==>
        table.Own(me.value) && table.conns[me.value].id == old(table.conns[me.value].id)
    {
      if me.Some? {
        table.OwnConn(me.value);
      }
      hide Clients.ClientTable.Own, Clients.ClientTable.NobodyElse, Clients.ClientTable.Valid;
      match move
      case WriteState(s) =>
        state := s;
        writes := writes + [s];
      case CloseTheListener =>
        listenerOpen := false;
      case OnTable(step) =>
        assert NoneNames([move], id) ==> Clients.NamesNot([move][0].step, id);
        assert me.Some? && old(table.Own(me.value)) && NoneNames([move], old(table.conns[me.value].id)) ==>
          Clients.NamesNot([move][0].step, old(table.conns[me.value].id));
        if me.None? || Clients.Spares(step, me.value) {
          table.Take(step, if me.Some? then me.value else 0, id);
        }
    }

    method OthersWrite(moves: seq<Move>)
      requires Valid() && OnlyWrite(moves)
      modifies this`state, this`writes
      ensures Valid() && old(writes) <= writes && state == AfterWrites(old(state), moves)
    {
      for k := 0 to |moves|
        invariant Valid() && old(writes) <= writes && state == AfterWrites(old(state), moves[..k])
      {
        state := moves[k].written;
        writes := writes + [moves[k].written];
      }
      assert moves[..|moves|] == moves;
    }

    method SendError(env: Envelope, code: string)
      requires Valid()
      modifies this
      ensures Valid() && trace == old(trace) + [Fail(env, code)]
      ensures state == old(state) && listenerOpen == old(listenerOpen) && writes == old(writes)
    {
      Do(Fail(env, code));
    }

    method SendOK(env: Envelope)
      requires Valid()
      modifies this
      ensures Valid() && trace == old(trace) + [Okay(env)]
      ensures state == old(state) && listenerOpen == old(listenerOpen) && writes == old(writes)
    {
      Do(Okay(env));
    }

    method HandleInputForward(env: Envelope)
      requires Valid()
      modifies this
      ensures Valid() && trace == old(trace) + InputEffects(env) && listenerOpen == old(listenerOpen)
        && old(writes) <= writes
      ensures state == if env.body.Malformed? || env.body.content == "" then old(state) else Processing
    {
      hide ResponseType;
      if env.body.Malformed? || env.body.content == "" {
        SendError(env, "E_INVALID_PAYLOAD");
        return;
      }
      SetState(Processing);
      SendOK(env);
      Do(SpawnWorker);
    }

    ghost function Look(me: Option<nat>): Glance
      reads this`listenerOpen, table, table.conns, table.clients.Values
    {
      var c := me.Some? && me.value < |table.conns|;
      Glance(table.stuck, listenerOpen, table.SomeEntryOpen(), c && table.Own(me.value),
             if c then table.conns[me.value].id else "", c && table.conns[me.value].done)
    }

    /** What a shutdown's fate says. If it ends the table is empty. It does not end if the connection that asks
        for it has its name alone and is in the table, and nobody else comes to have that name, whatever
        others do. If they do nothing meanwhile the fate is settled beforehand. */
    ghost predicate Goes(was: Glance, d: Disturbance, fate: Fate)
      reads this, table
    {
      (fate.BroadcastWaits? || fate.LoopWaits? ==> table.stuck)
      && (!fate.BroadcastWaits? ==> !listenerOpen)
      && (fate.Ends? ==> !table.stuck && table.clients == map[])
      && (was.stuck ==> fate.BroadcastWaits?)
      && (!was.listenerOpen ==> fate.BroadcastWaits? || fate.ListenerClosed?)
      && (was.own && Nameless(d, was.id) ==> !fate.Ends?)
      && (d == CALM ==> state == Shutdown && fate == Settled(was.stuck, was.listenerOpen, was.entryOpen))
    }

    /** shutdown, for connection me if it is one that asks for it. */
    method RunShutdown(reason: string, me: Option<nat>, d: Disturbance) returns (fate: Fate)
      requires Valid() && (me.Some? ==> Serves(me.value))
      modifies this, table, table.All()
      ensures Valid() && trace == old(trace) + ShutdownEffects(reason, fate)
      ensures old(table.conns) <= table.conns && fresh(table.All() - old(table.All()))
      ensures me.Some? ==> Serves(me.value) && table.conns[me.value].id == old(table.conns[me.value].id)
      ensures old(writes) <= writes && |writes| > |old(writes)| && writes[|old(writes)|] == Shutdown
      ensures (old(table.stuck) ==> table.stuck) && (listenerOpen ==> old(listenerOpen))
      ensures Goes(old(Look(me)), d, fate)
    {
      hide Valid, Serves, Clients.ClientTable.Valid, Clients.ClientTable.SomeEntryOpen, Clients.ClientTable.Own;
      if me.Some? {
        ServesConn(me.value);
      }
      SetState(Shutdown);
      Others(d.atBroadcast, me, "");
      if table.stuck {
        Do(Hang);
        assert trace == old(trace) + ([Effect.SetState(Shutdown)] + [Hang]);
        return BroadcastWaits;
      }
      Announce(reason);
      ghost var t := trace;
      fate := CloseAll(reason, me, d);
      assert trace == t + ShutdownEffects(reason, fate)[5..];
    }

    /** shutdown from the listener's close on. */
    method CloseAll(reason: string, me: Option<nat>, d: Disturbance) returns (fate: Fate)
      requires Valid() && (me.Some? ==> Serves(me.value))
      modifies this, table, table.All()
      ensures Valid() && !fate.BroadcastWaits? && trace == old(trace) + ShutdownEffects(reason, fate)[5..]
      ensures old(table.conns) <= table.conns && fresh(table.All() - old(table.All()))
      ensures me.Some? ==> Serves(me.value) && table.conns[me.value].id == old(table.conns[me.value].id)
      ensures old(writes) <= writes && (old(table.stuck) ==> table.stuck) && (listenerOpen ==> old(listenerOpen))
      ensures !listenerOpen && (fate.LoopWaits? ==> table.stuck)
      ensures fate.Ends? ==> !table.stuck && table.clients == map[]
      ensures !old(listenerOpen) ==> fate.ListenerClosed?
      ensures d == CALM ==>
        fate == if !old(listenerOpen) then ListenerClosed
          else if old(table.stuck) || old(table.SomeEntryOpen()) then LoopWaits else Ends
      ensures d == CALM ==> state == old(state)
      ensures me.Some? && old(table.Own(me.value)) && Nameless(d, old(table.conns[me.value].id)) ==> !fate.Ends?
    {
      hide Valid, Serves, Clients.ClientTable.Valid, Clients.ClientTable.SomeEntryOpen, Clients.ClientTable.Own;
      if me.Some? {
        ServesConn(me.value);
      }
      Others(d.atClose, me, "");
      if !listenerOpen {
        Do(Crash);
        return ListenerClosed;
      }
      Do(CloseListener);
      fate := EndShutdown(reason, me, d);
    }

    method EndShutdown(reason: string, me: Option<nat>, d: Disturbance) returns (fate: Fate)
      requires Valid() && (me.Some? ==> Serves(me.value))
      modifies this, table, table.All()
      ensures Valid() && (fate.LoopWaits? || fate.Ends?) && trace == old(trace) + ShutdownEffects(reason, fate)[6..]
      ensures old(table.conns) <= table.conns && fresh(table.All() - old(table.All()))
      ensures me.Some? ==> Serves(me.value) && table.conns[me.value].id == old(table.conns[me.value].id)
      ensures old(writes) <= writes && (old(table.stuck) ==> table.stuck) && (listenerOpen ==> old(listenerOpen))
      ensures fate.LoopWaits? ==> table.stuck
      ensures fate.Ends? ==> !table.stuck && table.clients == map[]
      ensures d == CALM ==> (fate.LoopWaits? <==> old(table.stuck) || old(table.SomeEntryOpen()))
      ensures d == CALM ==> state == old(state)
      ensures me.Some? && old(table.Own(me.value)) && Nameless(d, old(table.conns[me.value].id)) ==> !fate.Ends?
    {
      hide Valid, Serves, Clients.ClientTable.Valid, Clients.ClientTable.SomeEntryOpen, Clients.ClientTable.Own;
      if me.Some? {
        ServesConn(me.value);
      }
      Others(d.atLoop, me, "");
      var waits := CloseConns(me, d.closers);
      if waits {
        Do(Hang);
        return LoopWaits;
      }
      Do(CloseClients);
      Do(HostCommands(reason));
      fate := Ends;
    }

    method Announce(reason: string)
      requires Valid()
      modifies this
      ensures Valid() && trace == old(trace) + [Broadcast(reason), UnloadModel(reason), StopServers, CloseRawClient]
      ensures state == old(state) && listenerOpen == old(listenerOpen) && writes == old(writes)
    {
      Do(Broadcast(reason));
      Do(UnloadModel(reason));
      Do(StopServers);
      Do(CloseRawClient);
    }

    /** The client loop. If connection me alone has its name and is in the table, the loop waits for ever. */
    method CloseConns(me: Option<nat>, closers: seq<set<nat>>) returns (waits: bool)
      requires Valid() && (me.Some? ==> Serves(me.value))
      modifies table, table.All()
      ensures Valid() && table.conns == old(table.conns) && waits == table.stuck
      ensures me.Some? ==> Serves(me.value) && table.conns[me.value].id == old(table.conns[me.value].id)
      ensures old(table.stuck) ==> table.stuck
      ensures !waits ==> table.clients == map[]
      ensures me.Some? && old(table.Own(me.value)) ==> waits
      ensures closers == [] ==> (waits <==> old(table.stuck) || old(table.SomeEntryOpen()))
    {
      if !table.stuck {
        table.CloseAll(if me.Some? && !Clients.ClientTable.AllSpare(closers, me.value) then [] else closers);
      }
      waits := table.stuck;
    }

    method HandleUnlock(env: Envelope, a: Answers)
      requires Valid() && env.body.Fields?
      modifies this
      ensures Valid() && trace == old(trace) + UnlockEffects(env, a)
      ensures state == old(state) && listenerOpen == old(listenerOpen) && writes == old(writes)
    {
      hide ResponseType;
      if env.body.unlockCode == "" {
        SendError(env, "E_INVALID_PAYLOAD");
        return;
      }
      if a.rawStillReady {
        Do(UnlockChecked);
        if a.unlockStatus.Failure? {
          SendError(env, "E_RAW_MODEL_ERROR");
          return;
        }
        if a.unlockStatus.value != "accepted" {
          SendError(env, "E_UNLOCK_DENIED");
          return;
        }
      }
      SendOK(env);
    }

    /** The end of a security or reset code: shutdown and, if that returns, the reply. */
    method ShutDownFor(env: Envelope, reason: string, me: nat, d: Disturbance) returns (fate: Fate)
      requires Valid() && Serves(me)
      modifies this, table, table.All()
      ensures Valid() && trace == old(trace) + WithReply(ShutdownEffects(reason, fate), fate, Okay(env))
      ensures old(table.conns) <= table.conns && fresh(table.All() - old(table.All()))
      ensures Serves(me) && table.conns[me].id == old(table.conns[me].id)
      ensures old(writes) <= writes && (old(table.stuck) ==> table.stuck) && (listenerOpen ==> old(listenerOpen))
      ensures Shutdown in writes[|old(writes)|..] && Goes(old(Look(Some(me))), d, fate)
    {
      hide Valid, Serves, ResponseType, ShutdownEffects, Clients.ClientTable.Valid, Clients.ClientTable.SomeEntryOpen,
           Clients.ClientTable.Own;
      ServesConn(me);
      fate := RunShutdown(reason, Some(me), d);
      assert writes[|old(writes)|..][0] == Shutdown;
      ghost var s := ShutdownEffects(reason, fate);
      if fate.Ends? {
        SendOK(env);
        assert trace == old(trace) + (s + [Okay(env)]);
      } else {
        assert s + [] == s;
      }
    }

    /** A security or a reset code. */
    method ShutDownOnCode(env: Envelope, code: Code, a: Answers, me: nat, d: Disturbance) returns (fate: Fate)
      requires Valid() && env.body.Fields? && Serves(me) && ShutdownCode(code)
      modifies this, table, table.All()
      ensures Valid() && trace == old(trace) + CodeEffects(env, code, a, fate)
      ensures old(table.conns) <= table.conns && fresh(table.All() - old(table.All()))
      ensures Serves(me) && table.conns[me].id == old(table.conns[me].id)
      ensures old(writes) <= writes && (old(table.stuck) ==> table.stuck) && (listenerOpen ==> old(listenerOpen))
      ensures Shutdown in writes[|old(writes)|..] && Goes(old(Look(Some(me))), d, fate)
    {
      hide Valid, Serves, ResponseType, ShutdownEffects, CodeEffects, Goes, Look;
      ServesConn(me);
      PrepareShutdown(code, me);
      ghost var w := writes;
      fate := ShutDownFor(env, if code.SecurityCode? then "security_code" else "reset_code", me, d);
      assert w <= writes && writes[|old(writes)|..] == w[|old(writes)|..] + writes[|w|..];
      CodeShutsDown(env, code, a, fate);
    }

    /** What a security or reset code does before shutdown. */
    method PrepareShutdown(code: Code, me: nat)
      requires Valid()
      modifies this
      ensures Valid() && trace == old(trace) + BeforeShutdown(code) && old(writes) <= writes
      ensures listenerOpen == old(listenerOpen) && Look(Some(me)) == old(Look(Some(me)))
    {
      hide Clients.ClientTable.Valid, Clients.ClientTable.SomeEntryOpen, Clients.ClientTable.Own;
      if code.SecurityCode? {
        SetState(Security);
        Do(UnloadModel("security"));
      } else {
        Do(UnloadModel("reset"));
      }
      Do(StopServers);
    }

    method ActOnCode(env: Envelope, code: Code, a: Answers, me: nat, d: Disturbance) returns (fate: Fate)
      requires Valid() && env.body.Fields? && Serves(me)
      modifies this, table, table.All()
      ensures Valid() && trace == old(trace) + CodeEffects(env, code, a, fate)
      ensures old(table.conns) <= table.conns && fresh(table.All() - old(table.All()))
      ensures Serves(me) && table.conns[me].id == old(table.conns[me].id)
      ensures old(writes) <= writes && (old(table.stuck) ==> table.stuck) && (listenerOpen ==> old(listenerOpen))
      ensures if ShutdownCode(code) then Shutdown in writes[|old(writes)|..] && Goes(old(Look(Some(me))), d, fate)
              else fate.Ends? && Look(Some(me)) == old(Look(Some(me)))
                   && state == (match code case Wake => Listening case IdleCode => Idle case _ => old(state))
    {
      hide Valid, Serves, ResponseType, UnlockEffects, ShutdownEffects, Goes, Clients.ClientTable.SomeEntryOpen,
           Clients.ClientTable.Own;
      ServesConn(me);
      fate := Ends;
      match code
      case Wake =>
        SetState(Listening);
        SendOK(env);
      case IdleCode =>
        SetState(IdleRequested);
        Do(UnloadModel("idle"));
        Do(StopServers);
        SetState(Idle);
        SendOK(env);
      case UnlockCode =>
        HandleUnlock(env, a);
      case UnknownCode =>
        SendError(env, "E_INVALID_PAYLOAD");
      case _ =>
        fate := ShutDownOnCode(env, code, a, me, d);
    }

    /** The checks of handleSystemCode before its switch. */
    method PassCode(env: Envelope, a: Answers, me: nat) returns (passes: bool)
      requires Valid()
      modifies this
      ensures Valid() && passes == CodePasses(env, a) && state == old(state) && writes == old(writes)
      ensures trace == old(trace) + if !passes then SystemCodeEffects(env, a, Ends)
                                    else if a.rawReady then [CodeValidated] else []
      ensures listenerOpen == old(listenerOpen) && Look(Some(me)) == old(Look(Some(me)))
    {
      hide Valid, ResponseType, CodeOf, ToLower, SoftwareOrigin, CodeEffects,
           Clients.ClientTable.SomeEntryOpen, Clients.ClientTable.Own;
      passes := false;
      if env.body.Malformed? {
        SendError(env, "E_INVALID_PAYLOAD");
        return;
      }
      var code := CodeOf(ToLower(env.body.code));
      if ShutdownCode(code) {
        if SoftwareOrigin(ToLower(env.body.origin)) {
          SendError(env, "E_UNAUTHORIZED");
          return;
        }
      }
      if a.rawReady {
        Do(CodeValidated);
        if a.codeStatus.Failure? {
          SendError(env, "E_RAW_MODEL_ERROR");
          return;
        }
        if a.codeStatus.value != "valid" {
          SendError(env, "E_INVALID_CODE");
          return;
        }
      }
      passes := true;
    }

    method HandleSystemCode(env: Envelope, a: Answers, me: nat, d: Disturbance) returns (fate: Fate)
      requires Valid() && Serves(me)
      modifies this, table, table.All()
      ensures Valid() && trace == old(trace) + SystemCodeEffects(env, a, fate)
      ensures old(table.conns) <= table.conns && fresh(table.All() - old(table.All()))
      ensures Serves(me) && table.conns[me].id == old(table.conns[me].id)
      ensures old(writes) <= writes && (old(table.stuck) ==> table.stuck) && (listenerOpen ==> old(listenerOpen))
      ensures if CodePasses(env, a) && ShutdownCode(CodeOf(ToLower(env.body.code))) then
                Shutdown in writes[|old(writes)|..] && Goes(old(Look(Some(me))), d, fate)
              else
                fate.Ends? && Look(Some(me)) == old(Look(Some(me)))
                && state == if !CodePasses(env, a) then old(state)
                            else match CodeOf(ToLower(env.body.code))
                              case Wake => Listening
                              case IdleCode => Idle
                              case _ => old(state)
    {
      hide Valid, Serves, ResponseType, CodeOf, ToLower, CodePasses, CodeEffects, SystemCodeEffects, Goes, Look;
      ServesConn(me);
      fate := Ends;
      var passes := PassCode(env, a, me);
      if passes {
        PassedIsWellFormed(env, a);
        ghost var head: seq<Effect> := if a.rawReady then [CodeValidated] else [];
        assert trace == old(trace) + head;
        fate := ActOnCode(env, CodeOf(ToLower(env.body.code)), a, me, d);
        GateKeeps(env, a, fate);
        assert trace == old(trace) + (head + CodeEffects(env, CodeOf(ToLower(env.body.code)), a, fate));
      }
    }

    method HandleWideModelLoad(env: Envelope, a: Answers)
      requires Valid()
      modifies this
      ensures Valid() && trace == old(trace) + LoadEffects(env, a)
      ensures state == old(state) && listenerOpen == old(listenerOpen) && writes == old(writes)
    {
      hide ResponseType;
      if env.body.Malformed? {
        SendError(env, "E_INVALID_PAYLOAD");
        return;
      }
      var modelPath := env.body.modelPath;
      if modelPath == "" {
        modelPath := a.activeModel;
      }
      if a.modelMissing {
        SendError(env, "E_MODEL_NOT_FOUND");
        return;
      }
      Do(LoadModel(modelPath));
      if a.load.Failure? {
        SendError(env, "E_MODEL_LOAD_FAILED");
        return;
      }
      SendOK(env);
    }

    method HandleWideModelUnload(env: Envelope, a: Answers)
      requires Valid()
      modifies this
      ensures Valid() && trace == old(trace) + UnloadEffects(env, a)
      ensures state == old(state) && listenerOpen == old(listenerOpen) && writes == old(writes)
    {
      hide ResponseType;
      if env.body.Malformed? {
        SendError(env, "E_INVALID_PAYLOAD");
        return;
      }
      var reason := env.body.reason;
      if reason == "" {
        reason := "requested";
      }
      Do(UnloadModel(reason));
      if a.unload.Failure? {
        SendError(env, "E_MODEL_UNLOAD_FAILED");
        return;
      }
      SendOK(env);
    }

    method HandleMCPRegister(env: Envelope)
      requires Valid()
      modifies this
      ensures Valid() && trace == old(trace) + RegisterEffects(env)
      ensures state == old(state) && listenerOpen == old(listenerOpen) && writes == old(writes)
    {
      hide ResponseType;
      if env.body.Malformed? || env.body.serverName == "" {
        SendError(env, "E_INVALID_PAYLOAD");
        return;
      }
      Do(RegisterServer(env.body.serverName));
      SendOK(env);
    }

    method HandleMCPUnregister(env: Envelope)
      requires Valid()
      modifies this
      ensures Valid() && trace == old(trace) + UnregisterEffects(env)
      ensures state == old(state) && listenerOpen == old(listenerOpen) && writes == old(writes)
    {
      hide ResponseType;
      if env.body.Malformed? || env.from == "" {
        SendError(env, "E_INVALID_PAYLOAD");
        return;
      }
      Do(UnregisterServer(env.from));
      SendOK(env);
    }

    method HandleCPMTune(env: Envelope, a: Answers)
      requires Valid()
      modifies this
      ensures Valid() && trace == old(trace) + TuneEffects(env, a)
      ensures state == old(state) && listenerOpen == old(listenerOpen) && writes == old(writes)
    {
      hide ResponseType;
      if env.body.Malformed? || env.body.package == "" {
        SendError(env, "E_INVALID_PAYLOAD");
        return;
      }
      match a.manifest
      case NoManifest =>
        SendError(env, "E_NOT_FOUND");
      case BadManifest =>
        SendError(env, "E_INVALID_MANIFEST");
      case Manifest(tool) =>
        if tool == "" {
          SendError(env, "E_NOT_SUPPORTED");
          return;
        }
        Do(SpawnTune);
        SendOK(env);
    }

    /** Dispatch, past the state and size checks. */
    method Dispatch(env: Envelope, a: Answers, me: nat, d: Disturbance) returns (fate: Fate)
      requires Valid() && Serves(me) && env.size <= MAX_PAYLOAD && state != Shutdown
      modifies this, table, table.All()
      ensures Valid() && trace == old(trace) + HandleEffects(env, a, fate)
      ensures old(table.conns) <= table.conns && fresh(table.All() - old(table.All()))
      ensures Serves(me) && table.conns[me].id == old(table.conns[me].id)
      ensures old(writes) <= writes && (old(table.stuck) ==> table.stuck) && (listenerOpen ==> old(listenerOpen))
      ensures if ShutsDown(env, a, old(state))
        then Shutdown in writes[|old(writes)|..] && Goes(old(Look(Some(me))), d, fate)
              else fate.Ends? && Look(Some(me)) == old(Look(Some(me)))
                   && state == (match Written(env, a, old(state)) case Some(s) => s case None => old(state))
    {
      hide Valid, Serves, ResponseType, KindOf, CodeOf, ToLower, CodePasses, InputEffects, SystemCodeEffects,
           LoadEffects, UnloadEffects, RegisterEffects, UnregisterEffects, TuneEffects, Goes,
           Clients.ClientTable.SomeEntryOpen, Clients.ClientTable.Own;
      ServesConn(me);
      fate := Ends;
      match KindOf(env.msgType)
      case InputForward => HandleInputForward(env);
      case SystemCode => fate := HandleSystemCode(env, a, me, d);
      case McpRegister => HandleMCPRegister(env);
      case McpUnregister => HandleMCPUnregister(env);
      case McpResult =>
        if env.body.Malformed? {
          SendError(env, "E_INVALID_PAYLOAD");
        }
      case AuditRequest => SendOK(env);
      case StatusRequest => SendOK(env);
      case WideModelLoad => HandleWideModelLoad(env, a);
      case WideModelUnload => HandleWideModelUnload(env, a);
      case CpmTune => HandleCPMTune(env, a);
      case UnknownKind => SendError(env, "E_UNKNOWN_TYPE");
    }

    /** HandleMessage for connection me; it returns exactly if the fate is Ends. Then it has attempted one
        direct reply, or none to an unanswered message, and else none. A system code is answered with ok
        exactly if it passes its gate and is accepted. The state is the one the message writes; only a
        shutdown, with its waits, lets others write after it. In the words of the protocol, message type, code,
        origin and replies, it does what MessageAsSaid says. */
    method HandleMessage(env: Envelope, a: Answers, me: nat, d: Disturbance) returns (fate: Fate)
      requires Valid() && Serves(me)
      modifies this, table, table.All()
      ensures Valid() && trace == old(trace) + MessageEffects(env, a, old(state), fate)
      ensures old(table.conns) <= table.conns && fresh(table.All() - old(table.All()))
      ensures Serves(me) && table.conns[me].id == old(table.conns[me].id)
      ensures old(writes) <= writes && (old(table.stuck) ==> table.stuck) && (listenerOpen ==> old(listenerOpen))
      ensures if fate != Ends then Replies(trace[|old(trace)|..]) == []
              else if Unanswered(env, old(state)) then trace == old(trace)
              else OneReply(trace[|old(trace)|..], env)
      ensures IsCode(env, old(state)) && fate.Ends? ==>
        (Okay(env) in trace[|old(trace)|..] <==> CodePasses(env, a) && Accepts(env, a))
      ensures if ShutsDown(env, a, old(state))
        then Shutdown in writes[|old(writes)|..] && Goes(old(Look(Some(me))), d, fate)
              else fate.Ends? && Look(Some(me)) == old(Look(Some(me)))
                   && state == (match Written(env, a, old(state)) case Some(s) => s case None => old(state))
      ensures MessageAsSaid(trace[|old(trace)|..], env, a, old(state), fate)
      ensures var left := LeavesState(env, a, old(state));
        (ShutsDown(env, a, old(state)) <==> left == Some(Shutdown))
        && (left != Some(Shutdown) ==> state == match left case Some(s) => s case None => old(state))
    {
      hide MessageAsSaid, LeavesState, Valid, Serves, ResponseType, KindOf, CodeOf, ToLower, CodePasses, HandleEffects,
           Goes, Accepts, Replies, OneReply, Stops, SystemCodeEffects, AcceptedInput,
           Clients.ClientTable.SomeEntryOpen, Clients.ClientTable.Own;
      ServesConn(me);
      fate := Ends;
      if state == Shutdown {
        SendError(env, "E_SHUTDOWN");
      } else if env.size > MAX_PAYLOAD {
        SendError(env, "E_TOO_LARGE");
        TooLarge(env, a);
      } else {
        fate := Dispatch(env, a, me, d);
      }
      ghost var own := MessageEffects(env, a, old(state), fate);
      assert trace[|old(trace)|..] == own;
      MessageReplies(env, a, old(state), fate);
      MessagesAsSaid(env, a, old(state), fate);
      WrittenInWords(env, a, old(state));
      if IsCode(env, old(state)) && fate.Ends? {
        CodeIsHandled(env, a, fate);
        CodeAccepted(env, a, fate);
      }
    }

    // ---------- The prompt worker ----------

    /** SendToClient, after others have moved: it needs clientsMu, and waits for ever if that is kept. */
    method SendToClient(out: Effect, moves: seq<Move>) returns (waits: bool)
      requires Valid() && out.Output?
      modifies this, table, table.All()
      ensures Valid() && trace == old(trace) + [if waits then Hang else out]
      ensures old(table.conns) <= table.conns && fresh(table.All() - old(table.All()))
      ensures waits == table.stuck && (old(table.stuck) ==> table.stuck)
    {
      hide Valid;
      Others(moves, None, "");
      waits := table.stuck;
      Do(if waits then Hang else out);
    }

    method Close(from: string, session: string, text: string, others: nat -> seq<Move>) returns (waits: bool)
      requires Valid()
      modifies this, table, table.All()
      ensures Valid() && (waits ==> table.stuck) && (old(table.stuck) ==> waits)
      ensures old(table.conns) <= table.conns && fresh(table.All() - old(table.All()))
      ensures if waits then WaitsIn(old(trace), trace, Closing(from, session, text))
              else trace == old(trace) + Closing(from, session, text) && state == Listening
    {
      hide Valid;
      waits := SendToClient(Output(from, session, TextOutput, text), others(0));
      if waits {
        assert trace == old(trace) + Closing(from, session, text)[..0] + [Hang];
        return;
      }
      SetState(Listening);
    }

    method SendToolResults(from: string, session: string, results: seq<string>, others: nat -> seq<Move>)
        returns (waits: bool)
      requires Valid()
      modifies this, table, table.All()
      ensures Valid() && (waits ==> table.stuck) && (old(table.stuck) && results != [] ==> waits)
        && (old(table.stuck) ==> table.stuck)
      ensures old(table.conns) <= table.conns && fresh(table.All() - old(table.All()))
      ensures if waits then WaitsIn(old(trace), trace, ToolOutputs(from, session, results))
              else trace == old(trace) + ToolOutputs(from, session, results)
    {
      hide Valid;
      ghost var outs := ToolOutputs(from, session, results);
      for k := 0 to |results|
        invariant Valid() && trace == old(trace) + outs[..k] && (old(table.stuck) ==> table.stuck && k == 0)
        invariant old(table.conns) <= table.conns && fresh(table.All() - old(table.All()))
      {
        waits := SendToClient(Output(from, session, ToolOutput, results[k]), others(k));
        if waits {
          assert trace == old(trace) + outs[..k] + [Hang];
          return;
        }
      }
      waits := false;
    }

    /** The tool loop on the first response, then the outputs. */
    method Deliver(resp: string, p: string, from: string, session: string, o: Oracle, others: nat -> seq<Move>)
        returns (end: WorkerEnd)
      requires Valid()
      modifies this, table, table.All()
      ensures Valid() && (end.Waits? ==> table.stuck)
      ensures old(table.conns) <= table.conns && fresh(table.All() - old(table.All()))
      ensures end.Panicked? <==> LoopFrom(resp, p, session, o, 0).final.None?
      ensures old(table.stuck) ==> !end.Finished?
      ensures var w := Delivery(from, session, LoopFrom(resp, p, session, o, 0));
        if end.Waits? then WaitsIn(old(trace), trace, w)
          else trace == old(trace) + w && (end.Finished? ==> state == Listening)
    {
      hide Valid, LoopFrom, ToolOutputs, Closing, WaitsIn;
      var final, toolResults, t := RunToolLoop(resp, p, session, o);
      Record(t);
      if final.None? {
        return WorkerEnd.Panicked;
      }
      ghost var t0, outs, close := old(trace), ToolOutputs(from, session, toolResults),
        Closing(from, session, final.value);
      ghost var t1 := t0 + t;
      var waits := SendToolResults(from, session, toolResults, others);
      if waits {
        WaitsLonger(t0, t, trace, outs, close);
        assert t + outs + close == t + (outs + close);
        return Waits;
      }
      assert trace == t0 + (t + outs);
      waits := Close(from, session, final.value, others);
      if waits {
        WaitsLonger(t0, t + outs, trace, close, []);
        assert t + outs + close + [] == t + (outs + close);
        return Waits;
      }
      assert trace == t0 + (t + (outs + close));
      end := Finished;
    }

    /** The loop's effects join the trace; none of them needs clientsMu or writes the state. */
    ghost method Record(t: seq<Effect>)
      requires Valid()
      modifies this`trace
      ensures Valid() && trace == old(trace) + t
    {
      trace := trace + t;
    }

    method Answer(p: string, from: string, session: string, model: string, a: PromptAnswers, others: nat -> seq<Move>)
        returns (end: WorkerEnd)
      requires Valid()
      modifies this, table, table.All()
      ensures Valid() && (end.Waits? ==> table.stuck)
      ensures old(table.conns) <= table.conns && fresh(table.All() - old(table.All()))
      ensures end.Panicked? <==> a.first.Success? && LoopFrom(a.first.value, p, session, a.tools, 0).final.None?
      ensures old(table.stuck) ==> !end.Finished?
      ensures var w := Generation(p, from, session, model, a);
        if end.Waits? then WaitsIn(old(trace), trace, w)
          else trace == old(trace) + w && (end.Finished? ==> state == Listening)
    {
      hide Valid, LoopFrom, Delivery, Closing, WaitsIn;
      if model != "" {
        Do(HotSwap(model));
      }
      Do(Generated(p, a.first));
      ghost var t0, pre := old(trace), (if model != "" then [HotSwap(model)] else []) + [Generated(p, a.first)];
      assert trace == t0 + pre;
      if a.first.Failure? {
        var text := "Error: " + a.first.error;
        var waits := Close(from, session, text, others);
        if waits {
          WaitsLonger(t0, pre, trace, Closing(from, session, text), []);
          assert pre + Closing(from, session, text) + [] == Generation(p, from, session, model, a);
          return Waits;
        }
        assert trace == t0 + (pre + Closing(from, session, text));
        return Finished;
      }
      end := Deliver(a.first.value, p, from, session, a.tools, others);
      ghost var w := Delivery(from, session, LoopFrom(a.first.value, p, session, a.tools, 0));
      if end.Waits? {
        WaitsLonger(t0, pre, trace, w, []);
        assert pre + w + [] == Generation(p, from, session, model, a);
      } else {
        assert trace == t0 + (pre + w);
      }
    }

    /** processPrompt. It has the worker's effects, and ends in Listening or by a panic of the tool loop; or
        it waits for ever at an output, as a client loop keeps clientsMu. If one does so from the start the
        worker never finishes. */
    method ProcessPrompt(prompt: string, session: string, from: string, a: PromptAnswers, others: nat -> seq<Move>)
        returns (end: WorkerEnd)
      requires Valid()
      modifies this, table, table.All()
      ensures Valid() && (end.Waits? ==> table.stuck)
      ensures old(table.conns) <= table.conns && fresh(table.All() - old(table.All()))
      ensures end.Panicked? <==> Panics(prompt, session, a)
      ensures old(table.stuck) ==> !end.Finished?
      ensures var w := WorkerEffects(prompt, session, from, a);
        if end.Waits? then WaitsIn(old(trace), trace, w)
          else trace == old(trace) + w && (end.Finished? ==> state == Listening)
    {
      hide Valid, Generation, LoopFrom, Closing, DenialText, WaitsIn;
      Do(Touch);
      Do(PromptValidated(prompt, a.verdict));
      ghost var t0, pre := old(trace), [Touch, PromptValidated(prompt, a.verdict)];
      assert trace == t0 + pre;
      if Denies(a.verdict) {
        var waits := Close(from, session, DenialText(a.verdict), others);
        ghost var w := Closing(from, session, DenialText(a.verdict));
        if waits {
          WaitsLonger(t0, pre, trace, w, []);
          assert pre + w + [] == WorkerEffects(prompt, session, from, a);
          return Waits;
        }
        assert trace == t0 + (pre + w);
        return Finished;
      }
      var effective := prompt;
      if a.verdict.action == "modify" && a.verdict.modified != "" {
        effective := a.verdict.modified;
      }
      end := Answer(effective, from, session, a.verdict.model, a, others);
      ghost var w := Generation(effective, from, session, a.verdict.model, a);
      if end.Waits? {
        WaitsLonger(t0, pre, trace, w, []);
        assert pre + w + [] == WorkerEffects(prompt, session, from, a);
      } else {
        assert trace == t0 + (pre + w);
      }
    }

    // ---------- One connection ----------

    /** The first envelope with a sender names connection me and files it. The name is set before AddClient
        asks for clientsMu; if that is kept for ever, AddClient waits for ever. */
    method NameAndFile(me: nat, from: string) returns (waits: bool)
      requires Valid() && Serves(me)
      modifies table, table.All()
      ensures Valid() && table.conns == old(table.conns) && table.stuck == old(table.stuck)
      ensures table.conns[me].id == if old(table.conns[me].id) == "" then from else old(table.conns[me].id)
      ensures table.conns[me].done == old(table.conns[me].done)
      ensures waits <==> old(table.conns[me].id) == "" && from != "" && old(table.stuck)
      ensures !waits ==> Serves(me) && See(me) == FiledAs(old(See(me)), from)
      ensures !waits && old(table.Own(me)) ==> table.Own(me)
      ensures !waits && old(table.conns[me].id) == "" && from != "" && old(table.NobodyElse(me, from)) ==> table.Own(me)
    {
      var cc := table.conns[me];
      var named := table.Identify(cc, from);
      waits := named && table.stuck;
      if named && !waits {
        table.AddClient(cc);
        assert table.clients[from] == cc && !cc.done;
        assert table.SomeEntryOpen();
      }
    }

    /** What a connection's lines meet. */
    ghost function See(me: nat): World
      reads this, table, table.conns, table.clients.Values
      requires me < |table.conns|
    {
      World(state, table.conns[me].id, table.conns[me].done, table.stuck, listenerOpen, table.SomeEntryOpen())
    }

    /** HandleMessage, and what the next line meets after it. */
    method Handle(env: Envelope, a: Answers, me: nat, d: Disturbance) returns (fate: Fate)
      requires Valid() && Serves(me)
      modifies this, table, table.All()
      ensures Valid() && trace == old(trace) + MessageEffects(env, a, old(state), fate)
      ensures old(table.conns) <= table.conns && fresh(table.All() - old(table.All()))
      ensures Serves(me) && table.conns[me].id == old(table.conns[me].id) && (old(table.stuck) ==> table.stuck)
      ensures !fate.Ends? ==> ShutsDown(env, a, old(state))
      ensures d == CALM ==>
        (ShutsDown(env, a, old(state)) ==> fate == FateIn(old(See(me))))
          && (fate.Ends? ==> See(me) == AfterMessage(old(See(me)), env, a))
      ensures old(table.Own(me)) && Nameless(d, old(table.conns[me].id)) && fate.Ends? ==>
        !ShutsDown(env, a, old(state)) && table.Own(me)
    {
      hide Valid, ResponseType, MessageEffects, ShutsDown, Written, Accepts, CodePasses, IsCode, Unanswered, OneReply,
           Replies, Clients.ClientTable.Own;
      fate := HandleMessage(env, a, me, d);
    }

    /** A line that has been read. */
    method HandleRead(line: Line, me: nat, filing: seq<Move>, d: Disturbance)
        returns (ghost c: Circumstance, stopped: bool)
      requires Valid() && Serves(me)
      modifies this, table, table.All()
      ensures Valid() && trace == old(trace) + LineEffects(c, line)
      ensures old(table.conns) <= table.conns && fresh(table.All() - old(table.All()))
      ensures me < |table.conns| && table.conns[me].id == NextIdentity(old(table.conns[me].id), line)
      ensures stopped <==> Stops(LineEffects(c, line))
      ensures (!stopped ==> Serves(me)) && (old(table.stuck) ==> table.stuck)
      ensures Fits(old(table.conns[me].id), line, c) && (c.waitsToFile ==> table.stuck)
      ensures filing == [] && d == CALM ==>
        c.seen == old(state) && (stopped <==> StopsLine(old(See(me)), line))
        && (ShutsDownBy(c.seen, line) && !c.waitsToFile ==> c.fate == FateIn(Filed(old(See(me)), line)))
        && (!stopped ==> See(me) == AfterLine(old(See(me)), line))
      ensures var id := NextIdentity(old(table.conns[me].id), line);
        old(Alone(me, line)) && NoneNames(filing, id) && Nameless(d, id) ==>
          (ShutsDownBy(c.seen, line) ==> stopped) && (!stopped ==> table.Own(me))
    {
      hide Valid, Serves, ResponseType, MessageEffects, ShutsDown, Stops, Written, AfterMessage, FateIn, FiledAs,
           Clients.ClientTable.Own, Clients.ClientTable.NobodyElse, Clients.ClientTable.SomeEntryOpen;
      ServesConn(me);
      c := Circumstance(false, state, Ends);
      if line.Garbled? {
        Do(Reply("error", line.freshID, Error("E_INVALID_PAYLOAD")));
        GarbledStopsNot(line.freshID);
        return c, false;
      }
      var waits := NameAndFile(me, line.env.from);
      if waits {
        Do(Hang);
        WaitStops();
        return c.(waitsToFile := true), true;
      }
      Others(filing, Some(me), "");
      ServesConn(me);
      ghost var seen := state;
      var fate := Handle(line.env, line.a, me, d);
      MessageReplies(line.env, line.a, seen, fate);
      c := Circumstance(false, seen, fate);
      stopped := fate != Ends;
    }

    /** One turn of ReadLoop, from the scan on. If others only write the state while the line is waited for,
        all is settled by what the line meets. Whatever they do, if connection me alone has its name and is
        in the table, or gets there by this line, and none of them comes to have that name, a message that
        shuts the daemon down stops it. */
    method HandleLine(input: Input, me: nat) returns (ghost c: Circumstance, stopped: bool)
      requires Valid() && Serves(me)
      modifies this, table, table.All()
      ensures Valid() && trace == old(trace) + LineEffects(c, input.line)
      ensures old(table.conns) <= table.conns && fresh(table.All() - old(table.All()))
      ensures me < |table.conns| && table.conns[me].id == NextIdentity(old(table.conns[me].id), input.line)
      ensures stopped <==> Stops(LineEffects(c, input.line))
      ensures (!stopped ==> Serves(me)) && (old(table.stuck) ==> table.stuck)
      ensures Fits(old(table.conns[me].id), input.line, c) && (c.waitsToFile ==> table.stuck)
      ensures Calm(input) ==>
        var w := Seeing(old(See(me)), input);
        c.seen == w.state && (stopped <==> StopsLine(w, input.line))
        && (ShutsDownBy(c.seen, input.line) && !c.waitsToFile ==> c.fate == FateIn(Filed(w, input.line)))
        && (!stopped ==> See(me) == AfterLine(w, input.line))
      ensures old(Alone(me, input.line)) && NamesNobody(input, NextIdentity(old(table.conns[me].id), input.line)) ==>
        (ShutsDownBy(c.seen, input.line) ==> stopped) && (!stopped ==> table.Own(me))
    {
      hide Valid, Serves, LineEffects, ShutsDown, Stops, StopsLine, AfterLine, Fits,
           Clients.ClientTable.SomeEntryOpen, Clients.ClientTable.NobodyElse;
      ServesConn(me);
      Others(input.scan, Some(me), NextIdentity(table.conns[me].id, input.line));
      ServesConn(me);
      c, stopped := HandleRead(input.line, me, input.filing, input.d);
    }

    /** Connection me alone has its name and is in the table; or the line is the first to name it, and nobody
        has that name. */
    ghost predicate Alone(me: nat, line: Line)
      reads this, table, table.conns
    {
      me < |table.conns|
      && (table.Own(me) || (Naming(table.conns[me].id, line) && table.NobodyElse(me, line.env.from)))
    }

    /** Connection me alone has its name and is in the table, or the first line puts it there; and none of the
        others comes to have that name. */
    ghost predicate StaysAlone(me: nat, inputs: seq<Input>)
      reads this, table, table.conns
    {
      inputs != [] && Alone(me, inputs[0].line)
      && forall k | 0 <= k < |inputs| :: NamesNobody(inputs[k], NextIdentity(table.conns[me].id, inputs[0].line))
    }

    /** ReadLoop of connection me over the lines that arrive. It ends when they are all handled, when a line
        stops it, or when it finds the connection marked closed, which only a client loop that waits for
        ever can have done. cs are the circumstances of the lines handled. If others only write the state in
        between, what is answered is settled. Whatever they do, a connection that stays alone with its name
        gets no further than the first message that shuts the daemon down. */
    method ReadLoop(inputs: seq<Input>, me: nat) returns (stopped: bool, ghost cs: seq<Circumstance>)
      requires Valid() && Serves(me)
      modifies this, table, table.All()
      ensures Valid() && |cs| <= |inputs| && trace == old(trace) + Conversation(cs, Lines(inputs)[..|cs|])
      ensures Handled(old(table.conns[me].id), Lines(inputs), cs, stopped)
      ensures me < |table.conns| && (!stopped && |cs| < |inputs| ==> table.conns[me].done && table.stuck)
      ensures table.conns[me].id == Identity(old(table.conns[me].id), Lines(inputs)[..|cs|])
      ensures AllCalm(inputs) ==>
        Answered(cs, Lines(inputs)[..|cs|]) == Expected(old(See(me)), inputs)
      ensures old(StaysAlone(me, inputs)) ==>
        forall k | 0 <= k < |cs| && ShutsDownBy(cs[k].seen, inputs[k].line) :: stopped && k == |cs| - 1
    {
      hide Valid, Serves, LineEffects, Fits, Stops, Handled, Conversation, Identity, Answered, Calm, StopsLine,
           AfterLine, Seeing, ShutsDownBy, OwedFor, Clients.ClientTable.Own, Clients.ClientTable.NobodyElse,
           Clients.ClientTable.SomeEntryOpen, NamesNobody, NextIdentity, Naming, AllCalm, Expected, Alone, Owes;
      ServesConn(me);
      ghost var t0, id0, lines, w0 := trace, table.conns[me].id, Lines(inputs), See(me);
      ghost var calm, alone := AllCalm(inputs), StaysAlone(me, inputs);
      ghost var name := if inputs != [] then NextIdentity(id0, inputs[0].line) else "";
      cs := [];
      NoneHandled(id0, lines);
      if calm {
        OwesAll(w0, inputs);
      }
      assert alone ==> inputs != [] && Alone(me, inputs[0].line);
      assert alone ==> forall k | 0 <= k < |inputs| :: NamesNobody(inputs[k], name);
      hide StaysAlone, See;
      for k := 0 to |inputs|
        invariant Valid() && Serves(me) && me < |table.conns| && |cs| == k && fresh(table.All() - old(table.All()))
        invariant trace == t0 + Conversation(cs, lines[..k])
        invariant table.conns[me].id == Identity(id0, lines[..k])
        invariant Handled(id0, lines, cs, false)
        invariant calm ==> Owes(w0, inputs, cs, See(me))
        invariant alone && k < |inputs| ==>
          Alone(me, inputs[k].line) && NextIdentity(table.conns[me].id, inputs[k].line) == name
        invariant alone ==> forall j | 0 <= j < k :: !ShutsDownBy(cs[j].seen, inputs[j].line)
      {
        ghost var w := See(me);
        SeesClosed(me);
        if calm {
          OwesNext(w0, inputs, cs, w);
        }
        if table.conns[me].done {
          ClosedIsStuck(me);
          return false, cs;
        }
        ghost var c;
        c, stopped := HandleLine(inputs[k], me);
        OneMoreLine(cs, lines, k, c, id0);
        if calm {
          OwesLess(w0, inputs, cs, w, c, See(me));
        }
        Regroup(t0, Conversation(cs, lines[..k]), LineEffects(c, lines[k]));
        cs := cs + [c];
        if stopped {
          return true, cs;
        }
        ServesConn(me);
        if alone && k + 1 < |inputs| {
          StillAlone(me, inputs[k + 1].line);
        }
      }
      stopped := false;
      if calm {
        OwesNothing(w0, inputs, cs, See(me));
      }
    }

    lemma {:induction false} StillAlone(me: nat, next: Line)
      requires table.Own(me)
      ensures Alone(me, next) && NextIdentity(table.conns[me].id, next) == table.conns[me].id
    {
    }

    lemma {:induction false} SeesClosed(me: nat)
      requires Serves(me)
      ensures me < |table.conns| && See(me).closed == table.conns[me].done
    {
    }

    lemma {:induction false} ClosedIsStuck(me: nat)
      requires Serves(me) && table.conns[me].done
      ensures table.stuck
    {
    }
  }

  // ---------- Witnesses ----------

  /** A daemon with one connection, not yet named. */
  method NewDaemon() returns (d: Daemon)
    ensures fresh(d) && fresh(d.table) && fresh(d.table.All()) && d.Valid() && d.Serves(0)
    ensures d.See(0) == World(Idle, "", false, false, true, false) && d.trace == []
  {
    var t := new Clients.ClientTable();
    var c := t.Accept();
    d := new Daemon(t);
  }

  /** A security or reset code as the first message of a connection that names itself is never answered. */
  method NamedCodeHangs(env: Envelope, a: Answers) returns (d: Daemon, stopped: bool)
    requires env.from != "" && ShutsDown(env, a, Idle)
    ensures stopped && Replies(d.trace) == []
  {
    hide ShutsDown, Replies, Stops, LineEffects, Fits, Clients.ClientTable.Valid, Daemon.Valid, Daemon.See;
    d := NewDaemon();
    ghost var c;
    c, stopped := d.HandleLine(Input(Message(env, a), [], [], CALM), 0);
    assert d.trace == LineEffects(c, Message(env, a));
    LineHeads(c, Message(env, a));
    assert |Heads(Replies(d.trace))| == |Replies(d.trace)|;
  }

  /** Two such codes on a connection without a name, with no client filed: the first is answered; once Idle has
      been written by another goroutine the second panics, since the listener is closed. The raw client is
      closed by then, so the second needs no answer of it. */
  method SecondCodePanics(env: Envelope, a: Answers, b: Answers)
      returns (d: Daemon, first: bool, second: bool, ghost c: Circumstance)
    requires env.from == "" && ShutsDown(env, a, Idle) && !b.rawReady
    ensures !first && second && c.fate.ListenerClosed? && Crash in d.trace
  {
    NotReadyPasses(env, a, b);
    hide ShutsDown, Stops, LineEffects, Fits, Clients.ClientTable.Valid, Daemon.Valid, Daemon.Serves, Daemon.See;
    d := NewDaemon();
    c, first := d.HandleLine(Input(Message(env, a), [], [], CALM), 0);
    ghost var t := d.trace;
    c, second := d.HandleLine(Input(Message(env, b), [WriteState(Idle)], [], CALM), 0);
    PanicsInTrace(env, b, c);
    assert d.trace == t + LineEffects(c, Message(env, b));
  }

  lemma {:induction false} NotReadyPasses(env: Envelope, a: Answers, b: Answers)
    requires ShutsDown(env, a, Idle) && !b.rawReady
    ensures ShutsDown(env, b, Idle)
  {
    hide KindOf, CodeOf, ToLower, SoftwareOrigin;
  }

  lemma {:induction false} PanicsInTrace(env: Envelope, b: Answers, c: Circumstance)
    requires ShutsDown(env, b, c.seen) && c.fate.ListenerClosed? && !c.waitsToFile
    ensures Crash in LineEffects(c, Message(env, b))
  {
    hide KindOf, CodeOf, ToLower, SoftwareOrigin, CodePasses;
    GateKeeps(env, b, c.fate);
    PassedIsWellFormed(env, b);
    var code := CodeOf(ToLower(env.body.code));
    CodeShutsDown(env, code, b, c.fate);
    var reason := if code.SecurityCode? then "security_code" else "reset_code";
    assert ShutdownEffects(reason, c.fate)[5] == Crash;
    CodeIsHandled(env, b, c.fate);
  }

  // ---------- What settles a line ----------

  /** The state; the connection's name and whether it is marked closed; whether clientsMu is kept for ever,
      the listener is open, and some entry of the table is of an open connection. */
  datatype World = World(state: State, id: string, closed: bool, stuck: bool, listenerOpen: bool, entryOpen: bool)

  function Seeing(w: World, input: Input): World
    requires OnlyWrite(input.scan)
  {
    w.(state := AfterWrites(w.state, input.scan))
  }

  /** How a shutdown goes that others leave alone. */
  function Settled(stuck: bool, listenerOpen: bool, entryOpen: bool): Fate {
    if stuck then BroadcastWaits else if !listenerOpen then ListenerClosed else if entryOpen then LoopWaits else Ends
  }

  function FateIn(w: World): Fate {
    Settled(w.stuck, w.listenerOpen, w.entryOpen)
  }

  /** What a message that is handled to its end leaves. */
  function AfterMessage(w: World, env: Envelope, a: Answers): World {
    if ShutsDown(env, a, w.state) then World(Shutdown, w.id, w.closed, false, false, false)
    else w.(state := match Written(env, a, w.state) case Some(s) => s case None => w.state)
  }

  /** A connection that is named is in the table, and open. */
  function FiledAs(w: World, from: string): World {
    if w.id == "" && from != "" then w.(id := from, entryOpen := true) else w
  }

  function Filed(w: World, line: Line): World {
    if line.Garbled? then w else FiledAs(w, line.env.from)
  }

  /** A line stops its goroutine for good: its connection cannot be filed, or it shuts the daemon down, its
      connection filed, and the shutdown does not end. */
  predicate StopsLine(w: World, line: Line) {
    (Naming(w.id, line) && w.stuck) || (ShutsDownBy(w.state, line) && !FateIn(Filed(w, line)).Ends?)
  }

  /** What a line that does not stop leaves. */
  function AfterLine(w: World, line: Line): World {
    if line.Garbled? then w else AfterMessage(Filed(w, line), line.env, line.a)
  }

  function Lines(inputs: seq<Input>): seq<Line> {
    seq(|inputs|, k requires 0 <= k < |inputs| => inputs[k].line)
  }

  /** The first sender named is the connection's identity from then on. */
  function Identity(id: string, lines: seq<Line>): string {
    if lines == [] then id else NextIdentity(Identity(id, lines[..|lines| - 1]), lines[|lines| - 1])
  }

  /** The connection's own effects, line after line. */
  ghost function Conversation(cs: seq<Circumstance>, lines: seq<Line>): seq<Effect>
    requires |cs| == |lines|
  {
    var n := |lines|;
    if n == 0 then [] else Conversation(cs[..n - 1], lines[..n - 1]) + LineEffects(cs[n - 1], lines[n - 1])
  }

  /** cs are the circumstances of the first lines; each fits its line, and at most the last line stops. */
  ghost predicate Handled(id: string, lines: seq<Line>, cs: seq<Circumstance>, stopped: bool) {
    |cs| <= |lines| && (stopped ==> cs != [])
    && (forall k | 0 <= k < |cs| :: Stops(LineEffects(cs[k], lines[k])) <==> stopped && k == |cs| - 1)
    && forall k | 0 <= k < |cs| :: Fits(Identity(id, lines[..k]), lines[k], cs[k])
  }

  lemma {:induction false} NoneHandled(id: string, lines: seq<Line>)
    ensures Handled(id, lines, [], false) && Conversation([], lines[..0]) == [] && Identity(id, lines[..0]) == id
  {
  }

  lemma {:induction false} OneMoreLine(cs: seq<Circumstance>, lines: seq<Line>, k: nat, c: Circumstance, id: string)
    requires |cs| == k < |lines| && Handled(id, lines, cs, false) && Fits(Identity(id, lines[..k]), lines[k], c)
    ensures Handled(id, lines, cs + [c], Stops(LineEffects(c, lines[k])))
    ensures Conversation(cs + [c], lines[..k + 1]) == Conversation(cs, lines[..k]) + LineEffects(c, lines[k])
    ensures Identity(id, lines[..k + 1]) == NextIdentity(Identity(id, lines[..k]), lines[k])
  {
    hide LineEffects, NextIdentity, Stops, Fits;
    assert lines[..k + 1][..k] == lines[..k] && (cs + [c])[..k] == cs;
  }

  // ---------- Replies along a connection ----------

  /** The type and request id of a reply. */
  datatype Head = Head(rtype: string, id: string)

  ghost function Heads(replies: seq<Effect>): seq<Head>
    requires forall e | e in replies :: e.Reply?
  {
    seq(|replies|, k requires 0 <= k < |replies| => Head(replies[k].rtype, replies[k].id))
  }

  /** What a line is owed if its handler returns, having seen this state: one reply under the request's id and
      mapped type, but none for an unanswered message. */
  ghost function OwedFor(seen: State, line: Line): seq<Head> {
    match line
    case Garbled(id) => [Head("error", id)]
    case Message(env, _) => if Unanswered(env, seen) then [] else [Head(ResponseType(env.msgType), env.id)]
  }

  /** What the lines get, in order. */
  ghost function Answered(cs: seq<Circumstance>, lines: seq<Line>): seq<Head>
    requires |cs| == |lines|
  {
    var n := |lines|;
    if n == 0 then []
    else Answered(cs[..n - 1], lines[..n - 1])
         + if Stops(LineEffects(cs[n - 1], lines[n - 1])) then [] else OwedFor(cs[n - 1].seen, lines[n - 1])
  }

  /** A line stops its connection's goroutine for good exactly if AddClient waits for ever, or the message
      shuts the daemon down and that shutdown does not end. */
  lemma {:induction false} StopsExactly(c: Circumstance, line: Line)
    ensures Stops(LineEffects(c, line)) <==>
      line.Message? && (c.waitsToFile || (ShutsDown(line.env, line.a, c.seen) && !c.fate.Ends?))
  {
    hide MessageEffects, ShutsDown;
    if line.Message? {
      MessageReplies(line.env, line.a, c.seen, c.fate);
    }
    WaitStops();
  }

  /** What a connection's lines get if others only write the state in between: the replies they are owed, in
      order, up to the first line that stops, and nothing if the connection is marked closed. */
  ghost function Expected(w: World, inputs: seq<Input>): seq<Head>
    requires AllCalm(inputs)
    decreases |inputs|
  {
    if inputs == [] || w.closed then []
    else
      assert Calm(inputs[0]) && AllCalm(inputs[1..]);
      var now, line := Seeing(w, inputs[0]), inputs[0].line;
      if StopsLine(now, line) then [] else OwedFor(now.state, line) + Expected(AfterLine(now, line), inputs[1..])
  }

  lemma {:induction false} RepliesAreReplies(effects: seq<Effect>)
    ensures forall e | e in Replies(effects) :: e.Reply?
  {
    forall e | e in Replies(effects)
      ensures e.Reply?
    {
      FlattenMembers(ReplyParts(effects), e);
    }
  }

  lemma {:induction false} HeadsAppend(a: seq<Effect>, b: seq<Effect>)
    requires forall e | e in a + b :: e.Reply?
    ensures (forall e | e in a :: e.Reply?) && (forall e | e in b :: e.Reply?)
    ensures Heads(a + b) == Heads(a) + Heads(b)
  {
    assert forall e | e in a :: e in a + b;
    assert forall e | e in b :: e in a + b;
  }

  lemma {:induction false} LineHeads(c: Circumstance, line: Line)
    ensures forall e | e in Replies(LineEffects(c, line)) :: e.Reply?
    ensures Heads(Replies(LineEffects(c, line))) == if Stops(LineEffects(c, line)) then [] else OwedFor(c.seen, line)
  {
    hide MessageEffects, Replies, Stops, ResponseType, KindOf, ShutsDown;
    NoReplies([]);
    ReplyAlone(Hang);
    WaitStops();
    if line.Garbled? {
      ReplyAlone(LineEffects(c, line)[0]);
      GarbledStopsNot(line.freshID);
    } else {
      MessageReplies(line.env, line.a, c.seen, c.fate);
      NothingStopsNot();
    }
  }

  lemma {:induction false} NothingStopsNot()
    ensures !Stops([])
  {
  }

  /** Over any lines, the replies attempted on a connection are exactly those of the lines whose handler
      returns, in order. */
  lemma {:induction false} ConversationReplies(cs: seq<Circumstance>, lines: seq<Line>)
    requires |cs| == |lines|
    ensures forall e | e in Replies(Conversation(cs, lines)) :: e.Reply?
    ensures Heads(Replies(Conversation(cs, lines))) == Answered(cs, lines)
    decreases |lines|
  {
    hide LineEffects, Stops, Replies, OwedFor;
    RepliesAreReplies(Conversation(cs, lines));
    var n := |lines|;
    if n == 0 {
      NoReplies([]);
    } else {
      var before, e := Conversation(cs[..n - 1], lines[..n - 1]), LineEffects(cs[n - 1], lines[n - 1]);
      ConversationReplies(cs[..n - 1], lines[..n - 1]);
      LineHeads(cs[n - 1], lines[n - 1]);
      RepliesAppend(before, e);
      HeadsAppend(Replies(before), Replies(e));
    }
  }

  lemma {:induction false} NoneAnswered(lines: seq<Line>)
    ensures Answered([], lines[..0]) == []
  {
  }

  lemma {:induction false} ExpectedStep(w: World, inputs: seq<Input>)
    requires AllCalm(inputs) && inputs != []
    ensures Calm(inputs[0]) && AllCalm(inputs[1..])
    ensures var now, line := Seeing(w, inputs[0]), inputs[0].line;
      Expected(w, inputs)
      == if w.closed || StopsLine(now, line) then []
        else OwedFor(now.state, line) + Expected(AfterLine(now, line), inputs[1..])
  {
    assert Calm(inputs[0]);
  }

  lemma {:induction false} ExpectedNone(w: World)
    ensures AllCalm([]) && Expected(w, []) == []
  {
  }

  lemma {:induction false} Regroup(a: seq<Effect>, b: seq<Effect>, c: seq<Effect>)
    ensures a + b + c == a + (b + c)
  {
  }

  /** The first lines, handled in the circumstances cs, have got their replies; the others will, from w on. */
  ghost predicate Owes(w0: World, inputs: seq<Input>, cs: seq<Circumstance>, w: World) {
    |cs| <= |inputs| && AllCalm(inputs) && AllCalm(inputs[|cs|..])
    && Answered(cs, Lines(inputs)[..|cs|]) + Expected(w, inputs[|cs|..]) == Expected(w0, inputs)
  }

  lemma {:induction false} OwesAll(w0: World, inputs: seq<Input>)
    requires AllCalm(inputs)
    ensures Owes(w0, inputs, [], w0)
  {
    NoneAnswered(Lines(inputs));
    assert inputs[0..] == inputs;
  }

  lemma {:induction false} OwesNothing(w0: World, inputs: seq<Input>, cs: seq<Circumstance>, w: World)
    requires Owes(w0, inputs, cs, w) && |cs| == |inputs|
    ensures Answered(cs, Lines(inputs)[..|cs|]) == Expected(w0, inputs)
  {
    ExpectedNone(w);
    assert inputs[|cs|..] == [];
  }

  lemma {:induction false} OwesNext(w0: World, inputs: seq<Input>, cs: seq<Circumstance>, w: World)
    requires Owes(w0, inputs, cs, w) && |cs| < |inputs|
    ensures AllCalm(inputs) && Calm(inputs[|cs|])
    ensures w.closed ==> Answered(cs, Lines(inputs)[..|cs|]) == Expected(w0, inputs)
  {
    hide Calm;
    ExpectedStep(w, inputs[|cs|..]);
  }

  lemma {:induction false} OwesLess(w0: World, inputs: seq<Input>, cs: seq<Circumstance>, w: World, c: Circumstance,
      w': World)
    requires Owes(w0, inputs, cs, w) && |cs| < |inputs| && !w.closed && Calm(inputs[|cs|])
    requires var now, line := Seeing(w, inputs[|cs|]), inputs[|cs|].line;
      c.seen == now.state && (Stops(LineEffects(c, line)) <==> StopsLine(now, line))
      && (!StopsLine(now, line) ==> w' == AfterLine(now, line))
    ensures AllCalm(inputs)
    ensures if Stops(LineEffects(c, inputs[|cs|].line))
            then Answered(cs + [c], Lines(inputs)[..|cs| + 1]) == Expected(w0, inputs)
            else Owes(w0, inputs, cs + [c], w')
  {
    hide Stops, LineEffects, StopsLine, AfterLine, Seeing, OwedFor, Calm, Expected, Answered;
    var k, rest := |cs|, inputs[|cs|..];
    ExpectedStep(w, rest);
    OneMoreAnswer(cs, Lines(inputs), k, c);
    assert rest[0] == inputs[k] && rest[1..] == inputs[k + 1..];
    if !Stops(LineEffects(c, inputs[k].line)) {
      var mine, owed := Answered(cs, Lines(inputs)[..k]), OwedFor(c.seen, inputs[k].line);
      assert mine + (owed + Expected(w', rest[1..])) == mine + owed + Expected(w', rest[1..]);
    }
  }

  lemma {:induction false} OneMoreAnswer(cs: seq<Circumstance>, lines: seq<Line>, k: nat, c: Circumstance)
    requires |cs| == k < |lines|
    ensures Answered(cs + [c], lines[..k + 1])
         == Answered(cs, lines[..k]) + if Stops(LineEffects(c, lines[k])) then [] else OwedFor(c.seen, lines[k])
  {
    hide LineEffects, Stops, OwedFor;
    assert lines[..k + 1][..k] == lines[..k] && (cs + [c])[..k] == cs;
  }

  lemma {:induction false} TooLarge(env: Envelope, a: Answers)
    requires env.size > MAX_PAYLOAD
    ensures HandleEffects(env, a, Ends) == [Fail(env, "E_TOO_LARGE")] && forall s :: Written(env, a, s) == None
  {
    hide ResponseType, KindOf;
  }

  lemma {:induction false} CodeIsHandled(env: Envelope, a: Answers, fate: Fate)
    requires env.size <= MAX_PAYLOAD && KindOf(env.msgType).SystemCode?
    ensures HandleEffects(env, a, fate) == SystemCodeEffects(env, a, fate)
  {
    hide ResponseType, KindOf, SystemCodeEffects;
  }
}
