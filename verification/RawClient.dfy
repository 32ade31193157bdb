/** The raw model client: one request in flight under the mutex, the connection dropped after any failed
    exchange, and response ids never compared (JSON-RPC 2.0, section 5, would have the client match
    them). The server answers each request of a connection at most once and in order, after any delay;
    a reply may be lost or undecodable. */
module RawClient {
  import opened Wrappers

  datatype Kind = ResultReply | ErrorReply | EmptyReply | Undecodable

  /** origin is the request a reply answers, which the client cannot see; id is what the server wrote. */
  datatype Response = Response(origin: nat, id: int, kind: Kind)

  /** A connection: requests the server has yet to answer, and replies the client has yet to read. */
  datatype Channel = Channel(unanswered: seq<nat>, inbox: seq<Response>, closed: bool)

  /** The mutex is free, or held: by Connect between its exchanges, or by a goroutine that waits for the
      reply to req. */
  datatype Phase = Free | Connecting | Waiting(req: nat, chan: nat, health: bool)

  /** How a call ended: with the reply to some request (a result or a server error), or without one. */
  datatype Outcome = Answered(origin: nat) | Failed

  datatype Completion = Completion(req: nat, outcome: Outcome)

  datatype Raw = Raw(phase: Phase, conn: Option<nat>, ready: bool, rpcID: nat, channels: map<nat, Channel>,
                     nextChan: nat, sent: seq<nat>, done: seq<Completion>)

  datatype Label =
    | Refuse
    | Unmarshalable
    | Send(ok: bool, delivered: bool)
    | Receive(timeout: bool)
    | Dial(dialed: bool)
    | Verdict(good: bool)
    | Close
    | Answer(chan: nat, k: nat, id: int, kind: Kind)
    | Lose(chan: nat, k: nat)

  function Init(): Raw {
    Raw(Free, None, false, 0, map[], 0, [], [])
  }

  predicate Has(r: Raw, c: nat, k: nat) {
    c in r.channels && k < |r.channels[c].unanswered|
  }

  predicate Enabled(r: Raw, l: Label) {
    match l
    case Refuse => r.phase.Free? && r.conn.None?
    case Unmarshalable => r.phase.Free? && r.conn.Some?
    case Send(ok, _) => !r.phase.Waiting? && r.conn.Some? && r.conn.value in r.channels
      && (ok ==> !r.channels[r.conn.value].closed)
    case Receive(timeout) => r.phase.Waiting? && r.phase.chan in r.channels
      && (timeout || r.channels[r.phase.chan].inbox != [])
    case Dial(_) => r.phase.Free?
    case Verdict(good) => r.phase.Connecting? && (good ==> r.conn.Some?)
    case Close => r.phase.Free?
    case Answer(c, k, _, _) => Has(r, c, k)
    case Lose(c, k) => Has(r, c, k)
  }

  /** callConn up to the wait for the reply. When the write fails the server may have the request all the
      same; the client drops the connection. */
  function Encode(r: Raw, c: nat, ok: bool, delivered: bool): Raw
    requires c in r.channels
  {
    var ch := r.channels[c];
    var id := r.rpcID + 1;
    var r' := r.(rpcID := id, sent := r.sent + [id],
                 channels := if ok || delivered then r.channels[c := ch.(unanswered := ch.unanswered + [id])]
                             else r.channels);
    if ok then r'.(phase := Waiting(id, c, r.phase.Connecting?)) else Lost(r', id)
  }

  /** A failed exchange: the client forgets the connection and is not ready. */
  function Lost(r: Raw, req: nat): Raw {
    r.(conn := None, ready := false, done := r.done + [Completion(req, Failed)])
  }

  function OutcomeOf(reply: Response): Outcome {
    if reply.kind.ResultReply? || reply.kind.ErrorReply? then Answered(reply.origin) else Failed
  }

  /** callConn from the wait on. A timeout or an undecodable reply is a failed exchange. */
  function Decode(r: Raw, timeout: bool): Raw
    requires r.phase.Waiting? && r.phase.chan in r.channels && (timeout || r.channels[r.phase.chan].inbox != [])
  {
    var c, req := r.phase.chan, r.phase.req;
    var ch := r.channels[c];
    var next := r.(phase := if r.phase.health then Connecting else Free);
    if timeout then Lost(next, req)
    else
      var read := next.(channels := r.channels[c := ch.(inbox := ch.inbox[1..])]);
      if ch.inbox[0].kind.Undecodable? then Lost(read, req)
      else read.(done := r.done + [Completion(req, OutcomeOf(ch.inbox[0]))])
  }

  function ClosedChannels(r: Raw): map<nat, Channel> {
    if r.conn.Some? && r.conn.value in r.channels then
      r.channels[r.conn.value := r.channels[r.conn.value].(closed := true)]
    else r.channels
  }

  /** Connect closes the old connection before it dials, and keeps it, closed, when it cannot dial. */
  function Apply(r: Raw, l: Label): Raw
    requires Enabled(r, l)
  {
    match l
    case Refuse => r
    case Unmarshalable => r.(rpcID := r.rpcID + 1, done := r.done + [Completion(r.rpcID + 1, Failed)])
    case Send(ok, delivered) => Encode(r, r.conn.value, ok, delivered)
    case Receive(timeout) => Decode(r, timeout)
    case Dial(dialed) =>
      if !dialed then r.(channels := ClosedChannels(r))
      else r.(phase := Connecting, channels := ClosedChannels(r)[r.nextChan := Channel([], [], false)],
              conn := Some(r.nextChan), nextChan := r.nextChan + 1)
    case Verdict(good) =>
      if good then r.(phase := Free, ready := true)
      else r.(phase := Free, channels := ClosedChannels(r), conn := None)
    case Close => r.(channels := ClosedChannels(r), conn := None, ready := false)
    case Answer(c, k, id, kind) =>
      var ch := r.channels[c];
      r.(channels := r.channels[c :=
        ch.(unanswered := ch.unanswered[k + 1..], inbox := ch.inbox + [Response(ch.unanswered[k], id, kind)])])
    case Lose(c, k) =>
      var ch := r.channels[c];
      r.(channels := r.channels[c := ch.(unanswered := ch.unanswered[..k] + ch.unanswered[k + 1..])])
  }

  predicate CanRun(r: Raw, ls: seq<Label>)
    decreases |ls|, 0
  {
    ls == [] || (CanRun(r, ls[..|ls| - 1]) && Enabled(After(r, ls[..|ls| - 1]), ls[|ls| - 1]))
  }

  function After(r: Raw, ls: seq<Label>): Raw
    requires CanRun(r, ls)
    decreases |ls|, 1
  {
    if ls == [] then r else Apply(After(r, ls[..|ls| - 1]), ls[|ls| - 1])
  }

  // ---------- The invariant ----------

  predicate Increasing(ids: seq<nat>) {
    forall i, j | 0 <= i < j < |ids| :: ids[i] < ids[j]
  }

  predicate Paired(done: seq<Completion>) {
    forall k | 0 <= k < |done| && done[k].outcome.Answered? :: done[k].outcome.origin == done[k].req
  }

  /** Nothing sent on ch is unanswered and nothing answered is unread. */
  predicate Settled(ch: Channel) {
    ch.unanswered == [] && ch.inbox == []
  }

  /** The only thing under way on ch is request req: with the server, answered, or lost. */
  predicate Carries(ch: Channel, req: nat) {
    !ch.closed
    && (Settled(ch) || ch == Channel([req], [], false)
        || (ch.unanswered == [] && |ch.inbox| == 1 && ch.inbox[0].origin == req))
  }

  predicate Channels(r: Raw) {
    (forall c | c in r.channels :: c < r.nextChan)
    && (r.conn.Some? ==> r.conn.value in r.channels)
    && (!r.phase.Waiting? && r.conn.Some? ==> Settled(r.channels[r.conn.value]))
    && (r.phase.Waiting? ==> r.conn == Some(r.phase.chan) && Carries(r.channels[r.phase.chan], r.phase.req))
  }

  predicate Ids(sent: seq<nat>, rpcID: nat) {
    Increasing(sent) && forall i | 0 <= i < |sent| :: sent[i] <= rpcID
  }

  predicate Inv(r: Raw) {
    Channels(r) && Paired(r.done) && Ids(r.sent, r.rpcID)
  }

  lemma {:induction false} Completes(done: seq<Completion>, c: Completion)
    requires Paired(done) && (c.outcome.Answered? ==> c.outcome.origin == c.req)
    ensures Paired(done + [c])
  {
  }

  lemma {:induction false} EncodeKeeps(r: Raw, c: nat, ok: bool, delivered: bool)
    requires Inv(r) && !r.phase.Waiting? && r.conn == Some(c) && (ok ==> !r.channels[c].closed)
    ensures Inv(Encode(r, c, ok, delivered))
  {
    Completes(r.done, Completion(r.rpcID + 1, Failed));
    hide Paired;
  }

  lemma {:induction false} DecodeKeeps(r: Raw, timeout: bool)
    requires Inv(r) && r.phase.Waiting? && (timeout || r.channels[r.phase.chan].inbox != [])
    ensures Inv(Decode(r, timeout))
  {
    Completes(r.done, Completion(r.phase.req, Failed));
    Completes(r.done, Completion(r.phase.req, Answered(r.phase.req)));
    hide Paired, Ids;
  }

  /** The server's moves touch what one channel carries, and only move it on. */
  lemma {:induction false} ServerKeeps(r: Raw, l: Label)
    requires Inv(r) && Enabled(r, l) && (l.Answer? || l.Lose?)
    ensures Inv(Apply(r, l))
  {
    hide Paired, Ids;
  }

  lemma {:induction false} ConnectKeeps(r: Raw, l: Label)
    requires Inv(r) && Enabled(r, l) && (l.Dial? || l.Verdict? || l.Close?)
    ensures Inv(Apply(r, l))
  {
    hide Paired, Ids;
  }

  lemma {:induction false} InvStep(r: Raw, l: Label)
    requires Inv(r) && Enabled(r, l)
    ensures Inv(Apply(r, l))
  {
    hide Encode, Decode;
    match l
    case Refuse =>
    case Unmarshalable => Completes(r.done, Completion(r.rpcID + 1, Failed));
    case Send(ok, delivered) => EncodeKeeps(r, r.conn.value, ok, delivered);
    case Receive(timeout) => DecodeKeeps(r, timeout);
    case Answer(_, _, _, _) => ServerKeeps(r, l);
    case Lose(_, _) => ServerKeeps(r, l);
    case _ => ConnectKeeps(r, l);
  }

  /** In every run: each call that returns a result or a server error returns the reply to its own
      request; with the mutex free the connection, if there is one, has no unanswered request and no
      unread reply; the ids sent strictly increase, across reconnects too. */
  lemma {:induction false} RunPairs(ls: seq<Label>)
    requires CanRun(Init(), ls)
    ensures var r := After(Init(), ls);
      Inv(r) && Paired(r.done) && Increasing(r.sent)
      && (r.phase.Free? && r.conn.Some? ==> Settled(r.channels[r.conn.value]))
    decreases |ls|
  {
    hide Enabled, Apply;
    if ls != [] {
      hide Inv;
      RunPairs(ls[..|ls| - 1]);
      InvStep(After(Init(), ls[..|ls| - 1]), ls[|ls| - 1]);
    }
  }

  // ---------- A lost connection ----------

  predicate NoDial(ls: seq<Label>) {
    forall k | 0 <= k < |ls| :: !ls[k].Dial?
  }

  /** Once the connection is gone and nothing dials, it stays gone, and no call sends or gets anything. */
  lemma {:induction false} LostStaysLost(r: Raw, ls: seq<Label>)
    requires r.phase.Free? && r.conn.None? && CanRun(r, ls) && NoDial(ls)
    ensures var r' := After(r, ls); r'.phase.Free? && r'.conn.None? && r'.sent == r.sent && r'.done == r.done
    decreases |ls|
  {
    if ls != [] {
      LostStaysLost(r, ls[..|ls| - 1]);
    }
  }

  // ---------- The client object ----------

  datatype ServerMove = Answering(k: nat, id: int, kind: Kind) | Losing(k: nat)

  /** What the world does during one exchange: the write, the server's moves, the wait. */
  datatype Wire = Wire(ok: bool, delivered: bool, moves: seq<ServerMove>, timeout: bool)

  datatype CallResult = Got(reply: Response) | NoReply

  lemma {:induction false} RunMore(r: Raw, ls: seq<Label>, l: Label)
    requires CanRun(r, ls) && Enabled(After(r, ls), l)
    ensures CanRun(r, ls + [l]) && After(r, ls + [l]) == Apply(After(r, ls), l)
  {
    assert (ls + [l])[..|ls + [l]| - 1] == ls;
  }

  class RawModelClient {
    var conn: Option<nat>
    var ready: bool
    var rpcID: nat
    var channels: map<nat, Channel>
    var nextChan: nat
    ghost var phase: Phase
    ghost var sent: seq<nat>
    ghost var done: seq<Completion>
    /** The state the client started in and the steps taken since. */
    ghost var start: Raw
    ghost var steps: seq<Label>

    constructor ()
      ensures Valid() && phase == Free && start == Init()
    {
      conn, ready, rpcID, channels, nextChan := None, false, 0, map[], 0;
      phase, sent, done := Free, [], [];
      start, steps := Init(), [];
    }

    ghost function View(): Raw
      reads this
    {
      Raw(phase, conn, ready, rpcID, channels, nextChan, sent, done)
    }

    /** The fields are what a run of the protocol leaves. */
    ghost predicate Valid()
      reads this
    {
      Inv(View()) && CanRun(start, steps) && After(start, steps) == View()
    }

    /** The fields have just taken step l from r. */
    ghost method Took(l: Label, r: Raw)
      requires Inv(r) && CanRun(start, steps) && After(start, steps) == r
      requires Enabled(r, l) && Apply(r, l) == View()
      modifies this`steps
      ensures Valid() && steps == old(steps) + [l]
    {
      hide Inv, Enabled, Apply;
      InvStep(r, l);
      RunMore(start, steps, l);
      steps := steps + [l];
    }

    /** One move of the server on channel c, if it has the request. */
    method ServerActs(c: nat, move: ServerMove)
      requires Valid()
      modifies this
      ensures Valid() && start == old(start)
      ensures (phase, conn, ready, rpcID, nextChan, sent, done)
        == old((phase, conn, ready, rpcID, nextChan, sent, done))
      ensures channels.Keys == old(channels.Keys)
    {
      hide Inv, CanRun, After;
      ghost var r := View();
      if c in channels && move.k < |channels[c].unanswered| {
        var ch := channels[c];
        match move {
          case Answering(k, id, kind) =>
            channels := channels[c :=
              ch.(unanswered := ch.unanswered[k + 1..], inbox := ch.inbox + [Response(ch.unanswered[k], id, kind)])];
            Took(Answer(c, k, id, kind), r);
          case Losing(k) =>
            channels := channels[c := ch.(unanswered := ch.unanswered[..k] + ch.unanswered[k + 1..])];
            Took(Lose(c, k), r);
        }
      }
    }

    /** callConn up to the wait: the write of the request. */
    method Write(c: nat, w: Wire) returns (ok: bool)
      requires Valid() && !phase.Waiting? && conn == Some(c)
      modifies this
      ensures Valid() && start == old(start) && nextChan == old(nextChan)
      ensures rpcID == old(rpcID) + 1 && sent == old(sent) + [rpcID]
      ensures ok ==> phase == Waiting(rpcID, c, old(phase).Connecting?) && conn == old(conn) && ready == old(ready)
      ensures !ok ==> phase == old(phase) && conn == None && !ready
      ensures ok <==> w.ok && !old(channels)[c].closed
    {
      hide CanRun, After, Paired, Ids, Settled, Carries;
      ghost var r := View();
      rpcID := rpcID + 1;
      sent := sent + [rpcID];
      var ch := channels[c];
      ok := w.ok && !ch.closed;
      if ok || w.delivered {
        channels := channels[c := ch.(unanswered := ch.unanswered + [rpcID])];
      }
      if ok {
        phase := Waiting(rpcID, c, phase.Connecting?);
      } else {
        conn, ready, done := None, false, done + [Completion(rpcID, Failed)];
      }
      Took(Send(ok, w.delivered), r);
    }

    /** callConn for parameters that marshal. A reply that comes back answers the request just sent; if
        none does, the connection is gone. */
    method CallConn(c: nat, w: Wire) returns (res: CallResult)
      requires Valid() && !phase.Waiting? && conn == Some(c)
      modifies this
      ensures Valid() && start == old(start) && phase == old(phase) && nextChan == old(nextChan)
      ensures rpcID == old(rpcID) + 1 && sent == old(sent) + [rpcID]
      ensures res.Got? ==> res.reply.origin == rpcID && conn == old(conn) && ready == old(ready)
      ensures res.Got? ==> !res.reply.kind.Undecodable?
      ensures res.NoReply? ==> conn == None && !ready
    {
      hide Inv, CanRun, After;
      var ok := Write(c, w);
      if !ok {
        return NoReply;
      }
      for i := 0 to |w.moves|
        invariant Valid() && start == old(start) && phase == Waiting(rpcID, c, old(phase).Connecting?)
          && conn == Some(c)
        invariant (ready, rpcID, nextChan, sent) == (old(ready), old(rpcID) + 1, old(nextChan), old(sent) + [rpcID])
      {
        ServerActs(c, w.moves[i]);
      }
      res := Read(c, w.timeout);
    }

    /** callConn from the read on. */
    method Read(c: nat, timedOut: bool) returns (res: CallResult)
      requires Valid() && phase.Waiting? && phase.chan == c
      modifies this
      ensures Valid() && start == old(start) && phase == (if old(phase).health then Connecting else Free)
      ensures (rpcID, nextChan, sent) == old((rpcID, nextChan, sent))
      ensures res.Got? ==> res.reply.origin == old(phase).req && conn == old(conn) && ready == old(ready)
      ensures res.NoReply? ==> conn == None && !ready
      ensures var inbox := old(channels)[c].inbox;
        if timedOut || inbox == [] || inbox[0].kind.Undecodable? then res.NoReply? else res == Got(inbox[0])
      ensures done == old(done) + [Completion(old(phase).req,
        if res.Got? && (res.reply.kind.ResultReply? || res.reply.kind.ErrorReply?) then Answered(old(phase).req)
        else Failed)]
    {
      hide CanRun, After, Paired, Ids;
      ghost var r, req := View(), phase.req;
      var ch := channels[c];
      var timeout := timedOut || ch.inbox == [];
      phase := if phase.health then Connecting else Free;
      if timeout {
        conn, ready, done := None, false, done + [Completion(req, Failed)];
        Took(Receive(true), r);
        return NoReply;
      }
      var reply := ch.inbox[0];
      channels := channels[c := ch.(inbox := ch.inbox[1..])];
      if reply.kind.Undecodable? {
        conn, ready, done := None, false, done + [Completion(req, Failed)];
        Took(Receive(false), r);
        return NoReply;
      }
      done := done + [Completion(req, OutcomeOf(reply))];
      Took(Receive(false), r);
      res := Got(reply);
    }

    /** call: the mutex is held from here to the return. */
    method Call(w: Wire) returns (res: CallResult)
      requires Valid() && phase == Free
      modifies this
      ensures Valid() && start == old(start) && phase == Free
      ensures old(conn).None? ==> res == NoReply && View() == old(View())
      ensures res.Got? ==> res.reply.origin == rpcID == old(rpcID) + 1 && conn == old(conn)
      ensures res.Got? ==> !res.reply.kind.Undecodable?
      ensures res.NoReply? ==> conn == None
    {
      if conn.None? {
        return NoReply;
      }
      res := CallConn(conn.value, w);
    }

    method Redial(dialed: bool)
      requires Valid() && phase == Free
      modifies this
      ensures Valid() && start == old(start)
      ensures if dialed then phase == Connecting && conn == Some(old(nextChan)) else phase == Free && conn == old(conn)
      ensures old(conn).Some? ==> old(conn).value in channels && channels[old(conn).value].closed
    {
      hide CanRun, After, Paired, Ids, Settled, Carries;
      ghost var r := View();
      if conn.Some? {
        channels := channels[conn.value := channels[conn.value].(closed := true)];
      }
      if dialed {
        channels := channels[nextChan := Channel([], [], false)];
        phase, conn, nextChan := Connecting, Some(nextChan), nextChan + 1;
      }
      Took(Dial(dialed), r);
    }

    /** Connect's end: keep the connection or close and forget it. */
    method Settle(good: bool)
      requires Valid() && phase == Connecting && (good ==> conn.Some?)
      modifies this
      ensures Valid() && start == old(start) && phase == Free
      ensures if good then ready && conn == old(conn) else conn == None
      ensures !good && old(conn).Some? ==> old(conn).value in channels && channels[old(conn).value].closed
    {
      hide CanRun, After, Paired, Ids, Settled, Carries;
      ghost var r := View();
      phase := Free;
      if good {
        ready := true;
      } else {
        if conn.Some? {
          channels := channels[conn.value := channels[conn.value].(closed := true)];
        }
        conn := None;
      }
      Took(Verdict(good), r);
    }

    /** Connect; good says whether the health result parses and says the model is ready. */
    method Connect(dialed: bool, w: Wire, good: bool) returns (connected: bool)
      requires Valid() && phase == Free
      modifies this
      ensures Valid() && start == old(start) && phase == Free
      ensures connected ==> dialed && good && ready && conn == Some(old(nextChan))
      ensures !connected ==> conn == if dialed then None else old(conn)
    {
      hide CanRun, After, Inv;
      Redial(dialed);
      if !dialed {
        return false;
      }
      var res := CallConn(conn.value, w);
      connected := res.Got? && res.reply.kind.ResultReply? && good;
      Settle(connected);
    }

    method CloseClient()
      requires Valid() && phase == Free
      modifies this
      ensures Valid() && start == old(start) && phase == Free && conn == None && !ready
      ensures old(conn).Some? ==> old(conn).value in channels && channels[old(conn).value].closed
    {
      hide CanRun, After;
      ghost var r := View();
      if conn.Some? {
        channels := channels[conn.value := channels[conn.value].(closed := true)];
        conn := None;
      }
      ready := false;
      Took(Close, r);
    }
  }
}
