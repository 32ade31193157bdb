/** The table of client connections: filed by the id the client gave itself, shared ids overwriting and
    removing each other's entries, and the loop of a shutdown that closes them all. Go's check-then-close
    of a connection's done channel is taken as one step. */
module ClientTable {

  /** Reading: its ReadLoop runs. Closing: done is closed, RemoveClient is to come. */
  datatype Phase = Reading | Closing | Closed

  /** added and phase say how far the connection's goroutine is. */
  class ClientConn {
    var id: string
    var done: bool
    var added: bool
    var phase: Phase

    constructor ()
      ensures id == "" && !done && !added && phase == Reading
    {
      id, done, added, phase := "", false, false, Reading;
    }
  }

  function Chosen(conns: seq<ClientConn>, ks: set<nat>): set<ClientConn> {
    set k | k in ks && k < |conns| :: conns[k]
  }

  function ChosenEach(conns: seq<ClientConn>, closers: seq<set<nat>>, n: nat): seq<set<ClientConn>> {
    seq(n, i requires 0 <= i < n => if i < |closers| then Chosen(conns, closers[i]) else {})
  }

  /** One step of one goroutine. IdentifyStep to FinishStep belong to connection k. LoopStep is the whole
      client loop of a shutdown; before visit i of it the connections closers[i] begin to close. */
  datatype TableStep =
    | AcceptStep
    | IdentifyStep(k: nat, from: string)
    | AddStep(k: nat)
    | CloseStep(k: nat)
    | FinishStep(k: nat)
    | LoopStep(closers: seq<set<nat>>)

  /** The step is not one of connection me's own goroutine. */
  predicate Spares(step: TableStep, me: nat) {
    match step
    case AcceptStep => true
    case IdentifyStep(k, _) => k != me
    case AddStep(k) => k != me
    case CloseStep(k) => k != me
    case FinishStep(k) => k != me
    case LoopStep(closers) => forall i | 0 <= i < |closers| :: me !in closers[i]
  }

  /** The step gives no connection the name id. */
  predicate NamesNot(step: TableStep, id: string) {
    step.IdentifyStep? ==> step.from != id
  }

  class ClientTable {
    var clients: map<string, ClientConn>
    /** A shutdown's client loop holds clientsMu and waits for it: nobody gets it any more. */
    var stuck: bool
    /** Every connection accepted. */
    var conns: seq<ClientConn>

    constructor ()
      ensures Valid() && clients == map[] && !stuck && conns == []
    {
      clients, stuck, conns := map[], false, [];
    }

    /** Every entry is filed under its connection's own id, which is not empty, and its connection is open
        or in mid-close. */
    ghost predicate Valid()
      reads this, conns
    {
      (forall c | c in conns :: (c.done <==> c.phase != Reading) && (c.added ==> c.id != ""))
      && (forall i, j | 0 <= i < j < |conns| :: conns[i] != conns[j])
      && forall k | k in clients :: var c := clients[k];
        c in conns && k != "" && c.id == k && c.added && c.phase != Closed
    }

    ghost function All(): set<ClientConn>
      reads this
    {
      set c | c in conns
    }

    /** The connection has its entry in the table. */
    predicate Filed(c: ClientConn)
      reads this, c
    {
      c.id in clients && clients[c.id] == c
    }

    /** No connection but me has the name id. */
    ghost predicate NobodyElse(me: nat, id: string)
      reads this`conns, conns`id
    {
      me < |conns| && forall d | d in conns && d != conns[me] :: d.id != id
    }

    /** Connection me alone has its name, and is in the table and open, unless a client loop waits for ever. */
    ghost predicate Own(me: nat)
      reads this, conns
    {
      me < |conns| && var c := conns[me]; c.id != "" && NobodyElse(me, c.id) && (stuck || (Filed(c) && !c.done))
    }

    method Accept() returns (c: ClientConn)
      requires Valid()
      modifies this`conns
      ensures Valid() && fresh(c) && c.id == "" && c.phase == Reading && !c.added
      ensures conns == old(conns) + [c]
    {
      c := new ClientConn();
      conns := conns + [c];
    }

    /** ReadLoop on an envelope with a sender: the first one names the connection. */
    method Identify(c: ClientConn, from: string) returns (named: bool)
      requires Valid() && c in conns
      modifies c`id
      ensures Valid() && c.id == (if old(c.id) == "" then from else old(c.id))
      ensures named <==> old(c.id) == "" && from != ""
    {
      named := c.id == "" && from != "";
      if named {
        c.id := from;
      }
    }

    /** AddClient, by the connection's own ReadLoop; it gets the lock only if nobody keeps it. */
    method AddClient(c: ClientConn)
      requires Valid() && !stuck && c in conns && c.phase == Reading && c.id != ""
      modifies this`clients, c`added
      ensures Valid() && clients == old(clients)[c.id := c] && c.added
    {
      clients := clients[c.id := c];
      c.added := true;
    }

    method RemoveClient(id: string)
      requires Valid() && !stuck
      modifies this`clients
      ensures Valid() && clients == old(clients) - {id}
    {
      clients := clients - {id};
    }

    /** Close up to RemoveClient; a connection closed before is left alone. */
    method CloseBegin(c: ClientConn) returns (first: bool)
      requires Valid() && c in conns
      modifies c`done, c`phase
      ensures Valid() && first == !old(c.done) && c.done
      ensures c.phase == if first then Closing else old(c.phase)
    {
      first := !c.done;
      if first {
        c.done, c.phase := true, Closing;
      }
    }

    /** The rest of Close: the entry of the connection's id goes, whose ever it is. */
    method CloseFinish(c: ClientConn)
      requires Valid() && !stuck && c in conns && c.phase == Closing
      modifies this`clients, c`phase
      ensures Valid() && c.phase == Closed
      ensures clients == if c.id != "" then old(clients) - {c.id} else old(clients)
    {
      if c.id != "" {
        RemoveClient(c.id);
      }
      c.phase := Closed;
    }

    // ---------- The client loop of a shutdown ----------

    predicate IsOrder(order: seq<string>)
      reads this
    {
      (forall i, j | 0 <= i < j < |order| :: order[i] != order[j])
      && (forall id | id in order :: id in clients) && forall id | id in clients :: id in order
    }

    /** The order in which Go's range visits the map: any. */
    method MapOrder() returns (order: seq<string>)
      ensures IsOrder(order)
    {
      order := [];
      var left := clients.Keys;
      while left != {}
        invariant left <= clients.Keys
        invariant forall id | id in order :: id in clients && id !in left
        invariant forall id | id in clients :: id in order || id in left
        invariant forall i, j | 0 <= i < j < |order| :: order[i] != order[j]
        decreases |left|
      {
        var id :| id in left;
        order := order + [id];
        left := left - {id};
      }
    }

    ghost function OpenConns(): set<ClientConn>
      reads this, conns
    {
      set c | c in conns && !c.done
    }

    /** What other goroutines begin to close before visit n. */
    ghost static function ClosedBefore(closers: seq<set<ClientConn>>, n: nat): set<ClientConn>
      requires n <= |closers|
    {
      set j, c | 0 <= j < n && c in closers[j] :: c
    }

    lemma {:induction false} NoneClosed(closers: seq<set<ClientConn>>)
      ensures ClosedBefore(closers, 0) == {}
    {
    }

    lemma {:induction false} AllClosers(closers: seq<set<ClientConn>>)
      ensures forall i | 0 <= i < |closers| :: closers[i] <= ClosedBefore(closers, |closers|)
    {
    }

    lemma {:induction false} ClosedOneMore(closers: seq<set<ClientConn>>, n: nat)
      requires n < |closers|
      ensures ClosedBefore(closers, n + 1) == ClosedBefore(closers, n) + closers[n]
    {
    }

    /** At visit i the loop meets an open connection: it was open to begin with and no other goroutine
        has begun to close it by then. */
    ghost static predicate MeetsOpen(open: set<ClientConn>, table: map<string, ClientConn>, order: seq<string>,
                                     closers: seq<set<ClientConn>>, i: int) {
      0 <= i < |order| == |closers| && order[i] in table && table[order[i]] in open - ClosedBefore(closers, i + 1)
    }

    /** One visit of the loop: while other goroutines begin to close the connections cs, the loop closes the
        connection filed under id. Closing an open one asks for clientsMu, which the loop itself holds. */
    method Visit(id: string, cs: set<ClientConn>)
      requires Valid() && !stuck && id in clients && forall c | c in cs :: c in conns
      modifies this`clients, this`stuck, cs`done, cs`phase, {clients[id]}`done, {clients[id]}`phase
      ensures Valid()
      ensures stuck <==> old(!clients[id].done) && old(clients[id]) !in cs
      ensures clients == if stuck then old(clients) else old(clients) - {id}
      ensures forall k | k in clients && k != id :: var c := clients[k]; !c.done <==> old(!c.done) && c !in cs
      ensures forall c | c in conns :: c.done <==> old(c.done) || c in cs || c == old(clients[id])
    {
      Interfere(cs);
      var first := CloseBegin(clients[id]);
      if first {
        stuck := true;
      } else {
        clients := clients - {id};
      }
    }

    /** The client loop of shutdown, under clientsMu, in the map's order; before visit i other goroutines
        begin to close the connections closers[i]. It blocks for ever exactly when it meets an open one,
        else it empties the table. Only those it meets so and the closers are marked closed. */
    method ShutdownLoop(order: seq<string>, closers: seq<set<ClientConn>>)
      requires Valid() && !stuck && IsOrder(order) && |closers| == |order|
      requires forall i, c | 0 <= i < |closers| && c in closers[i] :: c in conns
      modifies this`clients, this`stuck, clients.Values`done, clients.Values`phase
      modifies ClosedBefore(closers, |closers|)`done, ClosedBefore(closers, |closers|)`phase
      ensures Valid()
      ensures stuck <==> exists i :: MeetsOpen(old(OpenConns()), old(clients), order, closers, i)
      ensures !stuck ==> clients == map[]
      ensures !stuck ==> forall c | c in conns :: c.done <==> old(c.done) || c in ClosedBefore(closers, |closers|)
    {
      hide ClosedBefore, Valid, OpenConns, Visited, MeetsOpen;
      ghost var open, was := OpenConns(), clients;
      OpenEntries();
      NoneClosed(closers);
      AllClosers(closers);
      AllVisited(order);
      MeetsInside(open, was, order, closers);
      for i := 0 to |order|
        invariant Valid() && !stuck && clients == was - Visited(order, i)
        invariant forall id | id in clients :: !clients[id].done <==> clients[id] in open - ClosedBefore(closers, i)
        invariant forall j | 0 <= j < i :: !MeetsOpen(open, was, order, closers, j)
        invariant forall c | c in conns :: c.done <==> old(c.done) || c in ClosedBefore(closers, i)
      {
        VisitedOneMore(order, i);
        ClosedOneMore(closers, i);
        EntryIsConn(order[i]);
        MeetsAt(open, was, order, closers, i);
        Visit(order[i], closers[i]);
        if stuck {
          return;
        }
      }
    }

    ghost static function Visited(order: seq<string>, n: nat): set<string>
      requires n <= |order|
    {
      set id | id in order[..n]
    }

    lemma {:induction false} VisitedOneMore(order: seq<string>, i: nat)
      requires i < |order|
      requires forall j, k | 0 <= j < k < |order| :: order[j] != order[k]
      ensures order[i] !in Visited(order, i) && Visited(order, i + 1) == Visited(order, i) + {order[i]}
    {
      assert order[..i + 1] == order[..i] + [order[i]];
    }

    lemma {:induction false} AllVisited(order: seq<string>)
      ensures Visited(order, 0) == {} && forall id | id in order :: id in Visited(order, |order|)
    {
      assert order[..|order|] == order;
    }

    lemma {:induction false} MeetsInside(open: set<ClientConn>, table: map<string, ClientConn>, order: seq<string>,
                                         closers: seq<set<ClientConn>>)
      ensures forall i | MeetsOpen(open, table, order, closers, i) :: 0 <= i < |order|
    {
    }

    lemma {:induction false} MeetsAt(open: set<ClientConn>, table: map<string, ClientConn>, order: seq<string>,
                                     closers: seq<set<ClientConn>>, i: nat)
      requires i < |order| == |closers| && order[i] in table
      ensures MeetsOpen(open, table, order, closers, i) <==> table[order[i]] in open - ClosedBefore(closers, i + 1)
    {
    }

    lemma {:induction false} EntryIsConn(id: string)
      requires Valid() && id in clients
      ensures clients[id] in conns
    {}

    lemma {:induction false} OpenEntries()
      requires Valid()
      ensures forall id | id in clients :: !clients[id].done <==> clients[id] in OpenConns()
    {}

    /** Other goroutines begin to close connections. */
    method Interfere(cs: set<ClientConn>)
      requires Valid() && forall c | c in cs :: c in conns
      modifies cs`done, cs`phase
      ensures Valid()
      ensures forall c | c in conns :: !c.done <==> old(!c.done) && c !in cs
      ensures forall c | c in conns && old(c.done) :: c.phase == old(c.phase)
    {
      var left := cs;
      while left != {}
        invariant Valid() && left <= cs
        invariant forall c | c in conns :: !c.done <==> old(!c.done) && c !in cs - left
        invariant forall c | c in conns && old(c.done) :: c.phase == old(c.phase)
        decreases |left|
      {
        var c :| c in left;
        var first := CloseBegin(c);
        left := left - {c};
      }
    }

    /** No goroutine but the loop closes connection me. */
    static predicate AllSpare(closers: seq<set<nat>>, me: nat) {
      forall i | 0 <= i < |closers| :: me !in closers[i]
    }

    ghost predicate SomeEntryOpen()
      reads this, clients.Values
    {
      exists id :: id in clients && !clients[id].done
    }

    /** The loop of some shutdown, visit i preceded by the closers[i]. It always blocks if some entry is of
        an open connection that nobody else closes; if nobody closes any, exactly then. */
    method CloseAll(closers: seq<set<nat>>)
      requires Valid() && !stuck
      modifies this`clients, this`stuck, All()`done, All()`phase
      ensures Valid() && (!stuck ==> clients == map[]) && (stuck ==> old(SomeEntryOpen()))
      ensures forall me: nat | me < |conns| && AllSpare(closers, me) && !old(conns[me].done) ::
        (old(Filed(conns[me])) ==> stuck) && (!stuck ==> !conns[me].done)
      ensures closers == [] ==> (stuck <==> old(SomeEntryOpen()))
    {
      var order := MapOrder();
      var others := ChosenEach(conns, closers, |order|);
      ghost var open, was := OpenConns(), clients;
      label Before:
      forall me: nat | me < |conns| && AllSpare(closers, me)
        ensures conns[me] !in ClosedBefore(others, |others|)
      {
        SparedByAll(closers, others, me);
      }
      forall id | id in was && was[id] in open && was[id] !in ClosedBefore(others, |others|)
        ensures exists i :: MeetsOpen(open, was, order, others, i)
      {
        SparedMeets(open, was, order, others, id);
      }
      EntriesOf();
      OthersAreConns(others, closers);
      ShutdownLoop(order, others);
      if stuck {
        ghost var i :| MeetsOpen(open, was, order, others, i);
        assert old@Before(!clients[order[i]].done);
      }
    }

    lemma {:induction false} EntriesOf()
      requires Valid()
      ensures forall id | id in clients :: clients[id] in conns && (clients[id].done <==> clients[id] !in OpenConns())
      ensures forall c | c in conns :: Filed(c) <==> exists id :: id in clients && clients[id] == c
    {}

    lemma {:induction false} OthersAreConns(others: seq<set<ClientConn>>, closers: seq<set<nat>>)
      requires others == ChosenEach(conns, closers, |others|)
      ensures forall i, c | 0 <= i < |others| && c in others[i] :: c in conns
      ensures forall c | c in ClosedBefore(others, |others|) :: c in conns
    {}

    lemma {:induction false} SparedByAll(closers: seq<set<nat>>, others: seq<set<ClientConn>>, me: nat)
      requires Valid() && me < |conns| && AllSpare(closers, me)
      requires others == ChosenEach(conns, closers, |others|)
      ensures conns[me] !in ClosedBefore(others, |others|)
    {}

    lemma {:induction false} SparedMeets(open: set<ClientConn>, table: map<string, ClientConn>, order: seq<string>,
                                         closers: seq<set<ClientConn>>, id: string)
      requires |order| == |closers| && id in order && id in table
        && table[id] in open - ClosedBefore(closers, |closers|)
      ensures exists i :: MeetsOpen(open, table, order, closers, i)
    {
      var i :| 0 <= i < |order| && order[i] == id;
      assert MeetsOpen(open, table, order, closers, i);
    }

    // ---------- Any schedule ----------

    method TakeAccept(ghost me: nat, ghost id: string)
      requires Valid()
      modifies this`conns
      ensures Valid() && old(conns) <= conns && fresh(All() - old(All())) && (old(Own(me)) ==> Own(me))
      ensures id != "" && old(NobodyElse(me, id)) ==> NobodyElse(me, id)
    {
      var c := Accept();
    }

    lemma {:induction false} Distinct(me: nat)
      requires Valid()
      ensures forall k: nat | k < |conns| && k != me && me < |conns| :: conns[k] != conns[me]
    {
    }

    lemma {:induction false} OwnConn(me: nat)
      ensures Own(me) ==> me < |conns|
    {
    }

    // Each step of connection k's goroutine leaves connection me its own.

    method TakeIdentify(k: nat, from: string, ghost me: nat, ghost id: string)
      requires Valid() && k < |conns|
      modifies {conns[k]}`id
      ensures Valid() && (k != me && old(Own(me)) && from != old(conns[me].id) ==> Own(me))
      ensures k != me && id != "" && from != id && old(NobodyElse(me, id)) ==> NobodyElse(me, id)
    {
      if conns[k].phase == Reading && (conns[k].id == "" || conns[k].added) {
        var named := Identify(conns[k], from);
      }
    }

    method TakeAdd(k: nat, ghost me: nat)
      requires Valid() && k < |conns|
      modifies this`clients, {conns[k]}`added
      ensures stuck ==> clients == old(clients)
      ensures Valid() && (k != me && old(Own(me)) ==> Own(me))
    {
      if !stuck && conns[k].phase == Reading && conns[k].id != "" && !conns[k].added {
        AddClient(conns[k]);
      }
    }

    method TakeClose(k: nat, ghost me: nat)
      requires Valid() && k < |conns|
      modifies {conns[k]}`done, {conns[k]}`phase
      ensures Valid() && (k != me && old(Own(me)) ==> Own(me))
    {
      if conns[k].id == "" || conns[k].added {
        var first := CloseBegin(conns[k]);
      }
    }

    method TakeFinish(k: nat, ghost me: nat)
      requires Valid() && k < |conns|
      modifies this`clients, {conns[k]}`phase
      ensures stuck ==> clients == old(clients)
      ensures Valid() && (k != me && old(Own(me)) ==> Own(me))
    {
      if !stuck && conns[k].phase == Closing {
        CloseFinish(conns[k]);
      }
    }

    /** A step of one connection's goroutine, if it can be taken now. A step that needs clientsMu waits
        while the lock is kept. */
    method TakeOf(step: TableStep, ghost me: nat, ghost id: string)
      requires Valid() && !step.LoopStep?
      modifies this, All()
      ensures Valid() && old(conns) <= conns && fresh(All() - old(All()))
      ensures old(stuck) ==> stuck && clients == old(clients)
      ensures me < |old(conns)| && Spares(step, me) ==>
        conns[me].id == old(conns[me].id) && conns[me].added == old(conns[me].added)
        && (!stuck && !old(conns[me].done) ==> !conns[me].done)
      ensures Spares(step, me) && old(Own(me)) && NamesNot(step, old(conns[me].id)) ==> Own(me)
      ensures Spares(step, me) && id != "" && NamesNot(step, id) && old(NobodyElse(me, id)) ==> NobodyElse(me, id)
    {
      Distinct(me);
      OwnConn(me);
      hide Own, Valid, NobodyElse;
      match step
      case AcceptStep =>
        TakeAccept(me, id);
      case IdentifyStep(k, from) =>
        if k < |conns| {
          TakeIdentify(k, from, me, id);
        }
      case AddStep(k) =>
        if k < |conns| {
          TakeAdd(k, me);
        }
      case CloseStep(k) =>
        if k < |conns| {
          TakeClose(k, me);
        }
      case FinishStep(k) =>
        if k < |conns| {
          TakeFinish(k, me);
        }
      case LoopStep(_) =>
    }

    /** The step, if it can be taken now. For
        connection me, if the step is not its own goroutine's: it keeps its name; it stays open, and stays
        in the table if it alone has its name, unless a client loop waits for ever. */
    method Take(step: TableStep, ghost me: nat, ghost id: string)
      requires Valid()
      modifies this, All()
      ensures Valid() && old(conns) <= conns && fresh(All() - old(All()))
      ensures old(stuck) ==> stuck && clients == old(clients)
      ensures me < |old(conns)| && Spares(step, me) ==>
        conns[me].id == old(conns[me].id) && conns[me].added == old(conns[me].added)
        && (!stuck && !old(conns[me].done) ==> !conns[me].done)
      ensures Spares(step, me) && old(Own(me)) && NamesNot(step, old(conns[me].id)) ==> Own(me)
      ensures Spares(step, me) && id != "" && NamesNot(step, id) && old(NobodyElse(me, id)) ==> NobodyElse(me, id)
    {
      if step.LoopStep? {
        if !stuck {
          CloseAll(step.closers);
        }
      } else {
        TakeOf(step, me, id);
      }
    }
  }

  /** Whatever the interleaving of accepts, namings, closes and client loops of shutdowns, and whatever ids
      the connections share, every entry is keyed by its connection's own non-empty id, and the connection
      is open or in mid-close. */
  method RunSchedule(steps: seq<TableStep>) returns (t: ClientTable)
    ensures t.Valid()
    ensures forall k | k in t.clients :: var c := t.clients[k]; k != "" && c.id == k && c.phase != Closed
  {
    t := new ClientTable();
    for i := 0 to |steps|
      invariant t.Valid() && fresh(t) && fresh(t.All())
    {
      t.Take(steps[i], 0, "");
    }
  }

  /** Two connections may share an id; when the older closes, the entry of the newer goes, which is open. */
  method SharedId(id: string) returns (t: ClientTable, newer: ClientConn)
    requires id != ""
    ensures t.Valid() && newer in t.conns && newer.phase == Reading && newer.added && newer.id == id
    ensures id !in t.clients
  {
    t := new ClientTable();
    var older := t.Accept();
    var named := t.Identify(older, id);
    t.AddClient(older);
    newer := t.Accept();
    named := t.Identify(newer, id);
    t.AddClient(newer);
    var first := t.CloseBegin(older);
    t.CloseFinish(older);
  }
}
