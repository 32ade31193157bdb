/** The daemon's mutexes: what each operation takes, in what order, and any number of goroutines doing such
    operations. Blocking on sockets, pipes and HTTP while a lock is held is not part of this model. */
module Locks {
  import opened Wrappers

  datatype Mutex = StateMu | ClientsMu | RegistryMu | ManagerMu | RawMu | WideMu | ServerMu(server: nat)
      | ConnMu(conn: nat)

  /** Lock of a plain mutex is a Write too. */
  datatype Mode = Read | Write

  datatype Hold = Hold(mu: Mutex, mode: Mode)

  /** Release gives back the lock taken last: every unlock of the source is nested so. */
  datatype Op = Acquire(h: Hold) | Release

  // ---------- What the operations take ----------

  /** A critical section, and the locks taken and given back one after the other inside it. */
  datatype Section = Section(outer: Hold, inner: seq<Hold>)

  /** One model tried by loadWideModel: what it locks depends on these answers. */
  datatype Try = Try(ready: bool, loaded: bool, prompt: bool)

  datatype Operation =
    | ReadState
    | WriteState
    | FireIdleTimer(expired: bool)
    | ChangeClients
    | Send(conn: nat)
    | SendToClient(found: Option<nat>)
    | Broadcast(conns: seq<nat>)
    | BuildRegistry
    | ReadRegistry
    | LoadWideModel(registered: Option<seq<Try>>, directory: seq<Try>)
    | UseRawModel
    | ReadWide
    | WriteWide
    | Invoke(server: Option<nat>)
    | ReadServers
    | ChangeServers
    | ShutdownAll(servers: seq<nat>)
    | WaitExit(exited: nat)
    | ClientLoop(stillOpen: seq<bool>)

  function Alone(mu: Mutex, mode: Mode): Section {
    Section(Hold(mu, mode), [])
  }

  function OneTry(t: Try): seq<Hold> {
    [Hold(RawMu, Write)]
    + (if t.ready then [Hold(RawMu, Write)] else [])
    + (if t.loaded then [Hold(WideMu, Write)] else [])
    + (if t.prompt then [Hold(WideMu, Write)] else [])
  }

  function Tries(ts: seq<Try>): seq<Hold> {
    if ts == [] then [] else OneTry(ts[0]) + Tries(ts[1..])
  }

  /** A visit of shutdown's client loop closes the client; closing an open one calls RemoveClient. */
  function Visits(stillOpen: seq<bool>): seq<Hold> {
    if stillOpen == [] then []
    else (if stillOpen[0] then [Hold(ClientsMu, Write)] else []) + Visits(stillOpen[1..])
  }

  function Sections(o: Operation): seq<Section> {
    match o
    case ReadState => [Alone(StateMu, Read)]
    case WriteState => [Alone(StateMu, Write)]
    case FireIdleTimer(expired) =>
      [Alone(StateMu, Write)] + if expired then [Alone(WideMu, Write), Alone(StateMu, Write)] else []
    case ChangeClients => [Alone(ClientsMu, Write)]
    case Send(c) => [Alone(ConnMu(c), Write)]
    case SendToClient(found) =>
      [Alone(ClientsMu, Read)] + if found.Some? then [Alone(ConnMu(found.value), Write)] else []
    case Broadcast(conns) => [Section(Hold(ClientsMu, Read),
      seq(|conns|, k requires 0 <= k < |conns| => Hold(ConnMu(conns[k]), Write)))]
    case BuildRegistry => [Alone(RegistryMu, Write)]
    case ReadRegistry => [Alone(RegistryMu, Read)]
    case LoadWideModel(registered, directory) =>
      var inDirectory := Tries(directory);
      [Alone(RegistryMu, Read)]
      + (if registered.Some? then [Section(Hold(RegistryMu, Read), Tries(registered.value))] else [])
      + seq(|inDirectory|, k requires 0 <= k < |inDirectory| => Section(inDirectory[k], []))
    case UseRawModel => [Alone(RawMu, Write)]
    case ReadWide => [Alone(WideMu, Read)]
    case WriteWide => [Alone(WideMu, Write)]
    case Invoke(server) =>
      [Section(Hold(ManagerMu, Read), if server.Some? then [Hold(ServerMu(server.value), Write)] else [])]
    case ReadServers => [Alone(ManagerMu, Read)]
    case ChangeServers => [Alone(ManagerMu, Write)]
    case ShutdownAll(servers) =>
      [Section(Hold(ManagerMu, Write),
        seq(|servers|, k requires 0 <= k < |servers| => Hold(ServerMu(servers[k]), Write)))]
    case WaitExit(server) => [Alone(ServerMu(server), Write), Alone(ManagerMu, Write)]
    case ClientLoop(stillOpen) => [Section(Hold(ClientsMu, Write), Visits(stillOpen))]
  }

  function InnerCode(inner: seq<Hold>): seq<Op> {
    if inner == [] then [] else [Acquire(inner[0]), Release] + InnerCode(inner[1..])
  }

  function SectionCode(s: Section): seq<Op> {
    [Acquire(s.outer)] + InnerCode(s.inner) + [Release]
  }

  function SectionsCode(ss: seq<Section>): seq<Op> {
    if ss == [] then [] else SectionCode(ss[0]) + SectionsCode(ss[1..])
  }

  /** What a goroutine that does these operations in turn locks and unlocks. */
  function Code(os: seq<Operation>): seq<Op> {
    if os == [] then [] else SectionsCode(Sections(os[0])) + Code(os[1..])
  }

  // ---------- What that comes to, lock by lock ----------

  predicate JustTakes(code: seq<Op>, mu: Mutex, mode: Mode) {
    code == [Acquire(Hold(mu, mode)), Release]
  }

  /** The code takes outer and, before it gives it back, each of inner in turn. */
  predicate TakesInside(code: seq<Op>, outer: Hold, inner: seq<Hold>) {
    |code| == 2 * |inner| + 2 && code[0] == Acquire(outer) && code[|code| - 1] == Release
    && forall k | 0 <= k < |inner| :: code[2 * k + 1] == Acquire(inner[k]) && code[2 * k + 2] == Release
  }

  lemma {:induction false} InnerAt(inner: seq<Hold>)
    ensures |InnerCode(inner)| == 2 * |inner|
    ensures forall k | 0 <= k < |inner| ::
      InnerCode(inner)[2 * k] == Acquire(inner[k]) && InnerCode(inner)[2 * k + 1] == Release
  {
    if inner != [] {
      InnerAt(inner[1..]);
      var rest := InnerCode(inner[1..]);
      assert InnerCode(inner) == [Acquire(inner[0]), Release] + rest;
      forall k | 0 <= k < |inner|
        ensures InnerCode(inner)[2 * k] == Acquire(inner[k]) && InnerCode(inner)[2 * k + 1] == Release
      {
        if k > 0 {
          assert rest[2 * (k - 1)] == Acquire(inner[1..][k - 1]) && rest[2 * (k - 1) + 1] == Release;
        }
      }
    }
  }

  lemma {:induction false} SectionTakes(s: Section)
    ensures TakesInside(SectionCode(s), s.outer, s.inner)
  {
    InnerAt(s.inner);
  }

  lemma {:induction false} CodeOfOne(o: Operation)
    ensures Code([o]) == SectionsCode(Sections(o))
    ensures |Sections(o)| == 1 ==> Code([o]) == SectionCode(Sections(o)[0])
    ensures |Sections(o)| == 2 ==> Code([o]) == SectionCode(Sections(o)[0]) + SectionCode(Sections(o)[1])
  {
    hide Sections, SectionCode;
    var ss := Sections(o);
    assert [o][1..] == [] && Code([]) == [];
    assert SectionsCode([]) == [];
    if |ss| == 1 {
      assert ss[1..] == [];
    } else if |ss| == 2 {
      assert ss[1..][1..] == [] && ss[1..][0] == ss[1];
      assert SectionsCode(ss[1..]) == SectionCode(ss[1]) + [];
    }
  }

  lemma {:induction false} AloneTakes(mu: Mutex, mode: Mode)
    ensures JustTakes(SectionCode(Alone(mu, mode)), mu, mode)
  {
  }

  lemma {:induction false} OneSection(o: Operation, s: Section)
    requires Sections(o) == [s]
    ensures TakesInside(Code([o]), s.outer, s.inner)
    ensures s.inner == [] ==> JustTakes(Code([o]), s.outer.mu, s.outer.mode)
  {
    hide Sections, SectionCode, TakesInside;
    CodeOfOne(o);
    SectionTakes(s);
    if s.inner == [] {
      AloneTakes(s.outer.mu, s.outer.mode);
    }
  }

  lemma {:induction false} TwoSections(o: Operation, h: Hold, s: Section)
    requires Sections(o) == [Section(h, []), s]
    ensures |Code([o])| >= 2 && Code([o])[..2] == [Acquire(h), Release] && Code([o])[2..] == SectionCode(s)
  {
    hide Sections;
    CodeOfOne(o);
    AloneTakes(h.mu, h.mode);
    assert SectionCode(Section(h, [])) == [Acquire(h), Release];
    hide SectionCode, Code;
    assert Code([o]) == [Acquire(h), Release] + SectionCode(s);
  }

  /** The operations that nest one lock inside another: a broadcast the connections inside the client table, an
      invocation and a shutdown of the servers the servers inside the manager. */
  lemma {:induction false} NestingOperations(conns: seq<nat>, server: nat, servers: seq<nat>)
    ensures TakesInside(Code([Broadcast(conns)]), Hold(ClientsMu, Read),
                        seq(|conns|, k requires 0 <= k < |conns| => Hold(ConnMu(conns[k]), Write)))
    ensures TakesInside(Code([Invoke(Some(server))]), Hold(ManagerMu, Read), [Hold(ServerMu(server), Write)])
    ensures TakesInside(Code([Invoke(None)]), Hold(ManagerMu, Read), [])
    ensures TakesInside(Code([ShutdownAll(servers)]), Hold(ManagerMu, Write),
                        seq(|servers|, k requires 0 <= k < |servers| => Hold(ServerMu(servers[k]), Write)))
  {
    hide TakesInside, Code;
    OneSection(Broadcast(conns), Section(Hold(ClientsMu, Read),
      seq(|conns|, k requires 0 <= k < |conns| => Hold(ConnMu(conns[k]), Write))));
    OneSection(Invoke(Some(server)), Section(Hold(ManagerMu, Read), [Hold(ServerMu(server), Write)]));
    OneSection(Invoke(None), Section(Hold(ManagerMu, Read), []));
    OneSection(ShutdownAll(servers), Section(Hold(ManagerMu, Write),
      seq(|servers|, k requires 0 <= k < |servers| => Hold(ServerMu(servers[k]), Write))));
  }

  /** A client loop asks for clientsMu again inside it, once for every open client it meets. */
  lemma {:induction false} LoopAsksAgain(stillOpen: seq<bool>)
    ensures var again := Visits(stillOpen);
      TakesInside(Code([ClientLoop(stillOpen)]), Hold(ClientsMu, Write), again)
      && |again| == multiset(stillOpen)[true] && forall k | 0 <= k < |again| :: again[k] == Hold(ClientsMu, Write)
  {
    hide TakesInside, Code;
    OneSection(ClientLoop(stillOpen), Section(Hold(ClientsMu, Write), Visits(stillOpen)));
    VisitsLockClients(stillOpen);
    VisitsCount(stillOpen);
  }

  lemma {:induction false} VisitsCount(stillOpen: seq<bool>)
    ensures |Visits(stillOpen)| == multiset(stillOpen)[true]
  {
    if stillOpen != [] {
      VisitsCount(stillOpen[1..]);
      assert stillOpen == [stillOpen[0]] + stillOpen[1..];
    }
  }

  /** One registered model tried at startup: the raw client's lock and the wide client's, inside the registry's. */
  lemma {:induction false} StartupNests(t: Try)
    ensures JustTakes(Code([LoadWideModel(None, [])]), RegistryMu, Read)
    ensures var code := Code([LoadWideModel(Some([t]), [])]);
      |code| > 2 && code[..2] == [Acquire(Hold(RegistryMu, Read)), Release]
      && TakesInside(code[2..], Hold(RegistryMu, Read),
                     [Hold(RawMu, Write)] + (if t.ready then [Hold(RawMu, Write)] else [])
                     + (if t.loaded then [Hold(WideMu, Write)] else [])
                     + (if t.prompt then [Hold(WideMu, Write)] else []))
  {
    hide Code, TakesInside, JustTakes, OneTry;
    OneSection(LoadWideModel(None, []), Section(Hold(RegistryMu, Read), []));
    OneTried(t);
    var inside := Section(Hold(RegistryMu, Read), OneTry(t));
    TwoSections(LoadWideModel(Some([t]), []), Hold(RegistryMu, Read), inside);
    SectionTakes(inside);
    TryTakes(t);
  }

  lemma {:induction false} OneTried(t: Try)
    ensures Tries([t]) == OneTry(t) && Tries([]) == []
  {
    assert [t][1..] == [];
    assert Tries([t]) == OneTry(t) + Tries([]);
  }

  lemma {:induction false} TryTakes(t: Try)
    ensures OneTry(t) == [Hold(RawMu, Write)] + (if t.ready then [Hold(RawMu, Write)] else [])
      + (if t.loaded then [Hold(WideMu, Write)] else []) + (if t.prompt then [Hold(WideMu, Write)] else [])
  {
  }

  lemma {:induction false} OneLock(o: Operation, mu: Mutex, mode: Mode)
    requires Sections(o) == [Alone(mu, mode)]
    ensures JustTakes(Code([o]), mu, mode)
  {
    hide Sections;
    OneSection(o, Alone(mu, mode));
  }

  /** The operations that take one lock. */
  lemma {:induction false} TableOperations(conn: nat)
    ensures JustTakes(Code([ChangeClients]), ClientsMu, Write) && JustTakes(Code([Send(conn)]), ConnMu(conn), Write)
    ensures JustTakes(Code([BuildRegistry]), RegistryMu, Write) && JustTakes(Code([ReadRegistry]), RegistryMu, Read)
    ensures JustTakes(Code([ReadServers]), ManagerMu, Read) && JustTakes(Code([ChangeServers]), ManagerMu, Write)
    ensures JustTakes(Code([SendToClient(None)]), ClientsMu, Read)
  {
    hide Code, JustTakes;
    OneLock(ChangeClients, ClientsMu, Write);
    OneLock(Send(conn), ConnMu(conn), Write);
    OneLock(BuildRegistry, RegistryMu, Write);
    OneLock(ReadRegistry, RegistryMu, Read);
    OneLock(ReadServers, ManagerMu, Read);
    OneLock(ChangeServers, ManagerMu, Write);
    assert Sections(SendToClient(None)) == [Alone(ClientsMu, Read)];
    OneLock(SendToClient(None), ClientsMu, Read);
  }

  lemma {:induction false} StateOperations()
    ensures JustTakes(Code([ReadState]), StateMu, Read) && JustTakes(Code([WriteState]), StateMu, Write)
    ensures JustTakes(Code([UseRawModel]), RawMu, Write)
    ensures JustTakes(Code([ReadWide]), WideMu, Read) && JustTakes(Code([WriteWide]), WideMu, Write)
    ensures JustTakes(Code([FireIdleTimer(false)]), StateMu, Write)
  {
    hide Code, JustTakes;
    OneLock(ReadState, StateMu, Read);
    OneLock(WriteState, StateMu, Write);
    OneLock(UseRawModel, RawMu, Write);
    OneLock(ReadWide, WideMu, Read);
    OneLock(WriteWide, WideMu, Write);
    assert Sections(FireIdleTimer(false)) == [Alone(StateMu, Write)];
    OneLock(FireIdleTimer(false), StateMu, Write);
  }

  /** And those that give back one lock before they take the next. */
  lemma {:induction false} SteppedOperations(conn: nat, server: nat)
    ensures Code([SendToClient(Some(conn))])
         == [Acquire(Hold(ClientsMu, Read)), Release, Acquire(Hold(ConnMu(conn), Write)), Release]
    ensures Code([WaitExit(server)])
         == [Acquire(Hold(ServerMu(server), Write)), Release, Acquire(Hold(ManagerMu, Write)), Release]
  {
    hide Code, SectionCode;
    TwoSections(SendToClient(Some(conn)), Hold(ClientsMu, Read), Section(Hold(ConnMu(conn), Write), []));
    TwoSections(WaitExit(server), Hold(ServerMu(server), Write), Section(Hold(ManagerMu, Write), []));
    AloneTakes(ConnMu(conn), Write);
    AloneTakes(ManagerMu, Write);
  }

  /** The idle timer that has expired writes the state under its own lock, twice, with the unload in between. */
  lemma {:induction false} FireTakes()
    ensures Code([FireIdleTimer(true)])
         == [Acquire(Hold(StateMu, Write)), Release, Acquire(Hold(WideMu, Write)), Release,
             Acquire(Hold(StateMu, Write)), Release]
  {
    var o := FireIdleTimer(true);
    var a, b := Alone(StateMu, Write), Alone(WideMu, Write);
    CodeOfOne(o);
    AloneTakes(StateMu, Write);
    AloneTakes(WideMu, Write);
    assert Sections(o) == [a, b, a];
    hide Sections, SectionCode, Code;
    assert [a, b, a][1..] == [b, a] && [b, a][1..] == [a] && [a][1..] == [];
    assert SectionsCode([a]) == SectionCode(a) + SectionsCode([]);
    assert SectionsCode([b, a]) == SectionCode(b) + SectionsCode([a]);
  }

  // ---------- The lock order ----------

  /** The tables' locks come before the locks of the things filed in them and of the two models. */
  function Rank(mu: Mutex): nat {
    match mu
    case ClientsMu => 0
    case RegistryMu => 0
    case ManagerMu => 0
    case _ => 1
  }

  predicate Above(h: Hold, held: seq<Hold>) {
    forall k | 0 <= k < |held| :: Rank(held[k].mu) < Rank(h.mu)
  }

  /** From these holds, the code takes every lock above all it holds then, and gives everything back. */
  predicate Ordered(held: seq<Hold>, code: seq<Op>)
    decreases |code|
  {
    if code == [] then held == []
    else match code[0]
      case Acquire(h) => Above(h, held) && Ordered(held + [h], code[1..])
      case Release => held != [] && Ordered(held[..|held| - 1], code[1..])
  }

  predicate Conflict(g: Hold, h: Hold) {
    g.mu == h.mu && (g.mode.Write? || h.mode.Write?)
  }

  predicate Excludes(held: seq<Hold>, h: Hold) {
    exists k | 0 <= k < |held| :: Conflict(held[k], h)
  }

  /** Run alone, the code asks for a lock that it excludes itself from. */
  predicate SelfBlocks(held: seq<Hold>, code: seq<Op>)
    decreases |code|
  {
    code != [] && match code[0]
      case Acquire(h) => Excludes(held, h) || SelfBlocks(held + [h], code[1..])
      case Release => held != [] && SelfBlocks(held[..|held| - 1], code[1..])
  }

  predicate MeetsOpen(o: Operation) {
    o.ClientLoop? && true in o.stillOpen
  }

  lemma {:induction false} InnerSplits(inner: seq<Hold>, rest: seq<Op>)
    requires inner != []
    ensures InnerCode(inner) + rest == [Acquire(inner[0]), Release] + (InnerCode(inner[1..]) + rest)
  {
  }

  /** One lock taken and given back above what is held. */
  lemma {:induction false} PairOrdered(held: seq<Hold>, h: Hold, tail: seq<Op>)
    requires Above(h, held)
    ensures Ordered(held, [Acquire(h), Release] + tail) <==> Ordered(held, tail)
    ensures SelfBlocks(held, [Acquire(h), Release] + tail) <==> SelfBlocks(held, tail)
  {
    var code := [Acquire(h), Release] + tail;
    assert code[1..] == [Release] + tail && code[1..][1..] == tail;
    assert (held + [h])[..|held|] == held;
  }

  lemma {:induction false} InnerOrdered(outer: Hold, inner: seq<Hold>, rest: seq<Op>)
    requires forall k | 0 <= k < |inner| :: Above(inner[k], [outer])
    ensures Ordered([outer], InnerCode(inner) + rest) <==> Ordered([outer], rest)
    ensures SelfBlocks([outer], InnerCode(inner) + rest) <==> SelfBlocks([outer], rest)
  {
    hide Ordered, SelfBlocks, Above;
    if inner == [] {
      assert InnerCode(inner) + rest == rest;
    } else {
      InnerSplits(inner, rest);
      PairOrdered([outer], inner[0], InnerCode(inner[1..]) + rest);
      InnerOrdered(outer, inner[1..], rest);
    }
  }

  // ---------- The operations keep the order, but for a loop that meets an open client ----------

  predicate WellNested(s: Section) {
    forall k | 0 <= k < |s.inner| :: Above(s.inner[k], [s.outer])
  }

  lemma {:induction false} TriesAreModels(ts: seq<Try>)
    ensures forall k | 0 <= k < |Tries(ts)| :: Tries(ts)[k].mu in {RawMu, WideMu}
  {
    if ts != [] {
      TriesAreModels(ts[1..]);
    }
  }

  lemma {:induction false} VisitsLockClients(stillOpen: seq<bool>)
    ensures Visits(stillOpen) == [] <==> true !in stillOpen
    ensures forall k | 0 <= k < |Visits(stillOpen)| :: Visits(stillOpen)[k] == Hold(ClientsMu, Write)
  {
    if stillOpen != [] {
      VisitsLockClients(stillOpen[1..]);
      assert stillOpen == [stillOpen[0]] + stillOpen[1..];
    }
  }

  lemma {:induction false} SectionsNested(o: Operation)
    requires !MeetsOpen(o)
    ensures forall k | 0 <= k < |Sections(o)| :: WellNested(Sections(o)[k])
  {
    match o
    case LoadWideModel(registered, directory) =>
      if registered.Some? {
        TriesAreModels(registered.value);
      }
    case ClientLoop(stillOpen) =>
      VisitsLockClients(stillOpen);
    case _ =>
  }

  lemma {:induction false} SectionKeeps(s: Section, rest: seq<Op>)
    requires WellNested(s)
    ensures Ordered([], SectionCode(s) + rest) <==> Ordered([], rest)
    ensures SelfBlocks([], SectionCode(s) + rest) <==> SelfBlocks([], rest)
  {
    var code := SectionCode(s) + rest;
    var tail := [Release] + rest;
    assert code == [Acquire(s.outer)] + (InnerCode(s.inner) + tail);
    assert code[1..] == InnerCode(s.inner) + tail && tail[1..] == rest;
    assert [] + [s.outer] == [s.outer] && [s.outer][..0] == [];
    InnerOrdered(s.outer, s.inner, tail);
  }

  lemma {:induction false} SectionsKeep(ss: seq<Section>, rest: seq<Op>)
    requires forall k | 0 <= k < |ss| :: WellNested(ss[k])
    ensures Ordered([], SectionsCode(ss) + rest) <==> Ordered([], rest)
    ensures SelfBlocks([], SectionsCode(ss) + rest) <==> SelfBlocks([], rest)
  {
    if ss == [] {
      assert SectionsCode(ss) + rest == rest;
    } else {
      SectionsKeep(ss[1..], rest);
      SectionKeeps(ss[0], SectionsCode(ss[1..]) + rest);
      assert SectionsCode(ss) + rest == SectionCode(ss[0]) + (SectionsCode(ss[1..]) + rest);
    }
  }

  /** A loop that meets an open client asks for clientsMu while it holds it. */
  lemma {:induction false} OpenLoopBlocks(o: Operation, rest: seq<Op>)
    requires MeetsOpen(o)
    ensures SelfBlocks([], SectionsCode(Sections(o)) + rest) && !Ordered([], SectionsCode(Sections(o)) + rest)
  {
    var outer, inner := Hold(ClientsMu, Write), Visits(o.stillOpen);
    VisitsLockClients(o.stillOpen);
    var code := SectionsCode(Sections(o)) + rest;
    assert Sections(o)[1..] == [];
    assert code[..2] == [Acquire(outer), Acquire(outer)];
    assert code[0] == Acquire(outer) && code[1..][0] == Acquire(outer);
    assert ([] + [outer])[0] == outer;
    assert Conflict(outer, outer);
  }

  /** The code of any list of operations keeps the lock order if and only if no client loop in it meets an
      open client; otherwise it blocks itself. */
  lemma {:induction false} CodeOrdered(os: seq<Operation>)
    ensures Ordered([], Code(os)) <==> forall k | 0 <= k < |os| :: !MeetsOpen(os[k])
    ensures SelfBlocks([], Code(os)) <==> exists k | 0 <= k < |os| :: MeetsOpen(os[k])
  {
    if os != [] {
      CodeOrdered(os[1..]);
      assert forall k | 0 < k < |os| :: os[k] == os[1..][k - 1];
      if MeetsOpen(os[0]) {
        OpenLoopBlocks(os[0], Code(os[1..]));
      } else {
        SectionsNested(os[0]);
        SectionsKeep(Sections(os[0]), Code(os[1..]));
      }
    }
  }

  // ---------- Goroutines ----------

  /** held: from first taken to last; waits: the lock it has asked for; code: what it has still to do. */
  datatype Thread = Thread(held: seq<Hold>, waits: Option<Hold>, code: seq<Op>)

  type System = seq<Thread>

  datatype Label = Ask(i: nat) | Grant(i: nat) | GiveBack(i: nat)

  function Pending(t: Thread): seq<Op> {
    (if t.waits.Some? then [Acquire(t.waits.value)] else []) + t.code
  }

  predicate Finished(t: Thread) {
    t.waits.None? && t.code == []
  }

  /** Nobody, the asking goroutine included, holds the lock in a conflicting mode. */
  predicate Available(s: System, h: Hold) {
    forall j | 0 <= j < |s| :: !Excludes(s[j].held, h)
  }

  predicate CanStep(s: System, l: Label) {
    l.i < |s| && var t := s[l.i];
    match l
    case Ask(i) => t.waits.None? && t.code != [] && t.code[0].Acquire?
    case Grant(i) => t.waits.Some? && Available(s, t.waits.value)
    case GiveBack(i) => t.waits.None? && t.code != [] && t.code[0].Release? && t.held != []
  }

  function Step(s: System, l: Label): System
    requires CanStep(s, l)
  {
    var t := s[l.i];
    match l
    case Ask(i) => s[i := t.(waits := Some(t.code[0].h), code := t.code[1..])]
    case Grant(i) => s[i := t.(held := t.held + [t.waits.value], waits := None)]
    case GiveBack(i) => s[i := t.(held := t.held[..|t.held| - 1], code := t.code[1..])]
  }

  ghost predicate CanRun(s: System, ls: seq<Label>)
    decreases |ls|, 0
  {
    ls == [] || (CanRun(s, ls[..|ls| - 1]) && CanStep(After(s, ls[..|ls| - 1]), ls[|ls| - 1]))
  }

  ghost function After(s: System, ls: seq<Label>): System
    requires CanRun(s, ls)
    decreases |ls|, 1
  {
    if ls == [] then s else Step(After(s, ls[..|ls| - 1]), ls[|ls| - 1])
  }

  /** Goroutines about to do these lists of operations. */
  function Start(work: seq<seq<Operation>>): System {
    seq(|work|, i requires 0 <= i < |work| => Thread([], None, Code(work[i])))
  }

  predicate MeetsNoOpen(work: seq<seq<Operation>>) {
    forall i, k | 0 <= i < |work| && 0 <= k < |work[i]| :: !MeetsOpen(work[i][k])
  }

  // ---------- No cycle of waits ----------

  /** Thread i waits for j, at its strictest: j holds the lock in a conflicting mode, or i would read and j
      already waits to write, which holds back new readers. */
  predicate WaitsFor(s: System, i: nat, j: nat)
    requires i < |s| && j < |s|
  {
    s[i].waits.Some? && var h := s[i].waits.value;
    Excludes(s[j].held, h) || (h.mode.Read? && i != j && s[j].waits == Some(Hold(h.mu, Write)))
  }

  /** Who holds a lock to write is waited for by all who ask for it, and a waiting writer holds back readers. */
  lemma {:induction false} HeldBack(s: System, i: nat, j: nat, mu: Mutex, mode: Mode)
    requires i < |s| && j < |s| && s[i].waits == Some(Hold(mu, mode))
    ensures Hold(mu, Write) in s[j].held ==> WaitsFor(s, i, j)
    ensures mode.Write? && Hold(mu, Read) in s[j].held ==> WaitsFor(s, i, j)
    ensures mode.Read? && i != j && s[j].waits == Some(Hold(mu, Write)) ==> WaitsFor(s, i, j)
    ensures WaitsFor(s, i, j) && mode.Read? && s[j].waits != Some(Hold(mu, Write)) ==> Hold(mu, Write) in s[j].held
  {
    forall m | Hold(mu, m) in s[j].held && (m.Write? || mode.Write?)
      ensures Excludes(s[j].held, Hold(mu, mode))
    {
      var k :| 0 <= k < |s[j].held| && s[j].held[k] == Hold(mu, m);
      assert Conflict(s[j].held[k], Hold(mu, mode));
    }
  }

  predicate Disciplined(s: System) {
    forall i | 0 <= i < |s| :: Ordered(s[i].held, Pending(s[i]))
  }

  /** Where a waiting thread stands: by the rank of its lock, and writers above readers. */
  function Height(h: Hold): nat {
    2 * Rank(h.mu) + if h.mode.Write? then 1 else 0
  }

  predicate IsCycle(s: System, c: seq<nat>) {
    c != [] && (forall k | 0 <= k < |c| :: c[k] < |s|)
    && (forall k | 0 <= k < |c| - 1 :: WaitsFor(s, c[k], c[k + 1]))
    && WaitsFor(s, c[|c| - 1], c[0])
  }

  lemma {:induction false} StepKeepsDiscipline(s: System, l: Label)
    requires Disciplined(s) && CanStep(s, l)
    ensures Disciplined(Step(s, l))
  {
    var i, t, u := l.i, s[l.i], Step(s, l)[l.i];
    assert Ordered(t.held, Pending(t));
    match l
    case Ask(_) =>
      assert Pending(u) == t.code == Pending(t);
    case Grant(_) =>
      assert Pending(t)[1..] == t.code == Pending(u);
    case GiveBack(_) =>
      assert Pending(t) == t.code && Pending(u) == t.code[1..];
  }

  lemma {:induction false} RunKeepsDiscipline(s: System, ls: seq<Label>)
    requires Disciplined(s) && CanRun(s, ls)
    ensures Disciplined(After(s, ls))
  {
    if ls != [] {
      RunKeepsDiscipline(s, ls[..|ls| - 1]);
      StepKeepsDiscipline(After(s, ls[..|ls| - 1]), ls[|ls| - 1]);
    }
  }

  lemma {:induction false} StartDisciplined(work: seq<seq<Operation>>)
    requires MeetsNoOpen(work)
    ensures Disciplined(Start(work))
  {
    forall i | 0 <= i < |work|
      ensures Ordered(Start(work)[i].held, Pending(Start(work)[i]))
    {
      CodeOrdered(work[i]);
      assert Pending(Start(work)[i]) == Code(work[i]);
    }
  }

  /** Waits lead upwards. */
  lemma {:induction false} WaitsRise(s: System, i: nat, j: nat)
    requires Disciplined(s) && i < |s| && j < |s| && WaitsFor(s, i, j) && s[j].waits.Some?
    ensures Height(s[i].waits.value) < Height(s[j].waits.value)
  {
    assert Ordered(s[j].held, Pending(s[j]));
    assert Above(s[j].waits.value, s[j].held);
  }

  lemma {:induction false} CycleRises(s: System, c: seq<nat>, k: nat)
    requires Disciplined(s) && IsCycle(s, c) && k < |c|
    ensures s[c[0]].waits.Some? && s[c[k]].waits.Some?
    ensures Height(s[c[0]].waits.value) <= Height(s[c[k]].waits.value)
  {
    if k == 0 {
      assert |c| > 1 ==> WaitsFor(s, c[0], c[1]);
    } else {
      CycleRises(s, c, k - 1);
      assert WaitsFor(s, c[k - 1], c[k]);
      assert k < |c| - 1 ==> WaitsFor(s, c[k], c[k + 1]);
      WaitsRise(s, c[k - 1], c[k]);
    }
  }

  /** Main result. However many goroutines do whatever operations, as long as no shutdown's client loop
      meets an open client there is never a cycle of waits, self-waits included. */
  lemma {:induction false} NoCycle(work: seq<seq<Operation>>, ls: seq<Label>, c: seq<nat>)
    requires MeetsNoOpen(work) && CanRun(Start(work), ls)
    ensures !IsCycle(After(Start(work), ls), c)
  {
    var s := After(Start(work), ls);
    StartDisciplined(work);
    RunKeepsDiscipline(Start(work), ls);
    if IsCycle(s, c) {
      CycleRises(s, c, |c| - 1);
      WaitsRise(s, c[|c| - 1], c[0]);
    }
  }

  // ---------- Everything finishes ----------

  /** A step that is due even if waiting writers hold back readers. */
  predicate Due(s: System, l: Label) {
    CanStep(s, l) && (l.Grant? ==> forall j | 0 <= j < |s| :: !WaitsFor(s, l.i, j))
  }

  lemma {:induction false} RunnableMoves(s: System, i: nat) returns (l: Label)
    requires Disciplined(s) && i < |s| && s[i].waits.None? && s[i].code != []
    ensures Due(s, l)
  {
    assert Ordered(s[i].held, Pending(s[i]));
    assert Pending(s[i]) == s[i].code;
    l := if s[i].code[0].Acquire? then Ask(i) else GiveBack(i);
  }

  lemma {:induction false} HolderUnfinished(s: System, i: nat, j: nat)
    requires Disciplined(s) && i < |s| && j < |s| && WaitsFor(s, i, j)
    ensures !Finished(s[j])
  {
    assert Ordered(s[j].held, Pending(s[j]));
  }

  lemma {:induction false} Progress(s: System, i: nat) returns (l: Label)
    requires Disciplined(s) && i < |s| && !Finished(s[i])
    ensures Due(s, l)
    decreases if s[i].waits.None? then 0 else 4 - Height(s[i].waits.value)
  {
    hide Ordered, Disciplined, Excludes;
    if s[i].waits.None? {
      l := RunnableMoves(s, i);
    } else if j: nat :| j < |s| && WaitsFor(s, i, j) {
      HolderUnfinished(s, i, j);
      if s[j].waits.Some? {
        hide WaitsFor;
        WaitsRise(s, i, j);
      }
      l := Progress(s, j);
    } else {
      forall j: nat | j < |s| ensures !Excludes(s[j].held, s[i].waits.value) { assert !WaitsFor(s, i, j); }
      l := Grant(i);
    }
  }

  function Left(t: Thread): nat {
    2 * |t.code| + if t.waits.Some? then 1 else 0
  }

  function Total(s: System): nat {
    if s == [] then 0 else Left(s[0]) + Total(s[1..])
  }

  lemma {:induction false} TotalOfUpdate(s: System, i: nat, t: Thread)
    requires i < |s|
    ensures Total(s[i := t]) == Total(s) - Left(s[i]) + Left(t)
  {
    if i == 0 {
      assert s[i := t][1..] == s[1..];
    } else {
      assert s[i := t][1..] == s[1..][i - 1 := t];
      TotalOfUpdate(s[1..], i - 1, t);
    }
  }

  lemma {:induction false} StepShrinks(s: System, l: Label)
    requires CanStep(s, l)
    ensures Total(Step(s, l)) < Total(s)
  {
    TotalOfUpdate(s, l.i, Step(s, l)[l.i]);
  }

  lemma {:induction false} RunShrinks(s: System, ls: seq<Label>)
    requires CanRun(s, ls)
    ensures |ls| + Total(After(s, ls)) <= Total(s)
  {
    if ls != [] {
      RunShrinks(s, ls[..|ls| - 1]);
      StepShrinks(After(s, ls[..|ls| - 1]), ls[|ls| - 1]);
    }
  }

  predicate AllFinished(s: System) {
    forall i | 0 <= i < |s| :: Finished(s[i])
  }

  /** Main result. Under the same condition no run goes on for ever, and a run that has no due step left has
      finished every goroutine: no schedule ends in a deadlock. */
  lemma {:induction false} EveryRunFinishes(work: seq<seq<Operation>>, ls: seq<Label>)
    requires MeetsNoOpen(work) && CanRun(Start(work), ls)
    ensures |ls| <= Total(Start(work))
    ensures (forall l :: !Due(After(Start(work), ls), l)) ==> AllFinished(After(Start(work), ls))
  {
    var s := After(Start(work), ls);
    RunShrinks(Start(work), ls);
    StartDisciplined(work);
    RunKeepsDiscipline(Start(work), ls);
    if i :| 0 <= i < |s| && !Finished(s[i]) {
      var l := Progress(s, i);
    }
  }

  lemma {:induction false} Continue(s: System, ls: seq<Label>) returns (full: seq<Label>)
    requires Disciplined(s) && CanRun(s, ls)
    ensures CanRun(s, full) && AllFinished(After(s, full))
    decreases Total(After(s, ls))
  {
    var now := After(s, ls);
    if i: nat :| i < |now| && !Finished(now[i]) {
      RunKeepsDiscipline(s, ls);
      var l := Progress(now, i);
      StepShrinks(now, l);
      assert (ls + [l])[..|ls|] == ls;
      full := Continue(s, ls + [l]);
    } else {
      full := ls;
    }
  }

  // ---------- The client loop that meets an open client ----------

  predicate Doomed(t: Thread) {
    SelfBlocks(t.held, Pending(t))
  }

  lemma {:induction false} StepKeepsDoomed(s: System, l: Label, i: nat)
    requires CanStep(s, l) && i < |s| && Doomed(s[i])
    ensures Doomed(Step(s, l)[i])
  {
    var t, u := s[i], Step(s, l)[i];
    if l.i == i {
      match l
      case Ask(_) =>
        assert Pending(u) == t.code == Pending(t);
      case Grant(_) =>
        assert Pending(t)[1..] == t.code == Pending(u);
      case GiveBack(_) =>
        assert Pending(t) == t.code && Pending(u) == t.code[1..];
    }
  }

  lemma {:induction false} RunKeepsDoomed(s: System, ls: seq<Label>, i: nat)
    requires CanRun(s, ls) && i < |s| && Doomed(s[i])
    ensures |After(s, ls)| == |s| && Doomed(After(s, ls)[i])
  {
    if ls != [] {
      RunKeepsDoomed(s, ls[..|ls| - 1], i);
      StepKeepsDoomed(After(s, ls[..|ls| - 1]), ls[|ls| - 1], i);
    }
  }

  ghost predicate FinishingRun(work: seq<seq<Operation>>, ls: seq<Label>) {
    CanRun(Start(work), ls) && AllFinished(After(Start(work), ls))
  }

  /** Main result. Some schedule finishes all the work if and only if no client loop in it meets an open
      client; such a loop never returns, whatever the schedule. */
  lemma {:induction false} FinishesExactly(work: seq<seq<Operation>>)
    ensures MeetsNoOpen(work) <==> exists ls :: FinishingRun(work, ls)
    ensures forall i, k, ls | 0 <= i < |work| && 0 <= k < |work[i]| && MeetsOpen(work[i][k])
      && CanRun(Start(work), ls) ::
      |After(Start(work), ls)| == |work| && !Finished(After(Start(work), ls)[i])
  {
    forall i, k, ls | 0 <= i < |work| && 0 <= k < |work[i]| && MeetsOpen(work[i][k]) && CanRun(Start(work), ls)
      ensures |After(Start(work), ls)| == |work| && !Finished(After(Start(work), ls)[i])
    {
      CodeOrdered(work[i]);
      assert Pending(Start(work)[i]) == Code(work[i]);
      RunKeepsDoomed(Start(work), ls, i);
    }
    if MeetsNoOpen(work) {
      StartDisciplined(work);
      var ls := Continue(Start(work), []);
      assert FinishingRun(work, ls);
    }
  }

  /** And it starves the others: whoever waits for a lock that a goroutine holds to write and waits for
      itself, waits for ever. */
  lemma {:induction false} SelfWaitStarves(s: System, ls: seq<Label>, i: nat, mu: Mutex)
    requires CanRun(s, ls) && i < |s| && Hold(mu, Write) in s[i].held && s[i].waits == Some(Hold(mu, Write))
    ensures |After(s, ls)| == |s| && After(s, ls)[i] == s[i]
    ensures forall j | 0 <= j < |s| && s[j].waits.Some? && s[j].waits.value.mu == mu :: After(s, ls)[j] == s[j]
  {
    if ls != [] {
      SelfWaitStarves(s, ls[..|ls| - 1], i, mu);
    }
  }
}
