/** The daemon under interleaving: message handlers, prompt workers, the one-shot idle timer and
    shutdown as threads that take their effects one at a time, in any order among themselves. Each has the
    effects of a run that nothing stops; what stops it is in the steps: a second close of the listener
    ends the process, and a client loop that meets an open client keeps clientsMu for ever, and with it
    every thread that comes to need that lock. */
module Lifecycle {
  import opened Wrappers
  import opened Protocol
  import opened Worker
  import opened Text
  import opened Handlers

  /** idleTimeoutDuration, in seconds. */
  const IDLE_TIMEOUT: nat := 300

  /** A message is Arrived until HandleMessage looks at the state, and then Handling or Refused; unfiled says
      that it names its connection, which has to be filed first. */
  datatype Job =
    | Arrived(env: Envelope, a: Answers, unfiled: bool)
    | Refused(env: Envelope)
    | Handling(env: Envelope, a: Answers)
    | Prompting(env: Envelope, a: Answers)
    | SignalShutdown
    | IdleTimeout

  ghost function Program(job: Job): seq<Effect> {
    match job
    case Arrived(_, _, _) => []
    case Refused(env) => Refusal(env)
    case Handling(env, a) => HandleEffects(env, a, Ends)
    case Prompting(env, a) =>
      if env.body.Malformed? then [] else WorkerEffects(env.body.content, SessionOf(env, a), env.from, a.worker)
    case SignalShutdown => ShutdownEffects("signal", Ends) + [Exit]
    case IdleTimeout => [UnloadModel("idle_timeout"), SetState(Idle)]
  }

  /** root is the thread the work goes back to: the message's own for a handler and for its worker. A hung
      thread is inside a client loop that waits for ever. */
  datatype Thread = Thread(root: nat, job: Job, pc: nat, hung: bool)

  datatype Timer = Off | Armed(deadline: nat) | Spent

  datatype Event = Event(root: nat, effect: Effect)

  /** held: a client loop keeps clientsMu for ever. */
  datatype System = System(state: State, threads: map<nat, Thread>, next: nat, clock: nat, lastRequest: nat,
                           timer: Timer, signaled: bool, listenerOpen: bool, held: bool, dead: bool, log: seq<Event>)

  /** meetsOpen matters to the client loop of a shutdown: whether it meets an open client. */
  datatype Label =
    | Arrive(env: Envelope, a: Answers, unfiled: bool)
    | File(t: nat)
    | Gate(t: nat)
    | Act(t: nat, meetsOpen: bool)
    | StartTimer
    | Fire
    | Tick(n: nat)
    | Signal

  ghost function Init(): System {
    System(Idle, map[], 0, 0, 0, Off, false, true, false, false, [])
  }

  ghost function Spawn(s: System, root: nat, job: Job): System {
    s.(threads := s.threads[s.next := Thread(root, job, 0, false)], next := s.next + 1)
  }

  ghost predicate CanAct(th: Thread) {
    !th.hung && th.pc < |Program(th.job)|
  }

  /** The effects that take clientsMu. */
  predicate NeedsClients(e: Effect) {
    e.Output? || e.Broadcast? || e.CloseClients?
  }

  /** Run listens for signals only after it has started the timer. */
  ghost predicate Enabled(s: System, l: Label) {
    !s.dead && match l
      case Arrive(_, _, _) => true
      case File(t) => t in s.threads && s.threads[t].job.Arrived? && s.threads[t].job.unfiled && !s.held
      case Gate(t) => t in s.threads && s.threads[t].job.Arrived? && !s.threads[t].job.unfiled
      case Act(t, _) =>
        t in s.threads && CanAct(s.threads[t]) && (s.held ==> !NeedsClients(Program(s.threads[t].job)[s.threads[t].pc]))
      case StartTimer => s.timer.Off?
      case Fire => s.timer.Armed? && s.timer.deadline <= s.clock
      case Tick(_) => true
      case Signal => !s.signaled && !s.timer.Off?
  }

  /** Effect e of thread t, which is th: a second close of the listener is a run-time panic. */
  ghost function Perform(s: System, t: nat, th: Thread, e: Effect, meetsOpen: bool): System
    requires t in s.threads
  {
    match e
    case CloseClients => if meetsOpen then s.(held := true, threads := s.threads[t := s.threads[t].(hung := true)])
      else s
    case SetState(x) => s.(state := x)
    case Touch => s.(lastRequest := s.clock)
    case SpawnWorker => if th.job.Handling? then Spawn(s, th.root, Prompting(th.job.env, th.job.a)) else s
    case CloseListener => if s.listenerOpen then s.(listenerOpen := false) else s.(dead := true)
    case Crash => s.(dead := true)
    case Exit => s.(dead := true)
    case _ => s
  }

  ghost function Advance(s: System, t: nat): System
    requires t in s.threads && CanAct(s.threads[t])
  {
    var th := s.threads[t];
    s.(threads := s.threads[t := th.(pc := th.pc + 1)], log := s.log + [Event(th.root, Program(th.job)[th.pc])])
  }

  ghost function Apply(s: System, l: Label): System
    requires Enabled(s, l)
  {
    match l
    case Arrive(env, a, unfiled) => Spawn(s, s.next, Arrived(env, a, unfiled))
    case File(t) =>
      var th := s.threads[t];
      s.(threads := s.threads[t := th.(job := th.job.(unfiled := false))])
    case Gate(t) =>
      var th := s.threads[t];
      s.(threads := s.threads[t :=
        th.(job := if s.state == Shutdown then Refused(th.job.env) else Handling(th.job.env, th.job.a))])
    case Act(t, meetsOpen) =>
      Perform(Advance(s, t), t, s.threads[t], Program(s.threads[t].job)[s.threads[t].pc], meetsOpen)
    case StartTimer => s.(timer := Armed(s.clock + IDLE_TIMEOUT), lastRequest := s.clock)
    case Fire =>
      var s' := s.(timer := Spent);
      if s.clock >= s.lastRequest + IDLE_TIMEOUT then Spawn(s', s.next, IdleTimeout) else s'
    case Tick(n) => s.(clock := s.clock + n)
    case Signal => Spawn(s, s.next, SignalShutdown).(signaled := true)
  }

  /** The thread after it takes its next effect. */
  ghost function Next(th: Thread, meetsOpen: bool): Thread
    requires CanAct(th)
  {
    th.(pc := th.pc + 1, hung := Program(th.job)[th.pc].CloseClients? && meetsOpen)
  }

  ghost predicate CanRun(s: System, ls: seq<Label>)
    decreases |ls|, 0
  {
    ls == [] || (CanRun(s, ls[..|ls| - 1]) && Enabled(After(s, ls[..|ls| - 1]), ls[|ls| - 1]))
  }

  ghost function After(s: System, ls: seq<Label>): System
    requires CanRun(s, ls)
    decreases |ls|, 1
  {
    if ls == [] then s else Apply(After(s, ls[..|ls| - 1]), ls[|ls| - 1])
  }

  // ---------- What the programs write ----------

  /** A handler that has written x and has yet to write y. */
  ghost predicate MidBody(th: Thread, x: State, y: State) {
    th.job.Handling? && exists i, j :: WritesThen(Program(th.job), i, th.pc, j, x, y)
  }

  ghost predicate WritesThen(p: seq<Effect>, i: int, pc: int, j: int, x: State, y: State) {
    0 <= i < pc <= j < |p| && p[i] == SetState(x) && p[j] == SetState(y)
  }

  /** An accepted input whose closing Listening write has not happened: its handler is past the
      Processing write and has not started the worker, or its worker has effects to come. */
  ghost predicate InputOpen(th: Thread) {
    (th.job.Handling? && AcceptedInput(th.job.env) && 1 <= th.pc <= 2)
    || (th.job.Prompting? && th.pc < |Program(th.job)|)
  }

  lemma {:induction false} AcceptedProgram(env: Envelope, a: Answers)
    requires AcceptedInput(env)
    ensures Program(Handling(env, a)) == [SetState(Processing), Okay(env), SpawnWorker]
  {
    hide KindOf, ResponseType;
  }

  /** The worker's last effect is its only write, of Listening, unless the worker panics there. */
  lemma {:induction false} WorkerProgram(env: Envelope, a: Answers)
    requires AcceptedInput(env)
    ensures var p := Program(Prompting(env, a));
      p != [] && (p[|p| - 1] == SetState(Listening) || p[|p| - 1].Crash?)
      && forall k | 0 <= k < |p| - 1 :: Quiet(p[k])
    ensures forall k | 0 <= k < |Program(Prompting(env, a))| && Program(Prompting(env, a))[k].Output? ::
      Program(Prompting(env, a))[k].to == env.from
  {
    hide WorkerEffects, KindOf, Panics;
    WorkerAnswersOnce(env.body.content, SessionOf(env, a), env.from, a.worker);
  }

  /** An effect that lets its thread and the process go on. */
  predicate Benign(e: Effect) {
    !e.Crash? && !e.Exit? && !e.CloseListener? && !e.CloseClients?
  }

  /** An effect that can take the state away from Shutdown, now or through the worker it starts. */
  predicate Departs(e: Effect) {
    (e.SetState? && e.state != Shutdown) || e.SpawnWorker?
  }

  ghost predicate BenignUpTo(p: seq<Effect>, k: nat) {
    k <= |p| && forall i | 0 <= i < k :: Benign(p[i])
  }

  /** What effect k of a handler's program says about the program. */
  ghost predicate HandlerEffect(p: seq<Effect>, k: nat)
    requires k < |p|
  {
    !p[k].Output? && !p[k].Crash? && !p[k].SpawnWorker? && p[k] != SetState(Processing)
    && (Departs(p[k]) ==> BenignUpTo(p, k))
    && (p[k] == SetState(IdleRequested) ==> k + 3 < |p| && p[k + 3] == SetState(Idle))
    && (p[k] == SetState(Security) ==> k + 3 < |p| && p[k + 3] == SetState(Shutdown))
  }

  ghost predicate HandlerShape(p: seq<Effect>) {
    forall k: nat | k < |p| :: HandlerEffect(p, k)
  }

  predicate Plain(e: Effect) {
    !e.Output? && !e.Crash? && !Departs(e)
  }

  lemma {:induction false} PlainShape(head: seq<Effect>, tail: seq<Effect>)
    requires HandlerShape(head) && forall e | e in tail :: Plain(e)
    ensures HandlerShape(head + tail)
  {
    var p := head + tail;
    forall k: nat | k < |p|
      ensures HandlerEffect(p, k)
    {
      assert k < |head| ==> HandlerEffect(head, k) && p[k] == head[k];
      assert k >= |head| ==> p[k] in tail;
    }
  }

  lemma {:induction false} PrefixShape(e: Effect, p: seq<Effect>)
    requires HandlerShape(p) && Plain(e) && Benign(e)
    ensures HandlerShape([e] + p)
  {
    var s := [e] + p;
    assert forall i | 0 < i < |s| :: s[i] == p[i - 1];
    forall k: nat | k < |s|
      ensures HandlerEffect(s, k)
    {
      assert k > 0 ==> HandlerEffect(p, k - 1);
    }
  }

  lemma {:induction false} ShutdownPlain(reason: string)
    ensures forall e | e in ShutdownEffects(reason, Ends) :: Plain(e)
  {
  }

  lemma {:induction false} SecurityCodeShape(env: Envelope, a: Answers)
    requires env.body.Fields?
    ensures HandlerShape(CodeEffects(env, SecurityCode, a, Ends))
  {
    hide ResponseType, HandlerShape, ShutdownEffects;
    var start := [SetState(Security), UnloadModel("security"), StopServers];
    var sd := ShutdownEffects("security_code", Ends);
    ShutdownPlain("security_code");
    ShutdownFirst("security_code");
    SecurityShape();
    var reply := [Okay(env)];
    assert start + [sd[0]] == [SetState(Security), UnloadModel("security"), StopServers, SetState(Shutdown)];
    PlainShape(start + [sd[0]], sd[1..] + reply);
    assert start + sd + reply == start + [sd[0]] + (sd[1..] + reply);
  }

  lemma {:induction false} CodeShape(env: Envelope, code: Code, a: Answers)
    requires env.body.Fields?
    ensures HandlerShape(CodeEffects(env, code, a, Ends))
  {
    hide ResponseType, HandlerShape, ShutdownEffects;
    var c := CodeEffects(env, code, a, Ends);
    EmptyShape();
    match code {
      case Wake =>
        StartShape([SetState(Listening)]);
        PlainShape([SetState(Listening)], [Okay(env)]);
        assert c == [SetState(Listening)] + [Okay(env)];
      case IdleCode =>
        var body := [SetState(IdleRequested), UnloadModel("idle"), StopServers, SetState(Idle)];
        IdleShape();
        PlainShape(body, [Okay(env)]);
        assert c == body + [Okay(env)];
      case SecurityCode =>
        SecurityCodeShape(env, a);
      case ResetCode =>
        ShutdownPlain("reset_code");
        PlainShape([], c);
        assert [] + c == c;
      case _ =>
        PlainShape([], c);
        assert [] + c == c;
    }
  }

  lemma {:induction false} ShutdownFirst(reason: string)
    ensures ShutdownEffects(reason, Ends) != [] && ShutdownEffects(reason, Ends)[0] == SetState(Shutdown)
  {
  }

  lemma {:induction false} EmptyShape()
    ensures HandlerShape([])
  {
  }

  lemma {:induction false} StartShape(p: seq<Effect>)
    requires |p| == 1 && p[0] in {SetState(Listening), SetState(Idle)}
    ensures HandlerShape(p)
  {
  }

  lemma {:induction false} IdleShape()
    ensures HandlerShape([SetState(IdleRequested), UnloadModel("idle"), StopServers, SetState(Idle)])
  {
  }

  lemma {:induction false} SecurityShape()
    ensures HandlerShape([SetState(Security), UnloadModel("security"), StopServers, SetState(Shutdown)])
  {
  }

  lemma {:induction false} HandlerProgram(env: Envelope, a: Answers)
    requires !AcceptedInput(env)
    ensures HandlerShape(Program(Handling(env, a)))
  {
    hide KindOf, ResponseType, CodeOf, ToLower, SoftwareOrigin, CodeEffects, HandlerShape;
    var p := Program(Handling(env, a));
    assert [] + p == p;
    EmptyShape();
    if env.size <= MAX_PAYLOAD && KindOf(env.msgType).SystemCode? {
      if env.body.Fields? {
        var code := CodeOf(ToLower(env.body.code));
        var c := CodeEffects(env, code, a, Ends);
        CodeShape(env, code, a);
        PrefixShape(CodeValidated, c);
        if p != c && p != [CodeValidated] + c {
          PlainShape([], p);
        }
      } else {
        PlainShape([], p);
      }
    } else {
      hide SystemCodeEffects;
      PlainHandlers(env, a);
      PlainShape([], p);
    }
  }

  predicate AllPlain(p: seq<Effect>) {
    forall e | e in p :: Plain(e)
  }

  lemma {:induction false} PlainModelHandlers(env: Envelope, a: Answers)
    ensures AllPlain(LoadEffects(env, a)) && AllPlain(UnloadEffects(env, a)) && AllPlain(TuneEffects(env, a))
  {
    hide ResponseType;
  }

  lemma {:induction false} PlainHandlers(env: Envelope, a: Answers)
    requires !AcceptedInput(env) && (env.size > MAX_PAYLOAD || !KindOf(env.msgType).SystemCode?)
    ensures forall e | e in HandleEffects(env, a, Ends) :: Plain(e)
  {
    hide KindOf, ResponseType, SystemCodeEffects, LoadEffects, UnloadEffects, TuneEffects;
    PlainModelHandlers(env, a);
  }

  // ---------- What the state says about the work in flight ----------

  ghost predicate ThreadOk(s: System, t: nat)
    requires t in s.threads
  {
    var th := s.threads[t];
    t < s.next && th.root < s.next && th.pc <= |Program(th.job)| && (th.job.Prompting? ==> AcceptedInput(th.job.env))
  }

  /** Shape of a system; at most one idle timeout ever runs, and only after the timer is spent. */
  ghost predicate Wf(s: System) {
    (forall t: nat | t in s.threads :: ThreadOk(s, t))
    && s.lastRequest <= s.clock
    && (forall t: nat | t in s.threads && s.threads[t].job.IdleTimeout? :: s.timer.Spent?)
    && forall t: nat, u: nat | t in s.threads && u in s.threads && s.threads[t].job.IdleTimeout?
      && s.threads[u].job.IdleTimeout? :: t == u
  }

  ghost predicate SomeInputOpen(s: System) {
    exists t: nat :: t in s.threads && InputOpen(s.threads[t])
  }

  ghost predicate SomeMidBody(s: System, x: State, y: State) {
    exists t: nat :: t in s.threads && MidBody(s.threads[t], x, y)
  }

  /** While the process lives, a transient state is owed to work in flight. */
  ghost predicate StateMeansWork(s: System) {
    !s.dead ==>
      (s.state == Processing ==> SomeInputOpen(s))
      && (s.state == IdleRequested ==> SomeMidBody(s, IdleRequested, Idle))
      && (s.state == Security ==> SomeMidBody(s, Security, Shutdown))
  }

  /** Effect e of thread th writes x: the thread itself, moved on, is the work x is owed to. */
  lemma {:induction false} WriteContext(th: Thread, meetsOpen: bool)
    requires CanAct(th) && (th.job.Prompting? ==> AcceptedInput(th.job.env))
    ensures var e, th' := Program(th.job)[th.pc], Next(th, meetsOpen);
      (e == SetState(Processing) ==> InputOpen(th'))
      && (e == SetState(IdleRequested) ==> MidBody(th', IdleRequested, Idle))
      && (e == SetState(Security) ==> MidBody(th', Security, Shutdown))
  {
    hide HandleEffects, WorkerEffects, KindOf, ResponseType, ShutdownEffects;
    var p := Program(th.job);
    match th.job {
      case Handling(env, a) =>
        if AcceptedInput(env) {
          AcceptedProgram(env, a);
        } else {
          HandlerProgram(env, a);
          assert HandlerEffect(p, th.pc);
          if p[th.pc] == SetState(IdleRequested) {
            assert WritesThen(p, th.pc, th.pc + 1, th.pc + 3, IdleRequested, Idle);
          }
          if p[th.pc] == SetState(Security) {
            assert WritesThen(p, th.pc, th.pc + 1, th.pc + 3, Security, Shutdown);
          }
        }
      case Prompting(env, a) =>
        WorkerProgram(env, a);
      case SignalShutdown =>
        ShutdownWrites("signal");
      case _ =>
    }
  }

  lemma {:induction false} ShutdownWrites(reason: string)
    ensures forall e | e in ShutdownEffects(reason, Ends) && e.SetState? :: e.state == Shutdown
    ensures forall e | e in ShutdownEffects(reason, Ends) :: !e.SpawnWorker? && !e.Output?
  {
  }

  ghost predicate StartsWorker(th: Thread)
    requires CanAct(th)
  {
    Program(th.job)[th.pc].SpawnWorker? && th.job.Handling? && AcceptedInput(th.job.env)
    && Program(Prompting(th.job.env, th.job.a)) != []
  }

  /** A thread that is the work a state is owed to, and moves on without writing, still is; or it
      starts the worker that now is. */
  lemma {:induction false} WorkPersists(th: Thread, meetsOpen: bool)
    requires CanAct(th) && (th.job.Prompting? ==> AcceptedInput(th.job.env))
    requires !Program(th.job)[th.pc].SetState? && !Program(th.job)[th.pc].Crash?
    ensures InputOpen(th) ==> InputOpen(Next(th, meetsOpen)) || StartsWorker(th)
    ensures forall x, y :: MidBody(th, x, y) ==> MidBody(Next(th, meetsOpen), x, y)
  {
    hide HandleEffects, WorkerEffects, KindOf, ResponseType, ShutdownEffects;
    var p, th' := Program(th.job), Next(th, meetsOpen);
    forall x, y | MidBody(th, x, y)
      ensures MidBody(th', x, y)
    {
      var i, j :| WritesThen(p, i, th.pc, j, x, y);
      assert WritesThen(p, i, th'.pc, j, x, y);
    }
    if InputOpen(th) {
      if th.job.Handling? {
        AcceptedProgram(th.job.env, th.job.a);
        WorkerProgram(th.job.env, th.job.a);
      } else {
        WorkerProgram(th.job.env, th.job.a);
      }
    }
  }

  /** The threads after thread t takes its next effect. */
  ghost function Moved(s: System, t: nat, meetsOpen: bool): map<nat, Thread>
    requires t in s.threads && CanAct(s.threads[t])
  {
    var th := s.threads[t];
    var moved := s.threads[t := Next(th, meetsOpen)];
    if Program(th.job)[th.pc].SpawnWorker? && th.job.Handling? then
      moved[s.next := Thread(th.root, Prompting(th.job.env, th.job.a), 0, false)]
    else moved
  }

  /** All that one effect changes. */
  lemma {:induction false} ActEffect(s: System, t: nat, meetsOpen: bool)
    requires Enabled(s, Act(t, meetsOpen))
    ensures var s', th := Apply(s, Act(t, meetsOpen)), s.threads[t];
      var e := Program(th.job)[th.pc];
      s'.state == (if e.SetState? then e.state else s.state)
      && s'.dead == (e.Crash? || e.Exit? || (e.CloseListener? && !s.listenerOpen))
      && s'.held == (s.held || (e.CloseClients? && meetsOpen))
        && s'.listenerOpen == (s.listenerOpen && !e.CloseListener?)
      && s'.log == s.log + [Event(th.root, e)]
      && s'.threads == Moved(s, t, meetsOpen)
      && s'.next == (if e.SpawnWorker? && th.job.Handling? then s.next + 1 else s.next)
      && s'.timer == s.timer && s'.clock == s.clock && s'.lastRequest in {s.lastRequest, s.clock}
  {
    hide Program;
  }

  lemma {:induction false} ThreadsOk(s: System, s': System)
    requires s.next <= s'.next
    requires forall u: nat | u in s.threads :: ThreadOk(s, u)
    ensures forall u: nat | u in s.threads && u in s'.threads && s'.threads[u] == s.threads[u] :: ThreadOk(s', u)
  {
  }

  lemma {:induction false} WfAct(s: System, t: nat, meetsOpen: bool)
    requires Wf(s) && Enabled(s, Act(t, meetsOpen))
    ensures Wf(Apply(s, Act(t, meetsOpen)))
  {
    hide Program, KindOf, Apply;
    ActEffect(s, t, meetsOpen);
    var s', th := Apply(s, Act(t, meetsOpen)), s.threads[t];
    assert ThreadOk(s, t);
    ThreadsOk(s, s');
    if Program(th.job)[th.pc].SpawnWorker? && th.job.Handling? {
      SpawnsOnlyAccepted(th);
    }
    assert ThreadOk(s', t);
    forall u: nat | u in s'.threads
      ensures ThreadOk(s', u)
    {
      assert u == t || u == s.next || s'.threads[u] == s.threads[u];
    }
  }

  lemma {:induction false} WfStep(s: System, l: Label)
    requires Wf(s) && Enabled(s, l)
    ensures Wf(Apply(s, l))
  {
    if l.Act? {
      WfAct(s, l.t, l.meetsOpen);
    } else {
      hide Program, KindOf;
      var s' := Apply(s, l);
      WfThreads(s, l);
      assert forall u: nat | u in s.threads :: ThreadOk(s, u);
    }
  }

  lemma {:induction false} WfThreads(s: System, l: Label)
    requires Wf(s) && Enabled(s, l) && !l.Act?
    ensures forall u: nat | u in Apply(s, l).threads :: ThreadOk(Apply(s, l), u)
  {
    hide Program, KindOf;
    var s' := Apply(s, l);
    ThreadsOk(s, s');
    forall u: nat | u in s'.threads
      ensures ThreadOk(s', u)
    {
      if u in s.threads {
        assert ThreadOk(s, u);
        ArrivedProgram(s.threads[u]);
      }
    }
  }

  lemma {:induction false} ArrivedProgram(th: Thread)
    ensures th.job.Arrived? ==> Program(th.job) == []
  {
  }

  lemma {:induction false} SpawnsOnlyAccepted(th: Thread)
    requires CanAct(th) && th.job.Handling? && Program(th.job)[th.pc].SpawnWorker?
    ensures AcceptedInput(th.job.env) && th.pc == 2
  {
    hide HandleEffects, KindOf, ResponseType;
    if AcceptedInput(th.job.env) {
      AcceptedProgram(th.job.env, th.job.a);
    } else {
      NoSpawn(th.job.env, th.job.a);
    }
  }

  lemma {:induction false} NoSpawn(env: Envelope, a: Answers)
    requires !AcceptedInput(env)
    ensures forall k: nat | k < |Program(Handling(env, a))| :: !Program(Handling(env, a))[k].SpawnWorker?
  {
    hide HandleEffects, KindOf, ResponseType;
    HandlerProgram(env, a);
    var p := Program(Handling(env, a));
    forall k: nat | k < |p|
      ensures !p[k].SpawnWorker?
    {
      assert HandlerEffect(p, k);
    }
  }

  /** The work some thread was still is, moved on or handed to a new worker. */
  lemma {:induction false} WorkKept(s: System, t: nat, meetsOpen: bool)
    requires Wf(s) && Enabled(s, Act(t, meetsOpen))
    requires var e := Program(s.threads[t].job)[s.threads[t].pc]; !e.SetState? && !e.Crash?
    ensures SomeInputOpen(s) ==> SomeInputOpen(Apply(s, Act(t, meetsOpen)))
    ensures forall x, y :: SomeMidBody(s, x, y) ==> SomeMidBody(Apply(s, Act(t, meetsOpen)), x, y)
  {
    hide Program, KindOf, InputOpen, MidBody, Apply;
    ActEffect(s, t, meetsOpen);
    var s', th := Apply(s, Act(t, meetsOpen)), s.threads[t];
    assert ThreadOk(s, t);
    WorkPersists(th, meetsOpen);
    assert forall u: nat | u in s.threads && u != t && u != s.next :: u in s'.threads && s'.threads[u] == s.threads[u];
    assert forall u: nat | u in s.threads :: ThreadOk(s, u) && u != s.next;
    assert s'.threads[t] == Next(th, meetsOpen);
    if SomeInputOpen(s) {
      var u: nat :| u in s.threads && InputOpen(s.threads[u]);
      if u == t && !InputOpen(s'.threads[t]) {
        NewWorkerOpen(th.root, th.job.env, th.job.a);
        assert s.next in s'.threads && InputOpen(s'.threads[s.next]);
      } else {
        assert InputOpen(s'.threads[u]);
      }
    }
    forall x, y | SomeMidBody(s, x, y)
      ensures SomeMidBody(s', x, y)
    {
      var u: nat :| u in s.threads && MidBody(s.threads[u], x, y);
      assert MidBody(s'.threads[u], x, y);
    }
  }

  lemma {:induction false} MeaningAct(s: System, t: nat, meetsOpen: bool)
    requires Wf(s) && StateMeansWork(s) && Enabled(s, Act(t, meetsOpen))
    ensures StateMeansWork(Apply(s, Act(t, meetsOpen)))
  {
    hide Program, KindOf, InputOpen, MidBody, Apply, Wf;
    ActEffect(s, t, meetsOpen);
    var s', th := Apply(s, Act(t, meetsOpen)), s.threads[t];
    var e := Program(th.job)[th.pc];
    if e.SetState? {
      WriterOk(s, t);
      WriteContext(th, meetsOpen);
      assert s'.threads[t] == Next(th, meetsOpen);
    } else if !e.Crash? {
      WorkKept(s, t, meetsOpen);
    }
  }

  lemma {:induction false} WriterOk(s: System, t: nat)
    requires Wf(s) && t in s.threads
    ensures ThreadOk(s, t)
  {
  }

  lemma {:induction false} StateMeansWorkStep(s: System, l: Label)
    requires Wf(s) && StateMeansWork(s) && Enabled(s, l)
    ensures StateMeansWork(Apply(s, l))
  {
    hide Program, KindOf, InputOpen, MidBody;
    if l.Act? {
      MeaningAct(s, l.t, l.meetsOpen);
    } else {
      var s' := Apply(s, l);
      forall u: nat | u in s.threads
        ensures u in s'.threads && (s'.threads[u] == s.threads[u] || s.threads[u].job.Arrived?)
      {
        assert ThreadOk(s, u);
      }
      forall th: Thread | th.job.Arrived?
        ensures !InputOpen(th) && !MidBody(th, IdleRequested, Idle) && !MidBody(th, Security, Shutdown)
      {
        ArrivedOwesNothing(th);
      }
    }
  }

  lemma {:induction false} NewWorkerOpen(root: nat, env: Envelope, a: Answers)
    requires Program(Prompting(env, a)) != []
    ensures InputOpen(Thread(root, Prompting(env, a), 0, false))
  {
  }

  lemma {:induction false} ArrivedOwesNothing(th: Thread)
    requires th.job.Arrived?
    ensures !InputOpen(th) && forall x, y :: !MidBody(th, x, y)
  {
  }

  /** In every run: Processing means an accepted input still open, IdleRequested an idle handler in
      mid-body, Security a security handler that has not reached its Shutdown write. */
  lemma {:induction false} RunKeepsMeaning(ls: seq<Label>)
    requires CanRun(Init(), ls)
    ensures Wf(After(Init(), ls)) && StateMeansWork(After(Init(), ls))
    decreases |ls|
  {
    if ls != [] {
      var s, l := After(Init(), ls[..|ls| - 1]), ls[|ls| - 1];
      RunKeepsMeaning(ls[..|ls| - 1]);
      WfStep(s, l);
      StateMeansWorkStep(s, l);
    }
  }

  ghost predicate NothingInFlight(s: System) {
    forall t: nat | t in s.threads :: !s.threads[t].job.Arrived? && s.threads[t].pc == |Program(s.threads[t].job)|
  }

  /** With nothing in flight the daemon is idle, listening or shut down. */
  lemma {:induction false} QuietStates(ls: seq<Label>)
    requires CanRun(Init(), ls)
    requires NothingInFlight(After(Init(), ls)) && !After(Init(), ls).dead
    ensures After(Init(), ls).state in {Idle, Listening, Shutdown}
  {
    hide Program, KindOf;
    RunKeepsMeaning(ls);
    forall th: Thread | th.pc == |Program(th.job)|
      ensures !InputOpen(th) && forall x, y :: !MidBody(th, x, y)
    {
      FinishedOwesNothing(th);
    }
  }

  lemma {:induction false} FinishedOwesNothing(th: Thread)
    requires th.pc == |Program(th.job)|
    ensures !InputOpen(th) && forall x, y :: !MidBody(th, x, y)
  {
    hide KindOf;
    if th.job.Handling? && AcceptedInput(th.job.env) {
      AcceptedProgram(th.job.env, th.job.a);
    }
  }
}
