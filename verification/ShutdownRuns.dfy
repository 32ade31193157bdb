/** Leaving Shutdown: what can do it, exactly when nothing can, and what is answered meanwhile. Also the
    order of replies and outputs over every run. */
module ShutdownRuns {
  import opened Wrappers
  import opened Protocol
  import opened Worker
  import opened Handlers
  import opened Lifecycle

  // ---------- Runs ----------

  lemma {:induction false} RunAppend(s: System, a: seq<Label>, b: seq<Label>)
    requires CanRun(s, a) && CanRun(After(s, a), b)
    ensures CanRun(s, a + b) && After(s, a + b) == After(After(s, a), b)
    decreases |b|
  {
    hide Apply, Enabled;
    if b == [] {
      assert a + b == a;
    } else {
      RunAppend(s, a, b[..|b| - 1]);
      assert (a + b)[..|a + b| - 1] == a + b[..|b| - 1];
    }
  }

  lemma {:induction false} RunOne(s: System, l: Label)
    requires Enabled(s, l)
    ensures CanRun(s, [l]) && After(s, [l]) == Apply(s, l)
  {
    hide Apply, Enabled;
    assert [l][..0] == [];
  }

  lemma {:induction false} WfRun(s: System, ls: seq<Label>)
    requires Wf(s) && CanRun(s, ls)
    ensures Wf(After(s, ls))
    decreases |ls|
  {
    hide Wf, Apply, Enabled;
    if ls != [] {
      WfRun(s, ls[..|ls| - 1]);
      WfStep(After(s, ls[..|ls| - 1]), ls[|ls| - 1]);
    }
  }

  // ---------- The first departure from Shutdown ----------

  predicate Admitted(th: Thread) {
    th.job.Handling? || th.job.Prompting?
  }

  /** Some thread past the state check in s goes back to root. */
  ghost predicate RootAdmitted(s: System, root: nat) {
    exists t: nat :: t in s.threads && Admitted(s.threads[t]) && s.threads[t].root == root
  }

  /** All work past the state check in s goes back to work that was past it in s0. */
  ghost predicate RootsFrom(s0: System, s: System) {
    forall t: nat | t in s.threads && Admitted(s.threads[t]) :: RootAdmitted(s0, s.threads[t].root)
  }

  /** Every state before the last of the run is Shutdown. */
  ghost predicate ShutdownThrough(s: System, ls: seq<Label>)
    requires CanRun(s, ls)
    decreases |ls|
  {
    ls == [] || (ShutdownThrough(s, ls[..|ls| - 1]) && After(s, ls[..|ls| - 1]).state == Shutdown)
  }

  lemma {:induction false} RootsStep(s0: System, s: System, l: Label)
    requires Wf(s) && Enabled(s, l) && s.state == Shutdown && RootsFrom(s0, s)
    ensures RootsFrom(s0, Apply(s, l))
  {
    hide Program, KindOf, RootAdmitted;
    if l.Act? {
      ActEffect(s, l.t, l.meetsOpen);
      hide Apply;
      var s' := Apply(s, l);
      forall t: nat | t in s'.threads && Admitted(s'.threads[t])
        ensures RootAdmitted(s0, s'.threads[t].root)
      {
        assert Admitted(s.threads[l.t]) ==> RootAdmitted(s0, s.threads[l.t].root);
        assert t != l.t && t in s.threads && s'.threads[t] == s.threads[t] ==> RootAdmitted(s0, s.threads[t].root);
      }
    }
  }

  lemma {:induction false} RootsRun(s0: System, ls: seq<Label>)
    requires Wf(s0) && CanRun(s0, ls) && ShutdownThrough(s0, ls)
    ensures Wf(After(s0, ls)) && RootsFrom(s0, After(s0, ls))
    decreases |ls|
  {
    hide Wf, Apply, Enabled;
    if ls != [] {
      RootsRun(s0, ls[..|ls| - 1]);
      WfStep(After(s0, ls[..|ls| - 1]), ls[|ls| - 1]);
      RootsStep(s0, After(s0, ls[..|ls| - 1]), ls[|ls| - 1]);
    }
  }

  lemma {:induction false} OnlyAdmittedOrTimerLeave(th: Thread)
    requires CanAct(th) && Program(th.job)[th.pc].SetState? && Program(th.job)[th.pc].state != Shutdown
    ensures Admitted(th) || th.job.IdleTimeout?
  {
    hide HandleEffects, WorkerEffects, ResponseType, ShutdownEffects;
    if th.job.SignalShutdown? {
      ShutdownWrites("signal");
    }
  }

  /** The first step to take the state away from Shutdown belongs to the idle timer, or to work that was
      past the state check when the run began in Shutdown, or to the worker such work started. */
  lemma {:induction false} FirstDeparture(s0: System, ls: seq<Label>)
    requires Wf(s0) && CanRun(s0, ls) && ls != [] && ShutdownThrough(s0, ls)
    requires After(s0, ls).state != Shutdown
    ensures var s, l := After(s0, ls[..|ls| - 1]), ls[|ls| - 1];
      l.Act? && l.t in s.threads
      && (s.threads[l.t].job.IdleTimeout? || (Admitted(s.threads[l.t]) && RootAdmitted(s0, s.threads[l.t].root)))
  {
    hide Wf, Program, RootAdmitted;
    var s, l := After(s0, ls[..|ls| - 1]), ls[|ls| - 1];
    RootsRun(s0, ls[..|ls| - 1]);
    if l.Act? {
      ActEffect(s, l.t, l.meetsOpen);
      OnlyAdmittedOrTimerLeave(s.threads[l.t]);
    }
  }

  /** As long as the state has stayed Shutdown, a message that was not past the state check when the run
      began is refused: its only effect is the E_SHUTDOWN reply. */
  lemma {:induction false} LaterMessagesRefused(s0: System, ls: seq<Label>, t: nat)
    requires Wf(s0) && CanRun(s0, ls) && ShutdownThrough(s0, ls)
    requires t in After(s0, ls).threads && !RootAdmitted(s0, After(s0, ls).threads[t].root)
    ensures var job := After(s0, ls).threads[t].job;
      !Admitted(After(s0, ls).threads[t])
      && (job.Refused? ==> Program(job) == [Reply(ResponseType(job.env.msgType), job.env.id, Error("E_SHUTDOWN"))])
  {
    hide Wf, Apply, Enabled, ResponseType;
    RootsRun(s0, ls);
  }

  // ---------- A client loop that waits for ever ----------

  /** From its effect pc up to its effect k a program does not need clientsMu. */
  ghost predicate Free(p: seq<Effect>, pc: nat, k: nat) {
    forall i | pc <= i <= k && i < |p| :: !NeedsClients(p[i])
  }

  /** Once a client loop keeps clientsMu it does so for ever, and from then on nobody gets an output or a
      broadcast, no other client loop runs, and a message whose connection is not filed yet is never handled. */
  lemma {:induction false} HeldForEver(s: System, ls: seq<Label>)
    requires Wf(s) && s.held && CanRun(s, ls)
    ensures After(s, ls).held && Wf(After(s, ls)) && s.log <= After(s, ls).log
    ensures forall k | |s.log| <= k < |After(s, ls).log| ::
      var e := After(s, ls).log[k].effect; !e.Output? && !e.Broadcast? && !e.CloseClients?
    ensures forall t: nat | t in s.threads && s.threads[t].job.Arrived? && s.threads[t].job.unfiled ::
      t in After(s, ls).threads && After(s, ls).threads[t] == s.threads[t]
    decreases |ls|
  {
    hide Wf, Program, Apply, Enabled;
    if ls != [] {
      HeldForEver(s, ls[..|ls| - 1]);
      WfStep(After(s, ls[..|ls| - 1]), ls[|ls| - 1]);
      HeldStep(After(s, ls[..|ls| - 1]), ls[|ls| - 1]);
    }
  }

  lemma {:induction false} HeldStep(s: System, l: Label)
    requires Wf(s) && s.held && Enabled(s, l)
    ensures Apply(s, l).held && s.log <= Apply(s, l).log
    ensures forall k | |s.log| <= k < |Apply(s, l).log| :: !NeedsClients(Apply(s, l).log[k].effect)
    ensures forall t: nat | t in s.threads && s.threads[t].job.Arrived? && s.threads[t].job.unfiled ::
      t in Apply(s, l).threads && Apply(s, l).threads[t] == s.threads[t]
  {
    hide Program;
    forall t: nat | t in s.threads
      ensures t != s.next
    {
      assert ThreadOk(s, t);
    }
    if l.Act? {
      ActEffect(s, l.t, l.meetsOpen);
      ArrivedProgram(s.threads[l.t]);
      hide Apply;
    }
  }

  // ---------- Exactly when Shutdown is absorbing ----------

  /** From its effect pc on the program writes a state other than Shutdown; while clientsMu is kept for
      ever, it does so before it needs that lock. */
  ghost predicate Leaves(held: bool, p: seq<Effect>, pc: nat) {
    exists k: nat :: LeavesAt(held, p, pc, k)
  }

  ghost predicate LeavesAt(held: bool, p: seq<Effect>, pc: nat, k: nat) {
    pc <= k < |p| && p[k].SetState? && p[k].state != Shutdown && (held ==> Free(p, pc, k))
  }

  /** From effect pc on the handler starts a worker that will leave Shutdown. */
  ghost predicate StartsLeaver(held: bool, th: Thread, k: nat) {
    th.job.Handling? && th.pc <= k < |Program(th.job)| && Program(th.job)[k].SpawnWorker?
    && (held ==> Free(Program(th.job), th.pc, k)) && Leaves(held, Program(Prompting(th.job.env, th.job.a)), 0)
  }

  ghost predicate Departing(held: bool, th: Thread) {
    !th.hung && (Leaves(held, Program(th.job), th.pc) || exists k: nat :: StartsLeaver(held, th, k))
  }

  /** Work is pending that will leave Shutdown if it is let run: the timer has yet to fire, or some thread
      has a departing effect to come that it can reach. */
  ghost predicate Pending(s: System) {
    !s.timer.Spent? || exists t: nat :: t in s.threads && Departing(s.held, s.threads[t])
  }

  lemma {:induction false} NewThreadsStay(held: bool, th: Thread)
    requires th.job.Arrived? || th.job.Refused? || th.job.SignalShutdown?
    ensures !Departing(held, th)
  {
    hide ResponseType, ShutdownEffects;
    if th.job.SignalShutdown? {
      ShutdownWrites("signal");
      assert forall k | 0 <= k < |Program(th.job)| ::
        Program(th.job)[k] in ShutdownEffects("signal", Ends) || Program(th.job)[k] == Exit;
    }
  }

  /** A thread that is past an effect departs only if it departed before it, the lock being kept or not. */
  lemma {:induction false} StayingMoves(held: bool, held': bool, th: Thread, meetsOpen: bool)
    requires !Departing(held, th) && CanAct(th) && (held ==> held' && !NeedsClients(Program(th.job)[th.pc]))
    ensures !Departing(held', Next(th, meetsOpen))
    ensures var e := Program(th.job)[th.pc]; !(e.SetState? && e.state != Shutdown)
    ensures Program(th.job)[th.pc].SpawnWorker? && th.job.Handling? ==>
      !Leaves(held, Program(Prompting(th.job.env, th.job.a)), 0)
  {
    hide Program, Leaves;
    var p, pc, next := Program(th.job), th.pc, Next(th, meetsOpen);
    LeavesLater(held, held', p, pc);
    forall k: nat
      ensures !StartsLeaver(held', next, k)
    {
      assert !StartsLeaver(held, th, k);
      if th.job.Handling? {
        LeavesMore(held, held', Program(Prompting(th.job.env, th.job.a)), 0);
      }
    }
    if p[pc].SetState? {
      LeavesNow(held, p, pc);
    }
    assert !StartsLeaver(held, th, pc);
  }

  lemma {:induction false} LeavesLater(held: bool, held': bool, p: seq<Effect>, pc: nat)
    requires pc < |p| && (held ==> held' && !NeedsClients(p[pc]))
    ensures Leaves(held', p, pc + 1) ==> Leaves(held, p, pc)
  {
    var later := pc + 1;
    if k: nat :| LeavesAt(held', p, later, k) {
      assert LeavesAt(held, p, pc, k);
    }
  }

  lemma {:induction false} LeavesNow(held: bool, p: seq<Effect>, pc: nat)
    requires pc < |p| && !NeedsClients(p[pc])
    ensures p[pc].SetState? && p[pc].state != Shutdown ==> Leaves(held, p, pc)
  {
    assert p[pc].SetState? && p[pc].state != Shutdown ==> LeavesAt(held, p, pc, pc);
  }

  lemma {:induction false} LeavesMore(held: bool, held': bool, p: seq<Effect>, pc: nat)
    requires held ==> held'
    ensures Leaves(held', p, pc) ==> Leaves(held, p, pc)
  {
    forall k: nat | LeavesAt(held', p, pc, k)
      ensures LeavesAt(held, p, pc, k)
    {
    }
  }

  lemma {:induction false} DepartsMore(held: bool, held': bool, th: Thread)
    requires held ==> held'
    ensures Departing(held', th) ==> Departing(held, th)
  {
    hide Program;
    LeavesMore(held, held', Program(th.job), th.pc);
    forall k: nat | StartsLeaver(held', th, k)
      ensures StartsLeaver(held, th, k)
    {
      LeavesMore(held, held', Program(Prompting(th.job.env, th.job.a)), 0);
    }
  }

  lemma {:induction false} NewWorkerStays(held: bool, held': bool, root: nat, env: Envelope, a: Answers)
    requires !Leaves(held, Program(Prompting(env, a)), 0) && (held ==> held')
    ensures !Departing(held', Thread(root, Prompting(env, a), 0, false))
  {
    hide Program, Leaves;
    LeavesMore(held, held', Program(Prompting(env, a)), 0);
  }

  lemma {:induction false} StaysActs(s: System, t: nat, meetsOpen: bool)
    requires s.state == Shutdown && !Pending(s) && Enabled(s, Act(t, meetsOpen)) && Wf(s)
    ensures Apply(s, Act(t, meetsOpen)).state == Shutdown && !Pending(Apply(s, Act(t, meetsOpen)))
  {
    ActEffect(s, t, meetsOpen);
    hide Program, Departing, Leaves, Apply;
    var s', th := Apply(s, Act(t, meetsOpen)), s.threads[t];
    StayingMoves(s.held, s'.held, th, meetsOpen);
    assert ThreadOk(s, t);
    forall u: nat | u in s'.threads
      ensures !Departing(s'.held, s'.threads[u])
    {
      if u == s.next && Program(th.job)[th.pc].SpawnWorker? && th.job.Handling? {
        NewWorkerStays(s.held, s'.held, th.root, th.job.env, th.job.a);
      } else if u != t {
        DepartsMore(s.held, s'.held, s.threads[u]);
      }
    }
  }

  lemma {:induction false} StaysStep(s: System, l: Label)
    requires s.state == Shutdown && !Pending(s) && Enabled(s, l) && Wf(s)
    ensures Apply(s, l).state == Shutdown && !Pending(Apply(s, l))
  {
    if l.Act? {
      StaysActs(s, l.t, l.meetsOpen);
    } else {
      hide Program, Departing;
      var s' := Apply(s, l);
      forall u: nat | u in s'.threads
        ensures !Departing(s'.held, s'.threads[u])
      {
        if u !in s.threads || s'.threads[u] != s.threads[u] {
          NewThreadsStay(s'.held, s'.threads[u]);
        }
      }
    }
  }

  lemma {:induction false} StaysRun(s: System, ls: seq<Label>)
    requires s.state == Shutdown && !Pending(s) && Wf(s) && CanRun(s, ls)
    ensures After(s, ls).state == Shutdown && !Pending(After(s, ls)) && Wf(After(s, ls))
    decreases |ls|
  {
    hide Wf, Apply, Enabled, Pending;
    if ls != [] {
      StaysRun(s, ls[..|ls| - 1]);
      WfStep(After(s, ls[..|ls| - 1]), ls[|ls| - 1]);
      StaysStep(After(s, ls[..|ls| - 1]), ls[|ls| - 1]);
    }
  }

  /** Thread t can take all its effects from where it is up to and with effect k: none stops it. */
  ghost predicate Reaches(s: System, t: nat, k: nat)
    requires t in s.threads
  {
    var th := s.threads[t];
    !th.hung && th.pc <= k < |Program(th.job)| && BenignUpTo(Program(th.job), k) && Benign(Program(th.job)[k])
    && (s.held ==> Free(Program(th.job), th.pc, k))
  }

  function Events(root: nat, effects: seq<Effect>): seq<Event> {
    seq(|effects|, k requires 0 <= k < |effects| => Event(root, effects[k]))
  }

  lemma {:induction false} EventsAppend(root: nat, a: seq<Effect>, b: seq<Effect>)
    ensures Events(root, a + b) == Events(root, a) + Events(root, b)
  {
  }

  /** One more effect of a program. */
  lemma {:induction false} EventsNext(root: nat, p: seq<Effect>, pc: nat, n: nat)
    requires pc + n < |p|
    ensures Events(root, p[pc..pc + n]) + [Event(root, p[pc + n])] == Events(root, p[pc..pc + n + 1])
  {
  }

  /** Let thread t take its next n effects. */
  lemma {:induction false} ActMany(s: System, t: nat, k: nat, n: nat) returns (ls: seq<Label>)
    requires Wf(s) && !s.dead && t in s.threads && Reaches(s, t, k) && s.threads[t].pc + n <= k
    ensures CanRun(s, ls)
    ensures var s' := After(s, ls);
      !s'.dead && s'.held == s.held && Wf(s') && t in s'.threads
        && s'.threads[t] == s.threads[t].(pc := s.threads[t].pc + n)
        && s'.log == s.log + Events(s.threads[t].root, Program(s.threads[t].job)[s.threads[t].pc..s.threads[t].pc + n])
  {
    hide Program, Wf;
    if n == 0 {
      ls := [];
    } else {
      var init := ActMany(s, t, k, n - 1);
      var s1, l := After(s, init), Act(t, false);
      ls := init + [l];
      assert ls[..|ls| - 1] == init;
      WriterOk(s1, t);
      assert Enabled(s1, l);
      ActEffect(s1, t, false);
      WfStep(s1, l);
      hide Apply;
      assert After(s, ls) == Apply(s1, l);
      EventsNext(s.threads[t].root, Program(s.threads[t].job), s.threads[t].pc, n - 1);
    }
  }

  /** Let thread t run up to and through its effect k. */
  lemma {:induction false} ActThrough(s: System, t: nat, k: nat) returns (ls: seq<Label>)
    requires Wf(s) && !s.dead && t in s.threads && Reaches(s, t, k)
    ensures CanRun(s, ls) && Wf(After(s, ls)) && !After(s, ls).dead && After(s, ls).held == s.held
    ensures var th, s' := s.threads[t], After(s, ls);
      var e := Program(th.job)[k];
      t in s'.threads && s'.threads[t] == th.(pc := k + 1)
      && s'.log == s.log + Events(th.root, Program(th.job)[th.pc..k + 1])
      && (e.SetState? ==> s'.state == e.state)
      && (e.SpawnWorker? && th.job.Handling? ==>
          exists w: nat :: w in s'.threads
            && s'.threads[w] == Thread(th.root, Prompting(th.job.env, th.job.a), 0, false))
  {
    hide Program, Wf, Apply;
    var init := ActMany(s, t, k, k - s.threads[t].pc);
    var s1, l := After(s, init), Act(t, false);
    ls := init + [l];
    assert ls[..|ls| - 1] == init;
    assert Enabled(s1, l);
    ActEffect(s1, t, false);
    WfStep(s1, l);
    WriterOk(s1, t);
    EventsNext(s.threads[t].root, Program(s.threads[t].job), s.threads[t].pc, k - s.threads[t].pc);
    var e := Program(s1.threads[t].job)[k];
    if e.SpawnWorker? && s1.threads[t].job.Handling? {
      assert s1.next in After(s, ls).threads;
    }
  }

  /** A write that leaves Shutdown, or the start of a worker, is benign, and so is all that comes before. */
  lemma {:induction false} DepartureReachable(th: Thread, k: nat)
    requires k < |Program(th.job)| && Departs(Program(th.job)[k]) && (th.job.Prompting? ==> AcceptedInput(th.job.env))
    ensures BenignUpTo(Program(th.job), k) && Benign(Program(th.job)[k])
    ensures th.job.Handling? && Program(th.job)[k].SpawnWorker? ==> AcceptedInput(th.job.env)
  {
    hide HandleEffects, WorkerEffects, KindOf, ResponseType, ShutdownEffects;
    var p := Program(th.job);
    match th.job {
      case Handling(env, a) =>
        if AcceptedInput(env) {
          AcceptedProgram(env, a);
        } else {
          HandlerProgram(env, a);
          assert HandlerEffect(p, k);
        }
      case Prompting(env, a) =>
        WorkerProgram(env, a);
      case SignalShutdown =>
        ShutdownWrites("signal");
      case _ =>
    }
  }

  lemma {:induction false} ThreadLeaves(s: System, t: nat) returns (ls: seq<Label>)
    requires Wf(s) && !s.dead && t in s.threads && Departing(s.held, s.threads[t])
    ensures CanRun(s, ls) && After(s, ls).state != Shutdown
  {
    hide Program, Apply, Enabled, KindOf, Free;
    var th := s.threads[t];
    assert ThreadOk(s, t);
    if Leaves(s.held, Program(th.job), th.pc) {
      var k: nat :| LeavesAt(s.held, Program(th.job), th.pc, k);
      DepartureReachable(th, k);
      ls := ActThrough(s, t, k);
    } else {
      var k: nat :| StartsLeaver(s.held, th, k);
      DepartureReachable(th, k);
      ls := ActThrough(s, t, k);
      var s1 := After(s, ls);
      var w: nat :| w in s1.threads && s1.threads[w] == Thread(th.root, Prompting(th.job.env, th.job.a), 0, false);
      var j: nat :| LeavesAt(s.held, Program(Prompting(th.job.env, th.job.a)), 0, j);
      DepartureReachable(s1.threads[w], j);
      var more := ActThrough(s1, w, j);
      RunAppend(s, ls, more);
      ls := ls + more;
    }
  }

  lemma {:induction false} TimerLeaves(s: System) returns (ls: seq<Label>)
    requires Wf(s) && !s.dead && !s.timer.Spent?
    ensures CanRun(s, ls) && After(s, ls).state != Shutdown
  {
    if s.timer.Off? {
      RunOne(s, StartTimer);
      var s1 := Apply(s, StartTimer);
      WfStep(s, StartTimer);
      var more := ArmedLeaves(s1);
      RunAppend(s, [StartTimer], more);
      ls := [StartTimer] + more;
    } else {
      ls := ArmedLeaves(s);
    }
  }

  lemma {:induction false} ArmedLeaves(s: System) returns (ls: seq<Label>)
    requires Wf(s) && !s.dead && s.timer.Armed?
    ensures CanRun(s, ls) && After(s, ls).state != Shutdown
  {
    hide Program, CanAct;
    var wait := Tick(s.timer.deadline + IDLE_TIMEOUT);
    RunOne(s, wait);
    WfStep(s, wait);
    var s1 := Apply(s, wait);
    RunOne(s1, Fire);
    WfStep(s1, Fire);
    var s2 := Apply(s1, Fire);
    RunAppend(s, [wait], [Fire]);
    var t := s1.next;
    assert s2.threads[t] == Thread(t, IdleTimeout, 0, false);
    TimeoutDeparts(s2.held, s2.threads[t]);
    var more := ThreadLeaves(s2, t);
    RunAppend(s, [wait] + [Fire], more);
    ls := [wait] + [Fire] + more;
  }

  lemma {:induction false} TimeoutDeparts(held: bool, th: Thread)
    requires th.job == IdleTimeout && th.pc == 0 && !th.hung
    ensures Departing(held, th)
  {
    assert LeavesAt(held, Program(th.job), 0, 1);
  }

  /** Shutdown is left in no run exactly when no departing work is pending. */
  lemma {:induction false} ShutdownAbsorbsExactly(s: System)
    requires Wf(s) && !s.dead && s.state == Shutdown
    ensures (forall ls | CanRun(s, ls) :: After(s, ls).state == Shutdown) <==> !Pending(s)
  {
    hide Wf, CanRun, After, Departing;
    if Pending(s) {
      var run: seq<Label>;
      if !s.timer.Spent? {
        run := TimerLeaves(s);
      } else {
        var t: nat :| t in s.threads && Departing(s.held, s.threads[t]);
        run := ThreadLeaves(s, t);
      }
      assert CanRun(s, run) && After(s, run).state != Shutdown;
    } else {
      forall ls | CanRun(s, ls)
        ensures After(s, ls).state == Shutdown
      {
        StaysRun(s, ls);
      }
    }
  }

  /** While a client loop keeps clientsMu for ever, a worker leaves Shutdown only if its closing write is all
      it has to do: before that it needs the lock for its output. */
  lemma {:induction false} HeldWorkers(th: Thread)
    requires th.job.Prompting? && AcceptedInput(th.job.env) && !th.hung
    ensures var p := Program(th.job);
      Departing(true, th) <==> th.pc == |p| - 1 && p[|p| - 1] == SetState(Listening)
  {
    hide WorkerEffects, KindOf, AnswersOnce, DiesSilent, Panics;
    var env, a := th.job.env, th.job.a;
    var p := Program(th.job);
    WorkerProgram(env, a);
    WorkerClosing(env, a);
    if th.pc == |p| - 1 && p[|p| - 1] == SetState(Listening) {
      assert LeavesAt(true, p, th.pc, th.pc);
    }
    forall k: nat | LeavesAt(true, p, th.pc, k)
      ensures th.pc == k == |p| - 1
    {
    }
  }

  lemma {:induction false} WorkerClosing(env: Envelope, a: Answers)
    requires AcceptedInput(env)
    ensures var p := Program(Prompting(env, a));
      p[|p| - 1].SetState? ==> |p| >= 2 && p[|p| - 2].Output?
  {
    hide WorkerEffects, KindOf, Panics;
    WorkerAnswersOnce(env.body.content, SessionOf(env, a), env.from, a.worker);
  }

  /** Shutdown is not absorbing: a signal sets it while the idle timer, started before, has yet to fire, and
      the timer takes the state to another value. */
  lemma {:induction false} ShutdownIsLeft() returns (before: seq<Label>, after: seq<Label>)
    ensures CanRun(Init(), before) && After(Init(), before).state == Shutdown
    ensures CanRun(After(Init(), before), after) && After(After(Init(), before), after).state != Shutdown
  {
    var s1 := StartedRun();
    var s2 := Apply(s1, Signal);
    RunOne(s1, Signal);
    RunAppend(Init(), [StartTimer], [Signal]);
    WfStep(s1, Signal);
    assert Program(s2.threads[0].job)[0] == SetState(Shutdown);
    RunOne(s2, Act(0, false));
    ActEffect(s2, 0, false);
    WfStep(s2, Act(0, false));
    RunAppend(Init(), [StartTimer] + [Signal], [Act(0, false)]);
    before := [StartTimer] + [Signal] + [Act(0, false)];
    after := TimerLeaves(After(Init(), before));
  }

  lemma {:induction false} StartedRun() returns (s: System)
    ensures Enabled(Init(), StartTimer) && s == Apply(Init(), StartTimer) && Wf(s)
    ensures CanRun(Init(), [StartTimer]) && After(Init(), [StartTimer]) == s
  {
    RunOne(Init(), StartTimer);
    WfStep(Init(), StartTimer);
    s := Apply(Init(), StartTimer);
  }

  /** Thread 0 is a signal's shutdown that has taken its first n effects. */
  ghost predicate SignalAt(s: System, n: nat) {
    Wf(s) && !s.dead && !s.held && (n <= 5 ==> s.listenerOpen) && 0 in s.threads
      && s.threads[0] == Thread(0, SignalShutdown, n, false)
  }

  lemma {:induction false} AfterSignal() returns (ls: seq<Label>)
    ensures CanRun(Init(), ls) && SignalAt(After(Init(), ls), 0)
  {
    var s := StartedRun();
    WfStep(s, Signal);
    RunOne(s, Signal);
    RunAppend(Init(), [StartTimer], [Signal]);
    ls := [StartTimer] + [Signal];
    hide CanRun, After, Wf, Program;
    assert SignalAt(Apply(s, Signal), 0);
  }

  lemma {:induction false} SignalStep(s: System, n: nat)
    requires n < 6 && SignalAt(s, n)
    ensures Enabled(s, Act(0, false)) && SignalAt(Apply(s, Act(0, false)), n + 1)
  {
    SignalProgram();
    hide Program, Wf;
    ActEffect(s, 0, false);
    WfStep(s, Act(0, false));
    hide Apply;
  }

  /** After a signal the shutdown takes its first n effects. */
  lemma {:induction false} SignalActs(n: nat) returns (ls: seq<Label>)
    requires n <= 6
    ensures CanRun(Init(), ls) && SignalAt(After(Init(), ls), n)
  {
    hide SignalAt, Apply, Enabled, CanRun, After;
    if n == 0 {
      ls := AfterSignal();
    } else {
      var init := SignalActs(n - 1);
      SignalStep(After(Init(), init), n - 1);
      RunOne(After(Init(), init), Act(0, false));
      RunAppend(Init(), init, [Act(0, false)]);
      ls := init + [Act(0, false)];
    }
  }

  lemma {:induction false} SignalProgram()
    ensures var p := Program(SignalShutdown);
      |p| > 6 && p[5].CloseListener? && p[6].CloseClients?
      && forall k | 0 <= k < 5 :: !p[k].Crash? && !p[k].Exit? && !p[k].CloseListener? && !p[k].CloseClients?
  {
  }

  /** A run in which the client loop of a signal's shutdown meets an open client, and keeps clientsMu. */
  lemma {:induction false} SomeRunHolds() returns (ls: seq<Label>)
    ensures CanRun(Init(), ls) && After(Init(), ls).held && Wf(After(Init(), ls))
  {
    var init := SignalActs(6);
    var s, l := After(Init(), init), Act(0, true);
    SignalProgram();
    hide Program;
    assert Enabled(s, l);
    ActEffect(s, 0, true);
    WfStep(s, l);
    RunOne(s, l);
    RunAppend(Init(), init, [l]);
    ls := init + [l];
  }

  // ---------- input_accepted comes before any output of its prompt ----------

  ghost predicate AcceptReply(e: Event, root: nat, to: string) {
    exists env :: AcceptedInput(env) && env.from == to && e == Event(root, Okay(env))
  }

  /** Among the first n events is the input_accepted reply of the message root goes back to, which came
      from client to. */
  ghost predicate AcceptedBefore(log: seq<Event>, n: nat, root: nat, to: string) {
    exists i :: 0 <= i < n && i < |log| && AcceptReply(log[i], root, to)
  }

  ghost predicate ThreadAccepted(s: System, th: Thread) {
    (th.job.Prompting? || (th.job.Handling? && AcceptedInput(th.job.env) && th.pc >= 2)) ==>
      AcceptedBefore(s.log, |s.log|, th.root, th.job.env.from)
  }

  ghost predicate AcceptedFirst(s: System) {
    (forall t: nat | t in s.threads :: ThreadAccepted(s, s.threads[t]))
    && forall j: nat | j < |s.log| && s.log[j].effect.Output? ::
      AcceptedBefore(s.log, j, s.log[j].root, s.log[j].effect.to)
  }

  lemma {:induction false} LogGrows(log: seq<Event>, e: Event, n: nat, root: nat, to: string)
    requires n <= |log| && AcceptedBefore(log, n, root, to)
    ensures AcceptedBefore(log + [e], n, root, to) && AcceptedBefore(log + [e], |log + [e]|, root, to)
  {
    hide AcceptReply;
    var i :| 0 <= i < n && i < |log| && AcceptReply(log[i], root, to);
    assert (log + [e])[i] == log[i];
  }

  /** Outputs come from workers, to the client the prompt came from; the handler of an accepted input
      replies before it starts the worker. */
  lemma {:induction false} OutputContext(th: Thread)
    requires CanAct(th) && (th.job.Prompting? ==> AcceptedInput(th.job.env))
    ensures var e := Program(th.job)[th.pc];
      (e.Output? ==> th.job.Prompting? && e.to == th.job.env.from)
      && (th.job.Handling? && AcceptedInput(th.job.env) && th.pc == 1 ==> e == Okay(th.job.env))
  {
    hide HandleEffects, WorkerEffects, KindOf, ResponseType, ShutdownEffects;
    match th.job {
      case Handling(env, a) =>
        if AcceptedInput(env) {
          AcceptedProgram(env, a);
        } else {
          HandlerProgram(env, a);
          assert HandlerEffect(Program(th.job), th.pc);
        }
      case Prompting(env, a) =>
        WorkerProgram(env, a);
      case SignalShutdown =>
        ShutdownWrites("signal");
      case _ =>
    }
  }

  lemma {:induction false} AcceptedFirstAct(s: System, t: nat, meetsOpen: bool)
    requires Wf(s) && AcceptedFirst(s) && Enabled(s, Act(t, meetsOpen))
    ensures AcceptedFirst(Apply(s, Act(t, meetsOpen)))
  {
    hide Program, KindOf, Apply, AcceptedBefore, ResponseType;
    ActEffect(s, t, meetsOpen);
    var s', th := Apply(s, Act(t, meetsOpen)), s.threads[t];
    var e := Program(th.job)[th.pc];
    var ev := Event(th.root, e);
    assert ThreadOk(s, t) && ThreadAccepted(s, th);
    OutputContext(th);
    if e.SpawnWorker? && th.job.Handling? {
      SpawnsOnlyAccepted(th);
    }
    if th.job.Handling? && AcceptedInput(th.job.env) && th.pc == 1 {
      LogsAccept(s.log, th.root, th.job.env);
    }
    forall u: nat | u in s'.threads
      ensures ThreadAccepted(s', s'.threads[u])
    {
      if u in s.threads {
        assert ThreadAccepted(s, s.threads[u]);
        if Admitted(s.threads[u]) && AcceptedBefore(s.log, |s.log|, s.threads[u].root, s.threads[u].job.env.from) {
          LogGrows(s.log, ev, |s.log|, s.threads[u].root, s.threads[u].job.env.from);
        }
      } else {
        LogGrows(s.log, ev, |s.log|, th.root, th.job.env.from);
      }
    }
    forall j: nat | j < |s'.log| && s'.log[j].effect.Output?
      ensures AcceptedBefore(s'.log, j, s'.log[j].root, s'.log[j].effect.to)
    {
      if j < |s.log| {
        LogGrows(s.log, ev, j, s.log[j].root, s.log[j].effect.to);
      } else {
        LogGrows(s.log, ev, |s.log|, th.root, th.job.env.from);
      }
    }
  }

  lemma {:induction false} LogsAccept(log: seq<Event>, root: nat, env: Envelope)
    requires AcceptedInput(env)
    ensures AcceptedBefore(log + [Event(root, Okay(env))], |log| + 1, root, env.from)
  {
    hide KindOf, ResponseType;
    assert (log + [Event(root, Okay(env))])[|log|] == Event(root, Okay(env));
  }

  lemma {:induction false} AcceptedFirstStep(s: System, l: Label)
    requires Wf(s) && AcceptedFirst(s) && Enabled(s, l)
    ensures AcceptedFirst(Apply(s, l))
  {
    if l.Act? {
      AcceptedFirstAct(s, l.t, l.meetsOpen);
    } else {
      hide Program, KindOf, AcceptedBefore;
      var s' := Apply(s, l);
      assert s'.log == s.log;
      forall u: nat | u in s'.threads
        ensures ThreadAccepted(s', s'.threads[u])
      {
        if u in s.threads {
          assert ThreadAccepted(s, s.threads[u]) && ThreadOk(s, u);
          ArrivedProgram(s.threads[u]);
        }
      }
    }
  }

  /** In every run each output of a worker comes after the input_accepted reply to its own prompt. */
  lemma {:induction false} AcceptedBeforeOutput(ls: seq<Label>)
    requires CanRun(Init(), ls)
    ensures AcceptedFirst(After(Init(), ls)) && Wf(After(Init(), ls))
    decreases |ls|
  {
    hide Apply, Enabled;
    if ls != [] {
      hide AcceptedFirst, Wf;
      AcceptedBeforeOutput(ls[..|ls| - 1]);
      var s, l := After(Init(), ls[..|ls| - 1]), ls[|ls| - 1];
      WfStep(s, l);
      AcceptedFirstStep(s, l);
    }
  }
}
