/** What the interleaved threads do when they are let run: each step gives a thread the effects its message or
    prompt has, an accepted input goes all the way to its answer, and the idle timer unloads exactly when no
    prompt was started for five minutes. */
module LiveRuns {
  import opened Wrappers
  import opened Protocol
  import opened Worker
  import opened Handlers
  import opened Wording
  import opened Lifecycle
  import opened ShutdownRuns

  // ---------- What a thread is given to do ----------

  /** HandleMessage looks at the state: from then on the thread has the effects of its message in that state, and
      no other thread changes. */
  lemma {:induction false} GateHandles(s: System, t: nat)
    requires Enabled(s, Gate(t))
    ensures var job, s' := s.threads[t].job, Apply(s, Gate(t));
      s' == s.(threads := s.threads[t := s.threads[t].(job := s'.threads[t].job)])
      && Program(s'.threads[t].job) == MessageEffects(job.env, job.a, s.state, Ends)
      && MessageAsSaid(Program(s'.threads[t].job), job.env, job.a, s.state, Ends)
  {
    hide HandleEffects, Refusal, MessageAsSaid;
    var job := s.threads[t].job;
    MessagesAsSaid(job.env, job.a, s.state, Ends);
  }

  /** An input handler that starts its worker: a new thread has the effects of that prompt, in the session the
      message names, or a fresh one. */
  lemma {:induction false} WorkerStarts(s: System, t: nat, meetsOpen: bool)
    requires Wf(s) && Enabled(s, Act(t, meetsOpen)) && s.threads[t].job.Handling?
    requires Program(s.threads[t].job)[s.threads[t].pc].SpawnWorker?
    ensures var s', job := Apply(s, Act(t, meetsOpen)), s.threads[t].job;
      s.next !in s.threads && s.next in s'.threads && s'.threads[s.next].pc == 0 && !s'.threads[s.next].hung
      && job.env.body.Fields?
      && Program(s'.threads[s.next].job) ==
         WorkerEffects(job.env.body.content, if job.env.body.sessionID == "" then job.a.freshSession
                       else job.env.body.sessionID, job.env.from, job.a.worker)
  {
    hide WorkerEffects, HandleEffects, KindOf, Apply;
    var th := s.threads[t];
    ActEffect(s, t, meetsOpen);
    SpawnsOnlyAccepted(th);
    assert forall u: nat | u in s.threads :: ThreadOk(s, u) && u != s.next;
  }

  /** A signal starts a shutdown that, if nothing stops it, ends the process. */
  lemma {:induction false} SignalStarts(s: System)
    requires Wf(s) && Enabled(s, Signal)
    ensures var s' := Apply(s, Signal);
      s'.signaled && s.next !in s.threads && s'.threads.Keys == s.threads.Keys + {s.next}
      && Program(s'.threads[s.next].job) == ShutdownSteps("signal") + [Exit]
  {
    hide HandleEffects, WorkerEffects, KindOf;
    assert forall u: nat | u in s.threads :: ThreadOk(s, u) && u != s.next;
  }

  // ---------- An accepted input is answered ----------

  /** An input_forward message with a text, of allowed size. */
  predicate GoodInput(env: Envelope) {
    env.msgType == "input_forward" && env.size <= 1048576 && env.body.Fields? && env.body.content != ""
  }

  lemma {:induction false} GoodIsAccepted(env: Envelope)
    ensures GoodInput(env) <==> AcceptedInput(env)
  {
    hide KindOf;
    KindsAreWords(env.msgType);
  }

  /** The message arrives, is filed if it names its connection, and passes the state check. */
  lemma {:induction false} Admit(s: System, env: Envelope, a: Answers, unfiled: bool) returns (ls: seq<Label>)
    requires Wf(s) && !s.dead && !s.held && s.state != Shutdown
    ensures ls != [] && ls[0] == Arrive(env, a, unfiled) && CanRun(s, ls) && Wf(After(s, ls))
    ensures After(s, ls) ==
      s.(threads := s.threads[s.next := Thread(s.next, Handling(env, a), 0, false)], next := s.next + 1)
  {
    hide Wf, Program;
    var arrive, gate := Arrive(env, a, unfiled), Gate(s.next);
    var s1 := Apply(s, arrive);
    RunOne(s, arrive);
    WfStep(s, arrive);
    if unfiled {
      var file := File(s.next);
      var s2 := Apply(s1, file);
      RunOne(s1, file);
      WfStep(s1, file);
      RunOne(s2, gate);
      WfStep(s2, gate);
      RunAppend(s1, [file], [gate]);
      RunAppend(s, [arrive], [file] + [gate]);
      ls := [arrive] + ([file] + [gate]);
    } else {
      RunOne(s1, gate);
      WfStep(s1, gate);
      RunAppend(s, [arrive], [gate]);
      ls := [arrive] + [gate];
    }
  }

  /** The handler writes Processing; then it replies and starts the worker, which is still to begin. */
  lemma {:induction false} HandleInput(s: System, t: nat, env: Envelope, a: Answers)
      returns (ls: seq<Label>, more: seq<Label>, w: nat)
    requires Wf(s) && !s.dead && !s.held && t in s.threads && GoodInput(env)
    requires s.threads[t] == Thread(t, Handling(env, a), 0, false)
    ensures CanRun(s, ls) && After(s, ls).state == Processing
    ensures CanRun(After(s, ls), more)
    ensures var s' := After(After(s, ls), more);
      Wf(s') && !s'.dead && !s'.held && w in s'.threads && s'.threads[w] == Thread(t, Prompting(env, a), 0, false)
      && s'.log == s.log + Events(t, Program(Handling(env, a)))
  {
    hide Wf, Program, KindOf;
    GoodIsAccepted(env);
    AcceptedProgram(env, a);
    var p := Program(Handling(env, a));
    ls := ActThrough(s, t, 0);
    var s1 := After(s, ls);
    assert s1.threads[t] == Thread(t, Handling(env, a), 1, false);
    more := ActThrough(s1, t, 2);
    var s2 := After(s1, more);
    w :| w in s2.threads && s2.threads[w] == Thread(t, Prompting(env, a), 0, false);
    EventsAppend(t, p[0..1], p[1..3]);
    assert p[0..1] + p[1..3] == p;
  }

  /** The worker runs to its last effect, which writes Listening unless it panics. */
  lemma {:induction false} RunWorker(s: System, w: nat, env: Envelope, a: Answers, root: nat)
      returns (ls: seq<Label>)
    requires Wf(s) && !s.dead && !s.held && w in s.threads && GoodInput(env)
    requires s.threads[w] == Thread(root, Prompting(env, a), 0, false)
    requires !Panics(env.body.content, SessionOf(env, a), a.worker)
    ensures CanRun(s, ls) && After(s, ls).state == Listening && !After(s, ls).dead
    ensures After(s, ls).log == s.log + Events(root, Program(Prompting(env, a)))
  {
    hide Wf, WorkerEffects, KindOf, Panics;
    GoodIsAccepted(env);
    WorkerProgram(env, a);
    WorkerEnds(env, a);
    hide Program;
    var p := Program(Prompting(env, a));
    ls := ActThrough(s, w, |p| - 1);
    assert p[0..|p|] == p;
  }

  lemma {:induction false} WorkerEnds(env: Envelope, a: Answers)
    requires GoodInput(env) && !Panics(env.body.content, SessionOf(env, a), a.worker)
    ensures var p := Program(Prompting(env, a)); p != [] && p[|p| - 1] == SetState(Listening)
  {
    hide WorkerEffects, KindOf, Panics;
    WorkerAnswersOnce(env.body.content, SessionOf(env, a), env.from, a.worker);
  }

  /** Main result. From any point of any run before a shutdown, a new input can be taken all the way: its
      handler writes Processing, and in the end its worker writes Listening. In between the log grows by exactly
      the handler's effects and the worker's. */
  lemma {:induction false} InputAnswered(s: System, env: Envelope, a: Answers, unfiled: bool)
      returns (first: seq<Label>, rest: seq<Label>)
    requires Wf(s) && !s.dead && !s.held && s.state != Shutdown && GoodInput(env)
    requires !Panics(env.body.content, SessionOf(env, a), a.worker)
    ensures first != [] && first[0] == Arrive(env, a, unfiled)
    ensures CanRun(s, first) && After(s, first).state == Processing
    ensures CanRun(s, first + rest) && After(s, first + rest).state == Listening
    ensures After(s, first + rest).log == s.log + Events(s.next, MessageEffects(env, a, s.state, Ends))
      + Events(s.next, WorkerEffects(env.body.content, SessionOf(env, a), env.from, a.worker))
  {
    hide Wf, Panics, Apply, Enabled, HandleEffects, WorkerEffects, SessionOf, KindOf;
    var admit := Admit(s, env, a, unfiled);
    var s0 := After(s, admit);
    var write, start, w := HandleInput(s0, s.next, env, a);
    var s1 := After(s0, write);
    var s2 := After(s1, start);
    var work := RunWorker(s2, w, env, a, s.next);
    RunAppend(s, admit, write);
    first := admit + write;
    RunAppend(s1, start, work);
    rest := start + work;
    RunAppend(s, first, rest);
  }

  /** In particular from the start. */
  lemma {:induction false} FirstInputAnswered(env: Envelope, a: Answers)
      returns (first: seq<Label>, rest: seq<Label>)
    requires GoodInput(env) && !Panics(env.body.content, SessionOf(env, a), a.worker)
    ensures CanRun(Init(), first) && After(Init(), first).state == Processing
    ensures CanRun(Init(), first + rest) && After(Init(), first + rest).state == Listening
  {
    first, rest := InputAnswered(Init(), env, a, true);
  }

  // ---------- The idle timer ----------

  /** The step starts the timer or touches it: a prompt worker's first effect. */
  ghost predicate Touches(s: System, l: Label)
    requires Enabled(s, l)
  {
    l.StartTimer? || (l.Act? && Program(s.threads[l.t].job)[s.threads[l.t].pc].Touch?)
  }

  /** When the timer was last started or touched in a run from the start; 0 before any. */
  ghost function LastTouch(ls: seq<Label>): nat
    requires CanRun(Init(), ls)
  {
    if ls == [] then 0
    else
      var init := ls[..|ls| - 1];
      var s := After(Init(), init);
      if Touches(s, ls[|ls| - 1]) then s.clock else LastTouch(init)
  }

  /** When the timer was started in a run; 0 before. */
  ghost function StartedAt(ls: seq<Label>): nat
    requires CanRun(Init(), ls)
  {
    if ls == [] then 0
    else
      var init := ls[..|ls| - 1];
      if ls[|ls| - 1].StartTimer? then After(Init(), init).clock else StartedAt(init)
  }

  /** In every run the timer can fire, once, from 300 seconds after its start on, and not before. */
  lemma {:induction false} TimerDue(ls: seq<Label>)
    requires CanRun(Init(), ls)
    ensures var s := After(Init(), ls);
      (s.timer.Armed? ==> s.timer.deadline == StartedAt(ls) + 300)
      && (!s.dead ==> (Enabled(s, Fire) <==> s.timer.Armed? && s.clock >= StartedAt(ls) + 300))
    decreases |ls|
  {
    hide Apply, Program;
    if ls != [] {
      TimerDue(ls[..|ls| - 1]);
      TouchStep(After(Init(), ls[..|ls| - 1]), ls[|ls| - 1]);
    }
  }

  lemma {:induction false} TouchStep(s: System, l: Label)
    requires Enabled(s, l)
    ensures Apply(s, l).lastRequest == if Touches(s, l) then s.clock else s.lastRequest
    ensures Apply(s, l).timer == match l
      case StartTimer => Armed(s.clock + 300)
      case Fire => Spent
      case _ => s.timer
    ensures Apply(s, l).clock >= s.clock
  {
    hide Program;
  }

  lemma {:induction false} TouchesRecorded(ls: seq<Label>)
    requires CanRun(Init(), ls)
    ensures var s := After(Init(), ls);
      s.lastRequest == LastTouch(ls) <= s.clock && (s.timer.Armed? ==> s.timer.deadline <= LastTouch(ls) + 300)
    decreases |ls|
  {
    hide Apply, Enabled, Program;
    if ls != [] {
      hide Touches;
      TouchesRecorded(ls[..|ls| - 1]);
      TouchStep(After(Init(), ls[..|ls| - 1]), ls[|ls| - 1]);
      StartTouches(After(Init(), ls[..|ls| - 1]), ls[|ls| - 1]);
    }
  }

  lemma {:induction false} StartTouches(s: System, l: Label)
    requires Enabled(s, l)
    ensures l.StartTimer? ==> Touches(s, l)
  {
  }

  /** In every run: when the timer fires, it unloads the model and writes Idle if and only if nothing touched it
      in the last 300 seconds; otherwise it starts nothing. Either way it is spent. */
  lemma {:induction false} TimerExactly(ls: seq<Label>)
    requires CanRun(Init(), ls) && Enabled(After(Init(), ls), Fire)
    ensures var s := After(Init(), ls);
      var s' := Apply(s, Fire);
      s'.timer == Spent && s'.state == s.state && s'.log == s.log
      && if s.clock < LastTouch(ls) + 300 then s'.threads == s.threads
         else s.next !in s.threads && s'.threads.Keys == s.threads.Keys + {s.next}
              && Program(s'.threads[s.next].job) == [UnloadModel("idle_timeout"), SetState(Idle)]
              && s'.threads[s.next].pc == 0
  {
    hide KindOf, HandleEffects, WorkerEffects;
    TouchesRecorded(ls);
    WfRun(Init(), ls);
    var s := After(Init(), ls);
    assert forall u: nat | u in s.threads :: ThreadOk(s, u) && u != s.next;
  }
}
