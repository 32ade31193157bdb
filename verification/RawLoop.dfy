/** The tool loop over the raw model client it shares with everyone else: its package validations are calls
    of one run of that client, in which other workers and handlers call too. */
module RawLoop {
  import opened Wrappers
  import opened Text
  import opened ToolCalls
  import opened Protocol
  import opened ToolLoop
  import opened ToolLoopTheorems
  import Raw = RawClient

  // ---------- Runs ----------

  lemma {:induction false} RunSplits(r: Raw.Raw, ls: seq<Raw.Label>, p: nat)
    requires Raw.CanRun(r, ls) && p <= |ls|
    ensures Raw.CanRun(r, ls[..p]) && Raw.CanRun(Raw.After(r, ls[..p]), ls[p..])
    ensures Raw.After(Raw.After(r, ls[..p]), ls[p..]) == Raw.After(r, ls)
    decreases |ls|
  {
    hide Raw.Enabled, Raw.Apply;
    if p == |ls| {
      assert ls[..p] == ls && ls[p..] == [];
    } else {
      var init := ls[..|ls| - 1];
      RunSplits(r, init, p);
      assert init[..p] == ls[..p] && ls[p..][..|ls| - p - 1] == init[p..];
    }
  }

  lemma {:induction false} RunPrefix(r: Raw.Raw, ls: seq<Raw.Label>, p: nat, q: nat)
    requires Raw.CanRun(r, ls) && p <= q <= |ls|
    ensures Raw.CanRun(r, ls[..p]) && Raw.CanRun(r, ls[..q]) && Raw.CanRun(Raw.After(r, ls[..p]), ls[p..q])
    ensures Raw.After(Raw.After(r, ls[..p]), ls[p..q]) == Raw.After(r, ls[..q])
  {
    hide Raw.CanRun, Raw.After;
    RunSplits(r, ls, q);
    RunSplits(r, ls[..q], p);
    assert ls[..q][..p] == ls[..p] && ls[..q][p..] == ls[p..q];
  }

  /** The client after the first p steps. */
  function At(r: Raw.Raw, ls: seq<Raw.Label>, p: nat): Raw.Raw
    requires p <= |ls| && Raw.CanRun(r, ls[..p])
  {
    Raw.After(r, ls[..p])
  }

  /** Step p completes a call with an answer: a result or a server error. */
  ghost predicate AnswersAt(r: Raw.Raw, ls: seq<Raw.Label>, p: nat) {
    p < |ls| && Raw.CanRun(r, ls[..p]) && Raw.CanRun(r, ls[..p + 1])
    && exists c: Raw.Completion :: c.outcome.Answered? && At(r, ls, p + 1).done == At(r, ls, p).done + [c]
  }

  /** With the first p steps taken the connection is gone, the mutex free. */
  ghost predicate GoneAt(r: Raw.Raw, ls: seq<Raw.Label>, p: nat) {
    p <= |ls| && Raw.CanRun(r, ls[..p]) && At(r, ls, p).phase.Free? && At(r, ls, p).conn.None?
  }

  /** The validation that effect e of a loop is was completed by step p of the run: a decision is an answer,
      a loss leaves the connection gone. */
  ghost predicate CompletedAt(e: Effect, r: Raw.Raw, ls: seq<Raw.Label>, p: nat) {
    e.PackageValidated? ==>
      (e.verdict.Decision? ==> AnswersAt(r, ls, p)) && (e.verdict.ConnectionLost? ==> GoneAt(r, ls, p + 1))
  }

  /** at says which step of the run completed each validation among the effects; later ones come later. */
  ghost predicate AsksThrough(trace: seq<Effect>, r: Raw.Raw, ls: seq<Raw.Label>, at: seq<nat>) {
    |at| == |trace|
    && (forall k | 0 <= k < |trace| :: CompletedAt(trace[k], r, ls, at[k]))
    && forall j, k | 0 <= j < k < |trace| && trace[j].PackageValidated? && trace[k].PackageValidated? :: at[j] < at[k]
  }

  /** With the connection gone and nobody dialling, no call is answered any more, whoever makes it. */
  lemma {:induction false} GoneAnswersNothing(r: Raw.Raw, ls: seq<Raw.Label>, p: nat, q: nat)
    requires Raw.CanRun(r, ls) && GoneAt(r, ls, p) && Raw.NoDial(ls[p..]) && p <= q
    ensures !AnswersAt(r, ls, q)
  {
    hide Raw.CanRun, Raw.After;
    if q < |ls| {
      RunPrefix(r, ls, p, q);
      RunPrefix(r, ls, p, q + 1);
      assert forall k | 0 <= k < q + 1 - p :: ls[p..q + 1][k] == ls[p..][k];
      assert forall k | 0 <= k < q - p :: ls[p..q][k] == ls[p..][k];
      Raw.LostStaysLost(At(r, ls, p), ls[p..q]);
      Raw.LostStaysLost(At(r, ls, p), ls[p..q + 1]);
    }
  }

  // ---------- Once the connection is gone ----------

  predicate Loses(e: Effect) {
    e.PackageValidated? && e.verdict.ConnectionLost?
  }

  ghost predicate SilentAfterLoss(trace: seq<Effect>) {
    forall j, k | 0 <= j < k < |trace| && Loses(trace[j]) :: !GuardedInvoke(trace[k])
  }

  /** Whoever lost the connection, and by whatever call: if nobody dials from then on, each invocation of a
      tool in the validated namespace has its approval, right before it, from a call that was completed
      before the loss. */
  lemma {:induction false} LoopSilentOnceGone(response: string, prompt: string, session: string, o: Oracle, i: nat,
                                              r: Raw.Raw, ls: seq<Raw.Label>, at: seq<nat>, p: nat)
    requires Raw.CanRun(r, ls) && AsksThrough(LoopFrom(response, prompt, session, o, i).trace, r, ls, at)
    requires GoneAt(r, ls, p) && Raw.NoDial(ls[p..])
    ensures var t := LoopFrom(response, prompt, session, o, i).trace;
      forall k | 0 <= k < |t| && GuardedInvoke(t[k]) :: k > 0 && Approves(t[k - 1], t[k].call) && at[k - 1] < p
  {
    hide LoopFrom, NeedsApproval, RequestFor, Raw.CanRun, AnswersAt, GoneAt;
    LoopGated(response, prompt, session, o, i);
    var t := LoopFrom(response, prompt, session, o, i).trace;
    forall k | 0 <= k < |t| && GuardedInvoke(t[k])
      ensures k > 0 && Approves(t[k - 1], t[k].call) && at[k - 1] < p
    {
      assert CompletedAt(t[k - 1], r, ls, at[k - 1]);
      if p <= at[k - 1] {
        GoneAnswersNothing(r, ls, p, at[k - 1]);
      }
    }
  }

  /** So after a validation of its own that finds the connection lost, a loop during which nobody dials
      invokes no tool of the validated namespace. */
  lemma {:induction false} LoopSilentAfterLoss(response: string, prompt: string, session: string, o: Oracle, i: nat,
                                               r: Raw.Raw, ls: seq<Raw.Label>, at: seq<nat>)
    requires Raw.CanRun(r, ls) && AsksThrough(LoopFrom(response, prompt, session, o, i).trace, r, ls, at)
      && Raw.NoDial(ls)
    ensures SilentAfterLoss(LoopFrom(response, prompt, session, o, i).trace)
  {
    hide LoopFrom, NeedsApproval, RequestFor, Raw.CanRun, AnswersAt, GoneAt;
    var t := LoopFrom(response, prompt, session, o, i).trace;
    LoopGated(response, prompt, session, o, i);
    forall j, k | 0 <= j < k < |t| && Loses(t[j])
      ensures !GuardedInvoke(t[k])
    {
      assert CompletedAt(t[j], r, ls, at[j]);
      LossInRun(r, ls, at[j] + 1);
      LoopSilentOnceGone(response, prompt, session, o, i, r, ls, at, at[j] + 1);
    }
  }

  lemma {:induction false} LossInRun(r: Raw.Raw, ls: seq<Raw.Label>, p: nat)
    requires GoneAt(r, ls, p) && Raw.NoDial(ls)
    ensures p <= |ls| && Raw.NoDial(ls[p..])
  {
  }

  // ---------- A loop and a run that fit ----------

  function Asked(s: Raw.Raw, c: nat): Raw.Raw {
    var id := s.rpcID + 1;
    s.(rpcID := id, sent := s.sent + [id], channels := s.channels[c := Raw.Channel([id], [], false)],
       phase := Raw.Waiting(id, c, s.phase.Connecting?))
  }

  function Answered(s: Raw.Raw, c: nat): Raw.Raw {
    var id := s.rpcID + 1;
    Asked(s, c).(channels := s.channels[c := Raw.Channel([], [Raw.Response(id, id, Raw.ResultReply)], false)])
  }

  function Exchanged(s: Raw.Raw): Raw.Raw {
    var id := s.rpcID + 1;
    s.(rpcID := id, sent := s.sent + [id], done := s.done + [Raw.Completion(id, Raw.Answered(id))])
  }

  /** Connection c is open, with nothing under way, and no call is. */
  predicate Settled(s: Raw.Raw, c: nat) {
    !s.phase.Waiting? && s.conn == Some(c) && c in s.channels && s.channels[c] == Raw.Channel([], [], false)
  }

  lemma {:induction false} Asking(s: Raw.Raw, c: nat)
    requires Settled(s, c)
    ensures Raw.Enabled(s, Raw.Send(true, true)) && Raw.Apply(s, Raw.Send(true, true)) == Asked(s, c)
  {
    assert [] + [s.rpcID + 1] == [s.rpcID + 1];
  }

  lemma {:induction false} Answering(s: Raw.Raw, c: nat)
    requires Settled(s, c)
    ensures var answer := Raw.Answer(c, 0, s.rpcID + 1, Raw.ResultReply);
      Raw.Enabled(Asked(s, c), answer) && Raw.Apply(Asked(s, c), answer) == Answered(s, c)
  {
    var id := s.rpcID + 1;
    assert [id][1..] == [] && [] + [Raw.Response(id, id, Raw.ResultReply)] == [Raw.Response(id, id, Raw.ResultReply)];
    assert Asked(s, c).channels[c := Answered(s, c).channels[c]] == Answered(s, c).channels;
  }

  lemma {:induction false} Receiving(s: Raw.Raw, c: nat)
    requires Settled(s, c) && (s.phase.Free? || s.phase.Connecting?)
    ensures Raw.Enabled(Answered(s, c), Raw.Receive(false))
      && Raw.Apply(Answered(s, c), Raw.Receive(false)) == Exchanged(s)
  {
    var id := s.rpcID + 1;
    assert [Raw.Response(id, id, Raw.ResultReply)][1..] == [];
    assert Answered(s, c).channels[c := Raw.Channel([], [], false)] == s.channels;
  }

  /** One exchange that goes well, on an open and settled connection. */
  lemma {:induction false} Exchange(r: Raw.Raw, ls: seq<Raw.Label>, c: nat)
    requires Raw.CanRun(r, ls) && Settled(Raw.After(r, ls), c)
    ensures var s := Raw.After(r, ls);
      var answered := ls + [Raw.Send(true, true)] + [Raw.Answer(c, 0, s.rpcID + 1, Raw.ResultReply)];
      Raw.CanRun(r, answered) && Raw.After(r, answered) == Answered(s, c)
      && Raw.CanRun(r, answered + [Raw.Receive(false)]) && Raw.After(r, answered + [Raw.Receive(false)]) == Exchanged(s)
  {
    var s := Raw.After(r, ls);
    var send, answer, receive := Raw.Send(true, true), Raw.Answer(c, 0, s.rpcID + 1, Raw.ResultReply),
      Raw.Receive(false);
    Asking(s, c);
    Answering(s, c);
    Receiving(s, c);
    hide Raw.CanRun, Raw.After, Raw.Enabled, Raw.Apply, Asked, Answered, Exchanged;
    Raw.RunMore(r, ls, send);
    Raw.RunMore(r, ls + [send], answer);
    Raw.RunMore(r, ls + [send] + [answer], receive);
  }

  /** The client connected, with its healthcheck answered. */
  lemma {:induction false} Connected() returns (ls: seq<Raw.Label>)
    ensures Raw.CanRun(Raw.Init(), ls)
    ensures var s := Raw.After(Raw.Init(), ls);
      s.phase.Free? && Settled(s, 0)
  {
    var dial := Raw.Dial(true);
    assert [] + [dial] == [dial];
    Raw.RunMore(Raw.Init(), [], dial);
    Exchange(Raw.Init(), [dial], 0);
    ls := [dial] + [Raw.Send(true, true)] + [Raw.Answer(0, 0, 1, Raw.ResultReply)] + [Raw.Receive(false)];
    Raw.RunMore(Raw.Init(), ls, Raw.Verdict(true));
    ls := ls + [Raw.Verdict(true)];
  }

  /** From there one call is answered and the next finds the connection lost. */
  lemma {:induction false} AnswerThenLoss(r: Raw.Raw) returns (ls: seq<Raw.Label>)
    requires r.phase.Free? && Settled(r, 0)
    ensures Raw.CanRun(r, ls) && Raw.NoDial(ls) && AnswersAt(r, ls, 2) && GoneAt(r, ls, 4)
  {
    var send, answer, receive := Raw.Send(true, true), Raw.Answer(0, 0, r.rpcID + 1, Raw.ResultReply),
      Raw.Receive(false);
    var lose := Raw.Send(false, false);
    EmptyRun(r);
    Exchange(r, [], 0);
    Losing(Exchanged(r), 0);
    hide Raw.CanRun, Raw.After, Raw.Enabled, Raw.Apply;
    var asked := [] + [send] + [answer];
    Raw.RunMore(r, asked + [receive], lose);
    ls := asked + [receive] + [lose];
    assert ls[..2] == asked && ls[..3] == asked + [receive] && ls[..4] == ls;
    assert At(r, ls, 3).done == At(r, ls, 2).done + [Raw.Completion(r.rpcID + 1, Raw.Answered(r.rpcID + 1))];
  }

  lemma {:induction false} EmptyRun(r: Raw.Raw)
    ensures Raw.CanRun(r, []) && Raw.After(r, []) == r
  {
  }

  lemma {:induction false} Losing(s: Raw.Raw, c: nat)
    requires s.phase.Free? && Settled(s, c)
    ensures var lose := Raw.Send(false, false);
      Raw.Enabled(s, lose) && Raw.Apply(s, lose).phase.Free? && Raw.Apply(s, lose).conn.None?
  {
  }

  function Guarded(): ToolCall {
    ToolCall("cognitiveos.package" + ".list", map[])
  }

  /** Approves the first call of a round and finds the connection lost at the others. */
  function OneApproval(): Oracle {
    Oracle((i: nat, j: nat) => if j == 0 then Decision("approved", "") else ConnectionLost("E_CONNECTION_LOST"),
           (i: nat, j: nat) => Completed([]),
           (i: nat) => Failure("inference request"))
  }

  lemma {:induction false} GuardedIsGuarded()
    ensures IsToolValidated(Guarded().tool) && NeedsApproval(Guarded().tool) && Printable(Guarded())
  {
    var a, b := "cognitiveos.package", ".list";
    HasPrefixOf(a, b);
    assert '(' !in a && '(' !in b && '\n' !in a && '\n' !in b;
    assert Guarded().tool == a + b;
  }

  lemma {:induction false} HasPrefixOf(a: string, b: string)
    ensures HasPrefix(a + b, a)
  {
    assert (a + b)[..|a|] == a;
  }

  /** The two lines of a response that asks for the guarded call twice. */
  lemma {:induction false} AsksTwice() returns (response: string)
    ensures Parse(response) == Calls([Guarded(), Guarded()])
  {
    hide Printable, Parse, Render;
    GuardedIsGuarded();
    var item := Printed(Guarded(), []);
    var items := [item, item];
    RenderedParses(items);
    response := Render(items);
    assert items[1..] == [item] && [item][1..] == [];
    assert CallsOf([item]) == [Guarded()];
    assert CallsOf(items) == [Guarded()] + [Guarded()];
  }

  lemma {:induction false} TraceOfTwo(response: string)
    requires Parse(response) == Calls([Guarded(), Guarded()])
    ensures var t := LoopFrom(response, "", "", OneApproval(), 0).trace;
      |t| == 4 && Approves(t[0], Guarded()) && t[1] == Invoked(Guarded(), "", Completed([])) && Loses(t[2])
        && t[3].Generated?
  {
    hide Parse, IsToolValidated, Params, RequestFor, ResultLine, CompletedCall, Continuation;
    GuardedIsGuarded();
    var calls, o := [Guarded(), Guarded()], OneApproval();
    assert RoundFrom(calls, "", o, 0, 2) == Round([], [], [], false);
    var second := CallTrace(Guarded(), "", o.validation(0, 1), o.invoke(0, 1));
    assert second == [PackageValidated(Guarded(), Params(Guarded()), o.validation(0, 1))];
    assert RoundFrom(calls, "", o, 0, 1).trace == second + [];
    var first := CallTrace(Guarded(), "", o.validation(0, 0), o.invoke(0, 0));
    assert first == [PackageValidated(Guarded(), Params(Guarded()), o.validation(0, 0)),
      Invoked(Guarded(), "", Completed([]))];
    assert RoundFrom(calls, "", o, 0, 0).trace == first + (second + []);
    ParamsRequest(Guarded());
  }

  /** A run of the client from its start and a loop over it: the first guarded call is approved and invoked,
      the second finds the connection lost. */
  lemma {:induction false} SomeLoopAsksThrough()
      returns (start: seq<Raw.Label>, ls: seq<Raw.Label>, response: string, at: seq<nat>)
    ensures Raw.CanRun(Raw.Init(), start) && Raw.CanRun(Raw.After(Raw.Init(), start), ls) && Raw.NoDial(ls)
    ensures var t := LoopFrom(response, "", "", OneApproval(), 0).trace;
      AsksThrough(t, Raw.After(Raw.Init(), start), ls, at)
      && |t| == 4 && Approves(t[0], Guarded()) && GuardedInvoke(t[1]) && Loses(t[2])
  {
    hide Raw.CanRun, Raw.After, AnswersAt, GoneAt, LoopFrom, Parse, NeedsApproval, RequestFor;
    start := Connected();
    ls := AnswerThenLoss(Raw.After(Raw.Init(), start));
    response := AsksTwice();
    TraceOfTwo(response);
    GuardedIsGuarded();
    at := [2, 2, 3, 3];
  }
}
