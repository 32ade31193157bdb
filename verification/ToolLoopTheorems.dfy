/** What the tool loop guarantees, read off the trace of its effects. */
module ToolLoopTheorems {
  import opened Wrappers
  import opened Text
  import opened ToolCalls
  import opened Protocol
  import opened ToolLoop

  // ---------- The gate ----------

  /** The namespace whose tools need the guardrail's approval. */
  predicate NeedsApproval(tool: string) {
    HasPrefix(tool, "cognitiveos.package")
  }

  predicate GuardedInvoke(e: Effect) {
    e.Invoked? && NeedsApproval(e.call.tool)
  }

  /** e approves this very call: for the operation its name gives, its name and version arguments, and the
      manifest of its package if it installs or updates one. */
  ghost predicate Approves(e: Effect, call: ToolCall) {
    e.PackageValidated? && e.subject == call && RequestFor(call, e.params)
    && e.verdict.Decision? && e.verdict.status == "approved"
  }

  ghost predicate Gated(trace: seq<Effect>) {
    forall k | 0 <= k < |trace| && GuardedInvoke(trace[k]) :: k > 0 && Approves(trace[k - 1], trace[k].call)
  }

  lemma {:induction false} GatedAppend(a: seq<Effect>, b: seq<Effect>)
    requires Gated(a) && Gated(b)
    ensures Gated(a + b)
  {
    forall k | 0 <= k < |a + b| && GuardedInvoke((a + b)[k])
      ensures k > 0 && Approves((a + b)[k - 1], (a + b)[k].call)
    {
      assert k >= |a| ==> (a + b)[k] == b[k - |a|];
    }
  }

  lemma {:induction false} CallGated(call: ToolCall, session: string, v: PackageAnswer, a: InvokeAnswer)
    ensures Gated(CallTrace(call, session, v, a))
  {
    hide HasPrefix, Params, RequestFor;
    ParamsRequest(call);
  }

  lemma {:induction false} RoundGated(calls: seq<ToolCall>, session: string, o: Oracle, i: nat, j: nat)
    ensures Gated(RoundFrom(calls, session, o, i, j).trace)
    decreases |calls| - j
  {
    hide Gated, CallTrace, Resolve, ResultLine, CompletedCall;
    if j < |calls| {
      CallGated(calls[j], session, o.validation(i, j), o.invoke(i, j));
      RoundGated(calls, session, o, i, j + 1);
      GatedAppend(CallTrace(calls[j], session, o.validation(i, j), o.invoke(i, j)),
        RoundFrom(calls, session, o, i, j + 1).trace);
    } else {
      EmptyGated();
    }
  }

  lemma {:induction false} EmptyGated()
    ensures Gated([])
  {
  }

  lemma {:induction false} PlainGated(e: Effect)
    requires !e.Invoked?
    ensures Gated([e])
  {
  }

  /** Every invocation of a tool in the validated namespace comes right after an approved validation of
      that same call, for the operation derived from its name. */
  lemma {:induction false} LoopGated(response: string, prompt: string, session: string, o: Oracle, i: nat)
    ensures Gated(LoopFrom(response, prompt, session, o, i).trace)
    decreases MAX_ROUNDS - i
  {
    hide Gated, RoundFrom, Parse, Continuation;
    EmptyGated();
    PlainGated(Crash);
    if i < MAX_ROUNDS && Parse(response).Calls? && Parse(response).calls != [] {
      var calls := Parse(response).calls;
      RoundGated(calls, session, o, i, 0);
      var r := RoundFrom(calls, session, o, i, 0);
      var g := Generated(Continuation(prompt, r.lines), o.regenerate(i));
      GatedAppend(r.trace, [Crash]);
      PlainGated(g);
      GatedAppend(r.trace, [g]);
      if !r.panicked && o.regenerate(i).Success? {
        LoopGated(o.regenerate(i).value, prompt, session, o, i + 1);
        GatedAppend(r.trace + [g], LoopFrom(o.regenerate(i).value, prompt, session, o, i + 1).trace);
      }
    }
  }

  // ---------- What the guardrail is asked ----------

  /** A validation is of a tool in the namespace, and asks what its call says; an invocation is for the session. */
  ghost predicate AsksRight(e: Effect, session: string) {
    (e.PackageValidated? ==> NeedsApproval(e.subject.tool) && RequestFor(e.subject, e.params))
    && (e.Invoked? ==> e.caller == session)
  }

  lemma {:induction false} RoundAsks(calls: seq<ToolCall>, session: string, o: Oracle, i: nat, j: nat)
    ensures forall e | e in RoundFrom(calls, session, o, i, j).trace :: AsksRight(e, session)
    decreases |calls| - j
  {
    hide Params, RequestFor, HasPrefix, Resolve, ResultLine, CompletedCall;
    if j < |calls| {
      ParamsRequest(calls[j]);
      RoundAsks(calls, session, o, i, j + 1);
    }
  }

  /** Every validation of the loop, approved or not, is of a tool in the namespace, and asks for the operation
      after the last dot of its name, with the call's own arguments; every invocation is for the loop's session. */
  lemma {:induction false} LoopAsks(response: string, prompt: string, session: string, o: Oracle, i: nat)
    ensures forall e | e in LoopFrom(response, prompt, session, o, i).trace :: AsksRight(e, session)
    decreases MAX_ROUNDS - i
  {
    hide RoundFrom, Parse, Continuation, RequestFor, HasPrefix;
    if i < MAX_ROUNDS && Parse(response).Calls? && Parse(response).calls != [] {
      RoundAsks(Parse(response).calls, session, o, i, 0);
      if !RoundFrom(Parse(response).calls, session, o, i, 0).panicked && o.regenerate(i).Success? {
        LoopAsks(o.regenerate(i).value, prompt, session, o, i + 1);
      }
    }
  }

  // ---------- Conservation ----------

  /** The result line an effect leaves, if it ends a call: what the model is told about the call. */
  function LinesOf(e: Effect): seq<string> {
    match e
    case PackageValidated(call, _, v) =>
      (match v
       case Decision(status, reason) =>
         if status == "approved" then []
         else ["E_PACKAGE_DENIED: Tool " + call.tool + " denied: "
               + if reason == "" then "operation denied by system guardrail" else reason]
       case CallFailed(error) => ["E_PACKAGE_MANIFEST_FETCH: Cannot validate " + call.tool + ": " + error]
       case ConnectionLost(error) => ["E_PACKAGE_MANIFEST_FETCH: Cannot validate " + call.tool + ": " + error])
    case Invoked(call, _, a) =>
      (match a
       case Completed(texts) => ["Tool " + call.tool + " returned: " + Join(texts, "")]
       case InvokeFailed(error) => ["Error calling " + call.tool + ": " + error]
       case InvokePanics => [])
    case _ => []
  }

  function LineParts(trace: seq<Effect>): seq<seq<string>> {
    seq(|trace|, k requires 0 <= k < |trace| => LinesOf(trace[k]))
  }

  function ResultLines(trace: seq<Effect>): seq<string> {
    Flatten(LineParts(trace))
  }

  /** What the client is sent about a completed call. */
  function CompletedBy(e: Effect): seq<string> {
    if e.Invoked? && e.outcome.Completed? then [e.call.tool + " \U{2192} " + Join(e.outcome.texts, "")] else []
  }

  /** The call an effect ends: one that is not approved, or is invoked. */
  function EndedBy(e: Effect): seq<ToolCall> {
    match e
    case PackageValidated(call, _, v) => if v.Decision? && v.status == "approved" then [] else [call]
    case Invoked(call, _, _) => [call]
    case _ => []
  }

  function EndedParts(trace: seq<Effect>): seq<seq<ToolCall>> {
    seq(|trace|, k requires 0 <= k < |trace| => EndedBy(trace[k]))
  }

  function EndedCalls(trace: seq<Effect>): seq<ToolCall> {
    Flatten(EndedParts(trace))
  }

  function CompletedParts(trace: seq<Effect>): seq<seq<string>> {
    seq(|trace|, k requires 0 <= k < |trace| => CompletedBy(trace[k]))
  }

  function CompletedResults(trace: seq<Effect>): seq<string> {
    Flatten(CompletedParts(trace))
  }

  lemma {:induction false} ProjectOne(e: Effect)
    ensures ResultLines([e]) == LinesOf(e) && CompletedResults([e]) == CompletedBy(e)
    ensures ResultLines([]) == [] && CompletedResults([]) == []
    ensures EndedCalls([e]) == EndedBy(e) && EndedCalls([]) == []
  {
    hide LinesOf, CompletedBy, EndedBy;
    assert EndedParts([e]) == [EndedBy(e)] && EndedParts([]) == [];
    FlattenOne(EndedBy(e));
    assert LineParts([e]) == [LinesOf(e)] && CompletedParts([e]) == [CompletedBy(e)];
    FlattenOne(LinesOf(e));
    FlattenOne(CompletedBy(e));
    assert LineParts([]) == [] && CompletedParts([]) == [];
  }

  lemma {:induction false} ProjectionsAppend(a: seq<Effect>, b: seq<Effect>)
    ensures ResultLines(a + b) == ResultLines(a) + ResultLines(b)
    ensures CompletedResults(a + b) == CompletedResults(a) + CompletedResults(b)
    ensures EndedCalls(a + b) == EndedCalls(a) + EndedCalls(b)
  {
    hide LinesOf, CompletedBy, EndedBy, Flatten;
    assert EndedParts(a + b) == EndedParts(a) + EndedParts(b);
    FlattenAppend(EndedParts(a), EndedParts(b));
    assert LineParts(a + b) == LineParts(a) + LineParts(b);
    assert CompletedParts(a + b) == CompletedParts(a) + CompletedParts(b);
    FlattenAppend(LineParts(a), LineParts(b));
    FlattenAppend(CompletedParts(a), CompletedParts(b));
  }

  lemma {:induction false} ConcatJoins(texts: seq<string>)
    ensures Concat(texts) == Join(texts, "")
  {
    if texts != [] {
      ConcatJoins(texts[1..]);
      if |texts| > 1 {
        assert texts[0] + "" == texts[0];
      }
    }
  }

  lemma {:induction false} ValidationLines(call: ToolCall, v: PackageAnswer)
    ensures LinesOf(PackageValidated(call, Params(call), v))
         == if Approved(v) then [] else [ResultLine(call.tool, Refusal(v))]
  {
    hide Params;
  }

  lemma {:induction false} InvocationLines(call: ToolCall, session: string, a: InvokeAnswer)
    ensures var e, out := Invoked(call, session, a), Invocation(a);
      LinesOf(e) == (if out.Panicked? then [] else [ResultLine(call.tool, out)])
      && CompletedBy(e) == CompletedCall(call.tool, out)
  {
    hide Concat, Join;
    if a.Completed? {
      ConcatJoins(a.texts);
    }
  }

  lemma {:induction false} CallProjections(call: ToolCall, session: string, v: PackageAnswer, a: InvokeAnswer)
    ensures var t, out := CallTrace(call, session, v, a), Resolve(call, v, a);
      ResultLines(t) == (if out.Panicked? then [] else [ResultLine(call.tool, out)])
      && CompletedResults(t) == CompletedCall(call.tool, out) && EndedCalls(t) == [call]
  {
    hide IsToolValidated, Params, ToolResult, ResultLine, Invocation, LinesOf, ResultLines, CompletedResults,
         EndedCalls;
    var e0, e1 := PackageValidated(call, Params(call), v), Invoked(call, session, a);
    ProjectOne(e0);
    ProjectOne(e1);
    ProjectionsAppend([e0], [e1]);
    ValidationLines(call, v);
    InvocationLines(call, session, a);
    assert CallTrace(call, session, v, a) ==
      if !IsToolValidated(call.tool) then [e1] else if Admitted(call, v) then [e0] + [e1] else [e0];
  }

  function CallOutcome(calls: seq<ToolCall>, o: Oracle, i: nat, n: nat): Outcome
    requires n < |calls|
  {
    Resolve(calls[n], o.validation(i, n), o.invoke(i, n))
  }

  /** A round ends every call it ran as itself, in call order, and keeps one line for it, whether the call was
      denied, could not be validated, failed or completed; the completed ones are the invocations that completed. */
  lemma {:induction false} RoundConserves(calls: seq<ToolCall>, session: string, o: Oracle, i: nat, j: nat)
    requires j <= |calls|
    ensures var r := RoundFrom(calls, session, o, i, j);
      r.lines == ResultLines(r.trace) && r.completed == CompletedResults(r.trace)
    ensures var r := RoundFrom(calls, session, o, i, j);
      !r.panicked ==> EndedCalls(r.trace) == calls[j..] && |r.lines| == |calls| - j && forall n | j <= n < |calls| ::
        !CallOutcome(calls, o, i, n).Panicked?
          && r.lines[n - j] == ResultLine(calls[n].tool, CallOutcome(calls, o, i, n))
    decreases |calls| - j
  {
    hide CallTrace, ResultLine, Resolve, ResultLines, CompletedResults, EndedCalls, ToolResult;
    if j < |calls| {
      assert calls[j..] == [calls[j]] + calls[j + 1..];
      var v, a := o.validation(i, j), o.invoke(i, j);
      CallProjections(calls[j], session, v, a);
      RoundConserves(calls, session, o, i, j + 1);
      var rest := RoundFrom(calls, session, o, i, j + 1);
      ProjectionsAppend(CallTrace(calls[j], session, v, a), rest.trace);
      var r := RoundFrom(calls, session, o, i, j);
      if r.panicked && Resolve(calls[j], v, a).Panicked? {
        assert CompletedCall(calls[j].tool, Panicked) == [];
      } else {
        var line := [ResultLine(calls[j].tool, Resolve(calls[j], v, a))];
        assert r.lines == line + rest.lines;
        if !r.panicked {
          forall n | j <= n < |calls|
            ensures !CallOutcome(calls, o, i, n).Panicked?
              && r.lines[n - j] == ResultLine(calls[n].tool, CallOutcome(calls, o, i, n))
          {
            assert n > j ==> r.lines[n - j] == rest.lines[n - (j + 1)];
          }
        }
      }
    } else {
      ProjectOne(Crash);
    }
  }

  /** The tool results returned are exactly the completed invocations of all rounds, in order. */
  lemma {:induction false} LoopConserves(response: string, prompt: string, session: string, o: Oracle, i: nat)
    ensures var l := LoopFrom(response, prompt, session, o, i); l.results == CompletedResults(l.trace)
    decreases MAX_ROUNDS - i
  {
    hide RoundFrom, Parse, Continuation, CompletedResults, ResultLines, EndedCalls;
    ProjectOne(Crash);
    if i < MAX_ROUNDS && Parse(response).Calls? && Parse(response).calls != [] {
      var calls := Parse(response).calls;
      RoundConserves(calls, session, o, i, 0);
      var r := RoundFrom(calls, session, o, i, 0);
      var g := Generated(Continuation(prompt, r.lines), o.regenerate(i));
      ProjectOne(g);
      ProjectionsAppend(r.trace, [Crash]);
      ProjectionsAppend(r.trace, [g]);
      assert r.completed + [] == r.completed;
      if !r.panicked && o.regenerate(i).Success? {
        LoopConserves(o.regenerate(i).value, prompt, session, o, i + 1);
        ProjectionsAppend(r.trace + [g], LoopFrom(o.regenerate(i).value, prompt, session, o, i + 1).trace);
      }
    }
  }

  /** How a call ended, read off the effect that ended it. */
  datatype Ending = DeniedCall | InvalidCall | FailedCall | DoneCall

  predicate Ends(e: Effect, how: Ending) {
    match how
    case DeniedCall => e.PackageValidated? && e.verdict.Decision? && e.verdict.status != "approved"
    case InvalidCall => e.PackageValidated? && !e.verdict.Decision?
    case FailedCall => e.Invoked? && e.outcome.InvokeFailed?
    case DoneCall => e.Invoked? && e.outcome.Completed?
  }

  function Count(trace: seq<Effect>, how: Ending): nat {
    if trace == [] then 0 else (if Ends(trace[0], how) then 1 else 0) + Count(trace[1..], how)
  }

  /** Every result line is a call denied, not validated, failed or completed. */
  lemma {:induction false} LinesClassified(trace: seq<Effect>)
    ensures |ResultLines(trace)|
         == Count(trace, DeniedCall) + Count(trace, InvalidCall) + Count(trace, FailedCall) + Count(trace, DoneCall)
  {
    hide ResultLines, CompletedResults, EndedCalls, Join;
    ProjectOne(Crash);
    if trace != [] {
      LinesClassified(trace[1..]);
      ProjectOne(trace[0]);
      ProjectionsAppend([trace[0]], trace[1..]);
      assert [trace[0]] + trace[1..] == trace;
    }
  }

  // ---------- Regeneration ----------

  predicate NoneGenerated(trace: seq<Effect>) {
    forall k | 0 <= k < |trace| :: !trace[k].Generated?
  }

  lemma {:induction false} RoundGeneratesNothing(calls: seq<ToolCall>, session: string, o: Oracle, i: nat, j: nat)
    ensures NoneGenerated(RoundFrom(calls, session, o, i, j).trace)
    decreases |calls| - j
  {
    hide Resolve, ResultLine, CompletedCall, IsToolValidated, Params;
    if j < |calls| {
      RoundGeneratesNothing(calls, session, o, i, j + 1);
    }
  }

  /** The round that effect k closes starts after the last generation before k. */
  function RoundStart(trace: seq<Effect>, k: nat): (start: nat)
    requires k <= |trace|
    ensures start <= k
  {
    if k == 0 || trace[k - 1].Generated? then k else RoundStart(trace, k - 1)
  }

  /** The response that round works on. */
  function InForce(trace: seq<Effect>, k: nat, response: string): Result<string>
    requires k <= |trace|
  {
    var start := RoundStart(trace, k);
    if start == 0 || !trace[start - 1].Generated? then Success(response) else trace[start - 1].response
  }

  lemma {:induction false} RoundStartAppend(t: seq<Effect>, rest: seq<Effect>, k: nat)
    requires t != [] && t[|t| - 1].Generated? && k <= |rest|
    ensures RoundStart(t + rest, |t| + k) == |t| + RoundStart(rest, k)
  {
    if k > 0 {
      assert (t + rest)[|t| + k - 1] == rest[k - 1];
      if !rest[k - 1].Generated? {
        RoundStartAppend(t, rest, k - 1);
      }
    }
  }

  lemma {:induction false} RoundStartFirst(t: seq<Effect>, rest: seq<Effect>)
    requires NoneGenerated(t)
    ensures RoundStart(t + rest, |t|) == 0
  {
    if t != [] {
      var s := t[..|t| - 1];
      assert s + ([t[|t| - 1]] + rest) == t + rest;
      RoundStartFirst(s, [t[|t| - 1]] + rest);
      assert (t + rest)[|t| - 1] == t[|t| - 1];
    }
  }

  /** Generation k of the trace comes when each call parsed from the response in force has ended, as itself and in
      order, and asks to continue the original prompt with the lines that those endings leave, one for each. */
  ghost predicate Continues(trace: seq<Effect>, k: nat, response: string, prompt: string)
    requires k < |trace|
  {
    var current := InForce(trace, k, response);
    var round := trace[RoundStart(trace, k)..k];
    var lines := ResultLines(round);
    trace[k].Generated?
    && trace[k].request == prompt + "\n\nTool results:\n" + Join(lines, "\n") + "\n\nContinue."
    && current.Success? && Parse(current.value) == Calls(EndedCalls(round)) && |EndedCalls(round)| == |lines| > 0
  }

  lemma {:induction false} FirstContinues(response: string, prompt: string, r: Round, g: Effect, rest: seq<Effect>)
    requires NoneGenerated(r.trace) && r.lines == ResultLines(r.trace)
    requires Parse(response) == Calls(EndedCalls(r.trace)) && |EndedCalls(r.trace)| == |r.lines| > 0
    requires g.Generated? && g.request == Continuation(prompt, r.lines)
    ensures Continues(r.trace + [g] + rest, |r.trace|, response, prompt)
  {
    hide Parse, Join, ResultLines, EndedCalls;
    var trace := r.trace + [g] + rest;
    assert trace == r.trace + ([g] + rest);
    RoundStartFirst(r.trace, [g] + rest);
    assert trace[0..|r.trace|] == r.trace;
  }

  lemma {:induction false} ContinuesShifted(t: seq<Effect>, rest: seq<Effect>, k: nat, response: string, next: string,
      prompt: string)
    requires t != [] && t[|t| - 1].Generated? && t[|t| - 1].response == Success(next) && k < |rest|
    requires Continues(rest, k, next, prompt)
    ensures Continues(t + rest, |t| + k, response, prompt)
  {
    hide Parse, Join, ResultLines, EndedCalls;
    var start := RoundStart(rest, k);
    RoundStartAppend(t, rest, k);
    RoundStartGenerated(rest, k);
    assert (t + rest)[|t| + k] == rest[k];
    assert (t + rest)[|t| + start..|t| + k] == rest[start..k];
    InForceShifted(t, rest, k, response, next);
    hide RoundStart, InForce;
  }

  lemma {:induction false} InForceShifted(t: seq<Effect>, rest: seq<Effect>, k: nat, response: string, next: string)
    requires t != [] && t[|t| - 1].Generated? && t[|t| - 1].response == Success(next) && k <= |rest|
    ensures InForce(t + rest, |t| + k, response) == InForce(rest, k, next)
  {
    RoundStartAppend(t, rest, k);
    RoundStartGenerated(rest, k);
    hide RoundStart;
    var start := RoundStart(rest, k);
    assert start > 0 ==> (t + rest)[|t| + start - 1] == rest[start - 1];
  }

  lemma {:induction false} RoundStartGenerated(trace: seq<Effect>, k: nat)
    requires k <= |trace|
    ensures RoundStart(trace, k) > 0 ==> trace[RoundStart(trace, k) - 1].Generated?
  {
    if k > 0 && !trace[k - 1].Generated? {
      RoundStartGenerated(trace, k - 1);
    }
  }

  lemma {:induction false} LoopContinues(response: string, prompt: string, session: string, o: Oracle, i: nat, k: nat)
    requires k < |LoopFrom(response, prompt, session, o, i).trace|
    requires LoopFrom(response, prompt, session, o, i).trace[k].Generated?
    ensures Continues(LoopFrom(response, prompt, session, o, i).trace, k, response, prompt)
    decreases MAX_ROUNDS - i
  {
    hide RoundFrom, Parse, Continuation, ResultLines, EndedCalls, Continues;
    var calls := Parse(response).calls;
    RoundConserves(calls, session, o, i, 0);
    RoundGeneratesNothing(calls, session, o, i, 0);
    var r := RoundFrom(calls, session, o, i, 0);
    var g := Generated(Continuation(prompt, r.lines), o.regenerate(i));
    var trace := LoopFrom(response, prompt, session, o, i).trace;
    assert !r.panicked by {
      assert r.panicked ==> trace == r.trace + [Crash];
    }
    assert calls[0..] == calls;
    if o.regenerate(i).Failure? {
      assert trace == r.trace + [g] + [];
      FirstContinues(response, prompt, r, g, []);
    } else {
      var next := o.regenerate(i).value;
      var rest := LoopFrom(next, prompt, session, o, i + 1).trace;
      assert trace == r.trace + [g] + rest;
      if k == |r.trace| {
        FirstContinues(response, prompt, r, g, rest);
      } else {
        var k' := k - |r.trace| - 1;
        assert trace[k] == rest[k'];
        LoopContinues(next, prompt, session, o, i + 1, k');
        ContinuesShifted(r.trace + [g], rest, k', response, next, prompt);
      }
    }
  }

  // ---------- How the loop ends ----------

  function Generations(trace: seq<Effect>): nat {
    if trace == [] then 0 else (if trace[0].Generated? then 1 else 0) + Generations(trace[1..])
  }

  lemma {:induction false} GenerationsAppend(a: seq<Effect>, b: seq<Effect>)
    ensures Generations(a + b) == Generations(a) + Generations(b)
    ensures NoneGenerated(a) ==> Generations(a) == 0
  {
    if a == [] {
      assert a + b == b;
    } else {
      GenerationsAppend(a[1..], b);
      assert (a + b)[1..] == a[1..] + b;
    }
  }

  /** The last response generated without error, or the one the loop started from. */
  function LastGenerated(trace: seq<Effect>, response: string): string {
    if trace == [] then response
    else
      var e := trace[|trace| - 1];
      if e.Generated? && e.response.Success? then e.response.value else LastGenerated(trace[..|trace| - 1], response)
  }

  lemma {:induction false} LastGeneratedAppend(t: seq<Effect>, rest: seq<Effect>, response: string)
    ensures LastGenerated(t + rest, response) == LastGenerated(rest, LastGenerated(t, response))
  {
    if rest == [] {
      assert t + rest == t;
    } else {
      assert (t + rest)[..|t + rest| - 1] == t + rest[..|rest| - 1];
      LastGeneratedAppend(t, rest[..|rest| - 1], response);
    }
  }

  lemma {:induction false} LastGeneratedNone(t: seq<Effect>, response: string)
    requires NoneGenerated(t)
    ensures LastGenerated(t, response) == response
  {
    if t != [] {
      LastGeneratedNone(t[..|t| - 1], response);
    }
  }

  lemma {:induction false} OneEffect(e: Effect, response: string)
    ensures Generations([]) == 0 && Generations([e]) == if e.Generated? then 1 else 0
    ensures LastGenerated([], response) == response
    ensures LastGenerated([e], response) == if e.Generated? && e.response.Success? then e.response.value else response
  {
    assert [e][1..] == [] && [e][..0] == [];
  }

  ghost predicate LastFails(trace: seq<Effect>) {
    trace != [] && trace[|trace| - 1].Generated? && trace[|trace| - 1].response.Failure?
  }

  /** A loop that returns, returns the last response it got; it stopped because that response holds no
      call, because regeneration failed, or because all its rounds are spent. At most ten rounds
      regenerate. */
  lemma {:induction false} LoopEnds(response: string, prompt: string, session: string, o: Oracle, i: nat)
    requires i <= 10
    ensures var l := LoopFrom(response, prompt, session, o, i);
      Generations(l.trace) <= 10 - i
      && (l.final.Some? ==>
        l.final.value == LastGenerated(l.trace, response)
        && (Parse(l.final.value) == Calls([]) || LastFails(l.trace) || Generations(l.trace) == 10 - i))
    decreases MAX_ROUNDS - i
  {
    hide RoundFrom, Parse, Continuation, Generations, LastGenerated;
    OneEffect(Crash, response);
    if i < MAX_ROUNDS && Parse(response).Calls? && Parse(response).calls != [] {
      var r := RoundFrom(Parse(response).calls, session, o, i, 0);
      RoundGeneratesNothing(Parse(response).calls, session, o, i, 0);
      var g := Generated(Continuation(prompt, r.lines), o.regenerate(i));
      OneEffect(g, response);
      GenerationsAppend(r.trace, [Crash]);
      GenerationsAppend(r.trace, [g]);
      LastGeneratedNone(r.trace, response);
      LastGeneratedAppend(r.trace, [g], response);
      if !r.panicked && o.regenerate(i).Success? {
        var rest := LoopFrom(o.regenerate(i).value, prompt, session, o, i + 1).trace;
        LoopEnds(o.regenerate(i).value, prompt, session, o, i + 1);
        GenerationsAppend(r.trace + [g], rest);
        LastGeneratedAppend(r.trace + [g], rest, response);
      }
    }
  }

  /** Generation k of the trace gets the next answer of the model. */
  lemma {:induction false} LoopHears(response: string, prompt: string, session: string, o: Oracle, i: nat, k: nat)
    requires k < |LoopFrom(response, prompt, session, o, i).trace|
    requires LoopFrom(response, prompt, session, o, i).trace[k].Generated?
    ensures var t := LoopFrom(response, prompt, session, o, i).trace;
      t[k].response == o.regenerate(i + Generations(t[..k]))
    decreases MAX_ROUNDS - i
  {
    hide RoundFrom, Parse, Continuation, Generations;
    var r := RoundFrom(Parse(response).calls, session, o, i, 0);
    RoundGeneratesNothing(Parse(response).calls, session, o, i, 0);
    var g := Generated(Continuation(prompt, r.lines), o.regenerate(i));
    var t := LoopFrom(response, prompt, session, o, i).trace;
    assert !r.panicked by {
      assert r.panicked ==> t == r.trace + [Crash];
    }
    GenerationsAppend(r.trace, []);
    OneEffect(g, response);
    if k == |r.trace| {
      assert t[..k] == r.trace;
    } else {
      var next, k' := o.regenerate(i).value, k - |r.trace| - 1;
      var rest := LoopFrom(next, prompt, session, o, i + 1).trace;
      assert t == r.trace + [g] + rest && t[k] == rest[k'];
      LoopHears(next, prompt, session, o, i + 1, k');
      assert t[..k] == r.trace + [g] + rest[..k'];
      GenerationsAppend(r.trace, [g]);
      GenerationsAppend(r.trace + [g], rest[..k']);
    }
  }

  // ---------- How the loop panics ----------

  predicate PanickingInvoke(e: Effect) {
    e.Invoked? && e.outcome.InvokePanics?
  }

  /** The trace ends in a panic: in a tool call, or in parsing the response in force. */
  ghost predicate DiedOf(trace: seq<Effect>, response: string) {
    trace != [] && var n := |trace| - 1;
    trace[n].Crash?
    && ((n > 0 && PanickingInvoke(trace[n - 1]))
        || (RoundStart(trace, n) == n && InForce(trace, n, response).Success?
            && Parse(InForce(trace, n, response).value).SliceError?))
  }

  ghost predicate NonePanics(trace: seq<Effect>) {
    forall k | 0 <= k < |trace| :: !PanickingInvoke(trace[k])
  }

  lemma {:induction false} RoundPanics(calls: seq<ToolCall>, session: string, o: Oracle, i: nat, j: nat)
    ensures var r := RoundFrom(calls, session, o, i, j);
      if r.panicked then r.trace != [] && PanickingInvoke(r.trace[|r.trace| - 1]) else NonePanics(r.trace)
    decreases |calls| - j
  {
    hide ResultLine, CompletedCall, CallTrace, Resolve;
    if j < |calls| {
      RoundPanics(calls, session, o, i, j + 1);
      CallPanics(calls[j], session, o.validation(i, j), o.invoke(i, j));
      var t, rest := CallTrace(calls[j], session, o.validation(i, j), o.invoke(i, j)),
        RoundFrom(calls, session, o, i, j + 1).trace;
      assert rest != [] ==> (t + rest)[|t + rest| - 1] == rest[|rest| - 1];
      assert forall k | 0 <= k < |t + rest| :: (t + rest)[k] == if k < |t| then t[k] else rest[k - |t|];
    }
  }

  lemma {:induction false} CallPanics(call: ToolCall, session: string, v: PackageAnswer, a: InvokeAnswer)
    ensures var t := CallTrace(call, session, v, a);
      if Resolve(call, v, a).Panicked? then t != [] && PanickingInvoke(t[|t| - 1]) else NonePanics(t)
  {
    hide IsToolValidated, Params, Concat;
  }

  lemma {:induction false} DiedLater(t: seq<Effect>, rest: seq<Effect>, response: string, next: string)
    requires t != [] && t[|t| - 1].Generated? && t[|t| - 1].response == Success(next)
    requires DiedOf(rest, next)
    ensures DiedOf(t + rest, response)
  {
    hide Parse;
    var n := |rest| - 1;
    RoundStartAppend(t, rest, n);
    InForceShifted(t, rest, n, response, next);
    assert (t + rest)[|t| + n] == rest[n];
    assert n > 0 ==> (t + rest)[|t| + n - 1] == rest[n - 1];
  }

  /** The loop panics exactly when a tool call does, or when a response it parses makes the parser panic. */
  lemma {:induction false} LoopPanics(response: string, prompt: string, session: string, o: Oracle, i: nat)
    ensures var l := LoopFrom(response, prompt, session, o, i);
      if l.final.None? then DiedOf(l.trace, response) else NonePanics(l.trace)
    decreases MAX_ROUNDS - i
  {
    hide RoundFrom, Parse, Continuation, DiedOf;
    if i < MAX_ROUNDS && Parse(response) == SliceError {
      DiedParsing(response);
    }
    if i < MAX_ROUNDS && Parse(response).Calls? && Parse(response).calls != [] {
      var r := RoundFrom(Parse(response).calls, session, o, i, 0);
      RoundPanics(Parse(response).calls, session, o, i, 0);
      if r.panicked {
        DiedCalling(r.trace, response);
      } else if o.regenerate(i).Success? {
        var next := o.regenerate(i).value;
        LoopPanics(next, prompt, session, o, i + 1);
        var rest := LoopFrom(next, prompt, session, o, i + 1);
        if rest.final.None? {
          DiedLater(r.trace + [Generated(Continuation(prompt, r.lines), o.regenerate(i))], rest.trace, response, next);
        }
      }
    }
  }

  lemma {:induction false} DiedParsing(response: string)
    requires Parse(response) == SliceError
    ensures DiedOf([Crash], response)
  {
    hide Parse;
  }

  lemma {:induction false} DiedCalling(t: seq<Effect>, response: string)
    requires t != [] && PanickingInvoke(t[|t| - 1])
    ensures DiedOf(t + [Crash], response)
  {
    hide Parse, RoundStart;
  }
}
