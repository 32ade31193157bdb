/** processPrompt: what one prompt worker does, and what it guarantees. */
module Worker {
  import opened Wrappers
  import opened Text
  import opened ToolCalls
  import opened Protocol
  import opened ToolLoop
  import opened ToolLoopTheorems

  datatype PromptAnswers = PromptAnswers(verdict: PromptAnswer, first: Result<string>, tools: Oracle)

  /** The prompt the model is asked about: the modified one when the verdict gives one. */
  function Effective(prompt: string, v: PromptAnswer): string {
    if v.Verdict? && v.action == "modify" && v.modified != "" then v.modified else prompt
  }

  predicate Denies(v: PromptAnswer) {
    v.PromptFailed? || v.action == "deny"
  }

  function DenialText(v: PromptAnswer): string
    requires Denies(v)
  {
    match v
    case PromptFailed(e) => "Guardrail error: " + e
    case Verdict(_, _, reason, _) => if reason != "" then "Guardrail: " + reason
      else "Request blocked by system guardrail."
  }

  function Closing(from: string, session: string, text: string): seq<Effect> {
    [Output(from, session, TextOutput, text), SetState(Listening)]
  }

  function ToolOutputs(from: string, session: string, results: seq<string>): seq<Effect> {
    seq(|results|, k requires 0 <= k < |results| => Output(from, session, ToolOutput, results[k]))
  }

  /** What follows the tool loop; a panic leaves nothing to follow. */
  function Delivery(from: string, session: string, l: Loop): seq<Effect> {
    if l.final.None? then l.trace
    else l.trace + (ToolOutputs(from, session, l.results) + Closing(from, session, l.final.value))
  }

  function Generation(p: string, from: string, session: string, model: string, a: PromptAnswers): seq<Effect> {
    (if model != "" then [HotSwap(model)] else []) + [Generated(p, a.first)]
    + match a.first
      case Failure(e) => Closing(from, session, "Error: " + e)
      case Success(resp) => Delivery(from, session, LoopFrom(resp, p, session, a.tools, 0))
  }

  function WorkerEffects(prompt: string, session: string, from: string, a: PromptAnswers): seq<Effect> {
    [Touch, PromptValidated(prompt, a.verdict)]
    + if Denies(a.verdict) then Closing(from, session, DenialText(a.verdict))
      else Generation(Effective(prompt, a.verdict), from, session, a.verdict.model, a)
  }

  /** The worker panics: in parsing a response, or in a tool call. */
  predicate Panics(prompt: string, session: string, a: PromptAnswers) {
    !Denies(a.verdict) && a.first.Success?
    && LoopFrom(a.first.value, Effective(prompt, a.verdict), session, a.tools, 0).final.None?
  }

  // ---------- The tool loop's effects ----------

  predicate LoopEffect(e: Effect) {
    e.PackageValidated? || e.Invoked? || e.Generated?
  }

  ghost predicate LoopTrace(trace: seq<Effect>, crashed: bool) {
    forall k | 0 <= k < |trace| :: if crashed && k == |trace| - 1 then trace[k].Crash? else LoopEffect(trace[k])
  }

  lemma {:induction false} RoundTrace(calls: seq<ToolCall>, session: string, o: Oracle, i: nat, j: nat)
    ensures LoopTrace(RoundFrom(calls, session, o, i, j).trace, false)
    decreases |calls| - j
  {
    hide Resolve, ResultLine, CompletedCall, IsToolValidated, Params;
    if j < |calls| {
      RoundTrace(calls, session, o, i, j + 1);
    }
  }

  lemma {:induction false} LoopTraceShape(response: string, prompt: string, session: string, o: Oracle, i: nat)
    ensures var l := LoopFrom(response, prompt, session, o, i);
      LoopTrace(l.trace, l.final.None?) && (l.final.None? ==> l.trace != [])
    decreases MAX_ROUNDS - i
  {
    hide RoundFrom, Parse, Continuation;
    if i < MAX_ROUNDS && Parse(response).Calls? && Parse(response).calls != [] {
      var calls := Parse(response).calls;
      RoundTrace(calls, session, o, i, 0);
      if !RoundFrom(calls, session, o, i, 0).panicked && o.regenerate(i).Success? {
        LoopTraceShape(o.regenerate(i).value, prompt, session, o, i + 1);
      }
    }
  }

  lemma {:induction false} LoopRequests(response: string, prompt: string, session: string, o: Oracle, i: nat)
    ensures forall e | e in LoopFrom(response, prompt, session, o, i).trace && e.Generated? ::
      HasPrefix(e.request, prompt)
  {
    hide LoopFrom, Join, Parse, ResultLines;
    var trace := LoopFrom(response, prompt, session, o, i).trace;
    forall k | 0 <= k < |trace| && trace[k].Generated?
      ensures HasPrefix(trace[k].request, prompt)
    {
      LoopContinues(response, prompt, session, o, i, k);
    }
  }

  // ---------- The guarantees ----------

  /** No write, no end of the thread or the process, no new thread, no step of a shutdown. */
  predicate Quiet(e: Effect) {
    !e.SetState? && !e.Crash? && !e.Hang? && !e.Exit? && !e.CloseListener? && !e.CloseClients? && !e.SpawnWorker?
  }

  /** The worker attempts one text output, last before it goes back to listening; every other output is
      a tool result, sent after all generation and tool calls; all go to one client in one session. */
  ghost predicate AnswersOnce(w: seq<Effect>, from: string, session: string) {
    |w| >= 2 && w[|w| - 1] == SetState(Listening)
    && (exists text :: w[|w| - 2] == Output(from, session, TextOutput, text))
    && (forall k | 0 <= k < |w| - 2 :: Quiet(w[k]))
    && (forall k | 0 <= k < |w| - 2 && w[k].Output? :: w[k] == Output(from, session, ToolOutput, w[k].content))
    && (forall j, k | 0 <= j < k < |w| && w[j].Output? :: w[k].Output? || w[k].SetState?)
  }

  /** A worker that panics has sent nothing and left the state alone. */
  ghost predicate DiesSilent(w: seq<Effect>) {
    w != [] && w[|w| - 1].Crash?
    && forall k | 0 <= k < |w| - 1 :: Quiet(w[k]) && !w[k].Output?
  }

  lemma {:induction false} PrefixedShape(head: seq<Effect>, w: seq<Effect>, from: string, session: string)
    requires forall e | e in head :: Quiet(e) && !e.Output?
    ensures AnswersOnce(w, from, session) ==> AnswersOnce(head + w, from, session)
    ensures DiesSilent(w) ==> DiesSilent(head + w)
  {
    var s := head + w;
    assert forall k | 0 <= k < |s| :: s[k] == if k < |head| then head[k] else w[k - |head|];
    assert forall k | 0 <= k < |head| :: head[k] in head;
  }

  lemma {:induction false} OutputsShape(from: string, session: string, results: seq<string>, text: string)
    ensures AnswersOnce(ToolOutputs(from, session, results) + Closing(from, session, text), from, session)
  {
    var outs := ToolOutputs(from, session, results);
    var w := outs + Closing(from, session, text);
    assert forall k | 0 <= k < |outs| :: w[k] == outs[k];
    assert w[|w| - 2] == Output(from, session, TextOutput, text);
  }

  lemma {:induction false} DeliveryShape(from: string, session: string, l: Loop)
    requires LoopTrace(l.trace, l.final.None?) && (l.final.None? ==> l.trace != [])
    ensures if l.final.None? then DiesSilent(Delivery(from, session, l))
      else AnswersOnce(Delivery(from, session, l), from, session)
  {
    if l.final.Some? {
      hide AnswersOnce;
      OutputsShape(from, session, l.results, l.final.value);
      PrefixedShape(l.trace, ToolOutputs(from, session, l.results)
        + Closing(from, session, l.final.value), from, session);
    }
  }

  /** Every worker answers exactly once, unless it panics, and then it answers nothing. */
  lemma {:induction false} WorkerAnswersOnce(prompt: string, session: string, from: string, a: PromptAnswers)
    ensures var w := WorkerEffects(prompt, session, from, a);
      if Panics(prompt, session, a) then DiesSilent(w) else AnswersOnce(w, from, session)
  {
    hide LoopFrom, AnswersOnce, DiesSilent, Delivery, DenialText, Effective;
    var start := [Touch, PromptValidated(prompt, a.verdict)];
    var w := WorkerEffects(prompt, session, from, a);
    if Denies(a.verdict) {
      ClosingAnswers(from, session, DenialText(a.verdict));
      PrefixedShape(start, Closing(from, session, DenialText(a.verdict)), from, session);
    } else {
      var p := Effective(prompt, a.verdict);
      var swap := if a.verdict.model != "" then [HotSwap(a.verdict.model)] else [];
      var head := start + swap + [Generated(p, a.first)];
      var tail := match a.first
        case Failure(e) => Closing(from, session, "Error: " + e)
        case Success(resp) => Delivery(from, session, LoopFrom(resp, p, session, a.tools, 0));
      assert w == head + tail;
      if a.first.Failure? {
        ClosingAnswers(from, session, "Error: " + a.first.error);
      } else {
        LoopTraceShape(a.first.value, p, session, a.tools, 0);
        DeliveryShape(from, session, LoopFrom(a.first.value, p, session, a.tools, 0));
      }
      PrefixedShape(head, tail, from, session);
    }
  }

  lemma {:induction false} ClosingAnswers(from: string, session: string, text: string)
    ensures AnswersOnce(Closing(from, session, text), from, session)
  {
    var w := Closing(from, session, text);
    assert w[|w| - 2] == Output(from, session, TextOutput, text);
  }

  /** No generation, hot swap or tool call without a verdict that came without error and does not deny. */
  lemma {:induction false} WorkerFailsClosed(prompt: string, session: string, from: string, a: PromptAnswers, k: nat)
    requires k < |WorkerEffects(prompt, session, from, a)|
    requires var e := WorkerEffects(prompt, session, from, a)[k]; e.Generated? || e.Invoked? || e.HotSwap?
    ensures k > 1 && WorkerEffects(prompt, session, from, a)[1] == PromptValidated(prompt, a.verdict)
    ensures a.verdict.Verdict? && a.verdict.action != "deny"
    ensures var e := WorkerEffects(prompt, session, from, a)[k]; e.Generated? ==>
      HasPrefix(e.request,
                if a.verdict.action == "modify" && a.verdict.modified != "" then a.verdict.modified else prompt)
  {
    hide LoopFrom, DenialText, HasPrefix;
    var w := WorkerEffects(prompt, session, from, a);
    if !Denies(a.verdict) {
      var p := Effective(prompt, a.verdict);
      PrefixOfItself(p);
      if a.first.Success? {
        var l := LoopFrom(a.first.value, p, session, a.tools, 0);
        LoopRequests(a.first.value, p, session, a.tools, 0);
        assert w[k].Generated? ==> w[k] == Generated(p, a.first) || w[k] in l.trace;
      }
    }
  }

  /** The guardrail's text replaces the prompt exactly when it says "modify" and gives one. The first request is
      that text or the prompt, after the swap to the model the verdict names, if any; every later one starts
      with it. */
  lemma {:induction false} WorkerAsks(prompt: string, session: string, from: string, a: PromptAnswers)
    requires a.verdict.Verdict? && a.verdict.action != "deny"
    ensures var w := WorkerEffects(prompt, session, from, a);
      var p := if a.verdict.action == "modify" && a.verdict.modified != "" then a.verdict.modified else prompt;
      var start := [Touch, PromptValidated(prompt, a.verdict)]
        + (if a.verdict.model != "" then [HotSwap(a.verdict.model)] else []) + [Generated(p, a.first)];
      start <= w
      && forall k | |start| <= k < |w| :: !w[k].HotSwap? && (w[k].Generated? ==> HasPrefix(w[k].request, p))
  {
    hide LoopFrom, Delivery;
    var w := WorkerEffects(prompt, session, from, a);
    var p := Effective(prompt, a.verdict);
    var start := [Touch, PromptValidated(prompt, a.verdict)]
      + (if a.verdict.model != "" then [HotSwap(a.verdict.model)] else []) + [Generated(p, a.first)];
    if a.first.Success? {
      var rest := Delivery(from, session, LoopFrom(a.first.value, p, session, a.tools, 0));
      DeliveryRequests(a.first.value, p, session, a.tools, from);
      assert w == start + rest;
      assert forall k | |start| <= k < |w| :: w[k] == rest[k - |start|];
    } else {
      assert w == start + Closing(from, session, "Error: " + a.first.error);
    }
  }

  lemma {:induction false} DeliveryRequests(response: string, p: string, session: string, o: Oracle, from: string)
    ensures forall e | e in Delivery(from, session, LoopFrom(response, p, session, o, 0)) ::
      !e.HotSwap? && (e.Generated? ==> HasPrefix(e.request, p))
  {
    hide LoopFrom, HasPrefix;
    var l := LoopFrom(response, p, session, o, 0);
    LoopRequests(response, p, session, o, 0);
    LoopTraceShape(response, p, session, o, 0);
  }

  /** What the client is told when there is no response: the guardrail's error, its reason or the stock text,
      or the error of the generation; and nothing else happens. */
  lemma {:induction false} WorkerReports(prompt: string, session: string, from: string, a: PromptAnswers)
    ensures var w, v := WorkerEffects(prompt, session, from, a), a.verdict;
      var said := if v.PromptFailed? then "Guardrail error: " + v.error
        else if v.action == "deny" then
          if v.reason == "" then "Request blocked by system guardrail." else "Guardrail: " + v.reason
        else if a.first.Failure? then "Error: " + a.first.error else "";
      (v.PromptFailed? || v.action == "deny" ==>
        w == [Touch, PromptValidated(prompt, v), Output(from, session, TextOutput, said), SetState(Listening)])
      && (v.Verdict? && v.action != "deny" && a.first.Failure? ==>
        w[|w| - 2..] == [Output(from, session, TextOutput, said), SetState(Listening)]
        && forall k | 0 <= k < |w| - 2 :: !w[k].Output? && !w[k].Invoked?)
  {
    hide LoopFrom, Effective;
  }

  lemma {:induction false} PrefixOfItself(p: string)
    ensures HasPrefix(p, p)
  {
  }

  /** The worker's effects before its tool loop. */
  function BeforeLoop(prompt: string, a: PromptAnswers): seq<Effect>
    requires a.verdict.Verdict?
  {
    [Touch, PromptValidated(prompt, a.verdict)]
    + (if a.verdict.model != "" then [HotSwap(a.verdict.model)] else [])
    + [Generated(Effective(prompt, a.verdict), a.first)]
  }

  lemma {:induction false} WorkerSplits(prompt: string, session: string, from: string, a: PromptAnswers)
    requires !Denies(a.verdict) && a.first.Success?
    ensures WorkerEffects(prompt, session, from, a)
         == BeforeLoop(prompt, a)
           + Delivery(from, session, LoopFrom(a.first.value, Effective(prompt, a.verdict), session, a.tools, 0))
  {
    hide LoopFrom, Effective, Delivery;
  }

  /** From its n-th effect on, w is the loop's effects t, a tool output for each of c, one text output and the
      Listening write. */
  ghost predicate DeliveredFrom(w: seq<Effect>, n: nat, t: seq<Effect>, c: seq<string>, from: string, session: string,
      text: string)
  {
    |w| == n + |t| + |c| + 2 && w[n..n + |t|] == t
    && (forall k | 0 <= k < |c| :: w[n + |t| + k] == Output(from, session, ToolOutput, c[k]))
    && w[|w| - 2] == Output(from, session, TextOutput, text) && w[|w| - 1] == SetState(Listening)
  }

  lemma {:induction false} Delivered(head: seq<Effect>, t: seq<Effect>, outs: seq<Effect>, c: seq<string>, from: string,
      session: string, text: string)
    requires |outs| == |c| && forall k | 0 <= k < |c| :: outs[k] == Output(from, session, ToolOutput, c[k])
    ensures DeliveredFrom(head + (t + (outs + [Output(from, session, TextOutput, text), SetState(Listening)])),
                          |head|, t, c, from, session, text)
  {
    var n, m := |head|, |t|;
    var tail := outs + [Output(from, session, TextOutput, text), SetState(Listening)];
    var w := head + (t + tail);
    assert w[n..n + m] == t;
    assert forall k | 0 <= k < |tail| :: w[n + m + k] == tail[k];
  }

  /** The tool loop works on the first response and for the prompt asked. After it the worker sends the completed
      invocations of the whole run, in order, then the last response the model gave, and goes back to listening. */
  lemma {:induction false} WorkerDelivers(prompt: string, session: string, from: string, a: PromptAnswers)
    requires a.verdict.Verdict? && a.verdict.action != "deny" && a.first.Success? && !Panics(prompt, session, a)
    ensures var p := if a.verdict.action == "modify" && a.verdict.modified != "" then a.verdict.modified else prompt;
      var t := LoopFrom(a.first.value, p, session, a.tools, 0).trace;
      DeliveredFrom(WorkerEffects(prompt, session, from, a), if a.verdict.model != "" then 4 else 3, t,
                    CompletedResults(t), from, session, LastGenerated(t, a.first.value))
  {
    hide LoopFrom, CompletedResults, LastGenerated, Parse, WorkerEffects, LastFails, Generations, DeliveredFrom;
    var p := Effective(prompt, a.verdict);
    WorkerSplits(prompt, session, from, a);
    LoopConserves(a.first.value, p, session, a.tools, 0);
    LoopEnds(a.first.value, p, session, a.tools, 0);
    var t := LoopFrom(a.first.value, p, session, a.tools, 0).trace;
    var c := CompletedResults(t);
    Delivered(BeforeLoop(prompt, a), t, ToolOutputs(from, session, c), c, from, session,
      LastGenerated(t, a.first.value));
  }
}
