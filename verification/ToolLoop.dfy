/** The ten-round tool loop of internal/daemon/handlers.go: parse, validate, invoke, regenerate. */
module ToolLoop {
  import opened Wrappers
  import opened Text
  import opened ToolCalls
  import opened Protocol

  const MAX_ROUNDS: nat := 10

  /** Answers from outside, by round and by call within the round. */
  datatype Oracle = Oracle(validation: (nat, nat) -> PackageAnswer, invoke: (nat, nat) -> InvokeAnswer,
      regenerate: nat -> Result<string>)

  predicate IsToolValidated(tool: string) {
    HasPrefix(tool, "cognitiveos.package")
  }

  /** The part after the last dot, for names of three parts or more. */
  function OperationFromTool(tool: string): string {
    var parts := Split(tool, '.');
    if |parts| < 3 then "" else parts[|parts| - 1]
  }

  function Arg(call: ToolCall, k: string): string {
    if k in call.args then call.args[k] else ""
  }

  /** manifestOf is the package whose manifest is fetched for the request, "" for none. */
  function Params(call: ToolCall): PackageParams {
    var op := OperationFromTool(call.tool);
    var name := Arg(call, "name");
    var pkg := if name == "" then Arg(call, "package_name") else name;
    PackageParams(op, name, Arg(call, "version"), if op == "install" || op == "update" then pkg else "")
  }

  /** Two places of the name hold a dot. */
  predicate TwoDots(tool: string) {
    exists i, j | 0 <= i < j < |tool| :: tool[i] == '.' && tool[j] == '.'
  }

  /** op is what follows the last of two dots or more, "" if there are fewer. */
  ghost predicate OperationOf(tool: string, op: string) {
    if TwoDots(tool) then exists x: string :: '.' in x && '.' !in op && tool == x + "." + op else op == ""
  }

  /** The request to the guardrail that a call makes: its operation, its own name and version, and for
      "install" and "update" the manifest of the package named. */
  ghost predicate RequestFor(call: ToolCall, p: PackageParams) {
    OperationOf(call.tool, p.op)
    && p.name == (if "name" in call.args then call.args["name"] else "")
    && p.version == (if "version" in call.args then call.args["version"] else "")
    && p.manifestOf == (if p.op != "install" && p.op != "update" then ""
                        else if p.name != "" then p.name
                        else if "package_name" in call.args then call.args["package_name"] else "")
  }

  lemma {:induction false} SplitWhole(s: string, sep: char)
    requires sep !in s
    ensures Split(s, sep) == [s]
  {
    IndexFirst(s, sep);
  }

  lemma {:induction false} LastDot(s: string)
    requires '.' in s
    ensures exists x: string, c: string :: '.' !in c && s == x + "." + c
  {
    var n := |s| - 1;
    if s[n] == '.' {
      assert s == s[..n] + "." + "";
    } else {
      LastDot(s[..n]);
      var x: string, c: string :| '.' !in c && s[..n] == x + "." + c;
      assert s == s[..n] + [s[n]] == x + "." + (c + [s[n]]);
      assert '.' !in c + [s[n]];
    }
  }

  /** With x free of dots there is one dot, and else there are two. */
  lemma {:induction false} DotsOf(x: string, c: string)
    requires '.' !in c
    ensures TwoDots(x + "." + c) <==> '.' in x
  {
    var s := x + "." + c;
    assert s[|x|] == '.';
    if '.' in x {
      var i :| 0 <= i < |x| && x[i] == '.';
      assert s[i] == '.';
    } else {
      assert forall i | 0 <= i < |s| && s[i] == '.' :: i == |x|;
    }
  }

  lemma {:induction false} OperationIs(tool: string)
    ensures OperationOf(tool, OperationFromTool(tool))
  {
    hide Split, TwoDots;
    if '.' in tool {
      LastDot(tool);
      var x: string, c: string :| '.' !in c && tool == x + "." + c;
      DotsOf(x, c);
      SplitAppend(x, '.', c);
      SplitWhole(c, '.');
      if '.' in x {
        LastDot(x);
        var y: string, d: string :| '.' !in d && x == y + "." + d;
        SplitAppend(y, '.', d);
        SplitWhole(d, '.');
      } else {
        SplitWhole(x, '.');
      }
    } else {
      SplitWhole(tool, '.');
      NoDots(tool);
    }
  }

  lemma {:induction false} NoDots(tool: string)
    requires '.' !in tool
    ensures !TwoDots(tool)
  {
  }

  /** The description leaves no choice of the operation. */
  lemma {:induction false} OneOperation(tool: string, op: string, op': string)
    requires OperationOf(tool, op) && OperationOf(tool, op')
    ensures op == op'
  {
    if TwoDots(tool) {
      var x: string :| '.' in x && '.' !in op && tool == x + "." + op;
      var x': string :| '.' in x' && '.' !in op' && tool == x' + "." + op';
      assert tool[|x|] == '.' && tool[|x'|] == '.';
      assert forall k | |x| < k < |tool| :: tool[k] == op[k - |x| - 1];
      assert forall k | |x'| < k < |tool| :: tool[k] == op'[k - |x'| - 1];
      assert tool[|x| + 1..] == op && tool[|x'| + 1..] == op';
    }
  }

  lemma {:induction false} ParamsRequest(call: ToolCall)
    ensures RequestFor(call, Params(call))
  {
    hide OperationFromTool, OperationOf;
    OperationIs(call.tool);
  }

  function Concat(texts: seq<string>): string {
    if texts == [] then "" else texts[0] + Concat(texts[1..])
  }

  // ---------- What one call does ----------

  datatype Outcome = Denied(reason: string) | Unvalidated(error: string) | Uninvoked(error: string) | Done(text: string)
      | Panicked

  predicate Approved(v: PackageAnswer) {
    v.Decision? && v.status == "approved"
  }

  function Refusal(v: PackageAnswer): Outcome
    requires !Approved(v)
  {
    match v
    case Decision(_, reason) => Denied(if reason == "" then "operation denied by system guardrail" else reason)
    case CallFailed(e) => Unvalidated(e)
    case ConnectionLost(e) => Unvalidated(e)
  }

  function Invocation(a: InvokeAnswer): Outcome {
    match a
    case Completed(texts) => Done(Concat(texts))
    case InvokeFailed(e) => Uninvoked(e)
    case InvokePanics => Panicked
  }

  predicate Admitted(call: ToolCall, v: PackageAnswer) {
    IsToolValidated(call.tool) ==> Approved(v)
  }

  function Resolve(call: ToolCall, v: PackageAnswer, a: InvokeAnswer): Outcome {
    if Admitted(call, v) then Invocation(a) else Refusal(v)
  }

  function CallTrace(call: ToolCall, session: string, v: PackageAnswer, a: InvokeAnswer): seq<Effect> {
    (if IsToolValidated(call.tool) then [PackageValidated(call, Params(call), v)] else [])
    + (if Admitted(call, v) then [Invoked(call, session, a)] else [])
  }

  function ResultLine(tool: string, o: Outcome): string
    requires !o.Panicked?
  {
    match o
    case Unvalidated(e) => "E_PACKAGE_MANIFEST_FETCH: Cannot validate " + tool + ": " + e
    case Denied(reason) => "E_PACKAGE_DENIED: Tool " + tool + " denied: " + reason
    case Uninvoked(e) => "Error calling " + tool + ": " + e
    case Done(text) => "Tool " + tool + " returned: " + text
  }

  function ToolResult(tool: string, text: string): string {
    tool + " \U{2192} " + text
  }

  function Continuation(prompt: string, lines: seq<string>): string {
    prompt + "\n\nTool results:\n" + Join(lines, "\n") + "\n\nContinue."
  }

  // ---------- Rounds and the loop ----------

  datatype Round = Round(trace: seq<Effect>, lines: seq<string>, completed: seq<string>, panicked: bool)

  /** A round that has already had the effects t, the result lines and the completed calls c. */
  function AfterCalls(t: seq<Effect>, lines: seq<string>, c: seq<string>, r: Round): Round {
    Round(t + r.trace, lines + r.lines, c + r.completed, r.panicked)
  }

  function CompletedCall(tool: string, out: Outcome): seq<string> {
    if out.Done? then [ToolResult(tool, out.text)] else []
  }

  /** The calls of round i from the j-th on. */
  function RoundFrom(calls: seq<ToolCall>, session: string, o: Oracle, i: nat, j: nat): Round
    decreases |calls| - j
  {
    if |calls| <= j then Round([], [], [], false)
    else
      var out := Resolve(calls[j], o.validation(i, j), o.invoke(i, j));
      var t := CallTrace(calls[j], session, o.validation(i, j), o.invoke(i, j));
      if out.Panicked? then Round(t, [], [], true)
      else AfterCalls(t, [ResultLine(calls[j].tool, out)], CompletedCall(calls[j].tool, out),
        RoundFrom(calls, session, o, i, j + 1))
  }

  /** final is None when the process panicked. */
  datatype Loop = Loop(trace: seq<Effect>, final: Option<string>, results: seq<string>)

  /** A loop that has already had the effects t and the completed calls c. */
  function After(t: seq<Effect>, c: seq<string>, l: Loop): Loop {
    Loop(t + l.trace, l.final, c + l.results)
  }

  function LoopFrom(response: string, prompt: string, session: string, o: Oracle, i: nat): Loop
    decreases MAX_ROUNDS - i
  {
    if MAX_ROUNDS <= i then Loop([], Some(response), [])
    else match Parse(response)
      case SliceError => Loop([Crash], None, [])
      case Calls(calls) =>
        if calls == [] then Loop([], Some(response), [])
        else
          var r := RoundFrom(calls, session, o, i, 0);
          if r.panicked then Loop(r.trace + [Crash], None, r.completed)
          else
            var t := r.trace + [Generated(Continuation(prompt, r.lines), o.regenerate(i))];
            match o.regenerate(i)
            case Failure(_) => Loop(t, Some(response), r.completed)
            case Success(next) => After(t, r.completed, LoopFrom(next, prompt, session, o, i + 1))
  }

  // ---------- The source's loops ----------

  method JoinTexts(texts: seq<string>) returns (resultText: string)
    ensures resultText == Concat(texts)
  {
    resultText := "";
    for n := 0 to |texts|
      invariant resultText + Concat(texts[n..]) == Concat(texts)
    {
      resultText := resultText + texts[n];
    }
  }

  /** One call: validate if the name asks for it, then invoke. */
  method CallTool(tc: ToolCall, sessionID: string, v: PackageAnswer, a: InvokeAnswer)
      returns (out: Outcome, ghost trace: seq<Effect>)
    ensures out == Resolve(tc, v, a) && trace == CallTrace(tc, sessionID, v, a)
    ensures HasPrefix(tc.tool, "cognitiveos.package") ==>
      trace != [] && trace[0].PackageValidated? && RequestFor(tc, trace[0].params)
  {
    hide Params, HasPrefix, RequestFor;
    ParamsRequest(tc);
    trace := [];
    if IsToolValidated(tc.tool) {
      trace := trace + [PackageValidated(tc, Params(tc), v)];
      if !v.Decision? {
        return Unvalidated(v.error), trace;
      }
      if v.status != "approved" {
        var reason := v.reason;
        if reason == "" {
          reason := "operation denied by system guardrail";
        }
        return Denied(reason), trace;
      }
    }
    trace := trace + [Invoked(tc, sessionID, a)];
    match a
    case InvokePanics => return Panicked, trace;
    case InvokeFailed(e) => return Uninvoked(e), trace;
    case Completed(texts) =>
      var resultText := JoinTexts(texts);
      return Done(resultText), trace;
  }

  lemma {:induction false} AfterCallsTwice(t: seq<Effect>, ls: seq<string>, c: seq<string>,
                                           t': seq<Effect>, ls': seq<string>, c': seq<string>, r: Round)
    ensures AfterCalls(t, ls, c, AfterCalls(t', ls', c', r)) == AfterCalls(t + t', ls + ls', c + c', r)
  {
    assert t + (t' + r.trace) == t + t' + r.trace;
    assert ls + (ls' + r.lines) == ls + ls' + r.lines;
    assert c + (c' + r.completed) == c + c' + r.completed;
  }

  /** The loop over the calls of one response. */
  method RunRound(toolCalls: seq<ToolCall>, sessionID: string, o: Oracle, i: nat)
      returns (results: seq<string>, completed: seq<string>, panicked: bool, ghost trace: seq<Effect>)
    ensures var r := RoundFrom(toolCalls, sessionID, o, i, 0);
      results == r.lines && completed == r.completed && panicked == r.panicked
    ensures trace == RoundFrom(toolCalls, sessionID, o, i, 0).trace
  {
    hide Resolve, CallTrace, ResultLine, ToolResult;
    results, completed, panicked, trace := [], [], false, [];
    for j := 0 to |toolCalls|
      invariant !panicked
      invariant AfterCalls(trace, results, completed, RoundFrom(toolCalls, sessionID, o, i, j))
             == RoundFrom(toolCalls, sessionID, o, i, 0)
    {
      var tc := toolCalls[j];
      var out, t := CallTool(tc, sessionID, o.validation(i, j), o.invoke(i, j));
      if out.Panicked? {
        return results, completed, true, trace + t;
      }
      AfterCallsTwice(trace, results, completed, t, [ResultLine(tc.tool, out)], CompletedCall(tc.tool, out),
                      RoundFrom(toolCalls, sessionID, o, i, j + 1));
      trace := trace + t;
      results := results + [ResultLine(tc.tool, out)];
      completed := completed + CompletedCall(tc.tool, out);
    }
  }

  lemma {:induction false} AfterAfter(t: seq<Effect>, c: seq<string>, t': seq<Effect>, c': seq<string>, l: Loop)
    ensures After(t, c, After(t', c', l)) == After(t + t', c + c', l)
  {
    assert t + (t' + l.trace) == t + t' + l.trace;
    assert c + (c' + l.results) == c + c' + l.results;
  }

  /** toolLoop: the locals are those of the source, the trace is the ghost record of its effects. */
  method RunToolLoop(response: string, originalPrompt: string, sessionID: string, o: Oracle)
      returns (final: Option<string>, toolResults: seq<string>, ghost trace: seq<Effect>)
    ensures var l := LoopFrom(response, originalPrompt, sessionID, o, 0); final == l.final && toolResults == l.results
    ensures trace == LoopFrom(response, originalPrompt, sessionID, o, 0).trace
  {
    hide Parse, RoundFrom, Continuation;
    var currentResponse := response;
    toolResults, trace := [], [];
    for i := 0 to MAX_ROUNDS
      invariant After(trace, toolResults, LoopFrom(currentResponse, originalPrompt, sessionID, o, i))
             == LoopFrom(response, originalPrompt, sessionID, o, 0)
    {
      var parsed := ParseToolCalls(currentResponse);
      if parsed.SliceError? {
        return None, toolResults, trace + [Crash];
      }
      if |parsed.calls| == 0 {
        return Some(currentResponse), toolResults, trace;
      }
      var results, completed, panicked, t := RunRound(parsed.calls, sessionID, o, i);
      ghost var trace0, results0 := trace, toolResults;
      toolResults := toolResults + completed;
      if panicked {
        assert trace0 + (t + [Crash]) == trace0 + t + [Crash];
        return None, toolResults, trace + t + [Crash];
      }
      var newResp := o.regenerate(i);
      ghost var t' := t + [Generated(Continuation(originalPrompt, results), newResp)];
      trace := trace + t';
      if newResp.Failure? {
        return Some(currentResponse), toolResults, trace;
      }
      AfterAfter(trace0, results0, t', completed, LoopFrom(newResp.value, originalPrompt, sessionID, o, i + 1));
      currentResponse := newResp.value;
    }
    final := Some(currentResponse);
  }
}
