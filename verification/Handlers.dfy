/** The message handlers: the effects each has, in order, and the daemon that has them. */
module Handlers {
  import opened Wrappers
  import opened Text
  import opened ToolCalls
  import opened Protocol
  import opened ToolLoop
  import opened Worker

  const MAX_PAYLOAD: nat := 1048576

  datatype MessageKind =
    | InputForward | SystemCode | McpRegister | McpUnregister | McpResult
    | AuditRequest | StatusRequest | WideModelLoad | WideModelUnload | CpmTune | UnknownKind

  function KindOf(msgType: string): MessageKind {
    match msgType
    case "input_forward" => InputForward
    case "system_code" => SystemCode
    case "mcp_register" => McpRegister
    case "mcp_unregister" => McpUnregister
    case "mcp_result" => McpResult
    case "audit_request" => AuditRequest
    case "status_request" => StatusRequest
    case "wide_model_load" => WideModelLoad
    case "wide_model_unload" => WideModelUnload
    case "cpm_tune" => CpmTune
    case _ => UnknownKind
  }

  datatype Code = Wake | IdleCode | SecurityCode | ResetCode | UnlockCode | UnknownCode

  function CodeOf(code: string): Code {
    match code
    case "wake" => Wake
    case "idle" => IdleCode
    case "security" => SecurityCode
    case "reset" => ResetCode
    case "unlock" => UnlockCode
    case _ => UnknownCode
  }

  datatype ManifestRead = NoManifest | BadManifest | Manifest(tool: string)

  /** What the world answers while one message is handled. */
  datatype Answers = Answers(rawReady: bool, codeStatus: Result<string>, rawStillReady: bool,
                             unlockStatus: Result<string>, activeModel: string, modelMissing: bool,
                             load: Result<string>, unload: Result<string>, manifest: ManifestRead,
                             freshSession: string, worker: PromptAnswers)

  /** How a shutdown goes: it waits for ever in its broadcast, for a clientsMu another shutdown keeps; it
      panics, as the listener was closed before; its client loop waits for ever for clientsMu; or it ends. */
  datatype Fate = BroadcastWaits | ListenerClosed | LoopWaits | Ends

  function Fail(env: Envelope, code: string): Effect {
    Reply(ResponseType(env.msgType), env.id, Error(code))
  }

  function Okay(env: Envelope): Effect {
    Reply(ResponseType(env.msgType), env.id, Ok)
  }

  function SessionOf(env: Envelope, a: Answers): string
    requires env.body.Fields?
  {
    if env.body.sessionID == "" then a.freshSession else env.body.sessionID
  }

  predicate AcceptedInput(env: Envelope) {
    KindOf(env.msgType).InputForward? && env.size <= MAX_PAYLOAD && env.body.Fields? && env.body.content != ""
  }

  function InputEffects(env: Envelope): seq<Effect> {
    if env.body.Malformed? || env.body.content == "" then [Fail(env, "E_INVALID_PAYLOAD")]
    else [SetState(Processing), Okay(env), SpawnWorker]
  }

  function ShutdownEffects(reason: string, fate: Fate): seq<Effect> {
    [SetState(Shutdown)]
    + if fate.BroadcastWaits? then [Hang]
      else
        [Broadcast(reason), UnloadModel(reason), StopServers, CloseRawClient]
        + match fate
          case ListenerClosed => [Crash]
          case LoopWaits => [CloseListener, Hang]
          case _ => [CloseListener, CloseClients, HostCommands(reason)]
  }

  function WithReply(effects: seq<Effect>, fate: Fate, reply: Effect): seq<Effect> {
    effects + if fate.Ends? then [reply] else []
  }

  predicate SoftwareOrigin(origin: string) {
    origin == "keyboard" || origin == "voice" || origin == "cli"
  }

  function UnlockEffects(env: Envelope, a: Answers): seq<Effect>
    requires env.body.Fields?
  {
    if env.body.unlockCode == "" then [Fail(env, "E_INVALID_PAYLOAD")]
    else if !a.rawStillReady then [Okay(env)]
    else match a.unlockStatus
      case Failure(_) => [UnlockChecked, Fail(env, "E_RAW_MODEL_ERROR")]
      case Success(status) => if status != "accepted" then [UnlockChecked, Fail(env, "E_UNLOCK_DENIED")]
        else [UnlockChecked, Okay(env)]
  }

  /** The switch of handleSystemCode, once the code has passed validation. */
  function CodeEffects(env: Envelope, code: Code, a: Answers, fate: Fate): seq<Effect>
    requires env.body.Fields?
  {
    match code
    case Wake => [SetState(Listening), Okay(env)]
    case IdleCode => [SetState(IdleRequested), UnloadModel("idle"), StopServers, SetState(Idle), Okay(env)]
    case SecurityCode =>
      WithReply([SetState(Security), UnloadModel("security"), StopServers]
        + ShutdownEffects("security_code", fate), fate, Okay(env))
    case ResetCode =>
      WithReply([UnloadModel("reset"), StopServers] + ShutdownEffects("reset_code", fate), fate, Okay(env))
    case UnlockCode => UnlockEffects(env, a)
    case UnknownCode => [Fail(env, "E_INVALID_PAYLOAD")]
  }

  function SystemCodeEffects(env: Envelope, a: Answers, fate: Fate): seq<Effect> {
    if env.body.Malformed? then [Fail(env, "E_INVALID_PAYLOAD")]
    else
      var code := CodeOf(ToLower(env.body.code));
      if (code.SecurityCode? || code.ResetCode?) && SoftwareOrigin(ToLower(env.body.origin))
        then [Fail(env, "E_UNAUTHORIZED")]
      else if !a.rawReady then CodeEffects(env, code, a, fate)
      else match a.codeStatus
        case Failure(_) => [CodeValidated, Fail(env, "E_RAW_MODEL_ERROR")]
        case Success(status) =>
          if status != "valid" then [CodeValidated, Fail(env, "E_INVALID_CODE")]
            else [CodeValidated] + CodeEffects(env, code, a, fate)
  }

  function LoadEffects(env: Envelope, a: Answers): seq<Effect> {
    if env.body.Malformed? then [Fail(env, "E_INVALID_PAYLOAD")]
    else if a.modelMissing then [Fail(env, "E_MODEL_NOT_FOUND")]
    else
      [LoadModel(if env.body.modelPath == "" then a.activeModel else env.body.modelPath),
       if a.load.Failure? then Fail(env, "E_MODEL_LOAD_FAILED") else Okay(env)]
  }

  function UnloadEffects(env: Envelope, a: Answers): seq<Effect> {
    if env.body.Malformed? then [Fail(env, "E_INVALID_PAYLOAD")]
    else
      [UnloadModel(if env.body.reason == "" then "requested" else env.body.reason),
       if a.unload.Failure? then Fail(env, "E_MODEL_UNLOAD_FAILED") else Okay(env)]
  }

  function RegisterEffects(env: Envelope): seq<Effect> {
    if env.body.Malformed? || env.body.serverName == "" then [Fail(env, "E_INVALID_PAYLOAD")]
    else [RegisterServer(env.body.serverName), Okay(env)]
  }

  function UnregisterEffects(env: Envelope): seq<Effect> {
    if env.body.Malformed? || env.from == "" then [Fail(env, "E_INVALID_PAYLOAD")]
    else [UnregisterServer(env.from), Okay(env)]
  }

  function TuneEffects(env: Envelope, a: Answers): seq<Effect> {
    if env.body.Malformed? || env.body.package == "" then [Fail(env, "E_INVALID_PAYLOAD")]
    else match a.manifest
      case NoManifest => [Fail(env, "E_NOT_FOUND")]
      case BadManifest => [Fail(env, "E_INVALID_MANIFEST")]
      case Manifest(tool) => if tool == "" then [Fail(env, "E_NOT_SUPPORTED")] else [SpawnTune, Okay(env)]
  }

  /** HandleMessage past its state check. */
  function HandleEffects(env: Envelope, a: Answers, fate: Fate): seq<Effect> {
    if env.size > MAX_PAYLOAD then [Fail(env, "E_TOO_LARGE")]
    else match KindOf(env.msgType)
      case InputForward => InputEffects(env)
      case SystemCode => SystemCodeEffects(env, a, fate)
      case McpRegister => RegisterEffects(env)
      case McpUnregister => UnregisterEffects(env)
      case McpResult => if env.body.Malformed? then [Fail(env, "E_INVALID_PAYLOAD")] else []
      case AuditRequest => [Okay(env)]
      case StatusRequest => [Okay(env)]
      case WideModelLoad => LoadEffects(env, a)
      case WideModelUnload => UnloadEffects(env, a)
      case CpmTune => TuneEffects(env, a)
      case UnknownKind => [Fail(env, "E_UNKNOWN_TYPE")]
  }

  function Refusal(env: Envelope): seq<Effect> {
    [Fail(env, "E_SHUTDOWN")]
  }

  function MessageEffects(env: Envelope, a: Answers, seen: State, fate: Fate): seq<Effect> {
    if seen == Shutdown then Refusal(env) else HandleEffects(env, a, fate)
  }

  // ---------- Reply discipline ----------

  function ReplyPart(e: Effect): seq<Effect> {
    if e.Reply? then [e] else []
  }

  function ReplyParts(effects: seq<Effect>): seq<seq<Effect>> {
    seq(|effects|, k requires 0 <= k < |effects| => ReplyPart(effects[k]))
  }

  function Replies(effects: seq<Effect>): seq<Effect> {
    Flatten(ReplyParts(effects))
  }

  lemma {:induction false} RepliesAppend(a: seq<Effect>, b: seq<Effect>)
    ensures Replies(a + b) == Replies(a) + Replies(b)
  {
    hide ReplyPart, Flatten;
    assert ReplyParts(a + b) == ReplyParts(a) + ReplyParts(b);
    FlattenAppend(ReplyParts(a), ReplyParts(b));
  }

  lemma {:induction false} ReplyAlone(e: Effect)
    ensures Replies([e]) == ReplyPart(e)
  {
    assert ReplyParts([e]) == [ReplyPart(e)];
    FlattenOne(ReplyPart(e));
  }

  predicate RepliesTo(r: Effect, env: Envelope) {
    r.Reply? && r.rtype == ResponseType(env.msgType) && r.id == env.id
  }

  /** The messages nobody answers: a well-formed mcp_result of allowed size, before shutdown. */
  predicate Unanswered(env: Envelope, seen: State) {
    KindOf(env.msgType).McpResult? && env.body.Fields? && env.size <= MAX_PAYLOAD && seen != Shutdown
  }

  /** The handler never returns: it waits for ever or takes the process with it. */
  predicate Stops(effects: seq<Effect>) {
    Hang in effects || Crash in effects
  }

  /** effects holds one reply, to env. */
  ghost predicate OneReply(effects: seq<Effect>, env: Envelope) {
    exists r :: RepliesTo(r, env) && Replies(effects) == [r]
  }

  lemma {:induction false} NoReplies(effects: seq<Effect>)
    requires forall e | e in effects :: !e.Reply?
    ensures Replies(effects) == []
  {
    assert forall k | 0 <= k < |effects| :: ReplyParts(effects)[k] == [];
    FlattenEmpties(ReplyParts(effects));
  }

  lemma {:induction false} SingleReply(head: seq<Effect>, r: Effect, tail: seq<Effect>, env: Envelope)
    requires forall e | e in head + tail :: !e.Reply?
    requires RepliesTo(r, env)
    ensures OneReply(head + [r] + tail, env)
  {
    assert forall e | e in head :: e in head + tail;
    assert forall e | e in tail :: e in head + tail;
    NoReplies(head);
    NoReplies(tail);
    RepliesAppend(head, [r] + tail);
    RepliesAppend([r], tail);
    assert head + [r] + tail == head + ([r] + tail);
    ReplyAlone(r);
  }

  lemma {:induction false} ReplyAfter(effects: seq<Effect>, n: nat, env: Envelope)
    requires n < |effects| && RepliesTo(effects[n], env)
    requires forall k | 0 <= k < |effects| && k != n :: !effects[k].Reply?
    ensures OneReply(effects, env)
  {
    assert effects == effects[..n] + [effects[n]] + effects[n + 1..];
    SingleReply(effects[..n], effects[n], effects[n + 1..], env);
  }

  lemma {:induction false} ShutdownHas(reason: string, fate: Fate)
    ensures forall e | e in ShutdownEffects(reason, fate) :: !e.Reply?
    ensures Stops(ShutdownEffects(reason, fate)) <==> !fate.Ends?
    ensures SetState(Shutdown) in ShutdownEffects(reason, fate)
  {
    var s := ShutdownEffects(reason, fate);
    assert s[0] == SetState(Shutdown);
    assert !fate.Ends? ==> s[|s| - 1] in {Hang, Crash};
  }

  /** A shutdown inside a handler: it stops there, or goes on to the handler's one reply. */
  lemma {:induction false} ShutdownReplies(env: Envelope, head: seq<Effect>, reason: string, fate: Fate)
    requires forall e | e in head :: !e.Reply? && !e.Hang? && !e.Crash?
    ensures var w := WithReply(head + ShutdownEffects(reason, fate), fate, Okay(env));
      (Stops(w) <==> !fate.Ends?) && if fate.Ends? then OneReply(w, env) else Replies(w) == []
  {
    hide ShutdownEffects, ResponseType;
    ShutdownHas(reason, fate);
    var s := head + ShutdownEffects(reason, fate);
    var w := WithReply(s, fate, Okay(env));
    assert forall e | e in s :: e in head || e in ShutdownEffects(reason, fate);
    assert !fate.Ends? ==> forall e | e in ShutdownEffects(reason, fate) :: e in w;
    if fate.Ends? {
      assert w == s + [Okay(env)] + [];
      SingleReply(s, Okay(env), [], env);
    } else {
      NoReplies(w);
    }
  }

  predicate ShutdownCode(code: Code) {
    code.SecurityCode? || code.ResetCode?
  }

  lemma {:induction false} CodeReplies(env: Envelope, code: Code, a: Answers, head: seq<Effect>, fate: Fate)
    requires env.body.Fields?
    requires forall e | e in head :: !e.Reply? && !e.Hang? && !e.Crash?
    ensures var w := head + CodeEffects(env, code, a, fate);
      (Stops(w) <==> ShutdownCode(code) && !fate.Ends?) && if Stops(w) then Replies(w) == [] else OneReply(w, env)
  {
    hide ResponseType, Replies, OneReply, ShutdownEffects;
    var c := CodeEffects(env, code, a, fate);
    match code {
      case SecurityCode =>
        var h := head + [SetState(Security), UnloadModel("security"), StopServers];
        ShutdownReplies(env, h, "security_code", fate);
        assert head + c == WithReply(h + ShutdownEffects("security_code", fate), fate, Okay(env));
      case ResetCode =>
        var h := head + [UnloadModel("reset"), StopServers];
        ShutdownReplies(env, h, "reset_code", fate);
        assert head + c == WithReply(h + ShutdownEffects("reset_code", fate), fate, Okay(env));
      case _ =>
        ReplyAfter(head + c, |head + c| - 1, env);
    }
  }

  lemma {:induction false} ShortReply(w: seq<Effect>, env: Envelope)
    requires |w| == 1 || (|w| == 2 && !w[0].Reply? && !w[0].Hang? && !w[0].Crash?)
    requires RepliesTo(w[|w| - 1], env)
    ensures OneReply(w, env) && !Stops(w)
  {
    ReplyAfter(w, |w| - 1, env);
  }

  // ---------- The gate before a system code ----------

  /** Well-formed, not a security or reset code from software, and valid to a ready raw model. */
  predicate CodePasses(env: Envelope, a: Answers) {
    env.body.Fields?
    && (ShutdownCode(CodeOf(ToLower(env.body.code))) ==> !SoftwareOrigin(ToLower(env.body.origin)))
    && (a.rawReady ==> a.codeStatus == Success("valid"))
  }

  /** The message is handled as a system code. */
  predicate IsCode(env: Envelope, seen: State) {
    seen != Shutdown && env.size <= MAX_PAYLOAD && KindOf(env.msgType).SystemCode?
  }

  /** The messages that shut the daemon down: a security or reset code that passes the gate. */
  predicate ShutsDown(env: Envelope, a: Answers, seen: State) {
    IsCode(env, seen) && CodePasses(env, a) && ShutdownCode(CodeOf(ToLower(env.body.code)))
  }

  lemma {:induction false} GateKeeps(env: Envelope, a: Answers, fate: Fate)
    ensures var w := SystemCodeEffects(env, a, fate);
      if CodePasses(env, a) then
        w == (if a.rawReady then [CodeValidated] else []) + CodeEffects(env, CodeOf(ToLower(env.body.code)), a, fate)
      else (|w| == 1 || (|w| == 2 && w[0] == CodeValidated)) && RepliesTo(w[|w| - 1], env) && w[|w| - 1].status.Error?
  {
    hide CodeOf, ToLower, SoftwareOrigin, CodeEffects, ResponseType;
    if CodePasses(env, a) {
      var c := CodeEffects(env, CodeOf(ToLower(env.body.code)), a, fate);
      assert [] + c == c;
    }
  }

  lemma {:induction false} SystemCodeReplies(env: Envelope, a: Answers, fate: Fate)
    ensures var w := SystemCodeEffects(env, a, fate);
      (Stops(w) <==> CodePasses(env, a) && ShutdownCode(CodeOf(ToLower(env.body.code))) && !fate.Ends?)
      && if Stops(w) then Replies(w) == [] else OneReply(w, env)
  {
    hide CodeOf, ToLower, CodePasses, SystemCodeEffects, CodeEffects, ShutdownCode, RepliesTo, OneReply, Stops,
         Replies;
    GateKeeps(env, a, fate);
    if CodePasses(env, a) {
      PassedIsWellFormed(env, a);
      CodeReplies(env, CodeOf(ToLower(env.body.code)), a, if a.rawReady then [CodeValidated] else [], fate);
    } else {
      ShortReply(SystemCodeEffects(env, a, fate), env);
    }
  }

  lemma {:induction false} PassedIsWellFormed(env: Envelope, a: Answers)
    requires CodePasses(env, a)
    ensures env.body.Fields?
  {
  }

  /** A handler that returns has attempted exactly one direct reply, with the request's id and mapped type,
      or none to an unanswered message. It does not return, and has attempted none, exactly if it shuts the
      daemon down and that shutdown does not end. */
  lemma {:induction false} MessageReplies(env: Envelope, a: Answers, seen: State, fate: Fate)
    ensures var w := MessageEffects(env, a, seen, fate);
      (Stops(w) <==> ShutsDown(env, a, seen) && !fate.Ends?)
      && if Stops(w) then Replies(w) == []
         else if Unanswered(env, seen) then w == []
         else OneReply(w, env)
  {
    hide KindOf, ResponseType, OneReply, Replies, SystemCodeEffects, CodePasses, ShutdownCode, CodeOf, ToLower;
    var w := MessageEffects(env, a, seen, fate);
    if IsCode(env, seen) {
      SystemCodeReplies(env, a, fate);
    } else if seen != Shutdown && AcceptedInput(env) {
      ReplyAfter(w, 1, env);
    } else if w != [] {
      match KindOf(env.msgType) {
        case WideModelLoad =>
        case WideModelUnload =>
        case CpmTune =>
        case _ =>
      }
      ShortReply(w, env);
    }
  }

  // ---------- What a message writes ----------

  /** The state that handling the message leaves, if it writes one and nobody else writes after it. */
  function Written(env: Envelope, a: Answers, seen: State): Option<State> {
    if seen == Shutdown then None
    else if AcceptedInput(env) then Some(Processing)
    else if !IsCode(env, seen) || !CodePasses(env, a) then None
    else match CodeOf(ToLower(env.body.code))
      case Wake => Some(Listening)
      case IdleCode => Some(Idle)
      case SecurityCode => Some(Shutdown)
      case ResetCode => Some(Shutdown)
      case _ => None
  }

  /** What a code that passed the gate needs besides to be answered with ok, if its handler returns. */
  predicate Accepts(env: Envelope, a: Answers)
    requires env.body.Fields?
  {
    match CodeOf(ToLower(env.body.code))
    case UnlockCode => env.body.unlockCode != "" && (a.rawStillReady ==> a.unlockStatus == Success("accepted"))
    case UnknownCode => false
    case _ => true
  }

  /** The system codes answered with ok, among those whose handler returns, are exactly those that pass the
      gate and are accepted there. */
  lemma {:induction false} CodeAccepted(env: Envelope, a: Answers, fate: Fate)
    requires !Stops(SystemCodeEffects(env, a, fate))
    ensures Okay(env) in SystemCodeEffects(env, a, fate) <==> CodePasses(env, a) && Accepts(env, a)
  {
    hide KindOf, CodeOf, ToLower, ResponseType, CodePasses, SystemCodeEffects, ShutdownEffects;
    var w := SystemCodeEffects(env, a, fate);
    GateKeeps(env, a, fate);
    if CodePasses(env, a) {
      PassedIsWellFormed(env, a);
      SystemCodeReplies(env, a, fate);
      var c := CodeEffects(env, CodeOf(ToLower(env.body.code)), a, fate);
      assert c[|c| - 1] == w[|w| - 1];
      ShutdownHas("security_code", fate);
      ShutdownHas("reset_code", fate);
    }
  }
}
