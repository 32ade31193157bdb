/** What each message does, in the words clients write: message types, codes and origins as text, codes and
    origins in any case, and the replies by the types and error codes they carry. */
module Wording {
  import opened Wrappers
  import opened Text
  import opened Protocol
  import opened Worker
  import opened Handlers

  // ---------- Words ----------

  /** text is the word, letter by letter, in whatever case. */
  predicate Spells(text: string, word: string) {
    |text| == |word| && forall i | 0 <= i < |text| ::
      text[i] == word[i] || ('A' <= text[i] <= 'Z' && text[i] as int + 32 == word[i] as int)
  }

  predicate Letters(word: string) {
    forall c | c in word :: 'a' <= c <= 'z'
  }

  lemma {:induction false} LowerSpells(text: string, word: string)
    requires Letters(word)
    ensures ToLower(text) == word <==> Spells(text, word)
  {
    var low := ToLower(text);
    assert forall i | 0 <= i < |text| :: low[i] == if 'A' <= text[i] <= 'Z' then text[i] - 'A' + 'a' else text[i];
    if Spells(text, word) {
      forall i | 0 <= i < |text|
        ensures low[i] == word[i]
      {
        assert word[i] in word;
      }
    }
  }

  /** The two codes that only a physical trigger may give. */
  predicate Reserved(code: string) {
    Spells(code, "security") || Spells(code, "reset")
  }

  lemma {:induction false} CodesAreWords(code: string)
    ensures CodeOf(ToLower(code)) == if Spells(code, "wake") then Wake else if Spells(code, "idle") then IdleCode
      else if Spells(code, "security") then SecurityCode else if Spells(code, "reset") then ResetCode
      else if Spells(code, "unlock") then UnlockCode else UnknownCode
    ensures ShutdownCode(CodeOf(ToLower(code))) <==> Reserved(code)
  {
    hide ToLower, Spells;
    LowerSpells(code, "wake");
    LowerSpells(code, "idle");
    LowerSpells(code, "security");
    LowerSpells(code, "reset");
    LowerSpells(code, "unlock");
  }

  /** An origin that is software: the keyboard, the voice or the command line. */
  predicate FromSoftware(origin: string) {
    Spells(origin, "keyboard") || Spells(origin, "voice") || Spells(origin, "cli")
  }

  lemma {:induction false} SoftwareWords(origin: string)
    ensures SoftwareOrigin(ToLower(origin)) <==> FromSoftware(origin)
  {
    hide ToLower, Spells;
    LowerSpells(origin, "keyboard");
    LowerSpells(origin, "voice");
    LowerSpells(origin, "cli");
  }

  // ---------- System codes ----------

  /** The code is not a reserved one from software, and a ready raw model calls it valid. */
  predicate Passes(env: Envelope, a: Answers) {
    env.body.Fields? && !(Reserved(env.body.code) && FromSoftware(env.body.origin))
    && (a.rawReady ==> a.codeStatus == Success("valid"))
  }

  /** The effects of a shutdown that ends. */
  function ShutdownSteps(reason: string): seq<Effect> {
    [SetState(Shutdown), Broadcast(reason), UnloadModel(reason), StopServers, CloseRawClient, CloseListener,
     CloseClients, HostCommands(reason)]
  }

  /** What a shutdown and the reply after it come to: a shutdown that does not end stops at its broadcast, at the
      listener or at its client loop, and nothing is replied. */
  ghost predicate ShutDown(w: seq<Effect>, reason: string, fate: Fate, reply: Effect) {
    match fate
    case BroadcastWaits => w == ShutdownSteps(reason)[..1] + [Hang]
    case ListenerClosed => w == ShutdownSteps(reason)[..5] + [Crash]
    case LoopWaits => w == ShutdownSteps(reason)[..6] + [Hang]
    case Ends => w == ShutdownSteps(reason) + [reply]
  }

  /** w is what a code that passes does. */
  ghost predicate CodeDone(w: seq<Effect>, env: Envelope, a: Answers, fate: Fate)
    requires env.body.Fields?
  {
    var code, ok := env.body.code, Reply("code_accepted", env.id, Ok);
    if Spells(code, "wake") then w == [SetState(Listening), ok]
    else if Spells(code, "idle") then
      w == [SetState(IdleRequested), UnloadModel("idle"), StopServers, SetState(Idle), ok]
    else if Spells(code, "security") then
      |w| >= 3 && w[..3] == [SetState(Security), UnloadModel("security"), StopServers]
      && ShutDown(w[3..], "security_code", fate, ok)
    else if Spells(code, "reset") then
      |w| >= 2 && w[..2] == [UnloadModel("reset"), StopServers] && ShutDown(w[2..], "reset_code", fate, ok)
    else if Spells(code, "unlock") then
      if env.body.unlockCode == "" then w == [Reply("code_accepted", env.id, Error("E_INVALID_PAYLOAD"))]
      else if !a.rawStillReady then w == [ok]
      else if a.unlockStatus.Failure? then
        w == [UnlockChecked, Reply("code_accepted", env.id, Error("E_RAW_MODEL_ERROR"))]
      else if a.unlockStatus.value != "accepted" then
        w == [UnlockChecked, Reply("code_accepted", env.id, Error("E_UNLOCK_DENIED"))]
      else w == [UnlockChecked, ok]
    else w == [Reply("code_accepted", env.id, Error("E_INVALID_PAYLOAD"))]
  }

  /** w is what a "system_code" message does. */
  ghost predicate CodeAsSaid(w: seq<Effect>, env: Envelope, a: Answers, fate: Fate) {
    if env.body.Malformed? then w == [Reply("code_accepted", env.id, Error("E_INVALID_PAYLOAD"))]
    else if Reserved(env.body.code) && FromSoftware(env.body.origin) then
      w == [Reply("code_accepted", env.id, Error("E_UNAUTHORIZED"))]
    else if !a.rawReady then CodeDone(w, env, a, fate)
    else
      w != [] && w[0] == CodeValidated
      && match a.codeStatus
         case Failure(_) => w[1..] == [Reply("code_accepted", env.id, Error("E_RAW_MODEL_ERROR"))]
         case Success(status) =>
           if status == "valid" then CodeDone(w[1..], env, a, fate)
           else w[1..] == [Reply("code_accepted", env.id, Error("E_INVALID_CODE"))]
  }

  lemma {:induction false} ShutdownSaid(reason: string, fate: Fate, reply: Effect)
    ensures ShutDown(WithReply(ShutdownEffects(reason, fate), fate, reply), reason, fate, reply)
  {
    var w := WithReply(ShutdownEffects(reason, fate), fate, reply);
    assert !fate.Ends? ==> w == ShutdownEffects(reason, fate);
  }

  lemma {:induction false} CodeReplyType(env: Envelope)
    requires env.msgType == "system_code"
    ensures ResponseType(env.msgType) == "code_accepted"
  {
  }

  lemma {:induction false} ReservedSaid(env: Envelope, code: Code, a: Answers, fate: Fate, reason: string)
    requires env.body.Fields? && env.msgType == "system_code" && ShutdownCode(code)
    requires reason == if code.SecurityCode? then "security_code" else "reset_code"
    ensures var w, n := CodeEffects(env, code, a, fate), if code.SecurityCode? then 3 else 2;
      |w| >= n && ShutDown(w[n..], reason, fate, Reply("code_accepted", env.id, Ok))
      && w[..n] == if code.SecurityCode? then [SetState(Security), UnloadModel("security"), StopServers]
                   else [UnloadModel("reset"), StopServers]
  {
    hide ShutdownEffects, ShutDown, ResponseType;
    CodeReplyType(env);
    ShutdownSaid(reason, fate, Okay(env));
    var w, n := CodeEffects(env, code, a, fate), if code.SecurityCode? then 3 else 2;
    assert w[n..] == WithReply(ShutdownEffects(reason, fate), fate, Okay(env));
  }

  lemma {:induction false} DoneAsSaid(env: Envelope, a: Answers, fate: Fate)
    requires env.body.Fields? && env.msgType == "system_code"
    ensures CodeDone(CodeEffects(env, CodeOf(ToLower(env.body.code)), a, fate), env, a, fate)
  {
    hide Spells, ToLower, CodeOf, ResponseType, ShutDown, ShutdownEffects;
    CodesAreWords(env.body.code);
    CodeReplyType(env);
    ReservedSaid(env, SecurityCode, a, fate, "security_code");
    ReservedSaid(env, ResetCode, a, fate, "reset_code");
  }

  lemma {:induction false} CodesAsSaid(env: Envelope, a: Answers, fate: Fate)
    requires env.msgType == "system_code"
    ensures CodeAsSaid(SystemCodeEffects(env, a, fate), env, a, fate)
  {
    hide Spells, ToLower, CodeOf, SoftwareOrigin, ResponseType, CodeDone, CodeEffects;
    CodeReplyType(env);
    if env.body.Fields? {
      CodesAreWords(env.body.code);
      SoftwareWords(env.body.origin);
      DoneAsSaid(env, a, fate);
      var c := CodeEffects(env, CodeOf(ToLower(env.body.code)), a, fate);
      assert ([CodeValidated] + c)[1..] == c;
      FailTail(env, "E_RAW_MODEL_ERROR");
      FailTail(env, "E_INVALID_CODE");
    }
  }

  lemma {:induction false} FailTail(env: Envelope, code: string)
    ensures [CodeValidated, Fail(env, code)][1..] == [Fail(env, code)]
  {
  }

  // ---------- Messages ----------

  /** w is what a message of one of the ten types but "system_code" does, or one of another type. */
  ghost predicate TypeAsSaid(w: seq<Effect>, env: Envelope, a: Answers)
    requires env.msgType != "system_code"
  {
    var t, id, bad := env.msgType, env.id, Error("E_INVALID_PAYLOAD");
    var empty := env.body.Malformed?;
    if t == "input_forward" then
      if empty || env.body.content == "" then w == [Reply("input_accepted", id, bad)]
      else w == [SetState(Processing), Reply("input_accepted", id, Ok), SpawnWorker]
    else if t == "mcp_register" then
      if empty || env.body.serverName == "" then w == [Reply("mcp_registered", id, bad)]
      else w == [RegisterServer(env.body.serverName), Reply("mcp_registered", id, Ok)]
    else if t == "mcp_unregister" then
      if empty || env.from == "" then w == [Reply("mcp_unregistered", id, bad)]
      else w == [UnregisterServer(env.from), Reply("mcp_unregistered", id, Ok)]
    else if t == "mcp_result" then
      w == if empty then [Reply("mcp_result_response", id, bad)] else []
    else if t == "audit_request" then w == [Reply("audit_report", id, Ok)]
    else if t == "status_request" then w == [Reply("status_response", id, Ok)]
    else if t == "wide_model_load" then
      if empty then w == [Reply("wide_model_loaded", id, bad)]
      else if a.modelMissing then w == [Reply("wide_model_loaded", id, Error("E_MODEL_NOT_FOUND"))]
      else w == [LoadModel(if env.body.modelPath == "" then a.activeModel else env.body.modelPath),
                 Reply("wide_model_loaded", id, if a.load.Success? then Ok else Error("E_MODEL_LOAD_FAILED"))]
    else if t == "wide_model_unload" then
      if empty then w == [Reply("wide_model_unloaded", id, bad)]
      else w == [UnloadModel(if env.body.reason == "" then "requested" else env.body.reason),
                 Reply("wide_model_unloaded", id, if a.unload.Success? then Ok else Error("E_MODEL_UNLOAD_FAILED"))]
    else if t == "cpm_tune" then
      if empty || env.body.package == "" then w == [Reply("cpm_tune_response", id, bad)]
      else if a.manifest.NoManifest? then w == [Reply("cpm_tune_response", id, Error("E_NOT_FOUND"))]
      else if a.manifest.BadManifest? then w == [Reply("cpm_tune_response", id, Error("E_INVALID_MANIFEST"))]
      else if a.manifest.tool == "" then w == [Reply("cpm_tune_response", id, Error("E_NOT_SUPPORTED"))]
      else w == [SpawnTune, Reply("cpm_tune_response", id, Ok)]
    else w == [Reply(t + "_response", id, Error("E_UNKNOWN_TYPE"))]
  }

  /** w is what a message does, whatever its type. */
  ghost predicate MessageAsSaid(w: seq<Effect>, env: Envelope, a: Answers, seen: State, fate: Fate) {
    if seen == Shutdown then w == [Reply(ResponseType(env.msgType), env.id, Error("E_SHUTDOWN"))]
    else if env.size > 1048576 then w == [Reply(ResponseType(env.msgType), env.id, Error("E_TOO_LARGE"))]
    else if env.msgType == "system_code" then CodeAsSaid(w, env, a, fate)
    else TypeAsSaid(w, env, a)
  }

  lemma {:induction false} TypesAsSaid(env: Envelope, a: Answers, fate: Fate)
    requires env.msgType != "system_code" && env.size <= 1048576
    ensures TypeAsSaid(HandleEffects(env, a, fate), env, a)
  {
    hide SystemCodeEffects, ResponseType, KindOf;
    ReplyTypes(env.msgType);
    KindsAreWords(env.msgType);
  }

  lemma {:induction false} KindsAreWords(msgType: string)
    ensures KindOf(msgType) ==
      if msgType == "input_forward" then InputForward
      else if msgType == "system_code" then SystemCode
      else if msgType == "mcp_register" then McpRegister
      else if msgType == "mcp_unregister" then McpUnregister
      else if msgType == "mcp_result" then McpResult
      else if msgType == "audit_request" then AuditRequest
      else if msgType == "status_request" then StatusRequest
      else if msgType == "wide_model_load" then WideModelLoad
      else if msgType == "wide_model_unload" then WideModelUnload
      else if msgType == "cpm_tune" then CpmTune else UnknownKind
  {
  }

  lemma {:induction false} ReplyTypes(msgType: string)
    ensures ResponseType(msgType) ==
      if msgType == "input_forward" then "input_accepted"
      else if msgType == "system_code" then "code_accepted"
      else if msgType == "mcp_register" then "mcp_registered"
      else if msgType == "mcp_unregister" then "mcp_unregistered"
      else if msgType == "audit_request" then "audit_report"
      else if msgType == "status_request" then "status_response"
      else if msgType == "wide_model_load" then "wide_model_loaded"
      else if msgType == "wide_model_unload" then "wide_model_unloaded"
      else if msgType == "mcp_result" then "mcp_result_response"
      else if msgType == "cpm_tune" then "cpm_tune_response"
      else msgType + "_response"
  {
    assert "mcp_result" + "_response" == "mcp_result_response";
    assert "cpm_tune" + "_response" == "cpm_tune_response";
  }

  /** Main result. Every message does what its words say. */
  lemma {:induction false} MessagesAsSaid(env: Envelope, a: Answers, seen: State, fate: Fate)
    ensures MessageAsSaid(MessageEffects(env, a, seen, fate), env, a, seen, fate)
  {
    hide CodeAsSaid, TypeAsSaid, SystemCodeEffects, ResponseType;
    if seen != Shutdown && env.size <= 1048576 {
      if env.msgType == "system_code" {
        CodesAsSaid(env, a, fate);
      } else {
        TypesAsSaid(env, a, fate);
      }
    }
  }

  // ---------- What the words come to ----------

  /** A system code is handled in this state. */
  predicate HandledAsCode(env: Envelope, seen: State) {
    seen != Shutdown && env.size <= 1048576 && env.msgType == "system_code"
  }

  /** w writes Shutdown, Security, Idle and Listening exactly as said, and stops the servers and unloads the model
      exactly if stops. */
  ghost predicate Has(w: seq<Effect>, shutdown: bool, security: bool, idle: bool, wake: bool, stops: bool) {
    (SetState(Shutdown) in w <==> shutdown) && (SetState(Security) in w <==> security)
    && (SetState(Idle) in w <==> idle) && (SetState(Listening) in w <==> wake)
    && (StopServers in w <==> stops) && ((exists e :: e in w && e.UnloadModel?) <==> stops)
  }

  predicate Neutral(e: Effect) {
    !e.SetState? && !e.StopServers? && !e.UnloadModel?
  }

  lemma {:induction false} NeutralHas(head: seq<Effect>, w: seq<Effect>, shutdown: bool, security: bool, idle: bool,
      wake: bool, stops: bool)
    requires (forall e | e in head :: Neutral(e)) && Has(w, shutdown, security, idle, wake, stops)
    ensures Has(head + w, shutdown, security, idle, wake, stops)
  {
    assert forall e | !Neutral(e) :: e in head + w <==> e in w;
  }

  lemma {:induction false} NothingHas(w: seq<Effect>)
    requires forall e | e in w :: Neutral(e)
    ensures Has(w, false, false, false, false, false)
  {
  }

  lemma {:induction false} ShutDownHas(head: seq<Effect>, w: seq<Effect>, reason: string, fate: Fate, reply: Effect)
    requires ShutDown(w, reason, fate, reply) && Neutral(reply)
    requires forall e | e in head :: e == SetState(Security) || e.UnloadModel? || e == StopServers
    requires StopServers in head && exists e :: e in head && e.UnloadModel?
    ensures Has(head + w, true, SetState(Security) in head, false, false, true)
  {
    var e0 :| e0 in head && e0.UnloadModel?;
    assert w[0] == SetState(Shutdown);
    assert forall e | e in w && e.SetState? :: e == SetState(Shutdown);
    assert e0 in head + w && StopServers in head + w && w[0] in head + w;
  }

  lemma {:induction false} DoneHas(w: seq<Effect>, env: Envelope, a: Answers, fate: Fate)
    requires env.body.Fields? && CodeDone(w, env, a, fate)
    ensures var code := env.body.code;
      Has(w, Reserved(code), Spells(code, "security"), Spells(code, "idle"), Spells(code, "wake"),
          Reserved(code) || Spells(code, "idle"))
  {
    hide Spells, ShutDown, Has;
    var code, ok := env.body.code, Reply("code_accepted", env.id, Ok);
    OneWord(code);
    if Spells(code, "security") {
      var head := [SetState(Security), UnloadModel("security"), StopServers];
      assert head[1].UnloadModel? && w == head + w[3..];
      ShutDownHas(head, w[3..], "security_code", fate, ok);
    } else if Spells(code, "reset") {
      var head := [UnloadModel("reset"), StopServers];
      assert head[0].UnloadModel? && w == head + w[2..];
      ShutDownHas(head, w[2..], "reset_code", fate, ok);
    } else if Spells(code, "wake") {
      WakeHas(ok);
    } else if Spells(code, "idle") {
      IdleHas(ok);
    } else {
      NothingHas(w);
    }
  }

  lemma {:induction false} WakeHas(ok: Effect)
    requires Neutral(ok)
    ensures Has([SetState(Listening), ok], false, false, false, true, false)
  {
  }

  lemma {:induction false} IdleHas(ok: Effect)
    requires Neutral(ok)
    ensures Has([SetState(IdleRequested), UnloadModel("idle"), StopServers, SetState(Idle), ok],
                false, false, true, false, true)
  {
    assert [SetState(IdleRequested), UnloadModel("idle"), StopServers, SetState(Idle), ok][1].UnloadModel?;
  }

  lemma {:induction false} OneWord(code: string)
    ensures Spells(code, "wake") ==> !Spells(code, "idle") && !Reserved(code)
    ensures Spells(code, "idle") ==> !Reserved(code)
    ensures !(Spells(code, "security") && Spells(code, "reset"))
  {
    assert Spells(code, "wake") ==> code[0] in {'w', 'W'};
    assert Spells(code, "idle") ==> code[0] in {'i', 'I'};
  }

  /** Of the codes that pass, exactly the reserved ones shut the daemon down, "security" writes Security too, and
      exactly they and "idle" unload the model and stop the servers; "unlock" and unknown words write nothing. */
  lemma {:induction false} CodesExactly(env: Envelope, a: Answers, seen: State, fate: Fate)
    requires HandledAsCode(env, seen) && env.body.Fields?
    ensures var passes, code := Passes(env, a), env.body.code;
      Has(MessageEffects(env, a, seen, fate), passes && Reserved(code), passes && Spells(code, "security"),
          passes && Spells(code, "idle"), passes && Spells(code, "wake"),
          passes && (Reserved(code) || Spells(code, "idle")))
  {
    hide Spells, Has, CodeDone, MessageEffects;
    MessagesAsSaid(env, a, seen, fate);
    var w := MessageEffects(env, a, seen, fate);
    if Passes(env, a) {
      if a.rawReady {
        DoneHas(w[1..], env, a, fate);
        NeutralHas([CodeValidated], w[1..], Reserved(env.body.code), Spells(env.body.code, "security"),
          Spells(env.body.code, "idle"), Spells(env.body.code, "wake"),
          Reserved(env.body.code) || Spells(env.body.code, "idle"));
        assert w == [CodeValidated] + w[1..];
      } else {
        DoneHas(w, env, a, fate);
      }
    } else {
      NothingHas(w);
    }
  }

  /** The state a message leaves, if it writes one and nobody else writes after it. */
  function LeavesState(env: Envelope, a: Answers, seen: State): Option<State> {
    if seen == Shutdown || env.size > 1048576 || env.body.Malformed? then None
    else if env.msgType == "input_forward" then if env.body.content == "" then None else Some(Processing)
    else if env.msgType != "system_code" || !Passes(env, a) then None
    else if Spells(env.body.code, "wake") then Some(Listening)
    else if Spells(env.body.code, "idle") then Some(Idle)
    else if Reserved(env.body.code) then Some(Shutdown)
    else None
  }

  lemma {:induction false} WrittenInWords(env: Envelope, a: Answers, seen: State)
    ensures Written(env, a, seen) == LeavesState(env, a, seen)
    ensures ShutsDown(env, a, seen) <==> LeavesState(env, a, seen) == Some(Shutdown)
  {
    hide Spells, ToLower, CodeOf, SoftwareOrigin, KindOf;
    KindsAreWords(env.msgType);
    if env.body.Fields? {
      CodesAreWords(env.body.code);
      SoftwareWords(env.body.origin);
    }
  }
}
