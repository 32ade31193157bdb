/** What the daemon's pieces exchange: its state, its messages, and the effects a handler or a prompt
    worker has on the world, in the order it has them. */
module Protocol {
  import opened Wrappers
  import opened ToolCalls

  datatype State = Idle | IdleRequested | Listening | Processing | Security | Shutdown

  /** A decoded payload; a field the JSON lacks is "". */
  datatype Body =
    | Malformed
    | Fields(content: string, sessionID: string, code: string, origin: string, unlockCode: string,
             serverName: string, modelPath: string, reason: string, package: string)

  datatype Envelope = Envelope(msgType: string, id: string, from: string, size: nat, body: Body)

  datatype Status = Ok | Error(code: string)

  datatype OutputKind = TextOutput | ToolOutput

  /** validate_prompt: a verdict, or any failure of the call. */
  datatype PromptAnswer = Verdict(action: string, modified: string, reason: string, model: string)
      | PromptFailed(error: string)

  /** validate_package_request: a decision, a failed call, or the loss of the raw connection. */
  datatype PackageAnswer = Decision(status: string, reason: string) | CallFailed(error: string)
      | ConnectionLost(error: string)

  /** MCPManager.Invoke: the texts of a completed call (a server error completes with no text), an
      error, or a run-time panic. */
  datatype InvokeAnswer = Completed(texts: seq<string>) | InvokeFailed(error: string) | InvokePanics

  datatype PackageParams = PackageParams(op: string, name: string, version: string, manifestOf: string)

  datatype Effect =
    | SetState(state: State)
    | Reply(rtype: string, id: string, status: Status)
    | Output(to: string, session: string, kind: OutputKind, content: string)
    | Touch
    | PromptValidated(prompt: string, answer: PromptAnswer)
    | HotSwap(modelID: string)
    | Generated(request: string, response: Result<string>)
    | PackageValidated(subject: ToolCall, params: PackageParams, verdict: PackageAnswer)
    | Invoked(call: ToolCall, caller: string, outcome: InvokeAnswer)
    | CodeValidated
    | UnlockChecked
    | LoadModel(path: string)
    | UnloadModel(cause: string)
    | StopServers
    | RegisterServer(name: string)
    | UnregisterServer(server: string)
    | Broadcast(notice: string)
    | CloseRawClient
    | CloseListener
    | CloseClients
    | HostCommands(why: string)
    | SpawnWorker
    | SpawnTune
    /** The goroutine waits for ever on a lock it holds. */
    | Hang
    /** A run-time panic, which ends the process. */
    | Crash
    /** Run returns, which ends the process. */
    | Exit

  function ResponseType(msgType: string): string {
    match msgType
    case "input_forward" => "input_accepted"
    case "system_code" => "code_accepted"
    case "mcp_register" => "mcp_registered"
    case "mcp_unregister" => "mcp_unregistered"
    case "audit_request" => "audit_report"
    case "status_request" => "status_response"
    case "wide_model_load" => "wide_model_loaded"
    case "wide_model_unload" => "wide_model_unloaded"
    case _ => msgType + "_response"
  }
}
