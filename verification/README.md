# cognitiveosd: the daemon's logic, modelled and proved

`cognitiveosd` is the background daemon of CognitiveOS. It takes messages from clients over a socket, lets a
small "raw" model validate prompts, package operations and system codes, has a "wide" model generate
responses, runs the tools those responses ask for on MCP servers, and moves between six states (Idle,
IdleRequested, Listening, Processing, Security, Shutdown). Its sockets, HTTP exchanges and processes appear
here as answers that may be anything, failures included; the logic around them is modelled as the code has it
and proved for all inputs, all answers and all interleavings.

## How it is laid out

| file | subject |
|---|---|
| `Wrappers.dfy`, `Text.dfy`, `Protocol.dfy` | option and result types; Go's string operations with the laws the parser rests on; states, messages and effects |
| `ToolCalls.dfy` | the parser of `@@tool(k="v",...)@@` lines, a printer, and how each undoes the other |
| `ToolLoop.dfy`, `ToolLoopTheorems.dfy`, `RawLoop.dfy` | the ten-round loop of parse, validate, invoke and regenerate; the loop over the raw client it shares |
| `Worker.dfy`, `Handlers.dfy` | the effects of a prompt worker and of every message handler, and what follows from them |
| `Wording.dfy` | the same effects told in the words of the protocol: message types, codes, origins, replies |
| `DaemonObject.dfy` | the daemon object over its table of clients: its handlers, the read loop of a connection and the prompt worker, while other goroutines move |
| `Lifecycle.dfy`, `ShutdownRuns.dfy`, `LiveRuns.dfy` | handlers, workers, the idle timer and shutdown as interleaved threads: what every run keeps, leaving Shutdown, and what gets done |
| `RawClient.dfy` | the raw model client: protocol with its server, and the client object |
| `ModelRegistry.dfy`, `WideModel.dfy` | the registry of offered models, the wide model client, hot swap |
| `McpTable.dfy`, `ClientTable.dfy` | the tables of live MCP servers and client connections |
| `Locks.dfy` | every mutex of the daemon and the order in which operations take them |

Code that updates things in place is a class or a method with a loop; its contract ties the new state to a
specification function (`Parse`, `LoopFrom`, `WorkerEffects`, `MessageEffects`, ...), and the theorems are
lemmas about those functions. Interleavings are labelled transition systems: a state, labels, `Enabled`,
`Apply`, and theorems about `After(Init(), ls)` for every run `ls`. `Lifecycle` runs the very effect lists
that the methods of `DaemonObject` are proved to have, one effect a step. In `DaemonObject` one goroutine is
followed; whatever others do between its steps is a list of moves, and every contract is for all such lists.

A printer for tool calls exists only here; the daemon has none. A Go run-time panic is an outcome
(`SliceError`, `Crash`, `NilStdin`), and so is a goroutine that waits for ever for `clientsMu` (`Hang`).

## Where the code does less than one might expect

Each of these has its counterexample and its exact condition in the project.

- Shutdown is not absorbing: the idle timer or work already admitted can write another state
  (`ShutdownRuns.ShutdownIsLeft`; exactly when it is absorbing: `ShutdownRuns.ShutdownAbsorbsExactly`).
- A shutdown does not always end: its client loop holds `clientsMu` and closing an open client asks for it
  again (`ClientTable.ClientTable.ShutdownLoop`, `Locks.FinishesExactly`). So a security or reset code from a
  connection in the table, alone with its name, never returns (`DaemonObject.Daemon.HandleLine`), and from then on nobody who needs
  `clientsMu` gets on (`ShutdownRuns.HeldForEver`): no output, no second shutdown, no newly named client.
- Not every message is answered (`DaemonObject.NamedCodeHangs`, `DaemonObject.SecondCodePanics`; exactly when:
  `DaemonObject.Daemon.HandleLine`, `DaemonObject.Daemon.ReadLoop`).
- The tool-call parser is partial (`ToolCalls.SliceErrorExactly`).
- One MCP name can have two live processes (`McpTable.SharedExactly`), and the exit of the older one removes
  the entry of the newer (`McpTable.StaleCleanUp`, `McpTable.MCPManager.WaitCleanUp`).
- A server that registered over a socket has no stdin; invoking its tool is a nil dereference
  (`McpTable.RegisterThenInvoke`, `McpTable.MCPManager.Invoke`, `McpTable.MCPManager.SafeInEveryOrder`).

Where the code and what is written about it differ, the model follows the code:

- The daemon's README says that the idle code suspends the MCP servers; `Wait` starts them again two seconds
  later unless the state is Shutdown or the server is a bridge (`McpTable.MCPManager.WaitCleanUp`).
- The daemon's README lists a code "shutdown" in its first paragraph; the code knows wake, idle, security,
  reset and unlock.
- Section 5 of the JSON-RPC 2.0 specification has a response carry the id of its request; the raw client never
  compares them. Pairing holds all the same (`RawClient.RunPairs`).

## Model

| member | source | states |
|---|---|---|
| ToolCalls.ParseArguments | internal/daemon/handlers.go:305-320 | The loop over the comma-separated pairs yields the map that assigning them left to right gives, pairs without `=` skipped; what one pair binds is settled by `PieceBinds`. |
| ToolCalls.ParseToolCall | internal/daemon/handlers.go:293-322 | One line is no call, a call, or the panic of a slice whose bounds cross, as the line function says. |
| ToolCalls.ParseToolCalls | internal/daemon/handlers.go:289-323 | The loop over lines returns the calls of all lines in order, or panics if any line does. |
| ToolCalls.ParseAppend | internal/daemon/handlers.go:289-323 | Parsing two texts joined by a newline is parsing each and appending; a slice error in either spoils the whole. |
| ToolCalls.SliceErrorExactly | internal/daemon/handlers.go:295-303 | The parser panics if and only if some line trims to `@@`, `@@@` or `@@u(@@` with u free of `(`. |
| ToolCalls.RepeatedKeysLastWins | internal/daemon/handlers.go:305-320 | An argument has value v if and only if v is what the last pair naming its key says. |
| ToolCalls.PieceBinds | internal/daemon/handlers.go:309-316 | A piece of blanks, a key, blanks, `=`, blanks, a value in quotes or not, and blanks binds exactly that key to exactly that value; a piece without `=` binds nothing. |
| ToolCalls.LineParses | internal/daemon/handlers.go:293-322 | A line of blanks, `@@`, a name, `(`, any such pieces between commas, one character, `@@` and blanks is one call: of that name, with each key bound to the value its last piece gives, and no other key. |
| ToolCalls.LineSilent | internal/daemon/handlers.go:295-301 | A line that is not wrapped in `@@`, or has no parenthesis inside, holds no call. |
| ToolCalls.ParsedPrintable | internal/daemon/handlers.go:289-323 | Every call the parser ever returns can be printed back: its name, keys and values avoid the delimiters. |
| ToolCalls.RenderedParses | internal/daemon/handlers.go:289-323 | Printable calls, printed in any argument order among prose with no marker line, parse to exactly themselves, in order. |
| ToolCalls.RoundTripExactly | internal/daemon/handlers.go:289-323 | For any well-ordered rendering among such prose, the calls come back if and only if every one is printable; values may hold `=`, parentheses, inner quotes and edge spaces. |
| ToolCalls.NormalForm | internal/daemon/handlers.go:289-323 | Wherever parsing is defined, printing its result in any argument order and parsing again changes nothing. |
| ToolLoop.JoinTexts | internal/daemon/handlers.go:264-267 | The texts of a completed call are concatenated in order. |
| ToolLoop.CallTool | internal/daemon/handlers.go:216-271 | One call ends as denied, not validated, failed, completed or panicked, with exactly the validation and invocation effects that outcome needs; a validation asks for the operation after the last dot of the name, with the call's own arguments. |
| ToolLoop.OperationIs | internal/daemon/mcp_lifecycle.go:228-252 | The operation is what follows the last of two dots or more in the tool's name, "" if there are fewer. |
| ToolLoop.OneOperation | internal/daemon/mcp_lifecycle.go:228-252 | That description leaves no choice. |
| ToolLoop.ParamsRequest | internal/daemon/handlers.go:218-240 | A request names that operation, the call's "name" and "version", and for "install" and "update" alone the manifest of the package: "name", or "package_name" if that is empty. |
| ToolLoop.RunRound | internal/daemon/handlers.go:215-272 | The loop over the calls of one response leaves the lines, tool results and effects of the round function, stopping at a panic. |
| ToolLoop.RunToolLoop | internal/daemon/handlers.go:205-287 | The ten-round loop returns the response and tool results, and has the effects, of the loop function. |
| ToolLoopTheorems.LoopGated | internal/daemon/handlers.go:217-257 | In the effects of any loop, an invocation of a tool whose name starts with `cognitiveos.package` comes directly after a validation of that same call with status "approved", asked for the operation after the last dot of the name, the call's own name and version, and the manifest of the package it installs or updates. |
| ToolLoopTheorems.LoopAsks | internal/daemon/handlers.go:217-257 | Every validation in the effects of any loop, approved or not, is of a tool in that namespace and asks just that; every invocation is for the loop's session. |
| ToolLoopTheorems.RoundConserves | internal/daemon/handlers.go:214-272 | A round that does not panic ends every parsed call once, as itself, with its own arguments, in call order: refused or invoked; it leaves exactly one result line for each, the line of that call's outcome; its tool results are its completed invocations. |
| ToolLoopTheorems.LinesClassified | internal/daemon/handlers.go:242-271 | Result lines = denied + not validated + failed + completed, over any effects; the lines are given as text. |
| ToolLoopTheorems.LoopConserves | internal/daemon/handlers.go:205-287 | The returned tool results are exactly the completed invocations of all rounds, in order. |
| ToolLoopTheorems.LoopContinues | internal/daemon/handlers.go:274-281 | Every regeneration comes when exactly the calls parsed from the response then in force have ended, in order, and asks with the original prompt, "Tool results:", one line for each of them, the text that its ending leaves, and "Continue.". |
| ToolLoopTheorems.LoopHears | internal/daemon/handlers.go:278-284 | Each regeneration gets the next answer of the model. |
| ToolLoopTheorems.LoopEnds | internal/daemon/handlers.go:205-287 | At most ten regenerations; the loop returns the last response it got, and stops only because that has no calls, because regeneration failed, or because the rounds are spent. |
| ToolLoopTheorems.LoopPanics | internal/daemon/handlers.go:205-287 | The loop panics if and only if a tool call does, or a response it parses makes the parser panic; that is its last effect. |
| RawLoop.GoneAnswersNothing | internal/daemon/raw_client.go:215-222 | In any run of the raw client that everyone shares, once the connection is gone and while nobody dials, no call is answered, whoever makes it. |
| RawLoop.LoopSilentOnceGone | internal/daemon/handlers.go:217-257 | With the loop's validations completed by steps of one such run, later ones by later steps: whoever lost the connection, each invocation in the validated namespace has its approval right before it, from a call completed before the loss. |
| RawLoop.LoopSilentAfterLoss | internal/daemon/handlers.go:242-248 | So after a validation of its own that found the connection lost, a loop during which nobody dials invokes no tool of the validated namespace. |
| RawLoop.SomeLoopAsksThrough | internal/daemon/handlers.go:217-257 | A run of the client from its start and a loop over it that meet these conditions: one guarded call approved and invoked, the next finding the connection lost. |
| Worker.WorkerAnswersOnce | internal/daemon/handlers.go:121-202 | The effects of a worker that nothing stops: unless it panics, exactly one text output, last before its Listening write, after all tool results, to one client in one session; one that panics has sent nothing and written no state. |
| Worker.WorkerFailsClosed | internal/daemon/handlers.go:121-176 | No generation, hot swap or tool call without a verdict that came without error and is not "deny"; every generated prompt starts with the guardrail's text if it says "modify" and gives one, else with the prompt. |
| Worker.WorkerAsks | internal/daemon/handlers.go:152-168 | With such a verdict the worker swaps to the model it names, if any, and its first request is the guardrail's text if that says "modify" and gives one, else the prompt; every later request starts with it. |
| Worker.WorkerReports | internal/daemon/handlers.go:126-176 | On a guardrail error, a denial or a failed generation the client gets exactly the text for it, and no tool is called. |
| Worker.WorkerDelivers | internal/daemon/handlers.go:178-202 | The tool loop works on the first response, for the prompt asked; after it the worker sends the completed invocations of the whole run in order, each as a tool result to the sender in its session, then the last response the model gave as text, and writes Listening. |
| DaemonObject.Daemon.SetState | internal/daemon/daemon.go:753-758 | The state field always holds the last state written. |
| DaemonObject.Daemon.RunShutdown | internal/daemon/daemon.go:580-605 | While others move: a shutdown waits for ever in its broadcast, panics at a listener closed before, waits for ever in its client loop, or ends with the table empty. It does not end if the connection that asks for it is in the table, alone with its name, and nobody else comes to have that name, whatever others do. Left alone, its fate is settled beforehand: it ends if and only if clientsMu is free, the listener open and no entry of the table open. |
| DaemonObject.Daemon.HandleMessage | internal/daemon/daemon.go:683-745 | It returns unless the message shuts the daemon down and that shutdown does not end. If it returns it has attempted exactly one direct reply, with the request's id and mapped type, or none to a well-formed mcp_result of allowed size before shutdown; if not, none. A system code is answered with ok if and only if it passes its gate and is accepted. Told in the words of the protocol: the effects are those of the message type, code and origin as text (`Wording.MessagesAsSaid`), and the state left is Processing for an input, Listening for "wake", Idle for "idle", and for all that write nothing the state as it was. |
| DaemonObject.Daemon.ProcessPrompt | internal/daemon/handlers.go:121-202 | It has exactly the worker's effects (which of the two texts the model is asked: `Worker.WorkerAsks`), ending in Listening or, exactly where the tool loop does, in a panic; or it waits for ever at one of its outputs, and then a client loop keeps clientsMu; if one does so from the start it never finishes. |
| Wording.MessagesAsSaid | internal/daemon/daemon.go:683-717 | What each message does, by its type, code (in any case), origin and fields as text: the exact list of effects and the reply with its type and error code, for every type, every code word and every failure; an unknown type is E_UNKNOWN_TYPE, a larger payload than 1048576 E_TOO_LARGE. |
| Wording.CodesExactly | internal/daemon/handlers.go:379-469 | Shutdown is written by "security" and "reset" alone, Security by "security", Idle by "idle", Listening by "wake"; the model is unloaded and the servers stopped by "security", "reset" and "idle" alone; and only if the code passes: not one of the first two from keyboard, voice or cli, and valid to a ready raw model. |
| Wording.LowerSpells | internal/daemon/handlers.go:386-387 | A text lowers to a word of letters if and only if it spells it, in whatever case. |
| Wording.WrittenInWords | internal/daemon/handlers.go:411-442 | The state a message leaves and whether it shuts the daemon down, by its type and code as text. |
| DaemonObject.Daemon.NameAndFile | internal/daemon/socket.go:115-118 | The first sender named is the connection's id and the connection is filed under it; exactly if clientsMu is kept, that waits for ever. |
| DaemonObject.Daemon.HandleLine | internal/daemon/socket.go:101-120 | If others only write the state while a line is waited for, it stops its connection if and only if it cannot be filed, or it is a security or reset code that passes its gate, handled while clientsMu is kept, the listener closed, or some entry open, its own included; what the next line meets is settled too. Whatever others do, such a code stops a connection that is alone with its name and in the table, or put there by this line, as long as nobody else comes to have that name. |
| DaemonObject.Daemon.ReadLoop | internal/daemon/socket.go:91-122 | Over any lines, whatever others do between and within them, the effects are those of the lines in order; it ends early only at a line that stops it or when a client loop that waits for ever has closed the connection; its identity is the first sender named, set once. If others only write the state, the replies are exactly those owed up to the first line that stops. A connection that stays alone with its name gets no further than its first security or reset code that passes. |
| DaemonObject.StopsExactly | internal/daemon/socket.go:115-120 | A line stops its goroutine for good if and only if it waits to be filed, or shuts the daemon down and that does not end. |
| DaemonObject.NamedCodeHangs | internal/daemon/daemon.go:600-605 | A security or reset code that is the first message of a connection and names it is never answered. |
| DaemonObject.SecondCodePanics | internal/daemon/socket.go:64-67 | Of two such codes on a connection without a name, another goroutine writing Idle in between, the first returns and the second panics at the closed listener. |
| DaemonObject.ConversationReplies | internal/daemon/socket.go:91-122 | The replies attempted on a connection are exactly those of the lines that do not stop it, in order, with their types and ids. |
| Lifecycle.RunKeepsMeaning | internal/daemon/handlers.go:105-118 | In every run: Processing means an accepted input whose closing Listening write is to come, IdleRequested an idle handler in mid-body, Security a security handler before its Shutdown write. |
| Lifecycle.QuietStates | internal/daemon/handlers.go:412-442 | In every run, with nothing in flight the state is Idle, Listening or Shutdown. |
| LiveRuns.GateHandles | internal/daemon/daemon.go:683-717 | When a thread passes the state check it has from then on exactly the effects `HandleMessage` has for that message in that state, and nothing else changes. |
| LiveRuns.WorkerStarts | internal/daemon/handlers.go:105-118 | A handler that starts its worker adds a thread with the effects of that prompt, for that sender, in the session named or a fresh one. |
| LiveRuns.InputAnswered | internal/daemon/handlers.go:95-202 | From any point of any run before a shutdown, for any input with a text whose worker does not panic: a run in which it arrives, its state becomes Processing, and at the end its worker has written Listening, with exactly the handler's effects and then the worker's in between. |
| LiveRuns.FirstInputAnswered | internal/daemon/handlers.go:95-202 | Such a run from the start. |
| LiveRuns.TimerExactly | internal/daemon/daemon.go:552-578 | In every run, a timer that fires unloads the model and writes Idle if and only if no prompt touched it in the last 300 seconds; else it starts nothing. |
| LiveRuns.TimerDue | internal/daemon/daemon.go:552-560 | In every run the timer can fire from 300 seconds after its start on, not before, and once. |
| LiveRuns.SignalStarts | internal/daemon/daemon.go:580-638 | A signal starts the steps of a shutdown, in their order, and then the end of the process. |
| ShutdownRuns.FirstDeparture | internal/daemon/daemon.go:552-583 | In any run, the first step to leave Shutdown belongs to the idle timer, or to work that goes back to a message past the state check before Shutdown was set. |
| ShutdownRuns.LaterMessagesRefused | internal/daemon/daemon.go:683-687 | While the state has stayed Shutdown, a message not admitted before is refused, and its one effect is the E_SHUTDOWN reply. |
| ShutdownRuns.HeldForEver | internal/daemon/daemon.go:600-605 | Once a client loop keeps clientsMu, in every run it stays so: nobody gets an output or a broadcast, no other client loop runs, and a message whose connection is not filed yet is never handled. |
| ShutdownRuns.SomeRunHolds | internal/daemon/daemon.go:600-605 | A run in which the client loop of a signal's shutdown meets an open client and keeps clientsMu. |
| ShutdownRuns.HeldWorkers | internal/daemon/handlers.go:194-201 | From then on a worker can leave Shutdown if and only if its closing write is all it has left to do. |
| ShutdownRuns.ShutdownAbsorbsExactly | internal/daemon/daemon.go:552-583 | Every run from a state in Shutdown stays there if and only if the timer has fired and no thread, nor a worker it will start, has a departing write to come; while a client loop keeps clientsMu, one that it reaches without that lock. |
| ShutdownRuns.ShutdownIsLeft | internal/daemon/daemon.go:559-571 | A run that starts the timer, reaches Shutdown by a signal, and leaves it by the timer. |
| ShutdownRuns.AcceptedBeforeOutput | internal/daemon/handlers.go:105-118 | In every run each output of a worker comes after the input_accepted reply to its own prompt. |
| RawClient.RunPairs | internal/daemon/raw_client.go:215-269 | In every run, against a server that answers at most once and in order with any delay or loss: each call that returns a result or server error returns the reply to its own request; with the mutex free the connection has nothing unanswered or unread; ids sent strictly increase across reconnects. |
| RawClient.LostStaysLost | internal/daemon/raw_client.go:215-222 | With the connection gone and no dial, no run sends anything or completes a call. |
| RawClient.RawModelClient.Write | internal/daemon/raw_client.go:225-253 | The write takes the next id and then waits for its reply, or drops the connection, exactly if the write fails or the connection is closed. |
| RawClient.RawModelClient.Read | internal/daemon/raw_client.go:255-268 | The reply read answers the request waited for; on a timeout, without a reply or with one that does not decode, and only then, the connection is dropped. The call has its answer if the reply is a result or an error. |
| RawClient.RawModelClient.CallConn | internal/daemon/raw_client.go:224-269 | A reply answers the request just sent and keeps the connection; no reply means the connection is gone. |
| RawClient.RawModelClient.Call | internal/daemon/raw_client.go:215-222 | Without a connection nothing is sent and nothing changes; otherwise as the exchange. |
| RawClient.RawModelClient.Connect | internal/daemon/raw_client.go:41-88 | Success, only after a good healthcheck, leaves a new, ready connection; a failed dial keeps the old one, closed; a failed healthcheck leaves none. |
| RawClient.RawModelClient.CloseClient | internal/daemon/raw_client.go:203-211 | The connection is closed and gone, and the client not ready. |
| ModelRegistry.Registry.Build | internal/daemon/daemon.go:297-371 | The map holds exactly the ids some directory entry offers with existing weights, each with what its last such entry says, under its own id. |
| ModelRegistry.RegistersUnique | internal/daemon/daemon.go:297-371 | That description determines the map. |
| ModelRegistry.RegistersSound | internal/daemon/daemon.go:321-370 | Every entry has a non-empty id equal to its key and names an existing file by a non-empty path. |
| ModelRegistry.LastPackageWins | internal/daemon/daemon.go:321-370 | The last package whose manifest routes an id, with tags, and whose weights file exists, decides what the registry says of that id: the id, those tags, that path. |
| ModelRegistry.OnlyPackages | internal/daemon/daemon.go:321-370 | An id in the registry is offered by such a package. |
| ModelRegistry.Registry.RoutingHints | internal/daemon/daemon.go:373-382 | The hints have the keys of the registry, with their tags. |
| ModelRegistry.Registry.Resolve | internal/daemon/daemon.go:384-392 | The path of a registered id, "" for any other. |
| ModelRegistry.HintsResolve | internal/daemon/daemon.go:373-392 | An id is hinted if and only if it resolves to a non-empty path. |
| WideModel.WideModelClient.Generate | internal/daemon/wide_client.go:31-85 | One generation request: the prompt, after the system prompt and an empty line if there is one; success marks a model loaded and keeps its id, failure changes nothing. |
| WideModel.WideModelClient.LoadWithID | internal/daemon/wide_client.go:104-132 | Success records path and id together; failure changes nothing. |
| WideModel.WideModelClient.Unload | internal/daemon/wide_client.go:134-163 | Any HTTP answer clears the whole record; a failed request changes nothing. |
| WideModel.WideModelClient.LoadedModelID | internal/daemon/wide_client.go:203-210 | The guard on loaded never hides an id: the id returned is the id recorded. |
| WideModel.WideModelClient.HotSwap | internal/daemon/daemon.go:394-431 | Success with an id ends with that id loaded; failure leaves the previous record or nothing loaded; a registry miss or the id already loaded makes no inference call. |
| WideModel.WideModelClient.LoadWideModel | internal/daemon/daemon.go:492-550 | The first registry model that loads ends it, with exactly the pulls up to it; a forbidding audit ends it with nothing loaded; only when all fail is the first model file of the directory tried, under no id. |
| WideModel.WideModelClient.LoadFromDirectory | internal/daemon/daemon.go:525-549 | Only the first model file is tried, and only if the audit allows it. |
| WideModel.FirstEnd | internal/daemon/daemon.go:499-520 | The attempt that ends the startup: it loads or is forbidden, and none before it is. |
| WideModel.ModelFileNames | internal/daemon/daemon.go:525-540 | A model file is a file whose name ends in `.gguf` or `.safetensors`. |
| WideModel.SwapAlone | internal/daemon/daemon.go:394-431 | Let run alone, the steps of a swap leave the same record and prompt as the method `HotSwap`, for the same answers. |
| WideModel.OneStepAlone | internal/daemon/wide_client.go:79-160 | So do the steps of an unload and of a generation. |
| WideModel.RunTracks | internal/daemon/wide_client.go:79-160 | In every interleaving with the one registry build: not loaded means no name and no id; a non-empty id means loaded, belongs to the registry, and is the id of the latest load record with no unload record after it; a system prompt is one set by an operation whose own load was recorded before. |
| WideModel.PromptOfAnother | internal/daemon/daemon.go:415-427 | The system prompt in force need not be the one read by the operation that loaded the model: a run of two racing swaps that ends with the model of one and the prompt the other had read. (The merge itself does not depend on the model id, so the two texts differ only if the files changed.) |
| McpTable.MCPManager.Spawn | internal/daemon/mcp_lifecycle.go:116-176 | A new active server takes its name over from whatever had it; nothing else changes. |
| McpTable.MCPManager.DiscoverTools | internal/daemon/mcp_lifecycle.go:478-508 | What the process lists is appended to its tools. |
| McpTable.MCPManager.Register | internal/daemon/mcp_lifecycle.go:178-204 | An existing entry keeps its process and activity and gets the new tools; otherwise a server without a process is filed; no other server changes. |
| McpTable.MCPManager.Unregister | internal/daemon/mcp_lifecycle.go:206-213 | Exactly the entry of that name goes, and its server becomes inactive. |
| McpTable.MCPManager.WaitExit | internal/daemon/mcp_lifecycle.go:510-514 | The exited server is inactive and its cleanup pending; the table is unchanged. |
| McpTable.MCPManager.WaitCleanUp | internal/daemon/mcp_lifecycle.go:516-528 | The entry of that name goes; another server loses its entry if and only if the name is filed with another; a restart follows if and only if it is no bridge and the state is not Shutdown. |
| McpTable.MCPManager.ShutdownAll | internal/daemon/mcp_lifecycle.go:439-476 | The table ends empty, exactly the filed servers become inactive and exactly their processes are terminated; the processes it misses are exactly those that lost their entry to a spawn or an unregistration, and those an earlier call terminated. |
| McpTable.MCPManager.ResolveServer | internal/daemon/mcp_lifecycle.go:382-391 | For the order in which the map is visited, the first server that lists the tool; none if and only if none does. |
| McpTable.MCPManager.Invoke | internal/daemon/mcp_lifecycle.go:288-316 | For that order: not found if and only if nobody lists the tool; a nil stdin if and only if the first lister is active and was never spawned; not active if and only if the first lister is in mid-cleanup; else the request goes to the first lister. |
| McpTable.MCPManager.SafeInEveryOrder | internal/daemon/mcp_lifecycle.go:382-391 | An invocation meets a nil stdin under no order if and only if no active server that lists the tool was never spawned. |
| McpTable.MCPManager.ActiveCount | internal/daemon/mcp_lifecycle.go:404-408 | The count exceeds the active entries by exactly the pending cleanups whose server is still filed, so by at most the pending cleanups, and by none when none is pending. |
| McpTable.RunSchedule | internal/daemon/mcp_lifecycle.go:172-213 | After any schedule of spawns, tool lists, registrations, exits, cleanups and shutdowns each entry is filed under its server's name, an inactive one has its cleanup pending, and the count is within the pending cleanups of the truth; the processes started and exited are those the schedule says. |
| McpTable.SharedExactly | internal/daemon/mcp_lifecycle.go:172-176 | At some moment of a schedule two unexited processes share a name if and only if some spawn used the name of an unexited process. |
| McpTable.StaleCleanUp | internal/daemon/mcp_lifecycle.go:510-516 | Two processes of one name; the exit of the older removes the newer from the table while it has not exited. |
| McpTable.RegisterThenInvoke | internal/daemon/mcp_lifecycle.go:193-203 | A server that only registered: invoking its tool meets a nil stdin. |
| ClientTable.ClientTable.Identify | internal/daemon/socket.go:115-117 | The first non-empty sender names the connection; later ones change nothing. |
| ClientTable.ClientTable.AddClient | internal/daemon/daemon.go:640-645 | The connection is filed under its own id, over whatever was there. |
| ClientTable.ClientTable.RemoveClient | internal/daemon/daemon.go:647-652 | The entry of that id goes, whose ever it is. |
| ClientTable.ClientTable.CloseBegin | internal/daemon/socket.go:135-141 | Only the first close of a connection goes on. |
| ClientTable.ClientTable.CloseFinish | internal/daemon/socket.go:143-146 | A named connection's id leaves the table, and the connection is closed. |
| ClientTable.ClientTable.Visit | internal/daemon/daemon.go:601-604 | One visit of shutdown's loop blocks if and only if its client is still open; otherwise the entry goes. |
| ClientTable.ClientTable.ShutdownLoop | internal/daemon/daemon.go:600-605 | For any order of the map and any connections others begin to close meanwhile, the loop blocks if and only if it meets an open one; otherwise it empties the table and has closed no connection itself. |
| ClientTable.ClientTable.CloseAll | internal/daemon/daemon.go:600-605 | Whatever the order, a filed connection that is open and that no other goroutine closes makes the loop block; if nobody closes any, it blocks if and only if some entry is of an open connection. |
| ClientTable.ClientTable.Take | internal/daemon/socket.go:135-147 | Each step of each goroutine keeps the table valid and leaves the connections of other goroutines named, filed and, unless a loop then blocks, open as they were; a connection alone with its name stays in the table unless a loop blocks, as long as nobody is given that name; a loop that blocks does so for ever. |
| ClientTable.RunSchedule | internal/daemon/socket.go:115-147 | After any interleaving of accepts, namings, closes and client loops, with ids shared at will, every entry is keyed by its connection's own non-empty id and its connection is open or in mid-close. |
| ClientTable.SharedId | internal/daemon/socket.go:143-145 | Two connections share an id; closing the older removes the entry of the newer, which stays open. |
| Locks.SectionsNested | internal/daemon/daemon.go:492-521 | In every operation of the daemon, but for a client loop that meets an open client, what is locked inside a critical section ranks above its lock. |
| Locks.NestingOperations | internal/daemon/daemon.go:668-676 | Lock by lock: a broadcast takes the connections' locks inside clientsMu, an invocation and a shutdown of the servers the servers' inside the manager's. |
| Locks.LoopAsksAgain | internal/daemon/daemon.go:600-605 | A client loop asks for clientsMu inside clientsMu once for every open client it meets. |
| Locks.StartupNests | internal/daemon/daemon.go:492-521 | A model tried at startup takes the raw client's and the wide client's locks inside the registry's. |
| Locks.SteppedOperations | internal/daemon/daemon.go:654-662 | Sending to a client and a server's exit give one lock back before they take the next. |
| Locks.CodeOrdered | internal/daemon/socket.go:124-147 | A list of operations keeps the lock order if and only if no client loop in it meets an open client; it blocks itself if and only if one does. |
| Locks.NoCycle | internal/daemon/daemon.go:668-676 | For any number of goroutines, any operations without such a loop and any schedule: never a cycle of lock waits, waiting writers that hold back readers included (`HeldBack`). |
| Locks.EveryRunFinishes | internal/daemon/mcp_lifecycle.go:288-303 | Under the same condition runs are bounded, and one with no step left has finished every goroutine: no deadlock. |
| Locks.FinishesExactly | internal/daemon/daemon.go:600-605 | Some schedule finishes all the work if and only if no client loop in it meets an open client; a loop that does never returns under any schedule. |
| Locks.SelfWaitStarves | internal/daemon/daemon.go:600-605 | While a goroutine waits for a lock it holds to write, everyone else who waits for that lock waits for ever. |

## Left out

- Sockets, HTTP, JSON encoding, file reads: they are answers that may fail; envelopes and manifests come decoded, with a case for what does not decode.
- Process spawning, cgroups, seccomp, signals and the external commands of a shutdown: only that and in which order they happen.
- Blocking on sockets, pipes and HTTP while a lock is held: the lock theorems are about waits for locks.
- Resource audits (`internal/daemon/audit.go`), configuration, flags, UUIDs and timestamps: thin, and only easy members.
- The tuning monitor and `triggerTune`: they only log; `cpm_tune` matters for its replies.
- Daemon.Shutdown (closing `done`) and the healthcheck's respawn: the first ends the process as `Exit` does, the second is one more Spawn.
- Payloads of status, audit and ok replies; error messages beside their codes.
- Unicode: white space and lower case are the ASCII sets.
- `filepath.Join`: plain concatenation with `/`, without cleaning.
- The manifest metadata of a package validation: represented by the package whose manifest is fetched.
- The JSON of a tool's reply inside `Invoke`: a completed call is its texts, and a panic on a malformed error object is one of its outcomes.
- Answers from outside are fixed when a message or a prompt arrives; since every theorem is for all answers, this stands for answers given at the time.
- Reads of a lock-protected field and the write that follows are separate steps where the code has them apart; Go's check-then-close of a connection's done channel is one step.
- Data races on fields the code writes without a lock (`active` in Unregister, `Tools` in DiscoverTools, the ids of connections) are taken as atomic writes.
- Locks.Sections: critical sections are written down by hand from each operation; that the Go functions take no other lock is not proved. A release gives back the lock taken last, as every unlock in the code does.
- In `Lifecycle`, whether a client loop meets an open client is left to the step (`meetsOpen`); the table that decides it is in `ClientTable` and `DaemonObject`.
- The client loop runs as one step among the moves of others, with the connections they begin to close before each visit; Go's range over a map that only the loop changes is any order of its keys.
- The daemon's ready broadcast at the start of `Run` is not a thread of `Lifecycle`; a signal is taken any time after the timer is started.
- McpTable.MCPManager.Invoke: stops at the write; what the server answers is an outcome in `ToolLoop`.
