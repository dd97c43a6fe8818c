# A verified model of the voice bridge

The voice bridge connects a realtime speech provider, an isolated executor thread and Home Assistant's
tools, and a speaker on the other side of a device wire. Its hard content is concurrent state that
changes only at `await` points, and exact audio arithmetic. This project models that content in Dafny
and proves what the bridge promises about it, for every run, every interleaving and every input.

## How it is modelled

* **Protocols** are state machines. A stretch of code without an `await` is one step, a coroutine
  suspended at an `await` is data in the state, and provider events, device messages, executor events,
  timers, cancellation, reconnects and network faults are steps that may come at any time. A theorem
  about `Reached(run)` is about every finite run.
* **Objects and closures** that update variables in place are classes. Each method is one stretch of
  the source, written with its loops and early returns, and its postcondition equates the new
  variables with one step of the machine, so what is proved of the machine holds of the variables.
  In the table below such a row says which stretch it is. Ghost fields hold only history. Of
  `ManagedClosures` the table lists the main methods whose shape differs from the step's.
* **Arithmetic** is exact: floats are rationals or reals, and rounding is half to even as in Python.
  A square root of a mean square is a function parameter.

| files | what they model |
|---|---|
| `Pcm`, `Resampler`, `OneShot` | the streaming resampler against the whole-clip conversion |
| `ManagedControl`, `ManagedInvariant`, `ManagedSafety`, `ManagedFrames`, `ManagedTerminal`, `ManagedClosures` | the managed realtime socket: generations, executor turn and queue, render slot and its terminals, turn-id claims |
| `ManagedRequests`, `ManagedEffects`, `ManagedProgress` | that socket loses nothing it was asked, what moves each of its variables, and that it always gets on |
| `OutputGate`, `OutputGateSafety`, `RealtimeOutput` | the speaking gate: arm, epoch, pre-roll, and the frames on the device wire |
| `OutputConservation`, `OutputEffects` | where every kept chunk of audio goes, what moves the gate, and that it can be passed |
| `ManagedSocket` | the two together: no stale audio |
| `ToolWire`, `ToolBroker`, `ToolEndpoint`, `ToolRouter`, `ToolAuthority` | the tool authority protocol, both ends, the bridge session and the network |
| `ToolBreaker`, `BrokerEffects`, `ToolRoundTrip` | the circuit breaker and every answer, what moves the broker, and a call that comes all the way round |
| `ManagedTools` | the managed socket and the tool session together: interrupted turns reach nothing |
| `AppServerResponses`, `AppServerWrites` | which response to an App Server request commits, and when one can be written |
| `ToolResponses` | the tool session and the App Server client together: how many responses a request gets |
| `SpeechLane`, `LaneProgress` | the speech lease, the offer slot and session cleanup, and how the lane comes back to idle |
| `Transport`, `TransportProgress` | a WebRTC receive queue with its cancellation replay slot |
| `DevicePreroll`, `DeviceWake`, `DeviceHandover`, `DeviceModes` | the device's pre-roll and its fallback to Home Assistant, what each handover gives it, and who owns the microphone |
| `Levels`, `Gain`, `Trim`, `Normalizer`, `Clipping` | gain, silence trimming, the streaming normalizer and when its clamp acts |
| `AecConfig`, `Utf8` | the guarded AEC config installer and UTF-8 truncation |

Safety is half of each protocol; the other half is that nothing is dropped or stuck. Three kinds of theorem say
so: conservation laws over runs (requests, answers, audio), lists of all the causes of a variable (the `Moves` lemmas,
one per variable whichever handler it is in), and short ways on from every reachable state (the `Progress` modules).

What the proofs turned up:

* The streaming resampler and the one-shot conversion agree on every clip exactly when the source rate
  is below twice the output rate.
* The device trace leaves its grammar exactly when a frame is written after a lost `speaking.started`
  or `speaking.stopped`: a started frame that times out, and the stop of an end_output that was waiting
  for the output lock. Arming never flushes the pre-roll, which never holds more than one chunk.
* A receive queue is first-in first-out exactly until a drain overtakes an item already won.
* A late response to an App Server request is suppressed until its id has left the list of retired ids,
  which takes at least 1,024 later retirements; then it is written. A request thus gets two responses,
  of the session and of the fallback timer, exactly if the session answers that late.
* The terminal of a render's own turn retires it exactly when it names no response. One that names a
  response changes nothing, and until another terminal of that turn comes nothing else is rendered.
* A streaming transcription that is cancelled at the gather in its `finally` loses a finished, unoffered
  speech session: no close of it ever starts. A finite transcription never does. (The constant at
  bridge/service.py:125 switches the handoff of sessions off; this is the code with it on.)
* A retained speech session is in two places exactly while the lease holds it after its own body closed
  it; one close task serves both closes. An offer never replaces another one: that branch is dead.
* When the vendor's audio handler raises during a replay, Home Assistant still gets the pipeline. It has
  everything since the wake exactly unless a handler raised before the last frame due in the handover; then
  it misses the rest of what was due, and only that.
* The normalizer's clamp never acts on a chunk after the verdict. In the first emission it acts exactly if
  the gain, taken from the probe alone, lifts a sample emitted with the verdict past full scale.

## Model

| member | source | states |
|---|---|---|
| Resampler.ChunkingIsInvisible | bridge/audio.py:41-109 | Feeding any list of chunks and finishing yields the frames of the concatenated input, and their number is the larger of the streamed count and the rounded target. |
| Resampler.ReadyIff | bridge/audio.py:82-92 | The interpolation window of frame k is available after n samples exactly when k is below the closed-form streamed count. |
| Resampler.FrameStable | bridge/audio.py:83-96 | A frame that is ready does not change when more input arrives. |
| Resampler.Pcm16MonoResampler.constructor | bridge/audio.py:25-39 | A fresh resampler represents the empty stream. |
| Resampler.Pcm16MonoResampler.Feed | bridge/audio.py:41-61 | Exactly the error cases of the source; otherwise the output is the new ready frames of everything fed, and at most one sample is retained. |
| Resampler.Pcm16MonoResampler.Finish | bridge/audio.py:63-70 | Emits the remaining frames of everything fed, once. |
| Resampler.Pcm16MonoResampler.Drain | bridge/audio.py:72-109 | The while loop, every buffer index in range, appends exactly the frames between the two counts. |
| OneShot.Pcm16Mono24Khz | bridge/audio.py:181-239 | The whole-clip conversion: its error cases, channel averaging and the converted frames. |
| OneShot.ConvertLoop | bridge/audio.py:213-239 | The for loop computes the specified frame sequence. |
| OneShot.FramesAgree | bridge/audio.py:41-109 | Inside the target length a streamed frame and a one-shot frame are equal. |
| OneShot.AgreeIffNotPastTarget | bridge/audio.py:181-239 | For one clip the two conversions agree exactly when the streamed count does not pass the target. |
| OneShot.AgreementIffBelowDoubleRate | bridge/audio.py:181-239 | They agree on every mono clip exactly when the source rate is below 48 kHz. |
| OneShot.FiveSamplesDisagree | bridge/audio.py:72-109 | Five samples at 48 kHz: three streamed frames, two one-shot frames. |
| OneShot.MonoIsFloorOfMean | bridge/audio.py:196-212 | Each stereo frame becomes the floor of the mean of its channels; a mono clip is unchanged. |
| Pcm.RoundIsTheOnlyRounding | bridge/audio.py:95-96 | The rounding used is the nearest integer, and the even one of two equally near, and no other. |
| Pcm.SamplesOfBytes | bridge/audio.py:50-53 | Decoding little-endian PCM16 undoes encoding it. |
| ManagedInvariant.StepKeeps | bridge/service.py:5188-5845 | Every event keeps the joint invariant of lock, requests, turn, slot, gate and claims. |
| ManagedInvariant.ReachedKeeps | bridge/service.py:5188-5845 | The joint invariant holds after every run of events. |
| ManagedInvariant.TakeKeeps | bridge/service.py:5398-5445 | An append that takes the slot finds it empty, with its generation current, and keeps the invariant. |
| ManagedInvariant.QueueKeeps | bridge/service.py:5541-5560 | Queueing a request behind a tool-bearing turn keeps the invariant. |
| ManagedInvariant.BargeKeeps | bridge/service.py:5290-5310 | Tombstoning a side-effect-free turn keeps the invariant. |
| ManagedSafety.BargeExcludesTools | bridge/service.py:5290-5331 | Over a whole run no executor turn is both interrupted by barge-in and has dispatched a tool. |
| ManagedSafety.HistoryIsComplete | bridge/service.py:5290-5303 | The two histories miss nothing: a step tombstones a turn only as recorded, on a turn without a tool; a tool is recorded only for the active, untombstoned turn of the current generation; watchdog and shutdown are the exceptions. |
| ManagedSafety.ToolTurnIsNotInterrupted | bridge/service.py:5300-5331 | A newer utterance, text or device interrupt leaves a turn that ran a tool alone. |
| ManagedSafety.OnePerGeneration | bridge/service.py:5541-5651 | Each generation sends turn/start at most once, completes at most one turn and renders at most once. |
| ManagedSafety.OneUsePerTurnId | bridge/service.py:5249-5256 | A provider turn id dispatches at most one request or binds at most one render, never both. |
| ManagedSafety.HistoryGrows | bridge/service.py:5174-5178 | Those histories only grow; a generation grows by at most one per step and a new one closes the output gate at once. |
| ManagedSafety.QueuedRunsIffCurrent | bridge/service.py:5617-5651 | The completed turn before a queued request is older, had a tool and renders nothing; the queued request resumes exactly when its generation is current. |
| ManagedSafety.SlotTakenWhenEmpty | bridge/service.py:5436-5445 | The render slot is taken exactly by an append of the current generation at its last check, and only when empty. |
| ManagedSafety.SlotReleasedOnlyByItsTerminal | bridge/service.py:5188-5216 | The slot is given up exactly by the matching terminal of its acknowledged, started render or by its own failing append, which fails the socket. |
| ManagedSafety.AuthorizedMeansCurrentRender | bridge/service.py:5147-5186 | Output is authorized only for the current generation while the slot holds its acknowledged, started render; a failed append is the exception. |
| ManagedSafety.GateOpensOnlyAtRenderStart | bridge/service.py:6211-6229 | The gate opens only when a fresh assistant turn starts the current generation's acknowledged render. |
| ManagedSafety.StepDelta | bridge/service.py:5188-5845 | What one event may change in generations, histories, turn and slot. |
| ManagedSafety.RenderedWasTaken | bridge/service.py:5440-5445 | Whatever occupies the slot took it. |
| ManagedRequests.NothingIsLost | bridge/service.py:5541-5750 | In every run, whatever was made of an utterance, a transcript or device text, or a completed turn's answer is still pending or has been delivered with its text: a request by turn/start, an answer by append_speech; unless a newer generation superseded it or its coroutine failed, and for an utterance, unless its user turn ended or sixty-four others pushed it out of the table. |
| ManagedRequests.NothingIsInvented | bridge/service.py:5541-5750 | What is pending, was sent or was spoken was made by an event of the run, with the same generation and text. |
| ManagedRequests.EachInOnePlace | bridge/service.py:5541-5651 | A generation has at most one utterance, request or answer pending, in one coroutine or on one shelf; once it is delivered no other of its kind waits or follows. |
| ManagedRequests.StepConserves | bridge/service.py:5541-5651 | The account of one step: what was pending is pending, delivered for the current generation, superseded, abandoned with the coroutine that fails the socket, or, an utterance, over with its turn or evicted. |
| ManagedRequests.MadeIsPending | bridge/service.py:5679-5750 | A fresh user turn, a first transcript of the current user turn, a device text and an answer of the current turn become pending in the step that brings them, with their text. |
| ManagedProgress.RequestCanStart | bridge/service.py:5549-5600 | From every reachable state a pending current request is sent by turn/start after at most six events in which nothing fails and no generation begins: neither the lock, the queue nor the interrupted turn can hold it for ever. |
| ManagedProgress.AnswerCanBeSpoken | bridge/service.py:5398-5448 | From every reachable state a pending current answer is given to append_speech after at most seven such events; an occupant of the slot that has not started needs one free turn id. |
| ManagedProgress.LockIsReleased | bridge/service.py:5549-5600 | Whoever holds the turn lock lets it go within two such events, or is the current request, which they start. |
| ManagedProgress.NewGenerationAimsAtItsTurn | bridge/service.py:5679-5701 | An utterance or device interrupt that begins a generation suspends an interruption of the turn active at that moment. |
| ManagedProgress.InterruptReachesItsTurn | bridge/service.py:5318-5331 | With the lock free and the turn still the one aimed at, without a tool, that interruption tombstones it. |
| ManagedEffects.StepMoves | bridge/service.py:5147-5845 | For generation, gate, turn, slot, failure and the two interruption histories: the complete list of what changes each, and to what, in any step. |
| ManagedEffects.StepFlags | bridge/service.py:5249-5256 | The same for the claimed ids, the pending speech and the handled transcript. |
| ManagedTerminal.TerminalRetiresIffUnnamed | bridge/service.py:5258-5288 | The terminal of the turn a started render is bound to retires it exactly if it names no response: one that names one changes nothing; for any other a handler waits through whatever happens, and once it has run, whenever that is, the render is gone. |
| ManagedFrames.StepLater | bridge/service.py:5188-5845 | A suspended coroutine stays as it is until it is itself resumed or aborted, and a render that left the slot never returns to it. |
| ManagedTerminal.NamedTerminalMatchesNothing | bridge/service.py:5269-5273 | A terminal that names a response matches no managed render, because none records a response. |
| ManagedTerminal.WedgeLasts | bridge/service.py:5280-5288 | From then on, until a terminal of that turn names no response or the append fails, the render keeps the slot and nothing else takes it, whatever happens. |
| ManagedTerminal.SlotWedges | bridge/service.py:6239-6248 | A concrete run from a fresh socket that ends so, with a newer request behind the slot. |
| ManagedClosures.RealtimeSocket.ClaimManagedTurnId | bridge/service.py:5249-5256 | Claims a fresh id, refuses a known one, fails at the limit. |
| ManagedClosures.RealtimeSocket.MarkRenderStarted | bridge/service.py:5218-5247 | Binds a response or a turn to an acknowledged render unless another one of its kind holds it, and says whether it did. |
| ManagedClosures.RealtimeSocket.RememberManagedUserTurn | bridge/service.py:5679-5701 | A raw user turn continues the pending speech generation or begins one and interrupts. |
| ManagedClosures.RealtimeSocket.CompleteManagedUserTurn | bridge/service.py:5703-5750 | Dispatches only a first transcript of the current user turn; tombstones an unowned terminal. |
| ManagedClosures.RealtimeSocket.OnAssistantTurnCreated | bridge/service.py:6211-6229 | Claims, binds and authorizes, or cancels a stale render. |
| ManagedClosures.RealtimeSocket.OnAssistantTurnDone | bridge/service.py:6239-6248 | A matching terminal is handled, any other id is tombstoned. |
| ManagedClosures.RealtimeSocket.OnToolCall | bridge/service.py:5653-5669 | A tool is dispatched exactly for the active, untombstoned turn of the current generation. |
| ManagedClosures.RealtimeSocket.AppendBackgroundSpeech | bridge/service.py:5398-5425 | The start of an append: stale or blank answers go nowhere, an occupied slot is awaited. |
| ManagedClosures.RealtimeSocket.CompleteBackgroundTurn | bridge/service.py:5618-5651 | The end of an executor turn: answer, queue, or failure. |
| ManagedClosures.RealtimeSocket.InterruptActiveTurn | bridge/service.py:5325-5331 | An interrupt only of the turn it was aimed at. |
| ManagedClosures.RealtimeSocket.StartBackgroundTurn | bridge/service.py:5549-5562 | Under the lock: stale, queued, interrupting or starting. |
| ManagedClosures.RealtimeSocket.ContinueStart | bridge/service.py:5555-5575 | Once the interrupted turn is over: turn/start for the request, unless it went stale. |
| OutputGateSafety.ReachedKeeps | bridge/service.py:4603-4770 | The gate's invariant holds in every run, whatever the backend generations do. |
| OutputGateSafety.TraceIsWellFormedIff | bridge/service.py:4603-4758 | The device trace is a prefix of (started e, binary*, stopped e)* with e = 1, 2, 3, ... exactly when no frame was written after a lost started or stopped frame. |
| OutputGateSafety.LossIsALostControlFrame | bridge/service.py:7136-7168 | A loss is recorded exactly when the send of a started or stopped frame is lost. |
| OutputGateSafety.LostStartBreaksTheTrace | bridge/service.py:7136-7168 | A concrete run: the started frame times out, the end_output waiting for the lock writes its stop, and the device hears the stop of an epoch it never heard start. |
| OutputGateSafety.BinaryIsCurrent | bridge/service.py:4571-4585 | A binary frame is written only while its generation is authorized and current, and its audio was received under that generation. |
| OutputGateSafety.ReceivedIsCurrent | bridge/service.py:6066-6082 | Provider audio is kept only under the authorized, current generation. |
| OutputGateSafety.PrerollIsBounded | bridge/service.py:4761-4768 | The byte count is the sum of the queued chunks and at most 9,600; never more than one chunk. |
| OutputGateSafety.OnlyAudioBegins | bridge/service.py:4650-4688 | Only the audio task begins a session, with exactly its chunk in the quarantine; arming never does. |
| OutputGateSafety.StepWrites | bridge/service.py:4603-4758 | A step writes at most one frame and rewrites none. |
| OutputConservation.KeptAudioIsAccountedFor | bridge/service.py:6066-6104 | In every run, the chunks in the binary frames written, followed by the one in flight, are the chunks the audio task kept, in order and once, less those given up: with the audio task, at a check of a stale generation, by a failed send, after 500 ms of quarantine, or between sessions by a quarantine that does not want them. |
| OutputConservation.StepBalances | bridge/service.py:4603-4638 | The account of one step, and that at most one chunk is in flight. |
| OutputEffects.GateMoves | bridge/service.py:4603-4758 | For the speaking flag, epoch, arm, arm generation, stop flag and lock: the complete list of what changes each. |
| OutputEffects.AudioGetsThrough | bridge/service.py:6066-6104 | Whenever output is authorized and armed or under way, and neither the audio task nor the socket has ended, at most ten events of the audio task and its sends put a fresh chunk of at most 9,600 bytes on the wire. |
| OutputGate.PruneKeepsExactlyTheCurrent | bridge/service.py:4640-4648 | Dropping only from the head leaves exactly the fresh chunks of the current arm, because entries are ordered. |
| OutputGate.CappedIsLongestFittingSuffix | bridge/service.py:4767-4768 | The byte cap keeps the longest suffix that fits. |
| RealtimeOutput.Output.constructor | bridge/service.py:4508-4516 | The gate's initial variables. |
| RealtimeOutput.Output.PrunePreroll | bridge/service.py:4640-4648 | The pruning loop with its byte count. |
| RealtimeOutput.Output.QuarantineOutput | bridge/service.py:4760-4768 | The quarantine with its cap loop. |
| RealtimeOutput.Output.BeginOutput | bridge/service.py:4603-4622 | Beginning a session, up to its started frame. |
| RealtimeOutput.Output.ArmOutput | bridge/service.py:4664-4683 | Arming under the lock. |
| RealtimeOutput.Output.ExpireArm | bridge/service.py:4654-4662 | The arm timeout. |
| RealtimeOutput.Output.EndOutput | bridge/service.py:4736-4758 | The last locked region of ending a session. |
| RealtimeOutput.Output.TestAudioLoop | bridge/service.py:6068 | The audio loop tests the stop flag only at its top. |
| RealtimeOutput.Output.ReceiveAudio | bridge/service.py:6069-6083 | The generation captured with a received chunk. |
| RealtimeOutput.Output.EnterAudio | bridge/service.py:6085-6100 | A chunk inside the output lock: dropped, sent or quarantined. |
| RealtimeOutput.Output.SentStarted | bridge/service.py:4616-4638 | After the started frame: flush, or drop what went stale. |
| RealtimeOutput.Output.SentPreroll | bridge/service.py:4630-4638 | The pre-roll flush under its guard. |
| RealtimeOutput.Output.SentChunk | bridge/service.py:6092-6095 | A chunk sent under its guard. |
| RealtimeOutput.Output.SentStopped | bridge/service.py:4752-4758 | The stopped frame. |
| ManagedSocket.NoStaleAudio | bridge/service.py:4571-4585 | In any run of the whole managed socket a binary frame is written only while the current generation's acknowledged, started render holds the slot, and carries only audio received under it; a failed append is the exception. |
| ManagedSocket.AudioIsReceivedWhileRendering | bridge/service.py:6066-6091 | Audio is kept only while the current generation is rendering. |
| ManagedSocket.DeviceHearsGenerationsInOrder | bridge/service.py:5174-5186 | Frames on the wire are stamped with generations that never go back. |
| ManagedSocket.ReachedKeeps | bridge/service.py:5188-6230 | The joint invariant of control plane and gate. |
| ToolBroker.BookkeepingIsSound | bridge/tool_broker.py:112-313 | Pending and retired ids are disjoint, of the current generation, at most 16 and 128; a call is pending exactly while its future waits; every started call is counted once. |
| ToolBroker.EachFutureResolvedOnce | bridge/tool_broker.py:157-214 | No future is resolved twice in any run. |
| ToolBroker.DoneIsFinal | bridge/tool_broker.py:210-214 | A future that is done keeps its result. |
| ToolBroker.ResultReachesOnlyItsCall | bridge/tool_broker.py:175-214 | A result resolves its own pending call of the current generation and no other; a late one is dropped quietly once, anything else is an error. |
| ToolBroker.RetiredIsNewestSuffix | bridge/tool_broker.py:288-303 | What an ending call adds to the retired list, and what it drops. |
| ToolBroker.NewestIsSuffix | bridge/tool_broker.py:300-302 | The eviction loop keeps the newest 128. |
| BrokerEffects.BrokerMoves | bridge/tool_broker.py:112-313 | What becomes of every future and call in any step: a future waits until the result of its own call under the current generation and connection, the loss of that connection, or the end of its call, and holds exactly what that brought; and which counter each ending moves. |
| ToolBroker.HomeAssistantToolBroker.constructor | bridge/tool_broker.py:69-85 | An empty broker. |
| ToolBroker.HomeAssistantToolBroker.FailPending | bridge/tool_broker.py:126-148 | Fails each unresolved future of the cleared table, once. |
| ToolBroker.HomeAssistantToolBroker.Attach | bridge/tool_broker.py:112-155 | Registration: busy, or a fresh generation. |
| ToolBroker.HomeAssistantToolBroker.Detach | bridge/tool_broker.py:157-173 | Unregistration of the current connection only. |
| ToolBroker.HomeAssistantToolBroker.HandleResult | bridge/tool_broker.py:175-214 | A tool result, by the specification above. |
| ToolBroker.HomeAssistantToolBroker.StartCall | bridge/tool_broker.py:216-254 | The refusals in order, then a fresh pending call. |
| ToolBroker.HomeAssistantToolBroker.EndCall | bridge/tool_broker.py:255-313 | The outcome counter and the finally block. |
| ToolEndpoint.ExecutesEachCallOnce | custom_components/codex_voice/realtime_tools.py:558-651 | Whatever arrives, a call id is run at most once per connection, only for a declared tool; at most 16 tasks and 1,024 ids. |
| ToolEndpoint.RunsExactlyTheAdmissible | custom_components/codex_voice/realtime_tools.py:496-613 | A call is run exactly when it is fresh, of this generation, well formed, declared and deliverable. |
| ToolEndpoint.StepKeeps | custom_components/codex_voice/realtime_tools.py:428-533 | Every event keeps the connection's invariant. |
| ToolEndpoint.TasksMove | custom_components/codex_voice/realtime_tools.py:473-651 | Every accepted call gets a task that runs its tool or has an error to send, and then what the tool returned, or that it failed or timed out; the task goes only as its result is written, with its socket or with its connection. |
| ToolEndpoint.AuthorityConnection.constructor | custom_components/codex_voice/realtime_tools.py:434-440 | A connection before registration. |
| ToolEndpoint.AuthorityConnection.OnRegistered | custom_components/codex_voice/realtime_tools.py:473-491 | The first registration is taken, a second ends the connection. |
| ToolEndpoint.AuthorityConnection.OnToolCall | custom_components/codex_voice/realtime_tools.py:492-521 | A tool call up to its first await. |
| ToolEndpoint.AuthorityConnection.OnToolReturned | custom_components/codex_voice/realtime_tools.py:614-651 | A returned call is answered unless the socket has closed. |
| ToolEndpoint.AuthorityConnection.OnAnswered | custom_components/codex_voice/realtime_tools.py:653-675 | A call task ends with its result message. |
| ToolRouter.StartKeeps | bridge/service.py:5051-5142 | Starting a call keeps the session's deduplication, its pairing of requests with broker calls, and both limits. |
| ToolRouter.RespondAndEndKeeps | bridge/service.py:4929-4973 | Claiming and writing a response keeps them. |
| ToolRouter.FinishKeeps | bridge/service.py:5127-5137 | The done-callback keeps them. |
| ToolRouter.ToolSession.RespondOnce | bridge/service.py:4929-4941 | A response goes out only for an unclaimed request. |
| ToolRouter.ToolSession.StartCall | bridge/service.py:5051-5124 | Deduplication, rejection and the new task. |
| ToolRouter.ToolSession.FinishTask | bridge/service.py:5127-5137 | The done-callback: the task goes, and its request leaves the active map if its response is claimed. |
| ToolRouter.ToolSession.OnCallEnded | bridge/service.py:4996-5045 | The result of a broker call, the breaker, and the claim of the response before it is written. |
| ToolRouter.ToolSession.RunTask | bridge/service.py:5036-5045 | A call that does not go to the broker is answered, and a malformed one trips the breaker. |
| ToolRouter.ToolSession.OnRefused | bridge/service.py:5006-5025 | A call the broker refuses trips the breaker, with the error its kind of refusal has. |
| ToolRouter.ToolSession.RejectUnownedCall | bridge/service.py:5907-5932 | An unowned call is answered without touching Home Assistant. |
| ToolRouter.ToolSession.TearDown | bridge/service.py:6354-6376 | Teardown is one teardown step for each unclaimed active request whose task is over, in some order, and changes nothing else. |
| ToolRouter.TeardownsAnswer | bridge/service.py:6354-6376 | Those steps keep every claim and response there was and add, in that order, a claim and a failure of unknown outcome each. |
| ToolAuthority.AtMostOnce | bridge/service.py:4929-5142 | End to end, under delay, loss, duplication, reordering and reconnects: at most one broker call and one response per request, at most one tool run per call, on one connection. |
| ToolAuthority.SuccessIsHomeAssistants | bridge/tool_broker.py:175-214 | A success response carries the value Home Assistant produced for the request's own call, run once with its own tool and arguments in its own generation. |
| ToolAuthority.TrippedMeansNoCalls | bridge/service.py:5076-5083 | A request first seen after the circuit breaker tripped never reaches the broker, in any continuation. |
| ToolAuthority.RejectedMeansNoCalls | bridge/service.py:5072-5099 | Nor does a request that was rejected for any other reason. |
| ToolAuthority.CallsAreBounded | bridge/service.py:5081-5099 | In every run no two requests with one provider call id reach the broker, at most 1,024 do, and at most 16 are on their way or inside it. |
| ToolAuthority.WorldIsSound | bridge/tool_broker.py:112-313 | The joint invariant of session, broker, connections and networks. |
| ToolBreaker.StepMoves | bridge/service.py:4975-5105 | One step as the session sees it: the breaker trips exactly when a request runs malformed or without a snapshot, is refused by the broker, or its call times out, is disconnected, cannot be sent or fails with do-not-retry; what every response says, a resolved future its own success flag and value; which request reaches the broker, and which is admitted. |
| ToolBreaker.StepTasks | bridge/service.py:5051-5135 | The session's tasks in any step: a new request gets one, which executes or holds its rejection by the first test that failed, and ends with its answer, its call or its cancellation; its done-callback takes it away, and the request with it if it was answered. |
| ToolBreaker.UnknownOutcomeEndsCalls | bridge/service.py:5006-5007 | After any response of unknown outcome but a teardown's, no request first seen later ever reaches the broker. |
| ToolBreaker.CallsAreAsRequested | bridge/service.py:5001-5005 | A broker call of the session carries the name and arguments its request was started with. |
| ToolRoundTrip.CallComesRound | bridge/tool_broker.py:216-276 | From every reachable state an unanswered request that runs complete and is not refused, with its endpoint serving, is answered with success and the very value its tool returned, by seven events through session, broker, network and endpoint. |
| ManagedTools.InterruptedTurnReachesNothing | bridge/service.py:5653-5669 | In every run of socket and session together, no broker call and no tool run is for an executor turn that was interrupted by barge-in. |
| ManagedTools.TombstonedTurnStartsNothing | bridge/service.py:5653-5669 | Once a turn is over or tombstoned, by barge-in, watchdog or shutdown, no further request is started for it in any continuation. |
| ManagedTools.StartedByItsActiveTurn | bridge/service.py:5653-5669 | A request is started only by the active, untombstoned turn of the current generation that made it. |
| ManagedTools.RequestIsDispatchedOrAnswered | bridge/service.py:5653-5669 | A tool request that is not buffered is started for the active, untombstoned turn of the current generation, which is marked as having run a tool; for any other it is claimed by a failure at once. |
| AppServerResponses.OneCommitPerActivation | bridge/app_server.py:287-316 | At most one response commits per activation, in every race of handler, timer, cancellation and failed writes. |
| AppServerResponses.FallbackStaysArmed | bridge/app_server.py:436-444 | A delivered, uncommitted request keeps its timer until it fires or the client closes. |
| AppServerWrites.CanBeAnsweredIff | bridge/app_server.py:280-314 | In every run a response can be written exactly if the id has not been used again nor the client closed since the request arrived, no write of it has committed and none is under way; a write that then begins and completes commits, once. |
| AppServerWrites.InsideWriteIff | bridge/app_server.py:296-310 | An activation is inside a write exactly from its begin to its own commit or failure, and written exactly if one of its writes committed, in terms of the events of the run. |
| AppServerWrites.CurrentIff | bridge/app_server.py:293-308 | An activation is current exactly until its id is used again, the client closes, or it is answered. |
| AppServerWrites.TimersMove | bridge/app_server.py:311-314 | The fallback timer starts as the request reaches a subscriber and sleeps until it fires, or its own activation is answered or the client closes. |
| AppServerResponses.OnlyTheCurrentActivationWrites | bridge/app_server.py:300-306 | A write starts only for the current activation of an id, so a stale timer never answers a reused one. |
| AppServerResponses.CommitRetires | bridge/app_server.py:306-324 | A commit retires its id as the newest and drops only the oldest of 1,024. |
| AppServerResponses.LateResponseIsWrittenIffEvicted | bridge/app_server.py:294-299 | A late response to a retired id is written exactly when the id was evicted, after at least 1,024 later retirements. |
| AppServerResponses.EvictedIdIsAnsweredTwice | bridge/app_server.py:319-324 | A concrete run in which that happens. |
| ToolResponses.AnsweredTwiceIffLate | bridge/app_server.py:287-318 | A request whose id arrived once gets at most two responses, of the session and the fallback timer together, and two exactly if the session answered after the id had been retired and had left the retired list. |
| ToolResponses.LateIsVeryLate | bridge/app_server.py:319-324 | That takes at least 1,024 later retirements. |
| ToolResponses.TimedOutThenLate | bridge/app_server.py:446-486 | A concrete run of session and client in which a request gets both. |
| AppServerResponses.ReachedKeeps | bridge/app_server.py:287-496 | The invariant of states, timers and retired ids. |
| AppServerResponses.AppServerClient.constructor | bridge/app_server.py:86-92 | Empty tables. |
| AppServerResponses.AppServerClient.HandleToolRequest | bridge/app_server.py:393-444 | A tool request activates its id, and arms a timer when delivered. |
| AppServerResponses.AppServerClient.EnterResponse | bridge/app_server.py:294-306 | When a response may be written. |
| AppServerResponses.AppServerClient.CommitResponse | bridge/app_server.py:306-318 | The commit boundary. |
| AppServerResponses.AppServerClient.FailResponse | bridge/app_server.py:300-310 | The failing exit: the write raised or was cancelled, the lock is given back and everything else stays for one more attempt. |
| AppServerResponses.AppServerClient.RetireId | bridge/app_server.py:319-324 | The bounded retired list. |
| AppServerResponses.AppServerClient.CancelTimeout | bridge/app_server.py:488-496 | Only the activation's own timer is cancelled. |
| AppServerResponses.AppServerClient.FireTimer | bridge/app_server.py:456-460 | A sleeping timer fires once. |
| AppServerResponses.AppServerClient.EndTimer | bridge/app_server.py:484-486 | A timer task forgets only itself. |
| AppServerResponses.AppServerClient.CloseClient | bridge/app_server.py:169-184 | Closing cancels the armed timers and clears the tables. |
| SpeechLane.LeaseIsExclusive | bridge/service.py:807-902 | At most one request is inside the lease, and it is the owner. |
| SpeechLane.GrantFindsAllClosed | bridge/service.py:824-858 | When a lease is granted, every close that ever started has finished, and every session ever made is finished, lost, or the offer, which goes to this lease or to cleanup. |
| SpeechLane.SessionPlaces | bridge/service.py:703-733 | A session is in at most two of offer slot, lease and close task: in none exactly if it was lost at a cancelled gather, in two exactly while a lease holds it whose own body has closed it. |
| SpeechLane.OnlyMadeSessions | bridge/service.py:703-733 | Only sessions that were made are anywhere. |
| SpeechLane.OfferGoesToOne | bridge/service.py:835-857 | A session leaving the offer slot goes in that step to one synthesis or to cleanup. |
| SpeechLane.CloseStartsAtMostOnce | bridge/service.py:718-724 | The close of a session has started exactly once if it has a close task and never otherwise, also when body and lease both close it. |
| SpeechLane.LeaksIffGatherCancelled | bridge/service.py:2195-2222 | With the lane idle, a session is unclosed exactly if some step of the run cancelled its streaming handler at the gather while the session was unoffered and unclosed. |
| SpeechLane.FiniteNeverLeaks | bridge/service.py:2036-2047 | After any cancellations, with the lane idle, every session of a finite transcription has been closed. |
| SpeechLane.LostIsForever | bridge/service.py:2206-2222 | No later step starts the close of a lost session. |
| SpeechLane.CancelledGatherLeaks | bridge/service.py:2186-2222 | The concrete run: finished as the device cancels, cancelled at the gather, lane idle, session never closed. |
| SpeechLane.BodyAndLeaseBothClose | bridge/service.py:3525-3531 | A concrete run in which a synthesis and its lease both close the session: two places, then one, and one close. |
| SpeechLane.ActiveFlagIsExact | bridge/service.py:1018-1021 | The active flag is owner or cleanup. |
| SpeechLane.NoOfferIsReplaced | bridge/service.py:918-927 | The replacement branch of an offer is dead. |
| LaneProgress.StepMoves | bridge/service.py:806-1016 | For owner, offer, cleanup, close tasks and made sessions: the complete list of what changes each, and which sessions every event sends to cleanup. |
| LaneProgress.LaneComesBack | bridge/service.py:806-902 | From every reachable state the lease under way leaves in at most four events and the closes under way finish; the lane is then idle and grants a fresh request of any kind. |
| LaneProgress.SessionIsHandedOn | bridge/service.py:904-1010 | With the lane idle and its slot empty, a transcription that makes, offers and leaves a session has it taken up by the next compatible synthesis, which runs with that very session. |
| SpeechLane.BridgeState.constructor | bridge/service.py:792-796 | An idle lane. |
| SpeechLane.BridgeState.TryAcquire | bridge/service.py:824-858 | The locked region of the lease. |
| SpeechLane.BridgeState.TrackCleanup | bridge/service.py:1002-1010 | One memoised close task per session. |
| SpeechLane.BridgeState.BeginOfferSession | bridge/service.py:919-924 | The first region of an offer. |
| SpeechLane.BridgeState.PublishOffer | bridge/service.py:929-934 | The second region of an offer. |
| SpeechLane.BridgeState.WithdrawOffer | bridge/service.py:941-994 | Release, invalidation and shutdown of an offer. |
| SpeechLane.BridgeState.GiveUpRetained | bridge/service.py:866-891 | A stale retained session is closed and the lease goes on without it. |
| SpeechLane.BridgeState.CloseInBody | bridge/service.py:3525-3531 | A synthesis closes the session it was handed and its lease keeps it. |
| SpeechLane.BridgeState.FinishFinite | bridge/service.py:2036-2047 | A finite transcription closes what it has not handed on before it awaits anything. |
| SpeechLane.BridgeState.UnwindStreaming | bridge/service.py:2165-2173 | A streaming one closes it at once only if its offer failed. |
| SpeechLane.BridgeState.FinishGather | bridge/service.py:2195-2222 | After the gather an unoffered session is closed, unless the gather was cancelled. |
| SpeechLane.BridgeState.LeaveLease | bridge/service.py:893-897 | Leaving closes the retained session, from wherever the request is cancelled. |
| SpeechLane.BridgeState.ReleaseLease | bridge/service.py:898-902 | The owner is cleared. |
| SpeechLane.BridgeState.OnCleanupFinished | bridge/service.py:1012-1016 | A finished cleanup. |
| Transport.FifoIffNotOvertaken | bridge/webrtc.py:353-433 | Unless a step of the run gave an item up, delivered items, the item in flight, replay and queue are the accepted items in order exactly when no step was a drain that overtook a receive. |
| Transport.FlagsAreSteps | bridge/webrtc.py:353-433 | What counts as overtaking and as giving up, by the state and event of a step. |
| Transport.EachItemOnce | bridge/webrtc.py:353-433 | No item is duplicated, and one is lost only once the transport has failed or closed. |
| Transport.ReplayIsBounded | bridge/webrtc.py:395-433 | Replay holds at most one item, and with the queue never exceeds its bound. |
| TransportProgress.StepMoves | bridge/webrtc.py:267-433 | For every variable of the queue the complete list of what changes it. |
| TransportProgress.HeldIsReceived | bridge/webrtc.py:353-393 | In every reachable state of a transport that has not failed, receives alone hand out everything held: the won item, the replay slot, the queue, in that order. |
| Transport.DrainOvertakes | bridge/webrtc.py:267-278 | A concrete run in which a drain overtakes. |
| Transport.ReceiveQueue.constructor | bridge/webrtc.py:159-171 | An open, empty queue. |
| Transport.ReceiveQueue.PutItem | bridge/webrtc.py:415-433 | Enqueue within the combined bound, or fail the transport. |
| Transport.ReceiveQueue.BeginReceiving | bridge/webrtc.py:360-365 | A receive takes the replayed item first, or waits; a failed transport raises. |
| Transport.ReceiveQueue.EndReceiving | bridge/webrtc.py:366-385 | A won item is returned, unless the failure is seen first and it is given up. |
| Transport.ReceiveQueue.RestoreCancelledReceive | bridge/webrtc.py:395-413 | A won item goes back to the front or fails the transport. |
| Transport.ReceiveQueue.DrainNow | bridge/webrtc.py:267-278 | The drain loop. |
| Transport.ReceiveQueue.FailTransport | bridge/webrtc.py:346-351 | Only the first fault of an open transport counts. |
| DevicePreroll.RememberedIsNewest | device/thirdreality/latency_sitecustomize/sitecustomize.py:198-213 | What is remembered is the end of the idle audio, within 12 KiB. |
| DevicePreroll.SelectedIsLongestSuffix | device/thirdreality/latency_sitecustomize/sitecustomize.py:230-261 | What is admitted is the end of the audio within the budget, and for whole samples as much as fits. |
| DevicePreroll.WithStartupHeadroom | device/thirdreality/latency_sitecustomize/sitecustomize.py:230-261 | The selection loop, newest chunk first. |
| DevicePreroll.RememberFrame | device/thirdreality/latency_sitecustomize/sitecustomize.py:198-213 | The deque loop. |
| DeviceHandover.HomeHearsEverythingIff | device/thirdreality/latency_sitecustomize/sitecustomize.py:450-518 | While Home Assistant owns the pipeline it has the admitted pre-roll and every frame since the wake, in order, once, but for one gap; it has everything exactly unless, in the step of the run that handed the pipeline over, a handler raised before the last frame due. |
| DeviceHandover.HandoverIsCompleteIff | device/thirdreality/latency_sitecustomize/sitecustomize.py:264-585 | Which steps of a run hand the pipeline over, a raise or not; what is handed over is everything due, exactly unless a handler raised before its last frame, and else ends with that frame. |
| DeviceHandover.FallbackOutcome | device/thirdreality/latency_sitecustomize/sitecustomize.py:474-518 | A fallback keeps the pipeline exactly if the wake takes and no poll up to the last one sees a stop, and then has replayed everything up to the frame that raised. |
| DeviceHandover.RaiseLeavesGap | device/thirdreality/latency_sitecustomize/sitecustomize.py:493-518 | A concrete run from an idle device that ends with Home Assistant hearing on past a gap. |
| DeviceWake.StartupFailureFallsBack | device/thirdreality/latency_sitecustomize/sitecustomize.py:521-585 | A session failing before it was ready falls back with everything, this frame included, unless stopped, the wake does not take or the handler raises. |
| DeviceWake.FallbackIsAPrefix | device/thirdreality/latency_sitecustomize/sitecustomize.py:450-518 | However a handover ends, what was handed over is a prefix of that audio, and the pipeline is kept only if no poll saw a stop. |
| DeviceWake.DirectAudioStaysDirect | device/thirdreality/latency_sitecustomize/sitecustomize.py:521-585 | While a direct session owns the microphone Home Assistant gets none of its audio, and the stored bytes are their sum and bounded. |
| DeviceWake.AdmittedIsRecordedSuffix | device/thirdreality/latency_sitecustomize/sitecustomize.py:264-284 | The admitted pre-roll is the end of the recorded idle audio, within the budget. |
| DeviceModes.OwnerMoves | device/thirdreality/latency_sitecustomize/sitecustomize.py:264-585 | Exactly what begins and ends a direct session, asks it to stop and finds it ready, and when Home Assistant gives up the pipeline. |
| DeviceModes.OtherFramesMove | device/thirdreality/latency_sitecustomize/sitecustomize.py:521-536 | Without a direct owner every frame goes to the vendor; an idle, unmuted one is remembered too, any other empties what was remembered. |
| DeviceWake.Satellite.constructor | device/thirdreality/latency_sitecustomize/sitecustomize.py:76-115 | An idle device. |
| DeviceWake.Satellite.DetachOwner | device/thirdreality/latency_sitecustomize/sitecustomize.py:361-388 | Releasing the direct owner. |
| DeviceWake.Satellite.FallbackToHa | device/thirdreality/latency_sitecustomize/sitecustomize.py:450-492 | The fallback with its polls: a stop seen on entry leaves the owner in place. |
| DeviceWake.Satellite.ReplayFrames | device/thirdreality/latency_sitecustomize/sitecustomize.py:493-518 | The replay loop with a poll before every frame, a handler that may raise, and the poll at the end. |
| DeviceWake.Satellite.StartWakeup | device/thirdreality/latency_sitecustomize/sitecustomize.py:264-358 | A direct wake: admitted pre-roll, and every way its start-up can end. |
| DeviceWake.Satellite.HandleOtherAudio | device/thirdreality/latency_sitecustomize/sitecustomize.py:521-536 | A frame without a direct owner. |
| DeviceWake.Satellite.HandleDirectAudio | device/thirdreality/latency_sitecustomize/sitecustomize.py:537-585 | One frame of a direct session. |
| Levels.GainNeverClips | bridge/service.py:3169-3180 | A gain within the peak target never clips: the clamp is a no-op on every sample. |
| Levels.GainsAreSafe | bridge/service.py:3156-3166 | The whole-clip gain and the per-chunk gain are such gains, at least one; the latter never rises. |
| Gain.ClipGainIsGreatest | bridge/service.py:3143-3166 | The gain of a clip is the greatest from 1 to 64 that brings neither its peak past 0.8 nor its RMS level past 0.05, 1 if none above 1 does, and 1 for silence. |
| Gain.VerdictGainIsGreatest | bridge/service.py:551-626 | So is the gain a verdict calibrates, with the levels of its probe: the 4,800 samples of the stream from the onset it names. |
| Gain.NextGainIsGreatest | bridge/service.py:646-668 | In any run of the normalizer a chunk after the verdict is emitted with the greatest gain that is no greater than the one before it and that the chunk's own peak allows. |
| Gain.EmissionLeadsOnset | bridge/service.py:639-668 | What is emitted begins 320 ms before the onset, or with the stream if the onset is sooner. |
| Gain.QuietIff | bridge/service.py:590-626 | Quiet speech is found in thirty frames exactly when five in a row hold three that reach the quiet threshold, ten frames follow the first such frame, and those ten are loud enough and peak at least threefold over their RMS level. |
| Gain.PeakIsReached | bridge/service.py:3134-3141 | The peak is at least every magnitude, and one sample reaches it. |
| Gain.LevelsAdd | bridge/service.py:3134-3141 | Two parts together have the greater peak and the sum of the squares. |
| Gain.RmsIsRootMeanSquare | bridge/service.py:3141 | With a true square root the RMS level squared is the mean of the squared samples. |
| Gain.LoudOnsetIsFirst | bridge/service.py:551-575 | Loud speech is found exactly when some five frames in a row hold three active ones, at the first active frame of the first five that do. |
| Gain.VerdictIsFirst | bridge/service.py:524-549 | A verdict is the first decision, and none could be made before it. |
| Clipping.EmissionIsExactIff | bridge/service.py:639-673 | However a stream is cut up, every sample emitted by a chunk after the verdict is the rounded product; all that is emitted is, exactly if the greatest and least sample emitted with the verdict stay inside full scale under its gain. |
| Clipping.FitsIff | bridge/service.py:3169-3180 | Every sample of some audio is the rounded product exactly if its two extremes stay inside full scale. |
| Clipping.FitsByPeak | bridge/service.py:3169-3180 | The same condition by the peak alone, exact but for one unit of rounding. |
| Clipping.ClampActsOnFirstEmission | bridge/service.py:646-668 | A concrete stream, a steady tone and one loud sample in the chunk of the verdict, on which the clamp acts. |
| Trim.TrimDropsOnlySilence | bridge/service.py:3200-3276 | The result is the whole clip or a frame-aligned suffix dropping at least 2 s, and no dropped frame, nor one up to sixteen frames after it, reaches the active threshold. |
| Trim.OnsetIsSafe | bridge/service.py:3243-3267 | No frame before the onset reaches the active threshold, and at least three frames do. |
| Trim.FirstSustainedIsFirst | bridge/service.py:3279-3290 | The frame found is the first active one of the first sustained window, and one is found exactly when there is such a window. |
| Trim.FindFirstSustained | bridge/service.py:3279-3290 | The search loop. |
| Trim.ThirdGreatest | bridge/service.py:3238-3241 | The third greatest level reaches the threshold exactly when three levels do. |
| Trim.DroppedExactly | bridge/service.py:3243-3276 | When frames are dropped, and how many: speech that begins 116 frames in or later loses all but sixteen of the frames before it, and any other clip is left whole. |
| Normalizer.EmissionFollowsStream | bridge/service.py:639-673 | However a stream is cut up, emission starts at its verdict's start and follows the stream to its end, with gains from the initial one that never rise and stay at least one. |
| Normalizer.VerdictStands | bridge/service.py:524-588 | Onset and initial gain depend on the stream alone and do not change with more input. |
| Normalizer.DiscardSparesPreroll | bridge/service.py:675-687 | The bounded buffer never discards audio that is to be emitted. |
| Normalizer.DecisionIsRecent | bridge/service.py:576-626 | A decision's probe is complete and its onset within the last 30 frames. |
| Normalizer.StreamingNormalizer.constructor | bridge/service.py:631-637 | A normalizer before any audio. |
| Normalizer.StreamingNormalizer.Feed | bridge/service.py:639-673 | What a chunk emits and the gain after it, from everything fed; the pending buffer stays under 920 ms and a frame. |
| Normalizer.StreamingNormalizer.Calibrate | bridge/service.py:524-549 | Each complete frame is analyzed once, up to the first decision, which is the stream's. |
| Normalizer.StreamingNormalizer.BoundPending | bridge/service.py:675-687 | Whole frames are discarded beyond 920 ms. |
| Normalizer.Calibrator.FeedFrame | bridge/service.py:551-588 | The rolling windows decide what the direct definition over all frames decides. |
| AecConfig.RemoveUndoesInstall | device/thirdreality/deploy/prepare_pulseaudio_aec.py:124-189 | Removing what an install added gives back the original text, for every accepted text. |
| AecConfig.InstallUndoesRemove | device/thirdreality/deploy/prepare_pulseaudio_aec.py:124-189 | Installing again gives back the installed text, and a second removal does nothing. |
| AecConfig.InstallOverInstalled | device/thirdreality/deploy/prepare_pulseaudio_aec.py:134-167 | Another install is a no-op exactly for the same method and volume, and refused with the installed ones otherwise; a legacy block is always refused. |
| AecConfig.AtMostOneBlockMatches | device/thirdreality/deploy/prepare_pulseaudio_aec.py:78-119 | At most one current or legacy block ends a given text. |
| AecConfig.RawVolumeIsInjective | device/thirdreality/deploy/prepare_pulseaudio_aec.py:91 | Different percentages give different raw volumes. |
| AecConfig.RawVolumeIsFloor | device/thirdreality/deploy/prepare_pulseaudio_aec.py:91-92 | 100 * raw <= 65,536 * percent < 100 * (raw + 1). |
| AecConfig.InstalledReadsBack | device/thirdreality/deploy/prepare_pulseaudio_aec.py:124-167 | A text is installed into exactly when it holds no marker and no managed name, has both masters and a legal percentage; the block added reads back as the method's own name and, in decimal, that raw volume. |
| AecConfig.DeployedIsGood | device/thirdreality/deploy/prepare_pulseaudio_aec.py:18-48 | The installer's own wording meets the conditions the theorems ask of a template. |
| AecConfig.DeployedRoundTrip | device/thirdreality/deploy/prepare_pulseaudio_aec.py:124-189 | Round trip and idempotence for that wording. |
| Utf8.SlicedTextIsLongestPrefix | bridge/service.py:359-364 | Before the strip the result is the longest code-point prefix that fits, and only one incomplete character is dropped. |
| Utf8.TruncatedFits | bridge/service.py:359-364 | The result is a prefix that fits, the text itself when that fits, and an error exactly for a lone surrogate. |
| Utf8.TruncateIsExact | bridge/service.py:359-364 | The result is the longest fitting prefix less its trailing blanks, and nothing else; a text that fits is left as it is. |
| Utf8.DecodeUndoesEncode | bridge/service.py:361-364 | Decoding undoes encoding and drops nothing from a whole text. |
| Utf8.CutCharacterIsDropped | bridge/service.py:364 | A cut-off character decodes to nothing. |

## Left out

- Early executor events: events of a turn whose turn/start has not returned are ignored until it returns and then come as ordinary events; that they arrive in buffered order is not modelled.
- ManagedClosures.RealtimeSocket.OnTurnStarted: does not replay the buffered events, nor make the interrupt call for a turn that came back stale; the first come as later events, the second changes no variable.
- ManagedClosures.RealtimeSocket.FailStart: does not answer the tool calls buffered for a turn whose start failed; their responses are `ToolRouter`'s.
- Tasks of the socket: a suspended coroutine may be resumed at any time, so the model allows more interleavings than the five or six tasks have; what is proved holds for all of them.
- Wall-clock time: time-to-live, tail waits, watchdog and arm timeouts may pass at any await; how long they take is not modelled.
- The tail wait of end_output: only its last locked region changes state, and it is modelled for every epoch the wait may have captured.
- Tool continuation watchdogs and the unmanaged realtime mode of the control plane: best-effort timers around the same protocol.
- ManagedSafety.ToolTurnIsNotInterrupted: does not cover the executor watchdog and the shutdown path, which interrupt a turn whatever it has done.
- ManagedSafety.AuthorizedMeansCurrentRender: does not cover a generation whose append_speech call failed; that failure ends the socket.
- ManagedSocket.NoStaleAudio: the same exception.
- ToolAuthority.AtMostOnce: speaks of one bridge session; broker calls of other sessions are present but their requests are not told apart.
- AppServerResponses.LateResponseIsWrittenIffEvicted: gives no upper bound on the retirements an id survives, because reused ids leave the list and make room.
- ToolResponses.AnsweredTwiceIffLate: speaks of ids that arrive once and of one session; an untracked write completes or fails in the step that begins it.
- Responses to App Server requests other than tool calls: written at once and not tracked, so only their effect on the retired list is modelled.
- DeviceHandover.HomeHearsEverythingIff: counts the frame whose handler raised as handed over, and assumes session readiness is monotone and that a session that failed before it was ready never becomes ready; Home Assistant's own end of the pipeline is an event.
- SpeechLane.LeaksIffGatherCancelled: a transcription's own work before its session is kept, and the shutdown of the event loop, which may cancel a close task, are not modelled.
- OutputGateSafety.TraceIsWellFormedIff: a failed send ends its task but not at once the others, so its runs go on longer after a loss than the socket does.
- OutputConservation.KeptAudioIsAccountedFor: counts a chunk left in the pre-roll after a failed send, or after the stop flag, as given up: nothing can write it any more.
- OutputEffects.AudioGetsThrough, ManagedProgress.RequestCanStart, ManagedProgress.AnswerCanBeSpoken, LaneProgress.LaneComesBack, TransportProgress.HeldIsReceived: show that a way on is always open; that the event loop, the provider or the executor takes it is not part of this model.
- Transport.FifoIffNotOvertaken: speaks of one queue with one receiver, as the bridge uses it.
- Levels.GainNeverClips: speaks of exact products; float rounding before the clamp is not modelled.
- Normalizer.StreamingNormalizer.Feed: takes whole samples; byte lengths of the source are twice the sample counts here, and a crest factor test by division is a product.
- Trim.TrimDropsOnlySilence: takes whole samples; the source returns an odd number of bytes unchanged.
- Lookup of the raw ALSA master lines in the AEC config: two parameters, each found, missing or invalid quoting; shell-style parsing of a line is not part of this model; size limits and file replacement are left out too.
- Utf8.TruncatedFits: which code points count as whitespace for the final strip is a parameter.
- The paced input track (bridge/webrtc.py:52-135): a byte queue with zero padding that would add only easy members.
- Conversation pruning and the conversation socket, wire validation, configuration, diagnostics, SDP and ICE, process management, scripts and LED control: libraries, plumbing or one-branch checks.
