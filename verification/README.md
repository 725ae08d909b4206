# Verification of the FDE workstation's core protocols

The project models the parts of the FDE workstation whose correctness rests on more than one function, and proves
what they promise. Each source file has a module of its own:

- `LineDiff`, `UnifiedDiff` and `ImageUpdate` are the GitOps updater: the longest-common-subsequence table, the walk
  over it, the printed diff with an independent reader and patch applier, and what an image update means for its diff.
- `IdempotencyStore`, `Delivery` and `StreamBroker` are event delivery: the store with its expiry times, one delivery
  through the event subscriber, and the read/claim loop over a Redis consumer group.
- `StdioFraming` and `StdioClient` are the stdio MCP client: the frame parser and the table of pending requests.
- `PipelineAgent` and `PipelineStateMachine` are the reaction to a finished Tekton run and the status of tasks.
- `Collaboration` is the collaboration consumer on the synchronous in-memory broker.
- `SchemaRegistry` is the JSON schema validator.
- `ToolRuntime` is the permission check, the tool pool, the tool-use loop and the runtime in front of it.
- `Ids` and `ListFiles` are time-ordered ids and the bounded directory walk; `Text`, `Numerals` and `Wrappers` hold
  the JavaScript primitives they share.

Code that updates fields or fills arrays is modelled by classes and methods with loops. Each such method is proved
equal to a specification function on values; the theorems about whole runs are lemmas about those functions. Calls to
the outside (Redis, git, the model, tools, clocks) are parameters that may turn out any way, including by throwing; a
call that throws has no effect. `dafny verify dfyconfig.toml` checks the whole project.

## Where the code does something else than one might expect

- `src/events/redis-streams-event-broker.ts:207` reads the delivery count before it claims, so an entry can cause
  `max_attempts + 1` handler calls; `StreamBroker.BoundReached` shows that it does.
- `src/events/event-subscriber.ts:67` marks a key `failed` before the archive write and the dead-letter write behind
  it, so either of these failing leaves a failed key without a letter (`Delivery.FailedWithoutDeadLetter` has the exact
  condition).
- `src/events/event-subscriber.ts:51-68`: a success whose key write is lost is repeated exactly unless the key gets
  marked `failed` in its place (`Delivery.LostSuccessRunsAgain`).
- `src/events/idempotency-store.ts:42-44`: keys of different consumers collide when consumer ids hold a colon
  (`Delivery.ConsumerKeyCollision`), and so can the send keys of
  `src/agents/collaboration/collaboration-event-consumer.ts:515-522`, which suppresses a card
  (`Collaboration.SendKeyCollision`; `Collaboration.SendKeysShared` has the exact condition).
- `src/runtime/tools/mcp/stdio-mcp-client.ts:258-266`: a negative `Content-Length` can keep the parser's loop from
  ending (`StdioFraming.NegativeLengthSpins`, with the exact condition in `StdioFraming.ProgressExactly`), or cut at a
  place counted from the buffer's end, so that what is left depends on how the data arrived
  (`StdioFraming.PartitionMatters`, with the exact condition in `StdioFraming.NextExtends`). After the child has exited
  by itself the next session starts with the old buffer (`StdioClient.BufferAtConnect`).
- `src/agents/pipeline/pipeline-agent.ts:148-168`: when the key write after `pipeline.build.completed` fails, the
  catch block announces `pipeline.deployment.failed` on top (`PipelineAgent.EndAnnouncedOnce` has the exact
  condition), and the same build can complete again within the day (`PipelineAgent.LostKeyWriteCompletesTwice`).
- `src/agents/pipeline/gitops-yaml-updater.ts:109-120`: a tag with a character that the pattern for values does not
  accept, such as a blank, makes a repeated update repeat the rest of the tag (`ImageUpdate.BlankTagGrows`;
  `ImageUpdate.SecondUpdate` has the exact conditions on the tag).
- `src/agents/pipeline/gitops-yaml-updater.ts:151-160`: an update that only adds a line break which does not take part
  in the lines, such as a CR before an LF or an LF at the end of the file, changes the file but leaves the diff empty
  (`ImageUpdate.EmptyDiffExactly` has the exact condition, `ImageUpdate.HiddenCarriageReturn` a family of such tags).
- `src/common/schema-registry.ts`: the type `null` and composite constants reject every value
  (`SchemaRegistry.NullTypeRejectsAll`, `CompositeConstRejectsAll`) and composite members of `enum` match none
  (`CompositeEnumUnmatched`); `required` and `additionalProperties` without `properties` are not looked at
  (`RequiredAloneIgnored`), nor are keywords about one type of value without a `type` (`UntypedIgnored`), nor siblings
  of `$ref` and `anyOf` (`RefSiblingsIgnored`, `AnyOfSiblingsIgnored`). On a reference cycle that stays on the same
  value, validation never ends (`EndsExactly`).
- `src/common/ids.ts:26` shows an example id with eight digits of time; the code pads to nine, and an id with ten can
  sort before an earlier one with nine (`Ids.OrderEndsAtTenDigits`; `Ids.OrderExactly` has the exact condition).

## Model

| member | source | states |
|---|---|---|
| LineDiff.CreateLcsMatrix | src/agents/pipeline/gitops-yaml-updater.ts:192-207 | every cell of the filled 2-D table holds the longest-common-subsequence length of the two suffixes it stands for |
| LineDiff.LcsLengthIsLongest | src/agents/pipeline/gitops-yaml-updater.ts:192-207 | the table's recurrence really is that length: some common subsequence has it and none is longer |
| LineDiff.CreateLineDiff | src/agents/pipeline/gitops-yaml-updater.ts:162-190 | the two-index walk over the table ends and emits the specified edit script |
| LineDiff.EditScriptCorrect | src/agents/pipeline/gitops-yaml-updater.ts:162-190 | the script's context and '-' lines are the old lines, its context and '+' lines the new ones, and it keeps exactly a longest common subsequence as context |
| LineDiff.EditScriptMinimal | src/agents/pipeline/gitops-yaml-updater.ts:162-207 | no edit script between the same lines has fewer '-' lines or fewer '+' lines |
| LineDiff.EditScriptSame | src/agents/pipeline/gitops-yaml-updater.ts:162-190 | equal contents give every line as context |
| LineDiff.EditScriptFirst | src/agents/pipeline/gitops-yaml-updater.ts:162-207 | the script is the first of all scripts that keep as much as possible: at the first line where another such script differs, this one keeps, or removes where the other adds |
| LineDiff.RemovedBeforeAdded | src/agents/pipeline/gitops-yaml-updater.ts:177-186 | for all contents, no '+' line is directly followed by a '-' line |
| LineDiff.SingleLineChange | src/agents/pipeline/gitops-yaml-updater.ts:162-207 | replacing one line gives context for all others, that '-' line at its place, and that '+' line, directly behind it exactly unless the next line is equal to the new one, and otherwise behind the run of such lines |
| UnifiedDiff.CreateUnifiedDiff | src/agents/pipeline/gitops-yaml-updater.ts:136-149 | the printed text is the three header lines and the edit script, joined by LF |
| UnifiedDiff.SplitConcat | src/agents/pipeline/gitops-yaml-updater.ts:151-160 | the lines of a concatenation are the lines of its parts, glued at the seam, unless a CR LF pair falls on it |
| UnifiedDiff.DiffRoundTrip | src/agents/pipeline/gitops-yaml-updater.ts:136-190 | for a path without LF, reading the text back gives the path, hunk ranges that match the line counts, and a script that turns the old lines into the new ones and, reversed, the new ones into the old |
| UnifiedDiff.PathReadBack | src/agents/pipeline/gitops-yaml-updater.ts:143-148 | the path is read back exactly when it holds no LF |
| ImageUpdate.ReplaceFirstImage | src/agents/pipeline/gitops-yaml-updater.ts:108-126 | the first match of the image name, and nothing else, gets the new value and a repaired end quote; `matched` says whether there is one |
| ImageUpdate.UpdateImage | src/agents/pipeline/gitops-yaml-updater.ts:23-106 | error exactly for an unsupported field path or a missing image; changed exactly if the content differs; the file is written and the diff kept only then |
| ImageUpdate.UpdateDiff | src/agents/pipeline/gitops-yaml-updater.ts:44-207 | for every tag, the diff removes and adds one line exactly when the effective replacement holds no LF and differs from what it replaces; these are then the old image line, at its place, and the new one, as in `SingleLineChange` |
| ImageUpdate.PlainTagDiff | src/agents/pipeline/gitops-yaml-updater.ts:44-207 | for a tag free of CR and LF, an update changes the content exactly when its diff is the old image line at its place, the new one behind it as in `SingleLineChange`, and context |
| ImageUpdate.EmptyDiffExactly | src/agents/pipeline/gitops-yaml-updater.ts:44-207 | for every file and tag: the content changes and the diff has neither '-' nor '+' lines exactly when the replacement differs from what it replaces, but not in the part of it that counts for the lines |
| ImageUpdate.HiddenCarriageReturn | src/agents/pipeline/gitops-yaml-updater.ts:151-160 | a family of such updates: an unquoted image whose tag stays the same but for a CR before the LF |
| ImageUpdate.SecondUpdate | src/agents/pipeline/gitops-yaml-updater.ts:108-126 | the same update on the rewritten file, read by the pattern again: it finds its match exactly when what a value can hold of the tag has no colon, and rewriting that match changes nothing exactly when a value can hold the whole tag |
| ImageUpdate.ReadAgain | src/agents/pipeline/gitops-yaml-updater.ts:109-120 | how the pattern's groups cut up a match that has been rewritten, for every tag |
| ImageUpdate.BlankTagGrows | src/agents/pipeline/gitops-yaml-updater.ts:109-120 | for every tag with a blank, the next update finds the image under the part before it and writes the part from the blank on twice |
| IdempotencyStore.MemoryIdempotencyStore.Get | src/events/idempotency-store.ts:14-24 | answers the unexpired state; dropping an expired record is invisible to every later lookup |
| IdempotencyStore.MemoryIdempotencyStore.Set | src/events/idempotency-store.ts:26-31 | stores state and expiry under the key and touches no other |
| IdempotencyStore.MemoryIdempotencyStore.Has | src/events/idempotency-store.ts:33-35 | true exactly while an unexpired state is stored |
| IdempotencyStore.HeldUntilExpiry | src/events/idempotency-store.ts:14-31 | a state stored for a positive time is found strictly before that time is over and not from then on |
| Delivery.ConsumerKeyInjective | src/events/idempotency-store.ts:42-44 | consumer ids without colon: equal keys exactly for equal consumers and events |
| Delivery.ConsumerKeyCollision | src/events/idempotency-store.ts:42-44 | for every consumer id with a colon and every event, another consumer and event share the key |
| Delivery.EventSubscriber.Handle | src/events/event-subscriber.ts:26-95 | the wrapper with its try/catch: new keys, dead letters, handler calls, outcome and throw, for every combination of call results |
| Delivery.EventSubscriber.Attempt | src/events/event-subscriber.ts:50-63 | the try block, including failures of the writes after the handler has returned |
| Delivery.EventSubscriber.Recover | src/events/event-subscriber.ts:64-94 | the catch block, step by step |
| Delivery.OutcomeMeansState | src/events/event-subscriber.ts:26-95 | a delivery that does not throw is acked exactly when the key is processed, dead-lettered exactly when it is failed, retried exactly when it is processing |
| Delivery.OutcomeExactly | src/events/event-subscriber.ts:37-95 | from the calls of a delivery alone, under a key that is not final: when it throws, and whether it is acked, put off or dead-lettered otherwise |
| Delivery.FinalStatesAbsorb | src/events/event-subscriber.ts:27-36 | a delivery under a final key changes nothing, answers what the key says, and throws exactly when the lookup does |
| Delivery.OtherKeysKept | src/events/event-subscriber.ts:26-95 | a delivery touches no key but its own |
| Delivery.HandleExactly | src/events/event-subscriber.ts:26-95 | from the calls of a delivery alone, under any key that is not final: when the handler runs, when the key becomes processed and when failed, and when there is one more dead letter |
| Delivery.AtMostOneSuccess | src/events/event-subscriber.ts:26-95 | over any deliveries whose successes get the key processed, or else failed, the handler succeeds at most once per consumer and event, and then the key is final |
| Delivery.AtMostOneDeadLetter | src/events/event-subscriber.ts:66-93 | over any deliveries and whatever calls fail, at most one dead letter per consumer and event, and then the key is failed |
| Delivery.FailedMeansDeadLetter | src/events/event-subscriber.ts:66-93 | over any deliveries of which those that give up get their archive record and their dead letter, a key is failed exactly when its dead letter has been written |
| Delivery.FailedWithoutDeadLetter | src/events/event-subscriber.ts:64-83 | for every state and delivery: the key gets failed without a dead letter exactly when the delivery gives up and the archive write or the dead-letter write throws |
| Delivery.LastAttemptBuries | src/events/event-subscriber.ts:66-93 | a failing handler is dead-lettered exactly on the last attempt or a non-retryable error, with one letter |
| Delivery.LostSuccessRunsAgain | src/events/event-subscriber.ts:51-68 | for every state and successful delivery: the key is processed exactly when the success is recorded, and not final, so that the next delivery runs the handler again, exactly when it is neither recorded nor given up |
| StreamBroker.RedisStreamsEventBroker.Publish | src/events/redis-streams-event-broker.ts:48-50 | one more stream entry |
| StreamBroker.RedisStreamsEventBroker.Subscribe | src/events/redis-streams-event-broker.ts:52-80 | one more registration of the running subscription, or after a stop a new one with a loop of its own; nothing if creating the group fails |
| StreamBroker.RedisStreamsEventBroker.Stop | src/events/redis-streams-event-broker.ts:130-134 | the loop does no further round |
| StreamBroker.RedisStreamsEventBroker.CallHandlers | src/events/redis-streams-event-broker.ts:192-197 | the handlers run in order until one asks for a retry, dead-letters or throws |
| StreamBroker.RedisStreamsEventBroker.HandleEntry | src/events/redis-streams-event-broker.ts:168-200 | what one entry leads to: a dead loop on malformed JSON, an acknowledgement without handlers, or the handlers and an acknowledgement if their outcome asks for it |
| StreamBroker.RedisStreamsEventBroker.ReadEntries | src/events/redis-streams-event-broker.ts:167-202 | the entries of one read, in order, with attempt count 1 |
| StreamBroker.RedisStreamsEventBroker.ClaimEntry | src/events/redis-streams-event-broker.ts:213-251 | a claim counts one more delivery and handles the entry |
| StreamBroker.RedisStreamsEventBroker.ClaimPending | src/events/redis-streams-event-broker.ts:206-253 | the idle entries of one XPENDING answer, with the delivery count from before the claim as attempt count |
| StreamBroker.RedisStreamsEventBroker.Consume | src/events/redis-streams-event-broker.ts:147-204 | one round: read, or claim when nothing was read |
| StreamBroker.ExecuteInv | src/events/redis-streams-event-broker.ts:147-253 | in every run, whichever calls fail: no entry is lost, an entry acknowledged after its handlers has a final key, one acknowledged without was listed by no registration, and handler calls stay within the limit |
| StreamBroker.ExecuteDelivered | src/events/redis-streams-event-broker.ts:147-253 | keys, dead letters and handler calls of a run are those of some sequence of deliveries to the consumer |
| StreamBroker.RunGuarantees | src/events/redis-streams-event-broker.ts:147-253 | over a whole run, with redeliveries and duplicate entries: at most one dead letter per event; at most one success if the calls let successes stick; and a dead letter exactly for a failed key if giving up always gets its record and its letter |
| StreamBroker.HandlerCallsBounded | src/events/redis-streams-event-broker.ts:185-251 | at most `max_attempts + 1` handler calls for one entry, one if `max_attempts` is at most 1 |
| StreamBroker.BoundReached | src/events/redis-streams-event-broker.ts:207-251 | for every `max_attempts` there is a run that makes that many calls |
| StreamBroker.OthersSkipped | src/events/redis-streams-event-broker.ts:192-197 | once the key is processed the other matching handlers do not run; each looks the key up, and the outcome stays acked exactly if all these lookups succeed |
| StreamBroker.ProcessEntryEffect | src/events/redis-streams-event-broker.ts:168-200 | handling one entry keeps final keys, adds at most one handler call, and leaves the entry pending with attempts left, settled with a final key, or discarded for want of a handler |
| StreamBroker.RegisteredExactly | src/events/redis-streams-event-broker.ts:52-134 | in every run whose loop has not died: it goes on exactly unless it was stopped and nobody has subscribed since, and the registrations are the successful subscriptions since the last stop |
| StreamBroker.MatchingCounts | src/events/redis-streams-event-broker.ts:267-271 | an event has as many matching handlers as registrations list its type |
| StreamBroker.SettledExactly | src/events/redis-streams-event-broker.ts:168-200 | whatever the calls do: an entry whose type some registration lists, under a key that is not final, is settled under a processed key exactly when its handler returns and all calls that go with it succeed, and under a failed one exactly when the delivery gives up and its calls succeed |
| StreamBroker.SettledUnderFinalKey | src/events/redis-streams-event-broker.ts:168-200 | under a final key no handler runs, and the entry is settled exactly when the lookups and the acknowledgement succeed |
| StreamBroker.DiscardedExactly | src/events/redis-streams-event-broker.ts:168-191 | an entry is discarded exactly when it holds no event or no registration lists its type, and its acknowledgement succeeds; malformed ones and failing acknowledgements end the loop |
| StreamBroker.ReadIsSettled | src/events/redis-streams-event-broker.ts:147-204 | after any run, if from there on handlers return, calls succeed and nobody stops the broker: every event read from there on whose type was registered by then is settled under a processed key, unless the key was failed before |
| StreamBroker.ClaimIsSettled | src/events/redis-streams-event-broker.ts:206-253 | after any run and with nothing left to read, a round with successful calls settles each idle pending event that has a registration and fewer than a batch of pending entries before it |
| StdioFraming.ProgressExactly | src/runtime/tools/mcp/stdio-mcp-client.ts:248-266 | a pass that finds its body goes on with the bytes behind it, which are fewer exactly unless the body ends on the buffer's start or at least a whole buffer before it |
| StdioFraming.NegativeLength | src/runtime/tools/mcp/stdio-mcp-client.ts:254-266 | for every negative length and whatever follows the header: when the loop spins, and when it cuts from the buffer's end |
| StdioFraming.NegativeLengthSpins | src/runtime/tools/mcp/stdio-mcp-client.ts:258-266 | a header on which a pass changes nothing, whatever arrives behind it |
| StdioFraming.PartitionMatters | src/runtime/tools/mcp/stdio-mcp-client.ts:258-266 | a stream with a negative length of which one chunk and two chunks leave different bytes |
| StdioFraming.NextExtends | src/runtime/tools/mcp/stdio-mcp-client.ts:247-264 | bytes that arrive later leave a decision as it was exactly unless it cuts at a place counted from the buffer's end |
| StdioFraming.ChunkingIrrelevant | src/runtime/tools/mcp/stdio-mcp-client.ts:245-267 | any partition of a stream without such cuts delivers the same bodies in the same order and leaves the same buffer |
| StdioFraming.NonNegativeForward | src/runtime/tools/mcp/stdio-mcp-client.ts:253-264 | a stream that declares no negative length has no such cuts |
| StdioFraming.NonNegativeChunking | src/runtime/tools/mcp/stdio-mcp-client.ts:245-267 | so every partition of a stream that declares no negative length delivers and leaves the same |
| StdioFraming.ParsePrintedLength | src/runtime/tools/mcp/stdio-mcp-client.ts:313-322 | the length in a written header is parsed back |
| StdioFraming.FirstLengthLine | src/runtime/tools/mcp/stdio-mcp-client.ts:313-322 | of several header lines the first with the key of the length, in whatever case, decides: its value up to the next colon, or a throw if there is no colon |
| StdioFraming.LengthAmongLines | src/runtime/tools/mcp/stdio-mcp-client.ts:313-322 | a written length is read wherever its line stands, as long as no line before it names the length |
| StdioFraming.NextFrame | src/runtime/tools/mcp/stdio-mcp-client.ts:240-264 | a written frame at the front of a buffer is taken as its body, and what follows it is left |
| StdioFraming.FramesRoundTrip | src/runtime/tools/mcp/stdio-mcp-client.ts:240-267 | concatenated frames deliver exactly their bodies and leave the buffer empty |
| StdioFraming.WriteThenRead | src/runtime/tools/mcp/stdio-mcp-client.ts:240-267 | the same for every way of cutting the frames into chunks |
| StdioClient.StdioMcpClient.Connect | src/runtime/tools/mcp/stdio-mcp-client.ts:93-106 | a client without child gets one and is no longer closing; otherwise nothing changes |
| StdioClient.StdioMcpClient.Request | src/runtime/tools/mcp/stdio-mcp-client.ts:179-218 | issues the next id with a timer; without a child or on a failing write it is settled at once |
| StdioClient.StdioMcpClient.TimerFires | src/runtime/tools/mcp/stdio-mcp-client.ts:183-196 | settles exactly the request that the timer belongs to |
| StdioClient.StdioMcpClient.FailAll | src/runtime/tools/mcp/stdio-mcp-client.ts:297-303 | settles every pending request, in the order of the ids |
| StdioClient.StdioMcpClient.HandleMessage | src/runtime/tools/mcp/stdio-mcp-client.ts:269-291 | settles by id, fails everything on text that is not JSON, throws on `null` |
| StdioClient.StdioMcpClient.HandleStdout | src/runtime/tools/mcp/stdio-mcp-client.ts:245-267 | whenever the loop ends at all, it has handled the bodies cut out of old buffer and chunk, and says whether it threw |
| StdioClient.StdioMcpClient.ChildExits | src/runtime/tools/mcp/stdio-mcp-client.ts:110-115 | fails everything pending unless the client is closing, and keeps the buffer |
| StdioClient.StdioMcpClient.Disconnect | src/runtime/tools/mcp/stdio-mcp-client.ts:133-144 | with a child: nothing pending, an empty buffer; without one nothing changes |
| StdioClient.SessionInv | src/runtime/tools/mcp/stdio-mcp-client.ts:93-303 | in every interleaving of connects, requests, timeouts, data, failures and disconnects, up to a call that never ends: ids issued are the pending and the settled ones, never both, timers run exactly for pending ones, and no request settles twice |
| StdioClient.SettledForGood | src/runtime/tools/mcp/stdio-mcp-client.ts:179-303 | what has been settled stays settled as it was, whatever happens next |
| StdioClient.SettledByOwnReply | src/runtime/tools/mcp/stdio-mcp-client.ts:245-291 | in every session, a request is resolved or rejected only by a body that was cut out of the data received and decodes to a message with the request's id, with an error exactly if it is rejected |
| StdioClient.ReplySettles | src/runtime/tools/mcp/stdio-mcp-client.ts:245-291 | the other half, in every session: when data arrives that frames the first reply to a pending request behind messages only, that settles it, rejected if it carries an error and resolved otherwise; a body that is not JSON before any reply fails it |
| StdioClient.NullThrows | src/runtime/tools/mcp/stdio-mcp-client.ts:263-291 | a body `null` behind messages only makes the receive throw, with these messages handled and the bodies behind it left in the buffer |
| StdioClient.RepliesSettleRequests | src/runtime/tools/mcp/stdio-mcp-client.ts:240-291 | replies written as frames and read in any chunking: each settles its own request, a request without one stays pending, and nothing is pending if there is one for each |
| StdioClient.FailAllInv | src/runtime/tools/mcp/stdio-mcp-client.ts:297-303 | afterwards nothing is pending, and settlements are only added |
| StdioClient.FailFromSettles | src/runtime/tools/mcp/stdio-mcp-client.ts:297-303 | every pending request is among those settled as failed |
| StdioClient.ReceiveHandlesFrames | src/runtime/tools/mcp/stdio-mcp-client.ts:245-267 | as long as no body is `null`, a receive handles exactly the bodies that the framing cuts out, in order, and ends, throws or spins as the framing says |
| StdioClient.ChunkingSettlesTheSame | src/runtime/tools/mcp/stdio-mcp-client.ts:245-291 | a stream without cuts counted from the end settles the same requests in the same way however it is cut up, also if it comes to a header without a length or one that throws |
| StdioClient.NonNegativeSettlesTheSame | src/runtime/tools/mcp/stdio-mcp-client.ts:245-291 | the same for every stream that declares no negative length |
| StdioClient.BufferAtConnect | src/runtime/tools/mcp/stdio-mcp-client.ts:110-143 | a disconnect of a running child empties the buffer; after an exit the next session starts with the old one |
| StdioClient.ConnectedExactly | src/runtime/tools/mcp/stdio-mcp-client.ts:93-143 | in every session in which no call got stuck: the client has a child exactly after a connect with no exit or disconnect since, and is closing exactly after a disconnect of a child with no connect since |
| StdioClient.PendingNeedsChild | src/runtime/tools/mcp/stdio-mcp-client.ts:110-218 | in every such session a request is pending only while there is a child |
| StdioClient.RequestExactly | src/runtime/tools/mcp/stdio-mcp-client.ts:179-218 | a request is pending exactly if there is a child and the write succeeds, else settled at once as a failed write |
| StdioClient.StuckOnlyByData | src/runtime/tools/mcp/stdio-mcp-client.ts:245-267 | a session gets stuck only in a call that handles data |
| PipelineAgent.PipelineAgent.HandleTektonPipelineRunCompleted | src/agents/pipeline/pipeline-agent.ts:49-175 | store, effects and outcome of one delivery, for every combination of what the collaborators do |
| PipelineAgent.PipelineAgent.DeployImage | src/agents/pipeline/pipeline-agent.ts:78-163 | the try block: its effects in order, how it ends, and the key it leaves |
| PipelineAgent.PipelineAgent.CommitAndAnnounce | src/agents/pipeline/pipeline-agent.ts:126-154 | commit, announcements, sync and completion in order, cut off by the first failure |
| PipelineAgent.PipelineAgent.FailRun | src/agents/pipeline/pipeline-agent.ts:164-174 | the failure is announced before the key is marked |
| PipelineAgent.AnnouncedExactly | src/agents/pipeline/pipeline-agent.ts:78-163 | what the collaborators have to do for the try block to announce an end, and for it to announce completion |
| PipelineAgent.EndAnnouncedOnce | src/agents/pipeline/pipeline-agent.ts:63-174 | a run that returns announces its end last, completion exactly if it succeeded, and exactly one end unless the collaborators get the try block to announce one and the key write after it is lost |
| PipelineAgent.RunEndsExactly | src/agents/pipeline/pipeline-agent.ts:63-174 | from the collaborators alone: when a run succeeds, when it fails, when it throws, and everything it announces about its end, in order |
| PipelineAgent.FailureAnnouncedExactly | src/agents/pipeline/pipeline-agent.ts:63-174 | a failure is announced exactly when the preflight blocks and its publish succeeds, or a failed build whose fix does not throw, or a try block that raised, gets its publish through |
| PipelineAgent.DeployStages | src/agents/pipeline/pipeline-agent.ts:78-124 | what the collaborators have to do for the try block to get to the commit, and for it to end in a discard |
| PipelineAgent.CommitOnlyWhenCleared | src/agents/pipeline/pipeline-agent.ts:78-136 | a commit is attempted exactly when preflight did not block, the update changed the file and governance (if on) approved at a low enough risk, and with the changed files |
| PipelineAgent.DiscardOnlyOnRejection | src/agents/pipeline/pipeline-agent.ts:115-124 | changes are discarded exactly when governance returned a rejection; then exactly the changed files are, and nothing but the failure follows |
| PipelineAgent.EffectsInOrder | src/agents/pipeline/pipeline-agent.ts:78-154 | the try block's effects are a prefix of one fixed order, a discard, or a blocked preflight; announcing the YAML change takes a commit that succeeded or an unchanged file |
| PipelineAgent.PipelineKeyInjective | src/agents/pipeline/pipeline-agent.ts:51 | environments without colon: equal keys exactly for equal build and environment |
| PipelineAgent.RunAllInv | src/agents/pipeline/pipeline-agent.ts:51-61 | after any sequence of runs the key of each completion is processed until a day has passed |
| PipelineAgent.CompletionsADayApart | src/agents/pipeline/pipeline-agent.ts:51-154 | two announced completions of one key are at least 86400 seconds apart, if the key writes behind completions succeed |
| PipelineAgent.LostKeyWriteCompletesTwice | src/agents/pipeline/pipeline-agent.ts:52-168 | for any two runs of a build that would complete, the second does exactly after a day, or if the first one's key write was lost, at once when the key got marked failed and else after an hour; only so do two completions fall within a day |
| PipelineAgent.SkippedNextExactly | src/agents/pipeline/pipeline-agent.ts:51-168 | from the collaborators of a run that starts: the next one of the same build and environment is skipped exactly for a day if it succeeded, never if it failed, and for an hour from its beginning if it threw |
| PipelineAgent.SkippedOnlyBySameBuild | src/agents/pipeline/pipeline-agent.ts:51-59 | a run is skipped only because of an earlier run for the same build and environment |
| PipelineStateMachine.PipelineStateMachine.CreateTask | src/agents/pipeline/state-machine.ts:49-78 | a pending entry with an empty history, others untouched |
| PipelineStateMachine.PipelineStateMachine.Transition | src/agents/pipeline/state-machine.ts:96-157 | succeeds exactly for an allowed transition, which it records; a rejected one changes nothing; the answer names the status and its event |
| PipelineStateMachine.PipelineStateMachine.CanTransition | src/agents/pipeline/state-machine.ts:190-196 | says exactly whether the transition would succeed |
| PipelineStateMachine.RunValid | src/agents/pipeline/state-machine.ts:96-157 | in every reachable state each history is a connected path of allowed transitions from pending to the current status, and ends at the last update |
| PipelineStateMachine.UpdatesBalanceFailures | src/agents/pipeline/state-machine.ts:10-17 | entries into updating equal entries into failed when pending, failed or retrying, and exceed them by one otherwise |
| PipelineStateMachine.SuccessThroughSync | src/agents/pipeline/state-machine.ts:10-17 | success is reached only through updating and syncing |
| PipelineStateMachine.TablesInverted | src/agents/pipeline/state-machine.ts:10-27 | both tables the other way round: where each status is entered from, and which statuses each event stands for |
| PipelineStateMachine.EventFromHistory | src/agents/pipeline/state-machine.ts:20-27 | on every path, the event says what happened: a failed deployment that there was a failure and no update since, a YAML update that one is under way, a completed build that there was none or the last one succeeded |
| PipelineStateMachine.ApplyExtends | src/agents/pipeline/state-machine.ts:117-149 | an operation extends one history at most; success absorbs; rejected ones and those on other ids change nothing |
| PipelineStateMachine.RunExtends | src/agents/pipeline/state-machine.ts:96-157 | the same over any further operations |
| Collaboration.CollaborationEventConsumer.PublishEvent | src/events/memory-event-broker.ts:17-34 | publishing runs the subscribed handler before it returns |
| Collaboration.CollaborationEventConsumer.Deliver | src/events/event-subscriber.ts:26-95 | the wrapper with calls that do not fail and attempt count 1 |
| Collaboration.CollaborationEventConsumer.Dispatch | src/agents/collaboration/collaboration-event-consumer.ts:91-109 | each event type goes to its handler |
| Collaboration.CollaborationEventConsumer.HandleCardActionClicked | src/agents/collaboration/collaboration-event-consumer.ts:118-160 | one card update and one progress report per message, action and value, given up on failure |
| Collaboration.CollaborationEventConsumer.HandleNotificationSent | src/agents/collaboration/collaboration-event-consumer.ts:173-197 | one progress report per notification, message and status |
| Collaboration.CollaborationEventConsumer.HandleNotificationTimeout | src/agents/collaboration/collaboration-event-consumer.ts:199-222 | progress first, then the escalation with all that it sets off, then the key |
| Collaboration.CollaborationEventConsumer.HandleEscalationTriggered | src/agents/collaboration/collaboration-event-consumer.ts:224-236 | nothing without a target or under a busy key, else the card |
| Collaboration.CollaborationEventConsumer.SendCard | src/agents/collaboration/collaboration-event-consumer.ts:237-263 | the card, the event that says how it went, and the key that follows from it |
| Collaboration.CollaborationEventConsumer.PublishProgressUpdated | src/agents/collaboration/collaboration-event-consumer.ts:265-289 | the artifact before the event; no event if it cannot be written |
| Collaboration.KeyFamilies | src/agents/collaboration/collaboration-event-consumer.ts:494-522 | timeout keys, send keys and all other keys never coincide |
| Collaboration.TimeoutKeysShared | src/agents/collaboration/collaboration-event-consumer.ts:498-500 | a timeout without a notification id shares its key exactly with those of its message and those whose notification id is that message |
| Collaboration.SendKeysShared | src/agents/collaboration/collaboration-event-consumer.ts:515-522 | escalations share a key exactly when they share notification and target, or one notification is the other with the beginning of its target; which takes a colon in a notification and in a target id |
| Collaboration.SendKeyCollision | src/agents/collaboration/collaboration-event-consumer.ts:515-522 | two families of different notifications and targets that share a key |
| Collaboration.PublishKeeps | src/events/memory-event-broker.ts:17-34 | a cascade keeps the at-most-once invariant and leaves the keys of the handlers above it alone |
| Collaboration.RaisedAndSentOnce | src/agents/collaboration/collaboration-event-consumer.ts:173-263 | over any events with all they set off, whatever cards and artifacts fail: at most one escalation per notification key and one sent card per notification and target |
| Collaboration.CardSentExactlyWhen | src/agents/collaboration/collaboration-event-consumer.ts:224-263 | a card goes out exactly when there is a target, its key is free and the connector accepts |
| Collaboration.RaisedExactlyWhen | src/agents/collaboration/collaboration-event-consumer.ts:199-222 | an escalation is raised exactly when a message is named, its key is free and the progress record gets written |
| Collaboration.CascadeBounded | src/agents/collaboration/collaboration-event-consumer.ts:199-263 | every cascade starts with its event and ends, after at most five events |
| Collaboration.AgreesWithDelivery | src/events/event-subscriber.ts:26-95 | on top of its handler, the consumer's subscriber does to its key and to the dead letters what one delivery of `Delivery` with attempt count 1 does |
| Collaboration.TargetRead | src/agents/collaboration/collaboration-event-consumer.ts:292-310 | an escalation goes to the target its event names, if type and id are not blank, and else to the configured one |
| Collaboration.ReportedExactlyWhen | src/agents/collaboration/collaboration-event-consumer.ts:118-197 | a card action, a sent notification or a reply publishes its progress event exactly when there is something to report, its key is free, the action's card could be updated and the artifact gets written; and the key it leaves |
| Collaboration.TimeoutAnnounces | src/agents/collaboration/collaboration-event-consumer.ts:199-222 | a timeout publishes progress and escalation first, in this order, exactly when it raises one, and else nothing |
| Collaboration.EscalationAnnounces | src/agents/collaboration/collaboration-event-consumer.ts:224-263 | an escalation publishes first that its card was sent or that it failed, as the connector says, and nothing if there is no target, a busy key or a throw |
| SchemaRegistry.RankDecreases | src/common/schema-registry.ts:56-60 | a reference that stays on the same value lowers the rank, when every reference cycle passes through a sub-value |
| SchemaRegistry.FileSchemaRegistry.CheckNode | src/common/schema-registry.ts:55-123 | validation ends and gives the specified errors or throws |
| SchemaRegistry.FileSchemaRegistry.CheckBranches | src/common/schema-registry.ts:63-72 | the verdicts of all branches of `anyOf` |
| SchemaRegistry.FileSchemaRegistry.CheckObject | src/common/schema-registry.ts:95-116 | required keys, undeclared fields and properties, in this order |
| SchemaRegistry.FileSchemaRegistry.CheckFields | src/common/schema-registry.ts:101-110 | the errors of undeclared fields, in order; a throw of one is a throw of all |
| SchemaRegistry.FileSchemaRegistry.CheckProperties | src/common/schema-registry.ts:111-115 | the errors of declared properties that are present |
| SchemaRegistry.FileSchemaRegistry.CheckElements | src/common/schema-registry.ts:117-121 | the errors of array elements |
| SchemaRegistry.ValidatorMeansSchema | src/common/schema-registry.ts:55-137 | no errors exactly when the value satisfies the declarative reading of the schema (JSON Schema 2020-12 Core, sections 8.2.3.1, 10.2.1.2 and 10.3) |
| SchemaRegistry.ValidateDecides | src/common/schema-registry.ts:45-123 | the same for a schema file: validation ends, does not throw, and decides satisfaction |
| SchemaRegistry.ProblemsExactly | src/common/schema-registry.ts:55-123 | whenever validation does not throw, exactly these problems are reported: those that a value has with a keyword at the end of a way of references, keys and indices, under the path that the way spells |
| SchemaRegistry.ErrorsNamePaths | src/common/schema-registry.ts:45-53 | the same for a schema file, with paths that begin with `$` |
| SchemaRegistry.RecursionAllowed | src/common/schema-registry.ts:56-60 | a schema that recurses through a property is covered; one that refers to itself on the same value is not |
| SchemaRegistry.TypesAgree | src/common/schema-registry.ts:126-137 | but for `null`, the code's types are those of JSON Schema 2020-12 Validation, section 6.1.1 |
| SchemaRegistry.NullTypeRejectsAll | src/common/schema-registry.ts:79-82 | the type `null` rejects every value, where the standard accepts `null` |
| SchemaRegistry.CompositeConstRejectsAll | src/common/schema-registry.ts:73-75 | a constant that is an array or object rejects every value, where the standard accepts an equal one, in whatever order its fields are |
| SchemaRegistry.CompositeEnumUnmatched | src/common/schema-registry.ts:76-78 | an `enum` accepts exactly its scalar members, where the standard accepts all of them |
| SchemaRegistry.RequiredAloneIgnored | src/common/schema-registry.ts:95-116 | `required` and `additionalProperties` without `properties` accept every object, where the standard asks for the keys and the fields' schemas |
| SchemaRegistry.UntypedIgnored | src/common/schema-registry.ts:83-121 | without a type, `const` and `enum` every value is accepted, where the standard applies the other keywords to values of their type |
| SchemaRegistry.RefSiblingsIgnored | src/common/schema-registry.ts:56-60 | keywords beside `$ref` make no difference, where the standard applies them as well |
| SchemaRegistry.AnyOfSiblingsIgnored | src/common/schema-registry.ts:63-72 | keywords beside `anyOf` make no difference, where the standard applies them as well |
| SchemaRegistry.EndsExactly | src/common/schema-registry.ts:55-123 | validation ends for every value and every file if and only if every reference cycle passes through a sub-value; on any other cycle it ends for no value |
| ToolRuntime.AllowedExactly | src/runtime/permissions.ts:77-89 | for every profile and name: allowed exactly when it is one of the profile's tools, or for one of its servers `mcp__server` or a name that begins with `mcp__server__` |
| ToolRuntime.CheckTaskPermissions | src/runtime/permissions.ts:44-75 | the blocked tools are exactly the listed ones that the profile does not grant in this sense, or that write in prod, each once |
| ToolRuntime.CollectTools | src/runtime/tools/registry.ts:10-24 | per allowed name with candidates the first builtin candidate, or else the first |
| ToolRuntime.AssembleToolPool | src/runtime/tools/registry.ts:4-27 | the pool is sorted, has one tool per name, and holds exactly those candidates |
| ToolRuntime.RunBatch | src/runtime/executors/code-runtime/code-task-executor.ts:76-110 | one result and one trace entry per tool use in order, with its id and how the tool answered; only tools of the pool are called; a throw ends the batch |
| ToolRuntime.RunTurn | src/runtime/executors/code-runtime/code-task-executor.ts:71-114 | a turn keeps the conversation's shape and adds the calls it made |
| ToolRuntime.RunLoop | src/runtime/executors/code-runtime/code-task-executor.ts:46-127 | the loop ends after at most `max_tool_calls` turns (one model call more); messages, trace and calls match the model's replies; calls stay below the limit plus the last batch; and why it ended |
| ToolRuntime.RolesAlternate | src/runtime/executors/code-runtime/code-task-executor.ts:46-114 | user and assistant messages alternate, user first and last |
| ToolRuntime.UsesAnswered | src/runtime/executors/code-runtime/code-task-executor.ts:71-114 | each assistant message is followed by exactly one result per tool use, with its id, in its order |
| ToolRuntime.RunCode | src/runtime/executors/code-runtime/code-task-executor.ts:45-127 | every tool called is allowed and has a candidate |
| ToolRuntime.PolicyCheckedAgentRuntime.constructor | src/runtime/agent-runtime.ts:25-35 | every capability has an executor, the given one before the fallback |
| ToolRuntime.PolicyCheckedAgentRuntime.Run | src/runtime/agent-runtime.ts:49-103 | an executor runs exactly for the right capability and permitted tools; whatever the model asks for, tools called are in `allowed_tools`, granted by the profile as in `AllowedExactly`, and in prod never write_file or edit_file |
| Ids.ExtractCreated | src/common/ids.ts:28-53 | the timestamp of a created id is read back; zero reads as invalid |
| Ids.OrderFollowsTime | src/common/ids.ts:28-33 | ids of one prefix sort as their timestamps do, below 36 to the power of 9 |
| Ids.OrderExactly | src/common/ids.ts:28-33 | of any two ids of one prefix, the earlier sorts first exactly if its stamp, filled up to the length of the later one's, does not exceed it; with stamps of one length always |
| Ids.OrderEndsAtTenDigits | src/common/ids.ts:30 | the first stamp of ten digits sorts before one of nine that is far earlier |
| ListFiles.Walk | src/runtime/tools/workspace/list-files.ts:42-61 | the shared output becomes what an unlimited preorder listing offers, cut at the limit |
| ListFiles.Call | src/runtime/tools/workspace/list-files.ts:26-37 | exactly the first `max_files` entries; `truncated` says that the limit was reached |
| ListFiles.ListingInOrder | src/runtime/tools/workspace/list-files.ts:42-61 | the listing is one line for each file within the depth bound, in preorder, under the names of all directories on the way to it |
| Numerals.ParsePrint | src/common/ids.ts:30-47 | `parseInt` reads back what `toString` printed, in every radix |

## Left out

- Overlapping runs and deliveries: several keys are read and then written, so runs of the pipeline agent and deliveries
  of the subscriber are taken one at a time, and the bound on handler calls is for one process and one consumer.
- StreamBroker.RedisStreamsEventBroker.Subscribe: registers for one queue and consumer; subscriptions of other queues
  or consumers, which have loops of their own, are not modelled.
- A restart of the process; a loop that dies of an error takes the process with it.
- Liveness beyond `StreamBroker.ClaimIsSettled`: claiming happens only when a read returns nothing, so an entry stays
  pending while new ones keep coming.
- Handlers that set the delivery context's outcome themselves, and the broker's `ack` and `nack`, which the subscriber
  does not call.
- Archive records and artifacts: only whether writing them succeeds.
- Other subscribers on the in-memory broker.
- Collaboration.RaisedAndSentOnce: store, archive and publish calls are taken to succeed there, as the guarantee needs
  it; cards and artifacts may fail.
- PipelineAgent.CompletionsADayApart: the key writes after completions are taken to succeed, as the guarantee needs it
  (`PipelineAgent.LostKeyWriteCompletesTwice`).
- StdioClient.StdioMcpClient.HandleStdout: requires that the call ends; calls that do not are those that `Receive`
  marks as spinning, and a session has no events after one.
- StdioFraming.ChunkingIrrelevant: requires that no cut is counted from the buffer's end, because there the partition
  can matter.
- Lengths that `parseInt` reads as infinite, and the UTF-8 and JSON codecs: decoding a body is an arbitrary function.
- The regular expression's search for the image lines: a file comes cut into matches and the text between them, and
  that a rewritten match starts where it did is taken from the engine. What the groups take behind the prefix is
  modelled.
- File system, git, ArgoCD, Redis, processes and tools beyond the results and logs they contribute; errors of
  `readdir` and `stat`.
- SchemaRegistry.ValidatorMeansSchema: compares on schemas in the supported form, which leaves out exactly the cases
  above that depart from the standard; lengths count UTF-16 units as the code does; keys inherited from
  `Object.prototype` and the error texts beyond path and kind are not modelled.
- SchemaRegistry.RefSiblingsIgnored: an `anyOf` beside `$ref` is not among the siblings that the standard's reading
  here takes up.
- SchemaRegistry.EndsExactly: counts the calls that are made unless one of them throws before.
- Regular expressions and path resolution of the schema registry: arbitrary functions.
- `localeCompare` is an arbitrary total order, and `Array.prototype.sort` is insertion into that order.
- The race against the timeout, prompts, and parsing and validating the final answer after the tool loop.
- Profiles' command allowlists and `isCommandAllowed`.
- Progress texts, reply classification, card contents and event payloads beyond the fields that keys are made of.
- Dates beyond the range of `Date`, and the precision of JavaScript numbers.
- Ingress, normalizers, Feishu connectors, MCP provider caching, configuration, messages, compliance radar, daily
  report and CLI, which would add easy members only.
