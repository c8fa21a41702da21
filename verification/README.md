# Hexis: worker placement, event streams, channel delivery and owned assets

This project models eight parts of Hexis and proves what they keep over every run. External calls
(Compose, the host service manager, the chat platform, the database, the agent's event source, the
clock) are parameters that may answer anything, fail at any point, or fail after doing part of their
work. `dafny verify dfyconfig.toml` checks everything.

| module | what it models |
|---|---|
| `Prelude` | optional values and string concatenation |
| `Chunking` | the message splitter `chunk_text` |
| `ChannelAdapter` | the chat platform as a call log, what a reader of it sees, chunked delivery |
| `Coalescing` | `StreamCoalescer`, its invariant and rate bound |
| `ChannelTurn` | one inbound message: the streamed reply, its durable turn, the fallback |
| `AgentEvents` | the agent's events and the text they carry |
| `OpenAiCompletion` | the buffered and the streaming OpenAI folds |
| `ChatStream` | the dashboard's chat stream |
| `TextLines` | splitting text into lines and joining it again |
| `ServerSentEvents` | the frame printers and a parser written from the WHATWG HTML Standard |
| `FrontEnds` | the two chat front ends against each other, and the OpenAI stream as bytes |
| `ManualHeartbeat` | the manual heartbeat as two interleaved sides and a queue |
| `HostMachine` | which workers run in Docker, are installed on the host, run on the host; every state is kept |
| `ServiceInstallation` | `hexis service install` with its migration and recovery |
| `StackCommands` | the stack and service commands, and any sequence of them |
| `OwnedAssets` | the embedding companion's ownership record: the steps of any number of processes that install, launch, mark and purge, with outside changes between them |
| `OwnershipHistory` | the runs of those steps: where every deletion comes from, and when a half of the record is lost |
| `RedactConfig` | the configuration printer's redaction |
| `McpBatch` | the recursive `batch` tool |
| `ExecutionProfiles` | profile changes with their journal |
| `EnvFile` | the `.env` upsert |

Methods carry the source's loops and assignments and are proved equal to specification functions, or
against stated properties; the lemmas then speak about those functions for all inputs and runs.

## Where the code does less than one would expect

Each of these is stated exactly, with the condition under which the promise does hold.

- `ServiceInstallation.ServiceInstall`: without a Compose file the code takes it that no worker runs in
  Docker. A run that succeeds without a Compose file, without `--no-start` and with a requested worker
  running in Docker ends with a worker in both places (`Visible` is the condition; `InstallBesideContainer`
  is such a run).
- `StackCommands.Filters`, `FiltersCore`, `InitFilters`: an exception while reading the installed services
  counts as "none installed", and a service list that filtering leaves empty makes `up -d` start every
  default service. The `BreaksExactly` lemmas say for each command when this puts an installed worker into
  Docker; `UpStartsInstalledWorker` and `StartStartsInstalledWorker` are such runs.
- `StackCommands.StopsWhatItRemoves`: on launchd the result of boot-out is not looked at, so a unit can be
  removed while its worker still runs; `UninstallBreaksExactly` says when, `UninstallLeavesWorker` is such a
  run.
- `OwnershipHistory.HalfLostExactly`: the record is read and replaced without a lock, so recording one half
  loses the other when another process's write or an outside change came in between; `LoseCacheClaim` is
  such a run. What is lost is a claim, so the asset is kept; nothing unowned is ever deleted.
- `ManualHeartbeat.LeftHanging`: the registry and the context are built outside the `try`, so a started
  heartbeat is neither finalized nor released when that raises, or when the release itself raises.
- `ChannelTurn.TurnsPerMessage`: two turns are recorded when the finalizing call raises after its commit
  and the fallback commits as well, and only then.
- `ChannelTurn.FallbackTurnIsDelivered`: when the fallback's finalizing call raises after its commit, the
  turn is recorded but the reader gets an apology.
- `FrontEnds.FrontEndsDiffer`: a loop end that is both an error and a timeout fails in the dashboard
  only, and a failure after a good first loop end only in the completion (`TimedOutErrorDiffers`,
  `LateErrorDiffers`).
- `ChatStream.BracketedIffQuiet`: text after the first loop end, or a first phase start after it, breaks
  the bracket around the conscious phase (`LateTextBreaksBracket`).
- `RedactConfig.ListUnderSensitiveKey`: scalars in a list under a sensitive top-level key are printed as
  they are.
- `Coalescing`: a send that returns no id is made again with the next token; a message with an empty id
  is never edited.
- `Chunking.ProgressNeedsPositiveLimit`: the splitter makes no progress for a limit of 0.
- `EnvFile.WrittenLineSets`: a key that starts with whitespace is not recognized on the next write.

## Model

| member | source | states |
|---|---|---|
| Chunking.RFindIsLast | channels/base.py:311 | the search the splitter relies on returns an occurrence inside the window and there is none after it; -1 means there is none |
| Chunking.FindCutIsCut | channels/base.py:310-340 | the cut taken is at the most preferred separator that occurs past a third of the window, at its last such occurrence, and hard only when there is none |
| Chunking.CutIsDetermined | channels/base.py:310-340 | that rule admits one cut only; an unstripped chunk of full length is cut exactly when no paragraph, line, sentence or space separator lies past a third of the limit |
| Chunking.SeparatorsInOrder | channels/base.py:311-333 | the separators and their order of preference |
| Chunking.PunctuationStays | channels/base.py:325-330 | at a sentence end the chunk is cut behind the punctuation; at any other soft cut it ends before the separator, without trailing whitespace |
| Chunking.RestIsStripped | channels/base.py:314-336 | after a soft cut the rest starts with no whitespace |
| Chunking.LastChunkIsRest | channels/base.py:306-308 | what fits is the last chunk, as it is |
| Chunking.NextChunk | channels/base.py:310-340 | one pass of the loop appends the head and keeps the tail of the cut by the rule |
| Chunking.ChunkText | channels/base.py:292-342 | the loop terminates for every limit from 1 up and yields the chunks of the repeated rule, at least one |
| Chunking.ProgressNeedsPositiveLimit | channels/base.py:305-340 | a pass changes what is left if and only if the limit is positive |
| Chunking.StepContent | channels/base.py:311-340 | a cut's two pieces and a gap of whitespace between them make up the text |
| Chunking.ChunksContent | channels/base.py:292-342 | the text is its chunks laid end to end with only whitespace in the gaps |
| Chunking.ChunksKeepInk | channels/base.py:292-342 | the non-whitespace characters of the chunks are those of the text, in order |
| Chunking.ChunksFit | channels/base.py:292-342 | no chunk is longer than the limit |
| Chunking.SplitCount | channels/base.py:305-340 | every chunk but the last takes more than a third of the limit from the text |
| Chunking.ChunksCount | channels/base.py:299-340 | a text of n chunks is longer than (n - 1) * (limit // 3 + 1) characters |
| ChannelAdapter.Adapter.SendChunks | channels/conversation.py:440-453 | chunks are sent in order, the first as the reply, up to and including the first send that raises |
| ChannelAdapter.Adapter.SendPresentation | channels/base.py:203-228 | the same for a rendered presentation; it returns the first message's id, and raises exactly when a send does |
| ChannelAdapter.DeliveryStopsOnlyAtRaise | channels/base.py:218-228 | what is sent is a prefix of the chunks, and all of them exactly when no send before the last raises |
| ChannelAdapter.OnlyFirstReplies | channels/base.py:219-227 | call i carries chunk i, and only the first one answers the message |
| ChannelAdapter.DeliveryKeepsInk | channels/base.py:203-228 | when every send is answered the reader gets every non-whitespace character of the text, in order |
| Coalescing.StreamCoalescer.Push | channels/streaming.py:68-88 | a push changes the fields, and calls the platform, as the step the run lemmas are about |
| Coalescing.StreamCoalescer.Flush | channels/streaming.py:90-113 | a flush does the final send or edit and returns the message's id |
| Coalescing.StreamCoalescer.SendInitial | channels/streaming.py:115-125 | the first message carries the whole text so far; the buffer and count restart unless the send raises |
| Coalescing.StreamCoalescer.EditCurrent | channels/streaming.py:127-141 | an edit carries the whole text so far and restarts the count even when the platform rejects it |
| Coalescing.PushKeepsInv | channels/streaming.py:68-88 | every push from any state keeps the invariant: buffer and count are the text since the last call, calls are chained to one message, edits are spaced, all texts are prefixes of the total |
| Coalescing.RunKeepsInv | channels/streaming.py:58-141 | every run keeps the invariant, for all tokens, answers and clock readings, and its total is the concatenation of the tokens until a send raises |
| Coalescing.ReaderSeesPrefix | channels/streaming.py:68-141 | every message of the channel reads a prefix of the stream, during the run and after the flush |
| Coalescing.FlushShowsTotal | channels/streaming.py:90-141 | a flush calls the platform exactly when there is text and the message has no id or a usable one, and when that call takes effect the message reads the whole stream |
| Coalescing.OneMessage | channels/streaming.py:75-125 | when every send is given an id there is one message: the first call sends it and all others edit it |
| Coalescing.EmptyStreamIsSilent | channels/streaming.py:75-97 | a stream without text calls the platform neither while pushing nor in the flush, as long as a first message needs at least one character |
| Coalescing.FirstMessageIsPrompt | channels/streaming.py:74-78 | before the flush no text as long as min_chars is left unsent |
| Coalescing.EditsArePrompt | channels/streaming.py:80-88 | once there is a message, text is left unedited only below max_chars or within idle_ms of the last call |
| Coalescing.PushIsPrompt | channels/streaming.py:68-88 | the same for one push from any state |
| Coalescing.EditRate | channels/streaming.py:80-88 | the pushes edit at most once per max_chars characters beyond the message first sent, at least idle_ms after the call before, even when edits fail |
| ChannelTurn.TurnsPerMessage | channels/conversation.py:296-454 | a message records at most two turns, and two exactly when the streaming path's finalizing call raises after its commit and the fallback commits |
| ChannelTurn.AtMostOneTurn | channels/conversation.py:296-454 | when finalizing calls do not raise after committing, a message records at most one turn |
| ChannelTurn.AmbiguousCommitRecordsTwice | channels/conversation.py:412-453 | a concrete run that records two turns |
| ChannelTurn.IncompleteRecordsNothing | channels/conversation.py:394-401 | a stream that ends normally with another outcome than "completed" records nothing and is not retried |
| ChannelTurn.NoTurnIsLost | channels/conversation.py:412-453 | unless the stream ended normally with another outcome, a fallback that commits leaves a prepared message with a turn |
| ChannelTurn.NoFallbackMeansSettled | channels/conversation.py:393-429 | a prepared reply is not processed again only if it was streamed to its end and, if completed, recorded with its text and message id |
| ChannelTurn.SilentOnlyWhenEmpty | channels/conversation.py:296-453 | only a stream that ends normally without any text leaves a message without a call to its channel |
| ChannelTurn.ReplyPace | channels/streaming.py:21-34 | a streamed reply shows something from 40 characters on, and edits at least 500 characters and 300 milliseconds apart |
| ChannelTurn.RecordedTextIsShown | channels/conversation.py:390-422 | the text of a turn recorded by the streaming path is what its message reads, if the last call took effect |
| ChannelTurn.FallbackTurnIsDelivered | channels/conversation.py:240-267 | with every send answered, the text of a turn the fallback recorded reaches the reader but for whitespace at the cuts, unless the finalizing call raised after its commit: then an apology does |
| ChannelTurn.ProcessChannelMessage | channels/conversation.py:120-267 | the fallback's turn and its chunks, with the fixed answers for refusals, errors and empty replies |
| ChannelTurn.PushTokens | channels/conversation.py:373-391 | the token loop leaves the coalescer in the state of the run and has collected every token, unless a send raised |
| ChannelTurn.StreamReply | channels/conversation.py:346-424 | the same from the coalescer on, for a turn that was prepared |
| ChannelTurn.TryStreaming | channels/conversation.py:296-424 | the calls, the turns and the cases in which control passes to the handler |
| ChannelTurn.StreamChannelMessage | channels/conversation.py:270-454 | the calls of the streaming path, then the fallback's delivery exactly when the path raised; the turns are those of both; the message id when nothing raised; a refusal reaches the reader |
| ChannelTurn.RaiseIsFinal | channels/conversation.py:373-391 | tokens after a send that raised change nothing |
| AgentEvents.TextSplits | apps/hexis_api.py:2939-2942 | the text of a run is the text before any point followed by the text after it |
| OpenAiCompletion.CollectChatCompletion | apps/hexis_api.py:2927-2956 | the loop returns the run's text, the verdict on the whole run, and "length" exactly when some loop end timed out |
| OpenAiCompletion.StreamChatCompletion | apps/hexis_api.py:2979-3022 | the loop sends a role chunk, the texts in order, one closing chunk with the same verdict, and the final mark |
| OpenAiCompletion.NoErrorIffNothingFails | apps/hexis_api.py:2943-2953 | a completion has no error exactly when there was no exception, no error event and no failed loop end; an error is never the empty string |
| OpenAiCompletion.FinishesAsEnded | apps/hexis_api.py:2929-2948 | a run finishes with "length" exactly when some loop end stopped with "timeout" or timed out, and with "stop" otherwise |
| OpenAiCompletion.ExceptionReported | apps/hexis_api.py:2951-2953 | an exception is the error reported, whatever else failed |
| OpenAiCompletion.ErrorEventReported | apps/hexis_api.py:2943-2950 | without one, the last error event's message is, whatever the loop ends say |
| OpenAiCompletion.LoopErrorReported | apps/hexis_api.py:2949-2950 | without either, the fixed message is, exactly when a loop end stopped with "error" and did not time out |
| OpenAiCompletion.LastErrorExists | apps/hexis_api.py:2943-2944 | the reported event error exists exactly when some event was an error, and is not empty |
| OpenAiCompletion.StreamingRefinesBuffering | apps/hexis_api.py:2919-3022 | a client that accepts only the protocol's grammar reads from the stream the buffered text, its error if any, and otherwise its finish reason |
| ChatStream.Generator.Handle | apps/hexis_api.py:3126-3314 | one event has the effect on flags and frames that the run lemmas are about |
| ChatStream.Generator.Finish | apps/hexis_api.py:3316-3336 | the frames of the normal end and of the exception handler |
| ChatStream.StreamChat | apps/hexis_api.py:3044-3336 | the generator yields the frames the stream lemmas are about, for every event sequence and final exception |
| ChatStream.RunInvariant | apps/hexis_api.py:3063-3314 | after every run the flags mean: a loop end was seen, an error occurred and its message, a phase was opened, the text; and the client has read that text, at most one terminal frame and an open or closed phase |
| ChatStream.OneTerminalFrame | apps/hexis_api.py:3303-3336 | a ready stream sends exactly one `done` or `failed`, it is the run's verdict, and its text is the concatenation of the tokens sent before it |
| ChatStream.FailedWhen | apps/hexis_api.py:3289-3336 | that frame is `failed` exactly when, before it, an error event occurred, the first loop end stopped with "error", or an exception was raised |
| ChatStream.BracketedIffQuiet | apps/hexis_api.py:3178-3213 | the conscious phase is opened at most once, closed under its name before the terminal frame and holds every token, exactly when no text and no first phase start follow the first loop end |
| ChatStream.StreamShowsAll | apps/hexis_api.py:3092-3333 | beside the answer the client is shown the attachments' log, each event's frame in order, and the exception's error; and every text |
| ChatStream.ShownInOrder | apps/hexis_api.py:3126-3301 | the same for a run without its ending |
| ChatStream.RunAtIsRun | apps/hexis_api.py:3104-3126 | the generator before event n is the run of the events before it |
| ChatStream.ReasoningIsSpaced | apps/hexis_api.py:3186-3193 | between two requests to the model reasoning frames are at least a second apart |
| ChatStream.ReasoningIsPrompt | apps/hexis_api.py:3186-3193 | reasoning is held back only within a second of a reasoning frame for the same request |
| ChatStream.PhaseIsNamed | apps/hexis_api.py:3178-3201 | the conscious phase is named by the first event that opens it, or "conscious_final" |
| ChatStream.FailsWithLastError | apps/hexis_api.py:3289-3294 | a turn with an error event fails with the last one's message before its end |
| ChatStream.LateTextBreaksBracket | apps/hexis_api.py:3195-3213 | a concrete run whose late text starts a phase after the terminal frame |
| ChatStream.VerdictAfterEnd | apps/hexis_api.py:3303-3314 | events after the first loop end do not change the verdict |
| FrontEnds.FrontEndsDiffer | apps/hexis_api.py:2939-3324 | exactly when the front ends' verdicts part, either way, and exactly when their texts do |
| FrontEnds.TimedOutErrorDiffers | apps/hexis_api.py:2945-2950 | a concrete run that fails in the dashboard only |
| FrontEnds.LateErrorDiffers | apps/hexis_api.py:3303-3314 | a concrete run that fails in the completion only, with a text the dashboard's last frame lacks |
| FrontEnds.FrontEndsAgree | apps/hexis_api.py:2939-3324 | when the run ends at its first loop end and that is not both timed out and failed, `done` and "no error" coincide and the texts are equal |
| FrontEnds.WireRefinesBuffering | apps/hexis_api.py:2979-3022 | a client that parses the bytes, decodes the payloads and accepts the grammar reads exactly the buffered completion |
| TextLines.SplitUnlines | apps/hexis_init.py:300-310 | lines that are joined and split again are the same lines, for every set of line ends that holds carriage return and line feed |
| ServerSentEvents.RoundTrip | apps/hexis_api.py:367-377 | parsing the bytes of any list of frames by sections 9.2.5 and 9.2.6 of the WHATWG HTML Standard gives back the frames' names and data, comments dropped |
| ServerSentEvents.NameSurvives | apps/hexis_api.py:367-368 | a named frame is read back under its name exactly when the name is not empty |
| ServerSentEvents.FrameMeans | apps/hexis_api.py:367-377 | a frame's lines leave the parser's buffers empty and dispatch one message, or none for a comment |
| ManualHeartbeat.RunInvariant | apps/hexis_api.py:1979-2026 | in every interleaving the queue holds the last puts, the frames are the others in order, and the outcomes fit where the generator stands |
| ManualHeartbeat.HistoryIsSteps | apps/hexis_api.py:1981-2010 | the puts, the task's end and the finalizing call's answer are those of the run's steps |
| ManualHeartbeat.DatabaseIsSteps | apps/hexis_api.py:2006-2025 | the heartbeat is released, or finalized, exactly when a releasing call worked, or a finalizing one committed |
| ManualHeartbeat.ForwardedInOrder | apps/hexis_api.py:1981-2003 | at any moment the events put so far are those forwarded, in order, followed by those still queued |
| ManualHeartbeat.DrainedBeforeClosing | apps/hexis_api.py:1981-2026 | a stream that has ended forwarded every event the finished task put, once and in order, before its one closing frame: `heartbeat_done` when finalized and not released, otherwise what raised |
| ManualHeartbeat.ReleasedWhenRaised | apps/hexis_api.py:2005-2026 | at the end the heartbeat is released exactly when the task or the finalizing call raised, and finalized exactly when that call committed |
| ManualHeartbeat.StoppedRunsStay | apps/hexis_api.py:1997-2026 | once the generator has ended, or was left by an exception, nothing happens any more |
| ManualHeartbeat.RunningRunsMove | apps/hexis_api.py:1997-2026 | until then the generator can always take a step, whatever the task does |
| ManualHeartbeat.LeftHanging | apps/hexis_api.py:1984-2026 | a started heartbeat is left neither finalized nor released exactly when the set-up before the `try` raised, or the release did after the task, or a finalizing call that did not commit, had raised |
| ManualHeartbeat.SetUpFailureHangs | apps/hexis_api.py:1984-1985 | the concrete run in which the set-up raises |
| HostMachine.Machine.ComposeUp | apps/hexis_cli.py:272-289 | starts all named workers on success and those it reached on failure; no state on the way exceeds the last |
| HostMachine.Machine.ComposeStop | apps/hexis_cli.py:272-289 | stops all named workers on success and those it dropped on failure |
| HostMachine.Machine.ControlStart | core/host_services.py:699-787 | is refused without effect for units that are not installed; otherwise the copies it dropped are gone and those it reached run |
| HostMachine.Machine.ControlStop | core/host_services.py:699-787 | is refused without effect for units that are not installed; otherwise stops them all, or those it dropped when it fails |
| HostMachine.Machine.InstallUnits | core/host_services.py:440-602 | installs all named units on success and those written on failure; with `start` the copies it reached run, without it none is started |
| HostMachine.Machine.RemoveUnits | core/host_services.py:790-852 | removes all named units on success and those it got to on failure, and stops nothing |
| ServiceInstallation.RestoreDockerWorkers | apps/hexis_cli.py:3488-3506 | containers come back only after the host copies are known to be stopped |
| ServiceInstallation.StartMigrated | apps/hexis_cli.py:3486-3564 | the host start with its recovery: no state has a worker in both places, exactly when it succeeds, and a failed start ends in Docker again when both restoring calls work |
| ServiceInstallation.Migrate | apps/hexis_cli.py:3466-3564 | the migration from stopping the containers on: no state has a worker in both places, exactly when it succeeds, and what a failed one leaves |
| ServiceInstallation.ServiceInstall | apps/hexis_cli.py:3423-3564 | in every state of every run no worker runs in both places; exactly when it succeeds, and the placement it leaves then: every requested worker on the host and none it could see in Docker; refusals change nothing; other workers are left alone |
| ServiceInstallation.RefusesExactly | apps/hexis_cli.py:3432-3451 | the install refuses exactly when Docker cannot be inspected or a requested worker is seen there that is not to be replaced |
| ServiceInstallation.SuccessPlaces | apps/hexis_cli.py:3466-3564 | a successful install leaves each requested worker installed, on the host unless not started, and out of Docker if there is a Compose file |
| ServiceInstallation.RefusedStartMigrates | apps/hexis_cli.py:3508-3542 | a migration whose host start or status check is refused is one that is undone |
| ServiceInstallation.ReachedSucceeds | apps/hexis_cli.py:3423-3564 | an install whose calls succeed, and whose starting call reached every requested worker, succeeds |
| ServiceInstallation.InstallBesideContainer | apps/hexis_cli.py:3242-3243 | the concrete successful run without a Compose file that ends with a worker in both places |
| StackCommands.SafeIsExclusive | apps/hexis_cli.py:3292-3303 | if no installed worker runs in Docker and only installed ones run on the host, no worker runs twice |
| StackCommands.Up | apps/hexis_cli.py:7682-7688 | starts the named services, or every default one when no name is given |
| StackCommands.EnsureHostRunning | apps/hexis_cli.py:3317-3334 | starts the installed workers that do not run, leaves those that run, reports whether that worked, and keeps the rule |
| StackCommands.RunningKeepsHealthy | apps/hexis_cli.py:3317-3334 | workers that run are not restarted, and installed ones that the start call reached run |
| StackCommands.StopHost | apps/hexis_cli.py:3337-3346 | stops every installed worker, or reports that it could not |
| StackCommands.FiltersExactly | apps/hexis_cli.py:7649-7688 | no installed worker is among those to start exactly when none is a default one, or the installed ones were read and filtering leaves some name |
| StackCommands.UpCommand | apps/hexis_cli.py:7642-7761 | keeps installed workers out of Docker in every state while its filter works; success starts Docker and then the installed host workers, leaving those that run; without Docker the host is left alone |
| StackCommands.UpBreaksExactly | apps/hexis_cli.py:7642-7761 | a good `up` breaks the rule exactly when its filter does not work |
| StackCommands.StartCommand | apps/hexis_cli.py:8139-8159 | keeps the rule in every state; host workers first, and nothing in Docker when they cannot start |
| StackCommands.StartBreaksExactly | apps/hexis_cli.py:8139-8159 | a good `start` breaks the rule exactly when a core worker is installed and reading the installed services raised |
| StackCommands.StopCommand | apps/hexis_cli.py:8160-8180 | keeps the rule; after success no core worker runs in either place |
| StackCommands.DownCommand | apps/hexis_cli.py:7849-7874 | keeps the rule; after success no worker runs, and the stack stays up while host workers may run |
| StackCommands.ResetCommand | apps/hexis_cli.py:7875-7976 | keeps the rule in every state while its filter works; exactly when it succeeds and what it leaves, call by call |
| StackCommands.ResetBreaksExactly | apps/hexis_cli.py:7875-7976 | a good reset breaks the rule exactly when its filter does not work |
| StackCommands.ResetRecovers | apps/hexis_cli.py:7906-7929 | the stack stays up when the host workers cannot be stopped, and they are started again when it cannot go down |
| StackCommands.UpgradeCommand | apps/hexis_cli.py:8019-8079 | keeps the rule in every state while its filter works; images that cannot be prepared change nothing, and host workers restart only after the migrations |
| StackCommands.UpgradeBreaksExactly | apps/hexis_cli.py:8019-8079 | a good upgrade breaks the rule exactly when its filter does not work |
| StackCommands.UiCommand | apps/hexis_cli.py:6899-6981 | keeps the rule; starts in Docker only core workers without a host owner, each kind even when the other fails; its exit is the dashboard's |
| StackCommands.UiBreaksExactly | apps/hexis_cli.py:6932-6952 | `ui` breaks the rule exactly when a core worker is installed and reading the installed services raised |
| StackCommands.InitCommand | apps/hexis_init.py:317-439 | keeps the rule in every state under its guard; exactly when it succeeds and what it leaves |
| StackCommands.InitBreaksExactly | apps/hexis_init.py:317-439 | a good `init` breaks the rule exactly when the first reading of the installed services raised and one of them is expected, or the second raised, something was missing and one is a default worker |
| StackCommands.ServiceControl | apps/hexis_cli.py:3566-3572 | service start, restart and stop, with or without names, keep the rule, touch no container, and refuse units that are not installed; a good stop without names leaves nothing running on the host |
| StackCommands.ServiceUninstall | core/host_services.py:790-852 | keeps the rule in every state when it stops what it removes; exactly when it succeeds and what it leaves |
| StackCommands.UninstallBreaksExactly | core/host_services.py:806-827 | a worker is left running without a unit exactly when boot-out failed on launchd and missed a running worker whose unit file then went; no container is touched |
| StackCommands.UpStartsInstalledWorker | apps/hexis_cli.py:7665-7688 | the concrete `up` whose filtered list is empty |
| StackCommands.StartStartsInstalledWorker | apps/hexis_cli.py:3292-3303 | the concrete `start` for which reading the installed services raises |
| StackCommands.UninstallLeavesWorker | core/host_services.py:814-827 | the concrete uninstall on launchd with a refused boot-out |
| StackCommands.GuardIsNeeded | apps/hexis_cli.py:7619-8180 | no guard asks too much: every command that works without its guard breaks the rule |
| StackCommands.Execute | apps/hexis_cli.py:7619-8180 | every command whose guard holds passes only states without a worker in both places, leaves the placement the guard lemmas are about, and stops the sequence exactly when it is an install that fails half-way |
| StackCommands.RunCommands | apps/hexis_cli.py:7619-8180 | the same over any sequence of commands: it goes on while the guards hold and no install fails half-way, leaves the placement of the commands done, and says where and why it stopped |
| OwnedAssets.HostFiles.ReadForInstall | apps/hexis_cli.py:6009-6014 | an install goes on exactly with a binary it could hash and a readable record, and takes both with it |
| OwnedAssets.HostFiles.WriteRecord | apps/hexis_cli.py:5989-6004 | the record becomes the one the process had read with its claim added, or stays |
| OwnedAssets.HostFiles.RecordOwnedBinary | apps/hexis_cli.py:6007-6022 | undisturbed, records the binary's hash beside what the record says about the cache, or changes nothing |
| OwnedAssets.HostFiles.Launch | apps/hexis_cli.py:6508 | a launch notes whether the cache was there before it |
| OwnedAssets.HostFiles.SeeMarker | apps/hexis_cli.py:6029-6062 | a marker of Hexis is adopted, a missing one written, any other left; what there is then to record |
| OwnedAssets.HostFiles.ReadForMark | apps/hexis_cli.py:6029-6062 | after it the process holds the claim on a cache that appeared since its launch, under the token the cache bears, exactly when there is one to record |
| OwnedAssets.HostFiles.MarkCacheIfCreated | apps/hexis_cli.py:6025-6070 | undisturbed, records that claim beside what the record says about the binary |
| OwnedAssets.HostFiles.PurgeBinary | apps/hexis_cli.py:6087-6102 | the binary of the record that was read goes exactly when its present hash is the recorded one, and is reported |
| OwnedAssets.HostFiles.PurgeCache | apps/hexis_cli.py:6104-6138 | the cache of the record that was read goes exactly when it bears the recorded token, is no link and lies in a safe place, and is reported |
| OwnedAssets.HostFiles.PurgeOwnedAssets | apps/hexis_cli.py:6073-6140 | undisturbed, a purge is its three steps, and reports exactly what went |
| OwnedAssets.PurgesExactlyOwned | apps/hexis_cli.py:6073-6140 | an undisturbed purge takes exactly the binary that is as recorded and the cache that bears the recorded token, if their removal works; an unreadable record deletes nothing |
| OwnedAssets.OwnBinaryIsPurged | apps/hexis_cli.py:6007-6095 | an installed binary that nothing touches is recorded, beside the cache's half, and deleted by the purge that follows |
| OwnedAssets.FreshCacheIsPurged | apps/hexis_cli.py:6025-6134 | a cache that appears after a launch that saw none is marked, recorded beside the binary's half, and deleted by the purge that follows |
| OwnedAssets.Interleave | apps/hexis_cli.py:5976-6140 | any interleaving of the functions' parts and of outside changes has the effect of its steps, one after the other |
| OwnershipHistory.ClaimOf | apps/hexis_cli.py:6007-6070 | a claim in the record was drafted at a reading and written later by the same process, even if stale writes or outside changes removed it and put it back |
| OwnershipHistory.LaunchBefore | apps/hexis_cli.py:6025-6062 | a cache's claim is drafted only by a process whose last launch saw no cache at that path |
| OwnershipHistory.MintedBefore | apps/hexis_cli.py:6036-6051 | a cache's claim is drafted only under a token that Hexis minted by then, for a cache that appeared after such a launch |
| OwnershipHistory.TokenMintedOnce | apps/hexis_cli.py:6047 | no token is minted twice |
| OwnershipHistory.StaysUnforged | apps/hexis_cli.py:6037-6051 | every marker of Hexis bears a token it minted |
| OwnershipHistory.BinaryDeletionIsJustified | apps/hexis_cli.py:6087-6095 | over any run, a binary that Hexis deletes has the hash an install read, then recorded, and a later purge read from the record |
| OwnershipHistory.CacheDeletionIsJustified | apps/hexis_cli.py:6104-6134 | over any run, a cache that Hexis deletes bears the minted token that a process claimed whose last launch saw no cache there, that it then recorded, and that a later purge read from the record |
| OwnershipHistory.ChangeBetween | apps/hexis_cli.py:6012-6070 | a half of the record that changes while a process holds its draft was changed by an outside change or by another process's write |
| OwnershipHistory.HalfLostExactly | apps/hexis_cli.py:6012-6070 | a write keeps the other half exactly when that half is as it was read, and so whenever no other process's write or outside change of it came in between |
| OwnershipHistory.LoseCacheClaim | apps/hexis_cli.py:6012-6070 | the concrete run that loses the cache's half |
| RedactConfig.SecretWordsHidden | apps/hexis_cli.py:316-336 | a name with "token", "secret" or "password" anywhere in it is sensitive at the top level, and below it unless it is "api_key_env" |
| RedactConfig.FieldNames | apps/hexis_cli.py:326-333 | the other sensitive field names, in any case of letters, and the one that is not |
| RedactConfig.Redact | apps/hexis_cli.py:351-361 | the in-place loop gives the redaction the lemmas are about |
| RedactConfig.RedactDeepLookup | apps/hexis_cli.py:338-349 | what stands at every path of a redacted value: replaced at the first sensitive name, nothing below it, and the redacted original elsewhere |
| RedactConfig.ShapeKept | apps/hexis_cli.py:338-349 | under no sensitive name lists keep their lengths, dicts their keys, and scalars their values |
| RedactConfig.RedactedLookup | apps/hexis_cli.py:313-361 | the same for the whole configuration, whose keys are kept and whose scalars are replaced under a sensitive key |
| RedactConfig.ScalarsKeptExactly | apps/hexis_cli.py:313-361 | which scalars are printed as they are, both ways |
| RedactConfig.ListUnderSensitiveKey | apps/hexis_cli.py:338-354 | scalars of a list under a sensitive top-level key are printed as they are |
| RedactConfig.RedactedTwice | apps/hexis_cli.py:313-361 | redacting a redacted configuration changes nothing |
| McpBatch.CognitiveMemory.DispatchTool | apps/hexis_mcp_server.py:276-294 | a call is made once, its answer is its result and its exception is passed on; what never reaches the client raises; a batch does as the recursive definition says, and the recursion terminates |
| McpBatch.CognitiveMemory.DispatchBatch | apps/hexis_mcp_server.py:276-292 | the loop with its re-raise does what the recursive definition says |
| McpBatch.RaisesIffClientRaises | apps/hexis_mcp_server.py:280-291 | a fail-fast list of calls raises exactly when the client raises on one of them in its place |
| McpBatch.AnsweredCalls | apps/hexis_mcp_server.py:280-292 | if the client answers all, all are made and the answers returned under their names, in order |
| McpBatch.FirstRaiseEnds | apps/hexis_mcp_server.py:288-291 | at the first that raises, the batch ends with that exception and no later call is made |
| McpBatch.FailFastFlattens | apps/hexis_mcp_server.py:276-292 | a tree of fail-fast batches makes the calls of its flat left-to-right list, raises exactly as that list does, and returns its entries |
| McpBatch.FlattenHasNoBatch | apps/hexis_mcp_server.py:276-292 | that list holds leaf calls only |
| McpBatch.RunConcat | apps/hexis_mcp_server.py:280-291 | a fail-fast list is its first part and then, unless that raised, the rest against the client as the first part left it |
| McpBatch.ContinuingCalls | apps/hexis_mcp_server.py:280-292 | with continue_on_error every call is made, and its entry has its name and its answer or its exception |
| McpBatch.NamelessEntry | apps/hexis_mcp_server.py:281-289 | an entry without a name is reported as unknown |
| McpBatch.ContinuingEntry | apps/hexis_mcp_server.py:280-291 | entry i of such a batch is what operation i did against the client as the operations before it left it |
| McpBatch.ContinuingReportsAll | apps/hexis_mcp_server.py:280-292 | with continue_on_error a batch never raises and returns one entry per operation, in order, each after all the earlier ones |
| ExecutionProfiles.Store.MutateSettings | apps/cli_execution.py:169-216 | a change stores its settings and journals itself, or raises and stores nothing; the active profile stays configured and the journal complete |
| ExecutionProfiles.MutateKeepsConfigured | apps/cli_execution.py:219-393 | a mutation that does not raise keeps the active profile configured and `local` as it is, and changes exactly the names it should |
| ExecutionProfiles.MutateTouchesOne | apps/cli_execution.py:219-393 | a change stores its profile as given, or removes it, and leaves every other profile as it is |
| ExecutionProfiles.MutateRefuses | apps/cli_execution.py:233-393 | nothing is replaced unasked, `local` is not touched, unknown profiles are not used or removed, and the active one is not removed |
| ExecutionProfiles.MutateAccepts | apps/cli_execution.py:233-393 | nothing else is refused |
| ExecutionProfiles.EntryNamesChange | apps/cli_execution.py:196-215 | the journal's entry names the change, its profile and kind, and the active profile before and after |
| ExecutionProfiles.ChangeTells | apps/cli_execution.py:196-216 | a journalled change keeps the journal linked, replaying to the configured names, with the active profile changed by selections only |
| ExecutionProfiles.Store.Run | apps/cli_execution.py:169-393 | over any sequence of changes the settings and the journal are those of the changes that neither raised nor failed to commit, and the store's properties hold |
| EnvFile.WriteEnvVar | apps/hexis_init.py:295-310 | the loop with its flag writes the upserted lines |
| EnvFile.WrittenLineSets | apps/hexis_init.py:301-303 | the written line is recognized by a later write exactly when the key does not start with whitespace |
| EnvFile.SettingReadsBack | apps/hexis_init.py:303 | splitting the written line at its first "=" gives back key and value exactly when the key has none |
| EnvFile.SpacedLineSets | apps/hexis_init.py:301-302 | indented lines and lines with a space before the "=" are recognized |
| EnvFile.OtherKeysKept | apps/hexis_init.py:301-306 | a line that sets another key is not |
| EnvFile.LastWriteWins | apps/hexis_init.py:295-310 | after a write the lines that set the key are exactly the written ones, and there is one |
| EnvFile.WriteTwice | apps/hexis_init.py:295-310 | a second write leaves no trace of the first value |
| EnvFile.UnrelatedKept | apps/hexis_init.py:300-306 | lines that do not set the key are kept, in order |
| EnvFile.FileRoundTrip | apps/hexis_init.py:299-310 | the file written for a line-break-free key and value reads back as the upserted lines |

## Left out

- Coalescing: the clock and its arithmetic are exact reals, where the source has floats; the delay before the final edit and the thread id are not modelled.
- Chunking.ChunksContent: says nothing about empty chunks, which the source does not rule out.
- ChannelTurn: questions the agent asks during a turn, which are sent as presentations of their own, typing indicators, gateway records and attachments.
- ChannelTurn: the model's own stream is an input: its tokens, whether it raised, and the outcome it reported.
- ChatStream: the contents of logs, traces, questions and artifacts, citations, session ids, and exceptions raised while a payload is built.
- ChatStream.BracketedIffQuiet: speaks of frames tagged with the part of the turn they belong to; on the wire a loop start that names the phase "subconscious" prints the same frame as that phase's own start.
- OpenAiCompletion: request parsing, limits on messages and attachments, and the JSON around a chunk.
- ServerSentEvents: JSON encodings are one-line strings; the id and retry fields are ignored; invalid UTF-8 and lone surrogates do not occur.
- ManualHeartbeat: the checks before a heartbeat starts, cancellation of the queue's timeout, and a client that disconnects.
- HostMachine: Docker, launchd and systemd themselves, restarts after a reboot, and containers that exit on their own; Compose dependencies start no worker.
- StackCommands: a missing Compose file or Docker, which ends a command before it starts, and a query for installed services or their status that raises inside the starting or stopping of host services.
- StackCommands.RunCommands: `hexis dev`, and commands after an install that failed half-way, which may have left units beside Docker workers.
- StackCommands.UiCommand: the dashboard from a source checkout, which starts no worker.
- StackCommands.UpgradeCommand: the package's own update before the stack's.
- OwnedAssets: path resolution is a pair of flags on a cache; nothing changes between a purge's comparison and its removal, between an install's hashing and its reading of the record, or between a launch's marker and its reading of the record.
- RedactConfig: dicts are unordered, JSON copying is the identity, and lower-casing is ASCII's.
- McpBatch: the single tools, and the conversion of their results to JSON.
- ExecutionProfiles: limits that every change copies, and the re-parsing of settings that were just emitted, which is the identity on valid ones.
- EnvFile.FileRoundTrip: encodings and write errors.
- Database functions, OAuth, consent, prompts, tables, HTML, argument parsing, allowlists and commands that only read.
