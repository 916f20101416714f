# Verification model of the digital-employee CLI, server and release tooling

A Dafny 4.11 model of the stateful and text-scanning parts of the repository, with proofs about whole runs and
whole inputs. `dafny verify dfyconfig.toml` checks everything; the files need nothing but each other.

Where the program changes things step by step, the model does too: classes with the program's own fields, loops
with invariants, queues as sequences that the methods reassign. Each such method is proved equal to
a step of a specification (`ensures Model() == F(old(Model()))`), and the theorems are about the runs of that
specification. Everything the program does not control (remote answers, other writers, clocks, aborts, crashes,
child processes, the registry) is an arbitrary sequence of events or an arbitrary function.

| module | what it models |
|---|---|
| `QuoteRepair` | the scanner that escapes quotes a model left bare in its JSON; a lenient and a strict JSON printer, the RFC 8259 grammar, and a parse relation for both |
| `ToolLedger` | the Qoder stream loop: messages checked as a whole, the ledger of tool calls, the terminal decision |
| `Admission` | the HTTP admission controller: active requests, waiting queue, shutdown, idle waiters |
| `CreateFence` | the DingTalk create: persist the operation, create once, afterwards only reconcile; the paginated search |
| `RunnerReceipt` | the runner's event chain, totals, monotone clock, deadlines and receipt |
| `ClaimRollback` | claiming, filling and rolling back a package directory; what cleanup removes from any tree |
| `ContestedClaim` | the same with other writers changing the tree between any two steps, also between creating an entry and recording it |
| `RollbackSafety` | exactly when the rollback of such a claim spares the nodes of others, and runs in which it does not |
| `ContestedCleanup` | what such a rollback removes, and that all this is the plain claim when nobody else is at work |
| `Framing`, `StdioClient` | newline framing, demultiplexing by exchange id, stream queues with a single wake-up, the terminal contract |
| `PromptQueue` | the `\r?\n` splitter of the prompt input paired with waiting questions |
| `Activation` | the parent's side of the HTTP activation handshake, with abort at any point and an arbitrary child |
| `HostRun` | the host event loop: an arbitrary event stream becomes at most one trusted result |
| `DeployConfig`, `DeployStore` | the deploy state's normaliser; loading, and saving as a compare-and-swap that may fail or crash at every step |
| `NpmPublish` | publish-or-converge over a registry; numeric version order under `Number` rounding |
| `Decimal`, `FileSetDigest` | the byte string of the file-set digest, and a decoder for it |
| `Options` | a value that may be absent |

## Results that qualify a promise

- Quote repair undoes the lenient printer exactly when no bare quote is followed by white space and a closer
  (`QuoteRepair.LenientPrintRepaired` is an equivalence; `QuoteRepair.FalseCloserBreaksRepair` shows
  a value that breaks).
- The comment at `apps/cli/deploy/channels.ts:766-768` speaks of the release being *enqueued*; the flag is set when
  its send is *confirmed* (line 968). A clean-up called in between still signals the child: a whole run that does so
  is `Activation.CleanupOvertakesConfirmation`. The exact condition is `Activation.CleanupSignals`: a first clean-up on
  a ready outcome never signals, then or later, if and only if `release` is confirmed as sent by then or the child is
  gone.
- An entry is created in one call and recorded in another, which takes whatever stands at the path and checks only its
  kind (`apps/cli/employee-package.ts:168-185`, called at 272-273, 277-281 and 382-399; the root, made at 373, is taken
  unchecked at 382). What another writer put there in between is recorded as the claim's and the rollback removes it:
  `RollbackSafety.RecordTakesOthers` is such a run from the start. `RollbackSafety.SafeExactly` says exactly when
  no continuation of a stopped claim loses a node of others: behind the marker, when each record found an entry of the
  claim's own, or the root's record found no directory; before the marker, only when the root was never made.
- A rollback before the marker is recorded removes the directory at the path if it is empty, without comparing its
  identity (`apps/cli/employee-package.ts:406-412`). It takes a node of others if and only if an empty directory of theirs
  is there, which they then left there after the root was made (`RollbackSafety.UnclaimedRollback`); a run in which they
  do is `RollbackSafety.UnclaimedRollbackTakesOthers`.
- The prompt's limit on a line counts a carriage return that a chunk boundary parts from its newline, so a line of
  exactly 4 KiB can exceed it. `PromptQueue.LimitsDecide` gives the exact limits, over the events.
- The version comparison is precedence for components up to 2^53 and for no larger bound: 2^53 and 2^53 + 1 round to
  one number and compare equal (`NpmPublish.PrecedenceExactlyUpTo`).
- The file-set byte string is uniquely decodable for paths without NUL. The manifest checks do not refuse NUL in a
  path, and then every accepted list of two files or more has an accepted twin of one file with the same bytes
  (`FileSetDigest.NulPathsCollide`): a NUL-free list is determined among all accepted ones if and only if it has at
  most one file (`FileSetDigest.DeterminedExactly`).
- In the host loop a rejected publication of a non-terminal event is reported as `agent_host_stream_failed`: the code
  thrown at `apps/cli/agent-run.ts:600` is swallowed by the `catch`. Only a rejected terminal publication is reported
  as `agent_host_event_handler_failed`. The model follows the code.
- A save that fails after the rename reports failure although the new generation is in place
  (`DeployStore.Saves` keeps `published` apart from `Saved`).

## Model

| member | source | states |
|---|---|---|
| `QuoteRepair.RepairUnescapedQuotes` | apps/cli/qoder-agent-host.ts:590-640 | the two-flag loop with lookahead computes the specification `Repair` |
| `QuoteRepair.RepairIdempotent` | apps/cli/qoder-agent-host.ts:590-640 | repairing twice is repairing once, on every text |
| `QuoteRepair.InputRecovered` | apps/cli/qoder-agent-host.ts:590-640 | dropping the inserted characters gives the input back; each is a backslash in front of a quote of the input; the output is at most twice as long |
| `QuoteRepair.WellFormedUnchanged` | apps/cli/qoder-agent-host.ts:642-662 | every well-formed JSON text is left as it is |
| `QuoteRepair.LenientPrintRepaired` | apps/cli/qoder-agent-host.ts:590-640 | for every JSON value printed with bare quotes, the repaired text is the strict print if and only if no bare quote looks like a closing one |
| `QuoteRepair.DerivationUnique` | apps/cli/qoder-agent-host.ts:642-662 | a text has at most one derivation in the JSON grammar, so "the value it parses to" is well defined |
| `QuoteRepair.LenientPrintParsesBack` | apps/cli/qoder-agent-host.ts:642-662 | parse, else repair and parse, gives the printed value and no other |
| `QuoteRepair.FalseCloserBreaksRepair` | apps/cli/qoder-agent-host.ts:621-632 | a concrete value with a false closer that repair does not undo |
| `ToolLedger.StreamLoop.ReadLine` | apps/cli/qoder-agent-host.ts:1351-1647 | one line of output takes the loop from its state to exactly the specified next one |
| `ToolLedger.StreamLoop.CollectStarts` | apps/cli/qoder-agent-host.ts:1540-1569 | the loop over tool-use blocks yields all starts of the message or the first fault |
| `ToolLedger.StreamLoop.CollectCompletions` | apps/cli/qoder-agent-host.ts:1604-1632 | the loop over tool results yields all completions of the message or the first fault |
| `ToolLedger.StreamLoop.YieldAll` | apps/cli/qoder-agent-host.ts:1591-1594 | what is yielded of a message when a stop may strike between any two yields |
| `ToolLedger.EveryRunKeepsInv` | apps/cli/qoder-agent-host.ts:1522-1647 | in every run: one start and one completion per call at most, each completion behind a start of the same tool, completed calls are started calls, and ledger and yields agree unless stopped |
| `ToolLedger.YieldsAreTheTraffic` | apps/cli/qoder-agent-host.ts:1522-1647 | while not stopped, the tool events yielded are the child's calls and answers, none lost, added or reordered |
| `ToolLedger.CompletedRunsPairTools` | apps/cli/qoder-agent-host.ts:1650-1691 | in a run that completes, starts and completions correspond one to one by id and tool, each start first, and are exactly the traffic the child wrote |
| `ToolLedger.OpenCallsFail` | apps/cli/qoder-agent-host.ts:1689-1691 | a run with an unanswered call does not complete |
| `ToolLedger.RejectedLineAddsNothing` | apps/cli/qoder-agent-host.ts:1585-1594 | a line at fault changes neither ledger nor yields nor text |
| `ToolLedger.StoppedStays` | apps/cli/qoder-agent-host.ts:1351-1353 | once stopped, a run stays stopped and its ledger and yields stay what they are |
| `Admission.Controller.Acquire` | apps/server/server.ts:272-302 | admits, queues, or refuses with 503 or 429, as specified |
| `Admission.Controller.RemoveQueuedWaiter` | apps/server/server.ts:247-253 | the search and splice remove that waiter alone and settle it |
| `Admission.Controller.PumpQueue` | apps/server/server.ts:259-271 | the loop admits from the head, skipping dead waiters, until full |
| `Admission.Controller.Release` | apps/server/server.ts:303-307 | gives the slot back and pumps |
| `Admission.Controller.ShutDown` | apps/server/server.ts:399-411 | stops once, refuses every waiter, registers the idle waiter |
| `Admission.EveryRunKeepsInv` | apps/server/server.ts:236-311 | in every reachable state the bounds hold and a non-empty queue while serving means all slots are taken |
| `Admission.NoOvertaking` | apps/server/server.ts:272-302 | no arrival is admitted while another request waits |
| `Admission.FirstInFirstOut` | apps/server/server.ts:239-302 | queued requests are admitted in arrival order; every waiter is settled at most once, and exactly when it is no longer queued |
| `Admission.ReleaseServesHead` | apps/server/server.ts:259-307 | every release settles the head of the queue and admits it if it is alive |
| `Admission.StopIsFinal` | apps/server/server.ts:399-411 | once stopping, for ever: empty queue, no admission, `active` never grows |
| `Admission.ShutdownDrains` | apps/server/server.ts:308-311 | the idle waiter waits exactly while a request is active and is woken exactly once |
| `Admission.IdleWhileActive` | apps/server/server.ts:254-258 | once an idle waiter is woken nothing becomes active again |
| `CreateFence.FindExactApp` | apps/cli/deploy/dingtalk-provider.ts:809-894 | the paginated loop computes the search, issues at most 20 list commands, each with the cursor of the page before, none twice |
| `CreateFence.SearchMeans` | apps/cli/deploy/dingtalk-provider.ts:809-894 | on a listing that ends within the limits: "one" exactly when a single id of all pages has the name, "none" exactly when none has |
| `CreateFence.CountGuardNeverFires` | apps/cli/deploy/dingtalk-provider.ts:855-867 | the search without the guard on the total answers the same, for every remote |
| `CreateFence.RunKeepsInv` | apps/cli/deploy/dingtalk-provider.ts:896-1192 | the invariant of a deploy run under arbitrary answers at every await |
| `CreateFence.CreateIsFenced` | apps/cli/deploy/dingtalk-provider.ts:969-1110 | before a create is issued, answered or not: no record was there, a search ended without an application of the name, the operator agreed, and the operation record was written |
| `CreateFence.CreatedAtMostOnce` | apps/cli/deploy/dingtalk-provider.ts:922-1192 | over any chain of runs, each cut off anywhere, also while its create is outstanding, against any remote: at most one create is issued; none once a record exists; an identified record never changes |
| `CreateFence.KilledInCreate` | apps/cli/deploy/dingtalk-provider.ts:1096-1110 | a run killed while its create is outstanding has issued exactly one and leaves the operation record |
| `CreateFence.ResultsAreHonest` | apps/cli/deploy/dingtalk-provider.ts:763-807 | `verified` names an application the remote gave back under its id with the requested name, and that is now recorded; a run behind a create or an operation record never reports plain failure |
| `RunnerReceipt.Runner.AppendEvent` | apps/cli/runner-executor.ts:361-412 | one host event takes the ledger to exactly the specified next one |
| `RunnerReceipt.Runner.Now` | apps/cli/runner-executor.ts:187-205 | a reading that is invalid or before the last one is refused |
| `RunnerReceipt.AppendAddsOneOrNothing` | apps/cli/runner-executor.ts:361-412 | a rejected event changes nothing but the clock; any other adds exactly one event with its normalised data |
| `RunnerReceipt.AppendKeepsInv` | apps/cli/runner-executor.ts:361-412 | sequence from one, genesis first, each link the digest before, totals the sums over the events, counts per normalised name, times non-decreasing |
| `RunnerReceipt.FinalDigestFixesChain` | apps/cli/runner-executor.ts:388-404 | without digest collisions the final digest determines the whole chain |
| `RunnerReceipt.SortSorts` | apps/cli/runner-executor.ts:540-543 | the action list is strictly sorted and a permutation |
| `RunnerReceipt.SummaryOfLedger` | apps/cli/runner-executor.ts:534-565 | the sorted action list counts the completed tools of the chain, name by name |
| `RunnerReceipt.Runner.Execute` | apps/cli/runner-executor.ts:283-565 | every receipt is honest: it folds the chain, startedAt ≤ events ≤ completedAt < task and lease expiry, a completed outcome ends before the safety margin; for any clock, lease and abort timing |
| `ClaimRollback.PackageDirectories` | apps/cli/employee-package.ts:250-264 | the loop lists every proper prefix of every file path once, parents first |
| `ClaimRollback.FileSystem.WriteFiles` | apps/cli/employee-package.ts:266-283 | creates and records entry by entry, stopping at the first that cannot be created |
| `ClaimRollback.FileSystem.CleanupOwnedPackageTarget` | apps/cli/employee-package.ts:199-248 | the clean-up loop leaves exactly the tree `Cleaned` |
| `ClaimRollback.CleanupRemovesExactly` | apps/cli/employee-package.ts:199-248 | in any tree, a path goes exactly when it and all below it still are the recorded entries; all else is untouched |
| `ClaimRollback.RollbackIsExact` | apps/cli/employee-package.ts:371-415 | after any prefix of the writes, without interference, clean-up restores the tree as it was before the claim |
| `ContestedClaim.OnlyOwnNodesRemoved` | apps/cli/employee-package.ts:168-283 | with others changing the tree at will between any two steps, also between creating and recording: where each record found an entry of the claim's own, no step of the cleanup touches a node of others |
| `ContestedClaim.RecordIsMineMeans` | apps/cli/employee-package.ts:168-185 | the record lists only the claim's own entries if and only if each recording, in the run, found one |
| `RollbackSafety.SafeExactly` | apps/cli/employee-package.ts:168-248 | for every run that stopped writing: no continuation, whatever others do in it, loses a node of theirs to the rollback if and only if the stopped state is harmless |
| `RollbackSafety.RecordTakesOthers` | apps/cli/employee-package.ts:389-399 | a run from the start: a marker exchanged between creation and recording is recorded, accepted, and removed although it is another's |
| `RollbackSafety.UnclaimedRollback` | apps/cli/employee-package.ts:405-412 | before the marker is recorded, the rollback takes a node of others if and only if an empty directory of theirs is at the path, and in the run they left it there after the root was made |
| `RollbackSafety.UnclaimedRollbackTakesOthers` | apps/cli/employee-package.ts:373-412 | a run from the start in which it does |
| `ContestedCleanup.PlanIsParentsFirst` | apps/cli/employee-package.ts:250-283 | root, marker, listed directories and files come parents first, whatever the tree |
| `ContestedCleanup.ContestedCleanup` | apps/cli/employee-package.ts:199-283 | after any number of entries with any interference, cleanup removes a path exactly when claim and marker stand and it and all below it are as recorded; where each record found an entry of the claim's own, all of that was created by the claim |
| `ContestedCleanup.CleanupLeftAlone` | apps/cli/employee-package.ts:199-248 | the look and then one removal after the other, with nobody else at work, are the clean-up loop |
| `ContestedCleanup.UncontestedIsWritten` | apps/cli/employee-package.ts:266-283 | creating and recording entry by entry, with nobody else at work, are the plain writes |
| `ClaimRollback.PackageIsWritable` | apps/cli/employee-package.ts:250-283 | the listed directories and then the files can all be created in a fresh claim |
| `Framing.SplitOver` | apps/cli/stdio-agent-host.ts:510-519 | splitting chunk by chunk with a carry is splitting the whole text |
| `StdioClient.Client.ConsumeStdout` | apps/cli/stdio-agent-host.ts:510-519 | the loop over complete lines dispatches exactly the lines the chunk completes and carries the rest |
| `StdioClient.Client.DispatchLine` | apps/cli/stdio-agent-host.ts:529-562 | a line reaches its stream or pending exchange, or fails all streams |
| `StdioClient.Client.NextMessage` | apps/cli/stdio-agent-host.ts:580-608 | queued messages first, then the failure, else wait |
| `StdioClient.NothingLostOrReordered` | apps/cli/stdio-agent-host.ts:510-608 | for every chunking and interleaving, what a run read and what is queued for it are the messages addressed to it since it opened, in order |
| `StdioClient.WakeUpsAndFailures` | apps/cli/stdio-agent-host.ts:529-608 | in every run: no wake-up is lost; where a failure was delivered, all messages that had come by then were delivered before it; run and exchange ids never coincide |
| `StdioClient.RunStream` | apps/cli/stdio-agent-host.ts:196-314 | a run that returns showed non-terminal events and then exactly one terminal; no run shows two |
| `StdioClient.ShownIsAddressed` | apps/cli/stdio-agent-host.ts:196-608 | end to end: the events a run shows are, one by one and in order, the first messages the host addressed to it |
| `PromptQueue.SplitLinesOver` | apps/cli/deploy/prompts.ts:30-50 | the remainder and a new chunk split into exactly the lines the chunk completes, even when cut inside `\r\n` |
| `PromptQueue.PromptInput.CollectInput` | apps/cli/deploy/prompts.ts:30-50 | a chunk takes the queue to the specified next state, limits included |
| `PromptQueue.PromptInput.FinishInput` | apps/cli/deploy/prompts.ts:65-86 | the last unterminated line is answered, later waiters are refused |
| `PromptQueue.PromptInput.Question` | apps/cli/deploy/prompts.ts:205-218 | answered from the queue, refused after the end, or waiting |
| `PromptQueue.LinesInOrder` | apps/cli/deploy/prompts.ts:24-86 | without an input failure, question k gets line k of the whole input, whatever the chunks and the interleaving; queue and waiters are never both non-empty |
| `PromptQueue.LimitsDecide` | apps/cli/deploy/prompts.ts:30-86 | the input fails if and only if an event exceeds the limits on bytes, lines and unclaimed lines, read off the events |
| `PromptQueue.EveryLineAnswers` | apps/cli/deploy/prompts.ts:24-86 | within those limits, question k is answered with line k of the text |
| `PromptQueue.EveryQuestionSettled` | apps/cli/deploy/prompts.ts:52-86 | each question is settled once, in order; after the end or a failure none waits |
| `Activation.ExactIsEqual` | apps/cli/deploy/channels.ts:541-548 | the exact-message test is equality of maps |
| `Activation.EveryRunKeepsInv` | apps/cli/deploy/channels.ts:740-1030 | the invariant of the handshake under arbitrary child messages, timers, lock and store answers, aborts and calls |
| `Activation.HandshakeInOrder` | apps/cli/deploy/channels.ts:795-883 | the four phases go out at most once and in order, each behind the exact acknowledgement of the one before for the digest it carried, prepare and commit behind their stores; detach and release at most once, each sent behind the exact acknowledgement of listening |
| `Activation.OutcomesAreEarned` | apps/cli/deploy/channels.ts:884-1030 | a failed outcome only once the exit was observed; ready only once listening was acknowledged |
| `Activation.NoSignalAfterRelease` | apps/cli/deploy/channels.ts:765-781 | once the release is confirmed, clean-up does nothing, and no signal is ever sent again if and only if no earlier termination has one left |
| `Activation.CleanupSignals` | apps/cli/deploy/channels.ts:765-781 | a first clean-up on a ready outcome never leads to a signal if and only if the release is confirmed as sent or the child is gone |
| `Activation.SignalsBehindReady` | apps/cli/deploy/channels.ts:765-781 | after a ready outcome, exactly which states no continuation signals from |
| `Activation.ReadyIsReached` | apps/cli/deploy/channels.ts:795-1010 | a run from the start to a ready outcome |
| `Activation.CleanupOvertakesConfirmation` | apps/cli/deploy/channels.ts:943-968 | a run from the start in which clean-up signals between the release and its confirmation |
| `HostRun.Read` | apps/cli/agent-run.ts:527-612 | where and why the loop leaves the stream, and what it published until then |
| `HostRun.Conclude` | apps/cli/agent-run.ts:610-658 | third digest, then the schema for a completion, then its publication; and the result of each |
| `HostRun.RunEmployeePackage` | apps/cli/agent-run.ts:373-659 | completed if and only if all checks passed and the stream is published events, one valid `run.completed`, the end; published events are the stream's, in order; no `run.completed` is published before three matching digests and the schema; every way to break off has its result; an adapter created is disposed of last and once |
| `DeployConfig.SanitizeAgain` | apps/cli/deploy/config.ts:218-572 | what the normaliser accepts, stored, it accepts again as the same configuration |
| `DeployConfig.ResultsAreFixed` | apps/cli/deploy/config.ts:218-572 | its results are exactly the configurations it maps to themselves |
| `DeployConfig.OnlyKnownNames` | apps/cli/deploy/config.ts:154-166 | no accepted object holds a name outside the schema, at the root or in any part |
| `DeployStore.Store.SaveConfig` | apps/cli/deploy/config.ts:1252-1317 | stopped at any step by failure or crash, a save leaves the old or the whole new content, the new one only over the generation expected; it succeeds if and only if nothing stops it and the generation is current |
| `DeployStore.Store.Compare` | apps/cli/deploy/config.ts:1281-1288 | goes on exactly when the file loads and its fingerprint is the expected one |
| `DeployStore.DeployPlatformIsFaithful` | apps/cli/deploy/config.ts:1268 | over text in which every configuration the normaliser yields parses back, it meets what the store asks of it |
| `DeployStore.PublicationsFormAChain` | apps/cli/deploy/config.ts:1252-1317 | each published save replaces exactly the generation the one before published |
| `DeployStore.NoLostUpdate` | apps/cli/deploy/config.ts:1236-1288 | of all saves expecting one generation at most one is published |
| `DeployStore.LoadsTheLastPublished` | apps/cli/deploy/config.ts:605-710 | a reader at any point loads the normalised configuration of the last published save |
| `DeployStore.SavesFollowOn` | apps/cli/deploy/config.ts:1236-1310 | a save expecting the fingerprint the last one returned goes through; the comparison is equality |
| `NpmPublish.CompareStableVersions` | scripts/npm-publish-resilient.js:660-672 | the loop computes the order of the first pair that differs once rounded; none unless both are x.y.z |
| `NpmPublish.ExactlyOrdered` | scripts/npm-publish-resilient.js:660-672 | for components up to 2^53 the order is precedence, in all three answers |
| `NpmPublish.PrecedenceExactlyUpTo` | scripts/npm-publish-resilient.js:660-672 | all versions up to a bound are ordered by precedence if and only if the bound is at most 2^53 |
| `NpmPublish.ObservePublishedVersion` | scripts/npm-publish-resilient.js:639-658 | reads until one decides, throws, or the waits are used up; every read before was undecided |
| `NpmPublish.PublishWithFallback` | scripts/npm-publish-resilient.js:685-878 | npm is invoked once exactly when the package is there, the version is not and `latest` would not go back, else never; complete if and only if the last read shows the integrity and an acceptable `latest` |
| `NpmPublish.RerunIsComplete` | scripts/npm-publish-resilient.js:719-757 | over immutable versions and a `latest` that does not go back, a rerun after complete is complete with no attempt |
| `NpmPublish.NeverBelowLatest` | scripts/npm-publish-resilient.js:776-798 | for the tag `latest`: a publish is never attempted for a version of lower precedence than the registry's `latest`, for components up to 2^53 |
| `NpmPublish.CompleteMeansLatest` | scripts/npm-publish-resilient.js:621-637 | complete for the tag `latest` means matching integrity and a registry `latest` of no lower precedence, for components up to 2^53 |
| `Decimal.PrintReadsBack` | scripts/distribution-policy.js:132 | decimal print is canonical and reads back |
| `Decimal.ReadPrintsBack` | scripts/distribution-policy.js:132 | a canonical text is the print of what it reads as |
| `FileSetDigest.ComputeDistributionFileSetDigest` | scripts/distribution-policy.js:127-138 | the pieces fed to the hash are together `Preimage` |
| `FileSetDigest.DecodesPreimage` | scripts/distribution-policy.js:127-138 | the decoder finds the list that was fed |
| `FileSetDigest.UniquelyDecodable` | scripts/release-pack-check.js:115-132 | equal byte strings come of equal lists, for paths without NUL |
| `FileSetDigest.DecodesExactlyPreimages` | scripts/distribution-policy.js:127-138 | the decoder accepts exactly the byte strings of valid lists |
| `FileSetDigest.NulPathsCollide` | scripts/release-pack-check.js:114-132 | every list of two files or more that passes all the manifest's checks on files has a one-file twin that passes them and has the same bytes |
| `FileSetDigest.DeterminedExactly` | scripts/release-pack-check.js:114-132 | among all lists the checks accept, one without NUL is determined by its bytes if and only if it has at most one file |

## Left out

- Real input and output: processes, signals, sockets, file handles, kernel locks, fetch, IPC and timers are events, answers or oracles.
- Digests, signatures, schema compilation: uninterpreted functions; where a proof needs no collisions it says so.
- UTF-8 decoding across chunks and UTF-16 details: texts are sequences of characters, bytes are characters with their code. Two paths with lone surrogates encode alike and are not told apart by the digest.
- Aliasing of stream objects in the stdio client: its streams are values in a map, not heap objects shared with waiting readers. A restart of the child keeps the carry, which is set only where output is consumed (`apps/cli/stdio-agent-host.ts:511-515`): the text of the model is the output of all children, one after the other. Starting and ending a child is not modelled.
- JSON shapes of the DingTalk pages, read-backs and failures: a page, an application or a failure class is what they amount to; the two persistence callbacks are given together or not at all.
- The identity check and the removal of one path are one step of `ClaimRollback` and `ContestedClaim`, and so is the look at root and marker; in `ClaimRollback`, where nobody else is at work, so are the creation and the recording of an entry. Inodes are not reused, paths through symbolic links are not followed, and the success path, which removes the marker, is not modelled.
- ContestedClaim.OnlyOwnNodesRemoved: does not promise that others are spared when a record found an entry of theirs, because the code then removes it (`RollbackSafety.RecordTakesOthers`).
- ContestedCleanup.ContestedCleanup: likewise says whose nodes go only where each record found an entry of the claim's own.
- The reset done by `closePromptInput` between prompts, and the secret prompt.
- The package snapshot, the validation of the finished receipt and its signing in the runner.
- The wire validation of stdio events is a predicate; it is taken to hand back the event it was given.
- In `ToolLedger`, the shapes of messages are what the loop looks at in them; tool inputs, their redaction, output parsing and clean-up are answers. Abandoning the generator is not modelled.
- In `Activation`, the release counts as sent once the send is confirmed, as in the code; tuple values are text. What the child checks before it acts is not part of this model.
- In `HostRun`, inspection of the package and building of the request come before the model starts; time-outs of clean-up calls are not modelled.
- In `DeployConfig`, the error of a rejected object is only its kind, since which key is reported first depends on insertion order; dates, version numbers, slugs, absolute paths and trimming are predicates.
- In `DeployStore`, writers hold the exclusive lock and readers see whole generations; acquiring the lock, file modes and owners are not modelled. `DeployStore.NoLostUpdate` takes every new file's stamp to be new.
- In `NpmPublish`, `Number` is any monotone function that is exact up to 2^53 and rounds 2^53 + 1 down; a `latest` that is no string is treated as absent; reading the registry with its retries is one answer.
- Which files belong in a manifest; its order of paths is an arbitrary relation.
- The Claude, CodeBuddy and Qwen adapters, whose checks are mostly single rejections.
