# Toolport, modelled in Dafny

Toolport is a local MCP gateway. This project models its small protocols between processes, its scheduler for agent
scripts, and the printers whose output has to be decoded or compared exactly, and proves what they promise for every
run, every interleaving and every input. `dafny verify dfyconfig.toml` checks all of it.

| module | what it models |
|---|---|
| `Rendezvous` | adapters racing to reuse or start one daemon per data directory: pointer file, election lock, probes, spawn, idle withdrawal, exit, dead-pointer sweep |
| `ApprovalProtocol`, `ConnectionPermits` | human approval, gateway and broker composed: two dials, parked waiters, watcher, timeouts, cancellation; the worker permits |
| `HostScheduler`, `CallBudget` | code-mode call budget, call ledger, asynchronous batches, job executor, drive loop; which of a script's calls are accepted |
| `ServersPrelude` | the JavaScript prelude generated from a catalog |
| `DownstreamBackoff`, `BackoffRecords` | 429 windows shared by processes through one file; what one 429 promises |
| `ChildLedger`, `ReapingRuns`, `ReapingRaces`, `LedgerOwner`, `OrphanReaper` | the ledger of spawned servers, and reaping of orphans over a process table that recycles pids: interleaved read by read, and as one uninterrupted pass |
| `GatewayLog`, `LogWriters` | the bounded log: one writer's append and trim, and any number of writers with and without the lock |
| `CanonicalJson`, `JsonReader` | the text that approvals bind to, and a JSON reader that reads it back |
| `WorkerFrames` | length-prefixed frames between gateway and worker |
| `AuditStats`, `AuditMeaning` | aggregation of audit rows and its exact-content cache; what each number says about the rows |
| `DesktopExec`, `ExecLine` | the Exec key of the autostart entry, and the entry and command line as another program reads them |
| `Basics`, `TextOrder`, `TextLines` | options, saturating addition, hexadecimal digits, ordered string maps, Rust's `lines` |

A protocol is a system state, an `Event` datatype, a predicate `Enabled` and a function `Apply`; one event is one file
read, lock, probe, message, signal or write. A run is an event list that is `Playable` from an `Initial` state, and a
theorem about runs is a lemma about `Play(s, es)` for every such list. Fields called history in a comment record what
happened, so that a theorem can speak about it; no step reads them.

What an operation computes is pinned by laws that do not mention it: from the events of a run, from the rows of a log, by
a reader written from the format alone. `BackoffRecords`, `CallBudget`, `AuditMeaning`, `JsonReader` and `ExecLine` hold
such laws beside the module they speak about.

Several promises hold only under a condition. The project says which, and shows a run or an input that breaks them
otherwise:

- One election: `SingleElection` needs every spawned daemon to answer inside its spawner's readiness wait and no daemon
  to withdraw its pointer. `LatePublishIsClobbered` breaks it without the first, `WithdrawalElectsTwice` without the second.
- Clears that do not compare: the election winner's clear loses a serving daemon's pointer if and only if that daemon
  published after the winner's read or was declared gone while serving (`ClearLosesIff`). The shipped daemon's exit and its
  idle watchdog remove another daemon's pointer if and only if that one published later and nothing cleared it since
  (`ClearHitsAnotherIff`, with the run `ExitRemovesSuccessor`). Only `serve_identity` compares before it clears.
- Allow keys: a key stands for one grant among all strings if and only if no part of the grant has a slash
  (`KeyUniqueIff`). Server ids and fingerprints that the program makes have none, and then tools may be called anything
  (`AutoApproveIffGranted`). A collision needs a server id or a fingerprint with a slash, such as one from a hand-edited
  registry: allowing a tool then approves another server's (`AnotherToolIsApproved`).
- Late approval: a human's decision is the answer if and only if the handler was still waiting when it was made, and
  otherwise the answer is Timeout although the broker accepted it (`DecisionCountsIffWaiting`, `LateApprovalIsLost`).
- Shared ids: a caller that still waits can no longer be decided if and only if another connection with its id cleaned up
  while it waited (`UnlistedIffCleanedUp`, with the run `SharedIdLosesWaiter`).
- Settled scripts: the result is serialized by the script's own code after the last look at the queue, and what that code
  queues is counted and never run (`Finish`, `QueueLeftBehind`).
- Backoff: a saved window that is still open is missing from the file if and only if a record whose read failed, by a
  process that knew less of it, overwrote the file, and no process that knew has saved since (`MissingIffLost`, with the
  run `BlindRecordLosesWindow`). A deadline that this code did not write is released one cap later if and only if it was
  within that cap (`ForeignDeadline`). A provider that sent a single 429 is left alone for exactly as long as that one
  asked, by the process that met it and by every reader of the saved file (`SingleRecordIsExact`).
- Reaping: whatever pids are given out, a signal hits only the recorded server's family and processes that came into the
  group after the first read of the proof that led to it (`SignalHitsNewcomers`). Such strangers exist:
  `RecycledPidIsSignalled`, `RecycledInsideProof` and `NewbornIsSignalled` each kill one. `ReapingIsSafe` needs that the pid
  under proof is not given out again and that no stranger enters a leaderless group while it is scanned.
- One pass of the reaper kills every group that a removed ledger's child left behind at first, unless the kernel refuses,
  and no group that was neither led by a recorded server nor all tagged. A tagged group whose pid is in use at first is
  killed only if that process dies with another group of the same pass (`SignalledWasSignallable`), which happens
  (`KillCanFreeThePid`).
- Removing a dead owner's file takes another gateway's if and only if one with that pid saved after the reaper opened the
  file and there has been a file since (`RemovesAnotherIff`, with the run `SuccessorFileIsRemoved`).
- The log: a line is missing out of order if and only if it was appended without the lock between a trim's read and its
  replacement (`MissingIffRaced`, with the run `UnlockedAppendIsLost`).
- Desktop entry: a rewrite is idempotent if and only if no kept line ends in a carriage return (`RewriteIdempotentIff`);
  the command comes back if and only if the path is not empty (`EntryRoundTrip`); a path with a line break never does
  (`BrokenPathIsLost`).

The comment above `try_trim_log_if_large` speaks of keeping roughly the back half; the code keeps exactly the last whole
lines that take less than half of the cap, which may be none, and the model follows the code.

## Model

| member | source | states |
|---|---|---|
| `Rendezvous.GoneIffProven` | src-tauri/src/daemon.rs:895-937 | a probe ends in Gone if and only if its attempts prove it: a wrong identity, or two refusals in a row; never with a silence among them and never on one refusal |
| `Rendezvous.RunKeepsInv` | src-tauri/src/daemon.rs:769-888 | in every interleaving: exactly the election holder is in the locked section, a winner holds evidence, every descriptor in play is one that was published or spawned |
| `Rendezvous.WinnerHasProof` | src-tauri/src/daemon.rs:817-856 | whoever is about to clear or spawn has, earlier in the run and without releasing the election lock since, a probe under that lock that showed the pointer gone |
| `Rendezvous.SilenceIsNeverEvidence` | src-tauri/src/daemon.rs:780-872 | a clear or a spawn happens only while holding the election lock, after such a proof, and as the first spawn of its call |
| `Rendezvous.CallsAreBounded` | src-tauri/src/daemon.rs:769-872 | each call runs at most two rounds and spawns at most once |
| `Rendezvous.CallEndsIff` | src-tauri/src/daemon.rs:769-888 | in every reachable state, a step ends a call with Ok if and only if the descriptor it probes answers with a compatible identity, wherever it looks; with Unresponsive if and only if it is an impatient silence met without the lock; and with failure if and only if the call is given up or its second round finds the changed pointer gone |
| `Rendezvous.HowCallsEnd` | src-tauri/src/daemon.rs:769-872 | every finished call of a run was ended by such a step, and an Ok names a daemon that served at that moment |
| `Rendezvous.LooksLeadOn` | src-tauri/src/daemon.rs:780-835 | what the other looks lead to: silence under the lock gives it back before the call is patient, a proof of absence leads to the election and, under the lock, to the clear |
| `Rendezvous.LeavesLockIffChanged` | src-tauri/src/daemon.rs:780-815 | with the lock taken, the call leaves it again exactly if a pointer of this domain is there that was not there when the call last looked before waiting |
| `Rendezvous.ExitRemovesOnlyItsOwn` | src-tauri/src/daemon.rs:1056-1062 | the comparing exit of `serve_identity`, if it gets the lock, removes its own descriptor and leaves any other, whatever was published meanwhile |
| `Rendezvous.SweepRemovesOnlyTheDead` | src-tauri/src/daemon.rs:206-235 | a sweep removes the descriptor it saw exactly if it is still there, and so only that of a dead daemon, even when the pid is in use again |
| `Rendezvous.PointerSince` | src-tauri/src/daemon.rs:170-187 | in every run, a pointer that is there now was there at any earlier point one names, or was published since and has stood unchanged from then on |
| `Rendezvous.ClearHitsAnotherIff` | src-tauri/src/bin/toolport-gateway.rs:20095-20111 | the clears of a live daemon that do not compare would hit another daemon's pointer if and only if some other daemon published after its own last publish and nothing cleared it since |
| `Rendezvous.ExitRemovesSuccessor` | src-tauri/src/bin/toolport-gateway.rs:20246-20250 | a run after which the exit of one daemon removes the pointer of its serving successor |
| `Rendezvous.ClearHits` | src-tauri/src/daemon.rs:836-851 | for every run, what the election winner's clear removes is the pointer it read under its lock and proved gone, or one that claims nothing here, or one published after that read |
| `Rendezvous.ClearLosesIff` | src-tauri/src/daemon.rs:836-851 | the winner's clear loses a serving daemon's pointer if and only if it was published after the winner's read, or its daemon was declared gone while it served from the read to the clear |
| `Rendezvous.CalmRunElectsOnce` | src-tauri/src/daemon.rs:769-888 | with daemons that answer before the readiness wait ends, do not die or exit and do not withdraw their pointer, one election is kept by every step: nothing can destroy the elected daemon or elect another |
| `Rendezvous.SingleElection` | src-tauri/src/daemon.rs:769-888 | in such runs, for any number of calls, there is at most one spawn and every Ok names that one serving daemon |
| `Rendezvous.CalmClearHitsOnlyTheDead` | src-tauri/src/daemon.rs:840-851 | in such runs the clear that does not compare contents happens only while every daemon is dead |
| `Rendezvous.LatePublishIsClobbered` | src-tauri/src/daemon.rs:840-851 | without the readiness assumption there is a run in which a serving daemon's pointer is removed and a second one is spawned |
| `Rendezvous.WithdrawalElectsTwice` | src-tauri/src/bin/toolport-gateway.rs:20095-20111 | a run that is calm but for one idle withdrawal, in which the first spawner got its Ok and a second daemon is spawned beside the serving one |
| `Rendezvous.ProbeOnce` | src-tauri/src/daemon.rs:895-937 | a look is Gone if and only if it read no descriptor of this domain or its attempts prove it, Silent with the descriptor read if and only if its last attempt got no reply, Live with the answering pid if and only if that matched; it makes a second attempt only after a refusal, and takes the time of those made |
| `Rendezvous.WaitUntilReady` | src-tauri/src/daemon.rs:874-893 | returns the first live look that starts inside the readiness window, and nothing if and only if no look that starts inside it is live; how many looks and how much time that takes |
| `Rendezvous.ProbeForReuse` | src-tauri/src/daemon.rs:942-961 | the answer is what the last look shows, Gone only on its proof; every earlier look was silent and ended inside the retry window, and silence is the answer only once the window is over |
| `Rendezvous.HolderTime` | src-tauri/src/daemon.rs:37-64 | what the election holder's recheck and readiness wait come to, and that probing and sleeping under the lock takes at most 18.05 s, less than the 20 s others wait |
| `ApprovalProtocol.AutoApproveIffGranted` | src-tauri/src/approval_broker.rs:641-671 | a call is denied at once if and only if it does not carry the broker's token or that is empty; with server ids that have no slash, and either fingerprints or tool names that have none, it is approved without a prompt if and only if it is authenticated, releases neither URL nor PII, and this very tool of this very server was granted with the fingerprint it has now |
| `ApprovalProtocol.KeyDetermines` | src-tauri/src/approval.rs:316-318 | among such grants equal keys are equal grants: the key is cut at its first slash and at its last, or at its first two |
| `ApprovalProtocol.KeyUniqueIff` | src-tauri/src/approval.rs:316-318 | an allow key stands for one grant only if and only if server, tool and fingerprint have no slash |
| `ApprovalProtocol.AnotherToolIsApproved` | src-tauri/src/approval.rs:316-318 | with a slash in a server id, a grant for one server's tool that approves another server's through a shared key |
| `ApprovalProtocol.RunKeepsInv` | src-tauri/src/approval_broker.rs:707-870 | in every interleaving of gateways, handlers, watchers and the human: at most 64 parked, at most one message per channel, waiters point at their own connection, answers follow what arrived in time |
| `ApprovalProtocol.AllowedIff` | src-tauri/src/approval_broker.rs:248-266 | a key is allowed if and only if it was, at first or by an event of the run, and no later event took it back |
| `ApprovalProtocol.PromptedIsAuthentic` | src-tauri/src/approval_broker.rs:646-651 | in every run the human is asked only about calls of gateways that hold the broker's token, and never if the broker has none |
| `ApprovalProtocol.ReadRequestOutcome` | src-tauri/src/approval_broker.rs:753-771 | after any run, a request that was read is denied if and only if it lacks the token, approved if and only if it is authenticated, releases nothing else and its key is allowed, and goes on to the prompt if and only if neither |
| `ApprovalProtocol.PromptedIffRoom` | src-tauri/src/approval_broker.rs:790-817 | a request on its way to the prompt is shown and listed if fewer than 64 are and its id is free, and denied without a prompt otherwise |
| `ApprovalProtocol.ApprovingHasCause` | src-tauri/src/approval_broker.rs:790-870 | an approving connection has an earlier event in the run that justifies it |
| `ApprovalProtocol.ApprovalIsJustified` | src-tauri/src/approval_broker.rs:227-246 | an Approved answer implies that the caller holds the broker's token and that a covering allow was matched, or `decide(id, true)` ran while that connection's waiter was in the map |
| `ApprovalProtocol.PromptedAnswer` | src-tauri/src/approval_broker.rs:790-870 | a prompted call is answered with the message that reached it in time and otherwise Timeout |
| `ApprovalProtocol.DecisionCountsIffWaiting` | src-tauri/src/approval_broker.rs:227-246 | the caller a decision is made for is answered with it if its handler was still waiting at that event, and Timeout otherwise |
| `ApprovalProtocol.WatcherCountsIffWaiting` | src-tauri/src/approval_broker.rs:821-840 | a caller that hangs up or stays silent takes its prompt down: the waiter under its id is answered with what its watcher saw if it was still waiting, and Timeout otherwise |
| `ApprovalProtocol.GatewayApprovalIsJustified` | src-tauri/src/approval.rs:609-775 | end to end, a gateway's final Approved has such a justifying event, token included, for one of its own connections |
| `ApprovalProtocol.AnswerBeatsCancellation` | src-tauri/src/approval.rs:609-676 | for every run, a call ends Approved or Denied if and only if its gateway read that answer on its own connection; cancelled before its last dial ended, it ends Withdrawn in every other case, never Timeout or Unreachable |
| `ApprovalProtocol.UnreachedDial` | src-tauri/src/approval.rs:609-676 | a dial that does not reach the broker ends the call Withdrawn if and only if it is cancelled, is repeated if and only if it was the first, and else ends it Unreachable |
| `ApprovalProtocol.TwoDials` | src-tauri/src/approval.rs:609-676 | a call opens at most two connections, the second only after the first did not reach the broker |
| `ApprovalProtocol.NoDoublePrompt` | src-tauri/src/bin/toolport-gateway.rs:96-125 | with fresh ids and a broker that delivers its answer once it has prompted, other answers being lost or not, one call prompts at most once across its two dials, and no two prompts share an id |
| `ApprovalProtocol.RemovedOnlyByOwner` | src-tauri/src/approval_broker.rs:790-870 | with unshared ids a waiter is removed only by the human, by its own watcher or by its own cleanup |
| `ApprovalProtocol.UnlistedIffCleanedUp` | src-tauri/src/approval_broker.rs:790-870 | for every run and any ids, a handler still waiting is missing from the pending map if and only if another connection with the same id cleaned up while it waited |
| `ApprovalProtocol.SoundRunListsWaiters` | src-tauri/src/approval_broker.rs:790-870 | so with fresh ids and a broker that delivers, every handler still waiting is in the pending map, where it can be decided |
| `ApprovalProtocol.LateApprovalIsLost` | src-tauri/src/approval_broker.rs:227-246 | a run in which an accepted approval is answered Timeout |
| `ApprovalProtocol.SharedIdLosesWaiter` | src-tauri/src/approval_broker.rs:790-870 | a run in which two calls share an id and one cleanup removes the other's waiter |
| `ApprovalProtocol.ReadApprovalRequest` | src-tauri/src/approval_broker.rs:129-152 | a request is read if and only if a newline comes within the limit, and is exactly the bytes up to it |
| `ApprovalProtocol.AwaitReply` | src-tauri/src/approval.rs:701-742 | the read loop: blocked reads of any length are retried until the deadline on the cancellable path only; what the first other read, the deadline or a cancellation makes of the attempt |
| `ApprovalProtocol.Exchange` | src-tauri/src/approval.rs:685-744 | an attempt is Approved or Denied if and only if that answer was read in time and before a cancellation; exactly when it counts as not reached; a set cancel flag gives Withdrawn; a request that cannot be serialized, an unreadable answer and a broken read are a Timeout |
| `ConnectionPermits.PermitsAreBounded` | src-tauri/src/approval_broker.rs:93-126 | over every interleaving of the exchange loop the counter equals the permits out, stays at most 96 and never wraps |
| `ConnectionPermits.RefusedSawFull` | src-tauri/src/approval_broker.rs:105-126 | a connection is refused only if the counter was at the cap when its own thread last read it |
| `ConnectionPermits.PassEnds` | src-tauri/src/approval_broker.rs:105-126 | a pass of the loop takes a permit if and only if the thread's last read was below the cap and still stands, refuses if and only if it was at the cap, and else goes round again |
| `HostScheduler.LedgerHolds` | src-tauri/src/codemode.rs:901-1030 | after every sequence of sync calls, async calls, fetches and batches: calls made = executed + queued + fetches within the budget, dense indexes, the host got the index its record carries, async calls in issue order and none lost |
| `CallBudget.RunIsAccepted` | src-tauri/src/codemode.rs:901-1030 | for every run, the calls made are the smaller of the budget and the number of steps that ask for a call in time, a fetch being one only if available and with a cursor; the fetches, the synchronous calls and the issued asynchronous calls are exactly the accepted steps of each kind, in order |
| `CallBudget.AcceptedSnoc` | src-tauri/src/codemode.rs:1115-1127 | a step is accepted if and only if it asks for a call in time and fewer than the budget were accepted before it |
| `CallBudget.QuietLedgerIsAccepted` | src-tauri/src/codemode.rs:901-1030 | once nothing is queued, the ledger has one record for every accepted call that is no fetch, the asynchronous ones in the order the script made them |
| `CallBudget.BatchRecords` | src-tauri/src/codemode.rs:1273-1303 | the record of the i-th call of a batch: the host's answer, or a panic that only a batch of two or more survives |
| `HostScheduler.StepFuel` | src-tauri/src/codemode.rs:1265-1320 | queued calls plus unused budget never grows and falls with every batch |
| `HostScheduler.JoinWorkers` | src-tauri/src/codemode.rs:1324-1371 | each result lands in its own slot, and a slot holds the panic error if and only if its own worker panicked; the missing-result fallback is unreachable |
| `HostScheduler.RunCalls` | src-tauri/src/codemode.rs:1324-1371 | result i is the host's answer to item i with index start + i, or the panic error if and only if that item's joined worker panicked |
| `HostScheduler.ScriptHost.constructor` | src-tauri/src/codemode.rs:453-476 | an empty ledger, with parallelism and job budget at least one |
| `HostScheduler.ScriptHost.SyncNative` | src-tauri/src/codemode.rs:901-925 | is the ledger machine's synchronous step: within the budget and in time one call more and one record with the next index, otherwise nothing |
| `HostScheduler.ScriptHost.AsyncNative` | src-tauri/src/codemode.rs:926-940 | is the ledger machine's asynchronous step: within the budget and in time one call more and that call queued last, otherwise nothing |
| `HostScheduler.ScriptHost.FetchNative` | src-tauri/src/codemode.rs:985-1030 | is the ledger machine's fetch step: one call more if the binding is there, the cursor is given, the clock is not late and the budget is not spent, otherwise nothing |
| `HostScheduler.ScriptHost.RunBatch` | src-tauri/src/codemode.rs:1273-1303 | is the ledger machine's batch step: takes as many queued calls as may run at once, from the front, and appends their records in order |
| `HostScheduler.ScriptHost.Flush` | src-tauri/src/codemode.rs:1265-1320 | terminates for every script; on success nothing is left queued and the promise of every call that ran was resolved in a callback of its own; it fails only on a late clock or a throw |
| `HostScheduler.ScriptHost.EnqueueJobs` | src-tauri/src/codemode.rs:275-285 | promise and generic jobs are queued, each kind counted, and any other kind is remembered as refused |
| `HostScheduler.ScriptHost.JobTurn` | src-tauri/src/codemode.rs:295-320 | one iteration of the job loop: the clock and the budget before the queues, then one job, a promise job if there is one |
| `HostScheduler.ScriptHost.RunJobs` | src-tauri/src/codemode.rs:287-332 | at most the job budget over the whole script, both queues empty on every exit; on success every job queued or left by another job has run exactly once; it fails only on a refused job, a spent budget, a late clock or a throw |
| `HostScheduler.ScriptHost.Drive` | src-tauri/src/codemode.rs:1145-1200 | ends within max_calls + 1 iterations, so the drive budget error is unreachable below 1,000,000 calls; why it throws or hangs; the ledger holds; when it settles, what is queued is exactly what was issued since the last look at the queue |
| `HostScheduler.ScriptHost.Finish` | src-tauri/src/codemode.rs:1163-1256 | hangs if and only if the promise is unresolved and settles if and only if it is fulfilled and the serializer does not throw; the script's own printer or serializer runs once more, and the queue afterwards is exactly what that code queued |
| `HostScheduler.QueueLeftBehind` | src-tauri/src/codemode.rs:1215-1256 | a script that settles with one call counted, queued and never run |
| `ServersPrelude.LiteralRoundTrip` | src-tauri/src/codemode.rs:733-749 | reading a printed string literal gives back the string, for every string, though no line terminator may stand in a literal |
| `ServersPrelude.SplitJoins` | src-tauri/src/codemode.rs:724-727 | an exposed name is its server part, the separator and its tool part |
| `ServersPrelude.SplitsAtFirst` | src-tauri/src/codemode.rs:724-727 | the cut is at the first separator, and there is none if and only if the name has none |
| `ServersPrelude.ExposesUnique` | src-tauri/src/codemode.rs:724-727 | a server and a tool come from one exposed name only |
| `ServersPrelude.ToolsOk` | src-tauri/src/codemode.rs:635-650 | a server's sorted map holds exactly the catalog names it exposes, each under its tool part |
| `ServersPrelude.EmitServer` | src-tauri/src/codemode.rs:673-706 | running one server's block gives its object exactly its tools and aliases, leaves the others alone and lists its names once |
| `ServersPrelude.BuildServersPrelude` | src-tauri/src/codemode.rs:635-722 | running the emitted statements gives one object per server with each tool under its segment, each alias for its least tool and nothing else; the listing has every splittable name exactly once, by server and then by tool |
| `ServersPrelude.ToolResolves` | src-tauri/src/codemode.rs:635-722 | every splittable catalog name is what its own server and segment evaluate to |
| `ServersPrelude.AliasIff` | src-tauri/src/codemode.rs:692-703 | a property that is no tool's own name is there if and only if it is an identifier and some tool's camelCase form |
| `ServersPrelude.AliasResolves` | src-tauri/src/codemode.rs:692-703 | any other property is an alias of the least tool whose camelCase form it is |
| `ServersPrelude.SnakeToCamel` | src-tauri/src/codemode.rs:751-769 | the loop gives the first word as it is and every later word with its first letter raised, empty words vanishing |
| `ServersPrelude.WordsJoin` | src-tauri/src/codemode.rs:751-769 | the words are the text between the underscores |
| `DownstreamBackoff.MergeIsJoin` | src-tauri/src/downstream_backoff.rs:97-108 | merging is commutative, associative, idempotent and never lowers a window |
| `DownstreamBackoff.MergeInto` | src-tauri/src/downstream_backoff.rs:97-108 | the loop computes the pointwise maximum in any iteration order |
| `DownstreamBackoff.SanitizeInPlace` | src-tauri/src/downstream_backoff.rs:110-121 | the loop drops expired windows and caps the others |
| `DownstreamBackoff.RunKeepsInv` | src-tauri/src/downstream_backoff.rs:141-188 | over every run of binding, recording, consulting and saving processes, with reads that fail or not, no deadline is more than one cap after its last record |
| `DownstreamBackoff.LostIffLoses` | src-tauri/src/downstream_backoff.rs:155-166 | from any reachable state, one step loses a saved open window if and only if it is a record whose read failed, by a process that knows less of that window |
| `DownstreamBackoff.RegainedIffRestores` | src-tauri/src/downstream_backoff.rs:155-166 | and a lost one stops being missing if and only if it expires or a process that knows of it saves |
| `DownstreamBackoff.MissingIffLost` | src-tauri/src/downstream_backoff.rs:141-167 | for every run and key, the saved open window is missing from the file if and only if some event lost it and none has restored it since |
| `DownstreamBackoff.RunKeepsKept` | src-tauri/src/downstream_backoff.rs:141-167 | if no event of the run loses a key's window, it is in the file until it expires |
| `DownstreamBackoff.WindowsAreNeverShortened` | src-tauri/src/downstream_backoff.rs:141-188 | for every run, a bound process that reads the file reports at least what is left of a saved window if and only if the window was not lost or the process itself knows of it |
| `BackoffRecords.RecorderHoldsBack` | src-tauri/src/downstream_backoff.rs:141-153 | from a 429 on until the time it asked for, the advertised delay within ten seconds or ten seconds without one, the process that met it reports at least the rest, whatever happens in between |
| `BackoffRecords.ReadersHoldBack` | src-tauri/src/downstream_backoff.rs:141-188 | once that 429 is saved, so does every bound process that reads the file, while no record has overwritten the window |
| `BackoffRecords.ReadableSavesLoseNothing` | src-tauri/src/downstream_backoff.rs:161-166 | records that could read the file overwrite nothing |
| `BackoffRecords.ReaderRemembers` | src-tauri/src/downstream_backoff.rs:65-76 | a window read from the file, at binding or at a consult, stays with the process whatever becomes of the file |
| `BackoffRecords.NobodyWaitsLonger` | src-tauri/src/downstream_backoff.rs:141-188 | whatever any process reports, some 429 for that key asked for it |
| `BackoffRecords.SingleRecordIsExact` | src-tauri/src/downstream_backoff.rs:141-188 | a key met by one 429 is released exactly when that asked for: its process, and every bound reader once it is saved and not lost, reports just the rest of that time and then nothing |
| `BackoffRecords.SavedFileIsOpen` | src-tauri/src/downstream_backoff.rs:110-121 | a saved file holds open windows only, none more than ten seconds away, and every open one of the process that saved it |
| `DownstreamBackoff.BlindRecordLosesWindow` | src-tauri/src/downstream_backoff.rs:161-166 | a run in which a record after a failed read takes a saved window away from another process |
| `DownstreamBackoff.WindowsAreReleased` | src-tauri/src/downstream_backoff.rs:170-188 | one cap after the last record no process reports a window |
| `DownstreamBackoff.ForeignDeadline` | src-tauri/src/downstream_backoff.rs:178-187 | whatever a bound process knows itself, it is released one cap after t if and only if neither the file's deadline, whoever wrote it, nor its own is later than that |
| `ChildLedger.ProvableIsSafe` | src-tauri/src/child_ledger.rs:191-209 | a group that passes the test holds only the recorded server and its descendants |
| `ChildLedger.DoKeepsSafe` | src-tauri/src/child_ledger.rs:191-209 | nothing but handing out its pid again makes a proven group unsafe |
| `ChildLedger.ReadKeepsStage` | src-tauri/src/child_ledger.rs:199-247 | each single read of the proof, on the table of its moment, establishes what the next one builds on: the leader alone under its pid, the untagged strangers all among the pids still unread, and in the end a group safe to signal |
| `ChildLedger.RunKeepsInv` | src-tauri/src/child_ledger.rs:87-188 | in every interleaving, ledgers, files and the files reapers hold name only servers their owner spawned and recorded, and a reaper past its check has a dead owner |
| `ChildLedger.ReapingIsSafe` | src-tauri/src/child_ledger.rs:163-247 | in runs in which no pid under proof is given out before its signal and no stranger enters a group under scan, every process ever signalled is a recorded server of a dead gateway or a descendant of one |
| `ReapingRuns.SignalHitsNewcomers` | src-tauri/src/child_ledger.rs:199-247 | for every run, whoever a signal hits is an orphan of a dead gateway or came into the group after the first read of that very proof |
| `ChildLedger.LiveFilesAreLedgers` | src-tauri/src/child_ledger.rs:107-188 | in runs in which no namesake records while a dead owner's file is handled, whatever pids and groups do, every live gateway's file is its ledger |
| `ChildLedger.LiveLedgerUntouched` | src-tauri/src/child_ledger.rs:163-188 | in such runs no step but its own gateway's changes a live gateway's file |
| `ChildLedger.RemovesOnlyTheDead` | src-tauri/src/child_ledger.rs:180-188 | in such runs the file a reaper removes is that of the dead owner it checked |
| `ReapingRuns.RemovesAnotherIff` | src-tauri/src/child_ledger.rs:163-188 | for every run, a removal takes another gateway's file if and only if one with that pid saved after the reaper opened the file and there has been a file since |
| `ReapingRaces.RecycledPidIsSignalled` | src-tauri/src/child_ledger.rs:199-209 | a run with a pid recycled between proof and signal in which a bystander's process is killed |
| `ReapingRaces.RecycledInsideProof` | src-tauri/src/child_ledger.rs:199-207 | a run with the pid recycled between the two reads of the proof, the signal following at once, in which a bystander's process is killed |
| `ReapingRaces.NewbornIsSignalled` | src-tauri/src/child_ledger.rs:219-247 | a run in which the scan misses a stranger born after the pids were listed, which is then killed |
| `ReapingRaces.SuccessorFileIsRemoved` | src-tauri/src/child_ledger.rs:180-188 | a run with the owner's pid recycled in which a live gateway's file is removed |
| `LedgerOwner.Retain` | src-tauri/src/child_ledger.rs:133-136 | keeps exactly the entries with another pid, in order |
| `LedgerOwner.Ledger.Record` | src-tauri/src/child_ledger.rs:122-141 | replaces any entry of that pid by the new one at the end, keeps pids unique and saves; an unnameable process changes nothing |
| `LedgerOwner.Ledger.Forget` | src-tauri/src/child_ledger.rs:144-159 | drops the pid's entry, and the file on disk stays the ledger |
| `LedgerOwner.LedgerSteps` | src-tauri/src/child_ledger.rs:122-159 | the same two operations in the runs of many gateways: a record replaces the entry of its pid and keeps the others, a forget drops the entries of its pid and nothing else |
| `OrphanReaper.CarriesTag` | src-tauri/src/child_ledger.rs:219-247 | the scan answers yes if and only if the group has members and all of them carry the tag |
| `OrphanReaper.ProvableIffLeftBehind` | src-tauri/src/child_ledger.rs:199-209 | the test passes if and only if the recorded server lives and leads its group, or its pid is unused and its group is not empty and all tagged |
| `OrphanReaper.KillCanFreeThePid` | src-tauri/src/child_ledger.rs:182-186 | a group that is not one to kill until another group of the same pass is |
| `OrphanReaper.ProvableLasts` | src-tauri/src/child_ledger.rs:182-186 | killing other groups does not spoil a proof |
| `OrphanReaper.Host.KillOrphanGroup` | src-tauri/src/child_ledger.rs:199-209 | signals a group, whole, if and only if its recorded server lives and leads it, or nobody has that pid and the group has members that all carry the recorded tag; reports whether the kernel let it |
| `OrphanReaper.Host.ReapFile` | src-tauri/src/child_ledger.rs:182-186 | every group provable at first is dead after the loop or refused by the kernel, every kill has its proof, and the count is the number of groups killed |
| `OrphanReaper.Host.ReapOrphans` | src-tauri/src/child_ledger.rs:163-188 | in any directory order: every readable ledger whose owner was dead at first and has another pid goes, only such ledgers of owners dead by then go, the others stay as they are; every group that a removed ledger's child left behind at first, led by the recorded server or leaderless and all tagged, is empty or refused by the kernel; every group killed was recorded and led or all tagged; nothing else changes, and the count is the number of groups killed |
| `OrphanReaper.SignalledWasSignallable` | src-tauri/src/child_ledger.rs:182-209 | a killed group was, before the pass, led by its recorded server, or all tagged with whoever had its pid killed in another group |
| `OrphanReaper.OthersAreUntouched` | src-tauri/src/child_ledger.rs:163-188 | a process in a group that no removed ledger's child leads or tags lives on unchanged |
| `OrphanReaper.StillProofIsExact` | src-tauri/src/child_ledger.rs:199-247 | while the table stands still, the interleaved reads of the proof, in whatever order the pids are looked at, end proven if and only if the group is one to kill |
| `OrphanReaper.ReaperSteps` | src-tauri/src/child_ledger.rs:163-188 | in the interleaved runs a ledger is worked through exactly if its owner is dead and has another pid, a signal that works empties the group and touches no other, and the finished ledger is removed |
| `OrphanReaper.SignalHitsRecorded` | src-tauri/src/child_ledger.rs:191-209 | whoever a pass kills descends from a server recorded in a removed ledger |
| `GatewayLog.TrimDropsLines` | src-tauri/src/gatewaylog.rs:180-199 | cutting bytes after the first line feed of the last half is dropping whole lines |
| `GatewayLog.CutKeepsMost` | src-tauri/src/gatewaylog.rs:188-194 | the kept lines take less than half the cap, and one line more would not |
| `GatewayLog.LogFile.AppendLine` | src-tauri/src/gatewaylog.rs:160-166 | appends the record; the file stays a whole-line suffix of the history |
| `GatewayLog.LogFile.TrimIfLarge` | src-tauri/src/gatewaylog.rs:180-199 | leaves a file within the cap alone; over it, a line survives if and only if it and all later ones take less than half the cap |
| `GatewayLog.LogFile.AppendBatch` | src-tauri/src/gatewaylog.rs:130-158 | a call that no other writer interrupts keeps the file a whole-line suffix of the history, within the cap after a locked batch, and reports what is unconfirmed when it fails |
| `LogWriters.FileIsSurvivors` | src-tauri/src/gatewaylog.rs:130-199 | in every interleaving of writers, locked or not, the file is exactly the lines neither trimmed away as the oldest nor overwritten by a trim, in order |
| `LogWriters.TrimKeeps` | src-tauri/src/gatewaylog.rs:180-199 | a trim of what survives is the survivors from the first mark on at which they take less than half the cap |
| `LogWriters.MarkExactly` | src-tauri/src/gatewaylog.rs:180-199 | a line a trim has read stays if and only if it and the later ones take less than half the cap |
| `LogWriters.LockedFileIsSuffix` | src-tauri/src/gatewaylog.rs:130-158 | with every append under the lock the file is a whole-line suffix of the history |
| `LogWriters.LockedBatchEndsWithinCap` | src-tauri/src/gatewaylog.rs:130-146 | and within the cap whenever a batch that did not fail gives the lock back |
| `LogWriters.SmallLogIsWhole` | src-tauri/src/gatewaylog.rs:180-199 | while all lines together fit within the cap nothing is ever trimmed, with or without the lock, and every line is there |
| `LogWriters.MissingIffRaced` | src-tauri/src/gatewaylog.rs:130-199 | a line newer than the trimmed ones is missing if and only if it was appended without the lock between a trim's read and its replacement |
| `LogWriters.UnlockedAppendIsLost` | src-tauri/src/gatewaylog.rs:149-157 | a run that loses the newest line and keeps an older one |
| `CanonicalJson.QuotedUnique` | src-tauri/src/audit.rs:416-482 | a quoted string can be read back off the front of any text (section 7 of RFC 8259) |
| `CanonicalJson.Unique` | src-tauri/src/audit.rs:416-482 | a canonical text is prefix-free: value and rest are determined, up to object key order |
| `CanonicalJson.CanonicalIffSame` | src-tauri/src/audit.rs:416-482 | two values have the same text if and only if they are equal up to object key order |
| `JsonReader.CanonicalIsJson` | src-tauri/src/audit.rs:416-482 | a reader written from RFC 8259 alone reads the whole canonical text back as the value up to field order, with the keys of every object in increasing order and nothing left over |
| `JsonReader.EscapesAreShortest` | src-tauri/src/audit.rs:416-448 | nothing is escaped that need not be, and the short form is taken where there is one |
| `TextOrder.LessIff` | src-tauri/src/audit.rs:452-465 | keys are ordered by the first character that differs, a prefix first |
| `CanonicalJson.Sink.WriteCanonical` | src-tauri/src/audit.rs:450-482 | the streaming writer appends exactly the canonical text |
| `CanonicalJson.OrderMatches` | src-tauri/src/audit.rs:452-465 | sorting the keys and looking each up visits the members in canonical order |
| `WorkerFrames.LimitedWriter.Write` | src-tauri/src/codemode_worker.rs:189-197 | takes all of a chunk or none, exactly as the limit allows |
| `WorkerFrames.ToWriter` | src-tauri/src/codemode_worker.rs:106-118 | however a serializer chunks its output, it is accepted if and only if the total fits |
| `WorkerFrames.WriteFrame` | src-tauri/src/codemode_worker.rs:106-125 | which result when; a rejected payload leaves the pipe untouched, an accepted one adds exactly its frame, and an I/O error leaves a prefix of it, the whole only if the flush failed |
| `WorkerFrames.JsonSize` | src-tauri/src/codemode_worker.rs:206-210 | the total size if and only if it is within the limit |
| `WorkerFrames.FrameLayout` | src-tauri/src/codemode_worker.rs:105-125 | on the wire a frame is four bytes with the payload's size, most significant first, then the payload |
| `WorkerFrames.BytesDecide` | src-tauri/src/codemode_worker.rs:127-151 | which bytes give which outcome: a clean end only before any byte, sizes 0 and above 16 MiB refused before any payload, an error inside a header or payload that is cut off, else what the payload decodes to |
| `WorkerFrames.Reader.ReadFrame` | src-tauri/src/codemode_worker.rs:130-151 | one read is the specified outcome on the bytes left, whatever interruptions come first, and consumes exactly one frame |
| `WorkerFrames.CutStream` | src-tauri/src/codemode_worker.rs:127-151 | reading any cut of a stream yields exactly the frames wholly before it, then a clean end if and only if the cut is a frame boundary and the source has not failed |
| `WorkerFrames.RoundTrip` | src-tauri/src/codemode_worker.rs:106-151 | reading what was written yields exactly the frames written, then a clean end |
| `WorkerFrames.AcceptedIsStream` | src-tauri/src/codemode_worker.rs:127-151 | input read to a clean end is byte for byte a stream of the frames it yielded |
| `AuditStats.Latency` | src-tauri/src/audit.rs:766-778 | the loop computes the saturated mean and the value at the rank of the sorted sample |
| `AuditStats.PercentileIsSample` | src-tauri/src/audit.rs:772-777 | the index is in range: the percentile is one of the samples and none of the earlier ranks is above it |
| `AuditStats.LatencyPermuted` | src-tauri/src/audit.rs:766-778 | mean and percentile do not depend on the order of the sample |
| `AuditStats.AggregateRows` | src-tauri/src/audit.rs:904-1020 | whatever order the hash maps are walked in, the result is the statistics of the rows: counts, failures, latency and last time stamp per server and tool, each name once, busiest first |
| `AuditStats.AggregateConserves` | src-tauri/src/audit.rs:918-1020 | totals are the sums over servers, and each server's the sums over its tools |
| `AuditStats.AggregateOrderFree` | src-tauri/src/audit.rs:904-1020 | logs with the same call rows in any order, among any other rows, have the same statistics, ties in any order |
| `AuditStats.PermutedLog` | src-tauri/src/audit.rs:904-1020 | permuting the rows changes nothing, dropped records included |
| `AuditStats.NonCallsAdded` | src-tauri/src/audit.rs:812-825 | rows that are not calls change nothing, except that gap rows add to the dropped records |
| `AuditMeaning.TotalsMean` | src-tauri/src/audit.rs:812-825 | the total counts the rows that say how they ended and are no governance row, the errors those of them that failed, the rate is their quotient, and dropped is the sum over the gap rows up to the largest 64-bit number |
| `AuditMeaning.StatDescribes` | src-tauri/src/audit.rs:766-778 | a line about some call rows gives their number, failures and rate, the whole milliseconds of their mean duration, a duration that stands at the rank among them, and their greatest time stamp |
| `AuditMeaning.ServersMean` | src-tauri/src/audit.rs:918-1020 | each server's line describes the calls to that server, and exactly the servers that were called have one |
| `AuditMeaning.ToolsMean` | src-tauri/src/audit.rs:918-1020 | each tool's line below it describes that server's calls of that tool, and exactly the tools that were called have one |
| `AuditStats.StatsCache.Get` | src-tauri/src/audit.rs:864-894 | after any earlier calls the answer is an aggregation of this very content; what is retained is that content if it is within 4 MiB and else nothing |
| `DesktopExec.UnquotedEscaped` | src-tauri/src/autostart.rs:49-58 | unquoting undoes quoting, whatever follows the closing quote |
| `DesktopExec.ParseFirstExecArg` | src-tauri/src/autostart.rs:91-118 | the loop computes the first argument |
| `DesktopExec.FirstArgRoundTrip` | src-tauri/src/autostart.rs:49-118 | a non-empty first argument comes back, whatever arguments follow |
| `DesktopExec.CommandOf` | src-tauri/src/autostart.rs:60-118 | the first argument of a generated command line is the path, or the first argument that is not empty |
| `ExecLine.CommandLineRoundTrip` | src-tauri/src/autostart.rs:49-66 | read as a command line, what is generated gives the path and every argument in order, empty ones printing as nothing |
| `ExecLine.QuotedOnlyIfNeeded` | src-tauri/src/autostart.rs:49-58 | an argument is printed as it is if and only if it has only safe characters; otherwise quoting adds the quotes and one backslash for each quote or backslash |
| `ExecLine.AnyKeyReads` | src-tauri/src/autostart.rs:91-118 | of an entry somebody else wrote: nothing from white space, the first bare word, or the quoted text even if it is not closed |
| `ExecLine.TrimIs` | src-tauri/src/autostart.rs:91-94 | white space around the key's text is dropped and nothing else is |
| `DesktopExec.EntryRoundTrip` | src-tauri/src/autostart.rs:68-89 | parsing a generated entry gives the path if and only if the path is not empty, and exactly what otherwise |
| `ExecLine.EntryLines` | src-tauri/src/autostart.rs:68-81 | the generated entry has exactly these eight lines |
| `ExecLine.FirstKeyCounts` | src-tauri/src/autostart.rs:84-89 | the command is read from the first line with the key |
| `DesktopExec.BrokenPathIsLost` | src-tauri/src/autostart.rs:84-89 | a path with a line break comes back from no file |
| `DesktopExec.RewriteDesktopExec` | src-tauri/src/autostart.rs:120-143 | the loop replaces the first Exec line or appends one |
| `ExecLine.ReplacedInPlace` | src-tauri/src/autostart.rs:120-143 | the new line stands where the first one with the key stood, and last if there was none |
| `DesktopExec.RewriteKeepsOthers` | src-tauri/src/autostart.rs:120-143 | a reader of the rewritten file finds the new Exec line and all other lines in their old order |
| `DesktopExec.RewriteRoundTrip` | src-tauri/src/autostart.rs:84-143 | after a rewrite the command is the path asked for, whatever the file held |
| `DesktopExec.RewriteIdempotentIff` | src-tauri/src/autostart.rs:120-143 | rewriting twice is rewriting once if and only if no kept line ends in a carriage return |
| `DesktopExec.RewriteIdempotent` | src-tauri/src/autostart.rs:120-143 | on contents without carriage returns the rewrite is idempotent |
| `DesktopExec.DoubledReturnIsUnstable` | src-tauri/src/autostart.rs:120-143 | a file on which the second rewrite changes the first one's result |
| `TextLines.LinesOfUnlines` | src-tauri/src/autostart.rs:124-133 | lines written with a line feed each and read back lose one carriage return at their end and nothing else |
| `TextLines.LinesOfText` | src-tauri/src/autostart.rs:124-133 | any text is its terminated lines without their breaks, then what follows the last break as it is |

## Left out

- The JavaScript engine, garbage collection, JSON Schema validation: a script is an arbitrary sequence of host operations; promise jobs are counted, not represented.
- A panic of the host binding in a synchronous call or in a batch of one, which nothing catches: only joined workers record a panic.
- HTTP transport and error classification, sockets, D-Bus, OS notifications, file permissions: every outcome they can report is an event or a parameter.
- HMAC, SHA-256, random tokens: a token or tag passes only where it was given; ids are fresh where a theorem says so. The hash over the canonical text is not modelled, its preimage is.
- Lock files and atomic replacement: mutual exclusion and replacement in one step are taken as given; a lock that cannot be taken is an event where the code goes on without it.
- Clocks: readings are parameters or events that never go back.
- Rendezvous.HolderTime: descriptor-lock waits and the time to spawn are not counted.
- Rendezvous.SingleElection: daemons that die, exit, answer late or withdraw their pointer are excluded by the run's assumptions; LatePublishIsClobbered and WithdrawalElectsTwice show why.
- Rendezvous.ExitRemovesOnlyItsOwn: states what `serve_identity` does; the exit of the shipped daemon is the unconditional clear of ClearHitsAnotherIff.
- ChildLedger.ReapingIsSafe: assumes that a group which is still a server's own is joined only by that server's descendants, and that an exec keeps or drops a tag but never forges one; a zombie counts as gone, and spawning tags a server and puts it in its group in one step.
- OrphanReaper.CarriesTag: the scan of one uninterrupted pass, on a table that stands still; ChildLedger reads it entry by entry.
- OrphanReaper.Host.KillOrphanGroup: likewise on a table that stands still.
- OrphanReaper.Host.ReapOrphans: one uninterrupted pass; interleavings are in ChildLedger. A file that cannot be read or parsed is a file without contents.
- AuditStats.Latency: the float rank is any function of the sample size, clipped to the index range as in the code; error rates are exact reals.
- GatewayLog.LogFile.AppendBatch: one call that no other writer interrupts, which matters for its unlocked branch; interleavings are in LogWriters. Lines are valid UTF-8, so the lossy decoding of the kept tail is the identity; a failing append writes nothing.
- CanonicalJson.CanonicalIffSame: numbers are their printed text, assumed to be an injective encoding made of number characters; keys are ordered by character, which is byte order for UTF-8.
- JsonReader.CanonicalIsJson: the reader takes text without white space between tokens, and a number for whatever number characters follow; the canonical text needs no more.
- AuditMeaning.StatDescribes: the rank is that float computation, any function of the sample size.
- ServersPrelude.BuildServersPrelude: the emitted text is modelled as a list of assignments with printed literals, not as JavaScript source; uppercasing a character is any function.
- WorkerFrames.RoundTrip: the JSON codec is any encoder and decoder that undo each other on the frames sent.
- DesktopExec.EntryRoundTrip: paths are text; a path that is not valid UTF-8 is printed lossily by the program.
- Purge and installer code, bridges, diagnostics, brand and guard code, call-failure tables, the user interface and packaging: plumbing, or properties that are short by comparison.
