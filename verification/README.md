# remote-exec: the agent's authorisation machine and its execution stream, in Dafny

remote-exec lets a controller run commands on a remote agent. A single-use join token buys a client
certificate with one role; the role decides which RPCs the certificate may call; destructive commands also
pass the agent's own policy, which may ask for a one-time approval; the output of a command comes back as a
stream of tagged chunks that ends in an exit code. This project models that path and proves what it promises
over every interleaving, crash, restart and schedule.

`dafny verify dfyconfig.toml` checks the whole project (Dafny 4.11).

## How the model is built

| file | part of the system |
|---|---|
| `AtomicTokens.dfy` | the atomic single-use token map, as a log of commits |
| `TokenMachine.dfy`, `TokenRuns.dfy` | the token file as micro-steps of any number of instances; what every run guarantees |
| `TokenStore.dfy` | `FileStore`, statement by statement over one disk, in lockstep with the machine |
| `Grants.dfy`, `Policy.dfy`, `Authz.dfy` | approvals, the local policy, roles and interceptors |
| `Wire.dfy`, `Execute.dfy`, `AgentServer.dfy`, `Controller.dfy` | messages, running a process, the Deploy and Run handlers, the controller's commands |
| `Environment.dfy` | `--set-env` parsing and merging |
| `Gate.dfy` | interleaved Deploy handlers over one approval store, with restarts |
| `Session.dfy` | `exec deploy`, with --yes or with the printed id, placed in a run of the gate |
| `Enroll.dfy`, `Daemon.dfy` | enrollment, and the whole agent as one machine |
| `Progress.dfy` | what the whole agent can always do: the runs that the laws of `Daemon` do not forbid exist |
| `RandomIds.dfy`, `Prelude.dfy` | random ids in base64url; shared types |

A run is any sequence of events; an event that is not enabled changes nothing, so "for every sequence" is "for
every schedule". Objects that the source updates in place are classes whose methods are proved against the
functions the machines step by, so the run theorems speak about what the methods do.

Hypotheses, all stated in the model:

- Lock: mutual exclusion between store instances, release when the holder dies, and one `mutate` in flight per
  instance. The lock library is not part of this model; whether one lock object also keeps two goroutines of one
  process apart is therefore assumed, not shown. `TokenMachine` has one phase per instance for this reason, and
  `TokenRuns.ExclusionIsNeeded` shows that single use rests on it.
- Rename is atomic, and a crash is the death of a process: data handed to the file system is not lost.
- Clock readings are arbitrary integers, also running backwards. `After` is strict, so a reading equal to an
  expiry is in time.
- Random draws are fresh with respect to every draw of the run. `RandomIds.EncodeInjective` reduces freshness of
  ids to freshness of the bytes.
- An admitted client certificate is one that enrollment handed out: the other signing site
  (`cmd/rexec-agentd/agentcmds.go:157`) makes a server certificate without roles.
- The RPC channel is ordered and ends cleanly exactly when the handler returned no error and nothing broke.
- Approvals are bound to the command only, not to its arguments, directory or environment.

Where the code says something other than its comments or documents, the code is followed:

- `read` answers an empty map whenever no data came back, also after an error other than "not exist". A call that
  reads this way forgets every other token. `TokenRuns.FailedReadForgetsTokens` gives the run,
  `AtomicTokens.OthersUnchangedIff` the exact condition; single use is not affected.
- The comment on `execute.Run` says a failure to stream produces an error. It does so unless the process ended
  with a non-zero status, which hides a failed copy: `Execute.CopyFailureReportedIff` and, for the whole stream,
  `AgentServer.FailedCopyIsHiddenIff` give the exact condition, `AgentServer.CleanEndIsCompleteIff` says when
  output is then lost, `AgentServer.FailingProcessMayHideLostOutput` gives an input. Sticky send failures, or a
  process that succeeds, exclude it (`AgentServer.CleanRunSendsEverything`).
- `mergeEnv` accepts an empty key and keys that contain `=`. No lookup finds either, and the latter set another
  variable (`Environment.MergeOverridesIff`, `Environment.SettingABSetsA`). `parseEnv` never makes such keys.
- `consumeStream` ignores the errors of its writes to the terminal, so a reported success says what the controller
  received; `Controller.ShowsAllIffAllThrough` says when the terminal shows it.
- The design document asks for required client certificates; the server verifies one only if given
  (`internal/transport/transport.go:42`), so a caller without one is modelled and turned away by the interceptor.

## Model

| member | source | states |
|---|---|---|
| AtomicTokens.LiveIffUnspent | internal/token/token.go:44-79 | a token is in the store exactly when some call issued it and no later call consumed it or lost the map; its record is the issued one |
| AtomicTokens.ConsumeGrantsIff | internal/token/token.go:61-79 | consuming yields a role exactly when the token was issued with that role, is unspent, and the reading is not after issue time plus ttl |
| AtomicTokens.ConsumeRefusesIff | internal/token/token.go:63-71 | consuming answers "expired" exactly when the token is unspent and the reading is after issue time plus ttl, and "unknown" exactly when no issue of it is unspent |
| AtomicTokens.GrantHasIssue | internal/token/token.go:61-79 | every granted role goes back to an earlier issue of the same value with the same role, nothing in between |
| AtomicTokens.SecondConsumeFindsNothing | internal/token/token.go:59-79 | after a consume that found its token, in time or expired, every later one answers "unknown token" |
| AtomicTokens.ValuesAreConserved | internal/token/token.go:44-101 | issued values are the disjoint union of live and spent ones |
| AtomicTokens.SpentStaysSpent | internal/token/token.go:59-79 | a spent value never becomes live again |
| AtomicTokens.OthersUnchangedIff | internal/token/token.go:81-116 | a call about one token leaves all other records alone if and only if its read brought data back or there was no other record |
| TokenMachine.StepKeepsInv | internal/token/token.go:81-131 | every micro-step, failure and crash keeps mutual exclusion, the whole-or-missing file, the in-memory map in step with the file, and the match between answers and commits |
| TokenMachine.RunKeepsInv | internal/token/token.go:81-131 | the invariant holds in every state of every run from a missing file |
| TokenRuns.EveryRunRefinesAtomicMap | internal/token/token.go:81-131 | at every instant the file is missing or a whole encoding, and holds what the atomic map holds after the commits so far |
| TokenRuns.EffectIsAtomicAtRename | internal/token/token.go:118-131 | only a rename changes the file, and then it becomes what the whole operation makes of the map it held |
| TokenRuns.CallsAreLinearizable | internal/token/token.go:81-101 | each answer is the outcome of the one commit its instance made between the call's beginning and end; a call that reports a failure committed nothing in that time; no commit answers two calls |
| TokenRuns.DecodeErrorUnreachable | internal/token/token.go:103-116 | a store that started without a file never reports a decoding error, whatever torn temporary files are left behind |
| TokenRuns.OneInstanceAtATime | internal/token/token.go:85-88 | given the lock hypothesis, no failure, crash or failed unlock ever leaves two instances inside the locked section |
| TokenRuns.ExclusionIsNeeded | internal/token/token.go:81-101 | if two callers were let into the locked section together, a live token would be paid out twice: why the lock hypothesis must cover callers that share one store object |
| TokenRuns.AtMostOneRolePerToken | internal/token/token.go:59-79 | over all instances, crashes and clocks at most one Consume call of a value ever returns a role |
| TokenRuns.RoleComesFromIssue | internal/token/token.go:44-79 | the role returned is the one the token was issued with, by an earlier commit, and in time |
| TokenRuns.AnswersTellTheTruth | internal/token/token.go:61-79 | over every run, each recorded answer to Consume, "expired", "unknown" or a role, holds exactly when the commits before it make it true |
| TokenRuns.RoleImpliesDurableDeletion | internal/token/token.go:94-100 | once a caller has the role the renamed file no longer holds the token |
| TokenRuns.SpentForever | internal/token/token.go:94-100 | a spent token is in no later file and its value is never drawn again |
| TokenRuns.UndisturbedCallSucceeds | internal/token/token.go:81-131 | from any state with a free lock a call in which nothing fails commits exactly its operation and answers with its outcome |
| TokenRuns.CallSucceedsAfterAnyCrash | internal/token/token.go:81-131 | wherever the lock holder dies, the next undisturbed call reads the true map, commits and answers |
| TokenRuns.FailedReadForgetsTokens | internal/token/token.go:103-108 | concrete run in which a read error without data makes an issue wipe another token |
| TokenStore.FileStore.Mutate | internal/token/token.go:81-101 | in lockstep with the machine, after any wait for other instances; answers with the function's outcome on the file found when the lock is granted exactly when nothing harmful failed, and otherwise leaves that file alone and reports the first failure, joined with the function's error if only writing back failed |
| TokenStore.FileStore.Issue | internal/token/token.go:43-57 | a successful issue adds exactly its record to the map it read; a failed one changes nothing and reports the first failure |
| TokenStore.FileStore.Consume | internal/token/token.go:59-79 | which answer is given when: the role of a token held and in time, "expired" for one held too long, "unknown" for one the map read does not hold, each durable; else the first failure joined with the refusal that was due; the file after every outcome |
| TokenStore.FileStore.Read | internal/token/token.go:103-116 | empty map whenever no data came back; errors for partial or undecodable data |
| TokenStore.FileStore.Write | internal/token/token.go:118-131 | success replaces the file by the whole map; any failure leaves it as it was |
| RandomIds.EncodeInjective | internal/policy/grants.go:71-77 | two draws of one length give the same id exactly when their bytes are equal |
| RandomIds.RandID | internal/policy/grants.go:71-77 | an approval id has 24 characters, so it is never empty |
| RandomIds.RandToken | internal/token/token.go:133-139 | a token value has 32 characters |
| Policy.DecisionTable | internal/policy/policy.go:63-82 | when exactly the policy asks and when it allows, in terms of list membership |
| Policy.EnlargingDenyNeverRaises | internal/policy/policy.go:63-91 | a longer deny list never raises a decision and denies everything on it |
| Policy.EnlargingAllowLowersOnlyWhenRestrictive | internal/policy/policy.go:63-91 | a longer allow list lowers a decision exactly when, in allow mode, it goes from empty to a list without the command |
| Policy.DecisionDependsOnlyOnMembership | internal/policy/policy.go:63-91 | order and repetition in the lists do not matter |
| Grants.Grants.Issue | internal/policy/grants.go:38-49 | the whole new store; a failed random source changes nothing |
| Grants.Grants.Consume | internal/policy/grants.go:51-69 | the answer dictated by the history of calls; the id is gone afterwards whatever the answer |
| Grants.LiveIffUntouched | internal/policy/grants.go:40-69 | an approval is live exactly when it was issued and nobody tried to consume it since |
| Grants.ConsumeAnswersFromHistory | internal/policy/grants.go:51-69 | success, mismatch, expiry and "unknown" each characterised by the history alone |
| Grants.IdsAreConserved | internal/policy/grants.go:40-69 | issued ids are the disjoint union of live and retired ones |
| Grants.RetiredStaysRetired | internal/policy/grants.go:51-69 | a retired id never comes back |
| Grants.OtherIdsUnchanged | internal/policy/grants.go:40-69 | a call about one id leaves every other record as it was |
| Authz.RoleFromCert | internal/authz/authz.go:35-45 | the highest known role among the organisations, or the public role |
| Authz.CollapseIsLossless | internal/authz/authz.go:35-54 | the collapsed role is allowed exactly when the method is public or one organisation alone is allowed |
| Authz.MoreOrgsNeverDeny | internal/authz/authz.go:35-54 | more organisations never take a permission away; equal sets of organisations give the same role |
| Authz.UnaryInterceptor | internal/authz/authz.go:63-81 | handles a call exactly when the method is listed and public, or some organisation of the leaf certificate suffices; and which refusal is given when |
| Authz.StreamInterceptor | internal/authz/authz.go:85-103 | the same contract for streaming calls |
| Authz.InterceptorsAgree | internal/authz/authz.go:63-103 | answers that meet the contract are equal, so both interceptors admit the same method and certificate pairs |
| Authz.AgentTableMeaning | internal/authz/authz.go:117-124 | who may call which method of the agent, and that every unlisted method is refused |
| Authz.DeployNeedsAdmin | internal/authz/authz.go:117-124 | Deploy admits exactly leaf certificates that carry rex:admin |
| Wire.ToInt32 | internal/agentserver/agentserver.go:148 | the 32-bit value congruent to the code modulo 2^32 |
| Wire.NarrowingKeepsSuccess | internal/agentserver/agentserver.go:148 | for statuses in [-1, 2^32) the narrowed code is 0 exactly when the status is, and exact on 32-bit values |
| Execute.ChunkWriter.Write | internal/execute/execute.go:69-85 | the emitted chunk owns a fresh copy of the bytes, tagged with its source; a failed emit reports nothing written |
| Execute.Pumping | internal/execute/execute.go:41-85 | with two interleaved pumps that each reuse one buffer, sends failing or not, every chunk handed to emit keeps the bytes it had when written and shares no memory with a buffer |
| Execute.NothingLostOrReordered | internal/execute/execute.go:41-48 | for every interleaving and split, bytes sent plus bytes still waiting are the bytes written, per source and in order |
| Execute.CopyFailureReportedIff | internal/execute/execute.go:50-58 | a failed copy of a started command is reported as an error exactly when the process did not end with a non-zero status |
| Execute.FaultlessRunSendsAll | internal/execute/execute.go:41-50 | if no send fails a finished run has sent everything |
| Execute.FaultlessFinishesIff | internal/execute/execute.go:41-48 | when no send fails the pumps finish, without a failed copy, exactly when each source has had a turn for every write |
| Execute.CopyFailsIff | internal/execute/execute.go:69-85 | a copy fails exactly when some send fails while its pump still has something to write |
| Execute.Run | internal/execute/execute.go:29-59 | the host starts exactly this process, once, if there is a command and it can be started, else none; output sent; exit code and error for every ending, a non-zero status hiding a failed copy |
| AgentServer.Server.Deploy | internal/agentserver/agentserver.go:92-126 | the request's process is started exactly when its approval is held for this command and in time, or, without an id, the policy allows it; nothing else is ever started; new approvals, messages sent and result in every case |
| AgentServer.HandleDeployMeans | internal/agentserver/agentserver.go:97-126 | the function the gate's machine steps by starts, asks and refuses exactly when policy, approvals and clock say so |
| AgentServer.RunStream | internal/agentserver/agentserver.go:128-149 | the process started, with the request's command, arguments, directory and environment; messages sent and result of an execution |
| AgentServer.RunGrammar | internal/agentserver/agentserver.go:128-149 | a clean run sends output and then one exit code, any other only output |
| AgentServer.StreamGrammar | internal/agentserver/agentserver.go:97-149 | a clean end is a lone approval request with nothing run, or output followed by one exit code |
| AgentServer.CleanRunSendsEverything | internal/agentserver/agentserver.go:128-149 | a clean end means every byte and the status were sent, if failed sends are sticky or the process succeeded |
| AgentServer.FailedCopyIsHiddenIff | internal/agentserver/agentserver.go:144-148 | after a failed copy the stream ends cleanly exactly when the command ran, ended with a non-zero status and the last send worked |
| AgentServer.CleanEndIsCompleteIff | internal/agentserver/agentserver.go:128-149 | a clean end sent every byte exactly when the pumps left none behind, which takes a failed copy under a non-zero status to go wrong |
| AgentServer.FailingProcessMayHideLostOutput | internal/execute/execute.go:50-58 | the input at which it goes wrong: a failing process, a transient send failure, lost output and a clean end |
| Controller.ConsumeStream | cmd/rexec/controllercmds.go:280-304 | exit code, approval and error for every stream, whatever becomes of the local writes; the terminal shows what they let through |
| Controller.ViewMeans | cmd/rexec/controllercmds.go:280-304 | for every stream, whoever made it: the first question ends the reading, an unclean end without one is an error, the exit code is the last one read |
| Controller.ShowsAllIffAllThrough | cmd/rexec/controllercmds.go:294-297 | the terminal shows all output received exactly when every local write, whose error is ignored, took all its bytes |
| Controller.StreamRoundTrip | cmd/rexec/controllercmds.go:280-304 | for every interleaving and split the output and exit code the controller receives are the process's |
| Controller.RunLooksGoodIffPerfect | cmd/rexec/controllercmds.go:280-304 | no error and exit 0 exactly when the process ran, exited 0, every send worked and the stream arrived whole |
| Controller.RunSeenIff | cmd/rexec/controllercmds.go:280-304 | the controller sees the exit code of an execution exactly when the process ran to an exit, no copy failed behind a zero status, the last send worked and the stream arrived whole; else an error |
| Controller.ExitOf | cmd/rexec/controllercmds.go:204-207 | a status is reported as success exactly when it is 0, else as itself modulo 2^32 in the signed range |
| Controller.ExecRun | cmd/rexec/controllercmds.go:184-209 | one call; a failed call is reported exactly when the exit status does not arrive, else that status; in every case the terminal keeps what it had and gets what the local writes let through of the messages received |
| Controller.ExecDeploy | cmd/rexec/controllercmds.go:224-269 | calls made, a second one exactly with --yes after a question and for the same request; outcome, the command's own notices, and terminal output |
| Controller.OnlyYesCallsAgain | cmd/rexec/controllercmds.go:250-264 | without --yes there is one call whatever comes back; a question is printed with its id and is the outcome; with --yes that id is sent |
| Controller.CallSeenIff | cmd/rexec/controllercmds.go:236-248 | when exactly a call shows a question, an exit code or an error, in terms of policy, approvals, clock, process and network |
| Controller.DeployOutcomeIff | cmd/rexec/controllercmds.go:224-269 | every outcome of the command, the calls it makes and the processes it starts, each exactly when |
| Controller.WithoutYesNothingStarts | cmd/rexec/controllercmds.go:250-255 | without --yes a command the policy asks about is never started; if the question arrives its id is printed and is the outcome, else the call failed |
| Controller.ApprovalSeenIsGenuine | cmd/rexec/controllercmds.go:250-257 | an approval request seen means nothing ran, the policy asks, and the agent holds that grant for this command |
| Controller.AtMostTwoCallsOneExecution | cmd/rexec/controllercmds.go:236-268 | one invocation makes at most two calls and starts at most one process |
| Controller.StillRequestedIsUnreachable | cmd/rexec/controllercmds.go:261-263 | the second call is never answered by another approval request |
| Controller.SuccessIsTruthful | cmd/rexec/controllercmds.go:224-269 | reported success means exactly one process ran, exited 0, and the controller received all its output |
| Controller.YesFollowsTheApproval | cmd/rexec/controllercmds.go:250-264 | with --yes under "ask" and nothing failing on the way, one process starts and is reported if the agent holds the approval in time at the second call, else none starts and the call fails |
| Controller.RerunFollowsTheApproval | cmd/rexec/controllercmds.go:250-276 | the same by hand, over two invocations: the printed id starts one process if the agent holds the approval in time, else none |
| Session.YesExecutesExactlyOnceIff | cmd/rexec/controllercmds.go:236-268 | with other handlers interleaved, --yes starts exactly one process if between the calls the daemon did not restart, nobody else used the id, and five minutes did not pass; otherwise none |
| Session.PrintedApprovalWorksIff | cmd/rexec/controllercmds.go:250-276 | with other handlers interleaved, re-running with the printed id starts exactly one process in exactly the same cases, and the first invocation starts none |
| Session.YesCanSucceed | cmd/rexec/controllercmds.go:250-268 | for every asked-about command such a session exists in which --yes succeeds |
| Environment.ParseEnv | cmd/rexec/controllercmds.go:306-319 | refuses with the first invalid pair; otherwise each key has the last value supplied, and no key contains '=' |
| Environment.PairIsValidIff | cmd/rexec/controllercmds.go:311-315 | a pair is valid exactly when it is KEY=VALUE with a non-empty key without '=' and any value |
| Environment.MergeEnv | internal/execute/execute.go:61-67 | the base followed by one entry per key, in an order nothing fixes |
| Environment.MergeOverridesIff | internal/execute/execute.go:61-67 | the merge overrides the base with exactly the supplied values if and only if every supplied key is non-empty and without '=' |
| Environment.KeyWithEqualsSetsAnother | internal/execute/execute.go:61-67 | a supplied key with '=' gives the key before the '=' a value nobody supplied |
| Environment.SettingABSetsA | internal/execute/execute.go:61-67 | the input: key A=B with value v sets A to B=v |
| Environment.SuppliedValuesReachTheProcess | internal/execute/execute.go:39-67 | for every iteration order the process sees the last value supplied for a key, else the base value |
| Gate.RunKeepsInv | internal/agentserver/agentserver.go:97-126 | in every run of interleaved handlers and restarts live approvals, tickets and executions stay consistent |
| Gate.EveryExecutionIsAuthorised | internal/agentserver/agentserver.go:97-126 | every execution is allowed by policy, or consumed its own earlier approval for the same command at most five minutes after it was asked for |
| Gate.DeniedNeverRuns | internal/agentserver/agentserver.go:100-126 | a denied command is never executed, and every live approval is for a command the policy asks about |
| Gate.ExecutableIffNotDenied | internal/agentserver/agentserver.go:97-126 | over all runs the executable commands are exactly the non-empty ones not denied |
| Gate.PolicyOrderLiftsToRuns | internal/policy/policy.go:63-91 | what longer deny and allow lists do to the set of executable commands |
| Gate.ApprovalsFollowCalls | internal/policy/grants.go:24-36 | the live approvals are what the calls since the daemon's start leave behind |
| Gate.IdIsHonouredIff | internal/agentserver/agentserver.go:100-105 | a request with an id passes exactly when the calls since the daemon's start issued it for this command, untouched and in time; the id is gone either way |
| Gate.RulingIsPermission | internal/agentserver/agentserver.go:97-126 | a ruling clears a handler, with its ticket, exactly when policy, approvals and clock permit, and asks exactly when the policy does |
| Gate.HandlerAloneIsDeploy | internal/agentserver/agentserver.go:97-126 | the machine's steps of one handler leave the approvals of the Deploy method and execute this command, on this certificate and ticket, exactly when it may start |
| Gate.DroppedHandlerSpendsApproval | internal/agentserver/agentserver.go:100-105 | a handler that dies before its process starts has spent its approval: nothing ever runs on it |
| Gate.RetiredIdsNeverReturn | internal/policy/grants.go:51-69 | a retired approval is never live again, through any number of restarts |
| Gate.ApprovalsDieWithTheDaemon | internal/policy/grants.go:24-36 | no approval from before a restart authorises anything after it |
| Gate.SurvivesIffNothingEnds | internal/agentserver/agentserver.go:97-126 | a live approval keeps its record through a run of interleaved handlers exactly when the daemon does not restart and no handler carrying the id is ruled on |
| Gate.ApprovalsAreConserved | internal/policy/grants.go:40-69 | over restarts and interleavings, ids ever asked for are the disjoint union of live ones and those that some event ended; executions used ended ones |
| Enroll.Service.Enroll | internal/enroll/enroll.go:49-75 | a certificate with exactly the token's role if the token was live, in time and durably removed and signing worked; the token file after success, refusal and failure |
| Daemon.RunProjects | cmd/rexec-agentd/agentcmds.go:202-215 | what the store and the gate see of a run of the whole agent is a run of their own |
| Daemon.RunKeepsInv | internal/enroll/enroll.go:49-75 | every issued certificate is a client certificate with its token's role, paid for once; every caller of Deploy holds rex:admin |
| Daemon.CertificateHasToken | internal/enroll/enroll.go:51-63 | every certificate goes back to an issued token with the same role that the file no longer holds |
| Daemon.OneCertificatePerToken | internal/enroll/enroll.go:51-63 | no token pays for two certificates |
| Daemon.EveryExecutionHasAdminToken | internal/authz/authz.go:83-124 | every Deploy execution goes back to exactly one token issued with rex:admin |
| Daemon.AgentNeverRunsDenied | internal/agentserver/agentserver.go:97-126 | in the whole agent no denied command runs and no approval authorises two executions |
| Daemon.FailedSigningSpendsToken | internal/enroll/enroll.go:51-68 | a failed signing, or a restart before it, spends the token for good without a certificate |
| Daemon.RestartsKeepTokensDropApprovals | cmd/rexec-agentd/agentcmds.go:202-209 | any number of restarts keep the token file exactly and drop every approval |
| Daemon.ApprovalsDieAtRestart | internal/policy/grants.go:24-36 | whatever happens after a restart, no earlier approval authorises it |
| Daemon.SpentTokensStaySpent | internal/token/token.go:94-100 | a spent token stays spent through restarts and everything else |
| Progress.SigningAddsOneCertificate | internal/enroll/enroll.go:56-74 | a successful signing adds exactly one certificate, with the one role recorded when its token was issued |
| Progress.LiveTokenBuysCertificate | internal/enroll/enroll.go:49-75 | from any state with a free lock, an undisturbed enrollment with a live token adds exactly its certificate and removes exactly that token |
| Progress.EveryRoleCanBeEnrolled | internal/enroll/enroll.go:49-75 | from any such state every role can be issued and enrolled |
| Progress.ServedCallIsDeploy | internal/agentserver/agentserver.go:92-126 | an admitted call in the whole agent executes its command exactly when policy, approvals and clock permit |
| Progress.AdminCertificateExecutes | internal/authz/authz.go:117-124 | a certificate with rex:admin can execute every non-empty command that is not denied, directly or by way of a question |
| Progress.EveryRunCanGoOn | cmd/rexec-agentd/agentcmds.go:202-215 | whatever a run did, crashed or left locked, it can go on to execute any such command exactly once more, on a new certificate |
| Progress.AgentExecutesIffNotDenied | internal/agentserver/agentserver.go:97-126 | over all runs of the whole agent, from an empty token file, the executable commands are exactly the non-empty ones not denied |

## Left out

- Cryptography, X.509 and PEM encoding (`internal/pki`), certificate expiry, TLS and gRPC plumbing, dialling.
- JSON encoding of the token file and system calls below whole files; loss of data already handed to the file system.
- `policy.Load`, YAML, `internal/identity`, `internal/clientconfig`, service lifecycle, logging, help and error texts.
- The operation and reason texts of an approval request and the wording of the command's notices; approval ids and which notice is given are modelled.
- A process is its writes, cut anywhere, and its ending; that a process may react to a closed pipe shows only in its ending.
- Two `mutate` calls at once on one `FileStore` object: excluded by the lock hypothesis above.
- Saturation of `time.Add` and monotonic clock readings: readings are unbounded integers.
- Probability of random collisions: freshness is a hypothesis.
- What a request's flags are parsed from, except `--set-env` (`Environment.ParseEnv`); a command refused for its flags makes no call.
- The `Identity`, `Info` and `Run` handlers: two return fields, and `Run` only calls `runStream`, which is modelled.
- Execute.Pumping: the goroutines of os/exec are one loop over an arbitrary interleaving; each write of a pump is one step.
- Environment.MergeEnv: reading a list "last entry wins" is how os/exec passes it on; platform rules for key case are not modelled.
