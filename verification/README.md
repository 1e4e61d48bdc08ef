# grantd, modelled and proved in Dafny

grantd gives an agent a short SSH session on a machine whose owner handed out a single-use
capability. This project models the parts that carry that promise and proves what they guarantee in
every run: the host's **signer** (grants, nonces, certificates), the host's **warden** (admission,
sessions, deadlines, termination, recovery), the coordination service's **host object**, the
canonical message encoding with its three implementations, the visitor's checks, the tunnel's
WebSocket framing, and base32 identifiers.

`dafny verify dfyconfig.toml` checks everything.

## How the model is built

Code that changes state step by step is modelled twice. The classes (`Store`, `Warden`, `HostDO`,
`Writer`, `Reader`, `NodeReader`) and methods with loops follow the source statement by statement,
and each is proved to do to the state exactly what a function on values says. The functions are then
the steps of state machines, and the theorems are about every run of those machines.

- `Redemption` interleaves any number of redemption calls, one database statement at a time, with
  grant creation, revocation and purging. A call may stop anywhere. `Requests` says condition by
  condition which requests get past the checks, and `Claims` follows a grant from creation to purge.
- `Protocol` puts that signer together with the warden: every critical section is one step, calls
  keep what they have read while the lock is free, a wall clock and a monotonic clock move, and a
  crash may come at any point. `HostInvariant` states what every step keeps, `HostSteps` proves it
  step by step, and `HostTheorems`, `Supervision`, `Restart` and `Origins` draw the conclusions. A
  run is `Free`, or restricted to clocks `InStep`, or also `Prompt`: no call commits on a signer
  answer older than the 30 second retention.
- `Runs` looks at a run state by state. `CallHistory` ties what a call, an admission or a session
  went by to the signer's database and the clock at earlier steps of the same run, and `Readings`
  does so for polls, enforcements and the age of admissions. `SessionRecords` and `StateFile` say
  that no session gets lost. `Reopening` and `ReopenRuns` say when a closed grant can be open again,
  and `HostWitness` has concrete runs.
- `Broker` takes the events a host object sees in any order: connects, redemptions, responses,
  timers, closes and the hourly alarm. `BrokerAnswers` says who is told what by which of them.
- `CanonicalPeers` and `PeerMessages` set the service's TypeScript and the visitor's Node client,
  encoder and message lists, against Go's.

Signatures, MACs, hashes and SSH parsing are functions passed in; where a theorem needs them ideal
it says so (`Visitor.Ideal`). The signer's database executes each statement or transaction
atomically. Times are whole seconds in the signer and the service, nanoseconds in the warden.

## What turned out not to hold as promised

- **Replay.** No request is accepted twice in any run exactly when no call waits more than 240
  seconds between reading the clock and inserting its nonce (`Replay.ReplayBound`); at 241 the
  second copy gets in (`Replay.LateReplaySucceeds`).
- **Erasing failures and purges.** Removing failed redemptions and purges from a run keeps every
  success exactly when no call stalls at all (`Erasure.ErasureBound`). With a stall of one second, a
  *failing* call's prune can remove the nonce that would have stopped a later success
  (`Erasure.ClashUnsafe`). If no two successes share a nonce it is safe whatever the stalls
  (`Erasure.DistinctErasureSafe`).
- **The attempt cap.** The host object reads the clock before it waits for other checks. Sixty
  attempts per minute hold exactly when no reading lags behind an earlier one
  (`SlidingWindow.MinuteBound`); with a lag of at most d seconds it is sixty per 60 - d seconds.
- **Registration and connect nonces.** Their table, too, is pruned with a clock read before a
  signature check. No message is let through twice exactly when no reading lags more than 600
  seconds behind an earlier one (`ConnectNonces.LagBound`).
- **A socket's close** settles exactly the requests sent on it unless one waits that went out on
  another socket accepted in the same millisecond (`Broker.CloseSettlesItsOwn`).
- **Truncated lengths.** The encoder keeps only the low 32 bits of a length. Messages read back
  exactly when every length fits (`Canonical.RoundTrip`); beyond that one encoding can begin another
  (`Canonical.TruncationBreaksPrefixFreedom`). When every length fits, bytes bind messages
  (`Messages.BytesBindMessage`).
- **Closed for good** leaves out one reason: the signer could not be asked after a restart. While a
  grant is closing, some prompt continuation opens it again exactly when it was closed for that
  reason and the signer, now, confirms it (`Reopening.ReopensExactly`); the same holds of a grant
  already Closed once no call has a fresh answer about it (`Reopening.SettledReopensExactly`). One
  way is another restart (`Reopening.RestartReopens`). The other needs none: the grant is
  terminated, closed and forgotten, and its visitor is admitted and attached again
  (`ReopenRuns.ForgottenReopens`).
- **Answers in flight.** Nothing bounds the time between a signer answer and the commit that rests
  on it. What is closed for good stays closed exactly when that age is at most the 30 seconds a
  Closed object is kept (`ReopenRuns.AgeBound`, `HostWitness.BoundIsTight`).
- **Reserved opcodes.** Node's reader delivers frames with opcodes RFC 6455 reserves as messages,
  Python's skips them (`WebSocket.ClientsDiffer`). The two read the same messages exactly when no
  such frame comes before the first close (`WebSocket.ClientsAgree`).
- **Long pings.** Python's pong is a frame exactly up to 125 bytes of payload (`Tunnel.PongBytes`).

## Model

| member | source | states |
|---|---|---|
| HostSteps.StepKeepsInv | go/warden/warden.go:225-723 | every step of signer, warden, clocks, crash and restart keeps the invariant: objects, admission tokens, provenance, deadlines, what is closed for good, and every call in flight |
| HostSteps.RunKeepsInv | go/warden/warden.go:225-723 | so does every run |
| HostTheorems.SessionsAreBacked | go/warden/warden.go:193-388 | in every run each recorded session of a grant stems from an attachment and an earlier admission for the same process, login and grant, asked for by the user sshd runs its commands as and for the enrolled login; the key id names the grant, the serial is the stored certificate's; for each of the two there is a step of the run at which the signer's database held the grant, as created, for that login, redeemed and unrevoked, and a later one at which the rules were applied with the clock before its expiry; the grant was claimed by a valid proof in time |
| CallHistory.RunTold | go/warden/warden.go:225-388 | in every run every call in flight, admission and attachment carries a row the signer's database held at an earlier step and a decision time the clock showed at a step in between; an attachment's row was read after its admission |
| Readings.RunRead | go/warden/warden.go:291-340 | in every run a poll carries the signer's row and an enforcement the clocks of an earlier step; a binding and a session carry the second read at an earlier step, before the expiry; an admission was at most its lifetime old when a hook took it |
| Readings.AttachConsumes | go/warden/warden.go:291-310 | a session hook takes the admission out whatever comes of it, and goes on iff it is this process, this login and young enough |
| Readings.ExpireStepExactly | go/warden/warden.go:593-602 | in the system exactly the admissions older than their lifetime go |
| Readings.PruneStepExactly | go/warden/warden.go:607-623 | in the system exactly the sessions of grants in the map whose process is gone or replaced go |
| Readings.FinalizeStepExactly | go/warden/warden.go:577-589 | in the system the grant is Closed as of now, without sessions, its reason and deadline kept |
| Readings.OneWallClock | go/warden/warden.go:203-210 | in every run the signer and the warden go by the same wall clock |
| SessionRecords.SessionStepExactly | go/warden/warden.go:374-384 | a completed attachment adds its session to the open object and to the state file and changes no other; one that finds its object closed changes nothing |
| SessionRecords.AttachedIsOnRecord | go/warden/warden.go:374-384 | in every run an attachment's session is on record in its object until that is Closed, unless a later attachment took the pid or a pass since found the process gone or replaced |
| StateFile.FileIsUpToDate | go/warden/warden.go:727-751 | in every run, while the warden is ready, the state file has every grant in the map as it stands, sessions, state, reason and deadline, except one just opened that nobody has attached to |
| StateFile.CrashLosesNoSession | go/warden/warden.go:630-698 | from a crash at any ready moment to the end of the next restart: every grant that had a session or was not open is accounted for, with exactly the sessions it had, less those whose process is gone where it is open again |
| HostTheorems.AdmissionsAreUsedOnce | go/warden/warden.go:291-306 | no admission serves two sessions |
| HostTheorems.ClosedForGood | go/warden/warden.go:259-333 | once closed for deadline, revocation, expiry or as unknown to the signer, no later admission or session is for that grant and no object of it is open, forgotten or not, across crashes, with clocks in step and answers at most 30s old |
| Supervision.ObjectsOnlyAdvance | go/warden/warden.go:374-384 | in every run a session joins only an object that is open and live, before and after; states only move Open, Closing, Closed; only Closed objects leave the map; a monotonic deadline changes only by a new binding |
| Supervision.DeadlineIsExpiry | go/warden/warden.go:334-340 | an open grant's deadline is the expiry it was created with |
| Supervision.MonotonicDeadline | go/warden/warden.go:318-340 | with clocks in step the monotonic deadline lies in [expiry, expiry + 1s + the pause between reading and binding) |
| Supervision.NoClockKeepsItOpen | go/warden/warden.go:418-434 | however the wall clock jumps, after deadlines were enforced with a monotonic reading at or past the deadline the grant is not open until bound anew |
| Supervision.WallClockEndsIt | go/warden/warden.go:418-434 | whatever the monotonic clock shows, after deadlines were enforced with a wall clock reading at or past the expiry the grant was created with it is not open until bound anew |
| Supervision.DeadlineStepExactly | go/warden/warden.go:423-432 | enforcement closes an open grant iff the wall reading has reached its deadline or the monotonic reading its monotonic deadline, and changes nothing else |
| Supervision.PollStepExactly | go/warden/warden.go:452-475 | a poll closes the grant it asked about iff it was open and the row read was missing, revoked or expired by now, for that reason, and changes no other grant |
| Restart.RestartAccountsForAll | go/warden/warden.go:630-698 | from any crash point a completed restart holds exactly the valid ids that are in the state file or have a slice; each grant's answer is what the signer's database held, or silence, at a step of the restart, with that step's processes; the grant is open iff the answer confirms it at the restart's clock, else closing for the reason the answer gives, never closed; an open one has exactly the saved sessions whose process is unchanged, a closing one exactly the saved ones; nothing is admitted or attached meanwhile |
| Reopening.ReopensExactly | go/warden/warden.go:630-698 | a grant that is closing can be open again in some continuation with clocks in step and prompt commits iff it was closed as unverifiable after a restart and the signer, now, has it unrevoked and unexpired |
| Reopening.SettledReopensExactly | go/warden/warden.go:494-516 | the same for a grant in the map that is closing or Closed, when no call in flight has an answer it could still act on |
| Reopening.RestartReopens | go/warden/warden.go:630-698 | a crash and a restart that reaches the signer open any grant the signer confirms |
| ReopenRuns.ForgottenReopens | go/warden/warden.go:494-589 | without a restart: terminate, finalize, forget after 30s, admit and attach the same grant again |
| ReopenRuns.LateAnswerReopens | go/warden/warden.go:309-340 | an attach that binds on an answer one nanosecond older than the retention opens a grant that was closed for good |
| ReopenRuns.AgeBound | go/warden/warden.go:508-516 | wherever a hook can be about to bind to an open grant, what is closed for good stays so in every run with clocks in step and answers at most this old iff that age is at most the retention |
| HostWitness.UnverifiedReopens | go/warden/warden.go:494-698 | a concrete run from the empty host to a grant closed as unverifiable, and on, without a crash, to the grant open again |
| HostWitness.BoundIsTight | go/warden/warden.go:508-516 | on a concrete host the retention is exactly the safe age |
| Restart.DiscoveredExactly | go/warden/warden.go:704-723 | a grant is discovered iff its slice is there |
| Termination.ClosedWhenSeenEmpty | go/warden/warden.go:524-572 | a grant becomes Closed exactly in the first pass that sees its group absent or empty |
| Origins.ClosedOnlyWhenSeenEmpty | go/warden/warden.go:524-589 | in every run of the whole system a Closed object is one whose last termination pass, and no earlier one, saw its group absent or empty |
| Origins.ClosingIsBounded | go/warden/warden.go:494-589 | in every run of the whole system, passes at most t apart and a killed group empty within k: no pass comes later than grace + k + 3t after the closing |
| Termination.KillAfterGrace | go/warden/warden.go:527-551 | kill is sent exactly from the grace period after the first pass on, and a termination request before |
| Termination.ClosingIsBounded | go/warden/warden.go:494-589 | passes at most t apart and a killed group empty within k: every pass that finds the grant closing comes within grace + k + 3t of the closing |
| UnitNames.NamesReadBack | go/warden/warden.go:704-723 | reading a unit name back gives an id iff the name is that valid id's slice |
| UnitNames.SlicesDisjoint | go/warden/warden.go:161-167 | different grants have different slices, neither inside the other |
| UnitNames.DiscoverGrantIds | go/warden/warden.go:704-723 | the scan returns exactly the valid ids whose slice is listed |
| WardenState.ParseKeyIdExactly | go/warden/keyid.go:18-27 | a key id parses to a grant and an agent iff the authority writes exactly it for them |
| WardenState.EnforcedExactly | go/warden/warden.go:418-434 | grant by grant: closed iff in the map, open and due on either clock |
| WardenState.PolledExactly | go/warden/warden.go:452-475 | grant by grant what a poll's answer does |
| WardenState.PrunedExactly | go/warden/warden.go:607-623 | grant by grant which sessions a pass leaves |
| Warden.Warden.Persist | go/warden/warden.go:727-751 | the state file holds every grant in the map as it stands, without clock anchors and termination progress |
| Warden.Warden.Close | go/warden/warden.go:481-490 | an open grant becomes closing for that reason and the file is written; any other is left alone |
| Warden.Warden.CommitAdmit | go/warden/warden.go:267-277 | the admission is kept iff no object, or an open one, stands under the grant |
| Warden.Warden.TakePending | go/warden/warden.go:291-306 | the admission is gone whatever comes; it counts iff it is this process, this login and young enough |
| Warden.Warden.CommitBind | go/warden/warden.go:324-340 | refuses a closing grant, otherwise finds or makes the record and sets both deadlines |
| Warden.Warden.CommitSession | go/warden/warden.go:374-384 | iff the record held since the binding is still open, the session is under its pid in the record and in the file, with all else as it was |
| Warden.Warden.EnforceDeadlines | go/warden/warden.go:418-434 | exactly the open grants whose deadline the wall reading or whose monotonic deadline the monotonic reading has reached become closing |
| Warden.Warden.CloseIfDue | go/warden/warden.go:423-432 | the grant becomes closing iff it was open and one of the two readings has reached its deadline |
| Warden.Warden.ApplyPoll | go/warden/warden.go:452-475 | an open grant becomes closing iff the answer is unknown, revoked or expired, for that reason; an earlier expiry shortens the deadline, a later one never extends it; failures change nothing |
| Warden.Warden.Heed | go/warden/warden.go:458-473 | the same for the record the lookup found |
| Warden.Warden.Terminate | go/warden/warden.go:524-572 | one pass: the signal sent, the clock started once, Closed iff the group was seen absent or empty |
| Warden.Warden.Finalize | go/warden/warden.go:577-589 | Closed, without sessions, stamped now |
| Warden.Warden.Forget | go/warden/warden.go:508-516 | exactly the grants Closed for more than the retention leave the map |
| Warden.Warden.ExpirePending | go/warden/warden.go:593-602 | exactly the admissions older than their lifetime go |
| Warden.Warden.PruneSessions | go/warden/warden.go:607-623 | exactly the sessions of live grants whose process is gone or replaced go; the file is written iff something changed |
| Warden.Warden.Reconcile | go/warden/warden.go:630-698 | without the signer nothing changes; otherwise one new record per known or discovered id as the signer's answer decides, and admission opens |
| Warden.GrantRecord.Decide | go/warden/warden.go:658-689 | what a signer answer makes of a record after a restart |
| Warden.Prune | go/warden/warden.go:681-686 | keeps exactly the sessions whose process still has its start time |
| Store.Store.CreateGrant | go/signer/store/store.go:262-269 | inserts exactly the row given, unredeemed and unrevoked, unless the id is taken |
| Store.Store.RevokeGrant | go/signer/store/store.go:340-352 | stamps the first revocation only |
| Store.Store.PurgeExpired | go/signer/store/store.go:357-371 | deletes exactly the grants and nonces past retention |
| Store.Store.RememberNonce | go/signer/store/store.go:376-395 | prunes, then accepts the nonce iff it is not there |
| Store.Store.ClaimGrant | go/signer/store/store.go:424-502 | claimed iff the row is there, unrevoked, unexpired, unredeemed and its proof verifies; each refusal iff its condition is the first to fail; only a claim writes, and only its row |
| Store.Store.RecordCertificate | go/signer/store/store.go:505-512 | keeps a grant's first certificate; a serial another grant has is an error |
| Store.Store.CertificateSerial | go/signer/store/store.go:517-528 | the recorded serial, unsigned again |
| Store.SerialSurvivesSigned | go/signer/store/store.go:505-528 | a serial survives the signed 64-bit column |
| Redemption.PrecheckIsSoundAndFresh | go/signer/redeem.go:38-92 | the checks before any write pass iff the request is sound and within the skew |
| Requests.PrecheckExactly | go/signer/redeem.go:38-92 | the checks pass iff the version, host, grant id, two-minute skew, nonce and key lengths, agent id, agent signature over the canonical bytes and SSH key are all right; otherwise the code is the first fault's |
| Requests.RefusedForTheFirstFault | go/signer/redeem.go:38-102 | in every run a call whose request has a fault is refused for its first one, and no genuine request is refused for any |
| Requests.IssuedIsGenuine | go/signer/redeem.go:38-167 | in every run a certificate went only to a request that meets every condition, agent signature included, at the clock of the step its call began |
| Claims.ClaimStepExactly | go/signer/redeem.go:104-128 | which answer a claim gets iff which condition of the row or the proof, and that only a claim writes, and what |
| Claims.RecordStepExactly | go/signer/redeem.go:130-167 | a claim ends in a certificate iff the login is neither empty nor root, time is left and no other grant has the serial |
| Claims.NonceStepsExactly | go/signer/store/store.go:376-395 | the prune drops exactly what is older than eight minutes; the insert refuses iff the nonce is still there |
| Claims.ClaimedWhileOpen | go/signer/store/store.go:424-502 | in every run each claim was made at a step before which the grant was stored, unrevoked, unexpired, unclaimed and proved |
| Claims.RevokedIsNotClaimed | go/signer/store/store.go:338-352 | after a stored grant is revoked it is claimed no more and keeps its first revocation time |
| Claims.GrantsAreAsCreated | go/signer/store/store.go:262-269 | in every run a grant was created at some step with that secret, login and expiry, is otherwise unchanged, and is gone only a day after it expired |
| Claims.RedeemedRowsNameTheWinner | go/signer/store/store.go:484-489 | in every run a redeemed row carries the time, agent and key of the call that claimed it |
| Signer.Redeem | go/signer/redeem.go:33-167 | a certificate is issued iff the request is genuine, its nonce unseen for eight minutes, its grant claimable and proved, its login allowed and the serial free; a request with a fault is refused for its first one and leaves no trace; the whole call does to the store what the machine's undisturbed call does |
| SingleUse.ClaimedAtMostOnce | go/signer/store/store.go:424-502 | in every interleaving no grant and no call has two successful claims |
| SingleUse.ResponseMatchesRecord | go/signer/redeem.go:106-167 | every response rests on its own call's claim, proved under the grant's secret before its expiry, and carries the host's address, the stored login, never root, and expiry, the backdated start and the serial the table returns; the table's row is the certificate's |
| Replay.ReplayBound | go/signer/store/store.go:376-395 | no run accepts a request twice iff the stall allowed is at most 240s |
| Replay.LateReplaySucceeds | go/signer/redeem.go:61-102 | a run with a stall of 241s that accepts a request twice |
| Erasure.PromptErasureSafe | go/signer/redeem.go:94-128 | without stalls, every success survives the removal of all failed calls and purges with the same certificate |
| Erasure.DistinctErasureSafe | go/signer/redeem.go:94-128 | so it does with any stalls when no two successes share a nonce |
| Erasure.ClashUnsafe | go/signer/store/store.go:357-389 | a run with a stall of one second where it does not |
| Erasure.ErasureBound | go/signer/store/store.go:357-389 | erasure is safe in every run iff no stall is allowed |
| Witness.ReplayPairExists | go/signer/redeem.go:61-92 | requests as the replay bound assumes exist |
| Witness.ClashExists | go/signer/redeem.go:61-92 | requests as the erasure bound assumes exist |
| Broker.AnsweredExactlyOnce | cloudflare/src/durable-objects/host.ts:686-719 | in every order of events a forwarded request is waiting, unanswered and with its timer armed, or answered exactly once |
| Broker.AuditFollowsAnswers | cloudflare/src/durable-objects/host.ts:466-482 | an audit row is pending iff its visitor waits, then shows how the visitor was answered, and later only goes from timeout to late |
| BrokerAnswers.FramesAreRelayed | cloudflare/src/durable-objects/host.ts:831-862 | in every run a frame for a waiting request gives the visitor exactly its status and body, filed as issued iff 200 and else rejected, iff the status is a whole number from 200 to 599 other than 204, 205 and 304 and the body decodes; otherwise an internal error filed as malformed |
| BrokerAnswers.LateMessageExactly | cloudflare/src/durable-objects/host.ts:468-476 | a frame nobody waits for marks a timed-out row late and changes nothing else |
| BrokerAnswers.OnlyItsOwnEventsAnswer | cloudflare/src/durable-objects/host.ts:455-498 | in every run a waiting request is answered by an event iff that is its frame, its timer or the close of a socket of its connect time, and then with that reply |
| BrokerAnswers.RepliesHaveTheirCause | cloudflare/src/durable-objects/host.ts:686-719 | in every run each reply came from an event: a status and body from a frame that carried them for that request while it waited, an internal error from one that could not be relayed, silence from its timer, offline from a close or a failed send |
| BrokerAnswers.RedeemStepExactly | cloudflare/src/durable-objects/host.ts:640-704 | forwarded iff fewer than sixty attempts are left; row, waiter, timer and the answer to a failed send |
| BrokerAnswers.AlarmStepExactly | cloudflare/src/durable-objects/host.ts:798-806 | exactly the rows older than a week and the attempts older than a minute go |
| Broker.CloseSettlesItsOwn | cloudflare/src/durable-objects/host.ts:489-498 | a close settles exactly the requests of its socket iff none waits that went out on another socket with the same connect time |
| Broker.DistinctTimesSuffice | cloudflare/src/durable-objects/host.ts:407-412 | distinct connect times rule that out |
| Broker.SameTimeDropsOthers | cloudflare/src/durable-objects/host.ts:489-498 | two sockets of one millisecond where a close drops the other's request |
| Broker.ForwardsAreRecorded | cloudflare/src/durable-objects/host.ts:640-674 | in every run the attempts table is the sliding window's and each recorded attempt is one forwarded request |
| HostObject.LiveSocket | cloudflare/src/durable-objects/host.ts:439-451 | the first of the newest open sockets, or none iff none is usable |
| HostObject.HostDO.Settle | cloudflare/src/durable-objects/host.ts:707-719 | at most one answer, timer cleared, row stamped |
| HostObject.HostDO.OnResponse | cloudflare/src/durable-objects/host.ts:466-482 | a waiting request is answered with the frame's own status and body, or an internal error if it cannot be relayed, and filed accordingly; a frame nobody waits for marks a timed-out row late |
| HostObject.HostDO.OnTimer | cloudflare/src/durable-objects/host.ts:694-696 | settles as a timeout |
| HostObject.HostDO.OnClose | cloudflare/src/durable-objects/host.ts:489-498 | drops exactly the waiting requests with the socket's connect time |
| HostObject.HostDO.RecordAttempt | cloudflare/src/durable-objects/host.ts:784-790 | trims, then records unless full |
| HostObject.HostDO.Forward | cloudflare/src/durable-objects/host.ts:686-704 | row, waiter and timer, and an offline answer if the send fails |
| HostObject.HostDO.Redeem | cloudflare/src/durable-objects/host.ts:640-674 | forwards iff the window has room |
| HostObject.HostDO.OnAlarm | cloudflare/src/durable-objects/host.ts:798-806 | trims audit rows, nonces and attempts |
| HostObject.HostDO.SeenNonce | cloudflare/src/durable-objects/host.ts:772-781 | prunes, then reports the nonce as used or remembers it |
| ConnectNonces.LagBound | cloudflare/src/durable-objects/host.ts:247-257 | whatever arrives in whatever order, no registration or connect message is let through twice iff clock readings lag at most 600s |
| ConnectNonces.LateCopyPasses | cloudflare/src/durable-objects/host.ts:375-394 | a run with a lag of 601s that lets a message through twice |
| ConnectNonces.RefusedOnlyIfUsed | cloudflare/src/durable-objects/host.ts:772-781 | in every run a fresh message is refused only if its nonce was let through within the 20 minutes before |
| SlidingWindow.AtMostCapPerWindow | cloudflare/src/durable-objects/host.ts:784-790 | readings lagging at most d: no window of 60 - d seconds holds more than 60 recorded attempts |
| SlidingWindow.RefusedOnlyWhenFull | cloudflare/src/durable-objects/host.ts:784-790 | with a clock that never goes back an attempt is refused iff the minute up to it holds 60 |
| SlidingWindow.MinuteBound | cloudflare/src/durable-objects/host.ts:784-805 | sixty a minute holds in every run iff no reading lags |
| SlidingWindow.LateReadingOverfills | cloudflare/src/durable-objects/host.ts:605-643 | a run with a lag of one second and 61 attempts in a minute |
| Canonical.Encode | go/internal/canonical/canonical.go:67-119 | the buffer loop computes the recursive encoding and its first error |
| Canonical.WriteField | go/internal/canonical/canonical.go:80-117 | one field written or its error |
| Canonical.WriteLP | go/internal/canonical/canonical.go:130-135 | a length-prefixed string appended |
| Canonical.RoundTrip | go/internal/canonical/canonical.go:67-135 | parsing an accepted encoding followed by anything returns exactly both, iff every length fits 32 bits |
| Canonical.ParseIsExact | go/internal/canonical/canonical.go:67-135 | the parser accepts nothing the encoder would spell differently |
| Canonical.PrefixFree | go/internal/canonical/canonical.go:67-135 | no accepted encoding begins another |
| Canonical.TruncationBreaksPrefixFreedom | go/internal/canonical/canonical.go:130-135 | beyond 2^32 bytes one does |
| CanonicalPeers.JsEncode | cloudflare/src/canonical/cbe.ts:104-138 | the TypeScript loop computes its recursive form |
| CanonicalPeers.Writer.Finish | cloudflare/src/canonical/cbe.ts:84-92 | the moving-offset copy concatenates the chunks |
| CanonicalPeers.EncodeStringExactly | cloudflare/src/canonical/cbe.ts:43-58 | the re-decode rejects exactly U+0000 and lone surrogates |
| CanonicalPeers.JsAgreesWithGo | cloudflare/src/canonical/cbe.ts:104-138 | TypeScript accepts iff Go accepts and the text is strict, with the same bytes; on strict text the errors are the same too |
| CanonicalPeers.NodeAgreesWithGo | install/redeem.mjs:50-66 | what Go accepts Node builds identically iff no length overflows, else it throws |
| PeerMessages.ServiceBuildsTheSameBytes | cloudflare/src/protocol.ts:212-397 | for all six messages the service builds the bytes Go does, iff Go accepts the message and its text is strict |
| PeerMessages.VisitorBuildsTheSameBytes | install/redeem.mjs:321-332 | every message, the registration, redemption and enrolment lists of the Node client among them, comes out in the bytes Go builds iff no length overflows, else Node throws |
| Utf8.UnitsOfScalars | cloudflare/src/canonical/cbe.ts:43-58 | UTF-16 text decodes back to itself iff it has no lone surrogate |
| Messages.BytesBindMessage | go/internal/protocol/messages.go:58-233 | if one message's bytes begin another's, the two are equal in kind and every field |
| Messages.RegistrationBinds | go/internal/protocol/messages.go:58-75 | a message a host can build that has the bytes of a registration is that registration, even if the latter's nonce is 2^32 bytes or longer |
| Messages.KindsNeverCollide | go/internal/protocol/messages.go:170-186 | messages of two kinds, signature and MAC of a redemption included, never share bytes |
| Visitor.VisitorChain | go/agent/verify.go:45-146 | under ideal primitives, whatever passes both checks is field for field a registration the host built and signed, the CA and host keys gone by are those on it, and the certificate is one its authority issued over the visitor's key for that login, never root, valid now |
| Visitor.RecordIsTheHosts | go/signer/signer.go:130-170 | a record that verifies is a registration, not a connect or grant message, the host signed |
| Visitor.VerifyHostRecordExactly | go/agent/verify.go:45-83 | a record passes iff it meets all ten conditions, and gives its registration and the parsed CA and host keys; otherwise the fault is the first failing condition's |
| Visitor.VerifyRedemptionExactly | go/agent/verify.go:112-146 | a response passes, with its certificate, iff it repeats the registration's address, port and login and the certificate suits |
| Visitor.HostnameHasNoDotDot | go/internal/protocol/validate.go:34-45 | an address is valid iff of that length and alphabet and without two dots in a row anywhere |
| Visitor.AcceptedCertificateWasEarned | go/agent/verify.go:112-146 | in every run of the host's signer, an accepted certificate comes from a genuine call, agent signature included, proved under a grant's secret for the visitor's key, with that grant's login, expiry and recorded serial |
| Witness.HonestAnswerAccepted | go/agent/verify.go:45-146 | ideal primitives and an accepted answer go together |
| WebSocket.StreamReadsBack | install/redeem.mjs:693-719 | any frames with any masks read back as their data payloads and their pings, each in order, up to the first close |
| WebSocket.ChunksDoNotMatter | install/redeem.mjs:693-720 | feeding chunks one by one gives the messages of their concatenation |
| WebSocket.TunnelDelivers | install/bridge-proxy.py:107-182 | frames cut up anyhow arrive as their payloads |
| WebSocket.ClientsAgree | install/bridge-proxy.py:169-182 | both clients read the same messages iff no frame before the first close has a reserved opcode |
| WebSocket.ClientsDiffer | install/redeem.mjs:713-717 | a frame that is a message to Node and nothing to Python |
| Tunnel.PongBytes | install/bridge-proxy.py:176-181 | the answer to a ping is the masked pong frame iff the payload has at most 125 bytes; from 256 on there is none |
| WebSocket.MaskedTwice | install/bridge-proxy.py:119-122 | masking undoes itself |
| Tunnel.FrameBytes | install/bridge-proxy.py:107-122 | the written frame is the encoding of a masked binary frame |
| Tunnel.WsFrame | install/redeem.mjs:674-690 | the same with any opcode |
| Tunnel.Reader.Need | install/bridge-proxy.py:132-138 | receives until enough is buffered or the peer is done; nothing is lost |
| Tunnel.Reader.Take | install/bridge-proxy.py:143-168 | takes exactly the next frame of everything unread |
| Tunnel.Reader.Next | install/bridge-proxy.py:140-182 | the next message of everything unread, and answers to exactly the pings before it, whatever the chunks |
| Tunnel.MessagesOneByOne | install/bridge-proxy.py:140-182 | repeated calls give the stream's messages and pings in order |
| Tunnel.ParseBuffer | install/redeem.mjs:697-711 | the frame at the front of the buffer iff it is complete |
| Tunnel.NodeReader.Pump | install/redeem.mjs:695-718 | delivers every complete frame's message up to a close, answers the pings among them and keeps the rest |
| Tunnel.NodeReader.OnData | install/redeem.mjs:720-720 | the same with the new chunk appended |
| Tunnel.ReadAll | install/redeem.mjs:693-723 | any chunking delivers the whole stream's messages up to the first close |
| Base32.Encode | cloudflare/src/crypto/encoding.ts:10-26 | the wrapping 32-bit accumulator computes the encoding of section 6 of RFC 4648 |
| Base32.EncodeMasked | install/redeem.sh:223-242 | so does the masked one |
| Base32.EncodingIsInjective | install/redeem.mjs:92-101 | byte strings of one length have different encodings; twenty bytes take 32 symbols |

## Left out

- Cryptography, SSH key and certificate parsing, base64 and JSON: functions passed in, not modelled.
- /proc, cgroup files, systemd and sockets: a process table, a set of slice names and pass-by-pass observations stand for them.
- SQLite, schema migration and file modes: statements and transactions are taken as atomic.
- Starting the slice and the scope, and the wait for the process to land in it: a hook between binding and recording may go on or stop; what it leaves on the machine is not modelled.
- The early look at the live map in Admit and the unused second signer read of Attach, polls and restarts: they can only refuse sooner, and the system steps leave them out.
- The admission command's own process and parent checks: the sshd process is given to the model.
- Serials compared as decimal text: modelled as numbers.
- The rest of the host object's registration, connect and grant publication handlers: field checks, the host row and the replaced socket.
- Sockets without a readable attachment: every socket of the broker carries its connect time.
- The WebSocket handshake, the random masks of written frames, and lengths of 2^53 bytes and more.
- HostObject.HostDO.Redeem: starts at the attempt cap; the checks of the envelope, the agent and the grant before it are not modelled.
- HostObject.HostDO.OnAlarm: leaves out the deletion of expired grant rows, which nothing here reads.
- Warden.Warden.Persist: the write always succeeds, and the file has no list of remaining processes.
- Warden.Warden.CommitSession: a session has no scope unit and no cgroup path.
- Warden.Warden.Terminate: does not keep the list of remaining processes.
- Warden.Warden.Finalize: does not stop the slice unit, and there is no list of remaining processes to clear.
- Warden.Warden.Reconcile: does not model the signer being queried while the loop runs; each answer is given when its turn comes. The system steps do model it.
- Reopening.SettledReopensExactly: a Closed grant with a call in flight on a fresh answer is not covered; such a call may still bind after the signer has changed its mind, within the retention.
- Tunnel.Reader.Next: goes on after a ping of 256 bytes or more, where Python raises; section 5.5 of RFC 6455 allows a control frame 125.
- Tunnel.ReadAll: stops at the first close. Node's data handler stays installed, but what it is given to do at a close ends the process (install/redeem.mjs:753-759).
- Agent registration, challenges, DNS, release serving and installers.
