# Verification model of the DSH Capsule runtime

The trusted runtime lets containerised tools use credentials only through short leases that the
user approves. This project models what decides whether such a call goes through, and the two
protocols around it, and proves properties of every run of that model.

- **Leases** (`LeaseTable`, `LeaseRules`, `LeaseLaws`, `LeaseStore`, `LeaseService`): the table, its
  statements, the service and the gateway as classes, each method proved against the functions that
  the machines use, and, in columns and numbers, against what it is for.
- **Leases, interleaved** (`LeaseMachine`, `LeaseMachineLaws`, `LeaseInvariant`, `LeaseSequential`,
  `LeasePaths`, `LeaseExclusivity`, `LeaseRevocation`, `LeaseActions`, `LeaseWitnesses`,
  `LeaseSolo`, `BulkRevocation`): requests that overlap in any way. Each `await` ends a
  step; a request carries its place and what it has read so far.
- **JSON-RPC** (`RpcIds`, `RpcPeers`, `RpcLifecycle`, `RpcRestarts`, `RpcMachine`,
  `RpcCorrelation`, `RpcSolo`): both peers' pending tables as classes, the child process as it
  starts, exits, is disposed of and restarted, and the two peers together with messages handled in
  any order.
- **Broker and manager** (`Manifests`, `BrokerStages`, `BrokerServer`, `CapsuleManager`): the staged
  call, the connection loop, and one invocation at a time, as classes.
- **Manager, interleaved** (`ManagerMachine`, `ManagerAttribution`, `ManagerContainers`,
  `ManagerSequential`, `ManagerLoss`, `ManagerShutdown`, `ManagerSolo`): invocations that overlap
  in any way, with every broker object and every container ever started, and the shutdown's sweep.
  `Naturals` gives unused numbers.
- **Everything together** (`System`, `SystemLaws`, `SystemLeases`, `SystemRevocation`, `SystemTime`,
  `SystemPace`, `SystemWitness`): invocations, brokered calls and lease requests in one machine,
  which bounds no step's time; the timeouts are added as a condition on its runs.

## Assumptions

- Each store statement is atomic and takes effect when it is sent. The clock counts microseconds and
  never goes back; a row is issued strictly later than every row before it; lease, instance and
  broker identifiers are new.
- A run is *on schedule* when the timeouts of 300, 30 and 15 seconds are kept and every other segment
  of a call takes at most d, whatever d is; sending a request to the host is a segment before the
  wait for its answer. Because no two leases are issued at one instant, a call waiting to insert may
  be held up one instant longer by each lease issued meanwhile.
- Stopping a broker returns although connections are open. This is so in Python 3.11; later versions
  may wait for the connections in `wait_closed`, and `BrokerServer.stop` does not close them.
- An approval is a grant as Python sees it: one the host gives after the 300 seconds is a rejection.
- "Sequential" for leases means that two requests for the same (provider, resource) do not overlap;
  the clock, revocations and all other requests move freely. For the manager it means that
  invocations of one capsule do not overlap.
- A lease is *usable* when it is ACTIVE, unexpired and the newest row of its (instance, session,
  provider, resource): what `find_matching_lease` can return.
- Environment outcomes are parameters or free choices of an event: the host's decision, the
  credential, the provider, the backend's start, stop, health and call.

## What turned out not to hold

- *Revocation.* A revocation is undone by a request already in flight: the lazy expiry writes EXPIRED
  over REVOKED for a lease it read earlier, and a request past its blocking check goes on to issue.
  `RevocationHoldsExactly` gives the exact condition, `LazyExpiryUndoesRevocation` a run.
- *Exclusivity.* Requests of different holders that overlap across the approval wait break it
  (`OverlapBreaksExclusivity`). `ExclusivityHoldsExactly` gives the exact condition on the requests in
  flight, and `ExclusiveInsert` the one at the insert, which the code does not check there.
- *Containers.* Overlapping first invocations of a capsule lose one (`OverlapLosesContainer`);
  `LosesExactly` gives the exact condition on the invocations in flight.
- *Shutdown.* It sweeps the capsules registered when it begins, while invocations go on: one that can
  still start a container leaves it running, and one whose broker is being started leaves that broker
  registered. `SweepStopsAllExactly` and `SweepStopsBrokersExactly` give the exact conditions. They
  speak of a sweep that comes to its end; a container whose stop fails aborts it.
- *After a revocation.* Calls that hold the lease, or have read it in their lookup, still execute under
  it (`ExecutesAfterwardsExactly`).
- *Leases and containers.* A call already waiting for approval can still be issued, and use, a lease
  for an instance that is torn down meanwhile (`LeaseForDeadInstance`). `LeasesEndExactly` gives the
  exact condition at the teardown: time, a revocation or another session's lease can unblock every
  request in flight but those that have read a revocation of their own session.
  `NoLeaseOutlivesContainer` holds from the arrival of a call.
- *Disposal.* `dispose` of a process that has exited before never completes, because the exit event it
  waits for has passed; a call made in between waits for its own timer (`DisposeAfterExitHangs`,
  `DisposeCompletesExactly`).
- *Restarts.* An exit fails every outstanding call, whichever process it was made to, and a handler
  answers to whichever process is there when it ends, which finds its call by the number alone.
  `ExitsMixExactly`, `StartMixesExactly` and `RestartMisleadsExactly` give the exact conditions.
- *Codes.* `validate` tells a wrong instance before a wrong session, the gateway a wrong session
  first, so a caller wrong in both is told LEASE_SESSION_MISMATCH by one and LEASE_CAPSULE_MISMATCH by
  the other; `DecidersAgreeOn` says exactly when.

## Model

| member | source | states |
|---|---|---|
| `LeaseTable.NewestIx` | runtime/dsh_capsule/storage/db.py:67-82 | the row both SELECT statements pick: selected, with no selected row after it |
| `LeaseTable.NewestIsLatestIssued` | runtime/dsh_capsule/storage/db.py:67-82 | picking by insertion order is picking by `ORDER BY issued_at DESC`: every other selected row was issued strictly earlier |
| `LeaseTable.UnusableForever` | runtime/dsh_capsule/lease/service.py:18-26 | a row that is not ACTIVE, unexpired and newest of its key never becomes so again, however the table grows and time advances |
| `LeaseStores.LeaseStore.Insert` | runtime/dsh_capsule/storage/db.py:55-61 | the primary key refuses a taken identifier and changes nothing; else exactly this row is appended |
| `LeaseStores.LeaseStore.Get` | runtime/dsh_capsule/storage/db.py:62-66 | the one row with the identifier, or none |
| `LeaseStores.LeaseStore.SelectNewest` | runtime/dsh_capsule/storage/db.py:67-82 | a scan by issue time returns exactly the newest selected row |
| `LeaseStores.LeaseStore.FindMatching` | runtime/dsh_capsule/storage/db.py:67-74 | the row issued last among those with this instance, session, provider and resource, or none if there is none |
| `LeaseStores.LeaseStore.FindForResource` | runtime/dsh_capsule/storage/db.py:75-82 | the row issued last among those with this provider and resource, whatever its status |
| `LeaseStores.LeaseStore.SetStatus` | runtime/dsh_capsule/storage/db.py:83-89 | only the status columns of the named row change |
| `LeaseStores.LeaseStore.RevokeWhere` | runtime/dsh_capsule/storage/db.py:90-105 | exactly the ACTIVE covered rows become REVOKED, and the count is their number; the two below say which rows these are |
| `LeaseStores.LeaseStore.RevokeBySession` | runtime/dsh_capsule/storage/db.py:90-97 | every row that was ACTIVE with this session is REVOKED now, every other row is as it was, and the count is the size of that set of positions |
| `LeaseStores.LeaseStore.RevokeByCapsule` | runtime/dsh_capsule/storage/db.py:98-105 | the same for the rows with this capsule |
| `BulkRevocation.CountsAddUp` | runtime/dsh_capsule/storage/db.py:90-105 | for any sequence of bulk revocations the returned counts add up to the rows ACTIVE at the start whose session or capsule is a target |
| `BulkRevocation.FinalRows` | runtime/dsh_capsule/storage/db.py:90-105 | those rows end REVOKED with their binding columns intact, every other row is untouched |
| `BulkRevocation.OrderIrrelevant` | runtime/dsh_capsule/storage/db.py:90-105 | any two sequences with the same targets, in any order and with any repetition, give the same total and the same statuses |
| `BulkRevocation.RepeatsReturnZero` | runtime/dsh_capsule/storage/db.py:90-105 | targets revoked before return 0 and change nothing |
| `LeaseServices.LeaseService.Issue` | runtime/dsh_capsule/lease/service.py:8-17 | a resource without a colon is refused and nothing inserted; else one ACTIVE row bound to the caller, ending its lifetime after now, is appended |
| `LeaseServices.LeaseService.FindMatchingLease` | runtime/dsh_capsule/lease/service.py:18-26 | returns a lease if and only if the key has a usable one, and then that one; only a newest ACTIVE row past its time is marked EXPIRED |
| `LeaseServices.LeaseService.FindLatestForResource` | runtime/dsh_capsule/lease/service.py:27-29 | the newest row of the resource |
| `LeaseServices.LeaseService.CheckLease` | runtime/dsh_capsule/lease/service.py:30-46 | the verdict of `validate`, each code if and only if its own condition on the columns of the newest row holds, its lazy expiry, and that a pass is a lease bound to the caller, covering the action, unexpired |
| `LeaseServices.LeaseService.Revoke` | runtime/dsh_capsule/lease/service.py:47-52 | LEASE_NOT_FOUND exactly when no row has the identifier; else that row alone is REVOKED |
| `LeaseServices.LeaseService.RevokeSession` | runtime/dsh_capsule/lease/service.py:53-55 | every row that was ACTIVE with this session is REVOKED now, every other row is as it was, and their number is returned |
| `LeaseServices.LeaseService.RevokeCapsule` | runtime/dsh_capsule/lease/service.py:56-58 | the same for the rows with this capsule |
| `LeaseServices.LeaseGateway.Request` | runtime/dsh_capsule/lease/gateway.py:12-32 | one uninterrupted request: result, what the host is shown if it is asked, and the whole table afterwards; a lifetime outside 1 to 1800 seconds is refused unasked, one inside it is asked for on an empty table, and a grant for a well-formed resource gives the lease with exactly the caller's columns |
| `LeaseServices.LeaseGateway.Consult` | runtime/dsh_capsule/lease/gateway.py:18-30 | the lifetime is refused if and only if it is outside 1 to 1800 seconds; reuse if and only if the newest row of the key is ACTIVE, unexpired and has the action; each blocking code if and only if its condition on the newest row of the resource holds; and the table after the lazy expiry |
| `LeaseServices.LeaseGateway.AskThenIssue` | runtime/dsh_capsule/lease/gateway.py:31-32 | the host is shown the caller's capsule, provider, resource, action, lifetime and tool; a refusal, an ill-formed resource and an issue, with the columns of the lease, and what each leaves in the table |
| `LeaseServices.LeaseGateway.Reusable` | runtime/dsh_capsule/lease/gateway.py:20-22 | reuse happens exactly when the decision grants, and leaves the table alone |
| `LeaseServices.LeaseGateway.CheckBlocked` | runtime/dsh_capsule/lease/gateway.py:23-30 | the blocking checks on the newest row of the resource |
| `LeaseServices.GrantedIsBound` | runtime/dsh_capsule/lease/gateway.py:20-22 | a reused lease is a row of the table, ACTIVE, unexpired, bound to the caller and covering the action |
| `LeaseLaws.LifetimeLaw` | runtime/dsh_capsule/lease/gateway.py:18-19 | the decision is LEASE_REJECTED if and only if the lifetime is at most 0 or over 1800; any other request on an empty table asks the host |
| `LeaseLaws.ReuseLaw` | runtime/dsh_capsule/lease/gateway.py:20-22 | the newest row of the key is reused if and only if it is ACTIVE, unexpired and has the action |
| `LeaseLaws.ExpiryLaw` | runtime/dsh_capsule/lease/service.py:23-25 | the lookup changes a row, to EXPIRED, if and only if it is the newest of the key, ACTIVE and past its time |
| `LeaseLaws.BlockingLaw` | runtime/dsh_capsule/lease/gateway.py:23-30 | without reuse each code is given if and only if its condition on status, time, session and instance of the newest row of the resource holds |
| `LeaseMachineLaws.BeginLaw` | runtime/dsh_capsule/lease/gateway.py:18-20 | a request of the interleaved machine ends at once if and only if its lifetime is outside 1 to 1800 seconds, and else has read the newest row of its key |
| `LeaseMachineLaws.BlockLaw` | runtime/dsh_capsule/lease/gateway.py:23-30 | its blocking checks, code by code, on the row it has read |
| `LeaseMachineLaws.IssueLaw` | runtime/dsh_capsule/lease/gateway.py:31-32 | the row an approved request adds, column by column, or the refusal of a resource without a colon |
| `LeaseMachineLaws.RevokeAllLaw` | runtime/dsh_capsule/storage/db.py:90-105 | a bulk revocation in the machine changes exactly the ACTIVE rows of the session, or of the capsule |
| `LeaseSolo.SoloRequestDecides` | runtime/dsh_capsule/lease/gateway.py:18-30 | from any state of the interleaved machine, a call whose segments run back to back reaches exactly the gateway's decision, table and clock |
| `LeaseSolo.SoloRequestCompletes` | runtime/dsh_capsule/lease/gateway.py:12-32 | and with the host's answer and the insert it ends with exactly the result and the table of the gateway's method; one approval is recorded exactly if one was granted |
| `LeaseInvariant.InvAlways` | runtime/dsh_capsule/lease/service.py:8-26 | in every interleaving: issue times and identifiers strictly ordered and distinct, lifetimes legal, EXPIRED only past the expiry time, every read an earlier version of a row, every approval in one place |
| `LeaseInvariant.RunShape` | runtime/dsh_capsule/storage/db.py:55-105 | in every interleaving rows are never removed, binding columns never change, ACTIVE is never regained |
| `LeaseInvariant.NeverUsableAgain` | runtime/dsh_capsule/lease/service.py:18-26 | in every interleaving a lease that has stopped being usable is never usable again |
| `LeaseInvariant.NeverReusedAgain` | runtime/dsh_capsule/lease/gateway.py:20-22 | no request that begins after a lease stopped being usable is ever handed it for reuse |
| `LeaseInvariant.ApprovalsConserved` | runtime/dsh_capsule/lease/gateway.py:31-32 | at every step of every interleaving: granted approvals = rows + approved and not yet inserted + refused by the resource-format rule |
| `LeaseInvariant.RowsHaveOwnApproval` | runtime/dsh_capsule/lease/gateway.py:31-32 | every row has its own granted approval, one that showed exactly this capsule, provider, resource, action and lifetime |
| `LeaseInvariant.GrantsShowTheirCalls` | runtime/dsh_capsule/lease/approval.py:10-16 | in every interleaving each approval showed the host the capsule, provider, resource, action, lifetime and tool of its own call |
| `LeaseInvariant.ReuseOverRun` | runtime/dsh_capsule/lease/gateway.py:20-22 | while a row stays usable, a request for its key and action begun after its issue is at the lookup that returns it or has been handed it |
| `LeaseInvariant.ReuseAsksOnce` | runtime/dsh_capsule/lease/gateway.py:18-32 | any number of such requests, overlapping or not, are granted no further approval and all return that one lease |
| `LeaseActions.AskedPerChange` | runtime/dsh_capsule/lease/gateway.py:20-32 | any number of whole requests for one key within the first lease's lifetime ask the host once, and again for each change of the action, even back to one granted before |
| `LeaseSequential.ExclusiveInsert` | runtime/dsh_capsule/lease/gateway.py:32 | one insert keeps usable leases exclusive if and only if no other holder has an unexpired ACTIVE newest lease there at that moment |
| `LeaseExclusivity.SeqInvAlways` | runtime/dsh_capsule/lease/gateway.py:20-32 | in every sequential run usable leases are exclusive and no request in flight can change that |
| `LeaseExclusivity.ExclusiveHolder` | runtime/dsh_capsule/lease/gateway.py:20-32 | in every sequential run a usable lease is the newest row of its whole resource, so at most one (session, instance) can reuse one there |
| `LeaseExclusivity.ExclusivityHoldsExactly` | runtime/dsh_capsule/lease/gateway.py:20-32 | from any state of any run, usable leases stay exclusive in every sequential continuation (or, the same, in every one without new requests) if and only if no request past its reads can insert while another holder's lease is usable, and no two requests of different holders of one resource can both come to insert |
| `LeaseSequential.DecidersAgreeOn` | runtime/dsh_capsule/lease/service.py:30-46 | on any such table gateway and validator settle each other: same lease, reuse iff pass, approval asked iff one of the listed verdicts, and each refusal code determines the verdict |
| `LeaseExclusivity.DecidersAgree` | runtime/dsh_capsule/lease/gateway.py:20-30 | the same in every state of every sequential run |
| `LeaseRevocation.FirmStaysFirm` | runtime/dsh_capsule/lease/gateway.py:23-25 | with no stale request in flight, a revocation stays in force in every continuation, even with overlapping requests |
| `LeaseRevocation.LaterRequestsRebuffed` | runtime/dsh_capsule/lease/gateway.py:23-25 | every later legal-TTL request by the session on the resource, from any instance and after any delay, only ever moves towards LEASE_REVOKED until another session is issued a lease |
| `LeaseRevocation.RebuffedRequestDoesNothing` | runtime/dsh_capsule/lease/gateway.py:23-25 | such a request is granted no approval, and ends only with LEASE_REVOKED |
| `LeaseRevocation.LockedOutRefuses` | runtime/dsh_capsule/lease/gateway.py:23-25 | while the newest lease is REVOKED and usable leases are exclusive, every legal-TTL request of its session is decided LEASE_REVOKED |
| `LeaseRevocation.RevocationHoldsExactly` | runtime/dsh_capsule/lease/gateway.py:23-32 | a revocation stays in force in all sequential continuations if and only if no request in flight is stale; if one is, a continuation ends with the session let in again |
| `LeaseWitnesses.LazyExpiryUndoesRevocation` | runtime/dsh_capsule/lease/service.py:23-25 | a sequential run, for any caller, in which the lazy expiry overwrites the revocation |
| `LeaseWitnesses.OverlapBreaksExclusivity` | runtime/dsh_capsule/lease/gateway.py:31-32 | any two requests of different holders that overlap across the approval wait can leave both with a usable lease on one resource |
| `RpcIds.IdInjective` | runtime/dsh_capsule/rpc.py:25 | no identifier is produced twice, by either counter; `py-` and `ts-` never meet (JSON-RPC 2.0, section 4.1) |
| `RpcIds.NoIdIsNoRequest` | runtime/dsh_capsule/rpc.py:48 | a reply without an identifier matches no request |
| `RpcIds.DecimalReads` | runtime/dsh_capsule/rpc.py:25 | the counter is written with digits only, without a leading zero, and reads back as the same number |
| `RpcPeers.RpcConnection.BeginCall` | runtime/dsh_capsule/rpc.py:23-27 | takes the next identifier and registers an unset future for it, and only that |
| `RpcPeers.RpcConnection.EndCall` | runtime/dsh_capsule/rpc.py:28-32 | the outcome is the future's, or a timeout if it is unset; the entry goes either way |
| `RpcPeers.RpcConnection.HandleResponse` | runtime/dsh_capsule/rpc.py:76-82 | sets the matching future unless it is set already; else nothing changes |
| `RpcPeers.RpcConnection.FailPending` | runtime/dsh_capsule/rpc.py:37-41 | at end of input exactly the unset futures fail |
| `RpcPeers.RpcConnection.Register` | runtime/dsh_capsule/rpc.py:20-22 | the method becomes known, nothing else changes |
| `RpcPeers.RpcConnection.Handle` | runtime/dsh_capsule/rpc.py:51-82 | a response sets its future, and no other; a call is answered if and only if it has an identifier: with -32601 for an unknown method, with the value its handler gave, with an RpcError's own code and message, or with -32603, the message and the own code of any other exception |
| `RpcPeers.Readable` | runtime/dsh_capsule/rpc.py:35-49 | how many lines are read: all before the first that is not UTF-8 |
| `RpcPeers.RpcConnection.Run` | runtime/dsh_capsule/rpc.py:33-50 | for any lines: blank ones skipped, garbage answered with -32700 and no identifier, every other line answered as above, each in its own place and in the order of the lines, up to the first that cannot be decoded; at end of input no future is unset, and after such a line the futures stay as they are |
| `RpcPeers.OutputsByLine` | runtime/dsh_capsule/rpc.py:33-50 | every line that is answered has its own place in what goes out, in the order of the lines, and nothing else goes out |
| `RpcPeers.FirstReturn` | runtime/dsh_capsule/rpc.py:76-82 | the first response with an identifier |
| `RpcPeers.FirstReplyWins` | runtime/dsh_capsule/rpc.py:37-41 | over any lines a waiting call gets the first response with its identifier, whatever comes later, and without one a closed connection |
| `RpcPeers.PythonRuntime.RegisterHostMethod` | adapter/src/rpc-client.ts:16-19 | the method becomes known, nothing else changes |
| `RpcPeers.PythonRuntime.HandleLine` | adapter/src/rpc-client.ts:61-96 | garbage is dropped; a response leaves its pending call answered with exactly its reply and every other promise as it was; a call is answered if and only if its identifier is not missing (null is answered, with null) and there is a process: with -32601, its handler's value, or -32603 and the message |
| `RpcMachine.AnswersAreDispatched` | runtime/dsh_capsule/rpc.py:51-75 | the answer in the two-peer machine, told outright: -32601 for an unknown method, the value given, an RpcError of a Python handler with its code, anything else raised with -32603 |
| `RpcPeers.PythonRuntime.Start` | adapter/src/rpc-client.ts:20-31 | a second start is refused; else there is a new process, and the health-check call is pending |
| `RpcPeers.PythonRuntime.Call` | adapter/src/rpc-client.ts:32-45 | without a process it throws; else a fresh identifier is pending, with a timer |
| `RpcPeers.PythonRuntime.Settle` | adapter/src/rpc-client.ts:87-95 | settles a promise never settled before with exactly this outcome, disarms its timer, and leaves every other promise |
| `RpcPeers.PythonRuntime.HandleResponse` | adapter/src/rpc-client.ts:87-95 | leaves the matching call answered with exactly this reply and every other promise as it was; an unknown or late identifier changes nothing |
| `RpcPeers.PythonRuntime.TimerFires` | adapter/src/rpc-client.ts:38-41 | a timer that is still armed belongs to a pending call, which times out |
| `RpcPeers.PythonRuntime.FailAllPending` | adapter/src/rpc-client.ts:101-108 | every outstanding call fails, earlier outcomes stay, no timer is left, and every call ever made is settled |
| `RpcPeers.PythonRuntime.Exit` | adapter/src/rpc-client.ts:25-25 | the exit event settles every outstanding call, leaves the process the current one, and ends the wait of a `dispose` of that process |
| `RpcPeers.PythonRuntime.Dispose` | adapter/src/rpc-client.ts:46-58 | complete at once without a process; else there is none any more, its exit is awaited, and no call is settled yet |
| `RpcLifecycle.FirstEndWins` | adapter/src/rpc-client.ts:36-45 | over any run of calls, answers, timers, exits, starts and disposals an outstanding call ends with the first event that can end it: it gets its first answer, unless its timer or an exit came first |
| `RpcLifecycle.DisposeCompletesExactly` | adapter/src/rpc-client.ts:46-60 | `dispose` of the current process can complete if and only if that process has not exited before; the call itself settles nothing |
| `RpcLifecycle.WaitEnds` | adapter/src/rpc-client.ts:53-59 | a wait ends only with the exit event, and then every call outstanding has failed |
| `RpcLifecycle.DisposeAfterExitHangs` | adapter/src/rpc-client.ts:46-60 | exit, then a call, then `dispose`: it never completes, and the call is left to its timer |
| `RpcLifecycle.ExitsMixExactly` | adapter/src/rpc-client.ts:25-25 | in every state of every run, no exit settles a call made to another process before the next restart, if and only if each process that can still exit is the only one with outstanding calls, and the current one if there is one |
| `RpcLifecycle.StartMixesExactly` | adapter/src/rpc-client.ts:20-26 | a start is safe in this sense if and only if no earlier process can still exit and no call is outstanding |
| `RpcLifecycle.LateExitFailsNewCalls` | adapter/src/rpc-client.ts:25-25 | a run in which a start comes before the disposed process has exited, and that exit fails the calls to the new one |
| `RpcRestarts.RightAnswer` | runtime/dsh_capsule/rpc.py:76-82 | over restarts, a call of Python that is given an answer is given the one to exactly itself, or one to the call of the same number of another process |
| `RpcRestarts.RestartMisleadsExactly` | adapter/src/rpc-client.ts:77-83 | after a restart no call of Python is newly given the answer to another one, before the next restart, if and only if at the restart every earlier process has exited and none of its calls is unread or in a handler |
| `RpcCorrelation.InvAlways` | runtime/dsh_capsule/rpc.py:23-82 | the invariant of both peers over every interleaving |
| `RpcCorrelation.Correlated` | runtime/dsh_capsule/rpc.py:51-82 | in every interleaving each call is outstanding or over, never both; an answered one was given what the other peer's handler made of exactly its own method and parameters (JSON-RPC 2.0, section 5) |
| `RpcCorrelation.AnsweredByTheHandler` | runtime/dsh_capsule/rpc.py:51-82 | and this outright: the reply is -32601, the value, the RpcError or the -32603 error that the handler's end amounts to |
| `RpcCorrelation.EndingLaws` | runtime/dsh_capsule/rpc.py:23-41 | how each event ends a call: with the reply taken, a timeout, a failed write or a closed connection; no other event ends one |
| `RpcSolo.TypeScriptIsAnswered` | adapter/src/rpc-client.ts:32-45 | from every state of every run with both peers up, a call of TypeScript can be made, handled and answered, and then has exactly what the Python handler did |
| `RpcSolo.PythonIsAnswered` | runtime/dsh_capsule/rpc.py:23-32 | the same for a call of Python |
| `RpcCorrelation.EndsOnce` | adapter/src/rpc-client.ts:61-96 | a call ends at most once: no later reply, timer or exit changes its request, its answer or its outcome |
| `RpcCorrelation.OneIdPerCall` | adapter/src/rpc-client.ts:36 | there are as many identifiers as calls made by the two peers together |
| `RpcCorrelation.NothingHangsAfterExit` | adapter/src/rpc-client.ts:25-25 | once the process has exited no call TypeScript made is pending or unsettled |
| `RpcCorrelation.NothingWaitsAfterEof` | runtime/dsh_capsule/rpc.py:37-41 | at end of input every call Python made has its outcome |
| `Manifests.CheckIsFirstEntry` | runtime/dsh_capsule/broker/policy.py:5-13 | the check passes with an entry if and only if it is the manifest's first one for the provider and allows the action |
| `Manifests.ListingInOrder` | runtime/dsh_capsule/capsule/manager.py:33-39 | tool t of a capsule is listed t places after the end of the capsules before it, under its capsule's identifier |
| `Manifests.LastIx` | runtime/dsh_capsule/capsule/manager.py:31-32 | the last listed entry with a name |
| `Manifests.UniqueNamesOneToOne` | runtime/dsh_capsule/capsule/manager.py:22-39 | with distinct tool names, owners and listing are in one-to-one agreement |
| `BrokerServers.BrokerServer.BeginCall` | runtime/dsh_capsule/broker/server.py:30-33 | session and tool are installed together |
| `BrokerServers.BrokerServer.EndCall` | runtime/dsh_capsule/broker/server.py:34-37 | both are cleared |
| `BrokerServers.BrokerServer.Start` | runtime/dsh_capsule/broker/server.py:38-40 | the broker listens exactly if its socket can be opened |
| `BrokerServers.BrokerServer.Stop` | runtime/dsh_capsule/broker/server.py:41-46 | the broker no longer listens |
| `BrokerServers.BrokerServer.HandleCall` | runtime/dsh_capsule/broker/server.py:74-107 | each failure exactly where it must occur, with its code; the stages reached, in order; the host is shown the manifest's identifier, the lifetime of its first entry for the provider and the tool in progress; the table changes in the lease stage only, by at most one row, with exactly this capsule, instance, session, resource, action and lifetime |
| `BrokerServers.BrokerServer.ObtainLease` | runtime/dsh_capsule/broker/server.py:89-93 | a lease for this instance, session, provider, resource and action, in the table, or the exact reason why not; what the host is shown, and the columns of an added row |
| `BrokerServers.BrokerServer.Execute` | runtime/dsh_capsule/broker/server.py:94-107 | an unknown provider, a missing credential, a timeout, the provider's own error, a crash and a result over 2097152 bytes each give their own code, in this order; anything else is delivered |
| `BrokerServers.BrokerServer.Dispatch` | runtime/dsh_capsule/broker/server.py:62-73 | same identifier, exactly one of result and error, and the code attached to the error: its own, but BROKER_PROTOCOL_ERROR for a missing credential, an output too large and an invalid resource |
| `BrokerServers.Answerable` | runtime/dsh_capsule/broker/server.py:51-60 | how many lines are answered: all before the first that is over the stream's limit, not UTF-8, or JSON but no object |
| `BrokerServers.BrokerServer.HandleConn` | runtime/dsh_capsule/broker/server.py:47-61 | the i-th response answers the i-th line with its identifier, null on a parse failure, with the result or the code of its own call, up to the first line that ends the connection (JSON-RPC 2.0, section 5) |
| `CapsuleManagers.CapsuleManager.Discover` | runtime/dsh_capsule/capsule/manager.py:22-32 | succeeds exactly when the identifiers are distinct; then exactly the listed names have an owner, and it is the last manifest that lists the name |
| `CapsuleManagers.CapsuleManager.RouteTools` | runtime/dsh_capsule/capsule/manager.py:31-32 | one manifest's tools, on top of those before it |
| `CapsuleManagers.CapsuleManager.TeardownInstance` | runtime/dsh_capsule/capsule/manager.py:78-85 | broker stopped and forgotten, container stopped and forgotten, the balance of containers kept, other capsules untouched |
| `CapsuleManagers.CapsuleManager.Register` | runtime/dsh_capsule/capsule/manager.py:71-72 | one more container started, registered for its capsule, with no broker so far |
| `CapsuleManagers.CapsuleManager.StartInstance` | runtime/dsh_capsule/capsule/manager.py:71-77 | a container with its own broker, or the failure and what it leaves registered |
| `CapsuleManagers.CapsuleManager.EnsureInstance` | runtime/dsh_capsule/capsule/manager.py:63-77 | a healthy instance is kept, anything else is replaced by a fresh one |
| `CapsuleManagers.CapsuleManager.RunCall` | runtime/dsh_capsule/capsule/manager.py:52-62 | during the call the broker shows exactly this session and tool; afterwards none does; a RuntimeError removes the instance and its broker |
| `CapsuleManagers.CapsuleManager.Invoke` | runtime/dsh_capsule/capsule/manager.py:40-62 | the outcome, what is registered afterwards, and how many containers were started, in every case; registries agree and started - stopped = registered |
| `CapsuleManagers.CapsuleManager.Shutdown` | runtime/dsh_capsule/capsule/manager.py:86-90 | nothing is registered and every started container has been stopped |
| `ManagerSolo.SoloReuse` | runtime/dsh_capsule/capsule/manager.py:40-62 | from any state of the interleaved machine in which nobody holds the capsule, an invocation of a healthy instance alone: its broker shows exactly this session during the call and none after it, and a RuntimeError leaves the instance unregistered and stopped |
| `ManagerSolo.SoloReplace` | runtime/dsh_capsule/capsule/manager.py:63-85 | the same with no healthy instance: what is registered is stopped, and the new container and its own broker take its place, or what a failed start leaves |
| `ManagerAttribution.SessionIsHolders` | runtime/dsh_capsule/capsule/manager.py:47-62 | in every interleaving, stale brokers included, a broker shows a session only while the holder of its capsule's lock uses this broker with this session |
| `ManagerAttribution.HolderIsShown` | runtime/dsh_capsule/capsule/manager.py:47-62 | and conversely: as long as an invocation holds the lock, the broker it uses shows its session |
| `ManagerAttribution.OneSessionPerCapsule` | runtime/dsh_capsule/capsule/manager.py:47-62 | two brokers of one capsule never show a session at the same time |
| `ManagerContainers.FateAlways` | runtime/dsh_capsule/capsule/manager.py:63-85 | in every interleaving the registry and the teardowns in progress agree with the record of every started container |
| `ManagerContainers.ContainersConserved` | runtime/dsh_capsule/capsule/manager.py:63-85 | in every interleaving: started - stopped = registered + being torn down + lost, and each container is in one of these |
| `ManagerSequential.SeqInvAlways` | runtime/dsh_capsule/capsule/manager.py:40-85 | without overlapping invocations of a capsule no container is overwritten, and every phase finds the registries it relies on |
| `ManagerSequential.IdleRegistries` | runtime/dsh_capsule/capsule/manager.py:40-85 | with no invocation in flight the registries have the same keys and bindings, and only a failed stop loses a container |
| `ManagerSequential.SessionOnLiveInstance` | runtime/dsh_capsule/capsule/manager.py:52-62 | a broker shows a session only for the registered instance, or for the one the lock holder is tearing down |
| `ManagerSequential.BrokenInstanceDestroyed` | runtime/dsh_capsule/capsule/manager.py:57-59 | after a RuntimeError the invocation ends only once the instance is stopped, and that instance is never registered again |
| `ManagerSequential.OverlapLosesContainer` | runtime/dsh_capsule/capsule/manager.py:66-72 | a run from the start in which two overlapping first invocations of any capsule start two containers, one of which nothing will stop |
| `ManagerLoss.LosesExactly` | runtime/dsh_capsule/capsule/manager.py:66-72 | from any state of any run, no container newly loses its registration to another one in any continuation without overlapping new invocations, if and only if no invocation that has nothing left to remove finds its capsule registered, and no two invocations of one capsule can both come to start a container |
| `ManagerShutdown.RunsBegin` | runtime/dsh_capsule/capsule/manager.py:86-89 | a shutdown can begin in every state of every run, and the next two results apply to it |
| `ManagerShutdown.SweepStopsAllExactly` | runtime/dsh_capsule/capsule/manager.py:86-89 | from the snapshot of a shutdown, once the sweep and all invocations are over every container has been stopped (or its stop failed, or it was lost before), in every continuation without new invocations, if and only if no invocation in flight at the snapshot can come to start a container |
| `ManagerShutdown.AllGoneIfStopsWork` | runtime/dsh_capsule/capsule/manager.py:86-89 | in such a run without a failing stop every container that was registered or being stopped at the snapshot has been stopped, and its stop has worked |
| `ManagerShutdown.SweepStopsBrokersExactly` | runtime/dsh_capsule/capsule/manager.py:73-90 | no broker is left registered after it, if and only if, besides, no broker is being started at the snapshot and every registered broker has a registered instance |
| `ManagerContainers.ConservedOn` | runtime/dsh_capsule/capsule/manager.py:63-90 | during a shutdown too: started - stopped = registered + being torn down + being stopped by the sweep + lost |
| `RuntimeSystem.StagedAlways` | runtime/dsh_capsule/broker/server.py:74-107 | in every interleaving of the whole runtime every call has passed its own stages, in order: the first entry for its provider, a lease for its session, instance, provider, resource and action, the credential of that entry, its own operation; a result is delivered only from the last and within 2097152 bytes |
| `RuntimeSystem.JobsOnlyAdvance` | runtime/dsh_capsule/broker/server.py:74-107 | no stage is dropped or rewritten, and a call that failed or delivered reaches no other stage |
| `RuntimeSystem.ArrivalSession` | runtime/dsh_capsule/broker/server.py:87-93 | a call carries the session of the invocation holding its capsule's lock when it arrives; with none it stops before any lease request |
| `SystemLaws.ArrivalLaw` | runtime/dsh_capsule/broker/server.py:74-93 | what an arriving call does: stopped by the policy, stopped without a session, refused for a lifetime outside 1 to 1800 seconds, or on with the lifetime of the first entry |
| `SystemLaws.HandedLaw` | runtime/dsh_capsule/broker/server.py:89-95 | a call holds exactly the lease it is handed, and goes on exactly if its provider is known |
| `SystemLaws.FinishLaw` | runtime/dsh_capsule/broker/server.py:100-107 | a result is delivered if and only if there is one of at most 2097152 bytes |
| `SystemLaws.HostIsShownTheCall` | runtime/dsh_capsule/broker/server.py:89-93 | in every run an approval for a brokered call showed the call's capsule, provider, resource, action and its entry's lifetime, and the lease issued for it has this capsule and lifetime |
| `SystemLeases.NoLeaseOutlivesContainer` | runtime/dsh_capsule/lease/gateway.py:20-30 | a call that arrives after an instance was torn down never holds one of that instance's leases |
| `SystemLeases.LeasesEndExactly` | runtime/dsh_capsule/capsule/manager.py:57-62 | once an instance is gone, no call newly comes to hold a lease for it in any continuation, if and only if no lease request of a call on its broker is still alive: in flight, for a well-formed resource, and not having read a revocation of its session |
| `SystemLeases.GoneReached` | runtime/dsh_capsule/capsule/manager.py:57-85 | every state of every run without overlapping invocations in which an instance is gone qualifies for it |
| `SystemRevocation.ExecutesAfterwardsExactly` | runtime/dsh_capsule/broker/server.py:89-99 | once a lease is revoked or expired, a call can newly come to execute an operation under it if and only if it holds the lease already, or its lookup has read it and will hand it out |
| `SystemTime.CallsEndInTime` | sdk/python/dsh_capsule_sdk/broker.py:4 | on schedule, a call under way is at most 345 seconds and six segments past its arrival, and an instant more for each lease issued since; if these extras fit into 15 seconds, the 360 seconds of the caller cover it |
| `SystemTime.OperationsEndInTime` | runtime/dsh_capsule/broker/server.py:94-97 | on schedule, a provider operation under way is less than 45 seconds and a segment past its lease's expiry, and 1845 seconds and a segment past its issue |
| `SystemPace.ScheduleLaw` | runtime/dsh_capsule/rpc.py:28-32 | what on schedule means, in numbers: 300 seconds for the host, 30 for the credential, 15 for the operation |
| `SystemPace.CallsCanTakeThatLong` | sdk/python/dsh_capsule_sdk/broker.py:4 | and the bound is sharp: for any permitted call and any d a run on schedule in which it is under way 345 seconds and five segments after its arrival |
| `SystemTime.ScheduleNeverStuck` | runtime/dsh_capsule/rpc.py:30-30 | every run on schedule can go on, on schedule, past any time: no deadline waits for something that cannot happen |
| `SystemWitness.LeaseForDeadInstance` | runtime/dsh_capsule/capsule/manager.py:57-62 | a run without overlapping invocations, for any capsule and permitted action, in which a call is issued a lease for an instance torn down during the approval wait |

## Left out

- BrokerServers.BrokerServer.HandleConn: takes the outcome of each line's call as a parameter; that outcome is the business of `HandleCall`.
- BrokerServers.BrokerServer.HandleCall: runs without interruption; in the whole-runtime machine everything else may happen between its stages.
- BrokerServers.BrokerServer.Start: a flag stands for the listening socket.
- BrokerServers.BrokerServer.Stop: open connections are not modelled; the code leaves them open, although its comment says it closes them.
- LeaseServices.LeaseGateway.Request: makes all its checks at one clock reading; the machine lets the clock move between them.
- CapsuleManagers.CapsuleManager.Invoke: covers one invocation at a time with stops that work; overlapping invocations and failing stops are in the manager machine.
- CapsuleManagers.CapsuleManager.TeardownInstance: its stops work and nothing runs between them; the manager machine has failing stops and interleaving.
- CapsuleManagers.CapsuleManager.EnsureInstance: the same.
- CapsuleManagers.CapsuleManager.RunCall: the context is observed at one instant of an uninterrupted call; the manager machine observes it always.
- CapsuleManagers.CapsuleManager.Shutdown: assumes no invocation in flight and stops that work.
- RpcPeers.RpcConnection.Run: handles each message before it reads the next line; in the machine handling overlaps in any way.
- RpcPeers.PythonRuntime.Start: the spawn works; its output streams are the lines of `HandleLine`.
- `validate` is not a step of the lease machine, because nothing in the runtime calls it; it is `CheckLease`.
- `connect`, `close` and the error for a store that is not connected; `list_leases`.
- The two-peer results (`RpcCorrelation`) are about one Python process; `RpcRestarts` follows Python's calls over restarts, and TypeScript's identifiers are never reused, because its counter goes on. A restart of TypeScript is not part of this model.
- Runs past the manager's `shutdown`, where the locks are cleared: only containers and brokers are followed into it.
- A manager without a broker factory: its calls have no broker and no session.
- The tool name shown with an approval is carried through the gateway and the broker class, but not through the whole-runtime machine.
- A line that is JSON but no object, for the TypeScript peer: the handler throws on null and ignores the others.
- A failed write to the other peer is taken to have put nothing on the wire, and method names are not empty.
- Host methods and the `system.*` and `capsule.*` handlers: any result or error.
- The pending table of the TypeScript peer holds keys and armed timers; the promise callbacks are the `settled` record.
- Docker, sockets, SQLite, JSON, YAML, HTTP and the GitHub provider; `approval.py` and `credentials.py` beyond their outcome and timeouts.
- The host services of the adapter, the command line, the sample capsules and the SDK server loop.
