# Effect guards, verified

A Dafny model of the parts of the repository that guard irreversible effects, and of the algorithms
they rest on. Each guard writes a durable intent before an effect, latches faults and refuses to
replay what is uncertain. The model keeps the form of the code: objects whose methods change their
fields, loops that compute what a simple definition says, and pure functions where the code is pure.
Every collaborator (clock, transport, executor, job, queue, tracker, native window, disk) is an
oracle: it may answer anything, raise, and, where the code lets it, call back into the object that
called it. The control plane's collaborators follow a script, so that what they may do can also be
spoken of before a call. Every durable write may be lost, kept or quarantined, and a crash may come between any
two steps.

Contracts say both what never happens and what does: beside the oracles there are calm worlds, in which
nobody interferes and every collaborator gives a stated answer, and what each operation then comes to is
stated case by case. For the control plane that is a smooth script, whose next answers all come and
call nothing back; after the end of a script no answer comes at all. `Gateway.Ask`, `Conversation.Converse`, `ResetSupervisor.RunsThrough` and
`Epochs.Reset` run whole sequences of operations through such worlds.

What any run keeps is proved over methods named `AnyRun`, which take any number of steps in any
order with any answers from outside.

| file | component |
|---|---|
| `control_plane.dfy` | command dispatch over a shared journal: at most one effect per command, intent first, one-shot confirmations |
| `gateway.dfy` | single-slot gateway client with fallback and cleanup proof; the revisioned configuration that owns it |
| `conversation.dfy` | generation leases of a shared voice owner, and the conversation that holds them |
| `records.dfy`, `delivery.dfy` | atomic records; marked comments and pointer delivery |
| `reset_supervisor.dfy` | native clear and prompt, one of each per sealed package |
| `epochs.dfy` | epochs of the orchestration journal, and maintenance recovery over two files |
| `reachability.dfy`, `grants.dfy` | closures; grants that follow only their own ticket's progress |
| `lineage.dfy` | descendants, ancestors and effective views of an artifact index |
| `finding_scan.dfy`, `receipt.dfy` | the chunked scan of captured output; the bounded receipt |
| `ownership.dfy` | reservations of checkouts, files, resources and reviewers |
| `intervals.dfy` | the length of a union of intervals |
| `transcript.dfy` | incremental transcript scanning and its event log |
| `wrappers.dfy` | `Option`, and the oracle |

## Findings

- A preview does not always hold back an unconfirmed command. Dispatch reads the journal once, and a
  callback of that dispatch may journal a preview after the read (runtime/core.py:251-280). A command
  previewed before the call has no effect. Its effect follows a preview exactly when one was journaled
  by a callback of that very call: never if no callback asks for it, and always if the first clock
  callback of an executable command does (`ControlPlane.ControlPlane.Dispatch`).
  `ControlPlane.Overtaken` drives dispatch into it, for any command that a fresh system would execute.
- The chunked scan (ops/orchestration/artifacts.py:81-95) is right for keywords of up to 17 bytes and
  for whole-line words shorter than the 16-byte overlap, which covers the pattern in use. Neither bound
  can be wider: `FindingScan.LongKeywordMissed` and `FindingScan.LongLineMisleads` give, for every word
  just above it, a line on which the scan is wrong.
- A receipt may be printed one byte over its limit (ops/orchestration/artifacts.py:307): its size is
  bounded before `print` adds a newline. The newline fits for every output exactly when the receipt
  without its summary leaves more than 4096 bytes (`Receipt.Capture`); otherwise a run that prints
  enough and finds nothing goes over (`Receipt.NewlineOverflows`).
- Reading the supervisor's record does not look for quarantined residue, unlike reading the delivery
  ledger (ops/orchestration/auto_reset.py:476-484). A quarantined record reads as "monitoring", and
  only the refusal of the next save keeps the supervisor from acting on it
  (`ResetSupervisor.Supervisor.Step`).
- A recovery that finds its own intent skips the write that would make it durable
  (ops/orchestration/loop.py:1519-1525), so after a loss of power the routing may have moved while the
  journal shows no intent: `Epochs.LoseIntent` gets there. A rerun still ends in the same two files
  (`Epochs.RerunAgrees`).
- A write to the event log that is cut short goes unnoticed (ops/orchestration/session_context.py:511-520).
  The poll goes on and moves its checkpoint past the event. An event is kept exactly when its write lost
  at most its newline, the write before it was complete, and nothing was written after a lost newline
  (`Transcript.KeptExactly`); the log can be read, and later polls are not refused, exactly as long as
  every event is kept (`Transcript.ReadableExactly`). A lost newline alone does no harm until the next
  write, which then runs into the line before it and takes both with it.

## Model

| member | source | states |
|---|---|---|
| `ControlPlane.Journal.Append` | runtime/journal.py:64-76 | an event is stored once under its identifier; an equal one is accepted again, a conflicting or late one is refused and changes nothing |
| `ControlPlane.Journal.Read` | runtime/journal.py:78-82 | an open journal shows everything appended |
| `ControlPlane.Catalog` | runtime/core.py:50-63 | every entry stands under its own identifier, and is one of the given ones |
| `ControlPlane.CatalogListed` | runtime/core.py:50-63 | a catalog has as many entries as the list exactly when no identifier is repeated |
| `ControlPlane.CatalogFinds` | runtime/core.py:50-63 | every entry of such a list is found under its identifier |
| `ControlPlane.SnapshotsCoherent` | runtime/core.py:50-63 | a snapshot is taken exactly of at most 256 distinct entries of one positive revision |
| `ControlPlane.RefusedUnlessAuthorized` | runtime/core.py:147-170 | a command is refused exactly when it lacks some part of what profile, policy, catalog entry, confirmation and argument types ask of it |
| `ControlPlane.RefusalNamed` | runtime/core.py:147-170 | a refusal has a code exactly when its cause applies and no cause that is looked for earlier does |
| `ControlPlane.ControlPlane.constructor` | runtime/core.py:76-88 | a restart begins with no memory of commands or tokens, and keeps every guarantee the journal carries |
| `ControlPlane.ControlPlane.ReplaceCatalog` | runtime/core.py:106-127 | succeeds exactly on a complete, uniform, strictly newer catalog against the expected version while no use is under way; no token survives it |
| `ControlPlane.ControlPlane.Write` | runtime/core.py:136-145 | a write that reports success left the event in the journal; an execution event reads the clock before its identifier and an observation after it; on a smooth script the record is exactly that |
| `ControlPlane.ControlPlane.Callback` | runtime/core.py:95-104 | a collaborator may call every operation back, in any number and to any depth, and leaves behind only what one plane may do |
| `ControlPlane.ControlPlane.Observe` | runtime/core.py:172-179 | observations are journaled and are never execution receipts |
| `ControlPlane.ControlPlane.GuardDenial` | runtime/core.py:38-47 | a guard that does not answer yes makes the context stale, and its answer is on record with the journal length; without a guard nothing happens |
| `ControlPlane.ControlPlane.Consult` | runtime/core.py:251-262 | the journal is read as it is at the call, and the command is taken only if neither it nor this plane knows it |
| `ControlPlane.ControlPlane.Review` | runtime/core.py:251-265 | a command passes only if never seen by this plane nor executed by any, authorized at the current version, not previewed in the journal as it was at the call unless confirmed, and with a yes of its guard since; on a smooth script it comes to exactly the first objection there is |
| `ControlPlane.ControlPlane.Intend` | runtime/core.py:270-277 | the intent is journaled, and a guard says yes after it; on a smooth script it stops exactly if the guard says no |
| `ControlPlane.ControlPlane.Perform` | runtime/core.py:270-280 | the effect happens after its intent is journaled and, if guarded, after a second yes that came after the intent; the read point is the journal length at the call; the result is what its executor answered, or uncertain |
| `ControlPlane.ControlPlane.Execute` | runtime/core.py:279-285 | the result has the status that the executor answered, or is uncertain; with an answer and an identifier it is exactly what that answer comes to |
| `ControlPlane.ControlPlane.Complete` | runtime/core.py:286-292 | an effect whose completion is not journaled is claimed only as uncertain, and one whose completion is journaled as it was |
| `ControlPlane.ControlPlane.Proceed` | runtime/core.py:248-285 | how far a dispatch gets: an effect with its executor's answer, a cancellation, or a denial with its code |
| `ControlPlane.ControlPlane.Attempt` | runtime/core.py:248-285 | an effect implies an uncancelled, unseen, admitted command; a denial implies none; with a clock callback that requests confirmation there is an effect, after its preview |
| `ControlPlane.ControlPlane.Decide` | runtime/core.py:248-292 | a result and the effect behind it agree, the status claimed is the one the executor answered unless it is uncertain, claimed outcomes are journaled, and the effect follows a preview exactly when one was shown since the call |
| `ControlPlane.ControlPlane.Dispatch` | runtime/core.py:236-246 | the returned and journaled status is the one that this call's executor answered, or uncertain, and on a smooth script the result is exactly the first objection, the cancellation or that answer; a command previewed before the call has no effect; an effect follows a preview exactly when a callback of this call had one journaled, never if no callback asks for it, always if the first clock callback does |
| `ControlPlane.ControlPlane.Refuse` | runtime/core.py:207-214 | a refused confirmation spends its command, and is journaled as denied with its code |
| `ControlPlane.ControlPlane.Confirm` | runtime/core.py:216-234 | a token is consumed whatever follows; an effect implies its own command and key, approval, a listed channel and the current version, and its result is receipted like a dispatch's; on a smooth script the result is exactly what channel, key, time, guard and dispatch make of it |
| `ControlPlane.ControlPlane.Redeem` | runtime/core.py:221-234 | the same for the checks between consuming a token and dispatching its command |
| `ControlPlane.ControlPlane.Vet` | runtime/core.py:221-233 | what speaks against a confirmation: its channel, key, time or guard, in this order, or a journal that does not take it |
| `ControlPlane.ControlPlane.RequestConfirmation` | runtime/core.py:187-205 | a token is handed out only for an eligible command whose preview is journaled, for 30 seconds from the clock's reading |
| `ControlPlane.ControlPlane.Offer` | runtime/core.py:192-205 | tokens are new and follow their journaled preview; without callbacks they stay within 128, and an eligible request succeeds |
| `ControlPlane.ControlPlane.Draft` | runtime/core.py:195-199 | a token is drafted exactly when the ones still in time leave room |
| `ControlPlane.ControlPlane.Expire` | runtime/core.py:196 | exactly the tokens whose time is over are dropped |
| `ControlPlane.ExecuteKeeps` | runtime/core.py:270-280 | the one executing step keeps at most one effect per command, one per token, each after its intent |
| `ControlPlane.GuardedTwice` | runtime/core.py:263-277 | a guarded effect has a yes after the journal was read and another after its intent was journaled |
| `ControlPlane.Overtaken` | runtime/core.py:251-280 | for any command that a fresh system would execute, a dispatch that executes it, unconfirmed, after its preview |
| `ControlPlane.ActsTransitive` | runtime/core.py:95-104 | whatever callbacks do in sequence is again what one plane may do: catalogs in use stay, versions grow, new effects are of commands unseen before, and previews appear only where an operation asked for one |
| `ControlPlane.OthersKeep` | runtime/core.py:248-258 | one plane's activity leaves every other plane's pending tokens unconsumed and apart |
| `ControlPlane.AnyRun` | runtime/core.py:66-292 | any planes, restarts, callbacks, failing reads and appends, colliding identifiers: each command has at most one effect, after its intent and its guard's two yeses, and each token at most one use |
| `Gateway.GatewayClient.constructor` | runtime/gateway/client.py:145-161 | a new client is idle, clean and faultless |
| `Gateway.GatewayClient.Invoke` | runtime/gateway/client.py:229-234 | a callback may re-enter every operation, yet leaves behind only signals: a requested cancellation and closed admission |
| `Gateway.GatewayClient.Interruption` | runtime/gateway/client.py:239-254 | the first reading fixes the one deadline; a missing or backward reading latches a clock fault; a cancellation or a passed deadline stops the call; a calm one in time does not |
| `Gateway.GatewayClient.Start` | runtime/gateway/client.py:256-273 | admits exactly an idle, open, faultless client and a fresh, matching request, with its own code for each refusal, which changes nothing; in a calm a welcome request is under way with a job |
| `Gateway.GatewayClient.BeginRoute` | runtime/gateway/client.py:275-333 | one attempt of the current route, in the deadline, ending in a held job, the fallback or a result; in a calm a welcome call gets its job |
| `Gateway.GatewayClient.Preflight` | runtime/gateway/client.py:276-303 | the clock is read, the provider and a host's peer are accepted, and the clock is read again: what begins has exactly what that last reading leaves |
| `Gateway.GatewayClient.Approach` | runtime/gateway/client.py:284-303 | admission and attestation, and then the reading that is the budget |
| `Gateway.GatewayClient.Admit` | runtime/gateway/client.py:284-296 | the provider serves the request, or its exact code; a host passes exactly when the peer it shows is its own, which is on record |
| `Gateway.GatewayClient.CheckProvider` | runtime/gateway/admission.py:51-59 | catalog, identity, service and health are asked in this order, each with its code |
| `Gateway.GatewayClient.Measure` | runtime/gateway/client.py:297-303 | the last reading before the effect leaves time, and it is the budget |
| `Gateway.GatewayClient.Effect` | runtime/gateway/client.py:304-330 | only permitted, and neither closed nor cancelled when it happens, and always then if no permit is asked for; the begin is refused atomically, thrown and unproven, or a job that is held |
| `Gateway.GatewayClient.Launch` | runtime/gateway/client.py:304-333 | a begin that was not permitted, threw or was refused ends the attempt with canceled, provider_failed or its own code |
| `Gateway.GatewayClient.Permitted` | runtime/gateway/client.py:304-313 | a configuration's permit is asked with the reading the begin will carry, and decides exactly |
| `Gateway.GatewayClient.Retire` | runtime/gateway/client.py:335-344 | a held job is cancelled once, and only a proof makes it clean |
| `Gateway.GatewayClient.Finish` | runtime/gateway/client.py:346-371 | the call ends with one explained result, or falls back; in a calm exactly the verdict on what is reported; begin and finish terminate together |
| `Gateway.GatewayClient.Clear` | runtime/gateway/client.py:346-350 | cleanup is proven exactly when the cancelled job proves it and the provider does not itself report it failed |
| `Gateway.VerdictMeans` | runtime/gateway/client.py:346-371 | a call falls back exactly on an uninterrupted, cleanly retired host failure of three codes with a local route left; it succeeds exactly on an uninterrupted output with proven cleanup; a failed one tells the primary failure, the interruption or else the reported failure, and the lack of cleanup, in this order |
| `Gateway.GatewayClient.PollJob` | runtime/gateway/client.py:377-393 | one look at the job between two readings of the clock: the first interruption, or what the job's answer comes to |
| `Gateway.GatewayClient.Hear` | runtime/gateway/client.py:383-393 | what the job brought is logged; an exception counts at once, and any other answer exactly as what it stands for if the second reading leaves the call going |
| `Gateway.GatewayClient.Receive` | runtime/gateway/client.py:398-418 | a reply is an output exactly when it is decoded and, from a host, has status 200 and comes from the route's own peer; every other one is exactly its failure code |
| `Gateway.GatewayClient.Weigh` | runtime/gateway/client.py:389-396 | nothing before the second reading, its interruption, or what the reply amounts to |
| `Gateway.GatewayClient.Poll` | runtime/gateway/client.py:373-396 | a result is handed out exactly once; a success or a degraded success means that the logged answer is a decoded one, from a host with status 200 of its own peer; a failure is the exact one that the answer stands for, an interruption or a lack of cleanup; in a calm, exactly which |
| `Gateway.Ask` | runtime/gateway/client.py:256-418 | in a calm an admitted, welcome request is answered by the next poll: with the host's output, or exactly its failure where no local route is left |
| `Gateway.GatewayClient.Cancel` | runtime/gateway/client.py:420-427 | outside a callback the call is over on return; inside it is only marked |
| `Gateway.GatewayClient.Disable` | runtime/gateway/client.py:217-223 | only the owner closes admission, and what ran is ended |
| `Gateway.GatewayClient.Reconfigure` | runtime/gateway/client.py:197-215 | an idle, faultless client only; faults, history and results stay |
| `Gateway.GatewayClient.ClaimConfiguration` | runtime/gateway/client.py:163-173 | one owner at most, of an idle faultless client, which starts disabled |
| `Gateway.EffectKeeps` | runtime/gateway/client.py:304-330 | a begin gets exactly what the deadline leaves, host first and then local, under the owner's authority if there is one |
| `Gateway.RetireKeeps` | runtime/gateway/client.py:335-344 | one cancel per returned job; a proof retires every begin of the call |
| `Gateway.EndSound` | runtime/gateway/client.py:346-371 | an ended call leaves the client idle with its result, and unclean only with a latched fault |
| `Gateway.EndExplained` | runtime/gateway/client.py:346-371 | a result has at most three failures, starts with the primary one and is what the last begin caused; success means that a decoded answer was brought and every begin is retired; an unavailable or failing host is not the end where a local route was left and cleanup is proven |
| `Gateway.FallbackReady` | runtime/gateway/client.py:359-366 | the local route follows only a cleanly retired host failure coded unavailable, provider_failed or timeout |
| `Gateway.HandOut` | runtime/gateway/client.py:394-395 | a waiting result belongs to the last ended call, and handing it out empties the slot |
| `Gateway.CallsAccountedFor` | runtime/gateway/client.py:136-144 | every ended call: at most one host begin, then at most one local, inside one deadline with what it leaves, on an open client that nobody had asked to stop, every job cancelled exactly once, one result explained by what its jobs brought, its own identifier |
| `Gateway.CleanupAccountedFor` | runtime/gateway/client.py:225-227 | proven cleanup means every begin of every call is retired |
| `Gateway.AnyRun` | runtime/gateway/client.py:136-427 | every run keeps all of this; after a fault no call begins or ends, and routes, permit and owner stay |
| `Gateway.Configuration.constructor` | runtime/providers/configuration.py:78-89 | an owner starts disabled at revision 0 over an idle client |
| `Gateway.Configuration.Stage` | runtime/providers/configuration.py:96-127 | stages exactly what binds routes, manifests and evidence role by role, under the current revision |
| `Gateway.Configuration.Observe` | runtime/providers/configuration.py:133-145 | taken exactly of a staged candidate's own manifest at a time not before its last one |
| `Gateway.Configuration.Approve` | runtime/providers/configuration.py:147-158 | a receipt is new and names one candidate |
| `Gateway.Configuration.Reject` | runtime/providers/configuration.py:168-174 | a rejected candidate loses its receipts, and nobody else does |
| `Gateway.Configuration.Time` | runtime/providers/configuration.py:176-181 | time that goes back latches a clock fault |
| `Gateway.Configuration.Activate` | runtime/providers/configuration.py:213-238 | activates exactly an eligible, evaluated, runnable candidate with its receipt on an idle gateway, or changes neither side; afterwards both routes keep their peers and serve what their manifests say, enabled and with the observed health, and a new fitting request is admitted |
| `Gateway.Configuration.Binds` | runtime/providers/configuration.py:100-122 | what may be staged, check by check: roles, fallback policy, bindings, distinct providers and evidence |
| `Gateway.Configuration.Promotion` | runtime/evaluation.py:35-78 | an approved, revocable comparison promotes exactly a proven run of the same bundle, source and cases without a failure |
| `Gateway.Configuration.Evaluation` | runtime/providers/configuration.py:191-211 | every retained role is promoted against its own baseline, and a new one passes by itself under a bootstrap |
| `Gateway.Configuration.Healthy` | runtime/providers/configuration.py:183-189 | an observation counts while it is recent and good enough for the policy |
| `Gateway.Configuration.CheckBudgets` | runtime/providers/records.py:141-156 | the summed resources of each place keep within its budget, accelerators counted as memory where it is shared |
| `Gateway.Configuration.Runs` | runtime/providers/configuration.py:221-225 | every manifest is healthy now, the budgets hold, and a revision is left |
| `Gateway.Configuration.Publish` | runtime/providers/configuration.py:230-238 | the receipt is consumed and the revision grows by one |
| `Gateway.Configuration.Rebind` | runtime/providers/configuration.py:222-229 | the gateway's routes become the candidate's manifests: the staged peers, the providers enabled with the observed health, and no fitting request for a manifest's service is denied by its provider |
| `Gateway.Configuration.Permit` | runtime/providers/configuration.py:240-256 | yes exactly while the state is active, for a matching manifest with fresh health, within budgets, at forward time |
| `Gateway.Configuration.Disable` | runtime/providers/configuration.py:258-263 | closes admission under a new revision, with nothing left running |
| `Gateway.Configuration.Restore` | runtime/providers/configuration.py:265-273 | old content returns only as a new candidate |
| `Gateway.OneActivationPerBaseline` | runtime/providers/configuration.py:213-238 | among the candidates staged against one revision at most one is ever activated; receipts are used once and revisions strictly increase |
| `Gateway.AnyConfiguredRun` | runtime/providers/configuration.py:70-273 | through a claimed gateway every begin effect ran while an activated revision covered it, whoever did what in between |
| `Gateway.AnyForeignStep` | runtime/gateway/client.py:163-223 | anyone but the owner who tries to close, rebind or claim the client changes nothing |
| `Conversation.SessionOwner.Begin` | runtime/voice/session.py:38-49 | admits exactly when idle, under a generation never given before |
| `Conversation.SessionOwner.Cancel` | runtime/voice/session.py:51-65 | invalidates the holder, or only the named one; frees nothing |
| `Conversation.SessionOwner.Release` | runtime/voice/session.py:73-85 | only the holder's report counts, and is filed once; an unproven one latches the fault |
| `Conversation.SessionOwner.Others` | runtime/voice/session.py:38-85 | other clients, who release only their own generations, file nothing on the conversation's and cannot take its lease |
| `Conversation.FollowsTransitive` | runtime/voice/session.py:38-85 | over any sequence generations grow, a lease once refused stays refused, and a fault stays |
| `Conversation.Conversation.constructor` | runtime/voice/conversation.py:23-35 | starts inactive, without a lease, before anything was given to it |
| `Conversation.Conversation.Check` | runtime/voice/conversation.py:73-79 | exactly why work may not go on: no snapshot, the intent, or a changed snapshot or refused lease |
| `Conversation.Conversation.Invalidate` | runtime/voice/conversation.py:81-87 | the intent is recorded, a cancelled turn giving way and an end or a handoff overriding, and the lease is no longer accepted |
| `Conversation.Conversation.Settle` | runtime/voice/conversation.py:89-106 | an operation that halts, or is cancelled, gives its lease back before it returns; in a calm it shows exactly how the work ended |
| `Conversation.Conversation.Cleanup` | runtime/voice/conversation.py:108-118 | clean only if the held job proved it and no earlier doubt exists |
| `Conversation.Conversation.Stop` | runtime/voice/conversation.py:120-149 | the lease is reported exactly once, and work goes on only under a new lease after a clean cancel, and in a calm always then |
| `Conversation.Conversation.Reconsider` | runtime/voice/conversation.py:122-128 | a cancelled turn ends the conversation exactly when the snapshot is gone or another one |
| `Conversation.Conversation.Conclude` | runtime/voice/conversation.py:130-149 | the report says clean exactly when cleanup was; a fault shows as broken |
| `Conversation.Conversation.Renew` | runtime/voice/conversation.py:139-145 | a new lease is a new generation; another client may win the gap and is not taken over |
| `Conversation.Conversation.Enter` | runtime/voice/conversation.py:151-171 | opens only from inactive, with a fresh lease and an empty history; in a calm exactly when the snapshot, the entry and the owner admit it, and otherwise with the first obstacle's code |
| `Conversation.Conversation.Eligible` | runtime/voice/conversation.py:60-71 | policy, context and entry of a snapshot, in this order, each with its code |
| `Conversation.Conversation.Size` | runtime/voice/conversation.py:173-175 | the sum over the snapshot's items and both sides of every exchange |
| `Conversation.Conversation.StartJob` | runtime/voice/conversation.py:177-192 | the job counts as begun and unproven from before the factory is called |
| `Conversation.Conversation.Submitting` | runtime/voice/conversation.py:197-219 | a turn is admitted only when ready and within the limits, with the next turn number and the current lease; a limit halts it only when the turns are used up or the text does not fit, unless that was the intent before; in a calm exactly the code that state, snapshot, text and job call for, and a line within the limits is done |
| `Conversation.Conversation.Submit` | runtime/voice/conversation.py:194-220 | history is kept or dropped whole, and a lease that changed was reported; in a calm a token is given exactly for an admitted line, under the same lease, and a limit or an exit phrase ends the conversation with that code |
| `Conversation.Conversation.Clarified` | runtime/voice/conversation.py:226-239 | only the pending token and the snapshot's conflict are answered; in a calm exactly then |
| `Conversation.Conversation.Clarify` | runtime/voice/conversation.py:222-240 | as for submit |
| `Conversation.Conversation.Polling` | runtime/voice/conversation.py:243-280 | an exchange is published only uncancelled, with an accepted lease at that moment; in a calm exactly what the job's answer calls for |
| `Conversation.Conversation.Receive` | runtime/voice/conversation.py:255-280 | only the pending request's answer, within the limits, after its job proved cleanup; a wrong token is an invalid result and a text that does not fit a limit, exactly; in a calm so is every other code |
| `Conversation.Conversation.Poll` | runtime/voice/conversation.py:242-281 | at most one exchange is added, the returned one; in a calm an answer in order is published under the same lease |
| `Conversation.Conversation.ExitKey` | runtime/voice/conversation.py:283-300 | a matching key ends the lease, and in a calm is recognised exactly when work could go on |
| `Conversation.Conversation.Cancel` | runtime/voice/conversation.py:302-311 | a held lease is over on return, and in a calm the work ends as the cleanup, the intent and the snapshot call for; without a lease nothing changes |
| `Conversation.Converse` | runtime/voice/conversation.py:151-281 | in a calm a conversation opens, takes a line that fits, and publishes the answer to it |
| `Conversation.ReleaseKeeps` | runtime/voice/conversation.py:131-138 | one report, filed with the owner, ends a tenure, clean only if every job created under it proved cleanup, and a bad one faults the owner |
| `Conversation.Published` | runtime/voice/conversation.py:266-279 | context plus history stays within its limit and turns strictly increase |
| `Conversation.RunSound` | runtime/voice/conversation.py:22-320 | every generation the owner ever gave to the conversation is a past tenure with exactly one report on file, clean only if every job proved cleanup, or the current lease with none; and what holds of the owner, earlier leases and the history |
| `Conversation.AnyRun` | runtime/voice/conversation.py:22-320 | every run keeps it, with other clients and cancellations between any two steps: each generation taken is released exactly once |
| `Records.Record.Read` | ops/orchestration/records.py:44-52 | residue refuses; absence is an answer |
| `Records.Record.AtomicWrite` | ops/orchestration/records.py:55-86 | an acknowledged write leaves only the new record; any other adds at most the new and then a quarantined one to what may come back; residue refuses |
| `Records.Record.Write` | ops/orchestration/records.py:55-86 | exactly what each way a write may go leaves for a loss of power to bring back |
| `Delivery.MarkedCarries` | ops/orchestration/communication.py:87-96 | a marked body carries exactly its own operation |
| `Delivery.Store.EnsureComment` | ops/orchestration/communication.py:117-142 | at most one comment per operation and issue, over all retries and crashes; a second write only after a reported failure and a read that shows nothing; what is returned is that one comment with this body; if it runs to its end, it is returned exactly when the store held it or kept a permitted write |
| `Delivery.Operation.Deliver` | ops/orchestration/communication.py:193-237 | at most one enqueue; only of a pointer to the one stored comment, after a durable intent; a receipt names the one message; an uncertain or foreign ledger holds |
| `Delivery.Operation.DeliverAs` | ops/orchestration/communication.py:193-237 | the same with given fates: a delivery that is due is enqueued and its answer recorded, one that was enqueued is receipted again, and any other holds |
| `Delivery.Operation.Enqueue` | ops/orchestration/communication.py:226-237 | an accepted message is recorded with its receipt, a proven refusal as one more failure that a retry may follow, and a lost answer as uncertain |
| `Delivery.Operation.AnyRun` | ops/orchestration/communication.py:184-237 | any retries, crashes and losses of power: at most one enqueue, and every receipt ever returned names it |
| `ResetSupervisor.Supervisor.Status` | ops/orchestration/auto_reset.py:476-481 | an absent record reads as monitoring, residue or not |
| `ResetSupervisor.Supervisor.Check` | ops/orchestration/native_window.py:205-225 | the bound window is found only in the boot in which its processes run |
| `ResetSupervisor.Supervisor.Prepare` | ops/orchestration/auto_reset.py:652-716 | a package is new and nothing is input before it is saved; in the quiet a released boundary always gets one |
| `ResetSupervisor.Supervisor.Clearing` | ops/orchestration/auto_reset.py:944-963 | the clear comes after its durable intent, with the start recorded there; in the quiet exactly when the old context is idle and the window is there |
| `ResetSupervisor.Supervisor.Prompting` | ops/orchestration/auto_reset.py:964-1016 | the prompt goes to the proven context, the refused one if there was one, in the bound window, on a reading from 0 to 120 seconds after the start; in the quiet exactly when that context is titled, found and empty |
| `ResetSupervisor.Supervisor.Queueing` | ops/orchestration/native_window.py:596-610 | a refusal proves that nothing was dispatched; nothing else does |
| `ResetSupervisor.Supervisor.Step` | ops/orchestration/auto_reset.py:911-1039 | at most one input, and none from a quarantined record; a quiet step takes exactly what is due in its phase |
| `ResetSupervisor.Supervisor.Watch` | ops/orchestration/auto_reset.py:920-930 | with no reset under way the phase stays, and a reset that is due is prepared |
| `ResetSupervisor.RunsThrough` | ops/orchestration/auto_reset.py:911-1039 | in the quiet a due reset is prepared, cleared once, prompted once and verified in four steps |
| `ResetSupervisor.Supervisor.Release` | ops/orchestration/auto_reset.py:615-650 | a release at any moment breaks no guarantee |
| `ResetSupervisor.Supervisor.Recover` | ops/orchestration/auto_reset.py:1108-1243 | an attempt is retired without input only when accepted and expired, and in the quiet always then |
| `ResetSupervisor.EffectKeeps` | ops/orchestration/auto_reset.py:956-1003 | an input that fits the trace is consistent with every state a restart may read |
| `ResetSupervisor.OncePerPackage` | ops/orchestration/auto_reset.py:911-1039 | at most one clear and one dispatched prompt per package, the prompt after its clear, on a reading from 0 to 120 seconds after its start, all attempts to one context |
| `ResetSupervisor.Supervisor.AnyRun` | ops/orchestration/auto_reset.py:911-1039 | every run with every crash, failed save, loss of power and concurrent release keeps that, though the clock starts again with the machine |
| `Epochs.Loop.Prepare` | ops/orchestration/loop.py:1102-1248 | a new package becomes pending, and the epoch stays; nothing but a refusal or a failed save prevents it |
| `Epochs.Loop.Bootstrap` | ops/orchestration/loop.py:1290-1391 | the routing, its transcript and its notifications move to the fresh context; only a manual reset earns its epoch here; every other field is told |
| `Epochs.Loop.Acknowledge` | ops/orchestration/loop.py:1393-1431 | consumes exactly the pending, bootstrapped package for one epoch, and leaves nothing of the reset pending, field by field |
| `Epochs.Loop.Recover` | ops/orchestration/loop.py:1433-1526 | finishes exactly as an uninterrupted run would from what the two files show; field by field: maintenance only, a reset requested, nothing pending, the grant's session, the earlier recovery on record and the failed reset in the new one, all counters as they were, and the routing moved |
| `Epochs.Loop.RecoverAs` | ops/orchestration/loop.py:1433-1526 | the same, with exactly what each fate of its writes leaves of the two files, and finishing whenever the files admit it and the writes are acknowledged |
| `Epochs.Loop.Vet` | ops/orchestration/loop.py:1436-1517 | what the two files must show, check by check |
| `Epochs.UninterruptedMends` | ops/orchestration/loop.py:1451-1490 | what an uninterrupted run makes of the two files, field by field |
| `Epochs.Loop.Transfer` | ops/orchestration/loop.py:1522-1525 | routing first, journal second, both behind the intent |
| `Epochs.ConsumedCounts` | ops/orchestration/loop.py:1418-1430 | an increment adds one epoch and one package never counted before |
| `Epochs.RerunAgrees` | ops/orchestration/loop.py:1433-1526 | wherever the first run stopped, a rerun reaches the same journal and routing, counters unchanged |
| `Epochs.LoseIntent` | ops/orchestration/loop.py:1519-1525 | two interrupted recoveries and a loss of power leave the routing moved and no intent, from where a rerun ends as it should |
| `Epochs.Reset` | ops/orchestration/loop.py:1102-1431 | an automatic reset that nothing stops earns one epoch for its own package, from its preparation to its receipt |
| `Epochs.AnyRecovery` | ops/orchestration/loop.py:1433-1526 | any number of interrupted attempts stay on that path, and one that finishes is at its end |
| `Epochs.AnyRun` | ops/orchestration/loop.py:1102-1526 | in every reachable journal the epochs are as many as the distinct packages they consumed |
| `Reachability.ClosureIsReach` | ops/orchestration/loop.py:28-41 | the fixpoint is exactly what a path reaches |
| `Reachability.Scope` | ops/orchestration/loop.py:28-41 | the loop computes it |
| `Grants.ExcludedScope` | ops/orchestration/loop.py:76-86 | a ticket is excluded exactly when a path leads from it to a quarantined one |
| `Grants.TouchingDeterminesScope` | ops/orchestration/loop.py:28-54 | the hashed relations determine the closure that selected them |
| `Grants.SamePrintProgressed` | ops/orchestration/loop.py:28-54 | equal fingerprints mean an equal scope |
| `Grants.BesidePrintProgressed` | ops/orchestration/loop.py:57-73 | equal fingerprints beside the ticket mean that only its four fields and added comments differ |
| `Grants.BesideExactly` | ops/orchestration/loop.py:57-73 | and they agree whenever that is all, and no known comment became one of the ticket or changed on it |
| `Grants.ProgressedTransitive` | ops/orchestration/loop.py:872-888 | such changes compose along a run |
| `Grants.Loop.Begin` | ops/orchestration/loop.py:716-812 | a grant begins exactly when admission and the save succeed for an open ticket with a writer and no path to quarantine, and stands on what the tracker and the control file show at that moment |
| `Grants.Loop.Check` | ops/orchestration/loop.py:444-459 | clears exactly the current grant's own operation and ticket on unchanged writer, control and fingerprint; then all that changed in scope since it began is its ticket's progress |
| `Grants.Loop.Transition` | ops/orchestration/loop.py:872-888 | the grant moves to what the tracker shows after its own write, exactly when it clears, nothing else changed and the save succeeds |
| `Grants.Loop.AnyRun` | ops/orchestration/loop.py:848-888 | every interleaving with other writers keeps it |
| `Lineage.Accept` | ops/orchestration/assignment_packet.py:76-84 | accepts exactly the indexes without duplicates whose parents come first |
| `Lineage.Descendants` | ops/orchestration/assignment_packet.py:87-92 | one forward pass finds exactly the transitive descendants |
| `Lineage.Ancestors` | ops/orchestration/assignment_packet.py:95-100 | one backward pass finds exactly the ancestors, listed in index order |
| `Lineage.ForwardStep` | ops/orchestration/assignment_packet.py:89-91 | why one pass suffices forwards |
| `Lineage.BackwardStep` | ops/orchestration/assignment_packet.py:97-99 | and backwards |
| `Lineage.FromOriginal` | ops/orchestration/assignment_packet.py:107-110 | every artifact descends from an original |
| `Lineage.ToHead` | ops/orchestration/assignment_packet.py:105-106 | and leads to a head, so "not exactly one" means "two or more" |
| `Lineage.Crowded` | ops/orchestration/assignment_packet.py:107-110 | an original conflicts exactly when it leads to two heads |
| `Lineage.EffectiveViews` | ops/orchestration/assignment_packet.py:103-111 | refuses exactly on a conflict; otherwise one view per head, in order, whose lineages partition the artifacts |
| `FindingScan.FindingFits` | ops/orchestration/artifacts.py:32-34 | the repository's own pattern fits the overlap |
| `FindingScan.FindingMeans` | ops/orchestration/artifacts.py:32 | the pattern in use matches exactly its four words, "ran" with a digit, or a line that is just OK, in any case |
| `FindingScan.LowerIgnoresCase` | ops/orchestration/artifacts.py:32 | letters are taken as equal exactly when they differ in case at most |
| `FindingScan.FindsAnyCase` | ops/orchestration/artifacts.py:32 | a keyword is found exactly where the text spells it in any case |
| `FindingScan.OccursSplit` | ops/orchestration/artifacts.py:86-89 | a keyword is in the first part or in the second with the carried overlap |
| `FindingScan.SearchExtends` | ops/orchestration/artifacts.py:86-89 | so a longer line matches exactly when a part or an overlap does, whole-line words included |
| `FindingScan.ChunkedIsWhole` | ops/orchestration/artifacts.py:81-95 | for patterns that fit, what the chunks yield is exactly the lines that match whole |
| `FindingScan.LongKeywordMissed` | ops/orchestration/artifacts.py:86-89 | every keyword of 18 bytes is missed on some line |
| `FindingScan.LongLineMisleads` | ops/orchestration/artifacts.py:86-89 | every whole-line word of 16 bytes is found on some longer line |
| `FindingScan.FindingSpans` | ops/orchestration/artifacts.py:81-95 | the chunked scan yields exactly the spans of the lines that match whole, in order |
| `FindingScan.CopySpan` | ops/orchestration/artifacts.py:98-105 | a span is copied whole |
| `FindingScan.WriteFindings` | ops/orchestration/artifacts.py:108-121 | every matching line of every stream, whole and in order, and their count |
| `FindingScan.OutputTail` | ops/orchestration/artifacts.py:124-131 | reading each stream from its end yields the end of all of them together |
| `Receipt.EncodedAppend` | ops/orchestration/artifacts.py:134-136 | the encoded width of JSON strings (section 7 of RFC 8259) is additive |
| `Receipt.EscapedReads` | ops/orchestration/artifacts.py:134-136 | reading a printed JSON string back gives the text, surrogate pairs included |
| `Receipt.DecimalReads` | ops/orchestration/artifacts.py:186-205 | a printed number stands for itself, without a leading zero |
| `Receipt.SignedReads` | ops/orchestration/artifacts.py:186-205 | so does a negative one, behind a minus sign |
| `Receipt.FractionReads` | ops/orchestration/artifacts.py:277 | milliseconds are printed as a fraction of one to three digits |
| `Receipt.PartsGrow` | ops/orchestration/artifacts.py:139-150 | longer heads and tails are strictly wider |
| `Receipt.Fit` | ops/orchestration/artifacts.py:139-150 | the longest head or tail within the budget; it fits exactly when the budget is not negative |
| `Receipt.Summary` | ops/orchestration/artifacts.py:153-162 | fits exactly when its header does; it is the longest head of the findings in half of what the header leaves, the header, and the longest tail in the rest; untruncated exactly when the whole findings fit, and then it shows them all |
| `Receipt.SlackSuffices` | ops/orchestration/artifacts.py:30-31 | the slack covers every field that is wider than its zero |
| `Receipt.Capture` | ops/orchestration/artifacts.py:186-289 | refuses before the launch exactly when the paths leave no room; otherwise the receipt never exceeds 16384 bytes, nor does it with the newline of `print` if more than 4096 bytes are left for the summary |
| `Receipt.NewlineOverflows` | ops/orchestration/artifacts.py:307 | if not, a run whose output is long and holds no finding has its receipt printed with 16385 bytes |
| `Ownership.OverlapIsSharing` | ops/orchestration/ownership.py:120-126 | declarations overlap exactly when some file is covered by both |
| `Ownership.Conflicts` | ops/orchestration/ownership.py:129-156 | each reason is given exactly when some holder shares that key, checkout, file or resource, or a person is on both sides of a review; none exactly when the candidate keeps apart from and independent of all |
| `Ownership.Reservations.Reserve` | ops/orchestration/loop.py:1050-1059 | admits exactly what keeps the reservations disjoint |
| `Ownership.Reservations.Release` | ops/orchestration/loop.py:1061-1069 | removes the named one and no other |
| `Ownership.Reservations.Complete` | ops/orchestration/loop.py:945-949 | a completed ticket holds nothing |
| `Ownership.DisjointMeans` | ops/orchestration/ownership.py:129-156 | no file has two writers, and no reviewer of a writer is a writer's owner |
| `Ownership.Reservations.AnyRun` | ops/orchestration/loop.py:1050-1069 | every sequence keeps it |
| `Intervals.SweepStep` | ops/orchestration/workflow_metrics.py:283-286 | the sweep adds exactly an interval's new ticks |
| `Intervals.Covered` | ops/orchestration/workflow_metrics.py:275-287 | the total is the size of the union, in whatever order the intervals came |
| `Intervals.CoveredBy` | ops/orchestration/workflow_metrics.py:267-281 | an unknown time makes the total unknown, with exactly the reasons of the unknown ones |
| `Intervals.Elapsed` | ops/orchestration/workflow_metrics.py:289-294 | from the first start to the last end, never less than what is covered |
| `Intervals.Difference` | ops/orchestration/workflow_metrics.py:297-300 | known exactly when both parts are, and otherwise the reasons of the first unknown one |
| `Intervals.GroupWithin` | ops/orchestration/workflow_metrics.py:303-307 | no stage or activity covers more than its unit, and an unknown part makes its unit unknown |
| `Intervals.Report` | ops/orchestration/workflow_metrics.py:246-264 | covered and unrecorded time add up to elapsed time, neither is negative, and an unknown one says why |
| `Transcript.FeedGrows` | ops/orchestration/session_context.py:287-299 | nothing counted is uncounted, a conflict stays, and startup cost is fixed by the first completed turn |
| `Transcript.CodexTurns` | ops/orchestration/session_context.py:196-209 | over a whole stream a completion counts exactly when no other turn is open, and the open turn is the one started and neither ended nor replaced |
| `Transcript.CodexCompactions` | ops/orchestration/session_context.py:188-218 | over a whole stream a compaction that is reported twice counts once |
| `Transcript.ReportsCount` | ops/orchestration/session_context.py:221-261 | a response that is reported while it grows counts once, when it first ends the turn, and costs what its last report says; a repetition changes nothing |
| `Transcript.ScanFrom` | ops/orchestration/session_context.py:302-332 | the loop over the open file |
| `Transcript.ScanResumes` | ops/orchestration/session_context.py:302-332 | going on where a scan stopped equals one scan of it all |
| `Transcript.ScanConsumes` | ops/orchestration/session_context.py:312-330 | what was consumed ends with its last complete line and scans to the same summary by itself |
| `Transcript.ScanTallies` | ops/orchestration/session_context.py:229-261 | however often a response is reported, its completion counts once |
| `Transcript.Watcher.Emit` | ops/orchestration/session_context.py:687-691 | only what is not known to be in the log is written, in order, wherever the poll stops, and all of it if nothing stops it |
| `Transcript.KeptExactly` | ops/orchestration/session_context.py:511-520 | event by event, which cuts of which writes lose it |
| `Transcript.ReadableExactly` | ops/orchestration/session_context.py:486-501 | the log can be read exactly when no write but the last was cut short, and the last by no more than its newline |
| `Transcript.Watcher.Poll` | ops/orchestration/session_context.py:523-702 | nothing is written twice; an unreadable log refuses; a poll that nothing stops finishes exactly when log and transcript can be read, with the whole scan as its checkpoint; if the session is named before anything is counted, a finished poll has written exactly ordinals 1 to n, and the log keeps all that was written exactly when it can be read; of another session only admissions are written |
| `Transcript.AnyRun` | ops/orchestration/session_context.py:659-702 | any polls, growth, cut writes and lost checkpoints keep every checkpoint equal to one scan of the lines it consumed, and no event is ever written twice |
| `Transcript.AnyNamedRun` | ops/orchestration/session_context.py:560-702 | and what was written never has a gap when the session is named in time |

## Left out

- Operating-system code (processes, sockets, SQLite, locks, inotify, the compositor): answers come from oracles, a lock is an atomic step, and SQLite is the same append-only log as the memory journal.
- Schema validation, wire formats and recovery-evidence parsing: records are taken as valid values, and authority is accepted or refused by an oracle.
- Hashes: two different values never share one. Event identifiers of transcripts and package directories are taken as unique for the same reason; the journal's event identifiers may collide.
- Callbacks of one control plane do not re-enter a different plane, and confirmation tokens are fresh numbers.
- ControlPlane.ControlPlane.Offer: the limit on pending tokens is checked before the preview is journaled, so operations called back meanwhile may pass it; the bound is stated for calls that nothing calls back.
- Other clients of a session owner release only their own generations.
- ControlPlane.AnyRun: an executor's output and error payloads are not modelled, only its status.
- Gateway.GatewayClient.Poll: how a call that falls back goes on in a calm is told by what explains its result, not case by case.
- Gateway.GatewayClient.Permitted: a client bound to a configuration has one owner; configurations are not handed from one client to another.
- Delivery.Operation.Deliver: one operation ID at a time, since each has its own ledger file; observation of the receipt in the recipient's rollout is a pure filter and would add only easy members.
- Delivery.MarkedCarries: lines are taken as already split, and blanks are spaces and tabs.
- ResetSupervisor.Supervisor.Check: one configuration, hence one bound window; a supervisor that is configured for another window is another one.
- ResetSupervisor.Supervisor.Step: ceiling instructions are modelled only as a save of the same phase; publication of the receipt is an oracle, since acceptance is decided in the journal (`Epochs.Loop.Acknowledge`).
- Epochs.Loop.Prepare: the contents of the sealed package are its number, its previous session and whether it is automatic.
- Grants.Loop.Begin: the other admission conditions (headroom, startup receipt, pause, clearance) are one oracle; they only refuse.
- Grants.SamePrintProgressed: issues and comments are keyed by identifier and relations are a set, so an export that repeats a row is not modelled.
- Intervals.Covered: times are whole ticks instead of floating-point seconds.
- Receipt.Capture: numbers are below 10 to the 20th, which covers every 64-bit value; decoding is any function from bytes to text.
- Ownership.Reservations.Reserve: that paths have one canonical spelling is taken from parsing, which the model reduces to refusing an empty path.
- Transcript.Watcher.Poll: one watched session; of admission events only that they are written to the same log; notifications and a changed transcript path are not modelled, and a cut write puts down at least one byte.
- Voice coordination, text to speech, dictation and routing repeat the lease, cleanup and snapshot pattern of the conversation and the gateway.
- Review budgets, evaluation, projections, panels and command-line entry points would add only easy members.
