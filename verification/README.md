# A verified model of Cascade's zone pipeline

Cascade loads DNS zones, has them reviewed, signs them, has the signed zones reviewed, and publishes them.
This project models its stateful cores in Dafny and proves what they keep over whole runs. Check it with

    dafny verify --resource-limit 2000000 --verification-time-limit 0 dfyconfig.toml

## What is modelled

Concurrent parts are state machines: a datatype for the shared state, one action for each stretch of code that
runs under a lock or between two suspension points, a predicate saying when an action may happen, and a function
for the next state. What the environment decides (network answers, hooks, clocks, files, scheduling) is an
argument of the action, so that a theorem about all runs holds for all environments. Where the source updates
objects in place there is a class whose methods are proved equal to the functions of the machine.

- **Secondary zones** (`RefreshZone`, `RefreshAnswers`, `RefreshBounds`, `RefreshStates`, `RefreshTimers`,
  `MaintainerSteps`, `MaintainerProofs`, `MaintainerHistory`, `MaintainerSegments`, `MaintainerSchedule`,
  `MaintainerTasks`, `MaintainerMetrics`, `MaintainerEmptyZone`, `RetryExpiry`, `RetryLimit`, `ZoneMaintainer`). The
  event loop with its pending and active zones, freshness table, timers and refresh tasks. Tasks of one zone overlap,
  and a task looks its zone up in the zone tree captured when it was spawned. Main results: no secondary is forgotten,
  zones only move from pending to active, promotion needs an SOA and follows a success, expiry needs silence, retries
  are RETRY apart and end, timers are the earliest requested, a NOTIFY leads to a refresh that starts with its sender,
  and what a refresh comes to is told from the primaries' answers alone.
- **Incremental transfers** (`Serials`, `ZoneDiffs`). The store of differences and the loop that collects a range
  of them, in RFC 1982 serial arithmetic. Main result: replaying an answer gives the newest content, or the
  answer is empty, and it is empty only across a wrap of the serial.
- **The signer** (`SignerChunks`, `SignerStatus`, `SignatureWindow`). Splitting owners over threads and merging
  signatures over a channel equals a one-thread run for every interleaving; the signing history panics in no run
  exactly if one operation runs at a time; signature windows cover the intended time exactly if the two durations
  add up to less than 2^31.
- **Review and publication** (`Payload`, `ReviewServer`, `ReviewHistory`, `ReviewApproval`, `Pipeline`,
  `PipelineHistory`, `PipelineTrees`, `PipelineQueues`, `PipelineRouting`, `PipelineProgress`, `PublishedContent`,
  `UnapprovedPublication`, `CentralCommand`). Approval tokens are conserved, and handing all of them back announces the
  approval; a published zone was loaded, approved, signed, approved as signed and published in this order, and
  wherever a run has come to rest any zone can still go this way; every update arrives at its unit, and none is
  overtaken. The trees of signed and of published zones share zone objects, as in the source.
- **Zones and policies** (`Registry`, `RegistryProofs`), with the exact condition under which reloading the policy
  directory keeps them consistent, and **delayed saves** (`DelayedSaves`).
- **Key manager** (`KeyManager`) and the **tree of RRsets** (`LightWeightZone`).

Some promises do not hold in general. Each of these has a lemma with a concrete input or run, and a lemma that
says when the promise does hold:

- A primary that is also the source of a NOTIFY is visited twice and can see four transfers, two of them AXFR
  (`NotifySourceIsVisitedTwice`; exact bounds in `MostTransfersIsExact`, `OneAxfrIff` and `TwoTransfersIff`).
- A zone can be promoted without anyone having seen an SOA in it if a primary's strategy never transfers
  (`EmptyZoneCanBePromoted`; exact condition in `PromotedUnseenIff`, for one visit in `EmptyZoneFineUnseen`).
- A second NOTIFY for a zone is not held off until the first one is dealt with, but only until its refresh begins
  (`SecondNotifyIsFollowed`; exact condition in `SecondNotifyIsRefusedIff`).
- With RETRY 0 failing retries are unbounded (`ZeroRetryIsUnbounded`; bound for RETRY > 0 in `RetryingEnds`, met in
  `RetriesThatFit`).
- At a distance of exactly 2^31 an unrelated difference is handed out (`HalfwayStartIsMistaken`; exact condition on
  the serials in use in `AlwaysLinkedIff`), and a serial that wrapped below the request empties the answer
  (`RangeIsExactOrEmpty`).
- Two concurrent signings of one zone can panic the status history (`NoPanicIffOnePermit`). The command loop
  signs one zone at a time and the default is one permit, so that this needs both to change.
- Content can be published whose signed form nobody approved, because the signer writes to the object under review
  (`UnapprovedContentCanBePublished`; exact conditions in `PublicationShowsVersionIff` and
  `PublicationShowsTheApprovedIff`).
- Without hooks an approval can be announced any number of times (`AnnouncedOnceIffHooks`), and a hook that cannot
  be started takes the tokens of the hooks before it along (`HookHasSay`); if it is the last one, the approval cannot
  be had before it is sought again (`ApprovalIffLastStarted`).
- Threads of a signing can be left without any owner to sign (exact condition in `ThreadsUsed`).
- `a.toml` and `a.TOML` make reloading panic (`TwoFilesMayClash`; exact condition in `ReloadPanicsIff`). A reload
  that breaks off loses the policies read before (`BrokenReloadMeans`, `ReloadKeepsIff`). A zone restored from its
  file with a policy breaks the link (`RestoringKeepsIff`).

Where the code differs from its comments the code is followed: the start time of a finished signing is set to the
time of finishing (`src/units/zone_signer.rs:1013`), and clearing one node of a lightweight zone clears the whole
zone (`src/common/light_weight_zone.rs:300-305`). The serial on record for the last check is that of the last check
that found a newer one, not of the last successful one (`src/zonemaintenance/types.rs:436-440` and `545-550`).

## Model

| member | source | states |
|---|---|---|
| MaintainerHistory.NoZoneIsForgotten | src/zonemaintenance/maintainer.rs:402-575 | In every reachable state each secondary has its adding event queued, or is expired, or has a timer, a queued refresh request or a task bound to find or refresh it, even if that task searches a tree captured before the promotion |
| MaintainerHistory.ZonesOnlyMoveToActive | src/zonemaintenance/maintainer.rs:307-350 | Every inserted zone is in exactly one of the pending and active sets, before and after any step, and never goes back to pending |
| MaintainerHistory.PromotionNeedsSoa | src/zonemaintenance/maintainer.rs:402-437 | If every primary's strategy always transfers, a secondary is promoted only after an earlier step saw an SOA in it |
| MaintainerHistory.ExpiryNeedsSilence | src/zonemaintenance/maintainer.rs:1102-1134 | A zone is marked expired only if no serial check by any concurrent task succeeded within the last EXPIRE, and it was first tracked longer ago than that |
| MaintainerHistory.TasksAreNeverStuck | src/zonemaintenance/maintainer.rs:1042-1175 | A task past its lookup always finds its zone tracked, configured and secondary, and its refresh never panics |
| MaintainerHistory.RunsKeepInvariant | src/zonemaintenance/maintainer.rs:352-575 | The joint invariant of zone sets, tasks, timers, coverage, seen SOAs and instants holds in every reachable state |
| MaintainerEmptyZone.PromotedUnseenIff | src/zonemaintenance/maintainer.rs:1150-1174 | Some run promotes a zone before anyone saw an SOA in it, iff one of its primaries has a strategy that never transfers |
| MaintainerSchedule.TransferSetsIntervals | src/zonemaintenance/maintainer.rs:1150-1174 | A transfer that ends a refresh puts the intervals of its SOA on record at once and again at the end, and the next refresh is asked for after its REFRESH, whatever other tasks of the zone do between the transfer and the end |
| MaintainerSchedule.NothingNewKeepsIntervals | src/zonemaintenance/maintainer.rs:1150-1174 | A refresh that finds nothing new leaves the three intervals and the instants on record alone, makes the zone pending for refresh and asks for the next one after the REFRESH on record |
| MaintainerSchedule.IntervalsComeFromSoas | src/zonemaintenance/types.rs:536-543 | In every reachable state a step leaves the intervals of a tracked zone alone, unless it completes a transfer or ends a refresh that brought an SOA, and then they are those of this SOA |
| MaintainerSchedule.AddedZoneIsScheduled | src/zonemaintenance/maintainer.rs:402-437 | In every reachable state adding a pending secondary leaves it active iff it was tracked or has an SOA, with the intervals on record, those of its SOA or the default ones, and with one timer for its REFRESH or at once, unless it had an earlier one |
| MaintainerSchedule.FailureSetsTheTimer | src/zonemaintenance/maintainer.rs:1086-1148 | In every run a failure that does not expire the zone leaves the status of a retry and the rest of the record as it was, and leads, once the earlier events are handled, to a timer due within RETRY |
| MaintainerSchedule.ExpiryEndsRetrying | src/zonemaintenance/maintainer.rs:1102-1134 | A failure marks the zone expired, and then asks for nothing, iff it ends a retry and the primaries were silent for longer than EXPIRE |
| MaintainerSchedule.RequestSetsTheTimer | src/zonemaintenance/maintainer.rs:812-861 | In every reachable state a handled request leaves one timer for its zone, the old one if it is strictly earlier and else the requested one with its cause, and the timers of other zones alone |
| MaintainerTasks.NotifyIsReceived | src/zonemaintenance/maintainer.rs:382-400 | A NOTIFY starts one task that searches the present tree, a local change leads to no refresh |
| MaintainerTasks.NotifyIsFollowedIff | src/zonemaintenance/maintainer.rs:864-1017 | In every reachable state a NOTIFY's task goes on, with the zone's status set, iff its sender is known, the zone is tracked and pending or in the captured tree, and no NOTIFY is in progress; otherwise the task ends and nothing else changes |
| MaintainerTasks.NotifyStartsWithItsSource | src/zonemaintenance/maintainer.rs:950-1040 | In every run a NOTIFY from a known sender, if none is in progress then, leads to a refresh that visits the sender first, and whose outcome is the sender's SOA if it brings one, whatever else happens before each of the steps |
| MaintainerTasks.FiredTimerStartsRefresh | src/zonemaintenance/maintainer.rs:491-575 | In every run a due timer leads to a refresh that visits just the configured primaries, as a retry iff that was its cause, unless the zone was promoted before the task looked for it |
| MaintainerTasks.SuccessPromotes | src/zonemaintenance/maintainer.rs:1150-1174 | In every run a refresh of a zone that is still pending, once it succeeds, leads to the promotion of the zone, whatever else happens in between |
| MaintainerMetrics.RecordsFollowHistory | src/zonemaintenance/types.rs:412-451 | In every run a zone's record tells when it was first tracked, when a refresh last began, as a retry or not, when a primary last told its serial and which serial was newer last, and when the zone was last renewed and at which serial |
| MaintainerMetrics.StatusFollowsHistory | src/zonemaintenance/maintainer.rs:1042-1175 | In every run the status of a zone is the one that the last step of any of its tasks gave it |
| MaintainerMetrics.SecondNotifyIsRefusedIff | src/zonemaintenance/maintainer.rs:978-1015 | In every run a NOTIFY from a known sender that finds its zone is refused iff the last thing that a task of the zone did was to find it for another NOTIFY |
| MaintainerMetrics.SecondNotifyIsFollowed | src/zonemaintenance/maintainer.rs:978-1015 | In every reachable state, once the refresh after a first NOTIFY began, a second one goes on too, although the first transaction is not complete |
| MaintainerProofs.ZonesStep | src/zonemaintenance/maintainer.rs:402-437 | Every step keeps pending and active zones disjoint and together equal to the inserted zones |
| MaintainerProofs.CoverStep | src/zonemaintenance/maintainer.rs:491-575 | Every step keeps each tracked, unexpired zone covered by a timer, a request or a task |
| MaintainerProofs.TimersStep | src/zonemaintenance/maintainer.rs:812-861 | Every step keeps at most one timer per zone, and timers and requests never have a NOTIFY as their cause |
| ZoneMaintainer.ZoneMaintainer.InsertZones | src/zonemaintenance/maintainer.rs:307-350 | The loop over the zones leaves the state of inserting them one after the other |
| ZoneMaintainer.ZoneMaintainer.OnEvent | src/zonemaintenance/maintainer.rs:352-380 | Handling the first event in place equals the step of the machine |
| ZoneMaintainer.ZoneMaintainer.OnZoneAdded | src/zonemaintenance/maintainer.rs:402-437 | Tracking, promoting and scheduling in place equal the step of the machine |
| ZoneMaintainer.ZoneMaintainer.TrackZoneFreshness | src/zonemaintenance/maintainer.rs:779-810 | The freshness entry and the refresh interval found or made for a zone, as the step of the machine has it; what they are is stated by MaintainerSchedule.AddedZoneIsScheduled |
| ZoneMaintainer.ZoneMaintainer.LookForZone | src/zonemaintenance/maintainer.rs:864-1040 | A task finds its zone in the pending zones or in the captured tree, in the order its cause demands, or ends, as the step of the machine has it; which of them is stated by MaintainerTasks |
| ZoneMaintainer.ZoneMaintainer.OnRefreshTimer | src/zonemaintenance/maintainer.rs:491-575 | The fired timer goes and a task with the present tree is spawned |
| ZoneMaintainer.ZoneMaintainer.FinishRefresh | src/zonemaintenance/maintainer.rs:1077-1175 | Success schedules REFRESH, failure schedules RETRY or marks the zone expired, a zone that was pending asks for promotion |
| RefreshAnswers.SerialsDecide | src/zonemaintenance/maintainer.rs:1338-1366 | For counts less than 2^31 apart a primary's serial leads to no transfer and to nothing else, iff it is not ahead of the zone's, and otherwise, or if the zone has no SOA, is first recorded as newer |
| RefreshAnswers.VisitByAnswers | src/zonemaintenance/maintainer.rs:1284-1458 | A visit brings an SOA, fails with an error, or requests a kind of transfer over a transport, each iff the answers of the primary to the SOA query and to the transfers tried say so |
| RefreshAnswers.RefreshByAnswers | src/zonemaintenance/maintainer.rs:1177-1281 | A refresh brings an SOA iff the first primary that brings any brings it, fails iff every configured primary visited does, with the last error, and fails at once if the zone's SOA cannot be read |
| RefreshAnswers.NothingOlderIsTransferred | src/zonemaintenance/maintainer.rs:1338-1366 | If no primary is ahead of the zone, around 2^32, a refresh requests and commits nothing and records no newer serial |
| RefreshZone.RefreshZoneFromAddr | src/zonemaintenance/maintainer.rs:1284-1458 | The loop of at most two transfers against its recursive specification, whose meaning RefreshAnswers.VisitByAnswers states |
| RefreshZone.RefreshPrimaries | src/zonemaintenance/maintainer.rs:1177-1282 | The loop over the primaries, with its count of fine primaries and its saved error, against its recursive specification |
| RefreshZone.VisitsOutcome | src/zonemaintenance/maintainer.rs:1234-1281 | The outcome is an SOA iff a primary yields one, nothing new iff none does and one was fine, a panic iff no primary is configured among those visited and nothing was saved |
| RefreshZone.StopsAtFirstYield | src/zonemaintenance/maintainer.rs:1234-1281 | Outcome and effects are those of the visits up to the first primary that yields an SOA |
| RefreshZone.PanicsOnlyWithoutPrimaries | src/zonemaintenance/maintainer.rs:1268-1281 | The unwrap of the saved error fails iff the zone has no primary |
| RefreshBounds.MostTransfersIsExact | src/zonemaintenance/maintainer.rs:1234-1262 | A bound on the transfers, or on the AXFRs, that a primary sees holds in every refresh of a zone iff it is at least the times it is asked, two for a configured source of the NOTIFY, times what its strategy and transport allow in one visit |
| RefreshBounds.OneAxfrIff | src/zonemaintenance/maintainer.rs:1372-1456 | Every refresh sends a primary at most one AXFR, unless, and only then, it sent the NOTIFY and is configured with a strategy that uses AXFR |
| RefreshBounds.TwoTransfersIff | src/zonemaintenance/maintainer.rs:1372-1456 | Every refresh sends a primary at most two transfers, unless, and only then, it sent the NOTIFY and is configured with a strategy and a transport for IXFR |
| RefreshZone.AxfrAlwaysOverTcp | src/zonemaintenance/maintainer.rs:1372-1456 | Every AXFR of a refresh goes over TCP |
| RefreshZone.NotifySourceIsVisitedTwice | src/zonemaintenance/maintainer.rs:1234-1262 | The doubled bound is reached by a concrete refresh |
| RefreshZone.FallbackIffNotImplemented | src/zonemaintenance/maintainer.rs:1372-1456 | With fallback and a serial, an AXFR is requested iff there is no transport for an IXFR or the primary does not implement it, and it could be sent |
| RefreshZone.OneKindOtherwise | src/zonemaintenance/maintainer.rs:1372-1456 | Otherwise only the kind of transfer that the strategy names is requested |
| RefreshZone.EmptyZoneFineUnseen | src/zonemaintenance/maintainer.rs:1372-1456 | A primary can report an empty zone as fine with no SOA seen iff its strategy never transfers |
| RefreshZone.SuccessHasSeenSoa | src/zonemaintenance/maintainer.rs:1177-1282 | Under strategies that always transfer, a successful refresh has seen or committed an SOA |
| RefreshTimers.AddTimer | src/zonemaintenance/maintainer.rs:812-861 | The search for a zone's timer and its replacement against the recursive specification |
| RefreshTimers.RefreshAtKeeps | src/zonemaintenance/types.rs:644-663 | Adding a timer keeps one timer per zone, due at the minimum of the old and the new deadline, and leaves other zones alone |
| RefreshTimers.TimersAreEarliest | src/zonemaintenance/maintainer.rs:812-861 | After any run of requests and firings a zone's timer is due at the earliest instant requested since it last fired, and there is none if nothing was requested |
| RefreshTimers.TimersCarryOutRequests | src/zonemaintenance/maintainer.rs:812-861 | After any run of requests and firings a zone's timer is the request, with its cause, that came last among the earliest ones since the timer last fired |
| RetryExpiry.RetriesAreSpaced | src/zonemaintenance/maintainer.rs:812-861 | In every run two firings of the timer of a zone that is only retried are RETRY apart, whatever other events, timers and tasks do in between |
| RetryExpiry.RetryingEnds | src/zonemaintenance/maintainer.rs:1042-1175 | In every run, once only retries are left for a zone and its primaries stay silent, at most floor(EXPIRE/RETRY) retries fail before it is marked expired, besides those under way and one whose timer was due early |
| RetryExpiry.FirstFailureStartsRetrying | src/zonemaintenance/maintainer.rs:1086-1148 | After a failed refresh with nothing else under way for the zone only retries are left, none under way and no timer due early |
| RetryExpiry.RetriesAfterFirstFailure | src/zonemaintenance/maintainer.rs:1086-1148 | So floor(EXPIRE/RETRY)+1 failing retries after the first failure mark the zone expired, in every run |
| RetryLimit.RetriesThatFit | src/zonemaintenance/maintainer.rs:1086-1148 | With RETRY > 0, right after an answer of the primaries, n retries can fail in a row without expiry iff n is at most floor(EXPIRE/RETRY) |
| RetryLimit.ZeroRetryIsUnbounded | src/zonemaintenance/types.rs:527-534 | With RETRY 0 there is a run in which any number of retries fail without expiry |
| RetryExpiry.EmptyZoneGivesUp | src/zonemaintenance/types.rs:559-572 | A zone that never got data is marked expired by the 13th failing retry after its first failure, in every run |
| ZoneDiffs.ZoneInfo.AddDiff | src/zonemaintenance/types.rs:770-774 | Storing a difference equals insertion into a map ordered by start serial, which keeps an equal start's key |
| ZoneDiffs.ZoneInfo.DiffsForRange | src/zonemaintenance/types.rs:776-822 | The collecting loop against its recursive specification, nothing being returned unless it ends well |
| ZoneDiffs.InsertedBindings | src/zonemaintenance/types.rs:299-303 | What the store holds after an insertion, including the kept key of an equal start serial |
| ZoneDiffs.RangeIsExactOrEmpty | src/zonemaintenance/types.rs:776-822 | For stored versions in a window under 2^31 a request from version k to version m gets exactly the differences in between, or nothing iff a later start wrapped below the request; beyond the newest stored difference it gets all from k on |
| ZoneDiffs.UnknownStartGivesNothing | src/zonemaintenance/types.rs:776-822 | A request from a serial that starts no stored difference gets nothing |
| ZoneDiffs.AnswersAreLinked | src/zonemaintenance/types.rs:776-822 | Any answer from any store starts at the requested serial and links up, unless serials are 2^31 apart |
| ZoneDiffs.AlwaysLinkedIff | src/zonemaintenance/types.rs:776-822 | For any set of serials, every answer to a request between them from any store that uses only them links up, iff no two of them are 2^31 apart |
| ZoneDiffs.HalfwayStartIsMistaken | src/zonemaintenance/types.rs:776-822 | At a distance of exactly 2^31 an unrelated difference is handed out |
| ZoneDiffs.StoreAllChains | src/zonemaintenance/maintainer.rs:2580-2612 | Committing a history of contents leaves a store that chains its versions |
| ZoneDiffs.IncrementalTransferIsFaithful | src/zonemaintenance/types.rs:776-822 | Replaying the answer on version k gives the newest content, or the answer is empty and the serial wrapped after version k |
| SignerChunks.ChunksFit | src/units/zone_signer.rs:656-673 | The chunks of all threads fit into the owners, and fewer owners than threads are left over |
| SignerChunks.SignRrChunk | src/units/zone_signer.rs:716-784 | A thread that skips and counts through the common iterator signs just its chunk, and stops at the first error |
| SignerChunks.ChunksPartition | src/units/zone_signer.rs:656-673 | For every number of owners and limit on threads the chunks in order are all owners, each once |
| SignerChunks.ChunksAreEven | src/units/zone_signer.rs:656-673 | Every thread but the last gets the same number of owners, the last fewer than one more per thread |
| SignerChunks.ThreadsUsed | src/units/zone_signer.rs:656-673 | All allowed threads sign a zone of 1024 owners or more, at most two a smaller one; some thread has no owner to sign iff there are 1024 owners or more but fewer than threads, and then the last thread signs all |
| SignerChunks.InterleavingKeepsTotal | src/units/zone_signer.rs:788-827 | However the threads' messages interleave, the channel delivers the same multiset of signatures |
| SignerChunks.ConcurrentEqualsSequential | src/units/zone_signer.rs:543-593 | All chunks succeed iff a one-thread run does, and then the delivered signatures are those of the one-thread run |
| SignerChunks.RrsigInserter | src/units/zone_signer.rs:788-827 | The receiving loop inserts and counts every delivered signature |
| SignerChunks.SignConcurrently | src/units/zone_signer.rs:506-653 | The zone is announced as signed iff every owner could be signed, and then holds the signatures made for each owner, which are those of a one-thread run, and every unsigned record |
| SignerStatus.NoPanicIffOnePermit | src/units/zone_signer.rs:1008-1148 | Over all interleavings of requests, failures, completions and evictions no unwrap or panic of the status is reached, iff at most one operation runs at a time |
| SignerStatus.HistoryIsLatest | src/units/zone_signer.rs:1099-1108 | The history holds the latest requests in order, up to its capacity |
| SignerStatus.OperationIsRecorded | src/units/zone_signer.rs:599-639 | With one permit an operation that starts the newest entry of its zone and completes leaves in it exactly what it reported, and its finishing time as its start, whatever other zones are requested meanwhile, unless they drop the entry |
| SignerStatus.EntriesAdvance | src/units/zone_signer.rs:1110-1147 | A report touches only the newest entry of its zone; entries only advance and finished ones stay |
| SignerStatus.ZoneSignerStatus.Find | src/units/zone_signer.rs:1093-1097 | The backward search finds the newest entry of a zone |
| SignerStatus.ZoneSignerStatus.Enqueue | src/units/zone_signer.rs:1099-1108 | A full history drops its oldest entry and gets a requested one |
| SignerStatus.ZoneSignerStatus.Start | src/units/zone_signer.rs:1110-1122 | Only a requested newest entry is started |
| SignerStatus.ZoneSignerStatus.Update | src/units/zone_signer.rs:1124-1133 | Only a newest entry in progress is updated |
| SignerStatus.ZoneSignerStatus.End | src/units/zone_signer.rs:1135-1147 | Only a newest entry in progress is finished, which panics iff a measurement is missing |
| SignatureWindow.WindowCoversIntendedTime | src/units/zone_signer.rs:698-711 | Every instant from now minus the offset to now plus the validity lies in the window in RFC 1982 order, iff the two add up to less than 2^31 |
| Serials.BeforeInWindow | src/zonemaintenance/types.rs:776-822 | Serials of counts less than 2^31 apart are ordered as the counts are |
| ReviewApproval.SeekingIssuesTokens | src/units/zone_server.rs:436-470 | Seeking approval of an unapproved zone issues one fresh token for each hook, in order; pending then are the old ones, unless a hook failed, and those of the hooks after the last that failed, and other zones and serials are left alone |
| ReviewApproval.SeekingWithoutHooks | src/units/zone_server.rs:402-434 | Without hooks the approval is announced at once, with nothing left pending; once approved, nothing happens |
| ReviewApproval.SoughtApprovalIsReached | src/units/zone_server.rs:640-726 | In every run of a server with hooks, handing back all tokens pending after an approval was sought and its last hook started announces the approval, just once, in any order and mixed with anything about other zones |
| ReviewApproval.ApprovalIffLastStarted | src/units/zone_server.rs:436-470 | In every run of a server with hooks an approval that is sought can be had without being sought again, iff the last hook could be started |
| ReviewApproval.UpdatesAreAnnouncements | src/units/zone_server.rs:413-432 | A server sends an approval of its kind of zone as often as the approval was announced |
| ReviewServer.ZoneServer.OnSeekApproval | src/units/zone_server.rs:384-471 | The loop over the hooks issues and drops tokens as ReviewApproval states of its specification; without hooks the approval is announced at once, which panics iff the server publishes |
| ReviewServer.ZoneServer.OnReviewRequest | src/units/zone_server.rs:640-726 | One token handed back: pending tokens, recorded approvals, updates sent, the answer given and the panic, for every input |
| ReviewHistory.TokensAreConserved | src/units/zone_server.rs:402-471 | In every run the tokens issued for a zone and serial since the last clearing are those handed back to approve and those pending |
| ReviewHistory.TokensCountOnce | src/units/zone_server.rs:640-726 | In every run a token is issued at most once and accepted at most once |
| ReviewHistory.ApprovalNeedsEveryToken | src/units/zone_server.rs:640-726 | Whenever an approval is announced all tokens issued since the last clearing were handed back, and with hooks there was one at least |
| ReviewHistory.AnnouncedOnceIffHooks | src/units/zone_server.rs:402-471 | No run announces an approval twice, iff there are hooks |
| ReviewHistory.RejectionIsFinal | src/units/zone_server.rs:640-726 | After a rejection nothing is announced for the zone and serial unless its approval is sought again |
| ReviewHistory.HookHasSay | src/units/zone_server.rs:436-470 | A hook's token survives iff it and all later hooks could be started |
| PipelineHistory.PublishedZonesWereApproved | src/targets/central_command.rs:72-160 | In every run a published zone was loaded, approved, its signing started, signed, approved as signed at the announced serial and published, in this order |
| PipelineHistory.SigningFollowsApproval | src/units/zone_signer.rs:281-304 | Every signing, a re-signing included, follows some approval of the zone's unsigned form, since re-signing reads published zones only |
| PipelineHistory.PublishingFollows | src/units/zone_server.rs:346-382 | A publication follows the signed approval of the announced serial, and that the signing with this serial |
| PipelineHistory.PublisherNeverApproves | src/units/zone_server.rs:413-432 | In no run is an approval sought from or pending with the server of published zones, so that its unreachable arms are never reached |
| PipelineTrees.TreesFollowHistory | src/units/zone_server.rs:346-382 | In every run a zone is signed iff it was last signed, successfully or not, after it was last published, and published iff it ever was |
| PublishedContent.PublicationShowsVersionIff | src/units/zone_server.rs:346-382 | In every run a publication shows a given signing of the zone, until the next publication of it, iff the signed zone still has the content of this signing and is not being signed again |
| PublishedContent.PublicationShowsTheApprovedIff | src/units/zone_server.rs:346-382 | In every run a publication at an approved serial shows a signing that was announced at this serial, until the next one of the zone, iff the signed zone has content of this serial and is not being signed again |
| PublishedContent.ReachableIsOk | src/units/zone_signer.rs:675-696 | In every run signed and published zones share no object, and the signer writes to an object of its own zone |
| UnapprovedPublication.UnapprovedContentCanBePublished | src/units/zone_signer.rs:249-255 | A concrete run publishes content whose signed form nobody approved |
| PipelineQueues.NothingIsLostOrOvertaken | src/targets/central_command.rs:72-160 | In every run and for each unit, what the sent updates have for it is what it took and what is queued for it, in order |
| PipelineRouting.TakenAsOftenAsSent | src/targets/central_command.rs:72-160 | In every run a unit takes a command at most as often as the one update that it answers to was sent, never if it answers to none, and just as often once its queues are empty |
| PipelineRouting.EveryUpdateArrives | src/targets/central_command.rs:72-160 | Once all queues are empty every update was taken as often as it was sent: a change by all six units, a refresh by the loader, a re-signing and an approval of an unsigned zone by the signer, each other one by its server |
| PipelineProgress.AnyZoneCanBePublished | src/targets/central_command.rs:72-160 | Wherever a run has come to rest, with any number of hooks, some continuation publishes any zone at any serial new to the review servers, with the content signed on the way |
| PipelineProgress.ResigningStartsIff | src/units/zone_signer.rs:240-304 | In every run a request to sign a zone again starts a signing with the published serial in an object that is not published, iff the zone is published with content and has an SOA; otherwise nothing happens |
| PipelineProgress.ResigningIsAnnounced | src/units/zone_signer.rs:240-304 | In every run that signing, once it succeeds, leaves new content at the published serial and announces the zone as signed, whatever else happens meanwhile |
| CentralCommand.Center.DirectUpdate | src/targets/central_command.rs:72-160 | Sending the commands of an update gives each unit just the commands that answer to it, and changes nothing else of the pipeline |
| CentralCommand.Center.ProcessEvents | src/targets/central_command.rs:39-68 | The receive loop is a run of the pipeline that takes one update after the other |
| CentralCommand.Center.ForwardAppCmds | src/manager.rs:183-195 | The forwarding loop is a run of the pipeline that forwards one command after the other |
| CentralCommand.Center.OnPublishSignedZone | src/units/zone_server.rs:346-382 | Moving a zone between the trees in place is the step of the publication server in the pipeline |
| RegistryProofs.RunsStayConsistent | src/center.rs:57-106 | In every run in which reloads succeed, zones and policies agree on who uses what, every named policy exists, and nothing panics |
| RegistryProofs.ActKeepsIff | src/zone/mod.rs:195-258 | One action on a consistent registry neither panics nor breaks it, iff it is not a harmful reload |
| RegistryProofs.ChangeKeeps | src/zone/mod.rs:195-258 | Changing a policy never panics on a consistent registry; it fails without change, or relinks exactly this zone |
| RegistryProofs.AddKeeps | src/center.rs:57-80 | Adding a zone keeps the registry consistent; an existing name fails without change, a new one is entered without a policy, announced and marked |
| RegistryProofs.RemoveKeeps | src/center.rs:83-106 | Removing a zone keeps the registry consistent and never panics; it takes the zone from its policy's users, is always announced, and is marked iff the zone had a policy |
| RegistryProofs.ReloadMeans | src/policy/mod.rs:47-138 | After a successful reload there is a policy for each file, whose latest version has the file's settings and which keeps its users and its deletion mark, and every other policy in use, and every zone, is as before |
| RegistryProofs.FilesReachZones | src/policy/file/mod.rs:39-51 | What a policy file says reaches a zone when it is given the policy after a successful reload, and the reload itself changes no zone |
| RegistryProofs.PolicyFileIff | src/policy/mod.rs:68-86 | A file is read as a policy of this name iff it is the name, not hidden, a dot, and toml in either case |
| RegistryProofs.ReloadPanicsIff | src/policy/mod.rs:107-125 | Reloading panics iff two policy files that are read have the same stem |
| RegistryProofs.TwoFilesMayClash | src/policy/mod.rs:78-86 | Two files of one directory can make it panic |
| RegistryProofs.BrokenReloadMeans | src/policy/mod.rs:91-105 | A reload that breaks off has lost exactly the policies read before |
| RegistryProofs.ReloadKeepsIff | src/policy/mod.rs:47-138 | A reload keeps the registry consistent without panic, iff no two files clash and, if it breaks off, no policy read before is in use |
| RegistryProofs.RestoringKeepsIff | src/zone/state/mod.rs:32-81 | Restoring a zone keeps the registry consistent iff it restores no policy; else removing the zone panics |
| Registry.Center.AddZone | src/center.rs:57-80 | The whole new state, update and marks of adding a zone, or its failure |
| Registry.Center.RemoveZone | src/center.rs:83-106 | The same for removing a zone; the update is sent even if there is no such zone, and the state is marked only if the zone had a policy |
| Registry.Center.ChangePolicy | src/zone/mod.rs:195-258 | The same for changing a policy, with its three errors |
| Registry.Center.ReloadAll | src/policy/mod.rs:47-138 | The two loops over files and over remaining policies against the specification |
| DelayedSaves.ChangesAreAwaited | src/zone/mod.rs:116-160 | In every run a marked change without a snapshot is awaited by a live, unstopped task that has the slot and whose snapshot will have all changes |
| DelayedSaves.StoppedTasksNeverSave | src/zone/mod.rs:164-192 | In every run a task saves at most once, and never if an immediate save took its slot, even if it could not be stopped in time |
| DelayedSaves.AtMostOneSaveEnqueued | src/center.rs:181-217 | At every moment at most one save is enqueued |
| DelayedSaves.QuietMeansSaved | src/zone/mod.rs:116-192 | Once no task is left, everything is saved |
| DelayedSaves.Saver.MarkDirty | src/zone/mod.rs:116-160 | Marking enqueues one task, unless one is enqueued |
| DelayedSaves.Saver.SaveNow | src/zone/mod.rs:164-192 | An immediate save takes the slot, stops its task and snapshots |
| KeyManager.AtMostFiveCronRuns | src/units/key_manager.rs:133-246 | Whatever happened before, at most five cron runs are started for a zone while its key state file stays the same |
| KeyManager.CronRunsToTheLimit | src/units/key_manager.rs:207-237 | Five it is if cron keeps succeeding without effect, and then none |
| KeyManager.CronRunsIffDue | src/units/key_manager.rs:133-246 | Once a zone's file is found new its time is recorded, and while it stays the same a tick runs cron iff it names a time, fewer than five crons were run since, all of them succeeded, and the time, put off by a minute for each, is past |
| KeyManager.RetriesStayBelowFive | src/units/key_manager.rs:258-260 | The recorded retries stay below five in every run |
| KeyManager.ChangesResign | src/units/key_manager.rs:150-207 | Every change of the recorded modification time sends a re-sign event, exactly one if modification times do not go back |
| KeyManager.ResignsOnlyIfChanged | src/units/key_manager.rs:150-207 | A tick sends at most one event for a zone, iff a look at the file found another modification time than the recorded one |
| KeyManager.Manager.Tick | src/units/key_manager.rs:133-246 | The loop over the zones ticks each once by itself, runs cron and sends events for just the zones whose ticks ask for it, in order |
| LightWeightZone.HoldsTheLatest | src/common/light_weight_zone.rs:217-305 | After any updates, removals and clears the zone has for each owner and type what the last one that concerns them left |
| LightWeightZone.SkipsAndCounts | src/common/light_weight_zone.rs:237-249 | A zone that skips signatures never holds the DNSSEC types, and counts just what it skipped since it was last opened |
| LightWeightZone.ReplaceMeans | src/common/light_weight_zone.rs:252-262 | Replacing in the set keeps one RRset per type and changes only the given type |
| LightWeightZone.LightWeightZone.Query | src/common/light_weight_zone.rs:110-127 | A query gets the RRset of its owner and type, or an empty answer |
| LightWeightZone.LightWeightZone.Walk | src/common/light_weight_zone.rs:129-138 | A walk visits each RRset, and each once |
| LightWeightZone.SimpleZoneNode.UpdateRrset | src/common/light_weight_zone.rs:233-267 | An update of a node refines the update of a map from owner and type to RRset, or is skipped and counted |
| LightWeightZone.SimpleZoneNode.RemoveRrset | src/common/light_weight_zone.rs:269-278 | A removal refines the removal from that map |
| LightWeightZone.SimpleZoneNode.RemoveAll | src/common/light_weight_zone.rs:300-305 | Clearing any node clears the whole zone |

## Left out

- Network clients and servers, message building and parsing, TSIG and connections: each SOA query or transfer is an
  arbitrary answer.
- RRSIG, NSEC and NSEC3 generation and key loading: one arbitrary function from an owner's records to its
  signatures or an error. That the receiver of the channel is gone is not modelled.
- HTTP routes, the command line, status pages, logging, configuration layering and the TSIG key store.
- NOTIFY sending, name server discovery and status requests of the zone maintainer.
- Interleavings inside one handler: the copies of zone trees and their stores are atomic steps, so that a tree
  update lost between a copy and its store is not modelled, and nothing is claimed about it.
- The bound of 10 on the maintainer's event channel: the queue is unbounded and no deadlock freedom is claimed.
- The least time between two refreshes of a zone, which is zero in the source: no refresh is ever too early for it.
- The maintainer starts without zones; its pass over an already filled tree on startup is not modelled.
- The order in which the maintainer's event loop prefers timers to events: any order is allowed.
- Zone contents in the pipeline: a signed content is represented by its SOA serial and a number of its own, an
  unsigned one by its serial. A signed zone is committed and announced in one step, and its serial is read and its
  records are walked in one step.
- PublishedContent.PublicationShowsTheApprovedIff: commands carry a serial only, so that an approval cannot tell two
  signings at one serial apart; the statement is about some signing announced at the serial.
- The order of file writes, and failures of writing: snapshots are taken under a lock, files are written outside.
- Signing a zone that has no policy, on which the signer's unwrap panics: zones of the pipeline have one.
- Files that vanish between two looks, on which the key manager's unwraps panic.
- ZoneDiffs.IncrementalTransferIsFaithful: contents are sets of records and serials stay within a window of 2^31;
  other stores are covered by AnswersAreLinked and AlwaysLinkedIff only.
- SignerStatus.NoPanicIffOnePermit: operations are assumed to overlap as far as their permits allow, although the
  command loop runs them one after the other.
- KeyManager.AtMostFiveCronRuns: a cron that could not be invoked counts as a run.
- RetryExpiry.RetryingEnds: as the property demands, no NOTIFY and no manual refresh of the zone comes in between.
- ZoneMaintainer.ZoneMaintainer.InsertZones: the copy of the zone tree, the events and the store are one step, and
  zone ids are inserted once, so that the error on a duplicate is not modelled.
- ZoneMaintainer.ZoneMaintainer.OnEvent: the event that asks for a status report is left out.
- SignerChunks.SignConcurrently: what can fail before signatures are generated, such as loading keys, is left out.
- MaintainerHistory.ZonesOnlyMoveToActive: zone ids are inserted once.
