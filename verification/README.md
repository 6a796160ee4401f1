# openshift-acme: a verified model

openshift-acme keeps TLS certificates on OpenShift Routes. Its route controller is a crash-tolerant
state machine: the only memory it has is a status annotation on the Route (order URI, order state,
failure count, start time), and it is driven by a work queue against an ACME server (RFC 8555) and an
API server with optimistic concurrency. This project models that controller and the smaller machines
around it, and proves what every run of them keeps.

`dafny verify dfyconfig.toml` checks everything.

## Reading order

| files | what they hold |
|---|---|
| `Api.dfy`, `GoMath.dfy` | Routes, the status annotation, the guards; Go's division, saturation, wrap-around |
| `Renewal.dfy`, `Backoff.dfy` | when a certificate is due, when to look again; the retry delay |
| `Issuance.dfy` | storing a certificate under write conflicts |
| `Orders.dfy` | one provisioning step as a decision table over the outside world's answers |
| `Authorizations.dfy` | the loop over a pending order's authorizations, told from the answers |
| `RouteSync.dfy` | the same step as the imperative `sync`, proved to take that decision |
| `OrderRuns.dfy`, `OrderProgress.dfy`, `OrderWitnesses.dfy` | whole runs: the invariant, conservation, failure accounting, wakeups, quiescence, no dead end, and why the assumptions are needed |
| `OrderDecisions.dfy` | what a sync does in any world, told from Route, status and answers, and for whom |
| `RouteQueue.dfy` | the work queue around those syncs: no Route is forgotten |
| `Mirror.dfy`, `MirrorRuns.dfy` | the Route-to-Secret mirror, one sync and every interleaving |
| `Rounding.dfy`, `LimitRanges.dfy`, `ResourceFitting.dfy` | rational rounding, the LimitRange fold, and its in-place loops |
| `ExposerFile.dfy` | the exposer's response file: printer, parser, lookup |
| `Temporary.dfy` | exposer objects: never provisioned themselves, removed exactly |
| `Accounts.dfy`, `AccountSync.dfy` | account registration as a decision and as the imperative `sync` |
| `AccountRuns.dfy` | its gate in front of orders, in every interleaving |
| `Profile.dfy` | the round tripper that asks for a certificate profile |

## Assumptions

- Each sync reads the current Route (`OrderWitnesses.StaleCacheBreaksConservation` shows why); users
  may edit everything on the Route except the status annotation.
- The ACME server answers with states it knows, its final states absorb, it answers 404 only for an
  order that is gone for good, and it hands out a new order URI or one that is still open. It returns
  an account only to a key it has registered.
- A write may be refused, done, or done although the client saw an error. A call that created an order
  may also look failed to the client. The clock does not run back.
- Quantities in LimitRanges are not negative and their milli-value fits an int64.
- The clock, the network, key generation and all answers of other systems are parameters.

## Where the code differs from its apparent intent

The model follows the code; each gap has its own statement.

- The backoff loop multiplies up from zero, so it never waits and the rate-limit branch is unreachable
  (`Backoff.WrittenNeverWaits`, `OrderRuns.ReachableStatus`).
- A 404 clears the order URI but keeps the state (`OrderRuns.OrphanedOnlyAfterNotFound`).
- The status patch stores JSON while the comparison before it uses YAML, so after a patch the
  comparison never saves a call; only the watch sees whether anything changed
  (`Orders.PatchIsNeverSaved`).
- Two exits of a sync arrange no wakeup (`OrderRuns.NoLostWakeup`); a Route that took one of them sleeps
  through everything the ACME server does, until an edit, an event of its own objects or the informer's
  resync (`RouteQueue.ServerMovesGoUnnoticed`).
- A failed order whose report is lost and which the server then deletes is never counted
  (`OrderWitnesses.LostReportThenNotFoundIsNeverCounted`). The failure count falls short of the failed
  orders by exactly the orders dropped that way and the one whose report is still outstanding
  (`OrderRuns.FailureAccounting`).
- The comparison that is to keep a failed order from being counted twice never decides anything: an order
  recorded as failed is let go before it is looked at again (`OrderDecisions.PollingOutcome`).
- An error from the loop that stores a certificate does not mean that nothing was stored
  (`Issuance.LastAttemptDecides`, `Issuance.ErrorMayHaveStored`).
- The mirror looks its Secret up under the Route's name, not the annotated one
  (`Mirror.MirrorsAnnotatedNameIff`, `Mirror.OtherNameNeverFollows`).
- LimitRange Max is compared before the value is raised to Min (`LimitRanges.UnreportedMaximum`,
  `LimitRanges.MaxesHoldIff`), and a limit finer than a thousandth can be exceeded by its request
  (`LimitRanges.FineLimitIsExceeded`, exactly when: `LimitRanges.WithinLimitsIffTight`).
- A line of the exposer file that is all white space is skipped even if it was printed from a binding
  (`ExposerFile.SurvivesIff`).
- A registering account sync reports NotFound and finishes on the retry
  (`Accounts.RegistrationFinishesOnRetry`); contact changes are never sent to the CA, because an array
  is compared with a slice (`Accounts.ContactsAreNeverPushed`).
- The mirror with another name overwrites a Secret under the Route's own name, if some Route owns it
  (`Mirror.OtherNameOverwritesOwn`).
- The gate in front of orders looks at the Secret's name only, and reads ConfigMap and Secret at different
  moments. Orders use registered keys exactly when no
  Secret can be enrolled at one directory and claimed for another (`AccountRuns.RegisteredIffSeparated`);
  two issuers sharing a Secret break this, and so does one issuer whose directory is edited, even if it
  leaves the Secret's name to the controller (`AccountRuns.EditedDirectoryIsUnsafe`).

## Model

| member | source | states |
|---|---|---|
| Api.IsAdmitted | pkg/route/route.go:9-23 | true exactly when some router reports admission and none refuses |
| Api.AdmittedIff | pkg/route/route.go:9-23 | by router and condition: one refusal outweighs any number of admissions, and silence is no admission |
| Backoff.Compute | pkg/controller/route/route.go:572-579 | the loop yields 0, or the cap when the cap is not positive and something failed |
| Backoff.Intended | pkg/cmd/openshift-acme-controller/openshift-acme-controller.go:160-161 | the documented capped exponential: within the cap, at least the initial value after a failure |
| Backoff.IntendedMonotone | pkg/cmd/openshift-acme-controller/openshift-acme-controller.go:160-161 | the documented backoff never shrinks as failures grow |
| Backoff.WrittenNeverWaits | pkg/controller/route/route.go:571-580 | the written loop is 0 and strictly below the documented value after any failure |
| Renewal.ThresholdWindow | pkg/controller/route/route.go:407-421 | the threshold lies in [L/3, L/2), and is L/3 exactly for the lifetimes where that window is empty |
| Renewal.ThresholdFollowsSeed | pkg/controller/route/route.go:412-421 | counted from L/3 the threshold is the certificate's seed modulo the window; two seeds share it exactly when congruent |
| Renewal.ThresholdCoversWindow | pkg/controller/route/route.go:407-421 | every point of the window is the threshold of some seed |
| Renewal.BatchIsSpread | pkg/controller/route/route.go:407-411 | certificates issued together renew together exactly when their seeds agree modulo the window |
| Renewal.ReasonTold | pkg/controller/route/route.go:443-461 | which reason is given: outside the validity, in the last third, or past the certificate's own point |
| Renewal.HealthyIffBeforeInstant | pkg/controller/route/route.go:443-466 | despite three conditions and saturation, healthy means exactly before NotAfter minus threshold |
| Renewal.RouteIsHealthyIff | pkg/controller/route/route.go:423-467 | which Routes are left alone and which cannot be judged, told from key, certificate, hosts and time |
| Renewal.NeverLate | pkg/controller/route/route.go:447-466 | a requeue fires no later than the renewal instant, and on it exactly when the remaining time does not saturate |
| Renewal.RenewalMonotone | pkg/controller/route/route.go:443-466 | once due, always due; before that the delay shrinks by exactly the time passed |
| Renewal.EarlyEvaluationIsNotMonotone | pkg/cert/cert.go:61-63 | before NotBefore the verdict is a renewal that goes away later |
| Renewal.WakeupsReachInstant | pkg/controller/route/route.go:593-596 | the chain of requeues is healthy until it ends on the renewal instant, within a bound on its length |
| RouteSync.RouteController.UpdateStatus | pkg/controller/route/route.go:486-522 | no call when the YAML is stored already, else a merge patch of the status alone |
| Orders.PatchIsNeverSaved | pkg/controller/route/route.go:489-496 | after a patch the same status is patched again, with no effect but a chance to fail |
| RouteSync.RouteController.FindChallenge | pkg/controller/route/route.go:724-729 | the last http-01 challenge |
| RouteSync.RouteController.Attend | pkg/controller/route/route.go:705-1101 | how one turn of the loop ends, told from the authorization, its last http-01 challenge and its exposer |
| RouteSync.RouteController.SatisfyAuthorizations | pkg/controller/route/route.go:704-1103 | the loop ends and requeues as the walk does, whose ends `Authorizations.WalkEnds` tells from the answers |
| RouteSync.RouteController.AuthorizeOrder | pkg/controller/route/route.go:663-677 | which orders exist, and which are lost, after a new-order call |
| RouteSync.RouteController.ReportFailure | pkg/controller/route/route.go:1193-1232 | a failed order is counted exactly when its report is stored |
| RouteSync.RouteController.Sync | pkg/controller/route/route.go:524-1237 | error, requeues and the whole new world of a sync are those of the decision table |
| RouteSync.RouteController.Guarded | pkg/controller/route/route.go:547-580 | deletion, management, admission and decoding guards, and the refreshed earliest attempt; `OrderRuns.SkipIff` says whom they let through |
| RouteSync.RouteController.Examine | pkg/controller/route/route.go:582-604 | rest, settle or provision according to the certificate and the stored order |
| RouteSync.RouteController.Continue | pkg/controller/route/route.go:608-690 | previous order dropped or throttled, new order opened, or order fetched |
| RouteSync.RouteController.Advance | pkg/controller/route/route.go:694-1236 | the switch on the fetched order's state |
| RouteSync.RouteController.Pursue | pkg/controller/route/route.go:699-1103 | a pending order: error, requeues and stored state by how the authorization loop ends |
| RouteSync.RouteController.Finalize | pkg/controller/route/route.go:1115-1191 | what a finalization leaves behind, with the certificate stored by the conflict-retry loop under foreign writes |
| OrderRuns.DecisionIsChosen | pkg/controller/route/route.go:587-690 | the stored status each action presupposes; throttling is never chosen |
| OrderRuns.StatusAfterLoop | pkg/controller/route/route.go:1156-1183 | however others write in between, the loop leaves the new status or the old one |
| OrderRuns.SyncKeepsInv | pkg/controller/route/route.go:524-1237 | every sync, however answered, however its writes end and whatever others write around the certificate, keeps the invariant |
| OrderRuns.RunKeepsInv | pkg/controller/route/route.go:524-1237 | so does every run |
| OrderRuns.OrderConservation | pkg/controller/route/route.go:608-677 | in every run the open orders are the recorded one and those whose URI was lost |
| OrderRuns.HealthyOrderIffOrphaned | pkg/controller/route/route.go:587-677 | a healthy certificate is ordered anew exactly when a state is left without URI and the account is usable |
| OrderRuns.ReachableStatus | pkg/controller/route/route.go:587-695 | after any run: no URI without a state; polling only from pending, processing or ready; an order for a healthy certificate exactly in an orphaned status; no rate limiting |
| OrderRuns.OrphanedOnlyByNotFound | pkg/controller/route/route.go:679-690 | the only step into a state without URI is a poll answered 404 |
| OrderRuns.OrphanedOnlyAfterNotFound | pkg/controller/route/route.go:679-690 | in every run such a status goes back to one sync answered 404 and has been there ever since |
| OrderRuns.FailureAccounting | pkg/controller/route/route.go:1193-1232 | failures = failed orders polled since the last certificate, less those dropped on a 404 uncounted, less one if the order on record failed unreported; equal exactly when there are none of these |
| OrderRuns.GoneIsNeverCounted | pkg/controller/route/route.go:686-690 | an order that is gone uncounted stays uncounted in every continuation |
| Authorizations.TurnIff | pkg/controller/route/route.go:711-1101 | a turn passes exactly for an authorization in a final state, asks for a recheck exactly when the server or the exposer is waited for, is refused exactly for resources, and fails exactly for the rest |
| Authorizations.WalkEnds | pkg/controller/route/route.go:704-1103 | the loop stops at the first authorization that neither is final nor waits; that one decides its end, and each waiting one before it has asked for a recheck after 15 seconds |
| Authorizations.WalkOutcome | pkg/controller/route/route.go:704-1103 | exactly when the loop ends with neither error nor requeue: all authorizations are final, or the first that is not is refused |
| Authorizations.DeclinedIff | pkg/controller/route/route.go:731-973 | exactly when an authorization is refused for resources, down to the LimitRange items at fault |
| OrderRuns.SkipIff | pkg/controller/route/route.go:547-564 | in every world a sync does nothing at all exactly for a Route being deleted, not managed, temporary or not admitted |
| OrderDecisions.ContactIff | pkg/controller/route/route.go:547-690 | the ACME server is contacted exactly for an entitled Route that wants a certificate, is not too early and has an account; an order is placed exactly if none is on record |
| OrderDecisions.RestIff | pkg/controller/route/route.go:566-634 | what happens to an entitled Route otherwise: error, rest until renewal, cleared order fields, or a wait for the earliest attempt |
| OrderDecisions.OrderingOutcome | pkg/controller/route/route.go:663-677 | what is recorded for each answer to a new-order request |
| OrderDecisions.PollingOutcome | pkg/controller/route/route.go:679-1236 | what is decided for each state of the order on record, with the status to store; every failed order met is counted |
| OrderDecisions.SameStateIsNotCountedAgain | pkg/controller/route/route.go:1193-1232 | an order in a failed state already recorded adds no failure |
| OrderDecisions.RequeuesAfterContact | pkg/controller/route/route.go:699-1113 | the requeues after talking to the server: those of the loop however it ended, one for an order in processing, else none |
| OrderDecisions.SuccessMeansStored | pkg/controller/route/route.go:486-522 | a sync that reports no error has stored the status it decided on; exactly the lost or unanswered patches are errors |
| OrderDecisions.FailedCallIsReported | pkg/controller/route/route.go:524-1236 | of the other syncs exactly those with a failed call or a senseless answer report an error, and they leave the Route as it is |
| OrderDecisions.IssueMeansStored | pkg/controller/route/route.go:1152-1191 | a reported certificate is on the Route with its key and status; reported exactly if one of five attempts is undisturbed and answered after nothing but lost races |
| OrderDecisions.LostKeyIsAnOrphan | pkg/controller/route/route.go:1142-1183 | a certificate issued but not stored leaves a valid order at the server and the history as it was |
| OrderDecisions.NotEntitledNotTouched | pkg/controller/route/route.go:547-564 | a run whose syncs never find the Route entitled orders, polls and writes nothing for it |
| OrderDecisions.CreatedForEntitled | pkg/controller/route/route.go:547-677 | every order of every run goes back to a sync that found the Route entitled, in want of a certificate and without a usable order |
| OrderRuns.SilentIffNothingToWaitFor | pkg/controller/route/route.go:587-1236 | in every world satisfying the invariant, the silent syncs are exactly the two exits |
| OrderRuns.NoLostWakeup | pkg/controller/route/route.go:587-1236 | after any run a sync arranges no wakeup exactly in the two silent exits, told from the inputs |
| RouteQueue.WorkIsFollowedUp | pkg/controller/route/route.go:1365-1382 | every sync errs, asks for a requeue or changes the Route, unless it leaves the Route alone or exits silently |
| RouteQueue.SkippedIffLeftAlone | pkg/controller/route/route.go:547-564 | exactly the Routes to be left alone are skipped, whatever is answered |
| RouteQueue.WorkLeavesSomethingIff | pkg/controller/route/route.go:1365-1382 | with nothing else outstanding, a sync leaves something outstanding exactly if the Route is not left alone and has something to wait for |
| RouteQueue.UnmanagedIsNeverQueued | pkg/controller/route/route.go:226-272 | a Route that never becomes managed is never queued, and nothing is ordered for it |
| RouteQueue.StepKeepsInv | pkg/controller/route/route.go:201-272 | syncs, watch events, expiring delays, nudges, edits, server moves and restarts keep the queue invariant |
| RouteQueue.RouteIsNeverForgotten | pkg/controller/route/route.go:201-295 | at every moment of every run something outstanding brings the Route back, or it is to be left alone, or its latest sync saw it as it is and exited silently |
| RouteQueue.ServerMovesGoUnnoticed | pkg/controller/route/route.go:1365-1382 | with nothing outstanding, no moves of the ACME server and no passing of time bring the Route back |
| OrderRuns.HealthySyncSettles | pkg/controller/route/route.go:587-604 | one sync of a healthy Route clears the order fields and contacts nobody |
| OrderRuns.Quiescence | pkg/controller/route/route.go:582-604 | from then on any number of syncs changes nothing and re-schedules the same instant |
| OrderProgress.DropStep | pkg/controller/route/route.go:679-690 | a sync that finds its order gone or failed lets go of it |
| OrderProgress.OpenStep | pkg/controller/route/route.go:663-677 | a sync without an order to look after opens and records one |
| OrderProgress.IssueStep | pkg/controller/route/route.go:1115-1191 | a sync of a ready order ends with the certificate stored |
| OrderProgress.NoDeadEnd | pkg/controller/route/route.go:524-1237 | from every reachable status a wanted certificate is at most three syncs and one server move away |
| OrderWitnesses.StaleCacheBreaksConservation | pkg/controller/route/route.go:536-547 | syncing an old copy of the Route opens a second order with no write lost |
| OrderWitnesses.LostReportThenNotFoundIsNeverCounted | pkg/controller/route/route.go:686-690 | from every world with a pending order on record, a run after which no legal continuation counts the failed order |
| Issuance.RouteStore.Update | pkg/controller/route/route.go:1178-1179 | accepted exactly under the current version |
| Issuance.RouteStore.TryOnce | pkg/controller/route/route.go:1158-1180 | one attempt ends stored, in a conflict or given up; the certificate is on top of the latest foreign version exactly if the attempt was undisturbed and its Update not lost |
| Issuance.RouteStore.StoreCertificate | pkg/controller/route/route.go:1156-1183 | under any foreign writes and lost answers: what is reported, and the latest foreign version with the certificate on top exactly if it lands |
| Issuance.LastAttemptDecides | pkg/controller/route/route.go:1156-1183 | success, storing, and storing with an error reported, each told from the attempt the loop ends with |
| Issuance.ErrorMayHaveStored | pkg/controller/route/route.go:1178-1183 | an undisturbed first attempt whose answer is lost stores the certificate and reports an error |
| Issuance.SuccessIsAnUndisturbedAttempt | pkg/controller/route/route.go:1156-1183 | success exactly when some attempt is undisturbed and answered and all earlier ones only lost races |
| Issuance.StoredWithinFiveAttempts | pkg/controller/route/route.go:1156-1183 | storing and success told from the circumstances of the five attempts |
| Issuance.NoLostUpdate | pkg/controller/route/route.go:1156-1183 | the Route left behind is the last foreign version met by the loop, with the certificate on top exactly if the last attempt lands |
| Issuance.CertificateWriteIsMinimal | pkg/controller/route/route.go:1164-1176 | only key, certificate and status change; TLS defaults only if there was none |
| Mirror.SecretApi.SyncRouteToSecret | pkg/controller/route/route.go:1239-1340 | store and error of one mirror sync |
| Mirror.SyncToldFromInputs | pkg/controller/route/route.go:1261-1338 | exactly when a sync writes, which Secret and what, and exactly when it errs; all else is untouched |
| Mirror.FilledMirrors | pkg/controller/route/route.go:1306-1323 | the filled Secret mirrors the Route, is unchanged exactly if it did before, and keeps other data |
| Mirror.MirrorsAnnotatedNameIff | pkg/controller/route/route.go:1271-1338 | exactly when the annotated Secret ends up mirroring the Route, in any namespace |
| Mirror.OtherNameNeverFollows | pkg/controller/route/route.go:1276-1329 | under another name an existing Secret is never touched again, whatever the Route, the caches and the writes |
| Mirror.OtherNameOverwritesOwn | pkg/controller/route/route.go:1276-1338 | such a sync overwrites the Secret under the Route's own name if a cached Route owns it, and otherwise fails and writes nothing |
| MirrorRuns.WriteKeepsInv | pkg/controller/route/route.go:1281-1338 | writing from what was read, however stale, keeps the mirror invariant |
| MirrorRuns.RunKeepsInv | pkg/controller/route/route.go:324-385 | so does every interleaving of users, events, worker steps, failures and restarts |
| MirrorRuns.MirrorNeverForgets | pkg/controller/route/route.go:1239-1401 | the Secret equals the Route's TLS or something outstanding will run the mirror again |
| MirrorRuns.UndisturbedSyncSettles | pkg/controller/route/route.go:1239-1340 | one undisturbed sync settles the mirror |
| MirrorRuns.MirrorComesToRest | pkg/controller/route/route.go:1239-1401 | left to itself the mirror is settled with nothing outstanding after at most two rounds, the second writing nothing |
| MirrorRuns.StaleCopyIsMirrored | pkg/controller/route/route.go:1252-1338 | a lagging cache is mirrored as it is, with the Route's event still to come |
| MirrorRuns.RouteEventQueuesIff | pkg/controller/route/route.go:201-246 | the Route events that queue the mirror |
| MirrorRuns.SecretEventQueuesIff | pkg/controller/route/route.go:324-385 | the Secret events that queue the mirror; one that appears does not |
| Rounding.QuoMilliRoundHalfDown | pkg/controller/route/route.go:1721-1738 | zero for a zero denominator, else the integer nearest to 1000·num/denom with ties toward zero, wrapped only if it does not fit an int64 |
| Rounding.RoundsToNearest | pkg/controller/route/route.go:1726-1737 | nearest integer for all signs, ties toward zero |
| Rounding.NearestIsUnique | pkg/controller/route/route.go:1726-1737 | that contract has only one solution |
| Rounding.QuoMilliIsNearest | pkg/controller/route/route.go:1721-1738 | within int64 the function is nearest to 1000·num/denom |
| LimitRanges.FixBounds | pkg/controller/route/route.go:1674-1683 | the corrected request lies between the request and the limit, both rounded up to a thousandth, within half a thousandth of limit/ratio |
| LimitRanges.FixRaises | pkg/controller/route/route.go:1705-1714 | the correction never lowers a request and is idempotent |
| LimitRanges.FixExceedsLimitIff | pkg/controller/route/route.go:1678-1681 | exactly when a correction ends above the limit |
| LimitRanges.RatioHoldsAfterFit | pkg/controller/route/route.go:1674-1683 | after an item, for a request above zero and a quotient that cannot overflow, the new limit is at most the ratio times the new request, but for half a thousandth |
| LimitRanges.RatioMayStayExceeded | pkg/controller/route/route.go:1678-1681 | a corrected request can still exceed the ratio slightly |
| LimitRanges.FitAllFits | pkg/controller/route/route.go:1648-1716 | nothing decreases, every Min holds at the end, requests stay within limits to the thousandth |
| LimitRanges.FinalLimitIsGreatest | pkg/controller/route/route.go:1657-1672 | the final limit is the greatest of the initial one and all Mins, in any order of items |
| LimitRanges.TightLimitsAreNeverExceeded | pkg/controller/route/route.go:1645-1719 | if the limit is in whole thousandths or close to the request, the request stays within it under any items |
| LimitRanges.LooseRequestEscapes | pkg/controller/route/route.go:1645-1719 | otherwise there is an item that lifts the request above limit and Max, with no error and its Min under its Max |
| LimitRanges.WithinLimitsIffTight | pkg/controller/route/route.go:1645-1719 | so requests stay within a limit under all items exactly when it is tight |
| LimitRanges.FineLimitIsExceeded | pkg/controller/route/route.go:1678-1681 | request 1m, limit and Max 99.5m and ratio one end with a request of 100m and no error |
| LimitRanges.MaxesHoldIff | pkg/controller/route/route.go:1657-1672 | for a tight limit, every Max holds at the end exactly when no error is reported and every Min is under every Max |
| LimitRanges.MaxesToldByErrorsIffTight | pkg/controller/route/route.go:1657-1683 | and being tight is necessary for that to hold under all items |
| LimitRanges.ErrorsAreLasting | pkg/controller/route/route.go:1666-1670 | an error is reported only for a Max that is exceeded at the end |
| LimitRanges.ErrorsIff | pkg/controller/route/route.go:1657-1672 | for a request within a tight limit, an error is reported exactly when some Max is below the initial limit or below an earlier Min |
| LimitRanges.UnreportedMaximum | pkg/controller/route/route.go:1660-1670 | a Min above Max passes unreported |
| ResourceFitting.Requirements.RaiseAndCheck | pkg/controller/route/route.go:1657-1672 | raise to Min, check the value before raising |
| ResourceFitting.Requirements.FixRatio | pkg/controller/route/route.go:1674-1683 | the request is corrected in place, other resources untouched |
| ResourceFitting.Requirements.Adjust | pkg/controller/route/route.go:1645-1719 | the nested loops over the maps are the per-resource fold, and the errors add up; by items, nothing is lowered, every Container and Pod Min holds, and a limit is raised only to such a Min |
| ResourceFitting.BoundsComeFromItems | pkg/controller/route/route.go:1648-1652 | exactly the items for containers and pods reach the fold, in the order in which they are listed |
| ResourceFitting.FittedByItems | pkg/controller/route/route.go:1648-1716 | what the fold leaves of a request and a limit, by the items of the LimitRanges |
| ResourceFitting.ErrorsByItems | pkg/controller/route/route.go:1648-1716 | for a request within a tight limit, errors occur exactly when a Container or Pod item has a Max below the limit or below an earlier such Min |
| ResourceFitting.FitExposer | pkg/controller/route/route.go:936-973 | the container as it is built and fitted: errors exactly for unfittable LimitRanges, requests and limits by items |
| ResourceFitting.RefusedIff | pkg/controller/route/route.go:936-973 | the container is refused exactly when a Container or Pod item has a Max below 50Mi or 100m or below an earlier such Min |
| ExposerFile.Server.ParseData | pkg/httpserver/http.go:72-91 | the table and the bad line after parsing |
| ExposerFile.Server.Handle | pkg/httpserver/http.go:42-70 | 200 with the stored response, else 404 |
| ExposerFile.RoundTrip | pkg/httpserver/http.go:72-91 | printing and parsing serves the last response of every URI and fails on no line |
| ExposerFile.SurvivesIff | pkg/httpserver/http.go:76-87 | a binding survives exactly when its line is not all white space |
| ExposerFile.TabIsDropped | pkg/httpserver/http.go:76-78 | a URI without spaces or newlines that is lost |
| ExposerFile.ChallengeIsServed | pkg/controller/route/route.go:848-850 | what the controller writes for a token is served back verbatim |
| ExposerFile.ErrorKeepsEarlierLines | pkg/httpserver/http.go:80-84 | an error at a line leaves exactly the bindings of the lines before it |
| ExposerFile.CutFailsIff | pkg/httpserver/http.go:80-86 | a line is rejected exactly when it has no space, otherwise cut at the first one |
| Temporary.DeleteMatching | pkg/controller/route/route.go:1740-1787 | exactly the keys a valid, non-empty pattern matches are deleted |
| Temporary.BuildExposerRoute | pkg/controller/route/route.go:759-794 | whatever the filters, the marks and the owner are set; apart from them exactly the annotations, the status among them, and labels that survive their filter are kept, and the rest of the Route is copied |
| Temporary.ExposersAreNeverProvisioned | pkg/util/util.go:22-43 | whatever its filters, an exposer Route is skipped by every sync |
| Temporary.CleanupIsExact | pkg/controller/route/route.go:1342-1363 | cleanup and collection remove the temporary objects of the Route and nothing that collection alone would leave |
| Temporary.CleanupIsExactInEveryRun | pkg/controller/route/route.go:1342-1363 | so they do after any run of creations, exposures from cached owners, cleanups, deletions by anyone and partial collections |
| Temporary.UnownedObjectSurvives | pkg/controller/route/route.go:1342-1363 | cleanup deletes Routes only: a labelled object of another kind that nobody owns survives |
| Temporary.LabelledUserRouteIsDeleted | pkg/controller/route/route.go:1352-1356 | a user Route labelled by hand is deleted too |
| Accounts.ContactsAreNeverPushed | pkg/controller/issuer/acme/acme.go:400-411 | the update branch is unreachable |
| Accounts.EnrollmentTold | pkg/controller/issuer/acme/acme.go:344-389 | what a sync without Secret registers and creates for each answer; a Secret is never replaced |
| Accounts.CompletionTold | pkg/controller/issuer/acme/acme.go:391-448 | what a sync with a Secret writes, field by field, and exactly when it writes and errs |
| Accounts.OtherwiseNothing | pkg/controller/issuer/acme/acme.go:296-348 | in every other case nothing changes, and exactly a ConfigMap going away or not for ACME is no error |
| AccountRuns.OrdersUseRegisteredKeys | pkg/controllerutils/controllerutils.go:93-123 | if no Secret is enrolled at one directory and claimed for another, then however the single reads and writes interleave, orders use keys registered at their CA, and registrations add up with Secret creations |
| AccountRuns.SharedSecretIsUnsafe | pkg/controllerutils/controllerutils.go:113-122 | a Secret that can be enrolled at one directory and claimed for another leads to an order under a key its CA never saw |
| AccountRuns.RegisteredIffSeparated | pkg/controllerutils/controllerutils.go:93-123 | keeping them apart is necessary and sufficient |
| AccountRuns.EditedDirectoryIsUnsafe | pkg/controllerutils/controllerutils.go:93-122 | one issuer whose directory is edited is enough, with its Secret's name written out or not |
| Accounts.SettledIsFixpoint | pkg/controller/issuer/acme/acme.go:391-448 | once settled, an account sync does nothing |
| Accounts.OneSyncSettles | pkg/controller/issuer/acme/acme.go:391-448 | one undisturbed sync with a Secret settles the issuer with the account's own URI, contacts, orders URL and status; an account answer is needed only without a URI |
| Accounts.RegistrationFinishesOnRetry | pkg/controller/issuer/acme/acme.go:344-448 | a registering sync errs and leaves the ConfigMap alone; once the Secret is cached the retry succeeds and settles |
| AccountSync.AccountController.Register | pkg/controller/issuer/acme/acme.go:350-385 | accounts, Secret and counters after a registration, with either answer lost or not |
| AccountSync.AccountController.Sync | pkg/controller/issuer/acme/acme.go:280-449 | error and new state of an account sync |
| AccountSync.AccountController.DeletedSecret | pkg/controller/issuer/acme/acme.go:255-277 | exactly the ACME issuers naming the deleted Secret are requeued |
| Profile.RoundTripper.RoundTrip | pkg/controller/route/route.go:1520-1576 | learned URL, forwarded request and outcome of one exchange |
| Profile.URLIsLastAdvertised | pkg/controller/route/route.go:1534-1550 | over any trace the URL is that of the last directory advertising the profile |
| Profile.EveryOrderAsksForTheProfile | pkg/controller/route/route.go:1520-1617 | over any trace, told from the exchanges: a POST with claims to the newOrder URL last offered with the profile is forwarded exactly if the signer works, with the profile, other claims intact and correctly signed; other bodies there are refused; all other requests pass unchanged |
| Profile.RewriteIsIdempotent | pkg/controller/route/route.go:1578-1617 | rewriting twice is rewriting once |

## Left out

- Kubernetes clients, informers, leader election and the event recorder: represented by stores with versions, caches and event logs.
- RSA, SHA, PEM, X.509, YAML and JSON encodings: taken as one-to-one; hostname matching is membership in a set of hosts; JSON numbers are not rounded to floats.
- NewCertificateFromDER, getTemporaryName and the trimming in certProfileForRoute: encoding and hashing of text.
- The exposer objects inside the route controller's runs: a sync sees them as answers; their life is modelled on its own.
- ValidateExposedToken and the HTTP server's life cycle: self-validation is one of the answers a sync is given.
- The order in which issuers are preferred: the comparator is not a strict order, so any candidate ConfigMap may be chosen.
- Lagging reads in the route controller's queue: a sync there reads the Route and acts in one step; the mirror's queue has separate reads.
- Foreign writes during a sync of the route controller, other than around the certificate write: they happen between syncs.
- Quantity.MilliValue overflow, and LimitRange ratios below one, which the API server does not admit.
- Controller options, flags, signals, version, pod security contexts and manifests: plumbing with easy properties.
- Account Secrets written by users: only the account controller creates them, so a key brought along by a user is not modelled.
- Changes of the Secret's name annotation, and Secrets whose owner reference users remove: outside the mirror's theorem.
