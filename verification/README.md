# Verification of rl-nginx

A Dafny model of the RateLimitly nginx module, with proofs. It covers

- the admission lifecycle of one nginx worker: handler entry, completion, timer expiry, cleanup,
  steering feedback, rebinding, UDP read batches and the log phase, with synchronous re-entry and
  release of requests under a running callback (`Admission*.dfy`);
- the adapter between the client's lookups and the nginx resolver (`Resolver.dfy`);
- the configuration tables, their directives and the merging of contexts (`Config.dfy`), and the
  expansion of rules into a request (`Expansion.dfy`), which the handler submits (`Submission.dfy`);
- request-policy arithmetic and its textual form (`Policy.dfy`), number and rate parsing
  (`Numeric.dfy`), the nameserver line parser (`ResolvConf.dfy`), the SRV array builder
  (`SrvRecords.dfy`), initialization backoff (`WorkerInit.dfy`);
- the domain-name codec of the local test resolver (`DnsName.dfy`), sections 3.1 and 4.1.4 of RFC 1035.

`dafny verify dfyconfig.toml` checks all of it.

## How the admission model is built

`Admission.dfy` is an abstract machine in which a context has one status and there are no counters.
`AdmissionSafety.dfy` proves an inductive invariant of it for every behaviour of nginx and of the C
client within their rules, and `AdmissionTheorems.dfy` states what that means over whole runs.
`AdmissionMeaning.dfy` says what the single steps do without naming the functions that define them,
and `AdmissionSteering.dfy` when the source port changes over whole runs.
`AdmissionWorker.dfy` is the program: the class `Worker` has the redundant flags, the two counters,
the stack observer of the timeout handler and the rebind flags, its methods follow the functions of
the module, and each is proved to take the corresponding step of the machine. Memory is explicit, so
that an access to a released context is an access to an absent map key, which does not verify.

The C client is an environment with the rules of docs/c-client.md:71-111: a failed start calls
nothing back, a started check has an unused handle and a deadline and is not completed before the
start returns, a due deadline completes synchronously, leaves the check live, fails or has no
deadline left, and a cancel calls nothing back. nginx is an environment that enters no handler of a
request whose cleanup list has run, does not redirect a request while its check is pending, and frees
a request only at reference count zero. The second of these rules is needed for a completion to reach
its context (`RedirectWhileWaitingLosesCompletion`), but not for one check per request:
`AdmissionOnce.dfy` proves that for redirects at any time, as spec/implementation.md:151-156 asks. The
first is needed for it (`EntryAfterCleanupStartsAgain`).

`Resolver.dfy` treats the resolver and the client in the same way: which allocations are granted, what
nginx does and what the client does in its callbacks, which may start and cancel other lookups to any
depth, are arguments of the runs.

## Where code and documentation differ

- docs/operations.md:26-28 says that latency samples are sent only after a valid allow. The code
  (src/ngx_http_ratelimitly_module.c:3856-3862) also sends them for requests without an outcome and
  after fail-open. `ReportsWithoutValidAllow` gives a run for each, and `DocumentedReportRule` says
  that the two agree exactly when the outcome is neither. spec/behavior.md:202-208 states the rule the
  code follows, so that docs/operations.md disagrees with it as well.
- integration-tests/local_dns_server.py:43-50 reads a length byte of 64 to 191 as a label length,
  which section 3.1 of RFC 1035 does not allow; `OverlongLabelIsDecoded` shows it. The model follows
  the code.
- When the cleanup handler cannot be registered the handler returns 500 but leaves a decline stored
  (src/ngx_http_ratelimitly_module.c:660-667); `NewContextIsWaitingOrDecided` says that this is the
  only exit at which the two differ.

## Model

| member | source | states |
|---|---|---|
| `AdmissionTheorems.EveryCheckRetiredOnce` | src/ngx_http_ratelimitly_module.c:3712-3815 | In every run of a worker, every check ever started was ended exactly once (by one completion or one cancel) and given up exactly once by its context, except the checks live now; each of those has a waiting context with an armed timer. |
| `AdmissionTheorems.RebindsAreSafeAndNotLost` | src/ngx_http_ratelimitly_module.c:3595-3635 | Whenever the endpoint was replaced in a run, no check was live and no context waited at that moment; a wanted rebind with nothing in flight always has its event scheduled. |
| `AdmissionOnce.AtMostOneCheckPerRequest` | src/ngx_http_ratelimitly_module.c:499-515 | Whatever phase entries, redirects and re-entries happen, also redirects while the check is pending, one main request starts at most one check. |
| `AdmissionOnce.ReentryWaits` | src/ngx_http_ratelimitly_module.c:645-647 | A handler entered again while the check of the context it finds, in the slot or on the cleanup list, is pending answers that it waits, starts nothing and only refills the slot. |
| `AdmissionOnce.RedirectedContextIsFound` | src/ngx_http_ratelimitly_module.c:499-515 | In every run the context of a started check is found again after its slot is cleared, until the cleanup list has run, and it waits or is decided. |
| `AdmissionOnce.RunOnce` | src/ngx_http_ratelimitly_module.c:490-976 | Every run, also with redirects of pending requests, keeps the slots and cleanup lists such that contexts are reused, every context waiting or settled by a completion has sizes its check was started with, and a request for which no entry may start a check has started none. |
| `AdmissionOnce.BypassedEntriesStartNothing` | src/ngx_http_ratelimitly_module.c:612-640 | In every run a main request whose handler is only entered for subrequests, for locations without admission or with the module off has started no check, and no context of it waits or was settled by one. |
| `AdmissionTheorems.OutcomesAreCoherent` | src/ngx_http_ratelimitly_module.c:3929-3992 | In every run a context settled by a completion keeps the verdict that the five kinds of completion call for, unless it was aborted since; a stored valid allow rests on a delivered result of exactly the expected size with every guard passed and every deficit zero; valid deny, fail-open and fail-close carry the matching decision; a context sends at most one latency report. |
| `AdmissionTheorems.VerdictVariableMeans` | src/ngx_http_ratelimitly_module.c:524-559 | In every run the verdict variable has a value if and only if the context the request finds was settled by a delivered result of exactly the stored sizes and not aborted since, and the value is whether that result allows. |
| `AdmissionTheorems.TimerRetiresOrRearms` | src/ngx_http_ratelimitly_module.c:3712-3771 | A timer event either leaves its check waiting with an armed timer, or ends it once and gives it up once before anything else is observed. |
| `AdmissionTheorems.ReentryReturnsDecision` | src/ngx_http_ratelimitly_module.c:641-648 | A handler entered again for a request whose context, in the slot or on the cleanup list, is decided returns the stored decision, starts nothing and only refills the slot. |
| `AdmissionTheorems.ActKeepsDecision` | src/ngx_http_ratelimitly_module.c:640-648 | Whatever nginx does to any request, short of ending this one, its stored decision stays. |
| `AdmissionTheorems.CompletionDecides` | src/ngx_http_ratelimitly_module.c:3901-3992 | A check that the client completed, or that the timeout handler cancelled and settled by hand, leaves its request decided with the verdict of that completion, which is the valid allow, the valid deny, or the failure policy with the cause its kind calls for. |
| `AdmissionMeaning.CompletionStores` | src/ngx_http_ratelimitly_module.c:3901-3992 | A completion of a waiting context stores the verdict its kind calls for; the verdict variable then has a value exactly for a delivered result of the stored sizes, and says whether it allows. |
| `AdmissionMeaning.GivenUpVerdict` | src/ngx_http_ratelimitly_module.c:3757-3767 | A deadline the client cannot keep is settled by the failure policy, as a timeout if the client returned that, as a dependency error if it failed otherwise or lost the deadline. |
| `AdmissionMeaning.BypassChangesNothing` | src/ngx_http_ratelimitly_module.c:612-640 | A subrequest, a location that asks for nothing and a module that is off are declined; no context, check, history or count changes, only a slot may be refilled, and for a subrequest not even that. |
| `AdmissionMeaning.FirstEntryMeans` | src/ngx_http_ratelimitly_module.c:640-654 | An entry of a request without a reusable context makes a new one, or returns 500 and changes nothing if none can be allocated. |
| `AdmissionMeaning.NewContextMeans` | src/ngx_http_ratelimitly_module.c:650-975 | The code returned and the verdict stored at every exit of the handler: 500 with a decline stored if registration fails, the failure policy with its cause for a missing worker, a failed build or a failed start, a decline without rules or admission, an internal error for the rest; it waits, with its check counted, armed and live, exactly if the check was started and the socket is read, and a check whose socket is not read is cancelled and given up at once. |
| `AdmissionMeaning.FeedbackMeans` | src/ngx_http_ratelimitly_module.c:2722-2733 | Feedback that keeps the port changes nothing; other feedback wants a rebind, scheduled at once exactly if nothing waits and none is scheduled. |
| `AdmissionMeaning.RebindMeans` | src/ngx_http_ratelimitly_module.c:3612-3635 | The rebind event replaces the endpoint exactly if that is wanted, nothing waits and a socket could be opened, and then nothing is wanted any more; it retries after a second if no socket could be opened; otherwise it only clears its timer. |
| `AdmissionSteering.KeptPortStays` | src/ngx_http_ratelimitly_module.c:2722-2733 | From any world without a wanted rebind, a run in which every steering feedback keeps the port ends with the same endpoint and no rebind wanted. |
| `AdmissionSteering.UnkeptPortIsReplaced` | src/ngx_http_ratelimitly_module.c:2722-2733 | After any run that leaves nothing waiting, feedback that does not keep the port has the rebind event scheduled, and that event with a new socket makes it the endpoint. |
| `AdmissionMeaning.EarlyExpiryRearms` | src/ngx_http_ratelimitly_module.c:3733-3741 | A timer that fires early re-arms with the remaining delay and changes nothing else. |
| `AdmissionMeaning.ReadBatchMeans` | src/ngx_http_ratelimitly_module.c:3637-3710 | A read batch hands the client exactly the datagrams before the first read that yields none, at most 64, in order. |
| `AdmissionMeaning.CleanupMeans` | src/ngx_http_ratelimitly_module.c:3817-3828 | Cleanup of a pending check cancels it once and marks the request aborted; of any other context it keeps the verdict and the checks. |
| `AdmissionMeaning.BrokenConnectionAborts` | src/ngx_http_ratelimitly_module.c:3848-3855 | The log phase on a broken connection marks a request with an unsent report aborted and sends nothing. |
| `AdmissionMeaning.ReportedValue` | src/ngx_http_ratelimitly_module.c:3870-3882 | A report carries the elapsed milliseconds where they are in 1..2^32-1 and the nearer bound elsewhere. |
| `AdmissionTheorems.ResumedPhaseReturnsDecision` | src/ngx_http_ratelimitly_module.c:3990-4005 | The phases resumed by a completion return the decision the completion stored, whatever happens in between. |
| `AdmissionTheorems.NewContextIsWaitingOrDecided` | src/ngx_http_ratelimitly_module.c:650-975 | A handler exit that made a context leaves it waiting or decided; what it returns for a decided one is what it stored if and only if the context could be registered for cleanup (otherwise 500 is returned and a decline stays stored). |
| `AdmissionTheorems.TeardownTwice` | src/ngx_http_ratelimitly_module.c:3773-3815 | After a teardown that took effect, for a completion or with a cancel, no further teardown of either kind changes anything. |
| `AdmissionTheorems.LogPhaseReportsExactly` | src/ngx_http_ratelimitly_module.c:3840-3898 | The log phase reports if and only if the slot holds a context with a report built, unsent, and a worker, the connection is whole, a clock exists, and the outcome is none, valid allow or fail-open; it then reports that outcome once and no later log phase reports again. |
| `AdmissionTheorems.ReportsAreOfReportableOutcomes` | src/ngx_http_ratelimitly_module.c:3856-3888 | Every report in every run is of one of those three outcomes and has a value in 1..2^32-1. |
| `AdmissionTheorems.DocumentedReportRule` | src/ngx_http_ratelimitly_module.c:3856-3862 | The rule of docs/operations.md:26-28, a sample exactly after a valid allow, is followed if and only if the outcome is neither none nor fail-open. |
| `AdmissionTheorems.ReportsWithoutValidAllow` | src/ngx_http_ratelimitly_module.c:3856-3862 | Two runs that the documented rule excludes: a fail-open request and a request without admission are reported. |
| `AdmissionTheorems.CompletionNeedsSlot` | src/ngx_http_ratelimitly_module.c:3911-3922 | A completion reaches its waiting context if and only if the module slot of the request still holds that context. |
| `AdmissionTheorems.RedirectWhileWaitingLosesCompletion` | src/ngx_http_ratelimitly_module.c:3911-3916 | A concrete state in which a redirect during a pending check would lose the completion, so that nginx not redirecting a suspended request is needed. |
| `AdmissionTheorems.EntryAfterCleanupStartsAgain` | src/ngx_http_ratelimitly_module.c:499-515 | Entering the handler of a request whose cleanup list has run would start a second check, so that nginx not doing so is needed. |
| `AdmissionTheorems.LedgerCounts` | src/ngx_http_ratelimitly_module.c:3773-3815 | In any history that replays, starts, ends and give-ups of a handle balance exactly. |
| `AdmissionSafety.RunSafe` | src/ngx_http_ratelimitly_module.c:3595-3992 | Every run, for every behaviour of nginx and the client within their rules, keeps the invariant: contexts coherent, live checks matched one to one by waiting contexts, rebinds scheduled, the history replayable, every waiting context armed. |
| `AdmissionSafety.TimerFiresSafe` | src/ngx_http_ratelimitly_module.c:3712-3771 | A timer event keeps the invariant whether the client completes at once, stays live, fails or loses its deadline. |
| `AdmissionSafety.DeliverSafe` | src/ngx_http_ratelimitly_module.c:3901-4005 | A completion with arbitrary nested phase activity, including release of the request, keeps the invariant. |
| `AdmissionSafety.EnterSafe` | src/ngx_http_ratelimitly_module.c:590-976 | A handler entry keeps the invariant on every path. |
| `AdmissionSafety.TerminateSafe` | src/ngx_http_ratelimitly_module.c:3817-3828 | Running the cleanup list cancels a pending check once and keeps the invariant. |
| `AdmissionSafety.FreeSafe` | src/ngx_http_ratelimitly_module.c:3830-3898 | Cleanup, log phase and pool destruction keep the invariant: no live check refers to a released context. |
| `AdmissionSafety.ReadBatchSafe` | src/ngx_http_ratelimitly_module.c:3637-3710 | A read batch with any datagrams keeps the invariant. |
| `AdmissionSafety.RebindSafeStep` | src/ngx_http_ratelimitly_module.c:3317-3356 | Every outcome of the rebind event keeps the invariant; a failed replacement leaves a retry scheduled. |
| `AdmissionSafety.WaitingIsLive` | src/ngx_http_ratelimitly_module.c:932-961 | There are exactly as many waiting contexts as checks the client holds. |
| `AdmissionSafety.JudgeCoherent` | src/ngx_http_ratelimitly_module.c:3929-3985 | Every judgement of a completion gives a coherent outcome, cause and decision, and the one its kind calls for: valid deny, for instance, exactly for a delivered result of the stored sizes that does not allow. |
| `AdmissionWorker.Worker.RunEvents` | src/ngx_http_ratelimitly_module.c:3595-4005 | The program, with all its redundant flags, takes exactly the steps of the abstract machine over any run; between events the in-flight counter equals the number of live checks, the four encodings of "pending" agree in every context, no stack observer is set and no read batch is active. |
| `AdmissionWorker.Worker.Dispatch` | src/ngx_http_ratelimitly_module.c:3595-3771 | One event of the loop takes exactly the abstract step. |
| `AdmissionWorker.Worker.Handler` | src/ngx_http_ratelimitly_module.c:590-976 | The phase handler takes the abstract entry step and returns its code; a subrequest is declined and changes nothing, and where nothing is asked or the module is off it declines and leaves every context, check and counter alone. |
| `AdmissionWorker.Worker.HandlerNewContext` | src/ngx_http_ratelimitly_module.c:650-669 | Creating and registering the context, with both failures. |
| `AdmissionWorker.Worker.HandlerAttachWorker` | src/ngx_http_ratelimitly_module.c:671-715 | Getting a worker, building the report, and the report-only exit. |
| `AdmissionWorker.Worker.HandlerAdmit` | src/ngx_http_ratelimitly_module.c:717-915 | The outcome of rule expansion decides, or a check is started. |
| `AdmissionWorker.Worker.HandlerStart` | src/ngx_http_ratelimitly_module.c:916-976 | Starting a check, with its start failure and its read-event failure. |
| `AdmissionWorker.Worker.GetRequestCtx` | src/ngx_http_ratelimitly_module.c:490-522 | The context in the slot, or else the one on the cleanup list, which refills the slot. |
| `AdmissionWorker.Worker.ReadVerdictVariable` | src/ngx_http_ratelimitly_module.c:524-559 | Allow, deny or nothing, as the machine says. |
| `AdmissionWorker.Worker.JudgeResult` | src/ngx_http_ratelimitly_module.c:3929-3985 | The loops over guards and deficits give the verdict that the kind of completion calls for, in all five cases. |
| `AdmissionWorker.Worker.RequestTeardown` | src/ngx_http_ratelimitly_module.c:3773-3815 | Teardown through the flags is the abstract teardown, and schedules a pending rebind. |
| `AdmissionWorker.Worker.ReleaseCounts` | src/ngx_http_ratelimitly_module.c:3800-3811 | Both counters are decremented at most once and are positive when they are, so the guards never hide an underflow. |
| `AdmissionWorker.TornPositive` | src/ngx_http_ratelimitly_module.c:3800-3811 | No counter that teardown decrements is zero. |
| `AdmissionWorker.TornConsistent` | src/ngx_http_ratelimitly_module.c:3773-3815 | Teardown keeps the in-flight counter and the request reference counts exact. |
| `AdmissionWorker.BegunConsistent` | src/ngx_http_ratelimitly_module.c:932-949 | So does starting a check. |
| `AdmissionWorker.Worker.RequestCleanup` | src/ngx_http_ratelimitly_module.c:3817-3828 | The cleanup handler aborts a waiting context, tears it down and detaches it. |
| `AdmissionWorker.Worker.LogHandler` | src/ngx_http_ratelimitly_module.c:3830-3898 | At most one report, clamped to 1..2^32-1, only for outcomes none, valid allow and fail-open. |
| `AdmissionWorker.Worker.RateCallbackStep` | src/ngx_http_ratelimitly_module.c:3901-3992 | The completion callback up to the resumption of the phases. |
| `AdmissionWorker.Worker.RateCallbackAndResume` | src/ngx_http_ratelimitly_module.c:3901-4005 | The whole callback, including what the resumed phases do. |
| `AdmissionWorker.Worker.TimeoutHandler` | src/ngx_http_ratelimitly_module.c:3712-3771 | The timeout handler takes the abstract timer step; after a synchronous completion it touches no context. |
| `AdmissionWorker.Worker.TimeoutDue` | src/ngx_http_ratelimitly_module.c:3741-3770 | The due path with its stack observer, for all four client behaviours. |
| `AdmissionWorker.ObserverSet` | src/ngx_http_ratelimitly_module.c:3749-3750 | Pointing the one observer at the stack cell keeps every pointer valid. |
| `AdmissionWorker.ObserverCleared` | src/ngx_http_ratelimitly_module.c:3923-3926 | A completion sets the cell and leaves no context pointing at it. |
| `AdmissionWorker.FrameTaken` | src/ngx_http_ratelimitly_module.c:3752-3755 | The stack frame may be left once the cell is set or its observer is gone. |
| `AdmissionWorker.Worker.UdpReadHandler` | src/ngx_http_ratelimitly_module.c:3637-3710 | A batch of at most 64 datagrams; the active flag is clear on every exit. |
| `AdmissionWorker.Worker.RebindHandler` | src/ngx_http_ratelimitly_module.c:3612-3635 | The rebind event clears its flag and replaces, retries or does nothing. |
| `AdmissionWorker.Worker.ScheduleRebindAfter` | src/ngx_http_ratelimitly_module.c:3595-3610 | A rebind is scheduled only if wanted, idle and not yet scheduled. |
| `AdmissionWorker.Worker.OnSteeringFeedback` | src/ngx_http_ratelimitly_module.c:2722-2733 | Feedback that keeps the port changes nothing; other feedback wants a rebind and schedules it. |
| `AdmissionWorker.ReleaseConsistent` | src/ngx_http_ratelimitly_module.c:3817-3828 | Destroying a pool whose contexts do not wait keeps every counter exact. |
| `Policy.ScheduleUnits` | src/ngx_http_ratelimitly_module.c:1655-1705 | The 32-bit code returns the exact unbounded min(max, ...) for every 32-bit round, and fails exactly on ill-formed schedules. |
| `Policy.ExponentialUnits` | src/ngx_http_ratelimitly_module.c:1688-1701 | The saturating loop computes min(max, initial * factor^round) with no overflow. |
| `Policy.ScheduleMonotone` | src/ngx_http_ratelimitly_module.c:1655-1705 | A well-formed schedule is monotone in the round and stays between its first value and its maximum. |
| `Policy.HorizonMs` | src/ngx_http_ratelimitly_module.c:1707-1750 | Succeeds if and only if the policy is valid and the unbounded product of unit and units is at most the limit, and then returns exactly that product; no intermediate value wraps. |
| `Policy.TotalUnits` | src/ngx_http_ratelimitly_module.c:1726-1742 | The gap loop adds the units of all rounds and the final wait exactly, and gives up if and only if the schedule is ill formed or the sum exceeds what fits. |
| `Policy.CheckTwice` | src/ngx_http_ratelimitly_module.c:1037-1046 | The credential check accepts exactly the policies the directive check accepts with a horizon within the credential limit, with the same horizon. |
| `Policy.ParsePolicySchedule` | src/ngx_http_ratelimitly_module.c:1587-1653 | Accepts exactly the documented schedule texts and returns what they denote. |
| `Policy.DenotesUnique` | src/ngx_http_ratelimitly_module.c:1587-1653 | A text denotes at most one schedule. |
| `Policy.ScheduleRoundTrip` | src/ngx_http_ratelimitly_module.c:1587-1653 | The printed text of a schedule denotes that schedule and no other. |
| `Policy.ParsedScheduleNeverFails` | src/ngx_http_ratelimitly_module.c:1663-1688 | Every accepted schedule meets the preconditions of the unit computation for every round. |
| `Resolver.Adapter.Start` | src/ngx_http_ratelimitly_module.c:2842-3017 | A start returns -1, with nothing left and no callback, if and only if there is no resolver, an allocation it needs is refused or nginx refuses the lookup; 0 without an id if and only if nginx answers inside the call, after exactly one callback, which says found exactly for a usable answer; 0 with an id otherwise, with no callback yet and exactly the context, record and buffers of the asked name. Every other lookup is left alone or got its one callback. |
| `Resolver.Adapter.StartLookup` | src/ngx_http_ratelimitly_module.c:2858-2947 | The same for the part after the lookup is known, under any re-entrant client activity. |
| `Resolver.Adapter.ConcludeStart` | src/ngx_http_ratelimitly_module.c:2936-2946 | The end of a start: the record is released exactly when no answer can come any more, and an id is published only for a pending lookup. |
| `Resolver.Adapter.Prepare` | src/ngx_http_ratelimitly_module.c:2858-2929 | Succeeds if and only if there is a resolver and every allocation it needs is granted; then the record, buffers and context say the asked service and name, otherwise nothing is left. |
| `Resolver.Adapter.SplitName` | src/ngx_http_ratelimitly_module.c:2885-2915 | The service is cut off into its own buffer and the name buffer is replaced exactly if both allocations are granted; otherwise nothing is left. |
| `Resolver.Adapter.Handler` | src/ngx_http_ratelimitly_module.c:3169-3315 | One callback, found exactly for an answer with records whose working storage is granted (for addresses: of which one survives compaction); the context is released once, the record unless the start call still needs it, the working storage always. |
| `Resolver.Adapter.Cancel` | src/ngx_http_ratelimitly_module.c:3019-3052 | Cancelling a pending lookup retires it with exactly one callback, of a DNS error; cancelling nothing, or from inside its own completion callback, changes nothing. |
| `Resolver.Adapter.Deliver` | src/ngx_http_ratelimitly_module.c:3169-3315 | An answer to a pending lookup ends it with exactly one callback, found exactly under those conditions, and releases everything. |
| `Resolver.Adapter.RunEvents` | src/ngx_http_ratelimitly_module.c:2842-3315 | Every run of client activity and answers, with arbitrary nesting, keeps the invariant and ends with no start or callback in progress. |
| `Resolver.Adapter.ReleaseRequest` | src/ngx_http_ratelimitly_module.c:2771-2786 | Frees the record and each of its buffers once. |
| `Resolver.Adapter.DiscardUnstarted` | src/ngx_http_ratelimitly_module.c:2788-2796 | Gives back the context and the record, if any. |
| `Resolver.Adapter.ResolveName` | src/ngx_http_ratelimitly_module.c:2811-2828 | nginx refuses and frees the context, answers inside the call, or takes the lookup on. |
| `Resolver.Adapter.FinishState` | src/rn_async_state.c:30-41 | Pending exactly if the start succeeded and nothing completed; clears starting. |
| `Resolver.EachStartAnsweredOnce` | src/ngx_http_ratelimitly_module.c:2842-3052 | Between events every start ever made failed without a callback, waits without one, or was called back exactly once; only a waiting one owns memory or has an id. |
| `Resolver.OverForGood` | src/ngx_http_ratelimitly_module.c:3019-3052 | Once over, a lookup gets no further callback and owns nothing, whatever happens next. |
| `Resolver.HeldIdIsLive` | src/ngx_http_ratelimitly_module.c:3031-3034 | An id the client holds is a live context; its record is gone exactly while its own completion callback runs. |
| `Resolver.TargetMeaning` | src/ngx_http_ratelimitly_module.c:2885-2915 | A name with two dots asks for the service before its second dot under the rest; any other is asked for whole. |
| `Config.Configure` | src/ngx_http_ratelimitly_module.c:1959-2496 | After any accepted sequence of directives names are unique in each table, every reference resolves, each table has grown by exactly the entries its directives give, in order, and every context has exactly the rules of its own rule directives in order, its one report setting and its last label. |
| `Config.MergedMeansNearest` | src/ngx_http_ratelimitly_module.c:1174-1194 | After merging any chain of contexts admission is enabled if and only if a nonempty rule list is in effect, which is that of the nearest declaring context; likewise the report and the label. |
| `Config.ResolvesForGood` | src/ngx_http_ratelimitly_module.c:2317-2439 | A rule that resolves still resolves in larger tables. |
| `Config.MainConf.AddZone` | src/ngx_http_ratelimitly_module.c:1959-2044 | Accepts exactly the well-formed new zones, and adds that zone. |
| `Config.MainConf.AddTracker` | src/ngx_http_ratelimitly_module.c:2104-2232 | Accepts exactly the well-formed new trackers with each option at most once, and adds what they say. |
| `Config.MainConf.AddGuard` | src/ngx_http_ratelimitly_module.c:2234-2315 | Accepts exactly the well-formed new guards of known trackers, and adds that guard. |
| `Config.MainConf.AddGroup` | src/ngx_http_ratelimitly_module.c:2046-2102 | Accepts exactly the new groups with at least one zone, all known, and adds the group with its zones in order; a refusal leaves the table as it was or with the zones read so far. |
| `Config.LocConf.AddRule` | src/ngx_http_ratelimitly_module.c:2317-2439 | Accepts exactly the rules with at most one target, at least one reference and only known names, appends that rule and enables the context and the module. |
| `Config.LocConf.SetReport` | src/ngx_http_ratelimitly_module.c:2468-2496 | Accepts one report setting, off or a known tracker. |
| `Config.LocConf.MergeFrom` | src/ngx_http_ratelimitly_module.c:1174-1194 | The in-place merge is the merge of the two contexts. |
| `Config.AcceptedRuleResolves` | src/ngx_http_ratelimitly_module.c:2389-2439 | An accepted rule resolves and asks for something. |
| `Config.AcceptedRuleMeans` | src/ngx_http_ratelimitly_module.c:2333-2439 | An accepted rule, of any of the three kinds, has the target its one target argument names and as guards the values of all its guard arguments, in order. |
| `Config.LastValueCounts` | src/ngx_http_ratelimitly_module.c:1975-1998 | Of an option given more than once the last value counts. |
| `Config.ApplyMain` | src/ngx_http_ratelimitly_module.c:1959-2315 | Each accepted table directive adds exactly its entry to its table and leaves the other tables. |
| `Config.AcceptedGroupResolves` | src/ngx_http_ratelimitly_module.c:2080-2099 | An accepted group is nonempty and resolves. |
| `Config.Find` | src/ngx_http_ratelimitly_module.c:2498-2558 | The first entry with the name, or none exactly if there is none. |
| `Expansion.Expand` | src/ngx_http_ratelimitly_module.c:717-902 | What is submitted has every counted resource cell filled with what its zone renders to, in order and with repeats, the guards in first-seen order without repeats, and a label that fits. A consistent configuration is submitted if and only if the arrays were granted, every cell and entry could be built and the label renders and fits; otherwise the failure names one of these reasons. |
| `Expansion.Count` | src/ngx_http_ratelimitly_module.c:727-739 | The counting pass counts exactly the flattened zones and references. |
| `Expansion.Fill` | src/ngx_http_ratelimitly_module.c:769-875 | The fill pass writes exactly those cells. |
| `Expansion.AddGuardRef` | src/ngx_http_ratelimitly_module.c:771-813 | A repeated guard is recognised by its definition and adds nothing. |
| `Expansion.FirstSeenMeans` | src/ngx_http_ratelimitly_module.c:782-790 | The deduplicated list is duplicate-free, has exactly the referenced guards, and is ordered by first occurrence. |
| `Expansion.FlattenPositions` | src/ngx_http_ratelimitly_module.c:816-875 | In consistent tables each rule adds exactly its zones, a group rule those its group lists, in order, right after those of the rules before it. |
| `Expansion.FlattenLength` | src/ngx_http_ratelimitly_module.c:727-739 | The flattened list is as long as what its rules ask for together. |
| `Expansion.FlattenMembers` | src/ngx_http_ratelimitly_module.c:816-875 | A zone is asked for if and only if some rule names it or names a group that lists it. |
| `Expansion.RefsPositions` | src/ngx_http_ratelimitly_module.c:769-775 | The references of each rule stand in order right after those of the rules before it, and there are no others. |
| `Expansion.ConsistentAsks` | src/ngx_http_ratelimitly_module.c:740-750 | In a consistent configuration a nonempty rule list expands to something and everything it names exists. |
| `Expansion.EnabledContextAsks` | src/ngx_http_ratelimitly_module.c:618-738 | A merged context with admission enabled has the module on and resolving rules that ask for something. |
| `Submission.HandleRequest` | src/ngx_http_ratelimitly_module.c:717-923 | For a location with given rules the handler works with an outcome of expanding those rules, which in a consistent configuration is a request if and only if the arrays were granted and everything in it could be built. |
| `Submission.WaitingStoresSizes` | src/ngx_http_ratelimitly_module.c:901-902 | A context that the handler leaves waiting stores the number of first-seen guards and of flattened zones of its rules. |
| `Submission.AllowCoversTheRules` | src/ngx_http_ratelimitly_module.c:3929-3978 | A completion of a context with such sizes stores a valid allow if and only if it delivers success with one passed guard for each guard of the rules and one covered resource for each of their zones. |
| `Submission.AllowCoversTheRulesInEveryRun` | src/ngx_http_ratelimitly_module.c:901-978 | In every run whose handler entries work with expanded rules, a waiting context stores the sizes of rules of its request, and a stored valid allow rests on a result that passes exactly their guards and covers exactly their zones. |
| `Submission.ExpandedEntryFits` | src/ngx_http_ratelimitly_module.c:717-923 | A handler entry that works with an outcome of expanding rules of its request is one of those. |
| `Numeric.ParseU32` | src/rn_numeric.c:5-29 | Accepts exactly the nonempty decimal texts of 32-bit numbers, with their value. |
| `Numeric.ParseRate` | src/rn_numeric.c:56-122 | Accepts exactly digits r/ [digits] unit with rate at least 1 and a window that fits; returns the exact values and leaves the outputs alone on failure. |
| `Numeric.GuardIsExact` | src/rn_numeric.c:17-22 | The overflow guard refuses exactly the digits that would overflow. |
| `Numeric.WindowGuardIsExact` | src/rn_numeric.c:115-117 | The window guard refuses exactly the products that would overflow. |
| `Numeric.ShapeIsUnique` | src/rn_numeric.c:56-122 | A rate text splits in one way only. |
| `Numeric.RateRoundTrip` | src/rn_numeric.c:56-122 | A printed rate denotes its own values and no others. |
| `Numeric.UnitsRelate` | src/rn_numeric.c:95-117 | A window of n seconds is 1000 n milliseconds, of n minutes sixty times that, of n hours sixty times that again; there is no other unit. |
| `Numeric.MissingCountIsOne` | src/rn_numeric.c:95-97 | A window without a count is one unit. |
| `Numeric.DecimalPositions` | src/rn_numeric.c:5-29 | Digit strings are decimal: each digit counts ten to the number of digits after it. |
| `ResolvConf.Nameserver` | src/rn_resolv_conf.c:42-131 | Never writes outside the buffer or beyond the NUL at the reported length, and returns what the line means; an unusable result holds the longest fitting prefix. |
| `ResolvConf.Store` | src/rn_resolv_conf.c:26-40 | Copies, truncates and terminates. |
| `ResolvConf.ParseIsIdempotent` | src/rn_resolv_conf.c:42-131 | A usable result parsed again in the same capacity gives the same kind and text. |
| `ResolvConf.ParseIgnoresSurroundings` | src/rn_resolv_conf.c:42-131 | Indentation before and anything after the end of the address do not matter. |
| `ResolvConf.AddressKinds` | src/rn_resolv_conf.c:63-131 | For every line with the directive, a gap and an address: plain text without colon and bracket that fits is taken as it is, text with a colon comes out in brackets as IPv6, brackets are kept, and a percent sign, a bad bracket or a lack of room makes it unusable with the longest fitting prefix. |
| `ResolvConf.NoAddress` | src/rn_resolv_conf.c:42-131 | The directive without an address is unusable. |
| `ResolvConf.NameserverLines` | src/rn_resolv_conf.c:63-78 | A line is a nameserver line if and only if the word stands first after blanks and ends there. |
| `SrvRecords.Heap.Build` | src/rn_srv_records.c:29-84 | Succeeds exactly if the sizes fit, every source is usable and no allocation is refused; success leaves count + 2 new blocks with the records in order and NUL-terminated copies, failure leaves the heap as it was and an all-zero result. |
| `SrvRecords.Heap.FillRecords` | src/rn_srv_records.c:62-81 | Fills records in order and stops at the first failure. |
| `SrvRecords.Heap.FreeRecords` | src/rn_srv_records.c:6-27 | Frees every piece once and leaves the all-zero array. |
| `SrvRecords.Heap.FreeTwice` | src/rn_srv_records.c:6-27 | A second free is harmless. |
| `SrvRecords.StartedIsBuilt` | src/rn_srv_records.c:62-84 | A completely filled array is the finished one and owns exactly count + 2 blocks. |
| `SrvRecords.FillKeepsStarted` | src/rn_srv_records.c:69-81 | Filling one record leaves every earlier record and every foreign block intact. |
| `WorkerInit.AttemptsAreBackedOff` | src/ngx_http_ratelimitly_module.c:3545-3578 | Attempt k never runs earlier than the first attempt plus the sum of the documented pauses before it. |
| `WorkerInit.PauseIsExact` | src/ngx_http_ratelimitly_module.c:3556-3575 | Until the pause after the last failure is over a call changes nothing; from then on it attempts. |
| `WorkerInit.NextDelayIsNextPause` | src/ngx_http_ratelimitly_module.c:3569-3575 | The doubling with a ceiling gives min(1000*2^(k-1), 5000). |
| `WorkerInit.RunSpaced` | src/ngx_http_ratelimitly_module.c:3545-3578 | Every run keeps attempts spaced, and a worker is published only by a successful attempt. |
| `WorkerInit.MainConf.WorkerEnsure` | src/ngx_http_ratelimitly_module.c:3545-3578 | The 64-bit code with its signed comparison takes the abstract step. |
| `WorkerInit.MainConf.EnsureRepeatedly` | src/ngx_http_ratelimitly_module.c:3545-3578 | Any sequence of calls, at times within half the clock range and clear of its wrap-around, takes exactly the steps of the machine; a fresh program spaces its attempts by the documented pauses. |
| `WorkerInit.SignedAfterIsExact` | src/ngx_http_ratelimitly_module.c:3556-3560 | The signed comparison reads the order of two clock values right if and only if they are less than half the range apart. |
| `DnsName.DecodeName` | integration-tests/local_dns_server.py:28-62 | Terminates on every message and offset and returns exactly what the name there denotes; on success the next offset is after the start and within the message. |
| `DnsName.DenotesUnique` | integration-tests/local_dns_server.py:28-62 | Every offset of every message denotes at most one thing. |
| `DnsName.DenotesSomething` | integration-tests/local_dns_server.py:28-62 | Every offset of every message denotes something: a name if following it reaches a zero byte, a loop if it never stops, the problem met otherwise. |
| `DnsName.RepeatNeverStops` | integration-tests/local_dns_server.py:37-39 | An offset met twice is never left, so refusing it loses no name. |
| `DnsName.EncodeName` | integration-tests/local_dns_server.py:17-25 | Succeeds exactly if every label is ASCII and fits a length byte; otherwise the first bad label names the problem. |
| `DnsName.RoundTrip` | integration-tests/local_dns_server.py:17-62 | Decoding inverts encoding inside any surrounding bytes, up to lower-casing and empty labels, for labels of 1 to 191 characters. |
| `DnsName.OverlongLabelIsDecoded` | integration-tests/local_dns_server.py:43-60 | A label of 64 to 191 bytes, which section 3.1 of RFC 1035 does not allow, is decoded as one. |
| `DnsName.LongLabelNeverDecoded` | integration-tests/local_dns_server.py:21-24 | That bound is exact: a name with a label of 192 or more characters is never what any offset of any message decodes to. |
| `DnsName.PointerAppends` | integration-tests/local_dns_server.py:47-55 | Labels followed by a pointer are those labels and the name pointed to; what follows is two bytes on. |
| `DnsName.PointerAlone` | integration-tests/local_dns_server.py:47-55 | A pointer alone is the name it points to. |
| `DnsName.LabelsDot` | integration-tests/local_dns_server.py:18-18 | The labels of a name are separated by dots, wherever and however often they stand. |
| `DnsName.LabelsAreDetermined` | integration-tests/local_dns_server.py:18-18 | That law and keeping a dot-free name whole determine the labels. |
| `DnsName.JoinDot` | integration-tests/local_dns_server.py:63-63 | Joining puts one dot between the labels of two lists. |
| `DnsName.LabelsOfJoin` | integration-tests/local_dns_server.py:17-63 | Splitting a joined list of nonempty dot-free labels gives the list back. |
| `DnsName.LowerMeans` | integration-tests/local_dns_server.py:63-63 | Lower-casing changes the 26 capital letters into their small letters and no other character. |

## Left out

- AdmissionWorker.Worker: contexts and requests are records in maps of the class, not objects; the addresses of contexts are map keys, and aliasing between a context and its timer event is not modelled.
- Resolver.Adapter: an address names the lookup it was allocated for, so that an address is reused only within one lookup; the client cancels only ids it holds.
- Resolver.Adapter.Handler: the record arrays are one opaque block here (`SrvRecords` has the SRV array itself); how many addresses survive compaction is an argument; the handlers' check for a context without record is not modelled, since nginx calls no handler of a finished context.
- Resolver.Adapter.ReleaseRequest: the buffer pointers of a record are not cleared before the record itself is freed.
- Worker shutdown (`rn_worker_cleanup`, `rn_exit_process`) is the end of a run and is not modelled.
- The nginx timer is not claimed to equal the client's deadline: a datagram may change the deadline without re-arming it.
- WorkerInit.MainConf.WorkerEnsure: the clock reading is less than half its range from the retry time and a maximal delay can be added to it without wrapping; 0 as retry time doubles as "none".
- Config.LocConf.AddRule: a refused rule may leave an empty rule list instead of none; configuration ends there, and the model does not tell the two apart.
- Config.MainConf: `ngx_parse_time` is a parameter; compilation of complex values, allocation failures of the configuration pool and the remaining directives (credentials, policy flags, bind, debug, fail mode) are not modelled.
- Config.LocConf.MergeFrom: the server-level merge is the same function on the same fields and is not repeated.
- Expansion.Expand: what zones, guards and the label render to is an argument; rendering itself and deriving ids are not modelled.
- Policy.CheckTwice: the credential limit is a number; reading it from the API key is not modelled. The largest replay count is taken from docs/configuration.md:280-281.
- SrvRecords.Heap.Build: the size of a record is a parameter; NULL arguments other than a missing target are not modelled.
- Branches for NULL arguments that nginx and the client never pass, `worker->client == NULL`, debug logging and fault injection are not modelled.
- Subrequests have no context slot of their own; they only take the early exit.
- Socket calls, address building, logging, header parsing, the log format of ids and `rn_addr_records_compact` are not modelled: I/O or one-line facts.
- The C client's encoding, cryptography and endpoint selection are not part of this model.
