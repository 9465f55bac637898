/**
 What the invariant of AdmissionSafety means for the reader of a run: every check is ended and
 settled exactly once, a stored decision is what a re-entered handler returns, a timer event
 never forgets a check, and the two places where nginx's own rules are needed.
 */
module AdmissionTheorems {
  import opened Wrappers
  import opened Admission
  import opened AdmissionSafety

  // ----- Counting ----------------------------------------------------------------------------

  ghost function Count(history: seq<Obs>, kinds: set<Obs>): nat
    decreases |history|
  {
    if history == [] then 0
    else Count(history[..|history| - 1], kinds) + if history[|history| - 1] in kinds then 1 else 0
  }

  ghost function Starts(history: seq<Obs>, h: Handle): nat { Count(history, {Started(h)}) }

  ghost function Ends(history: seq<Obs>, h: Handle): nat { Count(history, {ClientDone(h), Cancelled(h)}) }

  ghost function Settles(history: seq<Obs>, h: Handle): nat { Count(history, {Settled(h)}) }

  /** In a replayable history every start of a handle but the current one was ended by exactly
      one completion or cancel, and settled exactly once. */
  lemma {:induction false} LedgerCounts(history: seq<Obs>, h: Handle)
    requires Replay(history).Some?
    ensures Starts(history, h) == Ends(history, h) + (if h in Replay(history).value.live then 1 else 0)
    ensures Starts(history, h) == Settles(history, h) + (if h in Replay(history).value.owed then 1 else 0)
    decreases |history|
  {
    if history != [] {
      LedgerCounts(history[..|history| - 1], h);
    }
  }

  /** What a replayable history says about an observation in its middle. */
  lemma {:induction false} ReplayPrefix(history: seq<Obs>, i: nat)
    requires Replay(history).Some? && i < |history|
    ensures Replay(history[..i]).Some? && Apply(Replay(history[..i]).value, history[i]).Some?
    decreases |history|
  {
    var before := history[..|history| - 1];
    if i < |before| {
      ReplayPrefix(before, i);
      assert before[..i] == history[..i];
    }
  }

  // ----- Every run ---------------------------------------------------------------------------

  /** Every check that was ever started in a run was ended once by the client or by a cancel and
      settled once by its context, except those that are live now; those have a waiting context
      with an armed timer. */
  lemma EveryCheckRetiredOnce(failOpen: bool, endpoint: Endpoint, events: seq<Event>, h: Handle)
    ensures
      var w := Run(Initial(failOpen, endpoint), events);
      && Starts(w.history, h) == Ends(w.history, h) + (if h in w.live then 1 else 0)
      && Ends(w.history, h) == Settles(w.history, h)
      && (h in w.live ==>
            exists p :: p in w.ctxs && w.ctxs[p].status == Waiting(h) && w.ctxs[p].timer.Some?)
  {
    InitialSafe(failOpen, endpoint);
    RunSafe(Initial(failOpen, endpoint), events);
    var w := Run(Initial(failOpen, endpoint), events);
    LedgerCounts(w.history, h);
    if h in w.live {
      assert LiveSafe(w, h);
      var p := w.reqs[w.live[h]].slot.value;
      assert w.ctxs[p].status == Waiting(h) && w.ctxs[p].timer.Some?;
    }
  }

  /** Whenever the endpoint was replaced in a run, no check was live or owed at that moment; and
      a rebind that is wanted while none is in flight is scheduled. */
  lemma RebindsAreSafeAndNotLost(failOpen: bool, endpoint: Endpoint, events: seq<Event>)
    ensures
      var w := Run(Initial(failOpen, endpoint), events);
      && (forall i | 0 <= i < |w.history| && w.history[i].Replaced? ::
            Replay(w.history[..i]) == Some(Ledger({}, {})))
      && (w.pending && w.live == map[] ==> w.rebindTimer.Some?)
  {
    InitialSafe(failOpen, endpoint);
    RunSafe(Initial(failOpen, endpoint), events);
    var w := Run(Initial(failOpen, endpoint), events);
    forall i | 0 <= i < |w.history| && w.history[i].Replaced?
      ensures Replay(w.history[..i]) == Some(Ledger({}, {}))
    {
      ReplayPrefix(w.history, i);
    }
    NoneWaitingNoneLive(w);
  }

  /** A context that a completion settled keeps the verdict of that completion, unless it was aborted
      since. A valid allow is stored only on the strength of a delivered result of exactly the expected
      size with every guard passed and no deficit; at most one latency report is sent per context. */
  lemma OutcomesAreCoherent(failOpen: bool, endpoint: Endpoint, events: seq<Event>, p: CtxPtr)
    ensures
      var w := Run(Initial(failOpen, endpoint), events);
      p in w.ctxs ==>
        var b := w.ctxs[p].book;
        && b.reports <= 1
        && (b.basis.Some? && !b.verdict.cause.ClientAbort? ==>
              Judged(b.basis.value, b.guards, b.resources, failOpen, b.verdict))
        && (b.verdict.outcome.ValidAllow? ==>
              && b.basis.Some? && Delivered(b.basis.value)
              && ExactCardinality(b.basis.value, b.guards, b.resources) && Allows(b.basis.value)
              && b.verdict.decision == Proceed)
        && (b.verdict.outcome.ValidDeny? ==> b.verdict.decision == TooManyRequests)
        && (b.done && b.verdict.outcome in {FailOpen, FailClose} ==> b.verdict.decision == FailDecision(failOpen))
  {
    InitialSafe(failOpen, endpoint);
    RunSafe(Initial(failOpen, endpoint), events);
    var w := Run(Initial(failOpen, endpoint), events);
    if p in w.ctxs {
      assert CtxSafe(w, p);
    }
  }

  /** `$ratelimitly_verdict` says allow or deny exactly when the context that the request finds was
      settled by a delivered result of the expected size and not aborted since, and then it says
      whether that result allows. */
  lemma VerdictVariableMeans(failOpen: bool, endpoint: Endpoint, events: seq<Event>, r: ReqId)
    ensures
      var w := Run(Initial(failOpen, endpoint), events);
      r in w.reqs ==>
        match FoundContext(w, r)
        case None => VerdictVariable(w, r).None?
        case Some(p) =>
          && p in w.ctxs && w.ctxs[p].owner == r
          && var b := w.ctxs[p].book;
          && (VerdictVariable(w, r).Some? <==>
                b.basis.Some? && Exact(b.basis.value, b.guards, b.resources) && !b.verdict.cause.ClientAbort?)
          && (VerdictVariable(w, r).Some? ==> VerdictVariable(w, r).value == Allowed(b.basis.value.result.value))
  {
    InitialSafe(failOpen, endpoint);
    RunSafe(Initial(failOpen, endpoint), events);
    var w := Run(Initial(failOpen, endpoint), events);
    if r in w.reqs {
      assert ReqSafe(w, r);
      var found := FoundContext(w, r);
      if found.Some? {
        assert CtxSafe(w, found.value);
      }
    }
  }

  /** The context that the slot of a request holds, or that its cleanup list still knows. */
  ghost function FoundContext(w: World, r: ReqId): Option<CtxPtr>
    requires r in w.reqs
  {
    if w.reqs[r].slot.Some? then w.reqs[r].slot else FirstAttached(w, w.reqs[r].cleanups)
  }

  // ----- Latency reports ---------------------------------------------------------------------

  /** Every report in every run is of a request without an outcome, a valid allow or a fail-open, and
      its value is between 1 and 2^32-1. */
  lemma ReportsAreOfReportableOutcomes(failOpen: bool, endpoint: Endpoint, events: seq<Event>, i: nat)
    ensures
      var w := Run(Initial(failOpen, endpoint), events);
      i < |w.history| && w.history[i].Reported? ==>
        w.history[i].outcome in {NoOutcome, ValidAllow, FailOpen} && 1 <= w.history[i].ms <= 0xFFFF_FFFF
  {
    InitialSafe(failOpen, endpoint);
    RunSafe(Initial(failOpen, endpoint), events);
    var w := Run(Initial(failOpen, endpoint), events);
    if i < |w.history| && w.history[i].Reported? {
      ReplayPrefix(w.history, i);
    }
  }

  /** Apart from the outcome, all that a report needs: the slot holds a context with a report built
      and unsent and with a worker, the connection is whole and a clock exists. */
  ghost predicate ReportDue(w: World, r: ReqId, i: LogInput)
    requires r in w.reqs
  {
    && w.reqs[r].slot.Some? && w.reqs[r].slot.value in w.ctxs
    && var c := w.ctxs[w.reqs[r].slot.value];
    && c.book.latEnabled && !c.book.latSent && c.hasWorker && !i.broken && i.elapsed.Some?
  }

  ghost function SlotOutcome(w: World, r: ReqId): Outcome
    requires r in w.reqs && w.reqs[r].slot.Some? && w.reqs[r].slot.value in w.ctxs
  {
    w.ctxs[w.reqs[r].slot.value].book.verdict.outcome
  }

  /** The log phase reports if and only if a report is due and the outcome is none, valid allow or
      fail-open; it then reports that outcome once, and no later log phase of the request reports. */
  lemma LogPhaseReportsExactly(w: World, r: ReqId, i: LogInput, later: LogInput)
    requires r in w.reqs
    ensures
      var w' := LogPhase(w, r, i);
      && (ReportDue(w, r, i) && SlotOutcome(w, r) in {NoOutcome, ValidAllow, FailOpen} <==> w'.history != w.history)
      && (w'.history != w.history ==>
            && w'.history == w.history + [Reported(SlotOutcome(w, r), Clamp(i.elapsed.value))]
            && LogPhase(w', r, later).history == w'.history)
  {
    var w' := LogPhase(w, r, i);
    if w.reqs[r].slot.Some? && w.reqs[r].slot.value in w.ctxs {
      var p := w.reqs[r].slot.value;
      var (b, o) := ReportStep(w.ctxs[p].book, w.ctxs[p].hasWorker, i);
      assert w'.ctxs[p].book == b;
      if o.Some? {
        assert |w'.history| == |w.history| + 1;
      }
    }
  }

  /** The documented rule is that a due report is sent exactly after a valid allow. The log phase
      follows it if and only if the outcome is neither none nor fail-open. */
  lemma DocumentedReportRule(w: World, r: ReqId, i: LogInput)
    requires r in w.reqs && ReportDue(w, r, i)
    ensures
      (LogPhase(w, r, i).history != w.history <==> SlotOutcome(w, r) == ValidAllow)
      <==> SlotOutcome(w, r) !in {NoOutcome, FailOpen}
  {
    LogPhaseReportsExactly(w, r, i, i);
  }

  /** Request 7 is accepted, entered with a report and, with `admission`, a rule that cannot be
      rendered; then it ends after 5 ms. */
  function ReportedRequest(admission: bool): Event {
    HttpEvent([
      NewRequest(7),
      EnterHandler(7, EntryConf(true, admission, true, true),
                   Entry(Some(1), true, true, true, BuildFailed, StartFailed, true)),
      SetRefs(7, 0),
      FreeRequest(7, LogInput(false, Some(5)))])
  }

  lemma RunFourActs(w: World, acts: seq<Act>)
    requires |acts| == 4
    ensures RunActs(w, acts) == DoAct(DoAct(DoAct(DoAct(w, acts[0]), acts[1]), acts[2]), acts[3])
  {
    assert acts[1..][1..] == acts[2..] && acts[2..][1..] == acts[3..] && acts[3..][1..] == [];
    var w1 := DoAct(w, acts[0]);
    var w2 := DoAct(w1, acts[1]);
    var w3 := DoAct(w2, acts[2]);
    assert RunActs(w3, acts[3..]) == DoAct(w3, acts[3]);
    assert RunActs(w2, acts[2..]) == RunActs(w3, acts[3..]);
    assert RunActs(w1, acts[1..]) == RunActs(w2, acts[2..]);
  }

  /** The two inputs that the documented rule excludes: a fail-open request, and a request without
      admission, are reported. */
  lemma ReportsWithoutValidAllow(admission: bool)
    ensures Run(Initial(true, 0), [ReportedRequest(admission)]).history
         == [Reported(if admission then FailOpen else NoOutcome, 5)]
  {
    var w, ev := Initial(true, 0), ReportedRequest(admission);
    BeforeTheEnd(admission);
    EndedWithReport(admission);
    RunFourActs(w, ev.acts);
    assert [ev][1..] == [];
  }

  lemma BeforeTheEnd(admission: bool)
    ensures
      var acts := ReportedRequest(admission).acts;
      var w := DoAct(DoAct(DoAct(Initial(true, 0), acts[0]), acts[1]), acts[2]);
      Safe(w) && w == EnteredWorld(admission, 0)
  {
    var w, acts := Initial(true, 0), ReportedRequest(admission).acts;
    InitialSafe(true, 0);
    ActSafe(w, acts[0]);
    AcceptedRequest(admission);
    ActSafe(AcceptedWorld(), acts[1]);
    EnteredWithReport(admission);
    ActSafe(EnteredWorld(admission, 1), acts[2]);
    ReleasedRequest(admission);
  }

  /** Request 7 exists. */
  ghost function AcceptedWorld(): World {
    Initial(true, 0).(reqs := map[7 := Req(None, [], false, 1, 0)])
  }

  /** Its context 1 is decided and will report. */
  ghost function EnteredWorld(admission: bool, others: nat): World {
    Initial(true, 0).(published := true,
      ctxs := map[1 := Ctx(7, true, true, Idle, None, ReportBook(admission))],
      reqs := map[7 := Req(Some(1), [1], false, others, 0)])
  }

  lemma AcceptedRequest(admission: bool)
    ensures DoAct(Initial(true, 0), ReportedRequest(admission).acts[0]) == AcceptedWorld()
  {
  }

  lemma ReleasedRequest(admission: bool)
    ensures DoAct(EnteredWorld(admission, 1), ReportedRequest(admission).acts[2]) == EnteredWorld(admission, 0)
  {
    assert EnteredWorld(admission, 1).reqs[7 := Req(Some(1), [1], false, 0, 0)] == EnteredWorld(admission, 0).reqs;
  }

  ghost function ReportBook(admission: bool): Book {
    var v := if admission then FailVerdict(true, DependencyError) else Verdict(Declined, NoOutcome, NoCause);
    Book(0, 0, true, v, None, true, false, 0)
  }

  lemma EnteredWithReport(admission: bool)
    ensures DoAct(AcceptedWorld(), ReportedRequest(admission).acts[1]) == EnteredWorld(admission, 1)
  {
    var w := AcceptedWorld();
    var conf := EntryConf(true, admission, true, true);
    var e := Entry(Some(1), true, true, true, BuildFailed, StartFailed, true);
    assert Recover(w, 7) == w;
    assert Enter(w, 7, conf, e) == NewContext(w, 7, 1, conf, e);
    WithWorkerFields(w, 7, 1, conf, e);
    var w3 := WithWorker(w, 7, 1, conf, true);
    var w' := NewContext(w, 7, 1, conf, e).0;
    assert w' == SetBook(w3, 1, ReportBook(admission));
    assert w'.ctxs == EnteredWorld(admission, 1).ctxs;
    assert [1] + [] == [1];
    assert w'.reqs == EnteredWorld(admission, 1).reqs;
  }

  lemma EndedWithReport(admission: bool)
    requires Safe(EnteredWorld(admission, 0))
    ensures DoAct(EnteredWorld(admission, 0), ReportedRequest(admission).acts[3]).history
         == [Reported(if admission then FailOpen else NoOutcome, 5)]
  {
    var w, i := EnteredWorld(admission, 0), LogInput(false, Some(5));
    EndIsFree(admission);
    ClosedWithReport(w, admission);
    LogPhaseReportsExactly(Terminate(w, 7), 7, i, i);
  }

  lemma EndIsFree(admission: bool)
    ensures
      var w, i := EnteredWorld(admission, 0), LogInput(false, Some(5));
      && 7 in w.reqs
      && DoAct(w, ReportedRequest(admission).acts[3]).history == LogPhase(Terminate(w, 7), 7, i).history
  {
    assert !HasWaiting(EnteredWorld(admission, 0), 7);
  }

  lemma ClosedWithReport(w: World, admission: bool)
    requires Safe(w) && 7 in w.reqs && w.reqs[7] == Req(Some(1), [1], false, 0, 0) && w.history == []
    requires 1 in w.ctxs && w.ctxs[1] == Ctx(7, true, true, Idle, None, ReportBook(admission))
    ensures
      var w' := Terminate(w, 7);
      && 7 in w'.reqs && w'.reqs[7].slot == Some(1) && 1 in w'.ctxs && w'.history == []
      && w'.ctxs[1] == Ctx(7, false, true, Idle, None, ReportBook(admission))
  {
    assert ReqSafe(w, 7);
    TerminateFields(w, 7);
    CleanupFields(w, 1);
  }

  // ----- The timer ---------------------------------------------------------------------------

  /** A timer event either leaves its check waiting with the timer armed, or ends it once and
      settles it once, in that order and before anything else happens. */
  lemma TimerRetiresOrRearms(w: World, p: CtxPtr, x: Expiry)
    requires Safe(w) && Armed(w, {}) && p in w.ctxs && w.ctxs[p].timer.Some?
    ensures w.ctxs[p].status.Waiting?
    ensures
      var h := w.ctxs[p].status.handle;
      var w' := TimerFires(w, p, x);
      if x.NotDue? || x.result.StaysLive? then
        p in w'.ctxs && w'.ctxs[p].status == Waiting(h) && w'.ctxs[p].timer.Some? && w'.history == w.history
      else
        || w.history + [ClientDone(h), Settled(h)] <= w'.history
        || w.history + [Cancelled(h), Settled(h)] <= w'.history
  {
    assert CtxSafe(w, p);
    var c := w.ctxs[p];
    var w1 := SetCtx(w, p, c.(timer := None));
    if x.Due? {
      TimerSafe(w, p, None, {});
      SteerAllSafe(w1, x.steering, {p});
      DeadlineHistory(SteerAll(w1, x.steering), p, c.status.handle, x.result);
    }
  }

  lemma DeadlineHistory(w: World, p: CtxPtr, h: Handle, result: OnTimeout)
    requires Safe(w) && p in w.ctxs && w.ctxs[p].status == Waiting(h)
    ensures
      var w' := AtDeadline(w, p, h, result);
      match result
      case CompletesNow(_, _) => w.history + [ClientDone(h), Settled(h)] <= w'.history
      case StaysLive(d) => w' == SetCtx(w, p, w.ctxs[p].(timer := Some(d)))
      case _ => w.history + [Cancelled(h), Settled(h)] <= w'.history
  {
    assert CtxSafe(w, p);
    match result
    case CompletesNow(k, resumed) =>
      ResumeHistory(w, p, h, k, ClientDone(h), resumed);
    case StaysLive(d) =>
    case ReturnsError(status, resumed) =>
      ResumeHistory(w, p, h, Completion(status, None), Cancelled(h), resumed);
    case LosesDeadline(resumed) =>
      ResumeHistory(w, p, h, Completion(ClientError, None), Cancelled(h), resumed);
  }

  lemma ResumeHistory(w: World, p: CtxPtr, h: Handle, k: Completion, o: Obs, resumed: seq<Act>)
    requires Balanced(w) && p in w.ctxs && CtxSafe(w, p) && w.ctxs[p].status == Waiting(h)
    requires o in {ClientDone(h), Cancelled(h)}
    ensures
      var w1 := Log(w.(live := w.live - {h}), o);
      w.history + [o, Settled(h)] <= ResumeAfter(w1, w.ctxs[p].owner, h, k, resumed).history
  {
    var w1 := Log(w.(live := w.live - {h}), o);
    RateCallbackEffect(w, w1, p, h, k, o);
    RateCallbackFields(w1, p, h, k);
    assert w.history + [o, Settled(h)] == w1.history + [Settled(h)];
  }

  // ----- The stored decision -----------------------------------------------------------------

  /** Request `r` has registered context `p`, which is decided with verdict `v` and is the one its
      slot holds unless a redirect cleared it. */
  ghost predicate DecidedFor(w: World, r: ReqId, p: CtxPtr, v: Verdict) {
    && r in w.reqs && w.reqs[r].cleanups == [p] && !w.reqs[r].closed
    && (w.reqs[r].slot == Some(p) || w.reqs[r].slot.None?)
    && p in w.ctxs && w.ctxs[p].owner == r && w.ctxs[p].attached
    && w.ctxs[p].book.done && w.ctxs[p].book.verdict == v
  }

  /** A handler entered again, also after a redirect, returns the decision of the context it finds and
      starts nothing. */
  lemma ReentryReturnsDecision(w: World, r: ReqId, p: CtxPtr, conf: EntryConf, e: Entry)
    requires r in w.reqs && FoundContext(w, r) == Some(p) && p in w.ctxs && w.ctxs[p].book.done
    requires conf.isMain && (conf.admission || conf.report) && conf.mainEnabled
    ensures Enter(w, r, conf, e).1 == w.ctxs[p].book.verdict.decision
    ensures Enter(w, r, conf, e).0 == w.(reqs := w.reqs[r := w.reqs[r].(slot := Some(p))])
  {
    assert w.reqs[r := w.reqs[r]] == w.reqs;
  }

  /** Entering the handler of `r` touches no other context and no other request. */
  lemma EnterFrame(w: World, r: ReqId, conf: EntryConf, e: Entry)
    requires r in w.reqs && LegalEntry(w, e)
    ensures
      var w' := Enter(w, r, conf, e).0;
      && (forall q | q in w.ctxs :: q in w'.ctxs && w'.ctxs[q] == w.ctxs[q])
      && (forall r' | r' in w.reqs && r' != r :: r' in w'.reqs && w'.reqs[r'] == w.reqs[r'])
  {
    var w1 := Recover(w, r);
    if e.ctx.Some? {
      NewContextFrame(w1, r, e.ctx.value, conf, e);
    }
  }

  /** Nothing but context `p` and request `r` changed. */
  ghost predicate Touched(w: World, w': World, r: ReqId, p: CtxPtr) {
    && p in w'.ctxs && w'.ctxs == w.ctxs[p := w'.ctxs[p]]
    && r in w'.reqs && w'.reqs == w.reqs[r := w'.reqs[r]]
  }

  lemma NewContextFrame(w: World, r: ReqId, p: CtxPtr, conf: EntryConf, e: Entry)
    requires r in w.reqs
    ensures Touched(w, NewContext(w, r, p, conf, e).0, r, p)
  {
    if e.cleanupOk && (w.published || e.initOk) {
      WithWorkerFields(w, r, p, conf, e);
      WorkerTouches(w, r, p, conf, e);
    } else {
      NoWorkerTouches(w, r, p, conf, e);
    }
  }

  lemma WorkerTouches(w: World, r: ReqId, p: CtxPtr, conf: EntryConf, e: Entry)
    requires r in w.reqs
    ensures
      var w3 := WithWorker(w, r, p, conf, conf.report && e.reportBuilt);
      Touched(w, if conf.admission then Admit(w3, r, p, e).0 else Finish(w3, p, w3.ctxs[p].book.verdict).0, r, p)
  {
    var w3 := WithWorker(w, r, p, conf, conf.report && e.reportBuilt);
    assert Touched(w, w3, r, p);
    if conf.admission {
      AdmitFrame(w3, r, p, e);
      TouchedTwice(w, w3, Admit(w3, r, p, e).0, r, p);
    } else {
      FinishTouches(w3, r, p, w3.ctxs[p].book.verdict);
      TouchedTwice(w, w3, Finish(w3, p, w3.ctxs[p].book.verdict).0, r, p);
    }
  }

  lemma TouchedTwice(w: World, w1: World, w2: World, r: ReqId, p: CtxPtr)
    requires Touched(w, w1, r, p) && Touched(w1, w2, r, p)
    ensures Touched(w, w2, r, p)
  {
  }

  lemma NoWorkerTouches(w: World, r: ReqId, p: CtxPtr, conf: EntryConf, e: Entry)
    requires r in w.reqs && (!e.cleanupOk || (!w.published && !e.initOk))
    ensures Touched(w, NewContext(w, r, p, conf, e).0, r, p)
  {
    RegisteredTwice(w, r, p, conf.admission);
  }

  lemma AdmitFrame(w: World, r: ReqId, p: CtxPtr, e: Entry)
    requires r in w.reqs && p in w.ctxs
    ensures Touched(w, Admit(w, r, p, e).0, r, p)
  {
    match e.build
    case NoRules => FinishTouches(w, r, p, Verdict(Declined, NoOutcome, NoCause));
    case BuildFailed => FinishTouches(w, r, p, FailVerdict(w.env.failOpen, DependencyError));
    case BuildInternalError => FinishTouches(w, r, p, InternalVerdict);
    case Built(guards, resources) =>
      var b := w.ctxs[p].book.(guards := guards, resources := resources);
      if e.start.StartFailed? {
        var w1 := SetBook(w, p, b);
        FinishTouches(w1, r, p, FailVerdict(w.env.failOpen, StartFailure));
        TouchedTwice(w, w1, Admit(w, r, p, e).0, r, p);
      } else {
        StartTouches(w, r, p, b, e);
      }
  }

  lemma FinishTouches(w: World, r: ReqId, p: CtxPtr, v: Verdict)
    requires r in w.reqs && p in w.ctxs
    ensures Touched(w, Finish(w, p, v).0, r, p)
  {
  }

  lemma StartTouches(w: World, r: ReqId, p: CtxPtr, b: Book, e: Entry)
    requires r in w.reqs && p in w.ctxs && e.start.StartedCheck?
    ensures Touched(w, StartCheck(w, r, p, b, e).0, r, p)
  {
    var w1 := StartedWorld(w, r, p, b, e.start.handle, e.start.deadline);
    assert Touched(w, w1, r, p);
    if !e.readEventOk {
      CancelFields(w1, p);
      var w2 := Teardown(w1, p, None, true);
      FinishTouches(w2, r, p, InternalVerdict);
      TouchedTwice(w, w1, w2, r, p);
      TouchedTwice(w, w2, StartCheck(w, r, p, b, e).0, r, p);
    }
  }

  lemma EnterKeepsDecision(w: World, r2: ReqId, conf: EntryConf, e: Entry, r: ReqId, p: CtxPtr, v: Verdict)
    requires DecidedFor(w, r, p, v) && r2 in w.reqs && LegalEntry(w, e)
    ensures DecidedFor(Enter(w, r2, conf, e).0, r, p, v)
  {
    if r2 == r {
      EnterDecided(w, r, conf, e, p, v);
    } else {
      EnterFrame(w, r2, conf, e);
    }
  }

  lemma EnterDecided(w: World, r: ReqId, conf: EntryConf, e: Entry, p: CtxPtr, v: Verdict)
    requires DecidedFor(w, r, p, v)
    ensures
      var w' := Enter(w, r, conf, e).0;
      w' == w || w' == SetReq(w, r, w.reqs[r].(slot := Some(p)))
  {
    assert w.reqs[r := w.reqs[r]] == w.reqs;
  }

  /** Whatever nginx does, short of ending the request, the decision stays what it was. */
  lemma ActKeepsDecision(w: World, a: Act, r: ReqId, p: CtxPtr, v: Verdict)
    requires Safe(w) && DecidedFor(w, r, p, v)
    requires !(a.TerminateRequest? && a.r == r) && !(a.FreeRequest? && a.r == r)
    ensures DecidedFor(DoAct(w, a), r, p, v)
  {
    if LegalAct(w, a) {
      match a
      case EnterHandler(r2, conf, e) => EnterKeepsDecision(w, r2, conf, e, r, p, v);
      case TerminateRequest(r2) => TerminateOther(w, r2, r, p);
      case FreeRequest(r2, i) => FreeOther(w, r2, i, r, p);
      case _ =>
    }
  }

  lemma TerminateOther(w: World, r2: ReqId, r: ReqId, p: CtxPtr)
    requires Safe(w) && r2 in w.reqs && r in w.reqs && r2 != r && p in w.ctxs && w.ctxs[p].owner == r
    ensures
      var w' := Terminate(w, r2);
      && p in w'.ctxs && w'.ctxs[p] == w.ctxs[p] && w'.reqs == w.reqs[r2 := Closed(w.reqs[r2])]
  {
    assert ReqSafe(w, r2);
    TerminateFields(w, r2);
    if w.reqs[r2].cleanups != [] {
      assert CtxSafe(w, w.reqs[r2].cleanups[0]);
      CleanupFields(w, w.reqs[r2].cleanups[0]);
    }
  }

  lemma LogPhaseOther(w: World, r2: ReqId, i: LogInput, r: ReqId, p: CtxPtr)
    requires r2 in w.reqs && p in w.ctxs && w.reqs[r2].slot != Some(p)
    ensures
      var w' := LogPhase(w, r2, i);
      p in w'.ctxs && w'.ctxs[p] == w.ctxs[p] && w'.reqs == w.reqs
  {
  }

  lemma FreeOther(w: World, r2: ReqId, i: LogInput, r: ReqId, p: CtxPtr)
    requires Safe(w) && r2 in w.reqs && r in w.reqs && r2 != r && p in w.ctxs && w.ctxs[p].owner == r
    ensures
      var w' := Free(w, r2, i);
      && p in w'.ctxs && w'.ctxs[p] == w.ctxs[p] && r in w'.reqs && w'.reqs[r] == w.reqs[r]
  {
    assert ReqSafe(w, r2);
    TerminateOther(w, r2, r, p);
    LogPhaseOther(Terminate(w, r2), r2, i, r, p);
  }

  /** The phases resumed by a completion return the decision that the completion stored, after
      any redirects and whatever else happens in between. */
  lemma {:induction false} ResumedPhaseReturnsDecision(
      w: World, acts: seq<Act>, r: ReqId, p: CtxPtr, v: Verdict, conf: EntryConf, e: Entry)
    requires Safe(w) && Armed(w, {}) && DecidedFor(w, r, p, v)
    requires forall a | a in acts :: !(a.TerminateRequest? && a.r == r) && !(a.FreeRequest? && a.r == r)
    requires conf.isMain && (conf.admission || conf.report) && conf.mainEnabled
    ensures
      var w' := RunActs(w, acts);
      DecidedFor(w', r, p, v) && Enter(w', r, conf, e).1 == v.decision
    decreases |acts|
  {
    if acts == [] {
      ReentryReturnsDecision(w, r, p, conf, e);
    } else {
      ActSafe(w, acts[0]);
      ActKeepsDecision(w, acts[0], r, p, v);
      ResumedPhaseReturnsDecision(DoAct(w, acts[0]), acts[1..], r, p, v, conf, e);
    }
  }

  /** A check that the client completed, or that the timeout handler cancelled and then settled by
      hand, leaves its request decided with the verdict of the completion, which is what `Judged` says
      of each of the five kinds of completion. */
  lemma CompletionDecides(w: World, p: CtxPtr, h: Handle, k: Completion, o: Obs)
    requires Safe(w) && p in w.ctxs && w.ctxs[p].status == Waiting(h)
    requires o in {ClientDone(h), Cancelled(h)}
    ensures
      var w1 := Log(w.(live := w.live - {h}), o);
      var b := w.ctxs[p].book;
      DecidedFor(RateCallback(w1, w.ctxs[p].owner, h, k), w.ctxs[p].owner, p,
                 Judge(k, b.guards, b.resources, w.env.failOpen))
    ensures
      var b := w.ctxs[p].book;
      Judged(k, b.guards, b.resources, w.env.failOpen, Judge(k, b.guards, b.resources, w.env.failOpen))
  {
    JudgeMeans(k, w.ctxs[p].book.guards, w.ctxs[p].book.resources, w.env.failOpen);
    assert CtxSafe(w, p);
    RateCallbackEffect(w, Log(w.(live := w.live - {h}), o), p, h, k, o);
  }

  /** The handler of `r` left context `p` waiting or decided; `kept` says that it returned what it
      stored. */
  ghost predicate LeftDecided(w: World, r: ReqId, p: CtxPtr, rc: Rc, kept: bool) {
    && p in w.ctxs && r in w.reqs && w.reqs[r].slot == Some(p)
    && if w.ctxs[p].status.Waiting? then !w.ctxs[p].book.done && rc == Again
       else w.ctxs[p].book.done && (rc == w.ctxs[p].book.verdict.decision <==> kept)
  }

  /** A handler that makes a context leaves it waiting or decided. What it returns for a decided one
      is the decision that re-entries will return, except exactly when the context could not be
      registered for cleanup: then it returns an internal error and stores a decline. */
  lemma NewContextIsWaitingOrDecided(w: World, r: ReqId, p: CtxPtr, conf: EntryConf, e: Entry)
    requires r in w.reqs && p !in w.ctxs
    ensures LeftDecided(NewContext(w, r, p, conf, e).0, r, p, NewContext(w, r, p, conf, e).1, e.cleanupOk)
  {
    if e.cleanupOk && (w.published || e.initOk) {
      WithWorkerFields(w, r, p, conf, e);
      var w3 := WithWorker(w, r, p, conf, conf.report && e.reportBuilt);
      if conf.admission {
        AdmitIsWaitingOrDecided(w3, r, p, e);
      } else {
        FinishIsDecided(w3, r, p, w3.ctxs[p].book.verdict);
      }
    } else {
      NoWorkerIsDecided(w, r, p, conf, e);
    }
  }

  lemma NoWorkerIsDecided(w: World, r: ReqId, p: CtxPtr, conf: EntryConf, e: Entry)
    requires r in w.reqs && (!e.cleanupOk || (!w.published && !e.initOk))
    ensures LeftDecided(NewContext(w, r, p, conf, e).0, r, p, NewContext(w, r, p, conf, e).1, e.cleanupOk)
    ensures NewContext(w, r, p, conf, e).0.ctxs[p].status.Idle?
  {
    RegisteredTwice(w, r, p, conf.admission);
  }

  lemma AdmitIsWaitingOrDecided(w: World, r: ReqId, p: CtxPtr, e: Entry)
    requires r in w.reqs && p in w.ctxs && w.reqs[r].slot == Some(p)
    requires w.ctxs[p].status.Idle? && !w.ctxs[p].book.done
    ensures LeftDecided(Admit(w, r, p, e).0, r, p, Admit(w, r, p, e).1, true)
  {
    match e.build
    case NoRules => FinishIsDecided(w, r, p, Verdict(Declined, NoOutcome, NoCause));
    case BuildFailed => FinishIsDecided(w, r, p, FailVerdict(w.env.failOpen, DependencyError));
    case BuildInternalError => FinishIsDecided(w, r, p, InternalVerdict);
    case Built(guards, resources) =>
      var b := w.ctxs[p].book.(guards := guards, resources := resources);
      if e.start.StartFailed? {
        FinishIsDecided(SetBook(w, p, b), r, p, FailVerdict(w.env.failOpen, StartFailure));
      } else {
        StartIsWaitingOrDecided(w, r, p, b, e);
      }
  }

  lemma FinishIsDecided(w: World, r: ReqId, p: CtxPtr, v: Verdict)
    requires r in w.reqs && p in w.ctxs && w.reqs[r].slot == Some(p) && w.ctxs[p].status.Idle?
    ensures LeftDecided(Finish(w, p, v).0, r, p, Finish(w, p, v).1, true)
  {
  }

  lemma StartIsWaitingOrDecided(w: World, r: ReqId, p: CtxPtr, b: Book, e: Entry)
    requires r in w.reqs && p in w.ctxs && w.reqs[r].slot == Some(p) && e.start.StartedCheck? && !b.done
    ensures LeftDecided(StartCheck(w, r, p, b, e).0, r, p, StartCheck(w, r, p, b, e).1, true)
  {
    var w1 := StartedWorld(w, r, p, b, e.start.handle, e.start.deadline);
    var w2 := Teardown(w1, p, None, true);
    assert StartCheck(w, r, p, b, e) == if e.readEventOk then (w1, Again) else Finish(w2, p, InternalVerdict);
    CancelFields(w1, p);
  }

  // ----- Teardown ----------------------------------------------------------------------------

  /** After a teardown that took effect, for a completion or with a cancel, no further teardown of
      either kind changes anything. */
  lemma TeardownTwice(w: World, p: CtxPtr, completed: Option<Handle>, cancel: bool,
                      completed2: Option<Handle>, cancel2: bool)
    requires p in w.ctxs && (cancel || OwnedCheck(w.ctxs[p]) == completed)
    ensures
      var w' := Teardown(w, p, completed, cancel);
      p in w'.ctxs && Teardown(w', p, completed2, cancel2) == w'
  {
    var w1 := DropCheck(w, p, cancel);
    ScheduledRebindSafe(w1);
    var w' := Teardown(w, p, completed, cancel);
    assert w'.ctxs == w1.ctxs && w'.ctxs[p].status.Idle? && w'.ctxs[p].timer.None?;
    assert w'.ctxs[p := w'.ctxs[p]] == w'.ctxs;
    assert DropCheck(w', p, cancel2) == w';
  }

  // ----- Where nginx's rules are needed ------------------------------------------------------

  /** A completion reaches its waiting context exactly when the request's module slot still holds
      it: a redirect in between, which nginx does not make while the phases are suspended, would
      lose it. */
  lemma CompletionNeedsSlot(w: World, p: CtxPtr, h: Handle)
    requires p in w.ctxs && w.ctxs[p].status == Waiting(h) && w.ctxs[p].hasWorker && w.ctxs[p].owner in w.reqs
    requires forall q | q in w.ctxs && q != p :: w.ctxs[q].status != Waiting(h)
    ensures CallbackTarget(w, w.ctxs[p].owner, h).Some? <==> w.reqs[w.ctxs[p].owner].slot == Some(p)
  {
  }

  /** One request, 7, whose context 1 waits for check 3. */
  ghost function OnePending(): World {
    var b := InitialBook(true, true).(verdict := Verdict(Declined, WaitingOutcome, NoCause), guards := 1);
    World(Env(true, true), true, map[1 := Ctx(7, true, true, Waiting(3), Some(20), b)], map[7 := Req(Some(1), [1], false, 1, 1)],
          map[3 := 7], false, None, 0, [Started(3)])
  }

  lemma OnePendingSafe()
    ensures Safe(OnePending()) && Armed(OnePending(), {})
  {
    var w := OnePending();
    ReplayLog(w.(history := []), Started(3));
    assert Log(w.(history := []), Started(3)).history == w.history;
    assert Replay([]) == Some(Ledger({}, {}));
    assert {} + {3} == {3 as Handle};
    assert w.live.Keys == {3};
    assert 1 in WaitingSet(w);
    assert CtxSafe(w, 1);
    assert ReqSafe(w, 7);
    assert LiveSafe(w, 3);
  }

  /** The same on a concrete state: after a redirect, the completion is dropped and the context
      waits for a check that the client no longer holds. */
  lemma RedirectWhileWaitingLosesCompletion(k: Completion, resumed: seq<Act>)
    ensures
      var w := OnePending();
      var redirected := SetReq(w, 7, w.reqs[7].(slot := None));
      var w' := DoClientAct(redirected, Complete(3, k, resumed));
      && Safe(w) && Armed(w, {}) && !LegalAct(w, Redirect(7))
      && w'.ctxs[1].status == Waiting(3) && 3 !in w'.live
  {
    OnePendingSafe();
    var w := OnePending();
    assert w.ctxs[1].owner == 7 && w.ctxs[1].status.Waiting?;
  }

  /** That one request starts one check also rests on nginx entering no handler after the cleanup
      list has run: by then no context can be found any more, and a second check would start. */
  lemma EntryAfterCleanupStartsAgain(w: World, r: ReqId, p: CtxPtr, e: Entry)
    requires Safe(w) && w.published && r in w.reqs && w.reqs[r].closed && w.reqs[r].slot.None?
    requires p !in w.ctxs && e.ctx == Some(p) && e.cleanupOk && e.readEventOk
    requires e.build.Built? && e.start.StartedCheck? && LegalEntry(w, e)
    ensures
      var conf := EntryConf(true, true, false, true);
      var w' := Enter(w, r, conf, e).0;
      !LegalAct(w, EnterHandler(r, conf, e)) && r in w'.reqs && w'.reqs[r].checks == w.reqs[r].checks + 1
  {
    assert ReqSafe(w, r);
    var conf := EntryConf(true, true, false, true);
    assert Recover(w, r) == w;
    WithWorkerFields(w, r, p, conf, e);
  }
}
