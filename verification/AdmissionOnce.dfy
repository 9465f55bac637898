/**
 One request, one check: what holds in every run even if nginx redirects a request while its check is
 pending. A context that waits or is decided is found again through the cleanup list and reused, so
 nothing that clears the module slot makes the handler start a second check; and the sizes a context
 is judged by are those its check was started with.

 `AdmissionSafety` needs nginx to suspend such requests; nothing here does.
 */
module AdmissionOnce {
  import opened Wrappers
  import opened Admission
  import S = AdmissionSafety
  import T = AdmissionTheorems

  /** Which sizes a check of a request may be started with. */
  type Sizes = (ReqId, nat, nat) -> bool

  // ----- What the events carry ---------------------------------------------------------------

  /** An entry for which the handler may get as far as starting a check. */
  ghost predicate Admits(conf: EntryConf) {
    conf.isMain && conf.admission && conf.mainEnabled
  }

  ghost predicate ActFits(a: Act, ok: Sizes) {
    a.EnterHandler? && Admits(a.conf) && a.entry.build.Built? ==>
      ok(a.r, a.entry.build.guards, a.entry.build.resources)
  }

  ghost predicate Startable(ok: Sizes, r: ReqId) {
    exists guards, resources :: ok(r, guards, resources)
  }

  ghost predicate ActsFit(acts: seq<Act>, ok: Sizes) {
    forall a | a in acts :: ActFits(a, ok)
  }

  ghost predicate ClientFits(acts: seq<ClientAct>, ok: Sizes) {
    forall c | c in acts && c.Complete? :: ActsFit(c.resumed, ok)
  }

  ghost function ResumedBy(result: OnTimeout): seq<Act> {
    match result
    case CompletesNow(_, resumed) => resumed
    case StaysLive(_) => []
    case ReturnsError(_, resumed) => resumed
    case LosesDeadline(resumed) => resumed
  }

  /** Every handler entry in the event, also in resumed phases, starts a check of an allowed size. */
  ghost predicate EventFits(ev: Event, ok: Sizes) {
    match ev
    case HttpEvent(acts) => ActsFit(acts, ok)
    case RequestTimer(_, NotDue(_)) => true
    case RequestTimer(_, Due(_, result)) => ActsFit(ResumedBy(result), ok)
    case UdpReadable(input) => forall d | d in input && d.Datagram? :: ClientFits(d.acts, ok)
    case RebindTimer(_) => true
  }

  // ----- The invariant -----------------------------------------------------------------------

  /** Context `p` of request `r` will be reused by the handler. */
  ghost predicate Reusable(w: World, r: ReqId, p: CtxPtr) {
    p in w.ctxs && w.ctxs[p].owner == r && (w.ctxs[p].book.done || w.ctxs[p].status.Waiting?)
  }

  /** What the slot holds is reusable until the cleanup list has run; at most one context is on that
      list, attached and reusable; a started check has its context there. */
  ghost predicate ReqOnce(w: World, r: ReqId, ok: Sizes)
    requires r in w.reqs
  {
    var q := w.reqs[r];
    && (q.slot.Some? ==> q.slot.value in w.ctxs && w.ctxs[q.slot.value].owner == r)
    && (q.slot.Some? && !q.closed ==> Reusable(w, r, q.slot.value))
    && |q.cleanups| <= 1
    && (|q.cleanups| == 1 ==> Reusable(w, r, q.cleanups[0]) && w.ctxs[q.cleanups[0]].attached)
    && (q.closed ==> q.cleanups == [])
    && q.checks <= 1
    && (q.checks == 1 ==> (q.closed || |q.cleanups| == 1) && Startable(ok, r))
  }

  ghost predicate CtxSized(c: Ctx, ok: Sizes) {
    c.status.Waiting? || c.book.basis.Some? ==> ok(c.owner, c.book.guards, c.book.resources)
  }

  ghost predicate Once(w: World, ok: Sizes) {
    && (forall r {:trigger ReqOnce(w, r, ok)} | r in w.reqs :: ReqOnce(w, r, ok))
    && (forall p {:trigger CtxSized(w.ctxs[p], ok)} | p in w.ctxs :: CtxSized(w.ctxs[p], ok))
  }

  lemma OnceIsSized(w: World, p: CtxPtr, ok: Sizes)
    requires Once(w, ok) && p in w.ctxs
    ensures CtxSized(w.ctxs[p], ok)
  {
  }

  // ----- Frames ------------------------------------------------------------------------------

  lemma SameOnce(w: World, w': World, ok: Sizes)
    requires Once(w, ok) && w'.ctxs == w.ctxs && w'.reqs == w.reqs
    ensures Once(w', ok)
  {
    forall r | r in w'.reqs ensures ReqOnce(w', r, ok) {
      assert ReqOnce(w, r, ok);
    }
  }

  /** One context changes; it stays reusable if it was, and keeps its owner and its attachment. */
  lemma CtxChangeOnce(w: World, w': World, p: CtxPtr, ok: Sizes)
    requires Once(w, ok) && p in w.ctxs && p in w'.ctxs
    requires w'.ctxs == w.ctxs[p := w'.ctxs[p]] && w'.reqs == w.reqs
    requires w'.ctxs[p].owner == w.ctxs[p].owner && w'.ctxs[p].attached == w.ctxs[p].attached
    requires Reusable(w, w.ctxs[p].owner, p) ==> Reusable(w', w.ctxs[p].owner, p)
    requires CtxSized(w'.ctxs[p], ok)
    ensures Once(w', ok)
  {
    forall r | r in w'.reqs ensures ReqOnce(w', r, ok) {
      assert ReqOnce(w, r, ok);
    }
    forall q | q in w'.ctxs ensures CtxSized(w'.ctxs[q], ok) {
      assert q != p ==> CtxSized(w.ctxs[q], ok);
    }
  }

  /** Only request `r` and contexts of its own change. */
  lemma RequestChangeOnce(w: World, w': World, r: ReqId, ok: Sizes)
    requires Once(w, ok)
    requires forall q | q in w.ctxs && w.ctxs[q].owner != r :: q in w'.ctxs && w'.ctxs[q] == w.ctxs[q]
    requires forall r' | r' in w'.reqs && r' != r :: r' in w.reqs && w'.reqs[r'] == w.reqs[r']
    requires r in w'.reqs ==> ReqOnce(w', r, ok)
    requires forall q | q in w'.ctxs :: (q in w.ctxs && w'.ctxs[q] == w.ctxs[q]) || CtxSized(w'.ctxs[q], ok)
    ensures Once(w', ok)
  {
    forall r' | r' in w'.reqs ensures ReqOnce(w', r', ok) {
      assert r' != r ==> ReqOnce(w, r', ok);
    }
    forall q | q in w'.ctxs ensures CtxSized(w'.ctxs[q], ok) {
      assert q in w.ctxs ==> CtxSized(w.ctxs[q], ok);
    }
  }

  // ----- Entering the handler ----------------------------------------------------------------

  lemma RecoverOnce(w: World, r: ReqId, ok: Sizes)
    requires Once(w, ok) && r in w.reqs
    ensures
      var w', q := Recover(w, r), w.reqs[r];
      && Once(w', ok) && w'.ctxs == w.ctxs
      && w'.reqs[r] == q.(slot := w'.reqs[r].slot)
      && (w'.reqs[r].slot.None? ==> q.cleanups == [])
  {
    assert ReqOnce(w, r, ok);
    var w', q := Recover(w, r), w.reqs[r];
    if q.slot.None? && q.cleanups != [] {
      assert FirstAttached(w, q.cleanups) == Some(q.cleanups[0]);
      assert ReqOnce(w', r, ok);
      RequestChangeOnce(w, w', r, ok);
    }
  }

  /** What a new context adds to its request, and the sizes it waits with. */
  ghost predicate Entered(w: World, w': World, r: ReqId, p: CtxPtr, conf: EntryConf, e: Entry)
    requires r in w.reqs
  {
    && p in w'.ctxs && r in w'.reqs
    && w'.reqs[r].closed == w.reqs[r].closed
    && w'.reqs[r].cleanups == (if e.cleanupOk then [p] + w.reqs[r].cleanups else w.reqs[r].cleanups)
    && (w'.reqs[r].checks == w.reqs[r].checks || (w'.reqs[r].checks == w.reqs[r].checks + 1 && e.cleanupOk && conf.admission && e.build.Built?))
    && w'.ctxs[p].owner == r && w'.ctxs[p].attached && w'.ctxs[p].book.basis.None?
    && (w'.ctxs[p].status.Waiting? ==>
          conf.admission && e.build == Built(w'.ctxs[p].book.guards, w'.ctxs[p].book.resources))
  }

  lemma NewContextEntered(w: World, r: ReqId, p: CtxPtr, conf: EntryConf, e: Entry)
    requires r in w.reqs
    ensures Entered(w, NewContext(w, r, p, conf, e).0, r, p, conf, e)
  {
    if e.cleanupOk && (w.published || e.initOk) {
      S.WithWorkerFields(w, r, p, conf, e);
      var w3 := S.WithWorker(w, r, p, conf, conf.report && e.reportBuilt);
      if conf.admission {
        AdmitEntered(w3, r, p, e);
      }
    } else {
      T.NoWorkerIsDecided(w, r, p, conf, e);
      NoWorkerEntered(w, r, p, conf, e);
    }
  }

  lemma NoWorkerEntered(w: World, r: ReqId, p: CtxPtr, conf: EntryConf, e: Entry)
    requires r in w.reqs && (!e.cleanupOk || (!w.published && !e.initOk))
    ensures Entered(w, NewContext(w, r, p, conf, e).0, r, p, conf, e)
  {
    S.RegisteredTwice(w, r, p, conf.admission);
  }

  /** What deciding or starting leaves of context `p` and request `r`. */
  ghost predicate Admitted(w: World, w': World, r: ReqId, p: CtxPtr, e: Entry)
    requires r in w.reqs && p in w.ctxs
  {
    && p in w'.ctxs && r in w'.reqs
    && w'.reqs[r] == w.reqs[r].(checks := w'.reqs[r].checks)
    && (w'.reqs[r].checks == w.reqs[r].checks || (w'.reqs[r].checks == w.reqs[r].checks + 1 && e.build.Built?))
    && var c, c' := w.ctxs[p], w'.ctxs[p];
    && c'.owner == c.owner && c'.attached == c.attached && c'.book.basis == c.book.basis
    && (c'.status.Waiting? ==> e.build == Built(c'.book.guards, c'.book.resources))
  }

  lemma AdmitEntered(w: World, r: ReqId, p: CtxPtr, e: Entry)
    requires r in w.reqs && p in w.ctxs && w.ctxs[p].status.Idle?
    ensures Admitted(w, Admit(w, r, p, e).0, r, p, e)
  {
    match e.build
    case NoRules => FinishEntered(w, w, r, p, e, Verdict(Declined, NoOutcome, NoCause));
    case BuildFailed => FinishEntered(w, w, r, p, e, FailVerdict(w.env.failOpen, DependencyError));
    case BuildInternalError => FinishEntered(w, w, r, p, e, InternalVerdict);
    case Built(guards, resources) =>
      var b := w.ctxs[p].book.(guards := guards, resources := resources);
      if e.start.StartFailed? {
        FinishEntered(w, SetBook(w, p, b), r, p, e, FailVerdict(w.env.failOpen, StartFailure));
      } else {
        StartEntered(w, r, p, b, e);
      }
  }

  lemma FinishEntered(w: World, w1: World, r: ReqId, p: CtxPtr, e: Entry, v: Verdict)
    requires r in w.reqs && p in w.ctxs && p in w1.ctxs && w1.reqs == w.reqs && w.ctxs[p].status.Idle?
    requires w1.ctxs[p] == w.ctxs[p].(book := w1.ctxs[p].book) && w1.ctxs[p].book.basis == w.ctxs[p].book.basis
    ensures Admitted(w, Finish(w1, p, v).0, r, p, e)
  {
  }

  lemma StartEntered(w: World, r: ReqId, p: CtxPtr, b: Book, e: Entry)
    requires r in w.reqs && p in w.ctxs && e.start.StartedCheck? && b.basis == w.ctxs[p].book.basis
    requires e.build == Built(b.guards, b.resources)
    ensures Admitted(w, StartCheck(w, r, p, b, e).0, r, p, e)
  {
    S.CancelFields(S.StartedWorld(w, r, p, b, e.start.handle, e.start.deadline), p);
  }

  lemma NewContextOnce(w: World, r: ReqId, p: CtxPtr, conf: EntryConf, e: Entry, ok: Sizes)
    requires Once(w, ok) && r in w.reqs && p !in w.ctxs
    requires w.reqs[r].slot.None? && w.reqs[r].cleanups == [] && !w.reqs[r].closed
    requires conf.admission && e.build.Built? ==> ok(r, e.build.guards, e.build.resources)
    ensures Once(NewContext(w, r, p, conf, e).0, ok)
  {
    assert ReqOnce(w, r, ok);
    var w' := NewContext(w, r, p, conf, e).0;
    T.NewContextIsWaitingOrDecided(w, r, p, conf, e);
    NewContextEntered(w, r, p, conf, e);
    T.NewContextFrame(w, r, p, conf, e);
    assert ReqOnce(w', r, ok);
    RequestChangeOnce(w, w', r, ok);
  }

  lemma EnterOnce(w: World, r: ReqId, conf: EntryConf, e: Entry, ok: Sizes)
    requires Once(w, ok) && LegalAct(w, EnterHandler(r, conf, e)) && ActFits(EnterHandler(r, conf, e), ok)
    ensures Once(Enter(w, r, conf, e).0, ok)
  {
    RecoverOnce(w, r, ok);
    var w1 := Recover(w, r);
    assert ReqOnce(w1, r, ok);
    if conf.isMain && (conf.admission || conf.report) && conf.mainEnabled && w1.reqs[r].slot.None? && e.ctx.Some? {
      NewContextOnce(w1, r, e.ctx.value, conf, e, ok);
    }
  }

  // ----- Ending a request --------------------------------------------------------------------

  lemma CleanupShape(w: World, p: CtxPtr)
    requires p in w.ctxs
    ensures
      var w', c := Cleanup(w, p), w.ctxs[p];
      && w'.ctxs == w.ctxs[p := w'.ctxs[p]] && w'.reqs == w.reqs
      && w'.ctxs[p].owner == c.owner && w'.ctxs[p].status.Idle?
      && w'.ctxs[p].book == c.book.(verdict := w'.ctxs[p].book.verdict)
  {
    var w0 := SetBook(w, p, S.Detached(w.ctxs[p]).book);
    S.CancelFields(w0, p);
    var w1 := Teardown(w0, p, None, true);
    assert Cleanup(w, p) == SetCtx(w1, p, w1.ctxs[p].(attached := false));
  }

  lemma TerminateOnce(w: World, r: ReqId, ok: Sizes)
    requires Once(w, ok) && r in w.reqs
    ensures Once(Terminate(w, r), ok) && r in Terminate(w, r).reqs && Terminate(w, r).reqs[r].closed
  {
    assert ReqOnce(w, r, ok);
    var q, w' := w.reqs[r], Terminate(w, r);
    if q.cleanups != [] {
      var p := q.cleanups[0];
      CleanupShape(w, p);
      assert q.cleanups[1..] == [];
      assert RunCleanups(w, q.cleanups) == RunCleanups(Cleanup(w, p), q.cleanups[1..]);
      assert CtxSized(w.ctxs[p], ok);
      assert w'.ctxs == w.ctxs[p := w'.ctxs[p]];
    }
    assert ReqOnce(w', r, ok);
    RequestChangeOnce(w, w', r, ok);
  }

  lemma LogPhaseOnce(w: World, r: ReqId, i: LogInput, ok: Sizes)
    requires Once(w, ok) && r in w.reqs
    ensures Once(LogPhase(w, r, i), ok)
  {
    var slot, w' := w.reqs[r].slot, LogPhase(w, r, i);
    if slot.Some? && slot.value in w.ctxs {
      var p := slot.value;
      var (b, o) := ReportStep(w.ctxs[p].book, w.ctxs[p].hasWorker, i);
      assert w'.ctxs[p] == w.ctxs[p].(book := b);
      assert CtxSized(w.ctxs[p], ok);
      CtxChangeOnce(w, w', p, ok);
    } else {
      SameOnce(w, w', ok);
    }
  }

  lemma FreeOnce(w: World, r: ReqId, i: LogInput, ok: Sizes)
    requires Once(w, ok) && r in w.reqs
    ensures Once(Free(w, r, i), ok)
  {
    TerminateOnce(w, r, ok);
    var w1 := Terminate(w, r);
    LogPhaseOnce(w1, r, i, ok);
    RequestChangeOnce(LogPhase(w1, r, i), Free(w, r, i), r, ok);
  }

  // ----- Acts --------------------------------------------------------------------------------

  /** Also a redirect of a request whose check is pending. */
  lemma ActOnce(w: World, a: Act, ok: Sizes)
    requires Once(w, ok) && ActFits(a, ok)
    ensures Once(DoAct(w, a), ok)
  {
    if LegalAct(w, a) {
      match a
      case EnterHandler(r, conf, e) => EnterOnce(w, r, conf, e, ok);
      case ReadVerdict(r) => RecoverOnce(w, r, ok);
      case TerminateRequest(r) => TerminateOnce(w, r, ok);
      case FreeRequest(r, i) => FreeOnce(w, r, i, ok);
      case NewRequest(r) =>
        assert ReqOnce(DoAct(w, a), r, ok);
        RequestChangeOnce(w, DoAct(w, a), r, ok);
      case Redirect(r) =>
        assert ReqOnce(w, r, ok) && ReqOnce(DoAct(w, a), r, ok);
        RequestChangeOnce(w, DoAct(w, a), r, ok);
      case SetRefs(r, others) =>
        assert ReqOnce(w, r, ok) && ReqOnce(DoAct(w, a), r, ok);
        RequestChangeOnce(w, DoAct(w, a), r, ok);
    }
  }

  lemma {:induction false} ActsOnce(w: World, acts: seq<Act>, ok: Sizes)
    requires Once(w, ok) && ActsFit(acts, ok)
    ensures Once(RunActs(w, acts), ok)
    decreases |acts|
  {
    if acts != [] {
      ActOnce(w, acts[0], ok);
      ActsOnce(DoAct(w, acts[0]), acts[1..], ok);
    }
  }

  // ----- Completion --------------------------------------------------------------------------

  lemma RateCallbackOnce(w: World, r: ReqId, h: Handle, k: Completion, ok: Sizes)
    requires Once(w, ok)
    ensures Once(RateCallback(w, r, h, k), ok)
  {
    var target := CallbackTarget(w, r, h);
    if target.Some? {
      var p := target.value;
      var w1 := DropCheck(w, p, false);
      S.ScheduledRebindSafe(w1);
      var w' := RateCallback(w, r, h, k);
      assert w'.ctxs == w.ctxs[p := w'.ctxs[p]] && w'.reqs == w.reqs;
      assert CtxSized(w.ctxs[p], ok);
      CtxChangeOnce(w, w', p, ok);
    }
  }

  lemma ResumeOnce(w: World, r: ReqId, h: Handle, k: Completion, resumed: seq<Act>, ok: Sizes)
    requires Once(w, ok) && ActsFit(resumed, ok)
    ensures Once(ResumeAfter(w, r, h, k, resumed), ok)
  {
    if CallbackTarget(w, r, h).Some? {
      RateCallbackOnce(w, r, h, k, ok);
      ActsOnce(RateCallback(w, r, h, k), resumed, ok);
    }
  }

  lemma DeliverOnce(w: World, h: Handle, k: Completion, resumed: seq<Act>, ok: Sizes)
    requires Once(w, ok) && h in w.live && ActsFit(resumed, ok)
    ensures Once(Deliver(w, h, k, resumed), ok)
  {
    var w1 := Log(w.(live := w.live - {h}), ClientDone(h));
    SameOnce(w, w1, ok);
    ResumeOnce(w1, w.live[h], h, k, resumed, ok);
  }

  lemma GiveUpOnce(w: World, r: ReqId, h: Handle, status: ClientStatus, resumed: seq<Act>, ok: Sizes)
    requires Once(w, ok) && ActsFit(resumed, ok)
    ensures Once(GiveUp(w, r, h, status, resumed), ok)
  {
    SameOnce(w, ClientCancel(w, h), ok);
    ResumeOnce(ClientCancel(w, h), r, h, Completion(status, None), resumed, ok);
  }

  lemma {:induction false} ClientOnce(w: World, acts: seq<ClientAct>, ok: Sizes)
    requires Once(w, ok) && ClientFits(acts, ok)
    ensures Once(RunClient(w, acts), ok)
    decreases |acts|
  {
    if acts != [] {
      var w1 := DoClientAct(w, acts[0]);
      if acts[0].Complete? && acts[0].h in w.live {
        DeliverOnce(w, acts[0].h, acts[0].completion, acts[0].resumed, ok);
      } else {
        SameOnce(w, w1, ok);
      }
      ClientOnce(w1, acts[1..], ok);
    }
  }

  lemma {:induction false} ReadBatchOnce(w: World, input: seq<Recv>, room: nat, ok: Sizes)
    requires Once(w, ok) && EventFits(UdpReadable(input), ok)
    ensures Once(ReadBatch(w, input, room), ok)
    decreases room
  {
    if room > 0 && input != [] && input[0].Datagram? {
      ClientOnce(w, input[0].acts, ok);
      ReadBatchOnce(RunClient(w, input[0].acts), input[1..], room - 1, ok);
    }
  }

  // ----- Timers and runs ---------------------------------------------------------------------

  lemma TimerOnce(w: World, p: CtxPtr, t: Option<nat>, ok: Sizes)
    requires Once(w, ok) && p in w.ctxs
    ensures Once(SetCtx(w, p, w.ctxs[p].(timer := t)), ok)
  {
    assert CtxSized(w.ctxs[p], ok);
    CtxChangeOnce(w, SetCtx(w, p, w.ctxs[p].(timer := t)), p, ok);
  }

  lemma AtDeadlineOnce(w: World, p: CtxPtr, h: Handle, result: OnTimeout, ok: Sizes)
    requires Once(w, ok) && p in w.ctxs && ActsFit(ResumedBy(result), ok)
    ensures Once(AtDeadline(w, p, h, result), ok)
  {
    match result
    case CompletesNow(k, resumed) => if h in w.live { DeliverOnce(w, h, k, resumed, ok); }
    case StaysLive(d) => TimerOnce(w, p, Some(d), ok);
    case ReturnsError(status, resumed) => GiveUpOnce(w, w.ctxs[p].owner, h, status, resumed, ok);
    case LosesDeadline(resumed) => GiveUpOnce(w, w.ctxs[p].owner, h, ClientError, resumed, ok);
  }

  lemma TimerFiresOnce(w: World, p: CtxPtr, x: Expiry, ok: Sizes)
    requires Once(w, ok) && p in w.ctxs && EventFits(RequestTimer(p, x), ok)
    ensures Once(TimerFires(w, p, x), ok)
  {
    var c := w.ctxs[p];
    var w1 := SetCtx(w, p, c.(timer := None));
    TimerOnce(w, p, None, ok);
    if c.hasWorker && c.status.Waiting? {
      match x
      case NotDue(d) => TimerOnce(w1, p, Some(d), ok);
      case Due(steering, result) =>
        SameOnce(w1, SteerAll(w1, steering), ok);
        AtDeadlineOnce(SteerAll(w1, steering), p, c.status.handle, result, ok);
    }
  }

  lemma StepOnce(w: World, ev: Event, ok: Sizes)
    requires Once(w, ok) && EventFits(ev, ok)
    ensures Once(Step(w, ev), ok)
  {
    if LegalEvent(w, ev) {
      match ev
      case HttpEvent(acts) => ActsOnce(w, acts, ok);
      case RequestTimer(p, x) => TimerFiresOnce(w, p, x, ok);
      case UdpReadable(input) => ReadBatchOnce(w, input, UDP_READ_BATCH_MAX, ok);
      case RebindTimer(candidate) => SameOnce(w, Step(w, ev), ok);
    }
  }

  lemma {:induction false} RunOnce(w: World, events: seq<Event>, ok: Sizes)
    requires Once(w, ok) && forall ev | ev in events :: EventFits(ev, ok)
    ensures Once(Run(w, events), ok)
    decreases |events|
  {
    if events != [] {
      StepOnce(w, events[0], ok);
      RunOnce(Step(w, events[0]), events[1..], ok);
    }
  }

  /** A worker at its start, under an nginx that may or may not suspend requests. */
  ghost function Start(env: Env, endpoint: Endpoint): World {
    Initial(env.failOpen, endpoint).(env := env)
  }

  /** Whatever phase entries, redirects and re-entries happen, also redirects while the check is
      pending, one main request starts at most one check. */
  lemma AtMostOneCheckPerRequest(env: Env, endpoint: Endpoint, events: seq<Event>, r: ReqId)
    ensures
      var w := Run(Start(env, endpoint), events);
      r in w.reqs ==> w.reqs[r].checks <= 1
  {
    var any: Sizes := (_, _, _) => true;
    RunOnce(Start(env, endpoint), events, any);
    var w := Run(Start(env, endpoint), events);
    if r in w.reqs {
      assert ReqOnce(w, r, any);
    }
  }

  /** A main request whose handler is only ever entered for subrequests, for locations without admission
      or with the module off starts no check in any run. */
  lemma BypassedEntriesStartNothing(env: Env, endpoint: Endpoint, events: seq<Event>, r: ReqId)
    requires forall ev | ev in events :: EventFits(ev, (r', _, _) => r' != r)
    ensures
      var w := Run(Start(env, endpoint), events);
      && (r in w.reqs ==> w.reqs[r].checks == 0)
      && forall p | p in w.ctxs && w.ctxs[p].owner == r :: w.ctxs[p].status.Idle? && w.ctxs[p].book.basis.None?
  {
    var others: Sizes := (r', _, _) => r' != r;
    RunOnce(Start(env, endpoint), events, others);
    var w := Run(Start(env, endpoint), events);
    if r in w.reqs {
      assert ReqOnce(w, r, others);
    }
    forall p | p in w.ctxs && w.ctxs[p].owner == r ensures w.ctxs[p].status.Idle? && w.ctxs[p].book.basis.None? {
      OnceIsSized(w, p, others);
    }
  }

  /** A handler entered again while the check of the context it finds is pending answers that it
      waits, starts nothing and only refills the slot. */
  lemma ReentryWaits(w: World, r: ReqId, p: CtxPtr, conf: EntryConf, e: Entry)
    requires r in w.reqs && T.FoundContext(w, r) == Some(p) && p in w.ctxs
    requires w.ctxs[p].status.Waiting? && !w.ctxs[p].book.done
    requires conf.isMain && (conf.admission || conf.report) && conf.mainEnabled
    ensures Enter(w, r, conf, e).1 == Again
    ensures Enter(w, r, conf, e).0 == w.(reqs := w.reqs[r := w.reqs[r].(slot := Some(p))])
  {
    assert w.reqs[r := w.reqs[r]] == w.reqs;
  }

  /** Any context that a redirect hides, in any run, is found again and so reused. */
  lemma RedirectedContextIsFound(env: Env, endpoint: Endpoint, events: seq<Event>, r: ReqId)
    ensures
      var w := Run(Start(env, endpoint), events);
      r in w.reqs && !w.reqs[r].closed && w.reqs[r].checks == 1 ==>
        var found := T.FoundContext(SetReq(w, r, w.reqs[r].(slot := None)), r);
        found.Some? && Reusable(w, r, found.value)
  {
    var any: Sizes := (_, _, _) => true;
    RunOnce(Start(env, endpoint), events, any);
    var w := Run(Start(env, endpoint), events);
    if r in w.reqs && !w.reqs[r].closed && w.reqs[r].checks == 1 {
      assert ReqOnce(w, r, any);
      assert FirstAttached(w, w.reqs[r].cleanups) == Some(w.reqs[r].cleanups[0]);
    }
  }
}
