/**
 What the steps of the machine do, said without its own definitions: which verdict a completion or a
 new context gets, what the bypasses leave alone, when the endpoint is replaced, and what an early
 timer, a broken connection or a read batch does.
 */
module AdmissionMeaning {
  import opened Wrappers
  import opened Admission
  import opened AdmissionSafety
  import opened AdmissionTheorems

  // ----- Completion --------------------------------------------------------------------------

  /** A check that the client completed, or that was cancelled and settled by hand, stores the verdict
      of its completion; the verdict variable has a value exactly for a delivered result of the stored
      sizes, and says whether it allows. */
  lemma CompletionStores(w: World, p: CtxPtr, h: Handle, k: Completion, o: Obs)
    requires Safe(w) && p in w.ctxs && w.ctxs[p].status == Waiting(h) && o in {ClientDone(h), Cancelled(h)}
    ensures
      var r, b := w.ctxs[p].owner, w.ctxs[p].book;
      var w' := RateCallback(Log(w.(live := w.live - {h}), o), r, h, k);
      && p in w'.ctxs && r in w'.reqs && w'.ctxs[p].book.done && w'.ctxs[p].status == Idle
      && Judged(k, b.guards, b.resources, w.env.failOpen, w'.ctxs[p].book.verdict)
      && VerdictVariable(w', r) == (if Exact(k, b.guards, b.resources) then Some(Allowed(k.result.value)) else None)
  {
    assert CtxSafe(w, p);
    var b := w.ctxs[p].book;
    JudgeMeans(k, b.guards, b.resources, w.env.failOpen);
    CompletionDecides(w, p, h, k, o);
  }

  /** A deadline that the client cannot keep: the status it returns decides the cause, and a lost
      deadline is a dependency error. */
  lemma GivenUpVerdict(w: World, p: CtxPtr, h: Handle, result: OnTimeout)
    requires Safe(w) && p in w.ctxs && w.ctxs[p].status == Waiting(h)
    requires result in {ReturnsError(ClientTimeout, []), ReturnsError(ClientError, []), LosesDeadline([])}
    ensures
      var w' := AtDeadline(w, p, h, result);
      p in w'.ctxs && w'.ctxs[p].book.verdict ==
        Verdict(if w.env.failOpen then Proceed else TooManyRequests,
                if w.env.failOpen then FailOpen else FailClose,
                if result == ReturnsError(ClientTimeout, []) then Timeout else DependencyError)
  {
    assert CtxSafe(w, p);
    var k := Completion(if result == ReturnsError(ClientTimeout, []) then ClientTimeout else ClientError, None);
    CompletionStores(w, p, h, k, Cancelled(h));
    var w1 := ClientCancel(w, h);
    assert CallbackTarget(w1, w.ctxs[p].owner, h) == Some(p);
    assert AtDeadline(w, p, h, result) == RunActs(RateCallback(w1, w.ctxs[p].owner, h, k), []);
  }

  // ----- The bypasses of the handler -----------------------------------------------------------

  ghost predicate Bypassed(conf: EntryConf) {
    !conf.isMain || (!conf.admission && !conf.report) || !conf.mainEnabled
  }

  /** A subrequest, a location that asks for nothing and a module that is off are declined. Nothing
      starts, no context and no check changes; only a slot may be refilled, and for a subrequest not
      even that. */
  lemma BypassChangesNothing(w: World, r: ReqId, conf: EntryConf, e: Entry)
    requires r in w.reqs && Bypassed(conf)
    ensures
      var (w', rc) := Enter(w, r, conf, e);
      && rc == Declined
      && w' == w.(reqs := w'.reqs) && w'.reqs.Keys == w.reqs.Keys
      && (forall q | q in w.reqs :: w'.reqs[q] == w.reqs[q].(slot := w'.reqs[q].slot))
      && (!conf.isMain ==> w' == w)
  {
  }

  // ----- A new context -----------------------------------------------------------------------------

  ghost predicate PolicyVerdict(v: Verdict, failOpen: bool, cause: Cause) {
    v == Verdict(if failOpen then Proceed else TooManyRequests, if failOpen then FailOpen else FailClose, cause)
  }

  /** The handler got as far as starting a check, and the client started it. */
  ghost predicate Starts(published: bool, conf: EntryConf, e: Entry) {
    && e.cleanupOk && (published || e.initOk) && conf.admission
    && e.build.Built? && e.start.StartedCheck?
  }

  /** The verdict that every exit of a new context stores, and the code it returns. */
  ghost predicate Exits(published: bool, failOpen: bool, conf: EntryConf, e: Entry, v: Verdict, rc: Rc) {
    var registered, worker := e.cleanupOk, e.cleanupOk && (published || e.initOk);
    && (!registered ==> v == Verdict(Declined, InternalError, NginxError) && rc == ServerError)
    && (registered ==> rc == v.decision)
    && (registered && !worker && conf.admission ==> PolicyVerdict(v, failOpen, DependencyError))
    && (registered && !worker && !conf.admission ==> v == Verdict(Declined, NoOutcome, DependencyError))
    && (worker && (!conf.admission || e.build.NoRules?) ==> v == Verdict(Declined, NoOutcome, NoCause))
    && (worker && conf.admission && e.build.BuildFailed? ==> PolicyVerdict(v, failOpen, DependencyError))
    && (worker && conf.admission && e.build.BuildInternalError? ==> v == Verdict(ServerError, InternalError, NginxError))
    && (worker && conf.admission && e.build.Built? && e.start.StartFailed? ==> PolicyVerdict(v, failOpen, StartFailure))
    && (Starts(published, conf, e) && !e.readEventOk ==> v == Verdict(ServerError, InternalError, NginxError))
  }

  /** The request holds context `p` in its slot, and on its cleanup list if it could be registered. */
  ghost function Registering(q: Req, p: CtxPtr, registered: bool, checks: nat): Req {
    q.(slot := Some(p), cleanups := if registered then [p] + q.cleanups else q.cleanups, checks := q.checks + checks)
  }

  /** The new context is decided with verdict `v`; `checks` checks were started for it. */
  ghost predicate Decided(w: World, w': World, r: ReqId, p: CtxPtr, e: Entry, v: Verdict, checks: nat)
    requires r in w.reqs
  {
    && p in w'.ctxs && w'.ctxs == w.ctxs[p := w'.ctxs[p]] && w'.ctxs[p].owner == r
    && w'.ctxs[p].status == Idle && w'.ctxs[p].timer.None?
    && w'.ctxs[p].book.done && w'.ctxs[p].book.verdict == v
    && w'.reqs == w.reqs[r := Registering(w.reqs[r], p, e.cleanupOk, checks)]
  }

  /** The new context waits for check `h`: armed with its deadline, known to the client, counted. */
  ghost predicate Waits(w: World, w': World, r: ReqId, p: CtxPtr, e: Entry)
    requires r in w.reqs && e.start.StartedCheck? && e.build.Built?
  {
    var h := e.start.handle;
    && p in w'.ctxs && w'.ctxs == w.ctxs[p := w'.ctxs[p]] && w'.ctxs[p].owner == r
    && w'.ctxs[p].status == Waiting(h) && w'.ctxs[p].timer == e.start.deadline
    && !w'.ctxs[p].book.done && w'.ctxs[p].book.verdict.outcome == WaitingOutcome
    && w'.ctxs[p].book.guards == e.build.guards && w'.ctxs[p].book.resources == e.build.resources
    && w'.live == w.live[h := r] && w'.history == w.history + [Started(h)]
    && w'.reqs == w.reqs[r := Registering(w.reqs[r], p, true, 1)]
  }

  /** The context has a worker and a report if and only if there is one to be had. */
  ghost predicate Attached(w: World, w': World, p: CtxPtr, conf: EntryConf, e: Entry)
    requires p in w'.ctxs
  {
    && w'.ctxs[p].attached
    && (w'.ctxs[p].hasWorker <==> e.cleanupOk && (w.published || e.initOk))
    && (w'.ctxs[p].book.latEnabled <==> w'.ctxs[p].hasWorker && conf.report && e.reportBuilt)
    && !w'.ctxs[p].book.latSent && w'.ctxs[p].book.basis.None?
    && w'.published == (w.published || (e.cleanupOk && e.initOk))
  }

  /** A new context waits, with Again, if and only if its check was started and the client socket is
      read; a check whose socket is not is cancelled and given up at once; no other exit starts one. */
  ghost predicate NewContextMeant(w: World, res: (World, Rc), r: ReqId, p: CtxPtr, conf: EntryConf, e: Entry)
    requires r in w.reqs
  {
    var (w', rc) := res;
    if Starts(w.published, conf, e) && e.readEventOk then
      rc == Again && Waits(w, w', r, p, e) && Attached(w, w', p, conf, e)
    else
      && p in w'.ctxs && Exits(w.published, w.env.failOpen, conf, e, w'.ctxs[p].book.verdict, rc)
      && Decided(w, w', r, p, e, w'.ctxs[p].book.verdict, if Starts(w.published, conf, e) then 1 else 0)
      && Attached(w, w', p, conf, e)
      && w'.live == w.live
      && w'.history ==
           if Starts(w.published, conf, e)
           then w.history + [Started(e.start.handle), Cancelled(e.start.handle), Settled(e.start.handle)]
           else w.history
  }

  lemma NewContextMeans(w: World, r: ReqId, p: CtxPtr, conf: EntryConf, e: Entry)
    requires r in w.reqs && LegalEntry(w, e)
    ensures NewContextMeant(w, NewContext(w, r, p, conf, e), r, p, conf, e)
  {
    if !e.cleanupOk {
    } else if !w.published && !e.initOk {
      RegisteredTwice(w, r, p, conf.admission);
    } else {
      WithWorkerFields(w, r, p, conf, e);
      if Starts(w.published, conf, e) {
        StartMeans(w, r, p, conf, e);
      } else {
        DecidedMeans(w, r, p, conf, e);
      }
    }
  }

  lemma DecidedMeans(w: World, r: ReqId, p: CtxPtr, conf: EntryConf, e: Entry)
    requires r in w.reqs && e.cleanupOk && (w.published || e.initOk) && !Starts(w.published, conf, e)
    ensures
      var w3 := WithWorker(w, r, p, conf, conf.report && e.reportBuilt);
      NewContextMeant(w, if !conf.admission then Finish(w3, p, w3.ctxs[p].book.verdict) else Admit(w3, r, p, e), r, p, conf, e)
  {
    var w3 := WithWorker(w, r, p, conf, conf.report && e.reportBuilt);
    var b := w3.ctxs[p].book;
    if !conf.admission || e.build.NoRules? {
      FinishMeans(w, w3, r, p, conf, e, b, Verdict(Declined, NoOutcome, NoCause));
    } else if e.build.BuildFailed? {
      FinishMeans(w, w3, r, p, conf, e, b, FailVerdict(w.env.failOpen, DependencyError));
    } else if e.build.BuildInternalError? {
      FinishMeans(w, w3, r, p, conf, e, b, InternalVerdict);
    } else {
      var sized := b.(guards := e.build.guards, resources := e.build.resources);
      FinishMeans(w, SetBook(w3, p, sized), r, p, conf, e, sized, FailVerdict(w.env.failOpen, StartFailure));
    }
  }

  lemma FinishMeans(w: World, w1: World, r: ReqId, p: CtxPtr, conf: EntryConf, e: Entry, b: Book, v: Verdict)
    requires r in w.reqs && e.cleanupOk && (w.published || e.initOk) && !Starts(w.published, conf, e)
    requires w1 == SetBook(WithWorker(w, r, p, conf, conf.report && e.reportBuilt), p, b)
    requires b.latEnabled == (conf.report && e.reportBuilt) && !b.latSent && b.basis.None?
    requires Exits(w.published, w.env.failOpen, conf, e, v, v.decision)
    ensures NewContextMeant(w, Finish(w1, p, v), r, p, conf, e)
  {
    var w' := Finish(w1, p, v).0;
    assert w'.ctxs == w.ctxs[p := w'.ctxs[p]];
  }

  lemma StartMeans(w: World, r: ReqId, p: CtxPtr, conf: EntryConf, e: Entry)
    requires r in w.reqs && LegalEntry(w, e) && Starts(w.published, conf, e)
    ensures
      var w3 := WithWorker(w, r, p, conf, conf.report && e.reportBuilt);
      NewContextMeant(w, Admit(w3, r, p, e), r, p, conf, e)
  {
    var w3 := WithWorker(w, r, p, conf, conf.report && e.reportBuilt);
    var b := w3.ctxs[p].book.(guards := e.build.guards, resources := e.build.resources);
    var w4 := StartedWorld(w3, r, p, b, e.start.handle, e.start.deadline);
    assert w4.ctxs == w.ctxs[p := w4.ctxs[p]];
    assert w4.reqs == w.reqs[r := Registering(w.reqs[r], p, true, 1)];
    if e.readEventOk {
      assert Admit(w3, r, p, e) == (w4, Again);
    } else {
      AbortMeans(w, w4, r, p, conf, e, b);
    }
  }

  lemma AbortMeans(w: World, w4: World, r: ReqId, p: CtxPtr, conf: EntryConf, e: Entry, b: Book)
    requires r in w.reqs && LegalEntry(w, e) && Starts(w.published, conf, e) && !e.readEventOk
    requires p in w4.ctxs && w4.ctxs == w.ctxs[p := w4.ctxs[p]]
    requires w4.ctxs[p] == Ctx(r, true, true, Waiting(e.start.handle), e.start.deadline, w4.ctxs[p].book)
    requires w4.ctxs[p].book == b.(verdict := w4.ctxs[p].book.verdict)
    requires b.latEnabled == (conf.report && e.reportBuilt) && !b.latSent && b.basis.None?
    requires w4.reqs == w.reqs[r := Registering(w.reqs[r], p, true, 1)] && w4.published
    requires w4.live == w.live[e.start.handle := r] && w4.history == w.history + [Started(e.start.handle)]
    ensures NewContextMeant(w, Finish(Teardown(w4, p, None, true), p, InternalVerdict), r, p, conf, e)
  {
    var h := e.start.handle;
    CancelFields(w4, p);
    var w' := Finish(Teardown(w4, p, None, true), p, InternalVerdict).0;
    assert w'.ctxs == w.ctxs[p := w'.ctxs[p]];
    assert w4.live - {h} == w.live;
    assert w4.history + [Cancelled(h)] + [Settled(h)] == w.history + [Started(h), Cancelled(h), Settled(h)];
  }

  /** A request without a context that can be reused gets a new one, or 500 if none can be allocated. */
  lemma FirstEntryMeans(w: World, r: ReqId, conf: EntryConf, e: Entry)
    requires r in w.reqs && LegalEntry(w, e) && !Bypassed(conf)
    requires w.reqs[r].slot.None? && forall p | p in w.reqs[r].cleanups && p in w.ctxs :: !w.ctxs[p].attached
    ensures e.ctx.None? ==> Enter(w, r, conf, e) == (w, ServerError)
    ensures e.ctx.Some? ==> NewContextMeant(w, Enter(w, r, conf, e), r, e.ctx.value, conf, e)
  {
    NoneAttached(w, w.reqs[r].cleanups);
    if e.ctx.Some? {
      NewContextMeans(w, r, e.ctx.value, conf, e);
    }
  }

  lemma {:induction false} NoneAttached(w: World, cleanups: seq<CtxPtr>)
    requires forall p | p in cleanups && p in w.ctxs :: !w.ctxs[p].attached
    ensures FirstAttached(w, cleanups).None?
  {
    if cleanups != [] {
      NoneAttached(w, cleanups[1..]);
    }
  }

  // ----- Steering ------------------------------------------------------------------------------

  ghost predicate NoneWaits(w: World) {
    forall p | p in w.ctxs :: w.ctxs[p].status == Idle
  }

  lemma NoneWaitsIsEmpty(w: World)
    ensures NoneWaits(w) <==> WaitingSet(w) == {}
  {
    if NoneWaits(w) {
      assert forall p | p in WaitingSet(w) :: false;
    } else {
      var p :| p in w.ctxs && w.ctxs[p].status != Idle;
      assert p in WaitingSet(w);
    }
  }

  /** Feedback that keeps the port changes nothing; other feedback wants a rebind, and schedules it at
      once exactly if nothing waits and none is scheduled. */
  lemma FeedbackMeans(w: World, keepPort: bool)
    ensures
      Steer(w, keepPort) ==
        if keepPort then w
        else w.(pending := true, rebindTimer := if NoneWaits(w) && w.rebindTimer.None? then Some(0) else w.rebindTimer)
  {
    NoneWaitsIsEmpty(w);
    assert WaitingSet(w.(pending := true)) == WaitingSet(w);
  }

  /** The rebind event replaces the endpoint exactly if a rebind is wanted, nothing waits and a new
      socket could be opened, and then none is wanted any more; if no socket could be opened it keeps
      the endpoint and tries again in a second; otherwise it does nothing. */
  lemma RebindMeans(w: World, candidate: Option<Endpoint>)
    ensures
      RebindFires(w, candidate) ==
        if !w.pending || !NoneWaits(w) then w.(rebindTimer := None)
        else if candidate.None? then w.(rebindTimer := Some(1000))
        else w.(rebindTimer := None, pending := false, endpoint := candidate.value,
                history := w.history + [Replaced(w.endpoint, candidate.value)])
  {
    NoneWaitsIsEmpty(w);
    assert WaitingSet(w.(rebindTimer := None)) == WaitingSet(w);
  }

  // ----- Read batches ------------------------------------------------------------------------------

  /** What the client does for the first `n` datagrams, in order. */
  ghost function ActsOf(input: seq<Recv>, n: nat): seq<ClientAct>
    requires n <= |input| && forall i | 0 <= i < n :: input[i].Datagram?
  {
    if n == 0 then [] else ActsOf(input, n - 1) + input[n - 1].acts
  }

  /** A batch hands over a prefix of what can be read, in order: it ends at the first read that yields
      no datagram and after 64 datagrams, and only there. */
  lemma ReadBatchMeans(w: World, input: seq<Recv>, n: nat)
    requires n <= |input| && n <= 64 && forall i | 0 <= i < n :: input[i].Datagram?
    requires n == 64 || n == |input| || !input[n].Datagram?
    ensures ReadBatch(w, input, UDP_READ_BATCH_MAX) == RunClient(w, ActsOf(input, n))
  {
    BatchOf(w, input, n, UDP_READ_BATCH_MAX);
  }

  lemma {:induction false} BatchOf(w: World, input: seq<Recv>, n: nat, room: nat)
    requires n <= |input| && n <= room && forall i | 0 <= i < n :: input[i].Datagram?
    requires n == room || n == |input| || !input[n].Datagram?
    ensures ReadBatch(w, input, room) == RunClient(w, ActsOf(input, n))
    decreases n
  {
    if n > 0 {
      BatchOf(RunClient(w, input[0].acts), input[1..], n - 1, room - 1);
      ActsOfFirst(input, n);
      RunClientAppend(w, input[0].acts, ActsOf(input[1..], n - 1));
    }
  }

  lemma {:induction false} ActsOfFirst(input: seq<Recv>, n: nat)
    requires 0 < n <= |input| && forall i | 0 <= i < n :: input[i].Datagram?
    ensures ActsOf(input, n) == input[0].acts + ActsOf(input[1..], n - 1)
    decreases n
  {
    if n > 1 {
      ActsOfFirst(input, n - 1);
    }
  }

  lemma {:induction false} RunClientAppend(w: World, a: seq<ClientAct>, b: seq<ClientAct>)
    ensures RunClient(w, a + b) == RunClient(RunClient(w, a), b)
    decreases |a|
  {
    if a == [] {
      assert a + b == b;
    } else {
      assert (a + b)[1..] == a[1..] + b;
      RunClientAppend(DoClientAct(w, a[0]), a[1..], b);
    }
  }

  // ----- The request timer -----------------------------------------------------------------------

  /** An early expiry of a pending check re-arms the timer with what remains and does nothing else. */
  lemma EarlyExpiryRearms(w: World, p: CtxPtr, remaining: nat)
    requires p in w.ctxs && w.ctxs[p].status.Waiting? && w.ctxs[p].hasWorker
    ensures TimerFires(w, p, NotDue(remaining)) == w.(ctxs := w.ctxs[p := w.ctxs[p].(timer := Some(remaining))])
  {
    assert w.ctxs[p := w.ctxs[p].(timer := None)][p := w.ctxs[p].(timer := Some(remaining))]
        == w.ctxs[p := w.ctxs[p].(timer := Some(remaining))];
  }

  // ----- Cleanup and the log phase -----------------------------------------------------------------

  /** Cleanup of a pending check cancels it once and marks the request aborted; of any other context
      it keeps the verdict. Either way the context is detached and its timer is gone. */
  lemma CleanupMeans(w: World, p: CtxPtr)
    requires Safe(w) && p in w.ctxs
    ensures
      var w', c := Cleanup(w, p), w.ctxs[p];
      && w'.ctxs == w.ctxs[p := c.(attached := false, status := Idle, timer := None,
           book := if c.status.Waiting? then c.book.(verdict := Verdict(c.book.verdict.decision, Aborted, ClientAbort))
                   else c.book)]
      && w'.reqs == w.reqs
      && (c.status.Waiting? ==>
            && w'.live == w.live - {c.status.handle}
            && w'.history == w.history + [Cancelled(c.status.handle), Settled(c.status.handle)])
      && (c.status.Idle? ==> w'.live == w.live && w'.history == w.history)
  {
    assert CtxSafe(w, p);
    CleanupFields(w, p);
    if w.ctxs[p].status.Waiting? {
      var h := w.ctxs[p].status.handle;
      assert w.history + [Cancelled(h)] + [Settled(h)] == w.history + [Cancelled(h), Settled(h)];
    }
  }

  /** A broken connection marks a request whose report was built and unsent as aborted and sends
      nothing. */
  lemma BrokenConnectionAborts(w: World, r: ReqId, elapsed: Option<int>)
    requires r in w.reqs && w.reqs[r].slot.Some? && w.reqs[r].slot.value in w.ctxs
    ensures
      var p := w.reqs[r].slot.value;
      var b := w.ctxs[p].book;
      var w' := LogPhase(w, r, LogInput(true, elapsed));
      && w'.history == w.history && p in w'.ctxs
      && w'.ctxs[p].book ==
           if b.latEnabled && !b.latSent
           then b.(latSent := true, verdict := Verdict(b.verdict.decision, Aborted, ClientAbort)) else b
  {
  }

  /** A report says the elapsed milliseconds when they are in 1..2^32-1, and the nearer bound otherwise. */
  lemma ReportedValue(w: World, r: ReqId, i: LogInput)
    requires r in w.reqs && LogPhase(w, r, i).history != w.history
    ensures
      var h := LogPhase(w, r, i).history;
      && i.elapsed.Some? && |h| == |w.history| + 1 && h[|w.history|].Reported?
      && var ms := h[|w.history|].ms;
      && 1 <= ms <= 4294967295
      && (1 <= i.elapsed.value <= 4294967295 ==> ms == i.elapsed.value)
      && (i.elapsed.value < 1 ==> ms == 1) && (i.elapsed.value > 4294967295 ==> ms == 4294967295)
  {
    LogPhaseReportsExactly(w, r, i, i);
  }
}
