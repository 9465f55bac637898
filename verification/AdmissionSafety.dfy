/**
 What every run of the admission machine keeps, whatever nginx and the C client do within
 their rules.
 */
module AdmissionSafety {
  import opened Wrappers
  import opened Admission

  // ----- The ledger of checks ----------------------------------------------------------------

  /** `live`: checks the client still holds. `owed`: checks whose context still waits. */
  datatype Ledger = Ledger(live: set<Handle>, owed: set<Handle>)

  /** A history is replayable when each start is of an unused handle, each start is ended at
      most once by the client or by a cancel and settled at most once, the endpoint is replaced
      only while no check is live or owed, and every report is of a reportable outcome with a
      value between 1 and 2^32-1. */
  ghost function Apply(l: Ledger, o: Obs): Option<Ledger> {
    match o
    case Started(h) =>
      if h in l.live || h in l.owed then None else Some(Ledger(l.live + {h}, l.owed + {h}))
    case ClientDone(h) => if h in l.live then Some(l.(live := l.live - {h})) else None
    case Cancelled(h) => if h in l.live then Some(l.(live := l.live - {h})) else None
    case Settled(h) => if h in l.owed then Some(l.(owed := l.owed - {h})) else None
    case Replaced(_, _) => if l == Ledger({}, {}) then Some(l) else None
    case Reported(outcome, ms) =>
      if Reportable(outcome) && 1 <= ms <= MAX_LATENCY_MS then Some(l) else None
  }

  ghost function Replay(history: seq<Obs>): Option<Ledger>
    decreases |history|
  {
    if history == [] then Some(Ledger({}, {}))
    else
      var before := Replay(history[..|history| - 1]);
      if before.None? then None else Apply(before.value, history[|history| - 1])
  }

  lemma ReplayLog(w: World, o: Obs)
    ensures Replay(Log(w, o).history) ==
            if Replay(w.history).None? then None else Apply(Replay(w.history).value, o)
  {
    assert (w.history + [o])[..|w.history|] == w.history;
  }

  // ----- The invariant -----------------------------------------------------------------------

  ghost predicate Allowed(r: RateResult) {
    && r.success
    && (forall i | 0 <= i < |r.guardsPassed| :: r.guardsPassed[i])
    && (forall i | 0 <= i < |r.deficits| :: r.deficits[i] == 0)
  }

  /** The client delivered a result of these sizes. */
  ghost predicate Exact(k: Completion, guards: nat, resources: nat) {
    && k.status == ClientOk && k.result.Some?
    && |k.result.value.guardsPassed| == guards && |k.result.value.deficits| == resources
  }

  /** The verdict of a completion, in all five cases. Only a delivered result of the stored sizes can
      allow or deny; anything else follows the failure policy and names its cause. */
  ghost predicate Judged(k: Completion, guards: nat, resources: nat, failOpen: bool, v: Verdict) {
    && (v == Verdict(Proceed, ValidAllow, ValidVerdict) <==> Exact(k, guards, resources) && Allowed(k.result.value))
    && (v == Verdict(TooManyRequests, ValidDeny, ValidVerdict) <==> Exact(k, guards, resources) && !Allowed(k.result.value))
    && (v.cause == CardinalityMismatch <==> k.status == ClientOk && k.result.Some? && !Exact(k, guards, resources))
    && (v.cause == Timeout <==> k.status == ClientTimeout)
    && (v.cause == DependencyError <==> k.status == ClientError || (k.status == ClientOk && k.result.None?))
    && (!Exact(k, guards, resources) ==>
          && v.decision == (if failOpen then Proceed else TooManyRequests)
          && v.outcome == (if failOpen then FailOpen else FailClose))
  }

  /** Outcome, cause and decision of one context fit together. */
  ghost predicate Coherent(failOpen: bool, c: Ctx) {
    var b := c.book;
    var v := b.verdict;
    && (v.outcome.WaitingOutcome? <==> c.status.Waiting?)
    && (v.outcome.WaitingOutcome? ==> v.cause.NoCause?)
    && (v.outcome.ValidAllow? ==> v == Verdict(Proceed, ValidAllow, ValidVerdict))
    && (v.outcome.ValidDeny? ==> v == Verdict(TooManyRequests, ValidDeny, ValidVerdict))
    && (v.cause.ValidVerdict? ==>
          && b.basis.Some? && Delivered(b.basis.value)
          && ExactCardinality(b.basis.value, b.guards, b.resources)
          && v.outcome == (if Allows(b.basis.value) then ValidAllow else ValidDeny))
    && (v.outcome.FailOpen? ==> failOpen && v.decision != TooManyRequests)
    && (v.outcome.FailClose? ==> !failOpen && v.decision != Proceed)
    && ((v.outcome.FailOpen? || v.outcome.FailClose?) && b.done ==>
          && v.decision == FailDecision(failOpen)
          && v.cause in {StartFailure, DependencyError, Timeout, CardinalityMismatch})
    && (v.outcome.InternalError? ==> v.cause.NginxError?)
    && (v.outcome.Aborted? ==> v.cause.ClientAbort?)
    && (v.outcome.NoOutcome? ==> v.decision.Declined? && (v.cause.NoCause? || v.cause.DependencyError?))
    && (b.basis.Some? ==> b.done && (v.outcome.Aborted? || Judged(b.basis.value, b.guards, b.resources, failOpen, v)))
    && b.reports <= (if b.latSent then 1 else 0)
    && (b.latSent ==> b.latEnabled)
  }

  /** A waiting context is the one its request would find, is not yet decided, and its check is
      live in the client with that request as callback argument. An idle context has no timer.
      Until the cleanup list has run, every context waits or is decided. */
  ghost predicate CtxSafe(w: World, p: CtxPtr)
    requires p in w.ctxs
  {
    var c := w.ctxs[p];
    && c.owner in w.reqs
    && var q := w.reqs[c.owner];
    && Coherent(w.env.failOpen, c)
    && (c.status.Waiting? ==>
          && c.hasWorker && c.attached && !c.book.done
          && !q.closed && q.slot == Some(p) && q.cleanups == [p]
          && c.status.handle in w.live && w.live[c.status.handle] == c.owner)
    && (c.status.Idle? ==> c.timer.None?)
    && (q.closed || c.status.Waiting? || c.book.done)
    && (c.book.verdict.outcome.InternalError? && p in q.cleanups ==> c.book.verdict.decision == ServerError)
    && (c.hasWorker ==> w.published)
  }

  /** A request finds its own contexts only, at most one is registered for cleanup, and at most
      one check was ever started; if one was, its context is still registered until cleanup. */
  ghost predicate ReqSafe(w: World, r: ReqId)
    requires r in w.reqs
  {
    var q := w.reqs[r];
    && (q.slot.Some? ==> q.slot.value in w.ctxs && w.ctxs[q.slot.value].owner == r)
    && |q.cleanups| <= 1
    && (|q.cleanups| == 1 ==>
          && q.cleanups[0] in w.ctxs
          && w.ctxs[q.cleanups[0]].owner == r && w.ctxs[q.cleanups[0]].attached)
    && (q.closed ==> q.cleanups == [])
    && q.checks <= 1
    && (q.checks == 1 ==> q.closed || |q.cleanups| == 1)
  }

  ghost predicate LiveSafe(w: World, h: Handle)
    requires h in w.live
  {
    var r := w.live[h];
    && r in w.reqs
    && w.reqs[r].slot.Some?
    && w.reqs[r].slot.value in w.ctxs
    && w.ctxs[w.reqs[r].slot.value].status == Waiting(h)
  }

  /** A wanted rebind is scheduled as soon as nothing is in flight. */
  ghost predicate RebindSafe(w: World) {
    w.pending && WaitingSet(w) == {} ==> w.rebindTimer.Some?
  }

  ghost predicate Shape(w: World) {
    && (forall p {:trigger CtxSafe(w, p)} | p in w.ctxs :: CtxSafe(w, p))
    && (forall r {:trigger ReqSafe(w, r)} | r in w.reqs :: ReqSafe(w, r))
    && (forall h {:trigger LiveSafe(w, h)} | h in w.live :: LiveSafe(w, h))
  }

  ghost predicate Balanced(w: World) {
    Replay(w.history) == Some(Ledger(w.live.Keys, w.live.Keys))
  }

  ghost predicate Safe(w: World) {
    w.env.suspends && Shape(w) && RebindSafe(w) && Balanced(w)
  }

  /** Every waiting context outside `except` has an armed timer. */
  ghost predicate Armed(w: World, except: set<CtxPtr>) {
    forall p | p in w.ctxs && p !in except :: w.ctxs[p].status.Waiting? ==> w.ctxs[p].timer.Some?
  }

  lemma SafeIsCoherent(w: World, p: CtxPtr)
    requires Safe(w) && p in w.ctxs
    ensures Coherent(w.env.failOpen, w.ctxs[p])
  {
    assert CtxSafe(w, p);
  }

  // ----- Judging -----------------------------------------------------------------------------

  lemma JudgeMeans(k: Completion, guards: nat, resources: nat, failOpen: bool)
    ensures Judged(k, guards, resources, failOpen, Judge(k, guards, resources, failOpen))
  {
    assert Delivered(k) ==> (Allows(k) <==> Allowed(k.result.value));
  }

  lemma JudgeCoherent(k: Completion, guards: nat, resources: nat, failOpen: bool, c: Ctx)
    requires c.status.Idle? && c.book.reports <= (if c.book.latSent then 1 else 0)
    requires c.book.latSent ==> c.book.latEnabled
    requires c.book.guards == guards && c.book.resources == resources
    requires c.book.done && c.book.basis == Some(k) && c.book.verdict == Judge(k, guards, resources, failOpen)
    ensures Coherent(failOpen, c) && Judged(k, guards, resources, failOpen, c.book.verdict)
  {
    JudgeMeans(k, guards, resources, failOpen);
  }

  // ----- Rebinding ---------------------------------------------------------------------------

  lemma LiveMeansWaiting(w: World, h: Handle)
    requires Shape(w) && h in w.live
    ensures WaitingSet(w) != {}
  {
    assert LiveSafe(w, h);
    assert w.reqs[w.live[h]].slot.value in WaitingSet(w);
  }

  lemma WaitingMeansLive(w: World, p: CtxPtr)
    requires Shape(w) && p in WaitingSet(w)
    ensures w.live != map[]
  {
    assert CtxSafe(w, p);
  }

  /** No context waits exactly when the client holds no check. */
  lemma NoneWaitingNoneLive(w: World)
    requires Shape(w)
    ensures WaitingSet(w) == {} <==> w.live == map[]
  {
    if w.live != map[] {
      var h :| h in w.live;
      LiveMeansWaiting(w, h);
    }
    if p :| p in WaitingSet(w) {
      WaitingMeansLive(w, p);
    }
  }

  /** There are as many waiting contexts as live checks. */
  lemma {:induction false} WaitingIsLive(w: World)
    requires Shape(w)
    ensures |WaitingSet(w)| == |w.live|
  {
    var f := map p | p in WaitingSet(w) :: w.ctxs[p].status.handle;
    forall p, q | p in f && q in f && f[p] == f[q] ensures p == q {
      assert CtxSafe(w, p) && CtxSafe(w, q);
    }
    forall h | h in w.live ensures h in f.Values {
      assert LiveSafe(w, h);
      var p := w.reqs[w.live[h]].slot.value;
      assert p in f && f[p] == h;
    }
    forall h | h in f.Values ensures h in w.live {
      var p :| p in f && f[p] == h;
      assert CtxSafe(w, p);
    }
    assert f.Values == w.live.Keys;
    InjectiveCard(f);
    assert f.Keys == WaitingSet(w);
  }

  lemma {:induction false} InjectiveCard(f: map<CtxPtr, Handle>)
    requires forall p, q | p in f && q in f && f[p] == f[q] :: p == q
    ensures |f.Keys| == |f.Values|
    decreases |f|
  {
    if f.Keys != {} {
      var p :| p in f;
      var g := f - {p};
      assert f.Keys == g.Keys + {p};
      assert f.Values == g.Values + {f[p]};
      InjectiveCard(g);
    }
  }

  lemma ShapeFrame(w: World, w': World)
    requires Shape(w)
    requires w'.ctxs == w.ctxs && w'.reqs == w.reqs && w'.live == w.live
    requires w'.env == w.env && (w.published ==> w'.published)
    ensures Shape(w')
    ensures WaitingSet(w') == WaitingSet(w)
  {
    forall p | p in w'.ctxs ensures CtxSafe(w', p) { assert CtxSafe(w, p); }
    forall r | r in w'.reqs ensures ReqSafe(w', r) { assert ReqSafe(w, r); }
    forall h | h in w'.live ensures LiveSafe(w', h) { assert LiveSafe(w, h); }
    assert WaitingSet(w') == WaitingSet(w);
  }

  lemma SteerSafe(w: World, keep: bool, except: set<CtxPtr>)
    requires Safe(w) && Armed(w, except)
    ensures Safe(Steer(w, keep)) && Armed(Steer(w, keep), except)
    ensures !keep ==> Steer(w, keep).pending
  {
    var w1 := w.(pending := true);
    ShapeFrame(w, w1);
    ShapeFrame(w, Steer(w, keep));
  }

  lemma ReplacementBalanced(w: World, w1: World, o: Obs)
    requires Balanced(w) && w.live == map[] && o.Replaced?
    requires w1.history == w.history && w1.live == w.live
    ensures Balanced(Log(w1, o))
  {
    ReplayLog(w1, o);
  }

  /** The endpoint is replaced only while the client holds no check; a failed attempt keeps the
      endpoint and leaves a retry armed. */
  lemma RebindSafeStep(w: World, candidate: Option<Endpoint>)
    requires Safe(w) && Armed(w, {})
    ensures
      var w' := RebindFires(w, candidate);
      && Safe(w') && Armed(w', {})
      && (w'.endpoint != w.endpoint ==> w.live == map[])
      && (w'.endpoint == w.endpoint || candidate == Some(w'.endpoint))
      && (candidate.None? && w.pending && w.live == map[] ==>
            w'.pending && w'.endpoint == w.endpoint && w'.rebindTimer == Some(REBIND_RETRY_MS))
  {
    var w1 := w.(rebindTimer := None);
    var w' := RebindFires(w, candidate);
    ShapeFrame(w, w1);
    ShapeFrame(w, w');
    NoneWaitingNoneLive(w);
    if w.pending && WaitingSet(w) == {} && candidate.Some? {
      ReplacementBalanced(w, w1.(endpoint := candidate.value, pending := false),
                          Replaced(w.endpoint, candidate.value));
    }
  }

  // ----- Changing one context ----------------------------------------------------------------

  /** Replacing one context keeps the shape if it stays good itself and its check, if it gives
      one up, leaves the client with it. */
  lemma ShapeReplace(w: World, w': World, p: CtxPtr)
    requires Shape(w) && p in w.ctxs && p in w'.ctxs
    requires w'.ctxs == w.ctxs[p := w'.ctxs[p]] && w'.reqs == w.reqs
    requires w'.env == w.env && (w.published ==> w'.published)
    requires w'.ctxs[p].owner == w.ctxs[p].owner && w'.ctxs[p].attached == w.ctxs[p].attached
    requires w'.ctxs[p].status == w.ctxs[p].status || w'.ctxs[p].status.Idle?
    requires w'.live == if w.ctxs[p].status.Waiting? && w'.ctxs[p].status.Idle?
                        then w.live - {w.ctxs[p].status.handle} else w.live
    requires CtxSafe(w', p)
    ensures Shape(w')
  {
    forall q | q in w'.ctxs ensures CtxSafe(w', q) {
      if q != p {
        assert CtxSafe(w, q) && CtxSafe(w, p);
      }
    }
    forall r | r in w'.reqs ensures ReqSafe(w', r) { assert ReqSafe(w, r); }
    forall h | h in w'.live ensures LiveSafe(w', h) { assert LiveSafe(w, h); }
  }

  lemma WaitingSetReplace(w: World, w': World, p: CtxPtr)
    requires p in w.ctxs && p in w'.ctxs && w'.ctxs == w.ctxs[p := w'.ctxs[p]]
    ensures w'.ctxs[p].status == w.ctxs[p].status ==> WaitingSet(w') == WaitingSet(w)
    ensures w'.ctxs[p].status.Idle? ==> WaitingSet(w') == WaitingSet(w) - {p}
  {
  }

  /** Writing to the book of a context that keeps its status. */
  lemma BookSafe(w: World, p: CtxPtr, b: Book, except: set<CtxPtr>)
    requires Safe(w) && Armed(w, except) && p in w.ctxs
    requires CtxSafe(SetBook(w, p, b), p)
    ensures Safe(SetBook(w, p, b)) && Armed(SetBook(w, p, b), except)
  {
    ShapeReplace(w, SetBook(w, p, b), p);
    WaitingSetReplace(w, SetBook(w, p, b), p);
  }

  lemma ReportStepCoherent(failOpen: bool, c: Ctx, i: LogInput)
    requires Coherent(failOpen, c) && c.status.Idle?
    ensures
      var (b, o) := ReportStep(c.book, c.hasWorker, i);
      && Coherent(failOpen, c.(book := b))
      && b.done == c.book.done
      && (b.verdict.outcome.InternalError? ==> b.verdict == c.book.verdict)
      && (o.Some? ==> Apply(Ledger({}, {}), o.value).Some? && o.value.Reported?)
  {
  }

  lemma ReportBalanced(w: World, o: Obs)
    requires Balanced(w) && o.Reported? && Apply(Ledger({}, {}), o).Some?
    ensures Balanced(Log(w, o))
  {
    ReplayLog(w, o);
  }

  lemma LogPhaseSafe(w: World, r: ReqId, i: LogInput)
    requires Safe(w) && Armed(w, {}) && r in w.reqs && w.reqs[r].closed
    ensures Safe(LogPhase(w, r, i)) && Armed(LogPhase(w, r, i), {})
  {
    assert ReqSafe(w, r);
    if w.reqs[r].slot.Some? {
      var p := w.reqs[r].slot.value;
      assert CtxSafe(w, p);
      ReportStepCoherent(w.env.failOpen, w.ctxs[p], i);
      var (b, o) := ReportStep(w.ctxs[p].book, w.ctxs[p].hasWorker, i);
      var w1 := SetBook(w, p, b);
      assert CtxSafe(w1, p);
      BookSafe(w, p, b, {});
      if o.Some? {
        ReportedSafe(w1, o.value);
      }
    }
  }

  lemma ReportedSafe(w: World, o: Obs)
    requires Safe(w) && Armed(w, {}) && o.Reported? && Reportable(o.outcome) && 1 <= o.ms <= MAX_LATENCY_MS
    ensures Safe(Log(w, o)) && Armed(Log(w, o), {})
  {
    ReportBalanced(w, o);
    ShapeFrame(w, Log(w, o));
  }

  // ----- Settling a check --------------------------------------------------------------------

  /** A world in which exactly the check of `p` was given up. */
  ghost predicate GaveUp(w: World, w': World, p: CtxPtr, h: Handle) {
    && p in w.ctxs && p in w'.ctxs && w.ctxs[p].status == Waiting(h)
    && w'.ctxs == w.ctxs[p := w'.ctxs[p]] && w'.reqs == w.reqs && w'.live == w.live - {h}
    && w'.env == w.env && w'.published == w.published
    && w'.ctxs[p].status.Idle? && w'.ctxs[p].timer.None? && w'.ctxs[p].owner == w.ctxs[p].owner
    && w'.pending == w.pending
    && RebindSafe(w')
    && Replay(w'.history) == Some(Ledger(w.live.Keys - {h}, w.live.Keys - {h}))
  }

  lemma GaveUpSafe(w: World, w': World, p: CtxPtr, h: Handle)
    requires Safe(w) && Armed(w, {p}) && GaveUp(w, w', p, h)
    requires w'.ctxs[p].attached && CtxSafe(w', p)
    ensures Safe(w') && Armed(w', {})
  {
    assert CtxSafe(w, p);
    ShapeReplace(w, w', p);
  }

  lemma EndedAndSettled(w: World, w1: World, w2: World, h: Handle, o: Obs)
    requires Balanced(w) && h in w.live && o in {ClientDone(h), Cancelled(h)}
    requires w1.history == w.history + [o] && w2.history == w1.history + [Settled(h)]
    ensures Replay(w2.history) == Some(Ledger(w.live.Keys - {h}, w.live.Keys - {h}))
  {
    ReplayLog(w, o);
    ReplayLog(w1, Settled(h));
  }

  lemma ScheduledRebindSafe(w: World)
    ensures RebindSafe(ScheduleRebind(w, 0))
    ensures ScheduleRebind(w, 0) == w.(rebindTimer := ScheduleRebind(w, 0).rebindTimer)
  {
    assert WaitingSet(ScheduleRebind(w, 0)) == WaitingSet(w);
  }

  ghost function Decided(c: Ctx, k: Completion, failOpen: bool): Ctx {
    c.(status := Idle, timer := None,
       book := c.book.(done := true, basis := Some(k),
                       verdict := Judge(k, c.book.guards, c.book.resources, failOpen)))
  }

  lemma RateCallbackFields(w: World, p: CtxPtr, h: Handle, k: Completion)
    requires p in w.ctxs && CtxSafe(w.(live := w.live[h := w.ctxs[p].owner]), p)
    requires w.ctxs[p].status == Waiting(h)
    ensures
      var c := w.ctxs[p];
      var w' := RateCallback(w, c.owner, h, k);
      && CallbackTarget(w, c.owner, h) == Some(p)
      && w' == Log(SetCtx(w, p, Decided(c, k, w.env.failOpen)), Settled(h)).(rebindTimer := w'.rebindTimer)
      && RebindSafe(w')
  {
    var c := w.ctxs[p];
    var w0 := Log(SetCtx(w, p, c.(status := Idle, timer := None)), Settled(h));
    ScheduledRebindSafe(w0);
    var w1 := ScheduleRebind(w0, 0);
    var w' := RateCallback(w, c.owner, h, k);
    assert w' == SetCtx(w1, p, Decided(c, k, w.env.failOpen));
    assert w'.ctxs == w.ctxs[p := Decided(c, k, w.env.failOpen)];
    WaitingSetReplace(w1, w', p);
  }

  lemma RateCallbackEffect(w: World, w1: World, p: CtxPtr, h: Handle, k: Completion, o: Obs)
    requires Balanced(w) && p in w.ctxs && CtxSafe(w, p) && w.ctxs[p].status == Waiting(h)
    requires o in {ClientDone(h), Cancelled(h)} && w1 == Log(w.(live := w.live - {h}), o)
    ensures
      var w' := RateCallback(w1, w.ctxs[p].owner, h, k);
      && CallbackTarget(w1, w.ctxs[p].owner, h) == Some(p)
      && GaveUp(w, w', p, h) && w'.ctxs[p] == Decided(w.ctxs[p], k, w.env.failOpen)
  {
    assert w1.(live := w1.live[h := w.ctxs[p].owner]).reqs == w.reqs;
    RateCallbackFields(w1, p, h, k);
    EndedAndSettled(w, w1, RateCallback(w1, w.ctxs[p].owner, h, k), h, o);
  }

  /** A completion settles the context that owns the check and leaves it decided. */
  lemma RateCallbackSafe(w: World, w1: World, p: CtxPtr, h: Handle, k: Completion, o: Obs)
    requires Safe(w) && Armed(w, {p}) && p in w.ctxs && w.ctxs[p].status == Waiting(h)
    requires o in {ClientDone(h), Cancelled(h)} && w1 == Log(w.(live := w.live - {h}), o)
    ensures
      var w' := RateCallback(w1, w.ctxs[p].owner, h, k);
      Safe(w') && Armed(w', {})
  {
    RateCallbackEffect(w, w1, p, h, k, o);
    var c := w.ctxs[p];
    var w' := RateCallback(w1, c.owner, h, k);
    assert CtxSafe(w, p);
    JudgeCoherent(k, c.book.guards, c.book.resources, w.env.failOpen, w'.ctxs[p]);
    assert CtxSafe(w', p);
    GaveUpSafe(w, w', p, h);
  }

  // ----- Changing one request ----------------------------------------------------------------

  /** Changing the slot or the reference count of a request that has nothing waiting, or only
      its reference count. */
  lemma ReqReplaceSafe(w: World, r: ReqId, q: Req, except: set<CtxPtr>)
    requires Safe(w) && Armed(w, except) && r in w.reqs
    requires q == w.reqs[r].(slot := q.slot, others := q.others)
    requires q.slot == w.reqs[r].slot || !HasWaiting(w, r)
    requires ReqSafe(SetReq(w, r, q), r)
    ensures Safe(SetReq(w, r, q)) && Armed(SetReq(w, r, q), except)
  {
    var w' := SetReq(w, r, q);
    forall p | p in w'.ctxs ensures CtxSafe(w', p) { assert CtxSafe(w, p); }
    forall r' | r' in w'.reqs ensures ReqSafe(w', r') { assert ReqSafe(w, r'); }
    forall h | h in w'.live ensures LiveSafe(w', h) { assert LiveSafe(w, h); assert CtxSafe(w, w.reqs[w.live[h]].slot.value); }
    assert WaitingSet(w') == WaitingSet(w);
  }

  lemma NewRequestSafe(w: World, r: ReqId)
    requires Safe(w) && Armed(w, {}) && r !in w.reqs
    ensures Safe(SetReq(w, r, Req(None, [], false, 1, 0))) && Armed(SetReq(w, r, Req(None, [], false, 1, 0)), {})
  {
    var w' := SetReq(w, r, Req(None, [], false, 1, 0));
    forall p | p in w'.ctxs ensures CtxSafe(w', p) { assert CtxSafe(w, p); }
    forall r' | r' in w'.reqs ensures ReqSafe(w', r') { if r' != r { assert ReqSafe(w, r'); } }
    forall h | h in w'.live ensures LiveSafe(w', h) { assert LiveSafe(w, h); }
    assert WaitingSet(w') == WaitingSet(w);
  }

  lemma WaitingHasSlot(w: World, r: ReqId)
    requires Shape(w) && HasWaiting(w, r) && r in w.reqs
    ensures w.reqs[r].slot.Some? && w.reqs[r].slot.value in w.ctxs && w.ctxs[w.reqs[r].slot.value].status.Waiting?
    ensures !w.reqs[r].closed
  {
    var p :| p in w.ctxs && w.ctxs[p].owner == r && w.ctxs[p].status.Waiting?;
    assert CtxSafe(w, p);
  }

  /** Recovering the context refills an empty slot with the registered context, if there is one. */
  lemma RecoverFields(w: World, r: ReqId)
    requires r in w.reqs && ReqSafe(w, r)
    ensures
      var q := w.reqs[r];
      Recover(w, r) == if q.slot.Some? || q.cleanups == [] then w
                       else SetReq(w, r, q.(slot := Some(q.cleanups[0])))
  {
  }

  lemma RecoverSafe(w: World, r: ReqId, except: set<CtxPtr>)
    requires Safe(w) && Armed(w, except) && r in w.reqs
    ensures Safe(Recover(w, r)) && Armed(Recover(w, r), except)
  {
    assert ReqSafe(w, r);
    RecoverFields(w, r);
    var q := w.reqs[r];
    if q.slot.None? && q.cleanups != [] {
      if HasWaiting(w, r) { WaitingHasSlot(w, r); }
      assert ReqSafe(SetReq(w, r, q.(slot := Some(q.cleanups[0]))), r);
      ReqReplaceSafe(w, r, q.(slot := Some(q.cleanups[0])), except);
    }
  }

  // ----- A fresh context ---------------------------------------------------------------------

  /** `w'` differs from `w` in one new context `p` of request `r`, which now sits in its slot. */
  ghost predicate AddedContext(w: World, w': World, r: ReqId, p: CtxPtr) {
    && p !in w.ctxs && p in w'.ctxs && r in w.reqs && r in w'.reqs
    && w.reqs[r].slot.None? && w.reqs[r].cleanups == [] && !w.reqs[r].closed
    && w'.ctxs == w.ctxs[p := w'.ctxs[p]] && w'.reqs == w.reqs[r := w'.reqs[r]]
    && w'.env == w.env && (w.published ==> w'.published)
    && w'.ctxs[p].owner == r && w'.reqs[r].slot == Some(p)
    && (w'.reqs[r].cleanups == [] || w'.reqs[r].cleanups == [p])
    && w'.pending == w.pending
  }

  lemma AddedContextShape(w: World, w': World, r: ReqId, p: CtxPtr)
    requires Shape(w) && AddedContext(w, w', r, p)
    requires CtxSafe(w', p) && ReqSafe(w', r) && w'.reqs[r].closed == w.reqs[r].closed
    requires w'.live == if w'.ctxs[p].status.Waiting? then w.live[w'.ctxs[p].status.handle := r] else w.live
    requires w'.ctxs[p].status.Waiting? ==> w'.ctxs[p].status.handle !in w.live
    ensures Shape(w')
  {
    forall q | q in w'.ctxs ensures CtxSafe(w', q) { if q != p { assert CtxSafe(w, q); } }
    forall r' | r' in w'.reqs ensures ReqSafe(w', r') { assert ReqSafe(w, r'); }
    forall h | h in w'.live ensures LiveSafe(w', h) {
      if h in w.live { assert LiveSafe(w, h); }
    }
  }

  lemma AddedIdleSafe(w: World, w': World, r: ReqId, p: CtxPtr)
    requires Safe(w) && Armed(w, {}) && AddedContext(w, w', r, p)
    requires CtxSafe(w', p) && ReqSafe(w', r) && w'.reqs[r].closed == w.reqs[r].closed
    requires w'.ctxs[p].status.Idle? && w'.live == w.live
    requires w'.rebindTimer == w.rebindTimer && w'.history == w.history
    ensures Safe(w') && Armed(w', {})
  {
    AddedContextShape(w, w', r, p);
    assert WaitingSet(w') == WaitingSet(w);
  }

  lemma AddedWaitingSafe(w: World, w': World, r: ReqId, p: CtxPtr)
    requires Safe(w) && Armed(w, {}) && AddedContext(w, w', r, p)
    requires CtxSafe(w', p) && ReqSafe(w', r) && w'.reqs[r].closed == w.reqs[r].closed
    requires w'.ctxs[p].status.Waiting? && w'.ctxs[p].timer.Some?
    requires w'.ctxs[p].status.handle !in w.live
    requires w'.live == w.live[w'.ctxs[p].status.handle := r]
    requires w'.rebindTimer == w.rebindTimer
    requires w'.history == w.history + [Started(w'.ctxs[p].status.handle)]
    ensures Safe(w') && Armed(w', {})
  {
    AddedContextShape(w, w', r, p);
    assert p in WaitingSet(w');
    ReplayLog(w, Started(w'.ctxs[p].status.handle));
    assert w'.live.Keys == w.live.Keys + {w'.ctxs[p].status.handle};
  }

  lemma AddedAbortedSafe(w: World, w': World, r: ReqId, p: CtxPtr, h: Handle)
    requires Safe(w) && Armed(w, {}) && AddedContext(w, w', r, p)
    requires CtxSafe(w', p) && ReqSafe(w', r) && w'.reqs[r].closed == w.reqs[r].closed
    requires w'.ctxs[p].status.Idle? && h !in w.live && w'.live == w.live
    requires RebindSafe(w')
    requires w'.history == w.history + [Started(h)] + [Cancelled(h)] + [Settled(h)]
    ensures Safe(w') && Armed(w', {})
  {
    AddedContextShape(w, w', r, p);
    ReplayLog(w, Started(h));
    var w1 := Log(w, Started(h));
    ReplayLog(w1, Cancelled(h));
    ReplayLog(Log(w1, Cancelled(h)), Settled(h));
    assert w.live.Keys + {h} - {h} == w.live.Keys;
  }

  // ----- Entering the handler ----------------------------------------------------------------

  /** The world in which a registered, undecided context is about to be admitted. */
  ghost predicate Admitting(w: World, w': World, r: ReqId, p: CtxPtr) {
    && AddedContext(w, w', r, p)
    && w'.reqs[r] == w.reqs[r].(slot := Some(p), cleanups := [p])
    && w' == w.(ctxs := w'.ctxs, reqs := w'.reqs, published := w'.published)
    && var b := w'.ctxs[p].book;
    && b == InitialBook(w.env.failOpen, true).(latEnabled := b.latEnabled)
    && w'.ctxs[p] == Ctx(r, true, true, Idle, None, b)
    && w'.published
  }

  lemma FinishSafe(w: World, w1: World, r: ReqId, p: CtxPtr, v: Verdict)
    requires Safe(w) && Armed(w, {}) && AddedContext(w, w1, r, p) && ReqSafe(w, r) && w1.live == w.live
    requires w1.rebindTimer == w.rebindTimer && w1.history == w.history
    requires w1.reqs[r] == w.reqs[r].(slot := Some(p), cleanups := w1.reqs[r].cleanups)
    requires
      var c := w1.ctxs[p];
      && c.attached && c.status.Idle? && c.timer.None? && (c.hasWorker ==> w1.published)
      && Coherent(w1.env.failOpen, c.(book := c.book.(done := true, verdict := v)))
      && (v.outcome.InternalError? ==> v.decision == ServerError)
    ensures Safe(Finish(w1, p, v).0) && Armed(Finish(w1, p, v).0, {})
  {
    var w' := Finish(w1, p, v).0;
    assert w'.ctxs == w.ctxs[p := w'.ctxs[p]];
    assert w'.reqs[r] == w1.reqs[r];
    assert CtxSafe(w', p);
    assert ReqSafe(w', r);
    AddedIdleSafe(w, w', r, p);
  }

  /** Teardown of a check that was only just started. */
  lemma AbortedStartFields(w: World, w2: World, p: CtxPtr, h: Handle)
    requires p in w2.ctxs && w2.ctxs[p].status == Waiting(h) && w2.ctxs[p].hasWorker
    requires h !in w.live && w2.live.Keys == w.live.Keys + {h} && w2.live - {h} == w.live
    ensures
      var w' := Finish(Teardown(w2, p, None, true), p, InternalVerdict).0;
      var c := w2.ctxs[p];
      && w' == w2.(ctxs := w'.ctxs, live := w.live, history := w2.history + [Cancelled(h)] + [Settled(h)],
                   rebindTimer := w'.rebindTimer)
      && w'.ctxs == w2.ctxs[p := c.(status := Idle, timer := None,
                                    book := c.book.(done := true, verdict := InternalVerdict))]
      && RebindSafe(w')
  {
    var w3 := Log(ClientCancel(SetCtx(w2, p, w2.ctxs[p].(status := Idle, timer := None)), h), Settled(h));
    ScheduledRebindSafe(w3);
    var w4 := ScheduleRebind(w3, 0);
    var w' := Finish(w4, p, InternalVerdict).0;
    assert w'.ctxs == w4.ctxs[p := w'.ctxs[p]];
    WaitingSetReplace(w4, w', p);
  }

  ghost function StartedWorld(w: World, r: ReqId, p: CtxPtr, b: Book, h: Handle, deadline: Option<nat>): World
    requires r in w.reqs && p in w.ctxs
  {
    var c := w.ctxs[p].(status := Waiting(h), timer := deadline,
                        book := b.(verdict := b.verdict.(outcome := WaitingOutcome)));
    var q := w.reqs[r].(checks := w.reqs[r].checks + 1);
    Log(SetReq(SetCtx(w, p, c), r, q).(live := w.live[h := r]), Started(h))
  }

  lemma StartCheckSafe(w: World, w1: World, r: ReqId, p: CtxPtr, b: Book, e: Entry)
    requires Safe(w) && Armed(w, {}) && Admitting(w, w1, r, p) && w.reqs[r].checks == 0
    requires b == w1.ctxs[p].book.(guards := b.guards, resources := b.resources)
    requires e.start.StartedCheck? && e.start.handle !in w.live && e.start.deadline.Some?
    ensures Safe(StartCheck(w1, r, p, b, e).0) && Armed(StartCheck(w1, r, p, b, e).0, {})
  {
    var h := e.start.handle;
    if e.readEventOk {
      StartedSafe(w, w1, r, p, b, h, e.start.deadline);
    } else {
      StartedThenAbortedSafe(w, w1, r, p, b, h, e.start.deadline);
    }
  }

  lemma StartedSafe(w: World, w1: World, r: ReqId, p: CtxPtr, b: Book, h: Handle, deadline: Option<nat>)
    requires Safe(w) && Armed(w, {}) && Admitting(w, w1, r, p) && w.reqs[r].checks == 0
    requires b == w1.ctxs[p].book.(guards := b.guards, resources := b.resources)
    requires h !in w.live && deadline.Some?
    ensures Safe(StartedWorld(w1, r, p, b, h, deadline)) && Armed(StartedWorld(w1, r, p, b, h, deadline), {})
  {
    var w' := StartedWorld(w1, r, p, b, h, deadline);
    assert ReqSafe(w, r);
    assert AddedContext(w, w', r, p);
    assert CtxSafe(w', p);
    assert ReqSafe(w', r);
    AddedWaitingSafe(w, w', r, p);
  }

  lemma StartedThenAbortedSafe(w: World, w1: World, r: ReqId, p: CtxPtr, b: Book, h: Handle, deadline: Option<nat>)
    requires Safe(w) && Armed(w, {}) && Admitting(w, w1, r, p) && w.reqs[r].checks == 0
    requires b == w1.ctxs[p].book.(guards := b.guards, resources := b.resources)
    requires h !in w.live && deadline.Some?
    ensures
      var w' := Finish(Teardown(StartedWorld(w1, r, p, b, h, deadline), p, None, true), p, InternalVerdict).0;
      Safe(w') && Armed(w', {})
  {
    var w2 := StartedWorld(w1, r, p, b, h, deadline);
    assert w2.live.Keys == w.live.Keys + {h};
    assert w2.live - {h} == w.live;
    AbortedStartFields(w, w2, p, h);
    var w' := Finish(Teardown(w2, p, None, true), p, InternalVerdict).0;
    assert ReqSafe(w, r);
    assert AddedContext(w, w', r, p);
    assert CtxSafe(w', p);
    assert ReqSafe(w', r);
    AddedAbortedSafe(w, w', r, p, h);
  }

  lemma AdmitSafe(w: World, w1: World, r: ReqId, p: CtxPtr, e: Entry)
    requires Safe(w) && Armed(w, {}) && Admitting(w, w1, r, p) && w.reqs[r].checks == 0
    requires e.start.StartedCheck? ==> e.start.handle !in w.live && e.start.deadline.Some?
    ensures Safe(Admit(w1, r, p, e).0) && Armed(Admit(w1, r, p, e).0, {})
  {
    if e.build.Built? {
      BuiltSafe(w, w1, r, p, e);
    } else {
      NotBuiltSafe(w, w1, r, p, e);
    }
  }

  lemma NotBuiltSafe(w: World, w1: World, r: ReqId, p: CtxPtr, e: Entry)
    requires Safe(w) && Armed(w, {}) && Admitting(w, w1, r, p) && w.reqs[r].checks == 0 && !e.build.Built?
    ensures Safe(Admit(w1, r, p, e).0) && Armed(Admit(w1, r, p, e).0, {})
  {
    var v := if e.build.NoRules? then Verdict(Declined, NoOutcome, NoCause)
             else if e.build.BuildFailed? then FailVerdict(w.env.failOpen, DependencyError)
             else InternalVerdict;
    assert Admit(w1, r, p, e) == Finish(w1, p, v);
    FinishSafe(w, w1, r, p, v);
  }

  lemma BuiltSafe(w: World, w1: World, r: ReqId, p: CtxPtr, e: Entry)
    requires Safe(w) && Armed(w, {}) && Admitting(w, w1, r, p) && w.reqs[r].checks == 0 && e.build.Built?
    requires e.start.StartedCheck? ==> e.start.handle !in w.live && e.start.deadline.Some?
    ensures Safe(Admit(w1, r, p, e).0) && Armed(Admit(w1, r, p, e).0, {})
  {
    var b := w1.ctxs[p].book.(guards := e.build.guards, resources := e.build.resources);
    if e.start.StartFailed? {
      var w2 := SetBook(w1, p, b);
      assert w2.ctxs == w.ctxs[p := w2.ctxs[p]];
      FinishSafe(w, w2, r, p, FailVerdict(w.env.failOpen, StartFailure));
    } else {
      StartCheckSafe(w, w1, r, p, b, e);
    }
  }

  ghost function Registered(w: World, r: ReqId, p: CtxPtr, admission: bool): World
    requires r in w.reqs
  {
    var b := InitialBook(w.env.failOpen, admission);
    var q := w.reqs[r].(slot := Some(p), cleanups := [p] + w.reqs[r].cleanups);
    SetReq(SetCtx(w, p, Ctx(r, true, false, Idle, None, b)), r, q)
  }

  lemma UnregisteredSafe(w: World, r: ReqId, p: CtxPtr, conf: EntryConf, e: Entry)
    requires Safe(w) && Armed(w, {}) && r in w.reqs && p !in w.ctxs && !w.reqs[r].closed
    requires w.reqs[r].slot.None? && w.reqs[r].cleanups == [] && !e.cleanupOk
    ensures Safe(NewContext(w, r, p, conf, e).0) && Armed(NewContext(w, r, p, conf, e).0, {})
  {
    assert ReqSafe(w, r);
    var w' := NewContext(w, r, p, conf, e).0;
    assert w'.ctxs == w.ctxs[p := w'.ctxs[p]];
    assert CtxSafe(w', p);
    assert ReqSafe(w', r);
    AddedIdleSafe(w, w', r, p);
  }

  ghost function WithWorker(w: World, r: ReqId, p: CtxPtr, conf: EntryConf, latEnabled: bool): World
    requires r in w.reqs
  {
    var b := InitialBook(w.env.failOpen, conf.admission).(latEnabled := latEnabled);
    SetCtx(Registered(w, r, p, conf.admission).(published := true), p, Ctx(r, true, true, Idle, None, b))
  }

  lemma WithWorkerFields(w: World, r: ReqId, p: CtxPtr, conf: EntryConf, e: Entry)
    requires r in w.reqs && e.cleanupOk && (w.published || e.initOk)
    ensures
      var w3 := WithWorker(w, r, p, conf, conf.report && e.reportBuilt);
      && NewContext(w, r, p, conf, e) ==
         (if !conf.admission then Finish(w3, p, w3.ctxs[p].book.verdict) else Admit(w3, r, p, e))
  {
    RegisteredTwice(w, r, p, conf.admission);
  }

  lemma WithWorkerAdds(w: World, r: ReqId, p: CtxPtr, conf: EntryConf, latEnabled: bool)
    requires r in w.reqs && p !in w.ctxs && w.reqs[r].slot.None? && w.reqs[r].cleanups == [] && !w.reqs[r].closed
    ensures
      var w3 := WithWorker(w, r, p, conf, latEnabled);
      && AddedContext(w, w3, r, p)
      && w3.reqs[r] == w.reqs[r].(slot := Some(p), cleanups := [p])
      && w3 == w.(ctxs := w3.ctxs, reqs := w3.reqs, published := true)
  {
    var w3 := WithWorker(w, r, p, conf, latEnabled);
    assert w3.ctxs == w.ctxs[p := w3.ctxs[p]];
    assert w3.reqs == w.reqs[r := w3.reqs[r]];
  }

  lemma WithWorkerSafe(w: World, r: ReqId, p: CtxPtr, conf: EntryConf, e: Entry)
    requires Safe(w) && Armed(w, {}) && r in w.reqs && p !in w.ctxs && !w.reqs[r].closed
    requires w.reqs[r].slot.None? && w.reqs[r].cleanups == [] && e.cleanupOk && (w.published || e.initOk)
    requires e.start.StartedCheck? ==> e.start.handle !in w.live && e.start.deadline.Some?
    ensures Safe(NewContext(w, r, p, conf, e).0) && Armed(NewContext(w, r, p, conf, e).0, {})
  {
    var w3 := WithWorker(w, r, p, conf, conf.report && e.reportBuilt);
    WithWorkerFields(w, r, p, conf, e);
    WithWorkerAdds(w, r, p, conf, conf.report && e.reportBuilt);
    assert ReqSafe(w, r);
    if conf.admission {
      AdmitSafe(w, w3, r, p, e);
    } else {
      FinishSafe(w, w3, r, p, w3.ctxs[p].book.verdict);
    }
  }

  lemma RegisteredTwice(w: World, r: ReqId, p: CtxPtr, admission: bool)
    requires r in w.reqs
    ensures
      var b := InitialBook(w.env.failOpen, admission);
      var q := w.reqs[r].(slot := Some(p));
      var w1 := SetReq(SetCtx(w, p, Ctx(r, true, false, Idle, None, b)), r, q);
      SetReq(w1, r, q.(cleanups := [p] + q.cleanups)) == Registered(w, r, p, admission)
  {
    var q := w.reqs[r].(slot := Some(p));
    assert w.reqs[r := q][r := q.(cleanups := [p] + q.cleanups)] == w.reqs[r := q.(cleanups := [p] + q.cleanups)];
  }

  lemma NewContextSafe(w: World, r: ReqId, p: CtxPtr, conf: EntryConf, e: Entry)
    requires Safe(w) && Armed(w, {}) && r in w.reqs && p !in w.ctxs && !w.reqs[r].closed
    requires w.reqs[r].slot.None? && w.reqs[r].cleanups == []
    requires e.start.StartedCheck? ==> e.start.handle !in w.live && e.start.deadline.Some?
    ensures Safe(NewContext(w, r, p, conf, e).0) && Armed(NewContext(w, r, p, conf, e).0, {})
  {
    if !e.cleanupOk {
      UnregisteredSafe(w, r, p, conf, e);
    } else if w.published || e.initOk {
      WithWorkerSafe(w, r, p, conf, e);
    } else {
      assert ReqSafe(w, r);
      RegisteredTwice(w, r, p, conf.admission);
      var w2 := Registered(w, r, p, conf.admission);
      assert w2.ctxs == w.ctxs[p := w2.ctxs[p]];
      FinishSafe(w, w2, r, p, Verdict(if conf.admission then FailDecision(w.env.failOpen) else Declined,
                                      w2.ctxs[p].book.verdict.outcome, DependencyError));
    }
  }

  /** A context found through the slot or the cleanup list is decided or waiting, so a new one
      is made only when the request has none registered and has never started a check. */
  lemma EnterSafe(w: World, r: ReqId, conf: EntryConf, e: Entry)
    requires Safe(w) && Armed(w, {}) && LegalAct(w, EnterHandler(r, conf, e))
    ensures Safe(Enter(w, r, conf, e).0) && Armed(Enter(w, r, conf, e).0, {})
  {
    assert ReqSafe(w, r);
    RecoverSafe(w, r, {});
    RecoverFields(w, r);
    var w1 := Recover(w, r);
    assert ReqSafe(w1, r);
    if w1.reqs[r].slot.Some? {
      assert CtxSafe(w1, w1.reqs[r].slot.value);
    } else if e.ctx.Some? && (conf.admission || conf.report) && conf.isMain && conf.mainEnabled {
      NewContextSafe(w1, r, e.ctx.value, conf, e);
    }
  }

  // ----- Ending a request --------------------------------------------------------------------

  ghost function Closed(q: Req): Req {
    q.(cleanups := [], closed := true)
  }

  /** A context after its cleanup handler. */
  ghost function Detached(c: Ctx): Ctx {
    var v := c.book.verdict;
    c.(status := Idle, timer := None, attached := false,
       book := c.book.(verdict := if v.outcome.WaitingOutcome? then v.(outcome := Aborted, cause := ClientAbort) else v))
  }

  /** Teardown that tells the client. */
  lemma CancelFields(w: World, p: CtxPtr)
    requires p in w.ctxs
    ensures
      var w' := Teardown(w, p, None, true);
      var c := w.ctxs[p];
      && w'.ctxs == w.ctxs[p := c.(status := Idle, timer := None)]
      && w' == w.(ctxs := w'.ctxs, rebindTimer := w'.rebindTimer,
                  live := if c.status.Waiting? then w.live - {c.status.handle} else w.live,
                  history := if c.status.Waiting?
                             then w.history + [Cancelled(c.status.handle)] + [Settled(c.status.handle)]
                             else w.history)
      && (c.hasWorker ==> RebindSafe(w'))
      && (!c.hasWorker ==> w'.rebindTimer == w.rebindTimer)
  {
    var c := w.ctxs[p];
    var w2 := SetCtx(w, p, c.(status := Idle, timer := None));
    var w3 := if c.status.Waiting? then Log(ClientCancel(w2, c.status.handle), Settled(c.status.handle)) else w2;
    ScheduledRebindSafe(w3);
  }

  lemma CleanupFields(w: World, p: CtxPtr)
    requires p in w.ctxs && RebindSafe(w) && (w.ctxs[p].status.Waiting? ==> w.ctxs[p].hasWorker)
    ensures
      var w' := Cleanup(w, p);
      var c := w.ctxs[p];
      && w'.ctxs == w.ctxs[p := Detached(c)]
      && w' == w.(ctxs := w'.ctxs, rebindTimer := w'.rebindTimer,
                  live := if c.status.Waiting? then w.live - {c.status.handle} else w.live,
                  history := if c.status.Waiting?
                             then w.history + [Cancelled(c.status.handle)] + [Settled(c.status.handle)]
                             else w.history)
      && RebindSafe(w')
  {
    var w0 := SetBook(w, p, Detached(w.ctxs[p]).book);
    CancelFields(w0, p);
    var w1 := Teardown(w0, p, None, true);
    var w' := Cleanup(w, p);
    assert w' == SetCtx(w1, p, w1.ctxs[p].(attached := false));
    assert w'.ctxs == w.ctxs[p := Detached(w.ctxs[p])];
    WaitingSetReplace(w, w', p);
    WaitingSetReplace(w1, w', p);
  }

  lemma ClosedShape(w: World, w': World, r: ReqId)
    requires Shape(w) && r in w.reqs && w.reqs[r].cleanups == []
    requires w' == SetReq(w, r, Closed(w.reqs[r]))
    ensures Shape(w')
  {
    assert ReqSafe(w, r);
    forall p | p in w'.ctxs ensures CtxSafe(w', p) { assert CtxSafe(w, p); }
    forall r' | r' in w'.reqs ensures ReqSafe(w', r') { assert ReqSafe(w, r'); }
    forall h | h in w'.live ensures LiveSafe(w', h) { assert LiveSafe(w, h); }
  }

  lemma DetachedShape(w: World, w': World, r: ReqId, p: CtxPtr)
    requires Shape(w) && r in w.reqs && w.reqs[r].cleanups == [p] && p in w.ctxs
    requires w'.ctxs == w.ctxs[p := Detached(w.ctxs[p])] && w'.reqs == w.reqs[r := Closed(w.reqs[r])]
    requires w'.env == w.env && w'.published == w.published
    requires w'.live == if w.ctxs[p].status.Waiting? then w.live - {w.ctxs[p].status.handle} else w.live
    ensures Shape(w')
  {
    assert ReqSafe(w, r) && CtxSafe(w, p);
    forall q | q in w'.ctxs ensures CtxSafe(w', q) { assert CtxSafe(w, q); }
    forall r' | r' in w'.reqs ensures ReqSafe(w', r') { assert ReqSafe(w, r'); }
    forall h | h in w'.live ensures LiveSafe(w', h) { assert LiveSafe(w, h); }
  }

  lemma CancelledAndSettled(w: World, w': World, h: Handle)
    requires Balanced(w) && h in w.live
    requires w'.history == w.history + [Cancelled(h)] + [Settled(h)] && w'.live == w.live - {h}
    ensures Balanced(w')
  {
    ReplayLog(w, Cancelled(h));
    ReplayLog(Log(w, Cancelled(h)), Settled(h));
    assert w'.live.Keys == w.live.Keys - {h};
  }

  lemma TerminateFields(w: World, r: ReqId)
    requires Safe(w) && r in w.reqs && ReqSafe(w, r)
    ensures
      var q := w.reqs[r];
      Terminate(w, r) == if q.cleanups == [] then SetReq(w, r, Closed(q))
                         else SetReq(Cleanup(w, q.cleanups[0]), r, Closed(q))
  {
    var q := w.reqs[r];
    if q.cleanups != [] {
      assert CtxSafe(w, q.cleanups[0]);
      CleanupFields(w, q.cleanups[0]);
      assert q.cleanups[1..] == [];
      assert RunCleanups(w, q.cleanups) == RunCleanups(Cleanup(w, q.cleanups[0]), q.cleanups[1..]);
    }
  }

  lemma TerminateRegisteredSafe(w: World, r: ReqId, p: CtxPtr)
    requires Safe(w) && Armed(w, {}) && r in w.reqs && w.reqs[r].cleanups == [p] && p in w.ctxs
    ensures
      var w' := SetReq(Cleanup(w, p), r, Closed(w.reqs[r]));
      && Safe(w') && Armed(w', {})
      && w'.reqs == w.reqs[r := Closed(w.reqs[r])]
  {
    var w' := SetReq(Cleanup(w, p), r, Closed(w.reqs[r]));
    assert CtxSafe(w, p);
    CleanupFields(w, p);
    DetachedShape(w, w', r, p);
    assert WaitingSet(w') == WaitingSet(Cleanup(w, p));
    if w.ctxs[p].status.Waiting? {
      CancelledAndSettled(w, w', w.ctxs[p].status.handle);
    }
  }

  /** Running the cleanup list gives up the request's check, if it waits for one, and leaves
      nothing of the request waiting. */
  lemma TerminateSafe(w: World, r: ReqId)
    requires Safe(w) && Armed(w, {}) && r in w.reqs
    ensures
      var w' := Terminate(w, r);
      && Safe(w') && Armed(w', {}) && !HasWaiting(w', r)
      && w'.reqs == w.reqs[r := Closed(w.reqs[r])]
  {
    assert ReqSafe(w, r);
    TerminateFields(w, r);
    var w' := Terminate(w, r);
    if w.reqs[r].cleanups == [] {
      ClosedShape(w, w', r);
      assert WaitingSet(w') == WaitingSet(w);
    } else {
      TerminateRegisteredSafe(w, r, w.reqs[r].cleanups[0]);
    }
    if HasWaiting(w', r) { WaitingHasSlot(w', r); }
  }

  /** Destroying the pool of a closed request that has nothing waiting. */
  lemma ReleaseSafe(w: World, r: ReqId)
    requires Safe(w) && Armed(w, {}) && r in w.reqs && !HasWaiting(w, r)
    ensures Safe(Release(w, r)) && Armed(Release(w, r), {})
    ensures forall p | p in Release(w, r).ctxs :: Release(w, r).ctxs[p].owner != r
  {
    var w' := Release(w, r);
    forall p | p in w'.ctxs ensures CtxSafe(w', p) { assert CtxSafe(w, p); }
    forall r' | r' in w'.reqs ensures ReqSafe(w', r') { assert ReqSafe(w, r'); }
    forall h | h in w'.live ensures LiveSafe(w', h) {
      assert LiveSafe(w, h);
      assert CtxSafe(w, w.reqs[w.live[h]].slot.value);
    }
    assert WaitingSet(w') == WaitingSet(w);
  }

  lemma LogPhaseKeepsWaiting(w: World, r: ReqId, i: LogInput)
    requires r in w.reqs
    ensures HasWaiting(LogPhase(w, r, i), r) ==> HasWaiting(w, r)
    ensures LogPhase(w, r, i).reqs == w.reqs
  {
    var w' := LogPhase(w, r, i);
    if HasWaiting(w', r) {
      var q :| q in w'.ctxs && w'.ctxs[q].owner == r && w'.ctxs[q].status.Waiting?;
      assert q in w.ctxs && w.ctxs[q].owner == r && w.ctxs[q].status.Waiting?;
    }
  }

  lemma FreeSafe(w: World, r: ReqId, i: LogInput)
    requires Safe(w) && Armed(w, {}) && r in w.reqs
    ensures Safe(Free(w, r, i)) && Armed(Free(w, r, i), {})
  {
    TerminateSafe(w, r);
    var w1 := Terminate(w, r);
    LogPhaseSafe(w1, r, i);
    LogPhaseKeepsWaiting(w1, r, i);
    ReleaseSafe(LogPhase(w1, r, i), r);
  }

  // ----- Runs --------------------------------------------------------------------------------

  lemma ActSafe(w: World, a: Act)
    requires Safe(w) && Armed(w, {})
    ensures Safe(DoAct(w, a)) && Armed(DoAct(w, a), {})
  {
    if LegalAct(w, a) {
      match a
      case NewRequest(r) => NewRequestSafe(w, r);
      case EnterHandler(r, conf, e) => EnterSafe(w, r, conf, e);
      case ReadVerdict(r) => RecoverSafe(w, r, {});
      case Redirect(r) =>
        assert ReqSafe(w, r);
        var q := w.reqs[r].(slot := None);
        assert ReqSafe(SetReq(w, r, q), r);
        ReqReplaceSafe(w, r, q, {});
      case SetRefs(r, others) =>
        assert ReqSafe(w, r);
        var q := w.reqs[r].(others := others);
        assert ReqSafe(SetReq(w, r, q), r);
        ReqReplaceSafe(w, r, q, {});
      case TerminateRequest(r) => TerminateSafe(w, r);
      case FreeRequest(r, i) => FreeSafe(w, r, i);
    }
  }

  lemma {:induction false} ActsSafe(w: World, acts: seq<Act>)
    requires Safe(w) && Armed(w, {})
    ensures Safe(RunActs(w, acts)) && Armed(RunActs(w, acts), {})
    decreases |acts|
  {
    if acts != [] {
      ActSafe(w, acts[0]);
      ActsSafe(DoAct(w, acts[0]), acts[1..]);
    }
  }

  /** One completed check: the callback owns it, settles its context, and resumes the phases. */
  lemma ResumeSafe(w: World, w1: World, p: CtxPtr, h: Handle, k: Completion, o: Obs, resumed: seq<Act>)
    requires Safe(w) && Armed(w, {p}) && p in w.ctxs && w.ctxs[p].status == Waiting(h)
    requires o in {ClientDone(h), Cancelled(h)} && w1 == Log(w.(live := w.live - {h}), o)
    ensures
      var w' := ResumeAfter(w1, w.ctxs[p].owner, h, k, resumed);
      Safe(w') && Armed(w', {})
  {
    assert CtxSafe(w, p);
    RateCallbackEffect(w, w1, p, h, k, o);
    RateCallbackSafe(w, w1, p, h, k, o);
    ActsSafe(RateCallback(w1, w.ctxs[p].owner, h, k), resumed);
  }

  lemma DeliverSafe(w: World, p: CtxPtr, h: Handle, k: Completion, resumed: seq<Act>)
    requires Safe(w) && Armed(w, {p}) && p in w.ctxs && w.ctxs[p].status == Waiting(h)
    ensures h in w.live && w.live[h] == w.ctxs[p].owner
    ensures Safe(Deliver(w, h, k, resumed)) && Armed(Deliver(w, h, k, resumed), {})
  {
    assert CtxSafe(w, p);
    ResumeSafe(w, Log(w.(live := w.live - {h}), ClientDone(h)), p, h, k, ClientDone(h), resumed);
  }

  lemma ClientActSafe(w: World, a: ClientAct)
    requires Safe(w) && Armed(w, {})
    ensures Safe(DoClientAct(w, a)) && Armed(DoClientAct(w, a), {})
  {
    match a
    case SteeringFeedback(keep) => SteerSafe(w, keep, {});
    case Complete(h, k, resumed) =>
      if h in w.live {
        assert LiveSafe(w, h);
        DeliverSafe(w, w.reqs[w.live[h]].slot.value, h, k, resumed);
      }
  }

  lemma {:induction false} ClientSafe(w: World, acts: seq<ClientAct>)
    requires Safe(w) && Armed(w, {})
    ensures Safe(RunClient(w, acts)) && Armed(RunClient(w, acts), {})
    decreases |acts|
  {
    if acts != [] {
      ClientActSafe(w, acts[0]);
      ClientSafe(DoClientAct(w, acts[0]), acts[1..]);
    }
  }

  lemma {:induction false} ReadBatchSafe(w: World, input: seq<Recv>, room: nat)
    requires Safe(w) && Armed(w, {})
    ensures Safe(ReadBatch(w, input, room)) && Armed(ReadBatch(w, input, room), {})
    decreases room
  {
    if room != 0 && input != [] && input[0].Datagram? {
      ClientSafe(w, input[0].acts);
      ReadBatchSafe(RunClient(w, input[0].acts), input[1..], room - 1);
    }
  }

  lemma {:induction false} SteerAllSafe(w: World, steering: seq<bool>, except: set<CtxPtr>)
    requires Safe(w) && Armed(w, except)
    ensures Safe(SteerAll(w, steering)) && Armed(SteerAll(w, steering), except)
    decreases |steering|
  {
    if steering != [] {
      SteerSafe(w, steering[0], except);
      SteerAllSafe(Steer(w, steering[0]), steering[1..], except);
    }
  }

  /** Setting or clearing the timer of a waiting context. */
  lemma TimerSafe(w: World, p: CtxPtr, t: Option<nat>, except: set<CtxPtr>)
    requires Safe(w) && Armed(w, except) && p in w.ctxs && w.ctxs[p].status.Waiting?
    ensures
      var w' := SetCtx(w, p, w.ctxs[p].(timer := t));
      Safe(w') && Armed(w', if t.Some? then except - {p} else except + {p})
  {
    var w' := SetCtx(w, p, w.ctxs[p].(timer := t));
    assert CtxSafe(w, p);
    assert CtxSafe(w', p);
    ShapeReplace(w, w', p);
    WaitingSetReplace(w, w', p);
  }

  lemma GiveUpSafe(w: World, p: CtxPtr, h: Handle, status: ClientStatus, resumed: seq<Act>)
    requires Safe(w) && Armed(w, {p}) && p in w.ctxs && w.ctxs[p].status == Waiting(h)
    ensures
      var w' := GiveUp(w, w.ctxs[p].owner, h, status, resumed);
      Safe(w') && Armed(w', {})
  {
    ResumeSafe(w, ClientCancel(w, h), p, h, Completion(status, None), Cancelled(h), resumed);
  }

  lemma AtDeadlineSafe(w: World, p: CtxPtr, h: Handle, result: OnTimeout)
    requires Safe(w) && Armed(w, {p}) && p in w.ctxs && w.ctxs[p].status == Waiting(h)
    ensures Safe(AtDeadline(w, p, h, result)) && Armed(AtDeadline(w, p, h, result), {})
  {
    match result
    case CompletesNow(k, resumed) =>
      DeliverSafe(w, p, h, k, resumed);
      assert AtDeadline(w, p, h, result) == Deliver(w, h, k, resumed);
    case StaysLive(d) =>
      TimerSafe(w, p, Some(d), {p});
      assert {p} - {p} == {};
    case ReturnsError(status, resumed) =>
      GiveUpSafe(w, p, h, status, resumed);
    case LosesDeadline(resumed) =>
      GiveUpSafe(w, p, h, ClientError, resumed);
  }

  /** An armed timer belongs to a waiting context; when its event is over, the check was either
      completed or its timer is armed again. */
  lemma TimerFiresSafe(w: World, p: CtxPtr, x: Expiry)
    requires Safe(w) && Armed(w, {}) && p in w.ctxs && w.ctxs[p].timer.Some?
    ensures Safe(TimerFires(w, p, x)) && Armed(TimerFires(w, p, x), {})
  {
    assert CtxSafe(w, p);
    var c := w.ctxs[p];
    var w1 := SetCtx(w, p, c.(timer := None));
    TimerSafe(w, p, None, {});
    match x
    case NotDue(d) =>
      TimerSafe(w, p, Some(d), {});
      assert SetCtx(w1, p, c.(timer := Some(d))) == SetCtx(w, p, c.(timer := Some(d)));
    case Due(steering, result) =>
      SteerAllSafe(w1, steering, {p});
      AtDeadlineSafe(SteerAll(w1, steering), p, c.status.handle, result);
  }

  lemma StepSafe(w: World, ev: Event)
    requires Safe(w) && Armed(w, {})
    ensures Safe(Step(w, ev)) && Armed(Step(w, ev), {})
  {
    if LegalEvent(w, ev) {
      match ev
      case HttpEvent(acts) => ActsSafe(w, acts);
      case RequestTimer(p, x) => TimerFiresSafe(w, p, x);
      case UdpReadable(input) => ReadBatchSafe(w, input, UDP_READ_BATCH_MAX);
      case RebindTimer(candidate) => RebindSafeStep(w, candidate);
    }
  }

  /** In every run, at every event boundary. */
  lemma {:induction false} RunSafe(w: World, events: seq<Event>)
    requires Safe(w) && Armed(w, {})
    ensures Safe(Run(w, events)) && Armed(Run(w, events), {})
    decreases |events|
  {
    if events != [] {
      StepSafe(w, events[0]);
      RunSafe(Step(w, events[0]), events[1..]);
    }
  }

  lemma InitialSafe(failOpen: bool, endpoint: Endpoint)
    ensures Safe(Initial(failOpen, endpoint)) && Armed(Initial(failOpen, endpoint), {})
  {
    assert Initial(failOpen, endpoint).live.Keys == {};
  }
}
