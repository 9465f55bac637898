/**
 The admission code of one worker, step by step: the redundant flags of every context, the two
 counters they feed, the timeout handler's stack observer, and the rebind flags.

 Contexts live in request pools that nginx destroys, so the memory is explicit: `ctxs` maps the
 addresses of the contexts that exist to their fields, destroying a pool removes them, and every
 access is an access to a map key that the verifier checks. Each method is proved to take the
 step of the machine in `Admission` that it implements.
 */
module AdmissionWorker {
  import opened Wrappers
  import opened Admission
  import opened AdmissionSafety

  /** rn_req_ctx_t. `pool` is the request whose pool holds it; `observed` says that it points at
      the timeout handler's stack cell. */
  datatype ReqCtx = ReqCtx(
    pool: ReqId, r: Option<ReqId>, hasWorker: bool, req: Option<Handle>, timer: Option<nat>,
    observed: bool, waiting: bool, nginxCounted: bool, inflightCounted: bool, book: Book)

  /** The parts of ngx_http_request_t that matter here. `others` and `checks` are history: the
      references nginx itself holds and the checks started. */
  datatype HttpRequest = HttpRequest(
    slot: Option<CtxPtr>, cleanups: seq<CtxPtr>, closed: bool, count: nat, others: nat, checks: nat)

  // ----- Abstraction -------------------------------------------------------------------------

  ghost function AbsCtx(c: ReqCtx): Ctx {
    Ctx(c.pool, c.r.Some?, c.hasWorker, if c.req.Some? then Waiting(c.req.value) else Idle, c.timer, c.book)
  }

  ghost function AbsReq(q: HttpRequest): Req {
    Req(q.slot, q.cleanups, q.closed, q.others, q.checks)
  }

  ghost function AbsCtxs(m: map<CtxPtr, ReqCtx>): map<CtxPtr, Ctx> {
    map p | p in m :: AbsCtx(m[p])
  }

  ghost function AbsReqs(m: map<ReqId, HttpRequest>): map<ReqId, Req> {
    map r | r in m :: AbsReq(m[r])
  }

  lemma AbsCtxsUpdate(m: map<CtxPtr, ReqCtx>, p: CtxPtr, c: ReqCtx)
    ensures AbsCtxs(m[p := c]) == AbsCtxs(m)[p := AbsCtx(c)]
  {
  }

  lemma AbsReqsUpdate(m: map<ReqId, HttpRequest>, r: ReqId, q: HttpRequest)
    ensures AbsReqs(m[r := q]) == AbsReqs(m)[r := AbsReq(q)]
  {
  }

  // ----- Agreement of the redundant state ------------------------------------------------------

  ghost function Inflight(m: map<CtxPtr, ReqCtx>): set<CtxPtr> {
    set p | p in m && m[p].inflightCounted
  }

  ghost function Counted(m: map<CtxPtr, ReqCtx>, r: ReqId): set<CtxPtr> {
    set p | p in m && m[p].nginxCounted && m[p].pool == r
  }

  /** The four encodings of "a check is pending" agree. */
  ghost predicate FlagsAgree(c: ReqCtx) {
    && c.waiting == c.inflightCounted == c.nginxCounted == c.req.Some?
    && (c.waiting ==> c.hasWorker && c.r.Some?)
    && (c.r.Some? ==> c.r.value == c.pool)
  }

  /** nginx's count of a request is its own references and one for each counted context. */
  ghost predicate CountAgrees(ctxs: map<CtxPtr, ReqCtx>, reqs: map<ReqId, HttpRequest>, r: ReqId)
    requires r in reqs
  {
    reqs[r].count == reqs[r].others + |Counted(ctxs, r)|
  }

  /** A counted context belongs to a request that exists; a context that points at the timeout
      handler's stack cell points at a live, unset cell, and only one does. */
  ghost predicate PointersAgree(completed: Option<bool>, ctxs: map<CtxPtr, ReqCtx>, reqs: map<ReqId, HttpRequest>, p: CtxPtr)
    requires p in ctxs
  {
    && (ctxs[p].nginxCounted ==> ctxs[p].pool in reqs)
    && (ctxs[p].observed ==> completed == Some(false) && forall q | q in ctxs && ctxs[q].observed :: q == p)
  }

  ghost predicate Consistent(
    inflight: nat, completed: Option<bool>, ctxs: map<CtxPtr, ReqCtx>, reqs: map<ReqId, HttpRequest>)
  {
    && inflight == |Inflight(ctxs)|
    && (forall p {:trigger FlagsAgree(ctxs[p])} | p in ctxs :: FlagsAgree(ctxs[p]))
    && (forall r {:trigger CountAgrees(ctxs, reqs, r)} | r in reqs :: CountAgrees(ctxs, reqs, r))
    && (forall p {:trigger PointersAgree(completed, ctxs, reqs, p)} | p in ctxs :: PointersAgree(completed, ctxs, reqs, p))
  }

  lemma SetCardMinus(s: set<CtxPtr>, p: CtxPtr)
    ensures |s + {p}| == |s| + (if p in s then 0 else 1)
    ensures |s - {p}| == |s| - (if p in s then 1 else 0)
  {
    if p in s {
      assert s + {p} == s;
    } else {
      assert s - {p} == s;
    }
  }

  /** How the counted sets change when one context changes. */
  lemma CountedUpdate(m: map<CtxPtr, ReqCtx>, p: CtxPtr, c: ReqCtx)
    requires p in m ==> m[p].pool == c.pool
    ensures Inflight(m[p := c]) == if c.inflightCounted then Inflight(m) + {p} else Inflight(m) - {p}
    ensures Counted(m[p := c], c.pool) == if c.nginxCounted then Counted(m, c.pool) + {p} else Counted(m, c.pool) - {p}
    ensures forall r | r != c.pool :: Counted(m[p := c], r) == Counted(m, r)
  {
    forall r | r != c.pool ensures Counted(m[p := c], r) == Counted(m, r) {
    }
  }

  lemma PointersAfterWrite(completed: Option<bool>, m: map<CtxPtr, ReqCtx>, reqs: map<ReqId, HttpRequest>, p: CtxPtr, c: ReqCtx, q: CtxPtr)
    requires q in m[p := c] && (q in m ==> PointersAgree(completed, m, reqs, q)) && (p in m ==> PointersAgree(completed, m, reqs, p))
    requires p in m ==> m[p].pool == c.pool && (c.nginxCounted ==> m[p].nginxCounted) && (c.observed ==> m[p].observed)
    requires p !in m ==> !c.nginxCounted && !c.observed
    ensures PointersAgree(completed, m[p := c], reqs, q)
  {
  }

  lemma CountsAfterWrite(inflight: nat, completed: Option<bool>, m: map<CtxPtr, ReqCtx>, reqs: map<ReqId, HttpRequest>, p: CtxPtr, c: ReqCtx)
    requires Consistent(inflight, completed, m, reqs) && FlagsAgree(c)
    requires if p in m then m[p].pool == c.pool && m[p].waiting == c.waiting else !c.waiting
    ensures Inflight(m[p := c]) == Inflight(m)
    ensures forall r {:trigger CountAgrees(m[p := c], reqs, r)} | r in reqs :: CountAgrees(m[p := c], reqs, r)
  {
    CountedUpdate(m, p, c);
    assert p in m ==> FlagsAgree(m[p]);
    forall r | r in reqs ensures CountAgrees(m[p := c], reqs, r) {
      assert CountAgrees(m, reqs, r);
      assert Counted(m[p := c], r) == Counted(m, r);
    }
  }

  /** Writing a context that is counted alike, and observed no more than before. */
  lemma WriteCtx(inflight: nat, completed: Option<bool>, m: map<CtxPtr, ReqCtx>, reqs: map<ReqId, HttpRequest>, p: CtxPtr, c: ReqCtx)
    requires Consistent(inflight, completed, m, reqs) && FlagsAgree(c)
    requires if p in m then m[p].pool == c.pool && m[p].waiting == c.waiting && (c.observed ==> m[p].observed)
             else !c.waiting && !c.observed
    ensures Consistent(inflight, completed, m[p := c], reqs)
  {
    var m' := m[p := c];
    CountsAfterWrite(inflight, completed, m, reqs, p, c);
    assert p in m ==> FlagsAgree(m[p]) && PointersAgree(completed, m, reqs, p);
    forall q | q in m' ensures FlagsAgree(m'[q]) { assert q != p ==> FlagsAgree(m[q]); }
    forall q | q in m' ensures PointersAgree(completed, m', reqs, q) {
      assert q in m ==> PointersAgree(completed, m, reqs, q);
      PointersAfterWrite(completed, m, reqs, p, c, q);
    }
  }

  /** Writing a request without changing its counts. */
  lemma WriteReq(inflight: nat, completed: Option<bool>, m: map<CtxPtr, ReqCtx>, reqs: map<ReqId, HttpRequest>, r: ReqId, q: HttpRequest)
    requires Consistent(inflight, completed, m, reqs) && r in reqs && q.count - q.others == reqs[r].count - reqs[r].others
    ensures Consistent(inflight, completed, m, reqs[r := q])
  {
    var reqs' := reqs[r := q];
    forall r' | r' in reqs' ensures CountAgrees(m, reqs', r') { assert CountAgrees(m, reqs, r'); }
    forall p | p in m ensures PointersAgree(completed, m, reqs', p) { assert PointersAgree(completed, m, reqs, p); }
  }

  /** A context after teardown. */
  ghost function Torn(c: ReqCtx): ReqCtx {
    c.(req := None, timer := None, waiting := false, nginxCounted := false, inflightCounted := false)
  }

  ghost function Uncounted(reqs: map<ReqId, HttpRequest>, c: ReqCtx): map<ReqId, HttpRequest>
    requires c.nginxCounted ==> c.pool in reqs && reqs[c.pool].count > 0
  {
    if c.nginxCounted then reqs[c.pool := reqs[c.pool].(count := reqs[c.pool].count - 1)] else reqs
  }

  /** No counter that teardown decrements is zero. */
  lemma TornPositive(inflight: nat, completed: Option<bool>, m: map<CtxPtr, ReqCtx>, reqs: map<ReqId, HttpRequest>, p: CtxPtr)
    requires Consistent(inflight, completed, m, reqs) && p in m
    ensures FlagsAgree(m[p])
    ensures m[p].inflightCounted ==> inflight > 0
    ensures m[p].nginxCounted ==> m[p].pool in reqs && reqs[m[p].pool].count > 0
  {
    assert FlagsAgree(m[p]) && PointersAgree(completed, m, reqs, p);
    SetCardMinus(Inflight(m), p);
    SetCardMinus(Counted(m, m[p].pool), p);
    if m[p].nginxCounted {
      assert CountAgrees(m, reqs, m[p].pool);
    }
  }

  lemma TornCounts(inflight: nat, completed: Option<bool>, m: map<CtxPtr, ReqCtx>, reqs: map<ReqId, HttpRequest>, p: CtxPtr)
    requires Consistent(inflight, completed, m, reqs) && p in m && FlagsAgree(m[p])
    requires m[p].nginxCounted ==> m[p].pool in reqs && reqs[m[p].pool].count > 0
    ensures |Inflight(m[p := Torn(m[p])])| == if m[p].inflightCounted then inflight - 1 else inflight
    ensures
      var m', reqs' := m[p := Torn(m[p])], Uncounted(reqs, m[p]);
      forall r {:trigger CountAgrees(m', reqs', r)} | r in reqs' :: CountAgrees(m', reqs', r)
  {
    var c := m[p];
    var m', reqs' := m[p := Torn(c)], Uncounted(reqs, c);
    CountedUpdate(m, p, Torn(c));
    SetCardMinus(Inflight(m), p);
    forall r | r in reqs' ensures CountAgrees(m', reqs', r) {
      assert CountAgrees(m, reqs, r);
      SetCardMinus(Counted(m, r), p);
    }
  }

  /** Teardown keeps every counter exact. */
  lemma TornConsistent(inflight: nat, completed: Option<bool>, m: map<CtxPtr, ReqCtx>, reqs: map<ReqId, HttpRequest>, p: CtxPtr)
    requires Consistent(inflight, completed, m, reqs) && p in m
    requires FlagsAgree(m[p]) && (m[p].inflightCounted ==> inflight > 0)
    requires m[p].nginxCounted ==> m[p].pool in reqs && reqs[m[p].pool].count > 0
    ensures Consistent(if m[p].inflightCounted then inflight - 1 else inflight, completed,
                       m[p := Torn(m[p])], Uncounted(reqs, m[p]))
  {
    var m', reqs' := m[p := Torn(m[p])], Uncounted(reqs, m[p]);
    TornCounts(inflight, completed, m, reqs, p);
    forall q | q in m' ensures FlagsAgree(m'[q]) { assert FlagsAgree(m[q]); }
    forall q | q in m' ensures PointersAgree(completed, m', reqs', q) { assert PointersAgree(completed, m, reqs, q); }
  }

  lemma TornAbs(m: map<CtxPtr, ReqCtx>, reqs: map<ReqId, HttpRequest>, p: CtxPtr)
    requires p in m && (m[p].nginxCounted ==> m[p].pool in reqs && reqs[m[p].pool].count > 0)
    ensures AbsCtxs(m[p := Torn(m[p])]) == AbsCtxs(m)[p := AbsCtx(m[p]).(status := Idle, timer := None)]
    ensures AbsReqs(Uncounted(reqs, m[p])) == AbsReqs(reqs)
  {
    AbsCtxsUpdate(m, p, Torn(m[p]));
  }

  // ----- A check that starts -------------------------------------------------------------------

  /** A context whose check just started. */
  ghost function Begun(c: ReqCtx, h: Handle, deadline: Option<nat>, b: Book): ReqCtx {
    c.(req := Some(h), timer := deadline, waiting := true, nginxCounted := true, inflightCounted := true, book := b)
  }

  ghost function CountedMore(q: HttpRequest): HttpRequest {
    q.(count := q.count + 1, checks := q.checks + 1)
  }

  lemma BegunCounts(inflight: nat, completed: Option<bool>, m: map<CtxPtr, ReqCtx>, reqs: map<ReqId, HttpRequest>,
                    p: CtxPtr, c: ReqCtx)
    requires Consistent(inflight, completed, m, reqs) && p in m && !m[p].waiting && m[p].pool in reqs
    requires c.pool == m[p].pool && c.inflightCounted && c.nginxCounted
    ensures |Inflight(m[p := c])| == inflight + 1
    ensures
      var reqs' := reqs[c.pool := CountedMore(reqs[c.pool])];
      forall r {:trigger CountAgrees(m[p := c], reqs', r)} | r in reqs' :: CountAgrees(m[p := c], reqs', r)
  {
    var reqs' := reqs[c.pool := CountedMore(reqs[c.pool])];
    assert FlagsAgree(m[p]);
    CountedUpdate(m, p, c);
    SetCardMinus(Inflight(m), p);
    forall r | r in reqs' ensures CountAgrees(m[p := c], reqs', r) {
      assert CountAgrees(m, reqs, r);
      SetCardMinus(Counted(m, r), p);
    }
  }

  lemma BegunConsistent(inflight: nat, completed: Option<bool>, m: map<CtxPtr, ReqCtx>, reqs: map<ReqId, HttpRequest>,
                        p: CtxPtr, h: Handle, deadline: Option<nat>, b: Book)
    requires Consistent(inflight, completed, m, reqs) && p in m && !m[p].waiting
    requires m[p].hasWorker && m[p].r == Some(m[p].pool) && m[p].pool in reqs
    ensures Consistent(inflight + 1, completed, m[p := Begun(m[p], h, deadline, b)],
                       reqs[m[p].pool := CountedMore(reqs[m[p].pool])])
  {
    var c := m[p];
    var c' := Begun(c, h, deadline, b);
    var m' := m[p := c'];
    var reqs' := reqs[c.pool := CountedMore(reqs[c.pool])];
    BegunCounts(inflight, completed, m, reqs, p, c');
    forall q | q in m' ensures FlagsAgree(m'[q]) { assert FlagsAgree(m[q]); }
    forall q | q in m' ensures PointersAgree(completed, m', reqs', q) {
      assert PointersAgree(completed, m, reqs, q) && PointersAgree(completed, m, reqs, p);
    }
  }

  // ----- The timeout handler's stack cell --------------------------------------------------------

  /** Taking down the frame is safe once the cell is set or its one observer is gone. */
  lemma FrameTaken(inflight: nat, completed: Option<bool>, m: map<CtxPtr, ReqCtx>, reqs: map<ReqId, HttpRequest>, cell: Option<bool>)
    requires Consistent(inflight, completed, m, reqs)
    requires completed == Some(true) || completed.None? || (forall p | p in m :: !m[p].observed)
    ensures Consistent(inflight, cell, m, reqs)
  {
    forall p | p in m ensures PointersAgree(cell, m, reqs, p) { assert PointersAgree(completed, m, reqs, p); }
  }

  /** Pointing the only observer at the cell. */
  lemma ObserverSet(inflight: nat, m: map<CtxPtr, ReqCtx>, reqs: map<ReqId, HttpRequest>, p: CtxPtr)
    requires Consistent(inflight, None, m, reqs) && p in m
    ensures Consistent(inflight, Some(false), m[p := m[p].(observed := true)], reqs)
    ensures AbsCtxs(m[p := m[p].(observed := true)]) == AbsCtxs(m)
  {
    var c := m[p].(observed := true);
    var m' := m[p := c];
    assert FlagsAgree(m[p]) && PointersAgree(None, m, reqs, p);
    CountsAfterWrite(inflight, None, m, reqs, p, c);
    AbsCtxsUpdate(m, p, c);
    forall q | q in m' ensures FlagsAgree(m'[q]) { assert FlagsAgree(m[q]); }
    forall q | q in m' ensures !m[q].observed { assert PointersAgree(None, m, reqs, q); }
    forall q | q in m' ensures PointersAgree(Some(false), m', reqs, q) { assert PointersAgree(None, m, reqs, q); }
  }

  /** A completion sets the cell and clears its observer. */
  lemma ObserverCleared(inflight: nat, completed: Option<bool>, m: map<CtxPtr, ReqCtx>, reqs: map<ReqId, HttpRequest>, p: CtxPtr, cell: Option<bool>)
    requires Consistent(inflight, completed, m, reqs) && p in m && m[p].observed
    ensures Consistent(inflight, cell, m[p := m[p].(observed := false)], reqs)
    ensures AbsCtxs(m[p := m[p].(observed := false)]) == AbsCtxs(m)
  {
    var c := m[p].(observed := false);
    var m' := m[p := c];
    assert FlagsAgree(m[p]) && PointersAgree(completed, m, reqs, p);
    WriteCtx(inflight, completed, m, reqs, p, c);
    AbsCtxsUpdate(m, p, c);
    FrameTaken(inflight, completed, m', reqs, cell);
  }

  // ----- Destroying a pool ---------------------------------------------------------------------

  ghost function Kept(m: map<CtxPtr, ReqCtx>, r: ReqId): map<CtxPtr, ReqCtx> {
    map p | p in m && m[p].pool != r :: m[p]
  }

  lemma ReleaseConsistent(inflight: nat, completed: Option<bool>, m: map<CtxPtr, ReqCtx>, reqs: map<ReqId, HttpRequest>, r: ReqId)
    requires Consistent(inflight, completed, m, reqs)
    requires forall p | p in m && m[p].pool == r :: !m[p].waiting
    ensures Consistent(inflight, completed, Kept(m, r), reqs - {r})
  {
    var m' := Kept(m, r);
    forall p | p in m ensures p in Inflight(m) ==> p in Inflight(m') { assert FlagsAgree(m[p]); }
    assert Inflight(m') == Inflight(m);
    forall q | q in m' ensures FlagsAgree(m'[q]) { assert FlagsAgree(m[q]); }
    forall r' | r' in reqs - {r} ensures CountAgrees(m', reqs - {r}, r') {
      assert CountAgrees(m, reqs, r');
      assert Counted(m', r') == Counted(m, r');
    }
    forall q | q in m' ensures PointersAgree(completed, m', reqs - {r}, q) { assert PointersAgree(completed, m, reqs, q); }
  }

  lemma NewReqConsistent(inflight: nat, completed: Option<bool>, m: map<CtxPtr, ReqCtx>, reqs: map<ReqId, HttpRequest>, r: ReqId)
    requires Consistent(inflight, completed, m, reqs) && r !in reqs
    ensures Consistent(inflight, completed, m, reqs[r := HttpRequest(None, [], false, 1, 1, 0)])
  {
    var reqs' := reqs[r := HttpRequest(None, [], false, 1, 1, 0)];
    forall p | p in m ensures PointersAgree(completed, m, reqs', p) { assert PointersAgree(completed, m, reqs, p); }
    forall r' | r' in reqs' ensures CountAgrees(m, reqs', r') {
      if r' == r {
        forall p | p in m ensures p !in Counted(m, r) { assert PointersAgree(completed, m, reqs, p); }
        assert Counted(m, r) == {};
      } else {
        assert CountAgrees(m, reqs, r');
      }
    }
  }

  lemma {:induction false} RunCleanupsMore(w: World, cleanups: seq<CtxPtr>, i: nat)
    requires i < |cleanups| && forall q | q in cleanups :: q in w.ctxs
    ensures RunCleanups(w, cleanups[..i + 1]) == Cleanup(RunCleanups(w, cleanups[..i]), cleanups[i])
    decreases i
  {
    if i == 0 {
      assert cleanups[..1][1..] == [] && cleanups[..0] == [];
    } else {
      var w1, rest := Cleanup(w, cleanups[0]), cleanups[1..];
      assert forall q | q in rest :: q in cleanups;
      assert cleanups[..i + 1][1..] == rest[..i] && cleanups[..i][1..] == rest[..i - 1];
      RunCleanupsMore(w1, rest, i - 1);
      assert RunCleanups(w, cleanups[..i + 1]) == RunCleanups(w1, rest[..i]);
      assert RunCleanups(w, cleanups[..i]) == RunCleanups(w1, rest[..i - 1]);
    }
  }

  /** A batch with room for one more datagram reads one more, if there is one. */
  lemma {:induction false} ReadBatchMore(w: World, input: seq<Recv>, k: nat)
    requires k < |input| && forall i | 0 <= i <= k :: input[i].Datagram?
    ensures ReadBatch(w, input, k + 1) == RunClient(ReadBatch(w, input, k), input[k].acts)
    decreases k
  {
    if k > 0 {
      ReadBatchMore(RunClient(w, input[0].acts), input[1..], k - 1);
    }
  }

  lemma {:induction false} ReadBatchEnds(w: World, input: seq<Recv>, k: nat, room: nat)
    requires k <= |input| && k <= room && (forall i | 0 <= i < k :: input[i].Datagram?)
    requires k == |input| || !input[k].Datagram?
    ensures ReadBatch(w, input, room) == ReadBatch(w, input, k)
    decreases k
  {
    if k > 0 {
      ReadBatchEnds(RunClient(w, input[0].acts), input[1..], k - 1, room - 1);
    }
  }

  lemma ReleaseAbs(w: World, m: map<CtxPtr, ReqCtx>, reqs: map<ReqId, HttpRequest>, r: ReqId)
    requires w.ctxs == AbsCtxs(m) && w.reqs == AbsReqs(reqs)
    ensures Release(w, r) == w.(ctxs := AbsCtxs(Kept(m, r)), reqs := AbsReqs(reqs - {r}))
  {
    assert AbsReqs(reqs - {r}) == AbsReqs(reqs) - {r};
    assert AbsCtxs(Kept(m, r)) == Release(w, r).ctxs;
  }

  class Worker {
    const failOpen: bool
    var published: bool
    var inflight: nat
    var rebindPending: bool
    var rebindScheduled: bool
    var rebindDelay: nat
    var udpReadActive: bool
    var endpoint: Endpoint
    var ctxs: map<CtxPtr, ReqCtx>
    var reqs: map<ReqId, HttpRequest>
    var live: map<Handle, ReqId>      // the C client's checks, with their callback argument
    var completed: Option<bool>       // the timeout handler's stack cell, while it is running
    ghost var history: seq<Obs>

    ghost function Abs(): World
      reads this
    {
      World(Env(failOpen, true), published, AbsCtxs(ctxs), AbsReqs(reqs), live, rebindPending,
                  if rebindScheduled then Some(rebindDelay) else None, endpoint, history)
    }

    /** The machine state that this memory stands for, if its redundant parts agree. */
    ghost function State(): Option<World>
      reads this
    {
      if Consistent(inflight, completed, ctxs, reqs) then Some(Abs()) else None
    }

    constructor (failOpen: bool, endpoint: Endpoint)
      ensures this.failOpen == failOpen
      ensures completed.None? && !udpReadActive
      ensures State() == Some(Initial(failOpen, endpoint))
    {
      this.failOpen := failOpen;
      this.published, this.inflight := false, 0;
      this.rebindPending, this.rebindScheduled, this.rebindDelay := false, false, 0;
      this.udpReadActive, this.endpoint := false, endpoint;
      this.ctxs, this.reqs, this.live := map[], map[], map[];
      this.completed, this.history := None, [];
    }

    /** The counter `inflight` is zero exactly when no context waits. */
    lemma InflightIsWaiting()
      requires State().Some?
      ensures Inflight(ctxs) == WaitingSet(Abs())
      ensures inflight == 0 <==> WaitingSet(Abs()) == {}
    {
      forall p | p in ctxs ensures p in Inflight(ctxs) <==> p in WaitingSet(Abs()) {
        assert FlagsAgree(ctxs[p]);
      }
    }

    // ----- Rebinding ---------------------------------------------------------------------------

    method ScheduleRebindAfter(delay: nat)
      requires State().Some?
      modifies this`rebindScheduled, this`rebindDelay
      ensures State() == Some(ScheduleRebind(old(Abs()), delay))
    {
      InflightIsWaiting();
      if !rebindPending || inflight != 0 || rebindScheduled {
        return;
      }
      rebindScheduled := true;
      rebindDelay := delay;
    }

    method OnSteeringFeedback(keepPort: bool)
      requires State().Some?
      modifies this`rebindPending, this`rebindScheduled, this`rebindDelay
      ensures State() == Some(Steer(old(Abs()), keepPort))
      ensures keepPort ==> Abs() == old(Abs())
      ensures !keepPort ==> rebindPending
    {
      if keepPort {
        return;
      }
      rebindPending := true;
      ScheduleRebindAfter(0);
    }

    /** The endpoint changes only if a candidate opens; the old one is kept otherwise. */
    method RebindSocket(candidate: Option<Endpoint>) returns (ok: bool)
      modifies this`endpoint, this`rebindPending, this`history
      ensures ok == candidate.Some?
      ensures !ok ==> endpoint == old(endpoint) && rebindPending == old(rebindPending) && history == old(history)
      ensures ok ==> endpoint == candidate.value && !rebindPending
                     && history == old(history) + [Replaced(old(endpoint), candidate.value)]
    {
      if candidate.None? {
        return false;
      }
      history := history + [Replaced(endpoint, candidate.value)];
      endpoint := candidate.value;
      rebindPending := false;
      return true;
    }

    method RebindHandler(candidate: Option<Endpoint>)
      requires State().Some?
      modifies this`endpoint, this`history, this`rebindPending, this`rebindScheduled, this`rebindDelay
      ensures State().Some?
      ensures !udpReadActive ==> State() == Some(RebindFires(old(Abs()), candidate))
      ensures udpReadActive ==> endpoint == old(endpoint) && history == old(history)
    {
      rebindScheduled := false;
      InflightIsWaiting();
      if !rebindPending || inflight != 0 {
        return;
      }
      if udpReadActive {
        ScheduleRebindAfter(1);
        return;
      }
      var ok := RebindSocket(candidate);
      if !ok {
        ScheduleRebindAfter(REBIND_RETRY_MS);
      }
    }

    // ----- Teardown ------------------------------------------------------------------------------

    /** r_client_cancel_request. */
    method ClientCancelRequest(h: Handle)
      modifies this`live, this`history
      ensures live == old(live) - {h} && history == old(history) + [Cancelled(h)]
    {
      live := live - {h};
      history := history + [Cancelled(h)];
    }

    /** The part of teardown that gives back the two references. */
    method ReleaseCounts(ctx: ReqCtx) returns (ctx': ReqCtx)
      requires ctx.inflightCounted ==> ctx.hasWorker && inflight > 0
      requires ctx.nginxCounted ==> ctx.r == Some(ctx.pool) && ctx.pool in reqs && reqs[ctx.pool].count > 0
      modifies this`inflight, this`reqs
      ensures ctx' == ctx.(inflightCounted := false, nginxCounted := false, waiting := false)
      ensures inflight == old(inflight) - if ctx.inflightCounted then 1 else 0
      ensures reqs == Uncounted(old(reqs), ctx)
    {
      ctx' := ctx;
      if ctx'.inflightCounted {
        if ctx'.hasWorker && inflight > 0 {
          inflight := inflight - 1;
        }
        ctx' := ctx'.(inflightCounted := false);
      }
      if ctx'.nginxCounted {
        if ctx'.r.Some? && reqs[ctx'.r.value].count > 0 {
          reqs := reqs[ctx'.r.value := reqs[ctx'.r.value].(count := reqs[ctx'.r.value].count - 1)];
        }
        ctx' := ctx'.(nginxCounted := false);
      }
      ctx' := ctx'.(waiting := false);
    }

    /** The part of teardown that stops the timer and gives up the check. */
    method DropRequest(ctx: ReqCtx, cancel: bool) returns (ctx': ReqCtx)
      requires ctx.req.Some? ==> ctx.hasWorker
      modifies this`live, this`history
      ensures ctx' == ctx.(req := None, timer := None)
      ensures live == if ctx.req.Some? && cancel then old(live) - {ctx.req.value} else old(live)
      ensures history == if ctx.req.None? then old(history)
                         else if cancel then old(history) + [Cancelled(ctx.req.value)] + [Settled(ctx.req.value)]
                         else old(history) + [Settled(ctx.req.value)]
    {
      ctx' := ctx;
      if ctx'.timer.Some? {
        ctx' := ctx'.(timer := None);
      }
      var ownedReq := ctx'.req;
      ctx' := ctx'.(req := None);
      if cancel && ownedReq.Some? && ctx'.hasWorker {
        ClientCancelRequest(ownedReq.value);
      }
      if ownedReq.Some? {
        history := history + [Settled(ownedReq.value)];
      }
    }

    method ClearRequest(p: CtxPtr, cancel: bool)
      requires State().Some? && p in ctxs
      modifies this`ctxs, this`reqs, this`inflight, this`live, this`history
      ensures State() == Some(DropCheck(old(Abs()), p, cancel))
      ensures ctxs == old(ctxs)[p := Torn(old(ctxs)[p])]
    {
      TornPositive(inflight, completed, ctxs, reqs, p);   // so no guard hides an underflow
      TornConsistent(inflight, completed, ctxs, reqs, p);
      TornAbs(ctxs, reqs, p);
      var ctx := DropRequest(ctxs[p], cancel);
      ctx := ReleaseCounts(ctx);
      ctxs := ctxs[p := ctx];
    }

    /** The only method that gives up a check. */
    method RequestTeardown(p: CtxPtr, completedReq: Option<Handle>, cancel: bool)
      requires State().Some? && p in ctxs
      modifies this`ctxs, this`reqs, this`inflight, this`live, this`history, this`rebindScheduled, this`rebindDelay
      ensures State() == Some(Teardown(old(Abs()), p, completedReq, cancel))
      ensures p in ctxs && ctxs[p] == (if cancel || old(ctxs[p]).req == completedReq then Torn(old(ctxs[p])) else old(ctxs[p]))
    {
      if !cancel && ctxs[p].req != completedReq {
        return;
      }
      ClearRequest(p, cancel);
      if ctxs[p].hasWorker {
        ScheduleRebindAfter(0);
      }
    }

    // ----- Field writes --------------------------------------------------------------------------

    method PutCtx(p: CtxPtr, c: ReqCtx)
      requires State().Some? && FlagsAgree(c)
      requires if p in ctxs then ctxs[p].pool == c.pool && ctxs[p].waiting == c.waiting && (c.observed ==> ctxs[p].observed)
               else !c.waiting && !c.observed
      modifies this`ctxs
      ensures State() == Some(SetCtx(old(Abs()), p, AbsCtx(c)))
      ensures ctxs == old(ctxs)[p := c]
    {
      WriteCtx(inflight, completed, ctxs, reqs, p, c);
      AbsCtxsUpdate(ctxs, p, c);
      ctxs := ctxs[p := c];
    }

    method PutBook(p: CtxPtr, b: Book)
      requires State().Some? && p in ctxs
      modifies this`ctxs
      ensures State() == Some(SetBook(old(Abs()), p, b))
      ensures ctxs == old(ctxs)[p := old(ctxs)[p].(book := b)]
    {
      assert FlagsAgree(ctxs[p]);
      PutCtx(p, ctxs[p].(book := b));
    }

    method PutReq(r: ReqId, q: HttpRequest)
      requires State().Some? && r in reqs && q.count - q.others == reqs[r].count - reqs[r].others
      modifies this`reqs
      ensures State() == Some(SetReq(old(Abs()), r, AbsReq(q)))
      ensures reqs == old(reqs)[r := q]
    {
      WriteReq(inflight, completed, ctxs, reqs, r, q);
      AbsReqsUpdate(reqs, r, q);
      reqs := reqs[r := q];
    }

    // ----- Cleanup -------------------------------------------------------------------------------

    method RequestCleanup(p: CtxPtr)
      requires State().Some? && p in ctxs
      modifies this`ctxs, this`reqs, this`inflight, this`live, this`history, this`rebindScheduled, this`rebindDelay
      ensures State() == Some(Cleanup(old(Abs()), p))
    {
      var v := ctxs[p].book.verdict;
      if v.outcome.WaitingOutcome? {
        v := v.(outcome := Aborted, cause := ClientAbort);
      }
      PutBook(p, ctxs[p].book.(verdict := v));
      RequestTeardown(p, None, true);
      assert FlagsAgree(ctxs[p]);
      PutCtx(p, ctxs[p].(r := None));
    }

    // ----- Completion ------------------------------------------------------------------------------

    method JudgeResult(k: Completion, guards: nat, resources: nat) returns (v: Verdict)
      ensures v == Judge(k, guards, resources, failOpen)
      ensures Judged(k, guards, resources, failOpen, v)
    {
      JudgeMeans(k, guards, resources, failOpen);
      if k.status.ClientOk? && k.result.Some? {
        var res := k.result.value;
        if |res.guardsPassed| != guards || |res.deficits| != resources {
          return FailVerdict(failOpen, CardinalityMismatch);
        }
        var allow := res.success;
        if allow {
          var i := 0;
          while i < |res.guardsPassed|
            invariant 0 <= i <= |res.guardsPassed|
            invariant forall j | 0 <= j < i :: res.guardsPassed[j]
            invariant allow
          {
            if !res.guardsPassed[i] {
              allow := false;
              break;
            }
            i := i + 1;
          }
        }
        if allow {
          var i := 0;
          while i < |res.deficits|
            invariant 0 <= i <= |res.deficits|
            invariant forall j | 0 <= j < i :: res.deficits[j] == 0
            invariant allow
          {
            if res.deficits[i] != 0 {
              allow := false;
              break;
            }
            i := i + 1;
          }
        }
        return if allow then Verdict(Proceed, ValidAllow, ValidVerdict)
               else Verdict(TooManyRequests, ValidDeny, ValidVerdict);
      }
      return FailVerdict(failOpen, if k.status.ClientTimeout? then Timeout else DependencyError);
    }

    // ----- Finding the context ---------------------------------------------------------------------

    ghost predicate PointersValid(r: ReqId)
      requires r in reqs
      reads this
    {
      && (reqs[r].slot.Some? ==> reqs[r].slot.value in ctxs)
      && (forall q | q in reqs[r].cleanups :: q in ctxs && ctxs[q].pool == r)
    }

    /** The invariant of the machine makes the slot and the cleanup list of a request safe to follow. */
    lemma SafePointers(r: ReqId)
      requires Safe(Abs()) && r in reqs
      ensures PointersValid(r)
      ensures ReqSafe(Abs(), r)
    {
      assert ReqSafe(Abs(), r);
      assert Abs().reqs[r] == AbsReq(reqs[r]);
      assert forall q | q in reqs[r].cleanups :: q == reqs[r].cleanups[0];
    }

    method GetRequestCtx(r: ReqId) returns (ctx: Option<CtxPtr>)
      requires State().Some? && r in reqs && PointersValid(r)
      modifies this`reqs
      ensures State() == Some(Recover(old(Abs()), r))
      ensures r in reqs && ctx == reqs[r].slot && (ctx.Some? ==> ctx.value in ctxs)
      ensures reqs[r] == old(reqs)[r].(slot := ctx)
    {
      if reqs[r].slot.Some? {
        return reqs[r].slot;
      }
      var cln := reqs[r].cleanups;
      var i := 0;
      while i < |cln|
        invariant 0 <= i <= |cln| && cln == reqs[r].cleanups
        invariant reqs == old(reqs) && State() == Some(old(Abs()))
        invariant FirstAttached(old(Abs()), cln) == FirstAttached(old(Abs()), cln[i..])
      {
        assert FlagsAgree(ctxs[cln[i]]);
        if ctxs[cln[i]].r == Some(r) {
          PutReq(r, reqs[r].(slot := Some(cln[i])));
          return Some(cln[i]);
        }
        i := i + 1;
      }
      return None;
    }

    // ----- The phase handler -------------------------------------------------------------------------

    /** Stores a verdict that was reached without a check. */
    method FinishCtx(p: CtxPtr, v: Verdict) returns (rc: Rc)
      requires State().Some? && p in ctxs
      modifies this`ctxs
      ensures var res := Finish(old(Abs()), p, v); State() == Some(res.0) && rc == res.1
    {
      PutBook(p, ctxs[p].book.(done := true, verdict := v));
      return v.decision;
    }

    /** The client accepted the check: the handler counts it everywhere. */
    method BeginCheck(r: ReqId, p: CtxPtr, b: Book, h: Handle, deadline: Option<nat>)
      requires p in ctxs && r in reqs
      modifies this`ctxs, this`reqs, this`inflight, this`live, this`history
      ensures ctxs == old(ctxs)[p := Begun(old(ctxs)[p], h, deadline, b.(verdict := b.verdict.(outcome := WaitingOutcome)))]
      ensures reqs == old(reqs)[r := CountedMore(old(reqs)[r])]
      ensures inflight == old(inflight) + 1 && live == old(live)[h := r] && history == old(history) + [Started(h)]
    {
      live := live[h := r];
      history := history + [Started(h)];
      var ctx := ctxs[p].(book := b);
      ctx := ctx.(req := Some(h));
      inflight := inflight + 1;
      ctx := ctx.(inflightCounted := true);
      ctx := ctx.(timer := deadline);
      ctx := ctx.(waiting := true, book := b.(verdict := b.verdict.(outcome := WaitingOutcome)));
      var q := reqs[r];
      q := q.(count := q.count + 1, checks := q.checks + 1);
      reqs := reqs[r := q];
      ctx := ctx.(nginxCounted := true);
      ctxs := ctxs[p := ctx];
    }

    method HandlerStart(r: ReqId, p: CtxPtr, b: Book, e: Entry) returns (rc: Rc)
      requires State().Some? && p in ctxs && r in reqs && ctxs[p].pool == r && e.start.StartedCheck?
      requires ctxs[p].hasWorker && ctxs[p].r == Some(r) && !ctxs[p].waiting
      modifies this`ctxs, this`reqs, this`inflight, this`live, this`history, this`rebindScheduled, this`rebindDelay
      ensures var res := StartCheck(old(Abs()), r, p, b, e); State() == Some(res.0) && rc == res.1
    {
      ghost var w := Abs();
      var h, deadline := e.start.handle, e.start.deadline;
      ghost var b' := b.(verdict := b.verdict.(outcome := WaitingOutcome));
      BegunConsistent(inflight, completed, ctxs, reqs, p, h, deadline, b');
      AbsCtxsUpdate(ctxs, p, Begun(ctxs[p], h, deadline, b'));
      AbsReqsUpdate(reqs, r, CountedMore(reqs[r]));
      BeginCheck(r, p, b, h, deadline);
      assert State() == Some(StartedWorld(w, r, p, b, h, deadline));
      if !e.readEventOk {
        RequestTeardown(p, None, true);
        rc := FinishCtx(p, InternalVerdict);
        return;
      }
      return Again;
    }

    method HandlerAdmit(r: ReqId, p: CtxPtr, e: Entry) returns (rc: Rc)
      requires State().Some? && p in ctxs && r in reqs && ctxs[p].pool == r
      requires ctxs[p].hasWorker && ctxs[p].r == Some(r) && !ctxs[p].waiting
      modifies this`ctxs, this`reqs, this`inflight, this`live, this`history, this`rebindScheduled, this`rebindDelay
      ensures var res := Admit(old(Abs()), r, p, e); State() == Some(res.0) && rc == res.1
    {
      match e.build {
        case NoRules => rc := FinishCtx(p, Verdict(Declined, NoOutcome, NoCause));
        case BuildFailed => rc := FinishCtx(p, FailVerdict(failOpen, DependencyError));
        case BuildInternalError => rc := FinishCtx(p, InternalVerdict);
        case Built(guards, resources) =>
          var b := ctxs[p].book.(guards := guards, resources := resources);
          if e.start.StartFailed? {
            PutBook(p, b);
            rc := FinishCtx(p, FailVerdict(failOpen, StartFailure));
          } else {
            rc := HandlerStart(r, p, b, e);
          }
      }
    }

    /** The worker is there, and the report that belongs to the request may be built. */
    method HandlerUseWorker(p: CtxPtr, latEnabled: bool)
      requires State().Some? && p in ctxs && ctxs[p].r.Some?
      modifies this`published, this`ctxs
      ensures State() == Some(SetCtx(old(Abs()).(published := true), p,
                old(Abs()).ctxs[p].(hasWorker := true, book := old(Abs()).ctxs[p].book.(latEnabled := latEnabled))))
      ensures ctxs == old(ctxs)[p := old(ctxs)[p].(hasWorker := true, book := old(ctxs)[p].book.(latEnabled := latEnabled))]
    {
      assert FlagsAgree(ctxs[p]);
      published := true;
      PutCtx(p, ctxs[p].(hasWorker := true, book := ctxs[p].book.(latEnabled := latEnabled)));
    }

    /** Finds or makes the worker, then decides without admission or starts it. */
    method HandlerAttachWorker(r: ReqId, p: CtxPtr, conf: EntryConf, e: Entry) returns (rc: Rc)
      requires State().Some? && r in reqs && p in ctxs && ctxs[p].pool == r && ctxs[p].r == Some(r) && !ctxs[p].waiting
      modifies this`published, this`ctxs, this`reqs, this`inflight, this`live, this`history, this`rebindScheduled, this`rebindDelay
      ensures var res := AttachWorker(old(Abs()), r, p, conf, e); State() == Some(res.0) && rc == res.1
    {
      assert FlagsAgree(ctxs[p]);
      var b := ctxs[p].book;
      if !published && !e.initOk {
        rc := FinishCtx(p, Verdict(if conf.admission then FailDecision(failOpen) else Declined,
                                   b.verdict.outcome, DependencyError));
        return;
      }
      HandlerUseWorker(p, conf.report && e.reportBuilt);
      if !conf.admission {
        rc := FinishCtx(p, ctxs[p].book.verdict);
        return;
      }
      rc := HandlerAdmit(r, p, e);
    }

    method HandlerNewContext(r: ReqId, p: CtxPtr, conf: EntryConf, e: Entry) returns (rc: Rc)
      requires State().Some? && r in reqs && p !in ctxs
      modifies this`published, this`ctxs, this`reqs, this`inflight, this`live, this`history, this`rebindScheduled, this`rebindDelay
      ensures var res := NewContext(old(Abs()), r, p, conf, e); State() == Some(res.0) && rc == res.1
    {
      var b := InitialBook(failOpen, conf.admission);
      PutCtx(p, ReqCtx(r, Some(r), false, None, None, false, false, false, false, b));
      PutReq(r, reqs[r].(slot := Some(p)));
      if !e.cleanupOk {
        PutBook(p, b.(done := true, verdict := InternalVerdict.(decision := Declined)));
        return ServerError;
      }
      PutReq(r, reqs[r].(cleanups := [p] + reqs[r].cleanups));
      rc := HandlerAttachWorker(r, p, conf, e);
    }

    /** The phase handler. */
    method Handler(r: ReqId, conf: EntryConf, e: Entry) returns (rc: Rc)
      requires State().Some? && r in reqs && PointersValid(r) && (e.ctx.Some? ==> e.ctx.value !in ctxs)
      modifies this`published, this`ctxs, this`reqs, this`inflight, this`live, this`history, this`rebindScheduled, this`rebindDelay
      ensures var res := Enter(old(Abs()), r, conf, e); State() == Some(res.0) && rc == res.1
      ensures !conf.isMain ==> rc == Declined && Abs() == old(Abs())
      ensures !(conf.admission || conf.report) || !conf.mainEnabled ==>
        rc == Declined && ctxs == old(ctxs) && live == old(live) && history == old(history) && inflight == old(inflight)
    {
      if !conf.isMain {
        return Declined;
      }
      var ctx := GetRequestCtx(r);
      if !conf.admission && !conf.report {
        return Declined;
      }
      if !conf.mainEnabled {
        return Declined;
      }
      rc := HandlerFound(r, ctx, conf, e);
    }

    /** Reuses the context found, or makes one. */
    method HandlerFound(r: ReqId, ctx: Option<CtxPtr>, conf: EntryConf, e: Entry) returns (rc: Rc)
      requires State().Some? && r in reqs && ctx == reqs[r].slot && (ctx.Some? ==> ctx.value in ctxs)
      requires e.ctx.Some? ==> e.ctx.value !in ctxs
      modifies this`published, this`ctxs, this`reqs, this`inflight, this`live, this`history, this`rebindScheduled, this`rebindDelay
      ensures var res := EnterFound(old(Abs()), r, conf, e); State() == Some(res.0) && rc == res.1
    {
      if ctx.Some? {
        assert FlagsAgree(ctxs[ctx.value]);
        if ctxs[ctx.value].book.done {
          return ctxs[ctx.value].book.verdict.decision;
        }
        if ctxs[ctx.value].waiting {
          return Again;
        }
      }
      if e.ctx.None? {
        return ServerError;
      }
      rc := HandlerNewContext(r, e.ctx.value, conf, e);
    }

    /** `$ratelimitly_verdict`. */
    method ReadVerdictVariable(r: ReqId) returns (v: Option<bool>)
      requires State().Some? && r in reqs && PointersValid(r)
      modifies this`reqs
      ensures State() == Some(Recover(old(Abs()), r))
      ensures v == VerdictVariable(old(Abs()), r)
    {
      var ctx := GetRequestCtx(r);
      if ctx.None? {
        return None;
      }
      match ctxs[ctx.value].book.verdict.outcome {
        case ValidAllow => return Some(true);
        case ValidDeny => return Some(false);
        case _ => return None;
      }
    }

    /** The log phase handler; unlike the others it does not look beyond the module slot. */
    method LogHandler(r: ReqId, i: LogInput)
      requires State().Some? && r in reqs && PointersValid(r)
      modifies this`ctxs, this`history
      ensures State() == Some(LogPhase(old(Abs()), r, i))
    {
      if reqs[r].slot.None? {
        return;
      }
      var p := reqs[r].slot.value;
      var b := ctxs[p].book;
      if !b.latEnabled || b.latSent {
        assert Abs() == SetBook(Abs(), p, b);
        return;
      }
      if i.broken {
        PutBook(p, b.(latSent := true, verdict := b.verdict.(outcome := Aborted, cause := ClientAbort)));
        return;
      }
      if !b.verdict.outcome.NoOutcome? && !b.verdict.outcome.ValidAllow? && !b.verdict.outcome.FailOpen? {
        PutBook(p, b.(latSent := true));
        return;
      }
      if !ctxs[p].hasWorker || i.elapsed.None? {
        PutBook(p, b.(latSent := true));
        return;
      }
      var observed := if i.elapsed.value > 0 then i.elapsed.value else 0;
      if observed == 0 {
        observed := 1;
      }
      if observed > 0xFFFF_FFFF {
        observed := 0xFFFF_FFFF;
      }
      PutBook(p, b.(latSent := true, reports := b.reports + 1));
      history := history + [Reported(b.verdict.outcome, observed)];
    }

    // ----- What nginx does to a request ----------------------------------------------------------------

    method RunCleanupList(cln: seq<CtxPtr>)
      requires State().Some? && forall q | q in cln :: q in Abs().ctxs
      modifies this`ctxs, this`reqs, this`inflight, this`live, this`history, this`rebindScheduled, this`rebindDelay
      ensures State() == Some(RunCleanups(old(Abs()), cln))
    {
      var i := 0;
      while i < |cln|
        invariant 0 <= i <= |cln|
        invariant State() == Some(RunCleanups(old(Abs()), cln[..i]))
      {
        RunCleanupsMore(old(Abs()), cln, i);
        assert cln[i] in Abs().ctxs;
        RequestCleanup(cln[i]);
        i := i + 1;
      }
      assert cln[..i] == cln;
    }

    /** nginx runs the cleanup list and empties it. */
    method TerminateRequest(r: ReqId)
      requires State().Some? && r in reqs && PointersValid(r)
      modifies this`ctxs, this`reqs, this`inflight, this`live, this`history, this`rebindScheduled, this`rebindDelay
      ensures State() == Some(Terminate(old(Abs()), r))
    {
      ghost var q := Abs().reqs[r];
      RunCleanupList(reqs[r].cleanups);
      assert Abs().reqs[r] == q;
      PutReq(r, reqs[r].(cleanups := [], closed := true));
    }

    /** The pool is destroyed, and every context in it. */
    method DestroyPool(r: ReqId)
      requires State().Some? && !HasWaiting(Abs(), r)
      modifies this`ctxs, this`reqs
      ensures State() == Some(Release(old(Abs()), r))
    {
      NoneWaitingHere(r);
      ReleaseConsistent(inflight, completed, ctxs, reqs, r);
      ReleaseAbs(Abs(), ctxs, reqs, r);
      ctxs := map p | p in ctxs && ctxs[p].pool != r :: ctxs[p];
      reqs := reqs - {r};
    }

    /** The request's last reference is gone: cleanup, log phase, and the pool. */
    method FreeRequest(r: ReqId, i: LogInput)
      requires State().Some? && Safe(Abs()) && Armed(Abs(), {}) && r in reqs
      modifies this`ctxs, this`reqs, this`inflight, this`live, this`history, this`rebindScheduled, this`rebindDelay
      ensures State() == Some(Free(old(Abs()), r, i))
    {
      SafePointers(r);
      TerminateSafe(Abs(), r);
      TerminateRequest(r);
      assert r in AbsReqs(reqs);
      SafePointers(r);
      LogPhaseKeepsWaiting(Abs(), r, i);
      LogHandler(r, i);
      DestroyPool(r);
    }

    lemma NoneWaitingHere(r: ReqId)
      requires State().Some? && !HasWaiting(Abs(), r)
      ensures forall p | p in ctxs && ctxs[p].pool == r :: !ctxs[p].waiting
    {
      forall p | p in ctxs && ctxs[p].pool == r ensures !ctxs[p].waiting {
        assert FlagsAgree(ctxs[p]);
        assert Abs().ctxs[p] == AbsCtx(ctxs[p]);
      }
    }

    /** nginx's rule for freeing, in terms of its counter. */
    lemma ZeroCount(r: ReqId)
      requires State().Some? && r in reqs
      ensures reqs[r].count == 0 <==> reqs[r].others == 0 && !HasWaiting(Abs(), r)
    {
      assert CountAgrees(ctxs, reqs, r);
      forall p | p in ctxs ensures p in Counted(ctxs, r) <==> ctxs[p].pool == r && Abs().ctxs[p].status.Waiting? {
        assert FlagsAgree(ctxs[p]);
      }
      if HasWaiting(Abs(), r) {
        var p :| p in Abs().ctxs && Abs().ctxs[p].owner == r && Abs().ctxs[p].status.Waiting?;
        assert p in Counted(ctxs, r);
      } else {
        assert Counted(ctxs, r) == {};
      }
    }

    method PhasesSuspended(r: ReqId) returns (b: bool)
      requires State().Some?
      ensures b == HasWaiting(Abs(), r)
    {
      b := exists p :: p in ctxs && ctxs[p].pool == r && ctxs[p].waiting;
      forall p | p in ctxs ensures ctxs[p].waiting == Abs().ctxs[p].status.Waiting? { assert FlagsAgree(ctxs[p]); }
    }

    method AcceptRequest(r: ReqId)
      requires State().Some?
      modifies this`reqs
      ensures State() == Some(DoAct(old(Abs()), NewRequest(r)))
    {
      assert AbsReqs(reqs).Keys == reqs.Keys;
      if r !in reqs {
        NewReqConsistent(inflight, completed, ctxs, reqs, r);
        AbsReqsUpdate(reqs, r, HttpRequest(None, [], false, 1, 1, 0));
        reqs := reqs[r := HttpRequest(None, [], false, 1, 1, 0)];
      }
    }

    method RedirectRequest(r: ReqId)
      requires State().Some?
      modifies this`reqs
      ensures State() == Some(DoAct(old(Abs()), Redirect(r)))
    {
      assert AbsReqs(reqs).Keys == reqs.Keys;
      var suspended := PhasesSuspended(r);
      if r in reqs && !suspended {
        PutReq(r, reqs[r].(slot := None));
      }
    }

    method ChangeReferences(r: ReqId, others: nat)
      requires State().Some?
      modifies this`reqs
      ensures State() == Some(DoAct(old(Abs()), SetRefs(r, others)))
    {
      assert AbsReqs(reqs).Keys == reqs.Keys;
      if r in reqs {
        assert CountAgrees(ctxs, reqs, r);
        PutReq(r, reqs[r].(count := reqs[r].count - reqs[r].others + others, others := others));
      }
    }

    method RunHandler(r: ReqId, conf: EntryConf, e: Entry)
      requires State().Some? && Safe(Abs())
      modifies this`published, this`ctxs, this`reqs, this`inflight, this`live, this`history, this`rebindScheduled, this`rebindDelay
      ensures State() == Some(DoAct(old(Abs()), EnterHandler(r, conf, e)))
    {
      assert AbsCtxs(ctxs).Keys == ctxs.Keys && AbsReqs(reqs).Keys == reqs.Keys;
      if r in reqs && !reqs[r].closed && (e.ctx.Some? ==> e.ctx.value !in ctxs)
         && (e.start.StartedCheck? ==> e.start.handle !in live && e.start.deadline.Some?)
      {
        SafePointers(r);
        var _ := Handler(r, conf, e);
      }
    }

    /** One thing nginx does, if its rules allow it now. */
    method NginxAct(a: Act)
      requires State().Some? && Safe(Abs()) && Armed(Abs(), {})
      modifies this`published, this`ctxs, this`reqs, this`inflight, this`live, this`history, this`rebindScheduled, this`rebindDelay
      ensures State() == Some(DoAct(old(Abs()), a))
    {
      assert AbsReqs(reqs).Keys == reqs.Keys;
      match a {
        case NewRequest(r) => AcceptRequest(r);
        case EnterHandler(r, conf, e) => RunHandler(r, conf, e);
        case Redirect(r) => RedirectRequest(r);
        case SetRefs(r, others) => ChangeReferences(r, others);
        case ReadVerdict(r) =>
          if r in reqs {
            SafePointers(r);
            var _ := ReadVerdictVariable(r);
          }
        case TerminateRequest(r) =>
          if r in reqs {
            SafePointers(r);
            TerminateRequest(r);
          }
        case FreeRequest(r, i) =>
          if r in reqs {
            ZeroCount(r);
            if reqs[r].count == 0 {
              FreeRequest(r, i);
            }
          }
      }
    }

    /** ngx_http_core_run_phases: any number of things nginx may do. */
    method RunPhases(acts: seq<Act>)
      requires State().Some? && Safe(Abs()) && Armed(Abs(), {})
      modifies this`published, this`ctxs, this`reqs, this`inflight, this`live, this`history, this`rebindScheduled, this`rebindDelay
      ensures State() == Some(RunActs(old(Abs()), acts))
    {
      var i := 0;
      while i < |acts|
        invariant 0 <= i <= |acts|
        invariant State().Some? && Safe(Abs()) && Armed(Abs(), {})
        invariant RunActs(old(Abs()), acts) == RunActs(Abs(), acts[i..])
      {
        ActSafe(Abs(), acts[i]);
        assert acts[i..][0] == acts[i] && acts[i..][1..] == acts[i + 1..];
        NginxAct(acts[i]);
        i := i + 1;
      }
    }

    // ----- Completion ------------------------------------------------------------------------------------

    /** The completion callback up to the point where it resumes the phases. `target` is the
        context it acts on, if any; the timeout handler's stack cell is set exactly if that
        context observes it. */
    method RateCallbackStep(r: ReqId, h: Handle, k: Completion) returns (target: Option<CtxPtr>)
      requires State().Some? && r in reqs && PointersValid(r)
      modifies this`ctxs, this`reqs, this`inflight, this`live, this`history, this`rebindScheduled, this`rebindDelay, this`completed
      ensures target == CallbackTarget(old(Abs()), r, h)
      ensures State() == Some(RateCallback(old(Abs()), r, h, k))
      ensures target.Some? ==> target.value in old(ctxs)
      ensures completed == if target.Some? && old(ctxs)[target.value].observed then Some(true) else old(completed)
    {
      if reqs[r].slot.None? {
        return None;
      }
      var p := reqs[r].slot.value;
      if !ctxs[p].hasWorker {
        return None;
      }
      if ctxs[p].req != Some(h) {
        return None;
      }
      target := Some(p);
      if ctxs[p].observed {
        ObserverCleared(inflight, completed, ctxs, reqs, p, Some(true));
        completed := Some(true);
        ctxs := ctxs[p := ctxs[p].(observed := false)];
        assert State() == Some(old(Abs()));
      }
      RequestTeardown(p, Some(h), false);
      var b := ctxs[p].book;
      var v := JudgeResult(k, b.guards, b.resources);
      PutBook(p, b.(verdict := v, basis := Some(k), done := true));
    }

    /** The completion callback. Once the phases run, neither the context nor the request is
        touched again: both may be gone. */
    method RateCallbackAndResume(r: ReqId, h: Handle, k: Completion, resumed: seq<Act>)
      requires State().Some? && r in reqs && PointersValid(r)
      requires CallbackTarget(Abs(), r, h).Some? ==>
                 Safe(RateCallback(Abs(), r, h, k)) && Armed(RateCallback(Abs(), r, h, k), {})
      modifies this`published, this`ctxs, this`reqs, this`inflight, this`live, this`history, this`rebindScheduled, this`rebindDelay, this`completed
      ensures State() == Some(ResumeAfter(old(Abs()), r, h, k, resumed))
      ensures
        var target := CallbackTarget(old(Abs()), r, h);
        && (target.Some? ==> target.value in old(ctxs))
        && completed == if target.Some? && old(ctxs)[target.value].observed then Some(true) else old(completed)
    {
      var target := RateCallbackStep(r, h, k);
      if target.Some? {
        RunPhases(resumed);
      }
    }

    /** The client unlinks a live check and calls back. */
    method ClientCompletes(p: CtxPtr, h: Handle, k: Completion, resumed: seq<Act>)
      requires State().Some? && Safe(Abs()) && Armed(Abs(), {p})
      requires p in ctxs && ctxs[p].req == Some(h)
      modifies this`published, this`ctxs, this`reqs, this`inflight, this`live, this`history, this`rebindScheduled, this`rebindDelay, this`completed
      ensures h in old(live) && State() == Some(Deliver(old(Abs()), h, k, resumed))
      ensures completed == if old(ctxs)[p].observed then Some(true) else old(completed)
    {
      ghost var w := Abs();
      assert w.ctxs[p] == AbsCtx(ctxs[p]);
      assert CtxSafe(w, p);
      var r := live[h];
      SafePointers(r);
      live := live - {h};
      history := history + [ClientDone(h)];
      assert Abs() == Admission.Log(w.(live := w.live - {h}), ClientDone(h));
      RateCallbackEffect(w, Abs(), p, h, k, ClientDone(h));
      RateCallbackSafe(w, Abs(), p, h, k, ClientDone(h));
      RateCallbackAndResume(r, h, k, resumed);
    }

    /** What the client does with one datagram. */
    method OnDatagram(acts: seq<ClientAct>)
      requires State().Some? && Safe(Abs()) && Armed(Abs(), {})
      modifies this`published, this`ctxs, this`reqs, this`inflight, this`live, this`history, this`rebindPending, this`rebindScheduled, this`rebindDelay, this`completed
      ensures State() == Some(RunClient(old(Abs()), acts))
      ensures old(completed).None? ==> completed.None?
    {
      var i := 0;
      while i < |acts|
        invariant 0 <= i <= |acts|
        invariant State().Some? && Safe(Abs()) && Armed(Abs(), {})
        invariant old(completed).None? ==> completed.None?
        invariant RunClient(old(Abs()), acts) == RunClient(Abs(), acts[i..])
      {
        ClientActSafe(Abs(), acts[i]);
        assert acts[i..][0] == acts[i] && acts[i..][1..] == acts[i + 1..];
        match acts[i] {
          case SteeringFeedback(keep) => OnSteeringFeedback(keep);
          case Complete(h, k, resumed) =>
            if h in live {
              var p := OwnerOf(h);
              ClientCompletes(p, h, k, resumed);
            }
        }
        i := i + 1;
      }
    }

    method OwnerOf(h: Handle) returns (p: CtxPtr)
      requires State().Some? && Safe(Abs()) && h in live
      ensures p in ctxs && ctxs[p].req == Some(h)
      ensures completed.None? ==> !ctxs[p].observed
    {
      assert LiveSafe(Abs(), h);
      var r := live[h];
      assert Abs().reqs[r] == AbsReq(reqs[r]);
      p := reqs[r].slot.value;
      assert Abs().ctxs[p] == AbsCtx(ctxs[p]);
      assert PointersAgree(completed, ctxs, reqs, p);
    }

    /** The next datagram of a batch that began in state `w`. */
    method ReceiveDatagram(ghost w: World, input: seq<Recv>, k: nat)
      requires k < |input| && forall i | 0 <= i <= k :: input[i].Datagram?
      requires Safe(w) && Armed(w, {}) && State() == Some(ReadBatch(w, input, k)) && completed.None?
      modifies this`published, this`ctxs, this`reqs, this`inflight, this`live, this`history, this`rebindPending, this`rebindScheduled, this`rebindDelay, this`completed
      ensures State() == Some(ReadBatch(w, input, k + 1)) && completed.None?
    {
      ReadBatchSafe(w, input, k);
      ReadBatchMore(w, input, k);
      OnDatagram(input[k].acts);
    }

    /** Reads at most 64 datagrams, then yields. */
    method ReadDatagrams(input: seq<Recv>) returns (yielded: bool)
      requires State().Some? && Safe(Abs()) && Armed(Abs(), {}) && completed.None?
      modifies this`published, this`ctxs, this`reqs, this`inflight, this`live, this`history, this`rebindPending, this`rebindScheduled, this`rebindDelay, this`completed
      ensures State() == Some(ReadBatch(old(Abs()), input, UDP_READ_BATCH_MAX)) && completed.None?
      ensures yielded ==> |input| >= UDP_READ_BATCH_MAX
    {
      ghost var w := Abs();
      var received := 0;
      while true
        invariant 0 <= received < UDP_READ_BATCH_MAX && received <= |input|
        invariant forall i | 0 <= i < received :: input[i].Datagram?
        invariant State() == Some(ReadBatch(w, input, received)) && completed.None?
        decreases |input| - received
      {
        if received == |input| || !input[received].Datagram? {
          ReadBatchEnds(w, input, received, UDP_READ_BATCH_MAX);
          return false;
        }
        ReceiveDatagram(w, input, received);
        received := received + 1;
        if received == UDP_READ_BATCH_MAX {
          return true;
        }
      }
    }

    /** The read handler: one batch, with the active flag set for its duration. */
    method UdpReadHandler(input: seq<Recv>) returns (yielded: bool)
      requires State().Some? && Safe(Abs()) && Armed(Abs(), {}) && completed.None? && !udpReadActive
      modifies this`published, this`ctxs, this`reqs, this`inflight, this`live, this`history, this`rebindPending, this`rebindScheduled, this`rebindDelay, this`completed, this`udpReadActive
      ensures State() == Some(ReadBatch(old(Abs()), input, UDP_READ_BATCH_MAX))
      ensures completed.None? && !udpReadActive
      ensures yielded ==> |input| >= UDP_READ_BATCH_MAX
    {
      udpReadActive := true;
      yielded := ReadDatagrams(input);
      udpReadActive := false;
    }

    // ----- The request timer -------------------------------------------------------------------------------

    /** r_client_on_timeout at a due deadline, up to a synchronous completion. */
    method ClientOnTimeout(p: CtxPtr, h: Handle, steering: seq<bool>, result: OnTimeout)
      requires State().Some? && Safe(Abs()) && Armed(Abs(), {p})
      requires p in ctxs && ctxs[p].req == Some(h) && ctxs[p].observed
      modifies this`published, this`ctxs, this`reqs, this`inflight, this`live, this`history, this`rebindPending, this`rebindScheduled, this`rebindDelay, this`completed
      ensures State() == Some(if result.CompletesNow?
                              then AtDeadline(SteerAll(old(Abs()), steering), p, h, result)
                              else SteerAll(old(Abs()), steering))
      ensures result.CompletesNow? ==> completed == Some(true)
      ensures !result.CompletesNow? ==> ctxs == old(ctxs) && reqs == old(reqs) && completed == old(completed)
    {
      var i := 0;
      while i < |steering|
        invariant 0 <= i <= |steering|
        invariant State().Some? && Safe(Abs()) && Armed(Abs(), {p})
        invariant ctxs == old(ctxs) && reqs == old(reqs) && completed == old(completed)
        invariant SteerAll(old(Abs()), steering) == SteerAll(Abs(), steering[i..])
      {
        SteerSafe(Abs(), steering[i], {p});
        assert steering[i..][0] == steering[i] && steering[i..][1..] == steering[i + 1..];
        OnSteeringFeedback(steering[i]);
        i := i + 1;
      }
      if result.CompletesNow? {
        ClientCompletes(p, h, result.completion, result.resumed);
      }
    }

    /** The handler gives up a check itself: it cancels it and runs the callback by hand. */
    method GiveUpRequest(p: CtxPtr, h: Handle, status: ClientStatus, resumed: seq<Act>)
      requires State().Some? && Safe(Abs()) && Armed(Abs(), {p}) && completed.None?
      requires p in ctxs && ctxs[p].req == Some(h)
      modifies this`published, this`ctxs, this`reqs, this`inflight, this`live, this`history, this`rebindScheduled, this`rebindDelay, this`completed
      ensures State() == Some(GiveUp(old(Abs()), old(Abs()).ctxs[p].owner, h, status, resumed))
      ensures completed.None?
    {
      ghost var w := Abs();
      assert w.ctxs[p] == AbsCtx(ctxs[p]);
      assert CtxSafe(w, p) && FlagsAgree(ctxs[p]) && PointersAgree(completed, ctxs, reqs, p);
      var r := ctxs[p].r.value;
      SafePointers(r);
      ClientCancelRequest(h);
      assert Abs() == ClientCancel(w, h);
      RateCallbackEffect(w, Abs(), p, h, Completion(status, None), Cancelled(h));
      RateCallbackSafe(w, Abs(), p, h, Completion(status, None), Cancelled(h));
      RateCallbackAndResume(r, h, Completion(status, None), resumed);
    }

    /** A due deadline, with the completion observed through the stack cell: after a synchronous
        completion the context may be gone and is not touched. */
    method TimeoutDue(p: CtxPtr, h: Handle, steering: seq<bool>, result: OnTimeout)
      requires State().Some? && Safe(Abs()) && Armed(Abs(), {p}) && completed.None?
      requires p in ctxs && ctxs[p].req == Some(h)
      modifies this`published, this`ctxs, this`reqs, this`inflight, this`live, this`history, this`rebindPending, this`rebindScheduled, this`rebindDelay, this`completed
      ensures State() == Some(AtDeadline(SteerAll(old(Abs()), steering), p, h, result))
      ensures completed.None?
    {
      ObserverSet(inflight, ctxs, reqs, p);
      completed := Some(false);
      ctxs := ctxs[p := ctxs[p].(observed := true)];
      assert State() == Some(old(Abs()));
      ClientOnTimeout(p, h, steering, result);
      if completed == Some(true) {
        FrameTaken(inflight, completed, ctxs, reqs, None);
        completed := None;
        return;
      }
      ghost var w := Abs();
      ObserverCleared(inflight, completed, ctxs, reqs, p, None);
      completed := None;
      ctxs := ctxs[p := ctxs[p].(observed := false)];
      assert State() == Some(w);
      SteerAllSafe(old(Abs()), steering, {p});
      if result.StaysLive? {
        assert FlagsAgree(ctxs[p]);
        PutCtx(p, ctxs[p].(timer := Some(result.delay)));
      } else if result.ReturnsError? {
        GiveUpRequest(p, h, result.status, result.resumed1);
      } else if result.LosesDeadline? {
        GiveUpRequest(p, h, ClientError, result.resumed2);
      }
    }

    /** The request timer expires; nginx marks it unset before it calls the handler. */
    method TimeoutHandler(p: CtxPtr, x: Expiry)
      requires State().Some? && Safe(Abs()) && Armed(Abs(), {}) && completed.None?
      requires p in ctxs && ctxs[p].timer.Some?
      modifies this`published, this`ctxs, this`reqs, this`inflight, this`live, this`history, this`rebindPending, this`rebindScheduled, this`rebindDelay, this`completed
      ensures State() == Some(TimerFires(old(Abs()), p, x))
      ensures completed.None?
    {
      ghost var w := Abs();
      assert w.ctxs[p] == AbsCtx(ctxs[p]);
      assert CtxSafe(w, p) && FlagsAgree(ctxs[p]);
      TimerSafe(w, p, None, {});
      PutCtx(p, ctxs[p].(timer := None));
      if !ctxs[p].hasWorker || ctxs[p].req.None? {
        return;
      }
      match x {
        case NotDue(d) => PutCtx(p, ctxs[p].(timer := Some(d)));
        case Due(steering, result) => TimeoutDue(p, ctxs[p].req.value, steering, result);
      }
    }

    // ----- Runs ----------------------------------------------------------------------------------------------

    /** One event of the loop. */
    method Dispatch(ev: Event)
      requires State().Some? && Safe(Abs()) && Armed(Abs(), {}) && completed.None? && !udpReadActive
      modifies this
      ensures State() == Some(Step(old(Abs()), ev))
      ensures completed.None? && !udpReadActive
    {
      match ev {
        case HttpEvent(acts) => RunPhases(acts);
        case RequestTimer(p, x) =>
          assert p in ctxs ==> Abs().ctxs[p] == AbsCtx(ctxs[p]);
          if p in ctxs && ctxs[p].timer.Some? {
            TimeoutHandler(p, x);
          }
        case UdpReadable(input) =>
          if published {
            var _ := UdpReadHandler(input);
          }
        case RebindTimer(candidate) =>
          if rebindScheduled {
            RebindHandler(candidate);
          }
      }
    }

    /** Every run: the counters and flags agree at every event boundary, the invariant of the
        machine holds, no read batch is active and no stack cell is left behind. */
    method RunEvents(events: seq<Event>)
      requires State().Some? && Safe(Abs()) && Armed(Abs(), {}) && completed.None? && !udpReadActive
      modifies this
      ensures State() == Some(Run(old(Abs()), events))
      ensures Safe(Abs()) && Armed(Abs(), {}) && completed.None? && !udpReadActive
      ensures inflight == |live|
      ensures forall p | p in ctxs :: FlagsAgree(ctxs[p]) && !ctxs[p].observed
    {
      var i := 0;
      while i < |events|
        invariant 0 <= i <= |events|
        invariant State().Some? && Safe(Abs()) && Armed(Abs(), {}) && completed.None? && !udpReadActive
        invariant Run(old(Abs()), events) == Run(Abs(), events[i..])
      {
        StepSafe(Abs(), events[i]);
        assert events[i..][0] == events[i] && events[i..][1..] == events[i + 1..];
        Dispatch(events[i]);
        i := i + 1;
      }
      Boundary();
    }

    /** What agreement means at an event boundary. */
    lemma Boundary()
      requires State().Some? && Safe(Abs()) && completed.None?
      ensures inflight == |live|
      ensures forall p | p in ctxs :: FlagsAgree(ctxs[p]) && !ctxs[p].observed
    {
      forall p | p in ctxs ensures FlagsAgree(ctxs[p]) && !ctxs[p].observed {
        assert FlagsAgree(ctxs[p]) && PointersAgree(completed, ctxs, reqs, p);
      }
      InflightIsWaiting();
      WaitingIsLive(Abs());
    }
  }
}
