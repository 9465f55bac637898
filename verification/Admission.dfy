/**
 The admission lifecycle of one nginx worker, as an abstract machine.

 Every request context has one status, `Waiting(handle)` or `Idle`; the counters and the
 redundant flags of the program do not exist here. `AdmissionWorker` is the program itself
 and is proved to simulate this machine; `AdmissionSafety` proves what every run keeps.
 */
module Admission {
  import opened Wrappers

  type CtxPtr = nat     // address of an admission context in a request pool
  type ReqId = nat      // a main HTTP request
  type Handle = nat     // address of a started check inside the C client
  type Endpoint = nat   // a UDP source socket

  const REBIND_RETRY_MS: nat := 1000
  const UDP_READ_BATCH_MAX: nat := 64
  const MAX_LATENCY_MS: nat := 0xFFFF_FFFF

  /** What a phase handler returns to nginx. */
  datatype Rc = Proceed | Declined | Again | TooManyRequests | ServerError

  datatype Outcome =
    | NoOutcome | WaitingOutcome | ValidAllow | ValidDeny
    | FailOpen | FailClose | InternalError | Aborted

  datatype Cause =
    | NoCause | ValidVerdict | StartFailure | DependencyError
    | Timeout | CardinalityMismatch | NginxError | ClientAbort

  datatype Verdict = Verdict(decision: Rc, outcome: Outcome, cause: Cause)

  datatype ClientStatus = ClientOk | ClientTimeout | ClientError

  datatype RateResult = RateResult(success: bool, guardsPassed: seq<bool>, deficits: seq<nat>)

  /** The arguments of a completion callback. */
  datatype Completion = Completion(status: ClientStatus, result: Option<RateResult>)

  // ----- Judging a completion ------------------------------------------------------------

  predicate Delivered(k: Completion) {
    k.status.ClientOk? && k.result.Some?
  }

  predicate ExactCardinality(k: Completion, guards: nat, resources: nat)
    requires Delivered(k)
  {
    |k.result.value.guardsPassed| == guards && |k.result.value.deficits| == resources
  }

  /** A valid allow: the client said success, every guard passed and no resource is short. */
  ghost predicate Allows(k: Completion)
    requires Delivered(k)
  {
    var res := k.result.value;
    && res.success
    && (forall i | 0 <= i < |res.guardsPassed| :: res.guardsPassed[i])
    && (forall i | 0 <= i < |res.deficits| :: res.deficits[i] == 0)
  }

  function FailDecision(failOpen: bool): Rc {
    if failOpen then Proceed else TooManyRequests
  }

  function FailOutcome(failOpen: bool): Outcome {
    if failOpen then FailOpen else FailClose
  }

  function FailVerdict(failOpen: bool, cause: Cause): Verdict {
    Verdict(FailDecision(failOpen), FailOutcome(failOpen), cause)
  }

  const InternalVerdict := Verdict(ServerError, InternalError, NginxError)

  ghost function Judge(k: Completion, guards: nat, resources: nat, failOpen: bool): Verdict {
    if !Delivered(k) then
      FailVerdict(failOpen, if k.status.ClientTimeout? then Timeout else DependencyError)
    else if !ExactCardinality(k, guards, resources) then
      FailVerdict(failOpen, CardinalityMismatch)
    else if Allows(k) then
      Verdict(Proceed, ValidAllow, ValidVerdict)
    else
      Verdict(TooManyRequests, ValidDeny, ValidVerdict)
  }

  // ----- State ---------------------------------------------------------------------------

  datatype Status = Idle | Waiting(handle: Handle)

  /** The part of a context that the program and this machine share. `basis` and `reports`
      are history: the completion that settled the context, and the reports sent for it. */
  datatype Book = Book(
    guards: nat, resources: nat,
    done: bool, verdict: Verdict, basis: Option<Completion>,
    latEnabled: bool, latSent: bool, reports: nat)

  datatype Ctx = Ctx(
    owner: ReqId,         // the request whose pool holds the context
    attached: bool,       // the context still points at its request
    hasWorker: bool,
    status: Status,
    timer: Option<nat>,   // the armed delay, in milliseconds
    book: Book)

  datatype Req = Req(
    slot: Option<CtxPtr>,   // module context slot; an internal redirect clears it
    cleanups: seq<CtxPtr>,  // admission contexts on the cleanup list, latest first
    closed: bool,           // the cleanup list has run
    others: nat,            // references that nginx itself holds on the request
    checks: nat)            // history: rate checks started for the request

  /** What an observer of the worker sees, in order. */
  datatype Obs =
    | Started(h: Handle)
    | ClientDone(h: Handle)                   // the client retired it and called back
    | Cancelled(h: Handle)                    // r_client_cancel_request
    | Settled(h: Handle)                      // the context gave up the check
    | Replaced(from: Endpoint, to: Endpoint) // the UDP endpoint was swapped
    | Reported(outcome: Outcome, ms: nat)     // a latency report was sent

  /** What never changes: the failure policy, and whether nginx suspends a request with a pending
      check, that is, makes no internal redirect of it. */
  datatype Env = Env(failOpen: bool, suspends: bool)

  datatype World = World(
    env: Env,
    published: bool,
    ctxs: map<CtxPtr, Ctx>,
    reqs: map<ReqId, Req>,
    live: map<Handle, ReqId>,   // checks the C client holds, with their callback argument
    pending: bool,
    rebindTimer: Option<nat>,
    endpoint: Endpoint,
    history: seq<Obs>)

  ghost function WaitingSet(w: World): set<CtxPtr> {
    set p | p in w.ctxs && w.ctxs[p].status.Waiting?
  }

  ghost function Log(w: World, o: Obs): World {
    w.(history := w.history + [o])
  }

  ghost function SetCtx(w: World, p: CtxPtr, c: Ctx): World {
    w.(ctxs := w.ctxs[p := c])
  }

  ghost function SetBook(w: World, p: CtxPtr, b: Book): World
    requires p in w.ctxs
  {
    SetCtx(w, p, w.ctxs[p].(book := b))
  }

  ghost function SetReq(w: World, r: ReqId, q: Req): World {
    w.(reqs := w.reqs[r := q])
  }

  // ----- Rebinding the UDP endpoint --------------------------------------------------------

  ghost function ScheduleRebind(w: World, delay: nat): World {
    if !w.pending || WaitingSet(w) != {} || w.rebindTimer.Some? then w
    else w.(rebindTimer := Some(delay))
  }

  ghost function Steer(w: World, keepPort: bool): World {
    if keepPort then w else ScheduleRebind(w.(pending := true), 0)
  }

  ghost function RebindFires(w: World, candidate: Option<Endpoint>): World {
    var w1 := w.(rebindTimer := None);
    if !w.pending || WaitingSet(w) != {} then w1
    else if candidate.None? then ScheduleRebind(w1, REBIND_RETRY_MS)
    else Log(w1.(endpoint := candidate.value, pending := false), Replaced(w.endpoint, candidate.value))
  }

  // ----- Giving up a check -----------------------------------------------------------------

  /** The client forgets a check without calling back. */
  ghost function ClientCancel(w: World, h: Handle): World {
    Log(w.(live := w.live - {h}), Cancelled(h))
  }

  ghost function OwnedCheck(c: Ctx): Option<Handle> {
    if c.status.Waiting? then Some(c.status.handle) else None
  }

  /** Context `p` gives up its check, if it has one; with `cancel` the client is told. */
  ghost function DropCheck(w: World, p: CtxPtr, cancel: bool): (w': World)
    requires p in w.ctxs
    ensures w.history <= w'.history && w'.env == w.env
  {
    var owned := OwnedCheck(w.ctxs[p]);
    w.(ctxs := w.ctxs[p := w.ctxs[p].(status := Idle, timer := None)],
       live := if owned.Some? && cancel then w.live - {owned.value} else w.live,
       history := if owned.None? then w.history
                  else if cancel then w.history + [Cancelled(owned.value)] + [Settled(owned.value)]
                  else w.history + [Settled(owned.value)])
  }

  /** Teardown. Without `cancel`, only the context that owns `completed` is affected. */
  ghost function Teardown(w: World, p: CtxPtr, completed: Option<Handle>, cancel: bool): (w': World)
    requires p in w.ctxs
    ensures w.history <= w'.history && w'.env == w.env
  {
    if !cancel && OwnedCheck(w.ctxs[p]) != completed then w
    else if w.ctxs[p].hasWorker then ScheduleRebind(DropCheck(w, p, cancel), 0)
    else DropCheck(w, p, cancel)
  }

  /** The cleanup handler of one context. */
  ghost function Cleanup(w: World, p: CtxPtr): (w': World)
    requires p in w.ctxs
    ensures w'.ctxs.Keys == w.ctxs.Keys && w'.reqs == w.reqs
    ensures w.history <= w'.history && w'.env == w.env
  {
    var c := w.ctxs[p];
    var v := c.book.verdict;
    var v' := if v.outcome.WaitingOutcome? then v.(outcome := Aborted, cause := ClientAbort) else v;
    var w1 := Teardown(SetBook(w, p, c.book.(verdict := v')), p, None, true);
    SetCtx(w1, p, w1.ctxs[p].(attached := false))
  }

  // ----- Completion ------------------------------------------------------------------------

  /** The context that a completion callback for `r` and `h` acts on. */
  ghost function CallbackTarget(w: World, r: ReqId, h: Handle): Option<CtxPtr> {
    if r !in w.reqs || w.reqs[r].slot.None? then None
    else
      var p := w.reqs[r].slot.value;
      if p in w.ctxs && w.ctxs[p].hasWorker && w.ctxs[p].status == Waiting(h) then Some(p) else None
  }

  /** rn_rate_cb up to the point where it resumes the phases of `r`. */
  ghost function RateCallback(w: World, r: ReqId, h: Handle, k: Completion): World {
    var target := CallbackTarget(w, r, h);
    if target.None? then w
    else
      var p := target.value;
      var w1 := Teardown(w, p, Some(h), false);
      var b := w.ctxs[p].book;
      SetBook(w1, p, b.(verdict := Judge(k, b.guards, b.resources, w.env.failOpen),
                        basis := Some(k), done := true))
  }

  // ----- Entering the phase handler --------------------------------------------------------

  datatype EntryConf = EntryConf(isMain: bool, admission: bool, report: bool, mainEnabled: bool)

  /** The outcome of expanding the rules and rendering their values. */
  datatype Build = NoRules | BuildFailed | BuildInternalError | Built(guards: nat, resources: nat)

  datatype Start = StartFailed | StartedCheck(handle: Handle, deadline: Option<nat>)

  /** Everything the handler learns from nginx, the pool allocator and the C client. */
  datatype Entry = Entry(
    ctx: Option<CtxPtr>, cleanupOk: bool, initOk: bool, reportBuilt: bool,
    build: Build, start: Start, readEventOk: bool)

  ghost function FirstAttached(w: World, cleanups: seq<CtxPtr>): Option<CtxPtr> {
    if cleanups == [] then None
    else if cleanups[0] in w.ctxs && w.ctxs[cleanups[0]].attached then Some(cleanups[0])
    else FirstAttached(w, cleanups[1..])
  }

  /** rn_get_request_ctx: the slot, or else the cleanup list, which then refills the slot. */
  ghost function Recover(w: World, r: ReqId): (w': World)
    requires r in w.reqs
    ensures w' == w.(reqs := w'.reqs) && w'.reqs.Keys == w.reqs.Keys
  {
    var q := w.reqs[r];
    var found := FirstAttached(w, q.cleanups);
    if q.slot.Some? || found.None? then w else SetReq(w, r, q.(slot := found))
  }

  function InitialBook(failOpen: bool, admission: bool): Book {
    Book(0, 0, false,
         Verdict(Declined, if admission then FailOutcome(failOpen) else NoOutcome, NoCause), None,
         false, false, 0)
  }

  /** Records a verdict that was reached without a check. */
  ghost function Finish(w: World, p: CtxPtr, v: Verdict): (res: (World, Rc))
    requires p in w.ctxs
    ensures w.history <= res.0.history && res.0.env == w.env
  {
    (SetBook(w, p, w.ctxs[p].book.(done := true, verdict := v)), v.decision)
  }

  ghost function Enter(w: World, r: ReqId, conf: EntryConf, e: Entry): (res: (World, Rc))
    requires r in w.reqs
    ensures w.history <= res.0.history && res.0.env == w.env
  {
    if !conf.isMain then (w, Declined)
    else
      var w1 := Recover(w, r);
      if !conf.admission && !conf.report then (w1, Declined)
      else if !conf.mainEnabled then (w1, Declined)
      else EnterFound(w1, r, conf, e)
  }

  /** A context that the request has is reused; otherwise it gets one. */
  ghost function EnterFound(w: World, r: ReqId, conf: EntryConf, e: Entry): (res: (World, Rc))
    requires r in w.reqs
    ensures w.history <= res.0.history && res.0.env == w.env
  {
    var slot := w.reqs[r].slot;
    if slot.Some? && slot.value in w.ctxs && w.ctxs[slot.value].book.done then
      (w, w.ctxs[slot.value].book.verdict.decision)
    else if slot.Some? && slot.value in w.ctxs && w.ctxs[slot.value].status.Waiting? then
      (w, Again)
    else if e.ctx.None? then (w, ServerError)
    else NewContext(w, r, e.ctx.value, conf, e)
  }

  /** A fresh context and its registration for cleanup. */
  ghost function NewContext(w: World, r: ReqId, p: CtxPtr, conf: EntryConf, e: Entry): (res: (World, Rc))
    requires r in w.reqs
    ensures w.history <= res.0.history && res.0.env == w.env
  {
    var b := InitialBook(w.env.failOpen, conf.admission);
    var q := w.reqs[r].(slot := Some(p));
    var w1 := SetReq(SetCtx(w, p, Ctx(r, true, false, Idle, None, b)), r, q);
    if !e.cleanupOk then
      (SetBook(w1, p, b.(done := true, verdict := InternalVerdict.(decision := Declined))), ServerError)
    else AttachWorker(SetReq(w1, r, q.(cleanups := [p] + q.cleanups)), r, p, conf, e)
  }

  /** The worker, and the report that belongs to the request. */
  ghost function AttachWorker(w: World, r: ReqId, p: CtxPtr, conf: EntryConf, e: Entry): (res: (World, Rc))
    requires r in w.reqs && p in w.ctxs
    ensures w.history <= res.0.history && res.0.env == w.env
  {
    var b := w.ctxs[p].book;
    if !w.published && !e.initOk then
      Finish(w, p, Verdict(if conf.admission then FailDecision(w.env.failOpen) else Declined,
                           b.verdict.outcome, DependencyError))
    else
      var c := w.ctxs[p].(hasWorker := true, book := b.(latEnabled := conf.report && e.reportBuilt));
      var w1 := SetCtx(w.(published := true), p, c);
      if !conf.admission then Finish(w1, p, c.book.verdict) else Admit(w1, r, p, e)
  }

  /** Rule expansion and the start of the check. */
  ghost function Admit(w: World, r: ReqId, p: CtxPtr, e: Entry): (res: (World, Rc))
    requires r in w.reqs && p in w.ctxs
    ensures w.history <= res.0.history && res.0.env == w.env
  {
    match e.build
    case NoRules => Finish(w, p, Verdict(Declined, NoOutcome, NoCause))
    case BuildFailed => Finish(w, p, FailVerdict(w.env.failOpen, DependencyError))
    case BuildInternalError => Finish(w, p, InternalVerdict)
    case Built(guards, resources) =>
      var b := w.ctxs[p].book.(guards := guards, resources := resources);
      if e.start.StartFailed? then
        Finish(SetBook(w, p, b), p, FailVerdict(w.env.failOpen, StartFailure))
      else
        StartCheck(w, r, p, b, e)
  }

  ghost function StartCheck(w: World, r: ReqId, p: CtxPtr, b: Book, e: Entry): (res: (World, Rc))
    requires r in w.reqs && p in w.ctxs && e.start.StartedCheck?
    ensures w.history <= res.0.history && res.0.env == w.env
  {
    var h := e.start.handle;
    var c := w.ctxs[p].(status := Waiting(h), timer := e.start.deadline,
                        book := b.(verdict := b.verdict.(outcome := WaitingOutcome)));
    var q := w.reqs[r].(checks := w.reqs[r].checks + 1);
    var w1 := Log(SetReq(SetCtx(w, p, c), r, q).(live := w.live[h := r]), Started(h));
    if e.readEventOk then (w1, Again)
    else Finish(Teardown(w1, p, None, true), p, InternalVerdict)
  }

  // ----- Reading the verdict variable; reporting latency -----------------------------------

  /** `$ratelimitly_verdict`: Some(true) for allow, Some(false) for deny. */
  ghost function VerdictVariable(w: World, r: ReqId): Option<bool>
    requires r in w.reqs
  {
    var slot := Recover(w, r).reqs[r].slot;
    if slot.None? || slot.value !in w.ctxs then None
    else match w.ctxs[slot.value].book.verdict.outcome
      case ValidAllow => Some(true)
      case ValidDeny => Some(false)
      case _ => None
  }

  predicate Reportable(o: Outcome) {
    o.NoOutcome? || o.ValidAllow? || o.FailOpen?
  }

  function Clamp(elapsed: int): nat {
    if elapsed <= 0 then 1 else if elapsed > MAX_LATENCY_MS then MAX_LATENCY_MS else elapsed
  }

  /** What the log phase knows: is the connection broken, and the elapsed time if a clock exists. */
  datatype LogInput = LogInput(broken: bool, elapsed: Option<int>)

  /** The log handler on one context: what it writes, and the report it sends, if any. */
  function ReportStep(b: Book, hasWorker: bool, i: LogInput): (Book, Option<Obs>) {
    if !b.latEnabled || b.latSent then (b, None)
    else if i.broken then
      (b.(latSent := true, verdict := b.verdict.(outcome := Aborted, cause := ClientAbort)), None)
    else if !Reportable(b.verdict.outcome) || !hasWorker || i.elapsed.None? then
      (b.(latSent := true), None)
    else
      (b.(latSent := true, reports := b.reports + 1),
       Some(Reported(b.verdict.outcome, Clamp(i.elapsed.value))))
  }

  ghost function LogPhase(w: World, r: ReqId, i: LogInput): World
    requires r in w.reqs
  {
    var slot := w.reqs[r].slot;
    if slot.None? || slot.value !in w.ctxs then w
    else
      var p := slot.value;
      var (b, o) := ReportStep(w.ctxs[p].book, w.ctxs[p].hasWorker, i);
      if o.Some? then Log(SetBook(w, p, b), o.value) else SetBook(w, p, b)
  }

  // ----- What nginx does to a request --------------------------------------------------------

  ghost function RunCleanups(w: World, cleanups: seq<CtxPtr>): (w': World)
    ensures w'.ctxs.Keys == w.ctxs.Keys && w'.reqs == w.reqs
    ensures w.history <= w'.history && w'.env == w.env
    decreases |cleanups|
  {
    if cleanups == [] then w
    else if cleanups[0] !in w.ctxs then RunCleanups(w, cleanups[1..])
    else RunCleanups(Cleanup(w, cleanups[0]), cleanups[1..])
  }

  /** nginx runs the cleanup list of `r` and empties it. */
  ghost function Terminate(w: World, r: ReqId): World
    requires r in w.reqs
  {
    SetReq(RunCleanups(w, w.reqs[r].cleanups), r, w.reqs[r].(cleanups := [], closed := true))
  }

  /** The pool of `r` is destroyed, and every context in it with it. */
  ghost function Release(w: World, r: ReqId): World {
    w.(ctxs := map p | p in w.ctxs && w.ctxs[p].owner != r :: w.ctxs[p], reqs := w.reqs - {r})
  }

  ghost function Free(w: World, r: ReqId, i: LogInput): World
    requires r in w.reqs
  {
    Release(LogPhase(Terminate(w, r), r, i), r)
  }

  ghost predicate HasWaiting(w: World, r: ReqId) {
    exists p :: p in w.ctxs && w.ctxs[p].owner == r && w.ctxs[p].status.Waiting?
  }

  /** Everything nginx may do while it runs the phases of some request. */
  datatype Act =
    | NewRequest(r: ReqId)
    | EnterHandler(r: ReqId, conf: EntryConf, entry: Entry)
    | ReadVerdict(r: ReqId)
    | Redirect(r: ReqId)                 // ngx_http_internal_redirect
    | SetRefs(r: ReqId, others: nat)
    | TerminateRequest(r: ReqId)
    | FreeRequest(r: ReqId, log: LogInput)

  /** The rules nginx, the allocator and the client follow. A started check has a handle that
      is not in use and a deadline; a new context has an address that is not in use. */
  ghost predicate LegalEntry(w: World, e: Entry) {
    && (e.ctx.Some? ==> e.ctx.value !in w.ctxs)
    && (e.start.StartedCheck? ==> e.start.handle !in w.live && e.start.deadline.Some?)
  }

  /** nginx enters no handler of a request whose cleanup list has run, frees a request only at
      reference count zero and, if it suspends requests, redirects none with a pending check. */
  ghost predicate LegalAct(w: World, a: Act) {
    match a
    case NewRequest(r) => r !in w.reqs
    case EnterHandler(r, conf, e) => r in w.reqs && !w.reqs[r].closed && LegalEntry(w, e)
    case ReadVerdict(r) => r in w.reqs
    case Redirect(r) => r in w.reqs && (w.env.suspends ==> !HasWaiting(w, r))
    case SetRefs(r, others) => r in w.reqs
    case TerminateRequest(r) => r in w.reqs
    case FreeRequest(r, i) => r in w.reqs && w.reqs[r].others == 0 && !HasWaiting(w, r)
  }

  ghost function DoAct(w: World, a: Act): (w': World)
    ensures w.history <= w'.history && w'.env == w.env
  {
    if !LegalAct(w, a) then w
    else match a
      case NewRequest(r) => SetReq(w, r, Req(None, [], false, 1, 0))
      case EnterHandler(r, conf, e) => Enter(w, r, conf, e).0
      case ReadVerdict(r) => Recover(w, r)
      case Redirect(r) => SetReq(w, r, w.reqs[r].(slot := None))
      case SetRefs(r, others) => SetReq(w, r, w.reqs[r].(others := others))
      case TerminateRequest(r) => Terminate(w, r)
      case FreeRequest(r, i) => Free(w, r, i)
  }

  ghost function RunActs(w: World, acts: seq<Act>): (w': World)
    ensures w.history <= w'.history && w'.env == w.env
    decreases |acts|
  {
    if acts == [] then w else RunActs(DoAct(w, acts[0]), acts[1..])
  }

  // ----- Client behaviour ------------------------------------------------------------------

  /** What the client does while it consumes one datagram. */
  datatype ClientAct =
    | SteeringFeedback(keepPort: bool)
    | Complete(h: Handle, completion: Completion, resumed: seq<Act>)

  /** The client unlinks a live check, then calls back; the callback resumes the phases. */
  ghost function Deliver(w: World, h: Handle, k: Completion, resumed: seq<Act>): (w': World)
    requires h in w.live
    ensures w.history <= w'.history && w'.env == w.env
  {
    var w1 := Log(w.(live := w.live - {h}), ClientDone(h));
    ResumeAfter(w1, w.live[h], h, k, resumed)
  }

  /** The whole callback. It resumes the phases only if it owns the check. */
  ghost function ResumeAfter(w: World, r: ReqId, h: Handle, k: Completion, resumed: seq<Act>): (w': World)
    ensures w.history <= w'.history && w'.env == w.env
  {
    if CallbackTarget(w, r, h).None? then w
    else RunActs(RateCallback(w, r, h, k), resumed)
  }

  ghost function DoClientAct(w: World, a: ClientAct): (w': World)
    ensures w.history <= w'.history && w'.env == w.env
  {
    match a
    case SteeringFeedback(keep) => Steer(w, keep)
    case Complete(h, k, resumed) => if h in w.live then Deliver(w, h, k, resumed) else w
  }

  ghost function RunClient(w: World, acts: seq<ClientAct>): (w': World)
    ensures w.history <= w'.history && w'.env == w.env
    decreases |acts|
  {
    if acts == [] then w else RunClient(DoClientAct(w, acts[0]), acts[1..])
  }

  datatype Recv = Datagram(acts: seq<ClientAct>) | Empty | ReadError

  /** One read batch: at most 64 datagrams, ending at the first read that yields none. */
  ghost function ReadBatch(w: World, input: seq<Recv>, room: nat): (w': World)
    ensures w.history <= w'.history && w'.env == w.env
    decreases room
  {
    if room == 0 || input == [] || !input[0].Datagram? then w
    else ReadBatch(RunClient(w, input[0].acts), input[1..], room - 1)
  }

  // ----- The request timer -----------------------------------------------------------------

  /** What r_client_on_timeout does at a due deadline. */
  datatype OnTimeout =
    | CompletesNow(completion: Completion, resumed: seq<Act>)
    | StaysLive(delay: nat)
    | ReturnsError(status: ClientStatus, resumed1: seq<Act>)
    | LosesDeadline(resumed2: seq<Act>)

  datatype Expiry = NotDue(delay: nat) | Due(steering: seq<bool>, result: OnTimeout)

  ghost function SteerAll(w: World, steering: seq<bool>): (w': World)
    ensures w'.ctxs == w.ctxs && w'.reqs == w.reqs && w'.live == w.live
    ensures w'.history == w.history && w'.env == w.env
    decreases |steering|
  {
    if steering == [] then w else SteerAll(Steer(w, steering[0]), steering[1..])
  }

  /** The handler gives up a check itself: cancel it, then run the callback by hand. */
  ghost function GiveUp(w: World, r: ReqId, h: Handle, status: ClientStatus, resumed: seq<Act>): (w': World)
    ensures w.history <= w'.history && w'.env == w.env
  {
    ResumeAfter(ClientCancel(w, h), r, h, Completion(status, None), resumed)
  }

  ghost function AtDeadline(w: World, p: CtxPtr, h: Handle, result: OnTimeout): (w': World)
    requires p in w.ctxs
    ensures w.history <= w'.history && w'.env == w.env
  {
    match result
    case CompletesNow(k, resumed) => if h in w.live then Deliver(w, h, k, resumed) else w
    case StaysLive(d) => SetCtx(w, p, w.ctxs[p].(timer := Some(d)))
    case ReturnsError(status, resumed) => GiveUp(w, w.ctxs[p].owner, h, status, resumed)
    case LosesDeadline(resumed) => GiveUp(w, w.ctxs[p].owner, h, ClientError, resumed)
  }

  ghost function TimerFires(w: World, p: CtxPtr, x: Expiry): (w': World)
    requires p in w.ctxs
    ensures w.history <= w'.history && w'.env == w.env
  {
    var c := w.ctxs[p];
    var w1 := SetCtx(w, p, c.(timer := None));
    if !c.hasWorker || c.status.Idle? then w1
    else
      var h := c.status.handle;
      match x
      case NotDue(d) => SetCtx(w1, p, c.(timer := Some(d)))
      case Due(steering, result) =>
        AtDeadline(SteerAll(w1, steering), p, h, result)
  }

  // ----- Events ----------------------------------------------------------------------------

  datatype Event =
    | HttpEvent(acts: seq<Act>)
    | RequestTimer(p: CtxPtr, expiry: Expiry)
    | UdpReadable(input: seq<Recv>)
    | RebindTimer(candidate: Option<Endpoint>)

  /** A timer event needs an armed timer. */
  ghost predicate LegalEvent(w: World, ev: Event) {
    match ev
    case HttpEvent(_) => true
    case RequestTimer(p, x) => p in w.ctxs && w.ctxs[p].timer.Some?
    case UdpReadable(_) => w.published
    case RebindTimer(_) => w.rebindTimer.Some?
  }

  /** One event of the loop; an event that cannot occur in `w` is skipped. */
  ghost function Step(w: World, ev: Event): (w': World)
    ensures w.history <= w'.history && w'.env == w.env
  {
    if !LegalEvent(w, ev) then w
    else match ev
      case HttpEvent(acts) => RunActs(w, acts)
      case RequestTimer(p, x) => TimerFires(w, p, x)
      case UdpReadable(input) => ReadBatch(w, input, UDP_READ_BATCH_MAX)
      case RebindTimer(candidate) => RebindFires(w, candidate)
  }

  ghost function Run(w: World, events: seq<Event>): (w': World)
    ensures w.history <= w'.history && w'.env == w.env
    decreases |events|
  {
    if events == [] then w else Run(Step(w, events[0]), events[1..])
  }

  ghost function Initial(failOpen: bool, endpoint: Endpoint): World {
    World(Env(failOpen, true), false, map[], map[], map[], false, None, endpoint, [])
  }
}
