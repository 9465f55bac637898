/**
 The source port over whole runs: as long as every steering feedback keeps the port, no rebind is
 wanted and the endpoint stays; feedback that does not keep it has the endpoint replaced.
 */
module AdmissionSteering {
  import opened Wrappers
  import opened Admission
  import S = AdmissionSafety
  import T = AdmissionTheorems
  import M = AdmissionMeaning

  ghost predicate ClientKeeps(acts: seq<ClientAct>) {
    forall a | a in acts && a.SteeringFeedback? :: a.keepPort
  }

  /** Every steering feedback in the event keeps the port. */
  ghost predicate EventKeeps(ev: Event) {
    match ev
    case HttpEvent(_) => true
    case RequestTimer(_, NotDue(_)) => true
    case RequestTimer(_, Due(steering, _)) => false !in steering
    case UdpReadable(input) => forall d | d in input && d.Datagram? :: ClientKeeps(d.acts)
    case RebindTimer(_) => true
  }

  /** No rebind is wanted in either world, and the endpoint is the same. */
  ghost predicate SamePort(w: World, w': World) {
    !w.pending && !w'.pending && w'.endpoint == w.endpoint
  }

  // ----- Contexts and requests -----------------------------------------------------------------

  lemma DropPort(w: World, p: CtxPtr, cancel: bool)
    requires !w.pending && p in w.ctxs
    ensures SamePort(w, DropCheck(w, p, cancel)) && ScheduleRebind(DropCheck(w, p, cancel), 0) == DropCheck(w, p, cancel)
  {
  }

  lemma TeardownPort(w: World, p: CtxPtr, completed: Option<Handle>, cancel: bool)
    requires !w.pending && p in w.ctxs
    ensures SamePort(w, Teardown(w, p, completed, cancel))
  {
    DropPort(w, p, cancel);
  }

  lemma CleanupPort(w: World, p: CtxPtr)
    requires !w.pending && p in w.ctxs
    ensures SamePort(w, Cleanup(w, p))
  {
    var w0 := SetBook(w, p, S.Detached(w.ctxs[p]).book);
    TeardownPort(w0, p, None, true);
    var w1 := Teardown(w0, p, None, true);
    assert Cleanup(w, p) == SetCtx(w1, p, w1.ctxs[p].(attached := false));
  }

  lemma {:induction false} CleanupsPort(w: World, cleanups: seq<CtxPtr>)
    requires !w.pending
    ensures SamePort(w, RunCleanups(w, cleanups))
    decreases |cleanups|
  {
    if cleanups != [] {
      if cleanups[0] in w.ctxs {
        CleanupPort(w, cleanups[0]);
        CleanupsPort(Cleanup(w, cleanups[0]), cleanups[1..]);
      } else {
        CleanupsPort(w, cleanups[1..]);
      }
    }
  }

  lemma FreePort(w: World, r: ReqId, i: LogInput)
    requires !w.pending && r in w.reqs
    ensures SamePort(w, Free(w, r, i))
  {
    CleanupsPort(w, w.reqs[r].cleanups);
    LogPort(Terminate(w, r), r, i);
  }

  lemma LogPort(w: World, r: ReqId, i: LogInput)
    requires !w.pending && r in w.reqs
    ensures SamePort(w, LogPhase(w, r, i))
  {
  }

  // ----- Entering the handler --------------------------------------------------------------------

  lemma EnterPort(w: World, r: ReqId, conf: EntryConf, e: Entry)
    requires !w.pending && r in w.reqs
    ensures SamePort(w, Enter(w, r, conf, e).0)
  {
    if !M.Bypassed(conf) && e.ctx.Some? {
      NewContextPort(Recover(w, r), r, e.ctx.value, conf, e);
    }
  }

  lemma NewContextPort(w: World, r: ReqId, p: CtxPtr, conf: EntryConf, e: Entry)
    requires !w.pending && r in w.reqs
    ensures SamePort(w, NewContext(w, r, p, conf, e).0)
  {
    if e.cleanupOk && (w.published || e.initOk) {
      S.WithWorkerFields(w, r, p, conf, e);
      if conf.admission {
        AdmitPort(S.WithWorker(w, r, p, conf, conf.report && e.reportBuilt), r, p, e);
      }
    } else {
      S.RegisteredTwice(w, r, p, conf.admission);
    }
  }

  lemma AdmitPort(w: World, r: ReqId, p: CtxPtr, e: Entry)
    requires !w.pending && r in w.reqs && p in w.ctxs
    ensures SamePort(w, Admit(w, r, p, e).0)
  {
    if e.build.Built? && e.start.StartedCheck? {
      StartPort(w, r, p, w.ctxs[p].book.(guards := e.build.guards, resources := e.build.resources), e);
    }
  }

  lemma StartPort(w: World, r: ReqId, p: CtxPtr, b: Book, e: Entry)
    requires !w.pending && r in w.reqs && p in w.ctxs && e.start.StartedCheck?
    ensures SamePort(w, StartCheck(w, r, p, b, e).0)
  {
    TeardownPort(S.StartedWorld(w, r, p, b, e.start.handle, e.start.deadline), p, None, true);
  }

  lemma ActPort(w: World, a: Act)
    requires !w.pending
    ensures SamePort(w, DoAct(w, a))
  {
    if LegalAct(w, a) {
      match a
      case EnterHandler(r, conf, e) => EnterPort(w, r, conf, e);
      case TerminateRequest(r) => CleanupsPort(w, w.reqs[r].cleanups);
      case FreeRequest(r, i) => FreePort(w, r, i);
      case _ =>
    }
  }

  lemma {:induction false} ActsPort(w: World, acts: seq<Act>)
    requires !w.pending
    ensures SamePort(w, RunActs(w, acts))
    decreases |acts|
  {
    if acts != [] {
      ActPort(w, acts[0]);
      ActsPort(DoAct(w, acts[0]), acts[1..]);
    }
  }

  // ----- Completions, datagrams and timers ---------------------------------------------------------

  lemma ResumePort(w: World, r: ReqId, h: Handle, k: Completion, resumed: seq<Act>)
    requires !w.pending
    ensures SamePort(w, ResumeAfter(w, r, h, k, resumed))
  {
    var target := CallbackTarget(w, r, h);
    if target.Some? {
      TeardownPort(w, target.value, Some(h), false);
      ActsPort(RateCallback(w, r, h, k), resumed);
    }
  }

  lemma DeliverPort(w: World, h: Handle, k: Completion, resumed: seq<Act>)
    requires !w.pending && h in w.live
    ensures SamePort(w, Deliver(w, h, k, resumed))
  {
    ResumePort(Log(w.(live := w.live - {h}), ClientDone(h)), w.live[h], h, k, resumed);
  }

  lemma GiveUpPort(w: World, r: ReqId, h: Handle, status: ClientStatus, resumed: seq<Act>)
    requires !w.pending
    ensures SamePort(w, GiveUp(w, r, h, status, resumed))
  {
    ResumePort(ClientCancel(w, h), r, h, Completion(status, None), resumed);
  }

  lemma {:induction false} ClientPort(w: World, acts: seq<ClientAct>)
    requires !w.pending && ClientKeeps(acts)
    ensures SamePort(w, RunClient(w, acts))
    decreases |acts|
  {
    if acts != [] {
      var w1 := DoClientAct(w, acts[0]);
      if acts[0].Complete? {
        if acts[0].h in w.live {
          DeliverPort(w, acts[0].h, acts[0].completion, acts[0].resumed);
        }
      } else {
        assert acts[0].keepPort;
        M.FeedbackMeans(w, true);
      }
      ClientPort(w1, acts[1..]);
    }
  }

  lemma {:induction false} ReadBatchPort(w: World, input: seq<Recv>, room: nat)
    requires !w.pending && EventKeeps(UdpReadable(input))
    ensures SamePort(w, ReadBatch(w, input, room))
    decreases room
  {
    if room > 0 && input != [] && input[0].Datagram? {
      ClientPort(w, input[0].acts);
      ReadBatchPort(RunClient(w, input[0].acts), input[1..], room - 1);
    }
  }

  lemma {:induction false} SteerAllPort(w: World, steering: seq<bool>)
    requires !w.pending && false !in steering
    ensures SamePort(w, SteerAll(w, steering))
    decreases |steering|
  {
    if steering != [] {
      assert steering[0] in steering && steering[0] != false;
      M.FeedbackMeans(w, true);
      SteerAllPort(w, steering[1..]);
    }
  }

  lemma AtDeadlinePort(w: World, p: CtxPtr, h: Handle, result: OnTimeout)
    requires !w.pending && p in w.ctxs
    ensures SamePort(w, AtDeadline(w, p, h, result))
  {
    match result
    case CompletesNow(k, resumed) => if h in w.live { DeliverPort(w, h, k, resumed); }
    case StaysLive(d) =>
    case ReturnsError(status, resumed) => GiveUpPort(w, w.ctxs[p].owner, h, status, resumed);
    case LosesDeadline(resumed) => GiveUpPort(w, w.ctxs[p].owner, h, ClientError, resumed);
  }

  lemma TimerPort(w: World, p: CtxPtr, x: Expiry)
    requires !w.pending && p in w.ctxs && EventKeeps(RequestTimer(p, x))
    ensures SamePort(w, TimerFires(w, p, x))
  {
    var c := w.ctxs[p];
    if c.hasWorker && c.status.Waiting? && x.Due? {
      var w1 := SetCtx(w, p, c.(timer := None));
      SteerAllPort(w1, x.steering);
      AtDeadlinePort(SteerAll(w1, x.steering), p, c.status.handle, x.result);
    }
  }

  lemma StepPort(w: World, ev: Event)
    requires !w.pending && EventKeeps(ev)
    ensures SamePort(w, Step(w, ev))
  {
    if LegalEvent(w, ev) {
      match ev
      case HttpEvent(acts) => ActsPort(w, acts);
      case RequestTimer(p, x) => TimerPort(w, p, x);
      case UdpReadable(input) => ReadBatchPort(w, input, UDP_READ_BATCH_MAX);
      case RebindTimer(candidate) => M.RebindMeans(w, candidate);
    }
  }

  /** The endpoint changes only after a feedback that does not keep the port: while every feedback
      keeps it, from any world in which no rebind is wanted, the endpoint stays and none is wanted. */
  lemma {:induction false} KeptPortStays(w: World, events: seq<Event>)
    requires !w.pending && forall ev | ev in events :: EventKeeps(ev)
    ensures Run(w, events).endpoint == w.endpoint && !Run(w, events).pending
    decreases |events|
  {
    if events != [] {
      StepPort(w, events[0]);
      KeptPortStays(Step(w, events[0]), events[1..]);
    }
  }

  /** In any run that leaves no check waiting, a feedback that does not keep the port and then the
      rebind event with a new socket replace the endpoint by it, and no rebind is wanted any more; and
      such a feedback always has that event scheduled. */
  lemma UnkeptPortIsReplaced(failOpen: bool, endpoint: Endpoint, events: seq<Event>, next: Endpoint)
    requires M.NoneWaits(Run(Initial(failOpen, endpoint), events))
    requires Run(Initial(failOpen, endpoint), events).published
    ensures
      var w := Run(Initial(failOpen, endpoint), events);
      var w1 := Step(w, UdpReadable([Datagram([SteeringFeedback(false)])]));
      var w2 := Step(w1, RebindTimer(Some(next)));
      && w1.rebindTimer.Some? && w1.endpoint == w.endpoint
      && w2.endpoint == next && !w2.pending && w2.rebindTimer.None?
  {
    var w := Run(Initial(failOpen, endpoint), events);
    var w1 := Steer(w, false);
    M.FeedbackMeans(w, false);
    assert RunClient(w, [SteeringFeedback(false)]) == w1;
    assert Step(w, UdpReadable([Datagram([SteeringFeedback(false)])])) == w1;
    M.RebindMeans(w1, Some(next));
  }
}
