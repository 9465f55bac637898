/**
 The request that is submitted and the result that is judged speak of the same rules: the sizes that
 the handler stores, and that a result must match exactly, are those of the expanded rules.
 */
module Submission {
  import opened Wrappers
  import A = Admission
  import C = Config
  import E = Expansion
  import O = AdmissionOnce
  import S = AdmissionSafety
  import T = AdmissionTheorems
  import W = AdmissionWorker

  /** An outcome of expanding `rules`: a request has the expanded sizes and is not empty, and a
      consistent configuration never comes out without rules. */
  ghost predicate BuildsRules(t: C.Tables, rules: seq<C.Rule>, b: A.Build) {
    match b
    case Built(guards, resources) =>
      guards == |E.FirstSeen(E.Refs(rules))| && resources == |E.Flatten(t, rules)| && guards + resources > 0
    case NoRules => !(C.Consistent(t) && E.Resolve(t, rules) && rules != [])
    case BuildFailed => true
    case BuildInternalError => true
  }

  method BuildRequest(t: C.Tables, rules: seq<C.Rule>, labelSet: bool, rd: E.Rendering) returns (b: A.Build)
    ensures BuildsRules(t, rules, b)
    ensures C.Consistent(t) && E.Resolve(t, rules) && rules != [] ==>
      (b.Built? <==> rd.arrays && E.AllBuilt(t, rules, rd) && E.LabelFits(rd, labelSet))
  {
    var outcome, resources, idx, entries, guardIdx, text := E.Expand(t, rules, labelSet, rd);
    match outcome {
      case NoRules => return A.Build.NoRules;
      case NothingAsked => return A.Build.NoRules;
      case LookupFailed => return A.Build.BuildFailed;
      case BuildFailed(build) => return if build == E.Internal then A.Build.BuildInternalError else A.Build.BuildFailed;
      case Submit => return A.Build.Built(guardIdx, idx);
    }
  }

  /** The phase handler for a location with these rules: what it takes for the outcome of the
      expansion is the outcome of expanding them, which in a consistent configuration is a request
      exactly if the arrays were granted and everything in it could be built. */
  method HandleRequest(worker: W.Worker, r: A.ReqId, conf: A.EntryConf, e: A.Entry,
                       t: C.Tables, rules: seq<C.Rule>, labelSet: bool, rd: E.Rendering)
    returns (rc: A.Rc, ghost b: A.Build)
    requires worker.State().Some? && S.Safe(worker.Abs()) && S.Armed(worker.Abs(), {})
    requires r in worker.reqs && !worker.reqs[r].closed && A.LegalEntry(worker.Abs(), e)
    modifies worker
    ensures BuildsRules(t, rules, b)
    ensures C.Consistent(t) && E.Resolve(t, rules) && rules != [] ==>
      (b.Built? <==> rd.arrays && E.AllBuilt(t, rules, rd) && E.LabelFits(rd, labelSet))
    ensures
      var res := A.Enter(old(worker.Abs()), r, conf, e.(build := b));
      worker.State() == Some(res.0) && rc == res.1
  {
    var build := BuildRequest(t, rules, labelSet, rd);
    b := build;
    worker.SafePointers(r);
    rc := worker.Handler(r, conf, e.(build := build));
  }

  /** If context `p` waits, it stores the sizes of the expanded rules. */
  ghost predicate StoresSizes(w: A.World, p: A.CtxPtr, t: C.Tables, rules: seq<C.Rule>) {
    p in w.ctxs && w.ctxs[p].status.Waiting? ==>
      && w.ctxs[p].book.guards == |E.FirstSeen(E.Refs(rules))|
      && w.ctxs[p].book.resources == |E.Flatten(t, rules)|
  }

  /** A context that the handler leaves waiting stores the sizes of the expanded rules. */
  lemma WaitingStoresSizes(w: A.World, r: A.ReqId, p: A.CtxPtr, conf: A.EntryConf, e: A.Entry,
                           t: C.Tables, rules: seq<C.Rule>)
    requires r in w.reqs && BuildsRules(t, rules, e.build)
    ensures StoresSizes(A.NewContext(w, r, p, conf, e).0, p, t, rules)
  {
    O.NewContextEntered(w, r, p, conf, e);
  }

  /** A completion of such a context stores a valid allow if and only if it delivers success with one
      passed guard for each guard of the rules and one covered resource for each of their zones. */
  lemma AllowCoversTheRules(w: A.World, p: A.CtxPtr, h: A.Handle, k: A.Completion, o: A.Obs,
                            t: C.Tables, rules: seq<C.Rule>)
    requires S.Safe(w) && p in w.ctxs && w.ctxs[p].status == A.Waiting(h) && o in {A.ClientDone(h), A.Cancelled(h)}
    requires StoresSizes(w, p, t, rules)
    ensures
      var w' := A.RateCallback(A.Log(w.(live := w.live - {h}), o), w.ctxs[p].owner, h, k);
      && p in w'.ctxs
      && (w'.ctxs[p].book.verdict.outcome.ValidAllow? <==>
            && A.Delivered(k) && k.result.value.success
            && |k.result.value.guardsPassed| == |E.FirstSeen(E.Refs(rules))|
            && |k.result.value.deficits| == |E.Flatten(t, rules)|
            && (forall g | 0 <= g < |k.result.value.guardsPassed| :: k.result.value.guardsPassed[g])
            && (forall z | 0 <= z < |k.result.value.deficits| :: k.result.value.deficits[z] == 0))
  {
    T.CompletionDecides(w, p, h, k, o);
  }

  // ----- Whole runs --------------------------------------------------------------------------

  /** The sizes of the rules of the locations that a request may be in. */
  ghost function SizesOf(t: C.Tables, rulesFor: A.ReqId -> set<seq<C.Rule>>): O.Sizes {
    (r: A.ReqId, guards: nat, resources: nat) => exists rules | rules in rulesFor(r) :: HasSizes(t, rules, guards, resources)
  }

  ghost predicate HasSizes(t: C.Tables, rules: seq<C.Rule>, guards: nat, resources: nat) {
    guards == |E.FirstSeen(E.Refs(rules))| && resources == |E.Flatten(t, rules)|
  }

  /** A handler that works with an outcome of expanding one of those rule lists fits. */
  lemma ExpandedEntryFits(t: C.Tables, rulesFor: A.ReqId -> set<seq<C.Rule>>, rules: seq<C.Rule>,
                          r: A.ReqId, conf: A.EntryConf, e: A.Entry)
    requires BuildsRules(t, rules, e.build) && rules in rulesFor(r)
    ensures O.ActFits(A.EnterHandler(r, conf, e), SizesOf(t, rulesFor))
  {
    if e.build.Built? {
      assert HasSizes(t, rules, e.build.guards, e.build.resources);
    }
  }

  /** Success, with one passed guard for each guard of the rules and one covered resource for each of
      their zones. */
  ghost predicate Covers(k: A.Completion, t: C.Tables, rules: seq<C.Rule>) {
    && A.Delivered(k) && A.Allows(k)
    && HasSizes(t, rules, |k.result.value.guardsPassed|, |k.result.value.deficits|)
  }

  /** A context that waits stores the sizes of such rules, and a stored valid allow rests on a result
      that covers such rules. */
  ghost predicate RestsOnRules(c: A.Ctx, t: C.Tables, rulesFor: A.ReqId -> set<seq<C.Rule>>) {
    && (c.status.Waiting? ==>
          exists rules | rules in rulesFor(c.owner) :: HasSizes(t, rules, c.book.guards, c.book.resources))
    && (c.book.verdict.outcome.ValidAllow? ==>
          c.book.basis.Some? && exists rules | rules in rulesFor(c.owner) :: Covers(c.book.basis.value, t, rules))
  }

  lemma SafeRests(w: A.World, p: A.CtxPtr, t: C.Tables, rulesFor: A.ReqId -> set<seq<C.Rule>>)
    requires S.Safe(w) && O.Once(w, SizesOf(t, rulesFor)) && p in w.ctxs
    ensures RestsOnRules(w.ctxs[p], t, rulesFor)
  {
    S.SafeIsCoherent(w, p);
    O.OnceIsSized(w, p, SizesOf(t, rulesFor));
    CoherentRests(w.ctxs[p], t, rulesFor, w.env.failOpen);
  }

  lemma CoherentRests(c: A.Ctx, t: C.Tables, rulesFor: A.ReqId -> set<seq<C.Rule>>, failOpen: bool)
    requires S.Coherent(failOpen, c) && O.CtxSized(c, SizesOf(t, rulesFor))
    ensures RestsOnRules(c, t, rulesFor)
  {
    if c.book.verdict.outcome.ValidAllow? {
      var rules :| rules in rulesFor(c.owner) && HasSizes(t, rules, c.book.guards, c.book.resources);
      assert Covers(c.book.basis.value, t, rules);
    }
  }

  /** In every run whose handler entries work with expanded rules, every context rests on the rules of
      the locations of its request, from the start of its check to the stored verdict. */
  lemma AllowCoversTheRulesInEveryRun(failOpen: bool, endpoint: A.Endpoint, events: seq<A.Event>, p: A.CtxPtr,
                                      t: C.Tables, rulesFor: A.ReqId -> set<seq<C.Rule>>)
    requires forall ev | ev in events :: O.EventFits(ev, SizesOf(t, rulesFor))
    ensures
      var w := A.Run(A.Initial(failOpen, endpoint), events);
      p in w.ctxs ==> RestsOnRules(w.ctxs[p], t, rulesFor)
  {
    var w0 := A.Initial(failOpen, endpoint);
    O.RunOnce(w0, events, SizesOf(t, rulesFor));
    S.InitialSafe(failOpen, endpoint);
    S.RunSafe(w0, events);
    if p in A.Run(w0, events).ctxs {
      SafeRests(A.Run(w0, events), p, t, rulesFor);
    }
  }
}
