/**
 The adapter between the rate-limit client's lookups and the nginx resolver.

 Resolver contexts, request records and their buffers are blocks of an explicit heap: reading or
 freeing a block requires it to be live, so a use after free or a double free does not verify. Which
 allocations are granted, whether nginx fails a lookup, answers it inside the start call or later, and
 what the client does inside its callbacks are arguments of the runs.
 */
module Resolver {
  import opened Wrappers

  /** An address: every block is allocated for one lookup. */
  datatype Ptr = Ptr(lookup: nat, slot: nat)

  datatype Kind = Srv | Addr

  datatype Block =
    | Ctx(data: Option<Ptr>, name: Option<Ptr>, service: Option<Ptr>)
    | Request(user: nat, kind: Kind, nameBuf: Option<Ptr>, serviceBuf: Option<Ptr>, starting: bool, completed: bool)
    | Text(bytes: string)
    | Scratch

  /** What a callback is told. */
  datatype Code = Found | NothingFound | DnsError

  /** Starting: its start call has not returned. Running: its completion callback has not returned.
      Over: it will not be heard of again; it succeeded in starting or not. */
  datatype Phase = Starting | Pending(id: Ptr) | Running(id: Ptr) | Over(started: bool)

  datatype Lookup = Lookup(phase: Phase, calls: seq<Code>)

  /** What nginx hands to a handler, and whether the handler's two working blocks are granted: for a
      service lookup the second stands for the array of records. `usable` is how many addresses survive
      compaction, and `fits` that the size of the working block does not overflow. */
  datatype Reply = Reply(resolved: bool, records: nat, fits: bool, usable: nat, one: bool, two: bool)

  datatype Nginx = Refuses | AnswersNow(reply: Reply) | TakesOn

  /** Which allocations of a start are granted, and what nginx then does. */
  datatype Plan = Plan(context: bool, record: bool, name: bool, service: bool, domain: bool, nginx: Nginx)

  /** The answer has something to tell the client. */
  predicate Tells(kind: Kind, reply: Reply) {
    && reply.resolved && reply.records > 0 && reply.fits && reply.one && reply.two
    && (kind == Addr ==> reply.usable > 0)
  }

  /** Every allocation that the start of this lookup needs is granted. */
  ghost predicate Granted(plan: Plan, kind: Kind, name: string) {
    && plan.context && plan.record && plan.name
    && (Target(kind, name).0.Some? ==> plan.service && plan.domain)
  }

  function Answer(found: bool): Code {
    if found then Found else NothingFound
  }

  /** What the client does inside a callback; each act carries what it does in turn in the callback
      that the act may cause. */
  datatype Act = Begin(kind: Kind, name: string, plan: Plan, inner: seq<Act>) | Drop(id: Option<Ptr>, inner: seq<Act>)

  datatype Event = Acts(acts: seq<Act>) | Answered(id: Ptr, reply: Reply, inner: seq<Act>)

  /** The whole state: the live blocks of each lookup, every lookup ever started, and the ids the
      client may still cancel. */
  datatype Snap = Snap(heap: seq<map<Ptr, Block>>, lookups: seq<Lookup>, held: set<Ptr>)

  /** Called back once, with an answer. */
  ghost predicate AnsweredOnce(l: Lookup) {
    l.calls == [Found] || l.calls == [NothingFound]
  }

  ghost predicate OnStack(l: Lookup) {
    l.phase.Starting? || l.phase.Running?
  }

  /** The buffers and the record of one request. */
  ghost predicate HasRequest(o: map<Ptr, Block>, req: Ptr) {
    && req in o && o[req].Request?
    && (o[req].nameBuf.Some? ==> HasText(o, o[req].nameBuf.value, req.lookup))
    && (o[req].serviceBuf.Some? ==> HasText(o, o[req].serviceBuf.value, req.lookup) && o[req].serviceBuf != o[req].nameBuf)
  }

  ghost predicate HasText(o: map<Ptr, Block>, p: Ptr, n: nat) {
    p.lookup == n && p in o && o[p].Text?
  }

  ghost function RequestPieces(o: map<Ptr, Block>, req: Ptr): set<Ptr>
    requires req in o && o[req].Request?
  {
    {req} + Opt(o[req].nameBuf) + Opt(o[req].serviceBuf)
  }

  ghost function Opt(p: Option<Ptr>): set<Ptr> {
    if p.Some? then {p.value} else {}
  }

  /** A lookup handed to nginx: context, record and buffers, and nothing else. */
  ghost predicate Loaded(o: map<Ptr, Block>, rctx: Ptr, req: Ptr, n: nat) {
    && req.lookup == rctx.lookup == n
    && HasRequest(o, req) && o[req].user == n && o[req].nameBuf.Some?
    && rctx in o && o[rctx] == Ctx(Some(req), o[req].nameBuf, o[req].serviceBuf)
    && o.Keys == RequestPieces(o, req) + {rctx}
  }

  ghost predicate LookupSafe(s: Snap, n: nat)
    requires n < |s.lookups| == |s.heap|
  {
    var o, l := s.heap[n], s.lookups[n];
    match l.phase
    case Starting => |l.calls| <= 1
    case Pending(id) =>
      && l.calls == [] && id in s.held && id in o && o[id].Ctx? && o[id].data.Some?
      && Loaded(o, id, o[id].data.value, n)
      && !o[o[id].data.value].starting && !o[o[id].data.value].completed
    case Running(id) => |l.calls| == 1 && id.lookup == n && id in s.held && id in o && o[id].Ctx? && o[id].data.None?
    case Over(started) => o == map[] && |l.calls| == if started then 1 else 0
  }

  ghost predicate Sound(s: Snap) {
    |s.heap| == |s.lookups| && forall id | id in s.held :: Holder(s, id)
  }

  ghost predicate Holder(s: Snap, id: Ptr) {
    id.lookup < |s.lookups| && s.lookups[id.lookup].phase in {Pending(id), Running(id)}
  }

  ghost predicate SafeBut(s: Snap, n: nat) {
    Sound(s) && forall m: nat {:trigger LookupSafe(s, m)} | m < |s.lookups| && m != n :: LookupSafe(s, m)
  }

  ghost predicate Safe(s: Snap) {
    Sound(s) && forall m: nat {:trigger LookupSafe(s, m)} | m < |s.lookups| :: LookupSafe(s, m)
  }

  /** From `a` to `b` lookup `m` was left alone, or was pending and got its one callback. */
  ghost predicate Kept(a: Snap, b: Snap, m: nat)
    requires m < |a.lookups| == |a.heap| && m < |b.lookups| == |b.heap|
  {
    || (b.lookups[m] == a.lookups[m] && b.heap[m] == a.heap[m])
    || (a.lookups[m].phase.Pending? && b.lookups[m].phase == Over(true))
  }

  ghost predicate Grows(a: Snap, b: Snap) {
    && |a.heap| == |a.lookups| <= |b.lookups| == |b.heap|
    && forall m: nat {:trigger OnStack(b.lookups[m])} | |a.lookups| <= m < |b.lookups| :: !OnStack(b.lookups[m])
  }

  ghost predicate Frame(a: Snap, b: Snap) {
    Grows(a, b) && forall m: nat {:trigger Kept(a, b, m)} | m < |a.lookups| :: Kept(a, b, m)
  }

  ghost predicate FrameBut(a: Snap, b: Snap, n: nat) {
    Grows(a, b) && forall m: nat {:trigger Kept(a, b, m)} | m < |a.lookups| && m != n :: Kept(a, b, m)
  }

  /** Only the blocks of lookup `n` changed; they are now `o`. */
  ghost predicate OnlyOwn(a: Snap, b: Snap, n: nat, o: map<Ptr, Block>) {
    && n < |a.heap| && b.heap == a.heap[n := o] && b.heap[n] == o && b.lookups == a.lookups && b.held == a.held
  }

  lemma FreshExists(s: set<Ptr>, n: nat)
    ensures exists p: Ptr :: p.lookup == n && p !in s
  {
    assert Ptr(n, Above(s) + 1) !in s;
  }

  ghost function Above(s: set<Ptr>): (b: nat)
    ensures forall p | p in s :: p.slot <= b
  {
    if s == {} then 0
    else
      var p :| p in s;
      var b := Above(s - {p});
      assert forall q | q in s :: q == p || q in s - {p};
      if p.slot > b then p.slot else b
  }

  lemma OnlyOwnSafe(a: Snap, b: Snap, n: nat, o: map<Ptr, Block>)
    requires SafeBut(a, n) && OnlyOwn(a, b, n, o)
    ensures SafeBut(b, n) && FrameBut(a, b, n)
  {
    forall m: nat | m < |b.lookups| && m != n ensures LookupSafe(b, m) && Kept(a, b, m) {
      assert LookupSafe(a, m);
    }
  }

  lemma FrameTrans(a: Snap, b: Snap, c: Snap)
    requires Frame(a, b) && Frame(b, c)
    ensures Frame(a, c)
  {
    GrowsTrans(a, b, c, |a.lookups|);
    forall m: nat | m < |a.lookups| ensures Kept(a, c, m) {
      assert Kept(a, b, m) && Kept(b, c, m);
    }
  }

  lemma FrameButTrans(a: Snap, b: Snap, c: Snap, n: nat)
    requires FrameBut(a, b, n) && FrameBut(b, c, n) && n < |a.lookups|
    ensures FrameBut(a, c, n)
  {
    GrowsTrans(a, b, c, n);
    forall m: nat | m < |a.lookups| && m != n ensures Kept(a, c, m) {
      assert Kept(a, b, m) && Kept(b, c, m);
    }
  }

  lemma GrowsTrans(a: Snap, b: Snap, c: Snap, n: nat)
    requires Grows(a, b) && FrameBut(b, c, n) && n <= |a.lookups|
    requires n == |a.lookups| ==> Frame(b, c)
    ensures Grows(a, c)
  {
    forall m: nat | |a.lookups| <= m < |c.lookups| ensures !OnStack(c.lookups[m]) {
      if m < |b.lookups| {
        assert !OnStack(b.lookups[m]) && Kept(b, c, m);
      }
    }
  }

  class Adapter {
    var heap: seq<map<Ptr, Block>>
    var lookups: seq<Lookup>
    var held: set<Ptr>
    const hasResolver: bool

    constructor (hasResolver: bool)
      ensures Safe(Now()) && lookups == [] && this.hasResolver == hasResolver
    {
      this.hasResolver := hasResolver;
      heap, lookups, held := [], [], {};
    }

    ghost function Now(): (s: Snap)
      reads this
    {
      Snap(heap, lookups, held)
    }

    // ---- Memory ----------------------------------------------------------------------------------

    predicate Live(p: Ptr)
      reads this
    {
      p.lookup < |heap| && p in heap[p.lookup]
    }

    function At(p: Ptr): Block
      requires Live(p)
      reads this
    {
      heap[p.lookup][p]
    }

    /** An allocation for lookup `n`; if it is granted, it may reuse any dead address. */
    method Alloc(n: nat, b: Block, granted: bool) returns (p: Option<Ptr>)
      requires n < |heap|
      modifies `heap
      ensures p.Some? <==> granted
      ensures p.None? ==> heap == old(heap)
      ensures p.Some? ==> p.value.lookup == n && p.value !in old(heap)[n]
                          && OnlyOwn(old(Now()), Now(), n, old(heap)[n][p.value := b])
    {
      if !granted {
        return None;
      }
      FreshExists(heap[n].Keys, n);
      var q: Ptr :| q.lookup == n && q !in heap[n].Keys;
      heap := heap[n := heap[n][q := b]];
      return Some(q);
    }

    method Free(p: Ptr)
      requires Live(p)
      modifies `heap
      ensures OnlyOwn(old(Now()), Now(), p.lookup, old(heap)[p.lookup] - {p})
    {
      heap := heap[p.lookup := heap[p.lookup] - {p}];
    }

    method Write(p: Ptr, b: Block)
      requires Live(p)
      modifies `heap
      ensures OnlyOwn(old(Now()), Now(), p.lookup, old(heap)[p.lookup][p := b]) && Live(p) && At(p) == b
    {
      heap := heap[p.lookup := heap[p.lookup][p := b]];
    }

    /** Frees a request record and its buffers. */
    method ReleaseRequest(req: Option<Ptr>)
      requires req.Some? ==> req.value.lookup < |heap| && HasRequest(heap[req.value.lookup], req.value)
      modifies `heap
      ensures req.None? ==> heap == old(heap)
      ensures req.Some? ==>
        var n := req.value.lookup;
        OnlyOwn(old(Now()), Now(), n, old(heap[n]) - RequestPieces(old(heap[n]), req.value))
    {
      if req.None? {
        return;
      }
      ghost var n := req.value.lookup;
      ghost var o := heap[n];
      var record := At(req.value);
      if record.nameBuf.Some? {
        Free(record.nameBuf.value);
      }
      if record.serviceBuf.Some? {
        Free(record.serviceBuf.value);
      }
      assert heap[n] == o - Opt(record.nameBuf) - Opt(record.serviceBuf);
      Free(req.value);
      assert heap[n] == o - RequestPieces(o, req.value);
    }

    /** Gives back a context that was never handed to nginx, and its record. */
    method DiscardUnstarted(rctx: Ptr, req: Option<Ptr>)
      requires Live(rctx) && At(rctx).Ctx?
      requires req.Some? ==> req.value.lookup == rctx.lookup && HasRequest(heap[rctx.lookup], req.value)
      requires var o := heap[rctx.lookup];
        o.Keys == {rctx} + if req.Some? then RequestPieces(o, req.value) else {}
      modifies `heap
      ensures OnlyOwn(old(Now()), Now(), rctx.lookup, map[])
    {
      Write(rctx, At(rctx).(data := None));
      Free(rctx);
      ReleaseRequest(req);
    }

    // ---- The state bits of a request -------------------------------------------------------------

    method BeginState(req: Ptr)
      requires Live(req) && At(req).Request?
      modifies `heap
      ensures OnlyOwn(old(Now()), Now(), req.lookup,
        old(heap)[req.lookup][req := old(At(req)).(starting := true, completed := false)])
    {
      Write(req, At(req).(starting := true));
      Write(req, At(req).(completed := false));
      assert heap[req.lookup] == old(heap)[req.lookup][req := At(req)];
    }

    method CompleteState(req: Ptr)
      requires Live(req) && At(req).Request?
      modifies `heap
      ensures OnlyOwn(old(Now()), Now(), req.lookup, old(heap)[req.lookup][req := old(At(req)).(completed := true)])
    {
      Write(req, At(req).(completed := true));
    }

    method IsStarting(req: Ptr) returns (starting: bool)
      requires Live(req) && At(req).Request?
      ensures starting == At(req).starting
    {
      return At(req).starting;
    }

    /** The start call is about to return; tells whether the lookup is still to be answered. */
    method FinishState(req: Ptr, succeeded: bool) returns (pending: bool)
      requires Live(req) && At(req).Request?
      modifies `heap
      ensures pending <==> succeeded && !old(At(req)).completed
      ensures OnlyOwn(old(Now()), Now(), req.lookup, old(heap)[req.lookup][req := old(At(req)).(starting := false)])
    {
      pending := succeeded && !At(req).completed;
      Write(req, At(req).(starting := false));
    }

    // ---- Preparing a lookup ----------------------------------------------------------------------

    /** A context and an empty record. */
    method AllocRecord(n: nat, kind: Kind, plan: Plan) returns (ok: bool, rctx: Ptr, req: Ptr)
      requires n < |heap| && heap[n] == map[]
      modifies `heap
      ensures ok <==> plan.context && plan.record
      ensures !ok ==> heap == old(heap)
      ensures ok ==> rctx != req && rctx.lookup == req.lookup == n
                     && OnlyOwn(old(Now()), Now(), n, EmptyRecord(n, kind, rctx, req, None))
    {
      var nil := Ptr(0, 0);
      var c := Alloc(n, Ctx(None, None, None), plan.context);
      if c.None? {
        return false, nil, nil;
      }
      var r := Alloc(n, Request(n, kind, None, None, false, false), plan.record);
      if r.None? {
        DiscardUnstarted(c.value, None);
        return false, nil, nil;
      }
      assert heap[n] == EmptyRecord(n, kind, c.value, r.value, None);
      return true, c.value, r.value;
    }

    /** Context, record and a copy of the name; on failure nothing is left. */
    method AllocNamed(n: nat, kind: Kind, name: string, plan: Plan) returns (ok: bool, rctx: Ptr, req: Ptr, buf: Ptr)
      requires n < |heap| && heap[n] == map[]
      modifies `heap
      ensures ok <==> plan.context && plan.record && plan.name
      ensures !ok ==> heap == old(heap)
      ensures ok ==> rctx != req && rctx != buf && req != buf && rctx.lookup == req.lookup == buf.lookup == n
                     && OnlyOwn(old(Now()), Now(), n, EmptyRecord(n, kind, rctx, req, Some(buf))[buf := Text(name + "\0")])
    {
      ok, rctx, req := AllocRecord(n, kind, plan);
      buf := Ptr(0, 0);
      if !ok {
        return;
      }
      var b := Alloc(n, Text(name + "\0"), plan.name);
      if b.None? {
        DiscardUnstarted(rctx, Some(req));
        assert heap == old(heap);
        ok := false;
        return;
      }
      buf := b.value;
      assert Live(req) && At(req) == heap[n][req];
      Write(req, At(req).(nameBuf := b));
      assert heap[n] == EmptyRecord(n, kind, rctx, req, b)[buf := Text(name + "\0")];
    }

    /** For a service lookup, cuts the service off the name into a buffer of its own. */
    method SplitName(rctx: Ptr, req: Ptr, buf: Ptr, name: string, plan: Plan) returns (ok: bool)
      requires req.lookup < |heap| && rctx != req && rctx != buf && req != buf && rctx.lookup == req.lookup == buf.lookup
      requires heap[req.lookup] == EmptyRecord(req.lookup, Srv, rctx, req, Some(buf))[buf := Text(name + "\0")]
      modifies `heap
      ensures |heap| == |old(heap)| && OnlyOwn(old(Now()), Now(), req.lookup, heap[req.lookup])
      ensures ok <==> (Target(Srv, name).0.Some? ==> plan.service && plan.domain)
      ensures !ok ==> heap[req.lookup] == map[]
      ensures ok ==> Spelled(heap[req.lookup], rctx, req, Srv, Target(Srv, name))
    {
      ghost var n := req.lookup;
      var first := DotAt(name, 0);
      if first == |name| {
        return true;
      }
      var second := DotAt(name, first + 1);
      if second == |name| {
        return true;
      }
      var service := Alloc(req.lookup, Text(name[..second]), plan.service);
      if service.None? {
        DiscardUnstarted(rctx, Some(req));
        return false;
      }
      assert Live(req) && At(req) == heap[n][req];
      Write(req, At(req).(serviceBuf := service));
      ok := ReplaceName(rctx, req, buf, name[second + 1..] + "\0", plan.domain);
    }

    method ReplaceName(rctx: Ptr, req: Ptr, buf: Ptr, text: string, granted: bool) returns (ok: bool)
      requires req.lookup < |heap| && rctx.lookup == req.lookup
      requires var o := heap[req.lookup];
        && HasRequest(o, req) && o[req].nameBuf == Some(buf) && rctx in o && o[rctx].Ctx?
        && o.Keys == RequestPieces(o, req) + {rctx}
      modifies `heap
      ensures ok <==> granted
      ensures !ok ==> OnlyOwn(old(Now()), Now(), req.lookup, map[])
      ensures ok ==>
        var o := old(heap)[req.lookup];
        && Live(req) && At(req).Request? && At(req).nameBuf.Some?
        && var b := At(req).nameBuf.value;
        && b !in o && b.lookup == req.lookup
        && OnlyOwn(old(Now()), Now(), req.lookup, (o - {buf})[b := Text(text)][req := o[req].(nameBuf := Some(b))])
    {
      ghost var o := heap[req.lookup];
      var domain := Alloc(req.lookup, Text(text), granted);
      if domain.None? {
        DiscardUnstarted(rctx, Some(req));
        return false;
      }
      Free(buf);
      assert Live(req) && At(req) == o[req];
      Write(req, At(req).(nameBuf := domain));
      assert o[domain.value := Text(text)] - {buf} == (o - {buf})[domain.value := Text(text)];
      return true;
    }

    /** Builds the record and its buffers and links the context to them: exactly if there is a resolver
        and every allocation it needs is granted. */
    method Prepare(n: nat, kind: Kind, name: string, plan: Plan) returns (ok: bool, rctx: Ptr, req: Ptr)
      requires n < |heap| && heap[n] == map[]
      modifies `heap
      ensures |heap| == |old(heap)| && OnlyOwn(old(Now()), Now(), n, heap[n])
      ensures ok <==> hasResolver && Granted(plan, kind, name)
      ensures !ok ==> heap[n] == map[]
      ensures ok ==> && Loaded(heap[n], rctx, req, n) && Says(heap[n], req, Target(kind, name)) && heap[n][req].kind == kind
                     && heap[n][req].starting && !heap[n][req].completed
    {
      rctx, req := Ptr(0, 0), Ptr(0, 0);
      if !hasResolver {
        return false, rctx, req;
      }
      var buf;
      ok, rctx, req, buf := AllocNamed(n, kind, name, plan);
      if !ok {
        return;
      }
      if kind == Srv {
        ok := SplitName(rctx, req, buf, name, plan);
        if !ok {
          return;
        }
      }
      assert Spelled(heap[n], rctx, req, kind, Target(kind, name));
      LinkContext(rctx, req, kind, Target(kind, name));
    }

    method LinkContext(rctx: Ptr, req: Ptr, ghost kind: Kind, ghost target: (Option<string>, string))
      requires rctx.lookup < |heap| && rctx.lookup == req.lookup
      requires Spelled(heap[req.lookup], rctx, req, kind, target)
      modifies `heap
      ensures |heap| == |old(heap)| && OnlyOwn(old(Now()), Now(), req.lookup, heap[req.lookup])
      ensures Loaded(heap[req.lookup], rctx, req, req.lookup)
      ensures heap[req.lookup][req] == old(heap)[req.lookup][req].(starting := true, completed := false)
      ensures Says(heap[req.lookup], req, target)
    {
      Write(rctx, Ctx(Some(req), At(req).nameBuf, At(req).serviceBuf));
      assert Live(req) && At(req) == heap[req.lookup][req];
      BeginState(req);
    }

    // ---- Callbacks and cancellation --------------------------------------------------------------

    /** The client's callback for lookup `n`. */
    method Invoke(n: nat, code: Code, inner: seq<Act>)
      requires n < |lookups| && Safe(Told(Now(), n, code))
      modifies this
      ensures Safe(Now()) && Frame(old(Told(Now(), n, code)), Now())
      decreases inner, 1
    {
      lookups := lookups[n := lookups[n].(calls := lookups[n].calls + [code])];
      RunScript(inner);
    }

    /** Whatever the client does inside a callback. It cancels only ids it still holds. */
    method RunScript(acts: seq<Act>)
      requires Safe(Now())
      modifies this
      ensures Safe(Now()) && Frame(old(Now()), Now())
      decreases acts, 0
    {
      var i := 0;
      while i < |acts|
        invariant 0 <= i <= |acts|
        invariant Safe(Now()) && Frame(old(Now()), Now())
      {
        ghost var s := Now();
        match acts[i] {
          case Begin(kind, name, plan, inner) =>
            var rc, started := Start(kind, name, plan, inner);
          case Drop(id, inner) =>
            if id.None? || id.value in held {
              Cancel(id, inner);
            }
        }
        FrameTrans(old(Now()), s, Now());
        i := i + 1;
      }
    }

    /** Takes a lookup back from nginx and frees all of it. */
    method Retire(rctx: Ptr, req: Ptr)
      requires rctx.lookup < |heap| && Loaded(heap[rctx.lookup], rctx, req, rctx.lookup)
      modifies `heap
      ensures OnlyOwn(old(Now()), Now(), rctx.lookup, map[])
    {
      assert At(rctx) == heap[rctx.lookup][rctx];
      Write(rctx, At(rctx).(data := None));
      assert Live(req) && At(req) == old(heap)[req.lookup][req];
      CompleteState(req);
      Free(rctx);
      ReleaseRequest(Some(req));
      assert heap[rctx.lookup] == map[];
    }

    method Cancel(id: Option<Ptr>, inner: seq<Act>)
      requires Safe(Now()) && (id.Some? ==> id.value in held)
      modifies this
      ensures Safe(Now()) && Frame(old(Now()), Now())
      ensures id.None? || old(lookups)[id.value.lookup].phase.Running? ==> Now() == old(Now())
      ensures id.Some? && old(lookups)[id.value.lookup].phase.Pending? ==>
                lookups[id.value.lookup] == Lookup(Over(true), [DnsError])
      decreases inner, 2
    {
      if id.None? {
        return;
      }
      var rctx := id.value;
      ghost var n := rctx.lookup;
      assert Holder(Now(), rctx) && LookupSafe(Now(), n);
      var req := At(rctx).data;
      if req.None? {
        return;
      }
      Retire(rctx, req.value);
      held := held - {rctx};
      lookups := lookups[rctx.lookup := lookups[rctx.lookup].(phase := Over(true))];
      ghost var s := Told(Now(), n, DnsError);
      assert [] + [DnsError] == [DnsError];
      assert s.lookups == old(lookups)[n := Lookup(Over(true), [DnsError])];
      RetiredFrame(old(Now()), s, n);
      Invoke(rctx.lookup, DnsError, inner);
      FrameTrans(old(Now()), s, Now());
      assert Kept(s, Now(), n);
    }

    /** Looks for what the client is to be told, with working storage that outlives the callback. */
    method PrepareAnswer(n: nat, kind: Kind, reply: Reply) returns (code: Code, one: Option<Ptr>, two: Option<Ptr>)
      requires n < |heap|
      modifies `heap
      ensures |heap| == |old(heap)| && OnlyOwn(old(Now()), Now(), n, heap[n])
      ensures WithScratch(heap[n], old(heap)[n], n, one, two)
      ensures code == Answer(Tells(kind, reply))
    {
      code, one, two := NothingFound, None, None;
      if !reply.resolved || reply.records == 0 || !reply.fits {
        return;
      }
      one := Alloc(n, Scratch, reply.one);
      if kind == Srv {
        if one.None? {
          return;
        }
        two := Alloc(n, Scratch, reply.two);
        if two.Some? {
          code := Found;
        }
      } else {
        two := Alloc(n, Scratch, reply.two);
        if one.Some? && two.Some? {
          if reply.usable > 0 {
            code := Found;
          }
        }
      }
    }

    /** Takes the record off its context, marks it completed and finds what to tell the client. */
    method Detach(rctx: Ptr, reply: Reply) returns (req: Ptr, code: Code, one: Option<Ptr>, two: Option<Ptr>)
      requires Answerable(Now(), rctx)
      modifies `heap
      ensures |heap| == |old(heap)| && OnlyOwn(old(Now()), Now(), rctx.lookup, heap[rctx.lookup])
      ensures req == old(heap)[rctx.lookup][rctx].data.value
      ensures code == Answer(Tells(KindOf(old(heap)[rctx.lookup], rctx), reply))
      ensures WithScratch(heap[rctx.lookup], Detached(old(heap)[rctx.lookup], rctx), rctx.lookup, one, two)
    {
      ghost var n := rctx.lookup;
      ghost var o := heap[n];
      req := At(rctx).data.value;
      Write(rctx, At(rctx).(data := None));
      assert Live(req) && At(req) == o[req];
      CompleteState(req);
      code, one, two := PrepareAnswer(rctx.lookup, At(req).kind, reply);
    }

    method FreeScratch(ghost o: map<Ptr, Block>, n: nat, one: Option<Ptr>, two: Option<Ptr>)
      requires n < |heap| && WithScratch(heap[n], o, n, one, two)
      modifies `heap
      ensures OnlyOwn(old(Now()), Now(), n, o)
    {
      if two.Some? {
        Free(two.value);
      }
      if one.Some? {
        Free(one.value);
      }
      assert heap[n] == o;
    }

    method Finish(ghost o: map<Ptr, Block>, rctx: Ptr, req: Ptr, one: Option<Ptr>, two: Option<Ptr>)
      requires rctx.lookup < |heap| && Loaded(o, rctx, req, rctx.lookup)
      requires WithScratch(heap[rctx.lookup], Detached(o, rctx), rctx.lookup, one, two)
      modifies `heap
      ensures OnlyOwn(old(Now()), Now(), rctx.lookup, AnsweredBlocks(o, rctx))
    {
      ghost var n, d := rctx.lookup, Detached(o, rctx);
      FreeScratch(d, rctx.lookup, one, two);
      Free(rctx);
      FinishLeaves(o, rctx, req);
      assert Live(req) && At(req) == d[req];
      var starting := IsStarting(req);
      if !starting {
        ReleaseRequest(Some(req));
      }
    }

    /** The resolver's answer to a lookup, inside its start call or later. */
    method Handler(rctx: Ptr, reply: Reply, inner: seq<Act>)
      requires Answerable(Now(), rctx)
      modifies this
      ensures SafeBut(Now(), rctx.lookup) && FrameBut(old(Now()), Now(), rctx.lookup) && rctx !in held
      ensures rctx.lookup < |lookups| && lookups[rctx.lookup].phase == old(lookups)[rctx.lookup].phase
      ensures lookups[rctx.lookup].calls == [Answer(Tells(KindOf(old(heap)[rctx.lookup], rctx), reply))]
      ensures heap[rctx.lookup] == AnsweredBlocks(old(heap)[rctx.lookup], rctx)
      decreases inner, 2
    {
      var n := rctx.lookup;
      ghost var o, a := heap[n], Now();
      var req, code, one, two := Detach(rctx, reply);
      assert [] + [code] == [code];
      ghost var s, told := Now(), Told(Now(), n, code);
      assert heap[n][rctx] == Detached(o, rctx)[rctx];
      OnlyOwnSafe(a, s, n, heap[n]);
      ToldSafe(s, n, code);
      Invoke(n, code, inner);
      held := held - {rctx};
      AnsweredFrame(a, s, told, Now(), n, rctx);
      ghost var b := Now();
      Finish(o, rctx, req, one, two);
      OnlyOwnSafe(b, Now(), n, heap[n]);
      FrameButTrans(a, b, Now(), n);
    }

    /** nginx's part of a start: it gives the context back and fails, or answers at once, or takes
        the lookup on. */
    method ResolveName(rctx: Ptr, nginx: Nginx, inner: seq<Act>) returns (ok: bool)
      requires Answerable(Now(), rctx) && rctx !in held && lookups[rctx.lookup].phase.Starting?
      modifies this
      ensures SafeBut(Now(), rctx.lookup) && FrameBut(old(Now()), Now(), rctx.lookup) && rctx.lookup < |lookups|
      ensures lookups[rctx.lookup].phase == Starting
      ensures ok <==> !nginx.Refuses?
      ensures nginx.Refuses? ==> heap[rctx.lookup] == old(heap)[rctx.lookup] - {rctx} && lookups[rctx.lookup].calls == []
      ensures nginx.TakesOn? ==> heap[rctx.lookup] == old(heap)[rctx.lookup] && lookups[rctx.lookup].calls == []
      ensures nginx.AnswersNow? ==>
        && heap[rctx.lookup] == AnsweredBlocks(old(heap)[rctx.lookup], rctx)
        && lookups[rctx.lookup].calls == [Answer(Tells(KindOf(old(heap)[rctx.lookup], rctx), nginx.reply))]
      decreases inner, 3
    {
      if nginx.Refuses? {
        Free(rctx);
        OnlyOwnSafe(old(Now()), Now(), rctx.lookup, heap[rctx.lookup]);
        return false;
      }
      if nginx.AnswersNow? {
        Handler(rctx, nginx.reply, inner);
      }
      return true;
    }

    /** A start returns -1, with nothing left and no callback, exactly if there is no resolver, an
        allocation it needs is refused or nginx refuses the lookup. It returns 0 without an id exactly
        if nginx answers inside the call: nothing is left and the callback was called once, with what
        the answer says. It returns 0 with an id exactly if nginx takes the lookup on, which then waits
        with no callback yet. */
    method Start(kind: Kind, name: string, plan: Plan, inner: seq<Act>) returns (rc: int, id: Option<Ptr>)
      requires Safe(Now())
      modifies this
      ensures Safe(Now()) && Frame(old(Now()), Now()) && |old(lookups)| < |lookups|
      ensures StartEnds(Now(), |old(lookups)|, kind, name, rc, id)
      ensures rc == -1 <==>
        || !hasResolver || !plan.context || !plan.record || !plan.name
        || (kind == Srv && Dots(name) >= 2 && !(plan.service && plan.domain))
        || plan.nginx.Refuses?
      ensures rc == 0 ==> (id.Some? <==> plan.nginx.TakesOn?)
      ensures rc == 0 && plan.nginx.AnswersNow? ==>
        var reply := plan.nginx.reply;
        lookups[|old(lookups)|].calls == [Answer(
          && reply.resolved && reply.records > 0 && reply.fits && reply.one && reply.two
          && (kind == Addr ==> reply.usable > 0))]
      decreases inner, 5
    {
      var n := |lookups|;
      heap := heap + [map[]];
      lookups := lookups + [Lookup(Starting, [])];
      ghost var s := Now();
      StartingSafe(old(Now()), s);
      TargetMeaning(kind, name);
      rc, id := StartLookup(n, kind, name, plan, inner);
      StartFrame(old(Now()), s, Now());
    }

    method StartLookup(n: nat, kind: Kind, name: string, plan: Plan, inner: seq<Act>) returns (rc: int, id: Option<Ptr>)
      requires Safe(Now()) && n < |lookups| && lookups[n] == Lookup(Starting, []) && heap[n] == map[]
      modifies this
      ensures Safe(Now()) && FrameBut(old(Now()), Now(), n) && n < |lookups|
      ensures StartEnds(Now(), n, kind, name, rc, id)
      ensures rc == -1 <==> !hasResolver || !Granted(plan, kind, name) || plan.nginx.Refuses?
      ensures rc == 0 ==> (id.Some? <==> plan.nginx.TakesOn?)
      ensures rc == 0 && plan.nginx.AnswersNow? ==> lookups[n].calls == [Answer(Tells(kind, plan.nginx.reply))]
      decreases inner, 4
    {
      ghost var a := Now();
      var ok, rctx, req := Prepare(n, kind, name, plan);
      ghost var b, o := Now(), heap[n];
      OnlyOwnSafe(a, b, n, o);
      if !ok {
        lookups := lookups[n := lookups[n].(phase := Over(false))];
        EndSafe(a, b, Now(), n);
        return -1, None;
      }
      ok := ResolveName(rctx, plan.nginx, inner);
      FrameButTrans(a, b, Now(), n);
      rc, id := ConcludeStart(a, o, rctx, req, ok);
      if id.Some? {
        SaysKept(o, heap[n], req, Target(kind, name));
      }
    }

    /** The end of a start call. */
    method ConcludeStart(ghost a: Snap, ghost o: map<Ptr, Block>, rctx: Ptr, req: Ptr, ok: bool)
      returns (rc: int, id: Option<Ptr>)
      requires Loaded(o, rctx, req, rctx.lookup) && o[req].starting && !o[req].completed
      requires var n := rctx.lookup;
        && n < |a.lookups| && n < |lookups| && SafeBut(Now(), n) && FrameBut(a, Now(), n) && lookups[n].phase == Starting
        && var calls := |lookups[n].calls|;
        if ok then (heap[n] == o && calls == 0) || (heap[n] == AnsweredBlocks(o, rctx) && calls == 1)
        else heap[n] == o - {rctx} && calls == 0
      modifies this
      ensures var n := rctx.lookup;
        && Safe(Now()) && FrameBut(a, Now(), n) && n < |lookups|
        && if ok && old(heap[n]) == o then
             && rc == 0 && id == Some(rctx) && lookups[n] == Lookup(Pending(rctx), []) && rctx in held
             && heap[n] == o[req := o[req].(starting := false)]
           else
             && id == None && rc == (if ok then 0 else -1) && heap[n] == map[]
             && lookups[n] == Lookup(Over(ok), old(lookups[n]).calls)
    {
      var n := rctx.lookup;
      ghost var c := Now();
      assert Live(req) && req in heap[n];
      var pending := FinishState(req, ok);
      OnlyOwnSafe(c, Now(), n, heap[n]);
      FrameButTrans(a, c, Now(), n);
      ghost var d := Now();
      if !pending {
        ReleaseRequest(Some(req));
        assert heap[n] == map[];
        OnlyOwnSafe(d, Now(), n, heap[n]);
        FrameButTrans(a, d, Now(), n);
        ghost var e := Now();
        lookups := lookups[n := lookups[n].(phase := Over(ok))];
        EndSafe(a, e, Now(), n);
        return if ok then 0 else -1, None;
      }
      lookups := lookups[n := lookups[n].(phase := Pending(rctx))];
      held := held + {rctx};
      assert heap[n] == o[req := o[req].(starting := false)];
      EndSafe(a, d, Now(), n);
      return 0, Some(rctx);
    }

    /** nginx answers a lookup that waits. */
    method Deliver(id: Ptr, reply: Reply, inner: seq<Act>)
      requires Safe(Now()) && id in held && lookups[id.lookup].phase == Pending(id)
      modifies this
      ensures Safe(Now()) && Frame(old(Now()), Now())
      ensures lookups[id.lookup].phase == Over(true) && lookups[id.lookup].calls == [Answer(
        && reply.resolved && reply.records > 0 && reply.fits && reply.one && reply.two
        && (KindOf(old(heap)[id.lookup], id) == Addr ==> reply.usable > 0))]
      ensures heap[id.lookup] == map[]
    {
      var n := id.lookup;
      ghost var a := Now();
      lookups := lookups[n := lookups[n].(phase := Running(id))];
      RunningSafe(a, Now(), n, id);
      ghost var b := Now();
      Handler(id, reply, inner);
      ghost var c := Now();
      FrameButTrans(a, b, c, n);
      lookups := lookups[n := lookups[n].(phase := Over(true))];
      EndSafe(a, c, Now(), n);
      assert Kept(a, Now(), n);
    }

    /** Any run: the client acts, or nginx answers a waiting lookup. */
    method RunEvents(events: seq<Event>)
      requires Safe(Now()) && Quiet(Now())
      modifies this
      ensures Safe(Now()) && Quiet(Now()) && Frame(old(Now()), Now())
    {
      var i := 0;
      while i < |events|
        invariant 0 <= i <= |events|
        invariant Safe(Now()) && Quiet(Now()) && Frame(old(Now()), Now())
      {
        ghost var s := Now();
        match events[i] {
          case Acts(acts) =>
            RunScript(acts);
          case Answered(id, reply, inner) =>
            if id in held {
              assert Holder(s, id) && !OnStack(lookups[id.lookup]);
              Deliver(id, reply, inner);
            }
        }
        FrameTrans(old(Now()), s, Now());
        QuietKept(s, Now());
        i := i + 1;
      }
    }
  }

  /** No start and no callback is in progress. */
  ghost predicate Quiet(s: Snap) {
    forall n: nat {:trigger OnStack(s.lookups[n])} | n < |s.lookups| :: !OnStack(s.lookups[n])
  }

  ghost predicate StartEnds(s: Snap, n: nat, kind: Kind, name: string, rc: int, id: Option<Ptr>)
    requires n < |s.lookups| == |s.heap|
  {
    var o, l := s.heap[n], s.lookups[n];
    if id.Some? then
      && rc == 0 && l == Lookup(Pending(id.value), []) && id.value in s.held
      && id.value in o && o[id.value].Ctx? && o[id.value].data.Some?
      && var req := o[id.value].data.value;
      && Loaded(o, id.value, req, n) && Says(o, req, Target(kind, name)) && o[req].kind == kind
    else if rc == 0 then o == map[] && l.phase == Over(true) && AnsweredOnce(l)
    else rc == -1 && o == map[] && l == Lookup(Over(false), [])
  }

  lemma SaysKept(o: map<Ptr, Block>, o': map<Ptr, Block>, req: Ptr, target: (Option<string>, string))
    requires HasRequest(o, req) && o[req].nameBuf.Some? && Says(o, req, target)
    requires o' == o[req := o[req].(starting := false)]
    ensures HasRequest(o', req) && o'[req].nameBuf.Some? && Says(o', req, target)
  {
  }

  lemma StartingSafe(a: Snap, s: Snap)
    requires Safe(a) && s == Snap(a.heap + [map[]], a.lookups + [Lookup(Starting, [])], a.held)
    ensures Safe(s)
  {
    forall id | id in s.held ensures Holder(s, id) {
      assert Holder(a, id);
    }
    forall m: nat | m < |s.lookups| ensures LookupSafe(s, m) {
      if m < |a.lookups| {
        assert LookupSafe(a, m);
      }
    }
  }

  lemma StartFrame(a: Snap, s: Snap, b: Snap)
    requires Safe(a) && s == Snap(a.heap + [map[]], a.lookups + [Lookup(Starting, [])], a.held)
    requires FrameBut(s, b, |a.lookups|) && !OnStack(b.lookups[|a.lookups|])
    ensures Frame(a, b)
  {
    forall m: nat | m < |a.lookups| ensures Kept(a, b, m) {
      assert Kept(s, b, m);
    }
    forall m: nat | |a.lookups| <= m < |b.lookups| ensures !OnStack(b.lookups[m]) {
      if m > |a.lookups| {
        assert |s.lookups| <= m;
      }
    }
  }

  /** The bookkeeping of lookup `n` reaches a state in which nothing of it is on the stack. */
  lemma EndSafe(a: Snap, b: Snap, c: Snap, n: nat)
    requires SafeBut(b, n) && FrameBut(a, b, n) && n < |a.lookups| && n < |b.lookups| && |c.lookups| == |b.lookups|
    requires c.heap == b.heap && c.lookups == b.lookups[n := c.lookups[n]]
    requires LookupSafe(c, n) && !OnStack(c.lookups[n]) && (b.lookups[n].phase.Running? ==> b.lookups[n].phase.id !in b.held)
    requires OnStack(b.lookups[n])
    requires if c.lookups[n].phase.Pending? then c.held == b.held + {c.lookups[n].phase.id} && c.lookups[n].phase.id.lookup == n
             else c.held == b.held
    ensures Safe(c) && FrameBut(a, c, n)
  {
    forall id | id in c.held ensures Holder(c, id) {
      if id in b.held {
        assert Holder(b, id);
      }
    }
    forall m: nat | m < |c.lookups| ensures LookupSafe(c, m) {
      if m != n {
        assert LookupSafe(b, m);
      }
    }
    forall m: nat | m < |a.lookups| && m != n ensures Kept(a, c, m) {
      assert Kept(a, b, m);
    }
    forall m: nat | |a.lookups| <= m < |c.lookups| ensures !OnStack(c.lookups[m]) {
      assert !OnStack(b.lookups[m]);
    }
  }

  lemma RunningSafe(a: Snap, b: Snap, n: nat, id: Ptr)
    requires Safe(a) && n == id.lookup < |a.lookups| && a.lookups[n].phase == Pending(id)
    requires b == a.(lookups := a.lookups[n := a.lookups[n].(phase := Running(id))])
    ensures Answerable(b, id) && FrameBut(a, b, n)
  {
    assert LookupSafe(a, n);
    forall h | h in b.held ensures Holder(b, h) {
      assert Holder(a, h);
    }
    forall m: nat | m < |b.lookups| && m != n ensures LookupSafe(b, m) && Kept(a, b, m) {
      assert LookupSafe(a, m);
    }
  }

  lemma QuietKept(a: Snap, b: Snap)
    requires Frame(a, b) && Quiet(a)
    ensures Quiet(b)
  {
    forall n: nat | n < |b.lookups| ensures !OnStack(b.lookups[n]) {
      if n < |a.lookups| {
        assert Kept(a, b, n) && !OnStack(a.lookups[n]);
      }
    }
  }

  lemma FinishLeaves(o: map<Ptr, Block>, rctx: Ptr, req: Ptr)
    requires Loaded(o, rctx, req, rctx.lookup)
    ensures var d := Detached(o, rctx) - {rctx};
      && HasRequest(d, req)
      && AnsweredBlocks(o, rctx) == if o[req].starting then d else d - RequestPieces(d, req)
  {
    var d := Detached(o, rctx) - {rctx};
    assert (d - RequestPieces(d, req)).Keys == {};
  }

  /** The kind of the lookup whose context this is. */
  ghost function KindOf(o: map<Ptr, Block>, rctx: Ptr): Kind {
    if rctx in o && o[rctx].Ctx? && o[rctx].data.Some? && o[rctx].data.value in o && o[o[rctx].data.value].Request?
    then o[o[rctx].data.value].kind else Srv
  }

  ghost function Detached(o: map<Ptr, Block>, rctx: Ptr): map<Ptr, Block>
    requires rctx in o && o[rctx].Ctx? && o[rctx].data.Some? && o[rctx].data.value in o && o[o[rctx].data.value].Request?
  {
    var req := o[rctx].data.value;
    o[rctx := o[rctx].(data := None)][req := o[req].(completed := true)]
  }

  /** `all` is `o` and the two working blocks. */
  ghost predicate WithScratch(all: map<Ptr, Block>, o: map<Ptr, Block>, n: nat, one: Option<Ptr>, two: Option<Ptr>) {
    && (Opt(one) + Opt(two)) !! o.Keys && (one.Some? ==> one != two)
    && all.Keys == o.Keys + Opt(one) + Opt(two) && all - (Opt(one) + Opt(two)) == o
    && forall p | p in Opt(one) + Opt(two) :: p.lookup == n
  }

  /** A lookup that nginx may answer now. */
  ghost predicate Answerable(s: Snap, rctx: Ptr) {
    var n := rctx.lookup;
    && SafeBut(s, n) && n < |s.lookups| && OnStack(s.lookups[n]) && s.lookups[n].calls == []
    && rctx in s.heap[n] && s.heap[n][rctx].Ctx? && s.heap[n][rctx].data.Some?
    && var req := s.heap[n][rctx].data.value;
    && Loaded(s.heap[n], rctx, req, n) && !s.heap[n][req].completed
    && (if s.lookups[n].phase.Starting? then s.heap[n][req].starting
        else !s.heap[n][req].starting && s.lookups[n].phase == Running(rctx) && rctx in s.held)
  }

  /** What answering leaves: the start call still needs the record and frees it; otherwise nothing. */
  ghost function AnsweredBlocks(o: map<Ptr, Block>, rctx: Ptr): map<Ptr, Block>
    requires rctx in o && o[rctx].Ctx? && o[rctx].data.Some? && o[rctx].data.value in o && o[o[rctx].data.value].Request?
  {
    var req := o[rctx].data.value;
    if o[req].starting then (o - {rctx})[req := o[req].(completed := true)] else map[]
  }

  lemma ToldSafe(s: Snap, n: nat, code: Code)
    requires SafeBut(s, n) && n < |s.lookups| && OnStack(s.lookups[n]) && s.lookups[n].calls == []
    requires s.lookups[n].phase.Running? ==>
      var id := s.lookups[n].phase.id;
      id.lookup == n && id in s.held && id in s.heap[n] && s.heap[n][id].Ctx? && s.heap[n][id].data.None?
    ensures Safe(Told(s, n, code))
  {
    var t := Told(s, n, code);
    forall id | id in t.held ensures Holder(t, id) {
      assert Holder(s, id);
    }
    forall m: nat | m < |t.lookups| ensures LookupSafe(t, m) {
      if m != n {
        assert LookupSafe(s, m);
      }
    }
  }

  /** After the callback of `n` its blocks are as they were, and its id is forgotten. */
  lemma AnsweredFrame(a: Snap, s: Snap, t: Snap, b: Snap, n: nat, rctx: Ptr)
    requires FrameBut(a, s, n) && n < |s.lookups| && rctx.lookup == n && OnStack(s.lookups[n])
    requires exists code :: t == Told(s, n, code)
    requires exists c :: Safe(c) && Frame(t, c) && b == c.(held := c.held - {rctx})
    ensures SafeBut(b, n) && FrameBut(a, b, n) && n < |b.lookups|
    ensures b.lookups[n] == t.lookups[n] && b.heap[n] == s.heap[n]
  {
    var c :| Safe(c) && Frame(t, c) && b == c.(held := c.held - {rctx});
    assert Kept(t, c, n);
    forall id | id in b.held ensures Holder(b, id) {
      assert Holder(c, id);
    }
    forall m: nat | m < |b.lookups| && m != n ensures LookupSafe(b, m) {
      assert LookupSafe(c, m);
    }
    forall m: nat | m < |s.lookups| && m != n ensures Kept(s, b, m) {
      assert Kept(t, c, m);
    }
    assert Grows(s, b);
    FrameButTrans(a, s, b, n);
  }

  /** Lookup `n` has been told `code`, after whatever it was told before. */
  ghost function Told(s: Snap, n: nat, code: Code): Snap
    requires n < |s.lookups|
  {
    s.(lookups := s.lookups[n := s.lookups[n].(calls := s.lookups[n].calls + [code])])
  }

  /** Only lookup `n` changed: it was pending and is over, with its callback called. */
  lemma RetiredFrame(a: Snap, b: Snap, n: nat)
    requires Safe(a) && n < |a.lookups| && a.lookups[n].phase.Pending?
    requires b.heap == a.heap[n := map[]] && b.held == a.held - {a.lookups[n].phase.id}
    requires exists code :: b.lookups == a.lookups[n := Lookup(Over(true), [code])]
    ensures Safe(b) && Frame(a, b)
  {
    assert LookupSafe(a, n);
    forall id | id in b.held ensures Holder(b, id) {
      assert Holder(a, id);
    }
    forall m: nat | m < |a.lookups| ensures LookupSafe(b, m) && Kept(a, b, m) {
      assert LookupSafe(a, m);
    }
  }

  /** The context and record before the name is split. */
  ghost function EmptyRecord(n: nat, kind: Kind, rctx: Ptr, req: Ptr, buf: Option<Ptr>): map<Ptr, Block> {
    map[rctx := Ctx(None, None, None), req := Request(n, kind, buf, None, false, false)]
  }

  /** The record of a lookup for this service and name; its context is still unlinked. */
  ghost predicate Spelled(o: map<Ptr, Block>, rctx: Ptr, req: Ptr, kind: Kind, target: (Option<string>, string)) {
    && HasRequest(o, req) && o[req].nameBuf.Some? && o[req].user == req.lookup == rctx.lookup && o[req].kind == kind
    && rctx in o && o[rctx] == Ctx(None, None, None)
    && o.Keys == RequestPieces(o, req) + {rctx}
    && Says(o, req, target)
  }

  ghost predicate Says(o: map<Ptr, Block>, req: Ptr, target: (Option<string>, string))
    requires HasRequest(o, req) && o[req].nameBuf.Some?
  {
    && o[o[req].nameBuf.value] == Text(target.1 + "\0")
    && (o[req].serviceBuf.Some? <==> target.0.Some?)
    && (target.0.Some? ==> o[o[req].serviceBuf.value] == Text(target.0.value))
  }

  /** The first dot at or after `from`, or the length. */
  function DotAt(s: string, from: nat): (i: nat)
    requires from <= |s|
    ensures from <= i <= |s| && (i < |s| ==> s[i] == '.') && (forall k | from <= k < i :: s[k] != '.')
    decreases |s| - from
  {
    if from == |s| || s[from] == '.' then from else DotAt(s, from + 1)
  }

  /** What is asked of nginx: the service, if any, and the name. */
  function Target(kind: Kind, name: string): (Option<string>, string) {
    var first := DotAt(name, 0);
    if kind == Addr || first == |name| || DotAt(name, first + 1) == |name| then (None, name)
    else
      var second := DotAt(name, first + 1);
      (Some(name[..second]), name[second + 1..])
  }

  function Dots(s: string): nat {
    if s == "" then 0 else Dots(s[1..]) + if s[0] == '.' then 1 else 0
  }

  lemma {:induction false} DotsConcat(a: string, b: string)
    ensures Dots(a + b) == Dots(a) + Dots(b)
  {
    if a == "" {
      assert a + b == b;
    } else {
      assert (a + b)[1..] == a[1..] + b;
      DotsConcat(a[1..], b);
    }
  }

  lemma {:induction false} NoDots(s: string)
    requires forall k | 0 <= k < |s| :: s[k] != '.'
    ensures Dots(s) == 0
  {
    if s != "" {
      NoDots(s[1..]);
    }
  }

  lemma DotsAround(s: string, i: nat)
    requires i < |s| && s[i] == '.'
    ensures s == s[..i] + "." + s[i + 1..] && Dots(s) == Dots(s[..i]) + 1 + Dots(s[i + 1..])
  {
    var after := s[i..];
    assert s == s[..i] + after;
    DotsConcat(s[..i], after);
    assert after[1..] == s[i + 1..];
  }

  lemma FirstDot(s: string)
    ensures DotAt(s, 0) == |s| ==> Dots(s) == 0
    ensures DotAt(s, 0) < |s| ==> Dots(s) == 1 + Dots(s[DotAt(s, 0) + 1..]) && Dots(s[..DotAt(s, 0)]) == 0
  {
    var i := DotAt(s, 0);
    NoDots(s[..i]);
    if i < |s| {
      DotsAround(s, i);
    } else {
      assert s[..i] == s;
    }
  }

  /** A name with at least two dots asks for the service before its second dot, under what follows;
      any other name, and every address lookup, is asked for whole. */
  lemma TargetMeaning(kind: Kind, name: string)
    ensures
      var (service, domain) := Target(kind, name);
      && (service.Some? <==> kind == Srv && Dots(name) >= 2)
      && (service.Some? ==> name == service.value + "." + domain && Dots(service.value) == 1)
      && (service.None? ==> domain == name)
  {
    var first := DotAt(name, 0);
    FirstDot(name);
    if first < |name| {
      SecondDot(name, first);
    }
  }

  lemma SecondDot(name: string, first: nat)
    requires first < |name| && name[first] == '.' && Dots(name) == 1 + Dots(name[first + 1..]) && Dots(name[..first]) == 0
    ensures
      var second := DotAt(name, first + 1);
      if second == |name| then Dots(name) == 1
      else Dots(name) >= 2 && name == name[..second] + "." + name[second + 1..] && Dots(name[..second]) == 1
  {
    var second := DotAt(name, first + 1);
    var middle := name[first + 1..second];
    NoDots(middle);
    if second == |name| {
      assert middle == name[first + 1..];
    } else {
      DotsAround(name, second);
      var front := name[..second];
      DotsAround(front, first);
      assert front[..first] == name[..first] && front[first + 1..] == middle;
    }
  }

  // ---- What every run guarantees ---------------------------------------------------------------

  /** Between events every start ever made is in one of three states: failed without a callback,
      waiting without a callback, or called back exactly once; only a waiting one owns memory or has
      an id that may be cancelled. */
  lemma EachStartAnsweredOnce(s: Snap, n: nat)
    requires Safe(s) && Quiet(s) && n < |s.lookups|
    ensures
      var l := s.lookups[n];
      || (l == Lookup(Over(false), []) && s.heap[n] == map[])
      || (l.phase.Pending? && l.calls == [] && l.phase.id in s.held)
      || (l.phase == Over(true) && |l.calls| == 1 && s.heap[n] == map[])
    ensures forall id | id in s.held && id.lookup == n :: s.lookups[n].phase == Pending(id)
  {
    assert LookupSafe(s, n) && !OnStack(s.lookups[n]);
    forall id | id in s.held && id.lookup == n ensures s.lookups[n].phase == Pending(id) {
      assert Holder(s, id);
    }
  }

  /** Once over, a lookup is never heard of again, whatever happens next. */
  lemma OverForGood(a: Snap, b: Snap, n: nat)
    requires Safe(a) && Safe(b) && Frame(a, b) && n < |a.lookups| && a.lookups[n].phase.Over?
    ensures b.lookups[n] == a.lookups[n] && b.heap[n] == map[]
  {
    assert Kept(a, b, n) && LookupSafe(a, n);
  }

  /** An id the client holds is live: cancelling it never touches a released context, and it is a
      no-op exactly while the lookup's own completion callback is running. */
  lemma HeldIdIsLive(s: Snap, id: Ptr)
    requires Safe(s) && id in s.held
    ensures
      var n := id.lookup;
      && n < |s.lookups| && id in s.heap[n] && s.heap[n][id].Ctx?
      && (s.heap[n][id].data.None? <==> s.lookups[n].phase.Running?)
  {
    assert Holder(s, id) && LookupSafe(s, id.lookup);
  }
}
