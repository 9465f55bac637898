/**
 The SRV record array: several allocations that are either all kept or all given back.

 Allocations are blocks of an explicit heap. Freeing requires a live block, so a double free or a
 free of a foreign pointer does not verify; which allocations fail is left open.
 */
module SrvRecords {
  import opened Wrappers

  type Ptr = nat

  const SIZE_MAX: nat := 0xFFFF_FFFF_FFFF_FFFF
  const ADDRESS_SIZE: nat := 8

  /** rn_srv_source_t; the target is NULL or a counted string. */
  datatype Source = Source(target: Option<string>, port: nat, priority: nat, weight: nat, ttlMs: nat)

  /** r_srv_record_t. */
  datatype Record = Record(target: Option<Ptr>, port: nat, priority: nat, weight: nat, ttlMs: nat)

  const ZeroRecord := Record(None, 0, 0, 0, 0)

  /** rn_srv_records_t. */
  datatype Array = Array(records: Option<Ptr>, targets: Option<Ptr>, count: nat)

  const ZeroArray := Array(None, None, 0)

  datatype Block = Records(rs: seq<Record>) | Targets(ts: seq<Option<Ptr>>) | Text(bytes: string)

  /** The pointers in a target table. */
  ghost function Pointers(ts: seq<Option<Ptr>>): set<Ptr> {
    set i | 0 <= i < |ts| && ts[i].Some? :: ts[i].value
  }

  ghost predicate Distinct(ts: seq<Option<Ptr>>) {
    forall i, j | 0 <= i < j < |ts| && ts[i].Some? && ts[j].Some? :: ts[i].value != ts[j].value
  }

  lemma PointersPush(ts: seq<Option<Ptr>>, i: nat)
    requires i < |ts|
    ensures Pointers(ts[..i + 1]) == Pointers(ts[..i]) + (if ts[i].Some? then {ts[i].value} else {})
    ensures Distinct(ts) && ts[i].Some? ==> ts[i].value !in Pointers(ts[..i])
  {
    assert ts[..i + 1] == ts[..i] + [ts[i]];
  }

  lemma {:induction false} PointersCard(ts: seq<Option<Ptr>>)
    requires Distinct(ts) && forall i | 0 <= i < |ts| :: ts[i].Some?
    ensures |Pointers(ts)| == |ts|
    decreases |ts|
  {
    if ts != [] {
      PointersCard(ts[..|ts| - 1]);
      PointersPush(ts, |ts| - 1);
      assert ts[..|ts|] == ts;
    }
  }

  /** The pieces of an array are live and different blocks. */
  ghost predicate Owns(blocks: map<Ptr, Block>, a: Array) {
    && (a.records.Some? ==> a.records.value in blocks)
    && (a.targets.None? ==> a.count == 0)
    && (a.targets.Some? ==>
          && a.targets.value in blocks && blocks[a.targets.value].Targets?
          && a.targets != a.records
          && var ts := blocks[a.targets.value].ts;
          && (a.count == |ts| || (a.count == 0 && Pointers(ts) == {}))
          && Distinct(ts) && Pointers(ts) <= blocks.Keys
          && a.targets.value !in Pointers(ts) && (a.records.Some? ==> a.records.value !in Pointers(ts)))
  }

  ghost function Pieces(blocks: map<Ptr, Block>, a: Array): set<Ptr>
    requires Owns(blocks, a)
  {
    (if a.records.Some? then {a.records.value} else {})
    + (if a.targets.Some? then {a.targets.value} + Pointers(blocks[a.targets.value].ts) else {})
  }

  /** A source that a record can be made from. */
  predicate Usable(s: Source) {
    s.target.Some? && s.target.value != "" && |s.target.value| != SIZE_MAX
  }

  /** Record `r` and the block of its target say what source `s` says. */
  ghost predicate Copies(blocks: map<Ptr, Block>, s: Source, r: Record) {
    && s.target.Some? && r.target.Some? && r.target.value in blocks
    && blocks[r.target.value] == Text(s.target.value + "\0")
    && r == Record(r.target, s.port, s.priority, s.weight, s.ttlMs)
  }

  ghost predicate Done(blocks: map<Ptr, Block>, s: Source, t: Option<Ptr>, r: Record) {
    t.Some? && r.target == t && Copies(blocks, s, r)
  }

  /** A finished array: the records copy the sources in order, each with its own target block. */
  ghost predicate Built(blocks: map<Ptr, Block>, sources: seq<Source>, a: Array) {
    && Owns(blocks, a) && a.records.Some? && a.targets.Some? && a.count == |sources|
    && blocks[a.records.value].Records?
    && var rs, ts := blocks[a.records.value].rs, blocks[a.targets.value].ts;
    && |rs| == |ts| == |sources|
    && forall i | 0 <= i < |sources| :: rs[i].target == ts[i] && Copies(blocks, sources[i], rs[i])
  }

  class Heap {
    var blocks: map<Ptr, Block>
    var next: nat            // every address at or above this one is unused
    var refused: nat         // how many allocations have failed

    ghost predicate Valid()
      reads this
    {
      forall p | p in blocks :: p < next
    }

    constructor ()
      ensures Valid() && blocks == map[] && refused == 0
    {
      blocks, next, refused := map[], 0, 0;
    }

    /** An allocation that its caller fills with `content` at once. It may fail at any time. */
    method Alloc(content: Block) returns (p: Option<Ptr>)
      requires Valid()
      modifies this
      ensures Valid()
      ensures p.None? ==> blocks == old(blocks) && refused == old(refused) + 1
      ensures p.Some? ==> refused == old(refused)
      ensures p.Some? ==> p.value !in old(blocks) && blocks == old(blocks)[p.value := content]
    {
      if * {
        refused := refused + 1;
        return None;
      }
      blocks := blocks[next := content];
      next := next + 1;
      return Some(next - 1);
    }

    method Free(p: Ptr)
      requires Valid() && p in blocks
      modifies this`blocks
      ensures Valid() && blocks == old(blocks) - {p}
    {
      blocks := blocks - {p};
    }

    /** Frees every piece of an array once, and leaves the all-zero array. */
    method FreeRecords(a: Array) returns (zero: Array)
      requires Valid() && Owns(blocks, a)
      modifies this`blocks
      ensures Valid() && zero == ZeroArray
      ensures blocks == old(blocks) - Pieces(old(blocks), a)
    {
      if a.targets.Some? {
        ghost var ts := blocks[a.targets.value].ts;
        var i := 0;
        while i < a.count
          invariant 0 <= i <= a.count && Valid()
          invariant blocks == old(blocks) - Pointers(ts[..i])
          invariant a.targets.value in blocks && blocks[a.targets.value] == Targets(ts)
        {
          PointersPush(ts, i);
          assert ts[i].Some? ==> ts[i].value in Pointers(ts);
          if blocks[a.targets.value].ts[i].Some? {
            Free(blocks[a.targets.value].ts[i].value);
          }
          i := i + 1;
        }
        assert Pointers(ts[..i]) == Pointers(ts) by { if a.count == |ts| { assert ts[..i] == ts; } }
        Free(a.targets.value);
      }
      if a.records.Some? {
        Free(a.records.value);
      }
      return ZeroArray;
    }

    /** Freeing twice is harmless. */
    method FreeTwice(a: Array) returns (zero: Array)
      requires Valid() && Owns(blocks, a)
      modifies this`blocks
      ensures zero == ZeroArray && blocks == old(blocks) - Pieces(old(blocks), a)
    {
      zero := FreeRecords(a);
      zero := FreeRecords(zero);
    }

    method BuildArrays(sources: seq<Source>, recordSize: nat) returns (ok: bool, out: Array)
      requires Valid() && recordSize >= 1
      modifies this
      ensures Valid()
      ensures !ok ==> blocks == old(blocks) && out == ZeroArray
      ensures ok ==> Started(blocks, old(blocks), sources, out, 0)
      ensures refused >= old(refused)
      ensures ok <==> && 0 < |sources| <= SIZE_MAX / recordSize && |sources| <= SIZE_MAX / ADDRESS_SIZE
                      && refused == old(refused)
    {
      out := ZeroArray;
      if |sources| == 0 || |sources| > SIZE_MAX / recordSize || |sources| > SIZE_MAX / ADDRESS_SIZE {
        return false, out;
      }
      var records := Alloc(Records(seq(|sources|, _ => ZeroRecord)));
      out := out.(records := records);
      if records.None? {
        return false, ZeroArray;
      }
      var targets := Alloc(Targets(seq(|sources|, _ => None)));
      out := out.(targets := targets);
      if targets.None? {
        out := FreeRecords(out);
        assert blocks == old(blocks);
        return false, out;
      }
      out := out.(count := |sources|);
      return true, out;
    }

    /** Fills record `i`, or fails and changes nothing but the allocation count. */
    method FillRecord(ghost before: map<Ptr, Block>, sources: seq<Source>, out: Array, i: nat) returns (ok: bool)
      requires Valid() && i < |sources| && Started(blocks, before, sources, out, i)
      modifies this
      ensures Valid()
      ensures ok ==> Started(blocks, before, sources, out, i + 1)
      ensures !ok ==> blocks == old(blocks)
      ensures refused >= old(refused)
      ensures ok <==> Usable(sources[i]) && refused == old(refused)
    {
      var s := sources[i];
      if s.target.None? || |s.target.value| == 0 || |s.target.value| == SIZE_MAX {
        return false;
      }
      var target := Alloc(Text(s.target.value + "\0"));
      if target.None? {
        return false;
      }
      ghost var ts, rs := blocks[out.targets.value].ts, blocks[out.records.value].rs;
      FillKeepsStarted(old(blocks), before, sources, out, i, target.value);
      blocks := blocks[out.targets.value := Targets(blocks[out.targets.value].ts[i := target])];
      blocks := blocks[out.records.value :=
        Records(blocks[out.records.value].rs[i := Record(target, s.port, s.priority, s.weight, s.ttlMs)])];
      return true;
    }

    /** Fills records in order and stops at the first one that fails. */
    method FillRecords(ghost before: map<Ptr, Block>, sources: seq<Source>, out: Array)
      returns (ok: bool, ghost done: nat)
      requires Valid() && Started(blocks, before, sources, out, 0)
      modifies this
      ensures Valid() && Started(blocks, before, sources, out, done)
      ensures ok ==> done == |sources|
      ensures refused >= old(refused)
      ensures ok <==> && (forall i {:trigger Usable(sources[i])} | 0 <= i < |sources| :: Usable(sources[i]))
                      && refused == old(refused)
    {
      var i := 0;
      while i < |sources|
        invariant 0 <= i <= |sources| && Valid()
        invariant Started(blocks, before, sources, out, i)
        invariant refused == old(refused)
        invariant forall j {:trigger Usable(sources[j])} | 0 <= j < i :: Usable(sources[j])
      {
        ok := FillRecord(before, sources, out, i);
        if !ok {
          return false, i;
        }
        i := i + 1;
      }
      return true, i;
    }

    /** Success exactly when the sizes fit, every source is usable and no allocation is refused.
        Success leaves count + 2 new blocks holding the copied records; failure leaves the heap as
        it was and an all-zero array. */
    method Build(sources: seq<Source>, recordSize: nat) returns (ok: bool, out: Array)
      requires Valid() && recordSize >= 1
      modifies this
      ensures Valid()
      ensures !ok ==> blocks == old(blocks) && out == ZeroArray
      ensures ok ==>
                && Built(blocks, sources, out)
                && Pieces(blocks, out) !! old(blocks).Keys && |Pieces(blocks, out)| == |sources| + 2
                && blocks - Pieces(blocks, out) == old(blocks)
      ensures ok <==>
                && 0 < |sources| <= SIZE_MAX / recordSize && |sources| <= SIZE_MAX / ADDRESS_SIZE
                && (forall i {:trigger Usable(sources[i])} | 0 <= i < |sources| :: Usable(sources[i]))
                && refused == old(refused)
    {
      ghost var before := blocks;
      ok, out := BuildArrays(sources, recordSize);
      if !ok {
        return;
      }
      ghost var done;
      ok, done := FillRecords(before, sources, out);
      StartedPieces(blocks, before, sources, out, done);
      if !ok {
        out := FreeRecords(out);
        return;
      }
      StartedIsBuilt(blocks, before, sources, out);
    }
  }

  /** The heap while the array is being filled: `i` records are done, every block of `before` is as
      it was, and there is no other block. */
  ghost predicate Started(blocks: map<Ptr, Block>, before: map<Ptr, Block>, sources: seq<Source>, a: Array, i: nat) {
    && i <= |sources| && a.count == |sources|
    && a.records.Some? && a.targets.Some? && Owns(blocks, a)
    && blocks[a.records.value].Records?
    && var rs, ts := blocks[a.records.value].rs, blocks[a.targets.value].ts;
    && |rs| == |ts| == |sources|
    && (forall j {:trigger Done(blocks, sources[j], ts[j], rs[j])} | 0 <= j < i :: Done(blocks, sources[j], ts[j], rs[j]))
    && (forall j | i <= j < |sources| :: ts[j].None?)
    && Pieces(blocks, a) !! before.Keys
    && blocks.Keys == before.Keys + Pieces(blocks, a)
    && (forall p {:trigger before[p]} | p in before :: blocks[p] == before[p])
  }

  lemma StartedPieces(blocks: map<Ptr, Block>, before: map<Ptr, Block>, sources: seq<Source>, a: Array, i: nat)
    requires Started(blocks, before, sources, a, i)
    ensures blocks - Pieces(blocks, a) == before
  {
    assert (blocks - Pieces(blocks, a)).Keys == before.Keys;
  }

  lemma StartedIsBuilt(blocks: map<Ptr, Block>, before: map<Ptr, Block>, sources: seq<Source>, a: Array)
    requires Started(blocks, before, sources, a, |sources|)
    ensures Built(blocks, sources, a) && |Pieces(blocks, a)| == |sources| + 2
  {
    var ts, rs := blocks[a.targets.value].ts, blocks[a.records.value].rs;
    assert forall j {:trigger ts[j]} | 0 <= j < |sources| :: Done(blocks, sources[j], ts[j], rs[j]);
    PointersCard(ts);
    assert Pieces(blocks, a) == Pointers(ts) + {a.records.value} + {a.targets.value};
  }

  /** Adding target block `p` and writing record `i` takes the array one step further. */
  lemma FillKeepsStarted(blocks: map<Ptr, Block>, before: map<Ptr, Block>, sources: seq<Source>, a: Array, i: nat, p: Ptr)
    requires Started(blocks, before, sources, a, i) && i < |sources| && Usable(sources[i])
    requires p !in blocks
    ensures
      var s := sources[i];
      var ts, rs := blocks[a.targets.value].ts, blocks[a.records.value].rs;
      var b1 := blocks[p := Text(s.target.value + "\0")];
      var b2 := b1[a.targets.value := Targets(ts[i := Some(p)])];
      var b3 := b2[a.records.value := Records(rs[i := Record(Some(p), s.port, s.priority, s.weight, s.ttlMs)])];
      Started(b3, before, sources, a, i + 1)
  {
    var s := sources[i];
    var ts, rs := blocks[a.targets.value].ts, blocks[a.records.value].rs;
    var b1 := blocks[p := Text(s.target.value + "\0")];
    var b2 := b1[a.targets.value := Targets(ts[i := Some(p)])];
    var b3 := b2[a.records.value := Records(rs[i := Record(Some(p), s.port, s.priority, s.weight, s.ttlMs)])];
    PointersSet(ts, i, p);
    assert Pieces(b3, a) == Pieces(blocks, a) + {p};
    var ts', rs' := b3[a.targets.value].ts, b3[a.records.value].rs;
    forall j | 0 <= j < i + 1
      ensures Done(b3, sources[j], ts'[j], rs'[j])
    {
      if j < i {
        assert Done(blocks, sources[j], ts[j], rs[j]);
        assert ts[j].value in Pointers(ts);
      }
    }
  }

  lemma PointersSet(ts: seq<Option<Ptr>>, i: nat, p: Ptr)
    requires i < |ts| && ts[i].None? && p !in Pointers(ts)
    ensures Pointers(ts[i := Some(p)]) == Pointers(ts) + {p}
    ensures Distinct(ts) ==> Distinct(ts[i := Some(p)])
  {
    var ts' := ts[i := Some(p)];
    forall q | q in Pointers(ts) ensures q in Pointers(ts') {
      var j :| 0 <= j < |ts| && ts[j].Some? && ts[j].value == q;
      assert ts'[j] == ts[j];
    }
    assert ts'[i] == Some(p);
    forall j | 0 <= j < |ts| && ts[j].Some? ensures ts[j].value != p {
      assert ts[j].value in Pointers(ts);
    }
  }
}
