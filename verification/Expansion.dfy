/**
 Expanding the rules in effect into the request that is submitted: a counting pass sizes the arrays,
 a second pass fills them.

 What rendering the zones, the guards and the label for one request gives, and whether the arrays
 could be allocated, is an argument: any value, and any failure the code tells apart.
 */
module Expansion {
  import opened Wrappers
  import opened Config

  /** How building one entry ended. */
  datatype Build = Built | Unavailable | Internal

  datatype Resource = Resource(zone: string, rendered: string)

  datatype GuardEntry = GuardEntry(guard: nat, rendered: string)

  /** What one entry renders to, and how building it ended. */
  datatype Rendered = Rendered(build: Build, value: string)

  /** What the request renders to, by resource cell and guard entry. */
  datatype Rendering = Rendering(arrays: bool, zone: nat -> Rendered, guard: nat -> Rendered, text: Option<string>)

  datatype Outcome =
    | NoRules                     // the rule list is empty
    | NothingAsked                // the rules expand to nothing
    | LookupFailed                // a reference does not resolve
    | BuildFailed(build: Build)   // an entry could not be built, or an allocation failed
    | Submit

  /** The zones a rule asks for, in order. */
  function ZonesOf(t: Tables, r: Rule): seq<string> {
    match r.kind
    case ZoneRule => [r.name]
    case GroupRule => GroupZones(t, r.name)
    case GuardOnly => []
  }

  /** The zones of the first group with this name. */
  function GroupZones(t: Tables, name: string): seq<string> {
    var i := FirstIndex(GroupNames(t), name);
    if i < |t.groups| then t.groups[i].zones else []
  }

  /** The first position of `x`, or the length. */
  function FirstIndex(xs: seq<string>, x: string): (i: nat)
    ensures i <= |xs| && x !in xs[..i] && (i < |xs| ==> xs[i] == x)
  {
    if xs == [] then 0 else if xs[0] == x then 0 else
      var i := FirstIndex(xs[1..], x);
      assert xs[..i + 1] == [xs[0]] + xs[1..][..i];
      i + 1
  }

  lemma {:induction false} FirstIndexIs(xs: seq<string>, x: string, i: nat)
    requires i < |xs| && xs[i] == x && x !in xs[..i]
    ensures FirstIndex(xs, x) == i
  {
    if i > 0 {
      assert xs[..i] == [xs[0]] + xs[1..][..i - 1];
      FirstIndexIs(xs[1..], x, i - 1);
    }
  }

  /** All zones asked for, rule by rule, with repeats. */
  function Flatten(t: Tables, rules: seq<Rule>): seq<string> {
    if rules == [] then [] else Flatten(t, rules[..|rules| - 1]) + ZonesOf(t, rules[|rules| - 1])
  }

  /** All guard references, rule by rule, with repeats. */
  function Refs(rules: seq<Rule>): seq<string> {
    if rules == [] then [] else Refs(rules[..|rules| - 1]) + rules[|rules| - 1].guards
  }

  /** Each reference once, where it is first seen. */
  function FirstSeen(refs: seq<string>): (r: seq<string>)
    ensures |r| <= |refs|
  {
    if refs == [] then []
    else
      var front, last := FirstSeen(refs[..|refs| - 1]), refs[|refs| - 1];
      if last in front then front else front + [last]
  }

  /** That is a list without duplicates of exactly the references, in the order of their first
      occurrences. */
  lemma {:induction false} FirstSeenMeans(refs: seq<string>)
    ensures Unique(FirstSeen(refs)) && forall g :: g in FirstSeen(refs) <==> g in refs
    ensures forall i, j | 0 <= i < j < |FirstSeen(refs)| ::
              FirstIndex(refs, FirstSeen(refs)[i]) < FirstIndex(refs, FirstSeen(refs)[j])
  {
    if refs != [] {
      var front, last := refs[..|refs| - 1], refs[|refs| - 1];
      FirstSeenMeans(front);
      assert refs == front + [last];
      var r := FirstSeen(front);
      forall g | g in front ensures FirstIndex(refs, g) == FirstIndex(front, g) < |front| {
        var i := FirstIndex(front, g);
        assert front[..|front|] == front;
        assert refs[..i] == front[..i];
        FirstIndexIs(refs, g, i);
      }
      if last !in r {
        assert refs[..|front|] == front;
        FirstIndexIs(refs, last, |front|);
        assert forall i | 0 <= i < |r| :: r[i] in front;
      }
    }
  }

  lemma FlattenPush(t: Tables, rules: seq<Rule>, i: nat)
    requires i < |rules|
    ensures Flatten(t, rules[..i + 1]) == Flatten(t, rules[..i]) + ZonesOf(t, rules[i])
    ensures Refs(rules[..i + 1]) == Refs(rules[..i]) + rules[i].guards
  {
    assert rules[..i + 1][..i] == rules[..i];
  }

  lemma {:induction false} FlattenGrows(t: Tables, rules: seq<Rule>, i: nat)
    requires i <= |rules|
    ensures Flatten(t, rules[..i]) <= Flatten(t, rules) && Refs(rules[..i]) <= Refs(rules)
    decreases |rules|
  {
    if i < |rules| {
      var front := rules[..|rules| - 1];
      FlattenGrows(t, front, i);
      assert front[..i] == rules[..i];
    } else {
      assert rules[..i] == rules;
    }
  }

  // ---- What the flattened list is ------------------------------------------------------------------

  /** The zones that a rule asks for: of a zone rule that zone, of a group rule the zones listed by the
      group of that name, of a guard-only rule none. */
  ghost predicate AsksFor(t: Tables, r: Rule, zones: seq<string>) {
    match r.kind
    case ZoneRule => zones == [r.name]
    case GroupRule => exists g | g in t.groups :: g.name == r.name && g.zones == zones
    case GuardOnly => zones == []
  }

  lemma AsksForIs(t: Tables, r: Rule, zones: seq<string>)
    requires Consistent(t) && AsksFor(t, r, zones)
    ensures ZonesOf(t, r) == zones
  {
    if r.kind == GroupRule {
      var g :| g in t.groups && g.name == r.name && g.zones == zones;
      var i :| 0 <= i < |t.groups| && t.groups[i] == g;
      var names := GroupNames(t);
      assert forall j | 0 <= j < i :: names[j] != names[i];
      FirstIndexIs(names, r.name, i);
    }
  }

  lemma AsksForSome(t: Tables, r: Rule) returns (zones: seq<string>)
    requires Consistent(t) && RuleResolves(t, r)
    ensures AsksFor(t, r, zones)
  {
    zones := [r.name];
    if r.kind == GroupRule {
      var i :| 0 <= i < |t.groups| && GroupNames(t)[i] == r.name;
      zones := t.groups[i].zones;
      assert t.groups[i] in t.groups;
    } else if r.kind == GuardOnly {
      zones := [];
    }
  }

  /** Every rule adds exactly its zones, in order, after those of the rules before it: zone `j` of rule
      `i` stands `j` places after what the rules before `i` ask for. */
  lemma FlattenPositions(t: Tables, rules: seq<Rule>, i: nat, zones: seq<string>)
    requires Consistent(t) && i < |rules| && AsksFor(t, rules[i], zones)
    ensures
      var before, upto := |Flatten(t, rules[..i])|, |Flatten(t, rules[..i + 1])|;
      && upto == before + |zones| <= |Flatten(t, rules)|
      && Flatten(t, rules)[before..upto] == zones
  {
    AsksForIs(t, rules[i], zones);
    FlattenPush(t, rules, i);
    FlattenGrows(t, rules, i + 1);
    PrefixSlice(Flatten(t, rules[..i]), zones, Flatten(t, rules));
  }

  lemma PrefixSlice(a: seq<string>, b: seq<string>, whole: seq<string>)
    requires a + b <= whole
    ensures |a + b| == |a| + |b| <= |whole| && whole[|a|..|a| + |b|] == b
  {
    assert whole[|a|..|a| + |b|] == (a + b)[|a|..];
  }

  /** The list has nothing but what its rules ask for. */
  lemma {:induction false} FlattenLength(t: Tables, rules: seq<Rule>, zones: seq<seq<string>>)
    requires Consistent(t) && |zones| == |rules| && forall i | 0 <= i < |rules| :: AsksFor(t, rules[i], zones[i])
    ensures |Flatten(t, rules)| == Total(zones)
  {
    if rules != [] {
      var last := |rules| - 1;
      FlattenLength(t, rules[..last], zones[..last]);
      AsksForIs(t, rules[last], zones[last]);
    }
  }

  ghost function Total(zones: seq<seq<string>>): nat {
    if zones == [] then 0 else Total(zones[..|zones| - 1]) + |zones[|zones| - 1]|
  }

  /** Likewise the references: those of rule `i` stand after those of the rules before it, and there are
      no others. */
  lemma {:induction false} RefsPositions(rules: seq<Rule>, i: nat)
    requires i < |rules|
    ensures
      var before, upto := |Refs(rules[..i])|, |Refs(rules[..i + 1])|;
      && upto == before + |rules[i].guards| <= |Refs(rules)|
      && Refs(rules)[before..upto] == rules[i].guards
    ensures |Refs(rules)| == Total(GuardLists(rules))
  {
    var none := Tables([], [], [], []);
    FlattenPush(none, rules, i);
    FlattenGrows(none, rules, i + 1);
    PrefixSlice(Refs(rules[..i]), rules[i].guards, Refs(rules));
    RefsLength(rules);
  }

  ghost function GuardLists(rules: seq<Rule>): (r: seq<seq<string>>)
    ensures |r| == |rules|
  {
    seq(|rules|, i requires 0 <= i < |rules| => rules[i].guards)
  }

  lemma {:induction false} RefsLength(rules: seq<Rule>)
    ensures |Refs(rules)| == Total(GuardLists(rules))
  {
    if rules != [] {
      RefsLength(rules[..|rules| - 1]);
      assert GuardLists(rules)[..|rules| - 1] == GuardLists(rules[..|rules| - 1]);
    }
  }

  /** A zone is asked for exactly if some rule names it, or names a group that lists it. */
  lemma {:induction false} FlattenMembers(t: Tables, rules: seq<Rule>, z: string)
    requires Consistent(t) && Resolve(t, rules)
    ensures z in Flatten(t, rules) <==>
      exists r | r in rules ::
        || (r.kind == ZoneRule && r.name == z)
        || (r.kind == GroupRule && exists g | g in t.groups :: g.name == r.name && z in g.zones)
  {
    if rules != [] {
      var front, last := rules[..|rules| - 1], rules[|rules| - 1];
      FlattenMembers(t, front, z);
      var zones := AsksForSome(t, last);
      AsksForIs(t, last, zones);
      if last.kind == GroupRule {
        forall g | g in t.groups && g.name == last.name ensures g.zones == zones {
          AsksForIs(t, last, g.zones);
        }
      }
      assert forall r :: r in rules <==> r in front || r == last;
    }
  }

  ghost predicate Resolve(t: Tables, rules: seq<Rule>) {
    forall r | r in rules :: RuleResolves(t, r)
  }

  /** In a consistent configuration a nonempty rule list asks for something, and all of it exists. */
  lemma {:induction false} ConsistentAsks(t: Tables, rules: seq<Rule>)
    requires Consistent(t) && Resolve(t, rules)
    ensures rules != [] ==> Flatten(t, rules) != [] || Refs(rules) != []
    ensures forall z | z in Flatten(t, rules) :: z in ZoneNames(t)
    ensures forall g | g in Refs(rules) :: g in GuardNames(t)
  {
    if rules != [] {
      var front, last := rules[..|rules| - 1], rules[|rules| - 1];
      ConsistentAsks(t, front);
      assert RuleResolves(t, last);
      if last.kind == GroupRule {
        var i := FirstIndex(GroupNames(t), last.name);
        assert GroupNames(t)[..|t.groups|] == GroupNames(t);
        assert t.groups[i] in t.groups && GroupResolves(t, t.groups[i]);
      }
    }
  }

  /** A merged context with admission enabled switches the module on, and its rules all resolve and
      ask for something. */
  lemma EnabledContextAsks(t: Tables, mainEnabled: bool, chain: seq<Loc>)
    requires Consistent(t) && |chain| >= 1 && forall i | 0 <= i < |chain| :: Declared(t, mainEnabled, chain[i])
    requires MergeChain(chain).enabled == Some(true)
    ensures
      var rules := MergeChain(chain).rules;
      mainEnabled && rules != [] && Resolve(t, rules) && (Flatten(t, rules) != [] || Refs(rules) != [])
  {
    MergedMeansNearest(t, mainEnabled, chain);
    ConsistentAsks(t, MergeChain(chain).rules);
  }

  // ---- The two passes ----------------------------------------------------------------------------

  method FindGroup(t: Tables, name: string) returns (i: Option<nat>)
    ensures i.Some? <==> name in GroupNames(t)
    ensures i.Some? ==> i.value < |t.groups| && t.groups[i.value].zones == GroupZones(t, name)
  {
    i := Find(GroupNames(t), name);
    if i.Some? {
      FirstIndexIs(GroupNames(t), name, i.value);
    }
  }

  /** How many resource cells and how many guard cells to allocate. */
  method Count(t: Tables, rules: seq<Rule>) returns (found: bool, total: nat, refs: nat)
    ensures found ==> total == |Flatten(t, rules)| && refs == |Refs(rules)|
    ensures !found ==> !Resolve(t, rules)
  {
    total, refs := 0, 0;
    for i := 0 to |rules|
      invariant total == |Flatten(t, rules[..i])| && refs == |Refs(rules[..i])|
    {
      FlattenPush(t, rules, i);
      refs := refs + |rules[i].guards|;
      if rules[i].kind == ZoneRule {
        total := total + 1;
      } else if rules[i].kind == GroupRule {
        var group := FindGroup(t, rules[i].name);
        if group.None? {
          assert !RuleResolves(t, rules[i]);
          return false, total, refs;
        }
        total := total + |t.groups[group.value].zones|;
      }
    }
    assert rules[..|rules|] == rules;
    return true, total, refs;
  }

  /** The zone resource in cell `idx`, as far as the passes depend on it. */
  method BuildZone(rd: Rendering, idx: nat, zone: string) returns (build: Build, cell: Resource)
    ensures build == rd.zone(idx).build && cell == Resource(zone, rd.zone(idx).value)
  {
    return rd.zone(idx).build, Resource(zone, rd.zone(idx).value);
  }

  /** The guard entry `idx`. A guard without its tracker is unavailable. */
  method BuildGuard(t: Tables, rd: Rendering, idx: nat, guard: nat) returns (build: Build, entry: GuardEntry)
    requires guard < |t.guards|
    ensures entry == GuardEntry(guard, rd.guard(idx).value)
    ensures build == if t.guards[guard].tracker in TrackerNames(t) then rd.guard(idx).build else Unavailable
  {
    entry := GuardEntry(guard, rd.guard(idx).value);
    var tracker := Find(TrackerNames(t), t.guards[guard].tracker);
    if tracker.None? {
      return Unavailable, entry;
    }
    build := rd.guard(idx).build;
  }

  /** The cells from the start are for these zones and hold what they render to. */
  ghost predicate ForZones(rd: Rendering, cells: seq<Resource>, zones: seq<string>) {
    && |zones| <= |cells|
    && forall k | 0 <= k < |zones| :: cells[k] == Resource(zones[k], rd.zone(k).value) && rd.zone(k).build == Built
  }

  /** The entries from the start are for these guards and hold what they render to; `defs` points to
      their definitions. */
  ghost predicate ForGuards(t: Tables, rd: Rendering, entries: seq<GuardEntry>, defs: seq<nat>, guards: seq<string>) {
    && |guards| <= |entries| == |defs|
    && forall k | 0 <= k < |guards| ::
         && defs[k] == FirstIndex(GuardNames(t), guards[k]) < |t.guards|
         && entries[k] == GuardEntry(defs[k], rd.guard(k).value) && rd.guard(k).build == Built
  }

  /** One of the first `n` cells could not be built, for this reason. */
  ghost predicate ZoneFails(rd: Rendering, n: nat, build: Build) {
    build != Built && exists k | 0 <= k < n :: rd.zone(k).build == build
  }

  /** One of the first `n` entries could not be built, for this reason. */
  ghost predicate GuardFails(rd: Rendering, n: nat, build: Build) {
    build != Built && exists k | 0 <= k < n :: rd.guard(k).build == build
  }

  /** One zone into the next resource cell. */
  method AddResource(t: Tables, rd: Rendering, resources: array<Resource>, idx: nat, zone: string, ghost done: seq<string>)
    returns (outcome: Outcome)
    requires idx == |done| < resources.Length && ForZones(rd, resources[..], done)
    modifies resources
    ensures outcome.Submit? ==> ForZones(rd, resources[..], done + [zone])
    ensures outcome == LookupFailed <==> zone !in ZoneNames(t)
    ensures outcome.Submit? || outcome == LookupFailed || outcome.BuildFailed?
    ensures outcome.BuildFailed? ==> ZoneFails(rd, |done| + 1, outcome.build)
  {
    var found := Find(ZoneNames(t), zone);
    if found.None? {
      return LookupFailed;
    }
    ghost var before := resources[..];
    var build;
    build, resources[idx] := BuildZone(rd, idx, zone);
    assert forall k | 0 <= k < idx :: resources[..][k] == before[k];
    if build != Built {
      return BuildFailed(build);
    }
    return Submit;
  }

  /** The zones of one rule into the next resource cells. */
  method AddZones(t: Tables, rd: Rendering, resources: array<Resource>, idx0: nat, rule: Rule, ghost done: seq<string>)
    returns (outcome: Outcome, idx: nat)
    requires idx0 == |done| && |done| + |ZonesOf(t, rule)| <= resources.Length && ForZones(rd, resources[..], done)
    modifies resources
    ensures outcome.Submit? ==> idx == idx0 + |ZonesOf(t, rule)| && ForZones(rd, resources[..], done + ZonesOf(t, rule))
    ensures outcome == LookupFailed ==> !(Consistent(t) && RuleResolves(t, rule))
    ensures outcome.Submit? || outcome == LookupFailed || outcome.BuildFailed?
    ensures outcome.BuildFailed? ==> ZoneFails(rd, |done| + |ZonesOf(t, rule)|, outcome.build)
  {
    idx := idx0;
    if rule.kind == ZoneRule {
      outcome := AddResource(t, rd, resources, idx, rule.name, done);
      idx := idx + 1;
    } else if rule.kind == GroupRule {
      var group := FindGroup(t, rule.name);
      if group.None? {
        return LookupFailed, idx;
      }
      var zones := t.groups[group.value].zones;
      for j := 0 to |zones|
        invariant idx == idx0 + j && ForZones(rd, resources[..], done + zones[..j])
      {
        outcome := AddResource(t, rd, resources, idx, zones[j], done + zones[..j]);
        if !outcome.Submit? {
          assert t.groups[group.value] in t.groups && zones[j] in zones;
          assert outcome == LookupFailed ==> !GroupResolves(t, t.groups[group.value]);
          return;
        }
        assert done + zones[..j] + [zones[j]] == done + zones[..j + 1];
        idx := idx + 1;
      }
      assert zones[..|zones|] == zones;
      outcome := Submit;
    } else {
      assert done + [] == done;
      outcome := Submit;
    }
  }

  /** Whether this definition already has an entry. */
  method AlreadyAdded(defs: array<nat>, count: nat, guard: nat) returns (already: bool)
    requires count <= defs.Length
    ensures already <==> guard in defs[..count]
  {
    for g := 0 to count
      invariant guard !in defs[..g]
    {
      if defs[g] == guard {
        return true;
      }
    }
    return false;
  }

  /** One reference: nothing if its guard has an entry already, a new entry otherwise. */
  method AddGuardRef(t: Tables, rd: Rendering, entries: array<GuardEntry>, defs: array<nat>, idx0: nat, name: string,
                     ghost done: seq<string>)
    returns (outcome: Outcome, idx: nat)
    requires idx0 == |FirstSeen(done)| < entries.Length == defs.Length
    requires ForGuards(t, rd, entries[..], defs[..], FirstSeen(done))
    modifies entries, defs
    ensures outcome.Submit? ==>
      && idx == |FirstSeen(done + [name])| && ForGuards(t, rd, entries[..], defs[..], FirstSeen(done + [name]))
    ensures outcome == LookupFailed <==> name !in GuardNames(t)
    ensures outcome.Submit? || outcome == LookupFailed || outcome.BuildFailed?
    ensures outcome.BuildFailed? && Consistent(t) ==> GuardFails(rd, |FirstSeen(done + [name])|, outcome.build)
  {
    idx := idx0;
    ghost var seen := FirstSeen(done);
    assert (done + [name])[..|done|] == done;
    var guard := Find(GuardNames(t), name);
    if guard.None? {
      return LookupFailed, idx;
    }
    FirstIndexIs(GuardNames(t), name, guard.value);
    var already := AlreadyAdded(defs, idx, guard.value);
    AddedMeansSeen(t, rd, entries[..], defs[..], seen, name);
    if already {
      return Submit, idx;
    }
    ghost var entries0, defs0 := entries[..], defs[..];
    var build;
    build, entries[idx] := BuildGuard(t, rd, idx, guard.value);
    if build != Built {
      assert t.guards[guard.value] in t.guards;
      return BuildFailed(build), idx;
    }
    defs[idx] := guard.value;
    assert forall k | 0 <= k < idx :: entries[..][k] == entries0[k] && defs[..][k] == defs0[k];
    idx := idx + 1;
    outcome := Submit;
  }

  /** A definition has an entry exactly when its name has been seen. */
  lemma AddedMeansSeen(t: Tables, rd: Rendering, entries: seq<GuardEntry>, defs: seq<nat>, seen: seq<string>, name: string)
    requires ForGuards(t, rd, entries, defs, seen) && name in GuardNames(t)
    ensures FirstIndex(GuardNames(t), name) in defs[..|seen|] <==> name in seen
  {
    var names := GuardNames(t);
    assert names[..|names|] == names;
    assert names[FirstIndex(names, name)] == name;
    if name in seen {
      var k :| 0 <= k < |seen| && seen[k] == name;
      assert defs[..|seen|][k] == FirstIndex(names, name);
    }
    forall k | 0 <= k < |seen| && defs[..|seen|][k] == FirstIndex(names, name) ensures name in seen {
      assert names[defs[k]] == seen[k];
    }
  }

  lemma {:induction false} FirstSeenGrows(refs: seq<string>, i: nat)
    requires i <= |refs|
    ensures |FirstSeen(refs[..i])| <= |FirstSeen(refs)|
    decreases |refs|
  {
    if i < |refs| {
      FirstSeenGrows(refs[..|refs| - 1], i);
      assert refs[..|refs| - 1][..i] == refs[..i];
    } else {
      assert refs[..i] == refs;
    }
  }

  lemma FirstSeenSoFar(done: seq<string>, refs: seq<string>, k: nat)
    requires k < |refs|
    ensures done + refs[..k] + [refs[k]] == done + refs[..k + 1]
    ensures |FirstSeen(done + refs[..k + 1])| <= |FirstSeen(done + refs)|
  {
    assert (done + refs)[..|done| + k + 1] == done + refs[..k + 1];
    FirstSeenGrows(done + refs, |done| + k + 1);
  }

  /** The references of one rule. */
  method AddGuards(t: Tables, rd: Rendering, entries: array<GuardEntry>, defs: array<nat>, idx0: nat, refs: seq<string>,
                   ghost done: seq<string>)
    returns (outcome: Outcome, idx: nat)
    requires idx0 == |FirstSeen(done)| && |done| + |refs| <= entries.Length == defs.Length
    requires ForGuards(t, rd, entries[..], defs[..], FirstSeen(done))
    modifies entries, defs
    ensures outcome.Submit? ==>
      && idx == |FirstSeen(done + refs)| && ForGuards(t, rd, entries[..], defs[..], FirstSeen(done + refs))
    ensures outcome == LookupFailed ==> exists g :: g in refs && g !in GuardNames(t)
    ensures outcome.Submit? || outcome == LookupFailed || outcome.BuildFailed?
    ensures outcome.BuildFailed? && Consistent(t) ==> GuardFails(rd, |FirstSeen(done + refs)|, outcome.build)
  {
    idx := idx0;
    assert done + refs[..0] == done;
    for k := 0 to |refs|
      invariant idx == |FirstSeen(done + refs[..k])|
      invariant ForGuards(t, rd, entries[..], defs[..], FirstSeen(done + refs[..k]))
    {
      FirstSeenSoFar(done, refs, k);
      outcome, idx := AddGuardRef(t, rd, entries, defs, idx, refs[k], done + refs[..k]);
      if !outcome.Submit? {
        assert refs[k] in refs;
        return;
      }
    }
    assert refs[..|refs|] == refs;
    outcome := Submit;
  }

  /** The label of a request: nothing if none is configured or it renders to nothing. */
  method RenderLabel(rd: Rendering, labelSet: bool) returns (ok: bool, text: string)
    ensures ok <==> labelSet ==> rd.text.Some? && |rd.text.value| <= MAX_LABEL_LEN
    ensures ok ==> text == if labelSet then rd.text.value else ""
  {
    text := "";
    if labelSet {
      if rd.text.None? {
        return false, "";
      }
      if |rd.text.value| > 0 {
        if |rd.text.value| > MAX_LABEL_LEN {
          return false, "";
        }
        text := rd.text.value;
      }
    }
    return true, text;
  }

  /** The label is not configured, or renders to at most 256 characters. */
  ghost predicate LabelFits(rd: Rendering, labelSet: bool) {
    labelSet ==> rd.text.Some? && |rd.text.value| <= MAX_LABEL_LEN
  }

  /** Every cell of the expanded rules and every entry of their guards can be built. */
  ghost predicate AllBuilt(t: Tables, rules: seq<Rule>, rd: Rendering) {
    && (forall k | 0 <= k < |Flatten(t, rules)| :: rd.zone(k).build == Built)
    && (forall k | 0 <= k < |FirstSeen(Refs(rules))| :: rd.guard(k).build == Built)
  }

  /** Both passes and the label. What is submitted has every counted resource cell filled, in order and
      with repeats, the guards in first-seen order without repeats, and a label that fits. A consistent
      configuration is submitted if and only if the arrays were granted and everything could be built;
      otherwise the reason is one of those. */
  method Expand(t: Tables, rules: seq<Rule>, labelSet: bool, rd: Rendering)
    returns (outcome: Outcome, resources: array<Resource>, idx: nat, entries: array<GuardEntry>, guardIdx: nat, text: string)
    ensures fresh(resources) && fresh(entries)
    ensures outcome.Submit? ==>
      && idx == resources.Length == |Flatten(t, rules)| && ForZones(rd, resources[..], Flatten(t, rules))
    ensures outcome.Submit? ==>
      && guardIdx == |FirstSeen(Refs(rules))| <= entries.Length == |Refs(rules)|
      && (forall k | 0 <= k < guardIdx ::
            && FirstIndex(GuardNames(t), FirstSeen(Refs(rules))[k]) < |t.guards|
            && entries[k] == GuardEntry(FirstIndex(GuardNames(t), FirstSeen(Refs(rules))[k]), rd.guard(k).value))
    ensures outcome.Submit? ==> idx + guardIdx > 0 && LabelFits(rd, labelSet) && text == if labelSet then rd.text.value else ""
    ensures Consistent(t) && Resolve(t, rules) && rules != [] ==>
      && (outcome.Submit? <==> rd.arrays && AllBuilt(t, rules, rd) && LabelFits(rd, labelSet))
      && (!outcome.Submit? ==> outcome.BuildFailed?)
    ensures Consistent(t) && outcome.BuildFailed? ==>
      || (outcome.build == Internal && !rd.arrays)
      || ZoneFails(rd, |Flatten(t, rules)|, outcome.build) || GuardFails(rd, |FirstSeen(Refs(rules))|, outcome.build)
      || (outcome.build == Unavailable && !LabelFits(rd, labelSet))
  {
    resources, entries := new Resource[0], new GuardEntry[0];
    idx, guardIdx, text := 0, 0, "";
    if |rules| == 0 {
      outcome := NoRules;
      return;
    }
    var found, total, refs := Count(t, rules);
    if !found {
      outcome := LookupFailed;
      return;
    }
    if total == 0 && refs == 0 {
      if Consistent(t) && Resolve(t, rules) {
        ConsistentAsks(t, rules);
      }
      outcome := NothingAsked;
      return;
    }
    if !rd.arrays {
      outcome := BuildFailed(Internal);
      return;
    }
    resources := new Resource[total];
    entries := new GuardEntry[refs];
    var defs := new nat[refs];
    outcome, idx, guardIdx := Fill(t, rules, rd, resources, entries, defs);
    if refs > 0 {
      FirstSeenNonempty(Refs(rules));
    }
    if outcome != Submit {
      return;
    }
    var ok;
    ok, text := RenderLabel(rd, labelSet);
    if !ok {
      outcome := BuildFailed(Unavailable);
    }
  }

  lemma FirstSeenNonempty(refs: seq<string>)
    requires refs != []
    ensures FirstSeen(refs) != []
  {
  }

  lemma RefsSeenSoFar(rules: seq<Rule>, i: nat)
    requires i <= |rules|
    ensures |FirstSeen(Refs(rules[..i]))| <= |FirstSeen(Refs(rules))|
  {
    FlattenGrows(Tables([], [], [], []), rules, i);
    assert Refs(rules)[..|Refs(rules[..i])|] == Refs(rules[..i]);
    FirstSeenGrows(Refs(rules), |Refs(rules[..i])|);
  }

  method Fill(t: Tables, rules: seq<Rule>, rd: Rendering, resources: array<Resource>, entries: array<GuardEntry>, defs: array<nat>)
    returns (outcome: Outcome, idx: nat, guardIdx: nat)
    requires resources.Length == |Flatten(t, rules)| && entries.Length == defs.Length == |Refs(rules)|
    modifies resources, entries, defs
    ensures outcome.Submit? || outcome == LookupFailed || outcome.BuildFailed?
    ensures outcome.Submit? ==> idx == resources.Length && ForZones(rd, resources[..], Flatten(t, rules))
    ensures outcome.Submit? ==> guardIdx == |FirstSeen(Refs(rules))|
                                && ForGuards(t, rd, entries[..], defs[..], FirstSeen(Refs(rules)))
    ensures outcome == LookupFailed ==> !(Consistent(t) && Resolve(t, rules))
    ensures outcome.BuildFailed? && Consistent(t) ==>
      ZoneFails(rd, |Flatten(t, rules)|, outcome.build) || GuardFails(rd, |FirstSeen(Refs(rules))|, outcome.build)
  {
    idx, guardIdx := 0, 0;
    for i := 0 to |rules|
      invariant idx == |Flatten(t, rules[..i])| && ForZones(rd, resources[..], Flatten(t, rules[..i]))
      invariant guardIdx == |FirstSeen(Refs(rules[..i]))|
      invariant ForGuards(t, rd, entries[..], defs[..], FirstSeen(Refs(rules[..i])))
    {
      FlattenPush(t, rules, i);
      FlattenGrows(t, rules, i + 1);
      RefsSeenSoFar(rules, i + 1);
      ghost var rule := rules[i];
      assert rule in rules;
      outcome, guardIdx := AddGuards(t, rd, entries, defs, guardIdx, rules[i].guards, Refs(rules[..i]));
      if !outcome.Submit? {
        assert outcome == LookupFailed ==> !RuleResolves(t, rule);
        return;
      }
      outcome, idx := AddZones(t, rd, resources, idx, rules[i], Flatten(t, rules[..i]));
      if !outcome.Submit? {
        return;
      }
    }
    assert rules[..|rules|] == rules;
    outcome := Submit;
  }
}
