/**
 The configuration tables that rules refer to, the directives that fill them, and the merging of
 nested contexts.

 A directive that is refused ends configuration, so the state it leaves behind does not matter.
 The duration grammar of nginx is a parameter.
 */
module Config {
  import opened Wrappers
  import Numeric

  const MAX_BUCKET_LEN := 1024
  const MAX_SERVICE_LEN := 1024
  const MAX_LABEL_LEN := 256

  datatype Zone = Zone(name: string, bucket: string, rate: string)

  datatype Tracker = Tracker(name: string, service: string, ttlMs: nat, maxSamples: nat, minSampleThreshold: nat)

  datatype Guard = Guard(name: string, tracker: string, threshold: string)

  datatype Group = Group(name: string, zones: seq<string>)

  datatype Kind = ZoneRule | GroupRule | GuardOnly

  datatype Rule = Rule(kind: Kind, name: string, guards: seq<string>)

  datatype Tables = Tables(zones: seq<Zone>, trackers: seq<Tracker>, guards: seq<Guard>, groups: seq<Group>)

  function ZoneNames(t: Tables): (r: seq<string>)
    ensures |r| == |t.zones|
  {
    seq(|t.zones|, i requires 0 <= i < |t.zones| => t.zones[i].name)
  }

  function TrackerNames(t: Tables): (r: seq<string>)
    ensures |r| == |t.trackers|
  {
    seq(|t.trackers|, i requires 0 <= i < |t.trackers| => t.trackers[i].name)
  }

  function GuardNames(t: Tables): (r: seq<string>)
    ensures |r| == |t.guards|
  {
    seq(|t.guards|, i requires 0 <= i < |t.guards| => t.guards[i].name)
  }

  function GroupNames(t: Tables): (r: seq<string>)
    ensures |r| == |t.groups|
  {
    seq(|t.groups|, i requires 0 <= i < |t.groups| => t.groups[i].name)
  }

  ghost predicate Unique(names: seq<string>) {
    forall i, j | 0 <= i < j < |names| :: names[i] != names[j]
  }

  /** What every accepted configuration keeps. */
  ghost predicate Consistent(t: Tables) {
    && Unique(ZoneNames(t)) && Unique(TrackerNames(t)) && Unique(GuardNames(t)) && Unique(GroupNames(t))
    && (forall g | g in t.guards :: g.tracker in TrackerNames(t))
    && (forall g | g in t.groups :: GroupResolves(t, g))
  }

  ghost predicate GroupResolves(t: Tables, g: Group) {
    g.zones != [] && forall z | z in g.zones :: z in ZoneNames(t)
  }

  /** A rule asks for something, and everything it asks for exists. */
  ghost predicate RuleResolves(t: Tables, r: Rule) {
    && (r.kind == ZoneRule ==> r.name in ZoneNames(t))
    && (r.kind == GroupRule ==> r.name in GroupNames(t))
    && (r.kind == GuardOnly ==> r.guards != [])
    && (forall g | g in r.guards :: g in GuardNames(t))
  }

  ghost predicate Extends(a: Tables, b: Tables) {
    a.zones <= b.zones && a.trackers <= b.trackers && a.guards <= b.guards && a.groups <= b.groups
  }

  // ---- Lookup ----------------------------------------------------------------------------------

  /** The first entry with this name. */
  method Find(names: seq<string>, name: string) returns (r: Option<nat>)
    ensures r.Some? <==> name in names
    ensures r.Some? ==> r.value < |names| && names[r.value] == name && name !in names[..r.value]
  {
    for i := 0 to |names|
      invariant name !in names[..i]
    {
      if names[i] == name {
        return Some(i);
      }
    }
    return None;
  }

  // ---- Directive arguments ---------------------------------------------------------------------

  predicate HasPrefix(s: string, p: string) {
    |p| <= |s| && s[..|p|] == p
  }

  /** The values given with `p`, in order. */
  function Values(args: seq<string>, p: string): seq<string> {
    if args == [] then []
    else
      var last := args[|args| - 1];
      Values(args[..|args| - 1], p) + if HasPrefix(last, p) then [last[|p|..]] else []
  }

  predicate Known(s: string, p: string, q: string) {
    HasPrefix(s, p) || HasPrefix(s, q)
  }

  ghost predicate AllKnown(args: seq<string>, p: string, q: string) {
    forall i {:trigger Known(args[i], p, q)} | 0 <= i < |args| :: Known(args[i], p, q)
  }

  predicate PlainName(s: string) {
    s != "" && '=' !in s
  }

  lemma ValuesPush(args: seq<string>, i: nat, p: string)
    requires i < |args|
    ensures Values(args[..i + 1], p) == Values(args[..i], p) + if HasPrefix(args[i], p) then [args[i][|p|..]] else []
  {
    assert args[..i + 1][..i] == args[..i];
  }

  lemma {:induction false} ValuesGrow(args: seq<string>, i: nat, p: string)
    requires i <= |args|
    ensures Values(args[..i], p) <= Values(args, p)
    decreases |args|
  {
    if i < |args| {
      var front := args[..|args| - 1];
      ValuesGrow(front, i, p);
      assert front[..i] == args[..i];
    } else {
      assert args[..i] == args;
    }
  }

  ghost predicate GroupAccepted(t: Tables, args: seq<string>) {
    && |args| >= 2 && PlainName(args[0]) && args[0] !in GroupNames(t)
    && forall i | 1 <= i < |args| ::
         HasPrefix(args[i], "zone=") && args[i] != "zone=" && args[i][5..] in ZoneNames(t)
  }

  /** Two prefixes that differ at `k` never both fit. */
  lemma Exclusive(s: string, p: string, q: string, k: nat)
    requires k < |p| && k < |q| && p[k] != q[k] && HasPrefix(s, p)
    ensures !HasPrefix(s, q)
  {
    assert s[k] == s[..|p|][k];
    assert |q| <= |s| ==> s[k] == s[..|q|][k];
  }

  /** Without variables in it, a value is known at configuration time. */
  predicate Static(s: string) {
    '$' !in s
  }

  predicate QuotedLiteral(s: string) {
    |s| >= 2 && (s[0] == '"' || s[0] == '\'') && s[|s| - 1] == s[0]
  }

  /** A positive number of milliseconds that fits 32 bits; `parse` is nginx's time parser. */
  function Duration(parse: string -> Option<nat>, s: string): Option<Numeric.u32> {
    if s == "" then None
    else
      match parse(s)
      case None => None
      case Some(ms) => if ms == 0 || ms > Numeric.U32_MAX then None else Some(ms)
  }

  ghost predicate ZoneAccepted(t: Tables, args: seq<string>)
    requires args != []
  {
    && PlainName(args[0]) && args[0] !in ZoneNames(t)
    && AllKnown(args[1..], "bucket=", "rate=")
    && var bucket, rate := LastOr(Values(args[1..], "bucket=")), LastOr(Values(args[1..], "rate="));
    && bucket != "" && rate != "" && !QuotedLiteral(bucket)
    && (Static(bucket) ==> |bucket| <= MAX_BUCKET_LEN)
    && (Static(rate) ==> IsRate(rate))
  }

  ghost predicate IsRate(s: string) {
    exists ds, ws, u, x: nat, y: nat :: Numeric.DenotesRate(s, ds, ws, u, x, y)
  }

  /** The last value given, or nothing. */
  function LastOr(values: seq<string>): string {
    if values == [] then "" else values[|values| - 1]
  }

  ghost predicate GuardAccepted(t: Tables, parse: string -> Option<nat>, args: seq<string>)
    requires args != []
  {
    && PlainName(args[0]) && args[0] !in GuardNames(t)
    && AllKnown(args[1..], "tracker=", "threshold=")
    && var trackers, thresholds := Values(args[1..], "tracker="), Values(args[1..], "threshold=");
    && |trackers| == |thresholds| == 1 && trackers[0] != "" && thresholds[0] != ""
    && trackers[0] in TrackerNames(t)
    && (Static(thresholds[0]) ==> Duration(parse, thresholds[0]).Some?)
  }

  const SERVICE := "service="
  const TTL := "ttl="
  const MAX_SAMPLES := "max_samples="
  const MIN_THRESHOLD := "min_sample_threshold="

  predicate TrackerOption(s: string) {
    HasPrefix(s, SERVICE) || HasPrefix(s, TTL) || HasPrefix(s, MAX_SAMPLES) || HasPrefix(s, MIN_THRESHOLD)
  }

  predicate AllOptions(options: seq<string>) {
    forall i {:trigger TrackerOption(options[i])} | 0 <= i < |options| :: TrackerOption(options[i])
  }

  /** At most one value, which says `n`; without one `n` is the default. */
  ghost predicate SaysDuration(parse: string -> Option<nat>, values: seq<string>, default: nat, n: nat) {
    if values == [] then n == default else |values| == 1 && Duration(parse, values[0]) == Some(n)
  }

  ghost predicate SaysNumber(values: seq<string>, default: nat, n: nat) {
    if values == [] then n == default else |values| == 1 && Numeric.DenotesU32(values[0], n)
  }

  /** What the options of a tracker say. */
  ghost predicate TrackerSays(parse: string -> Option<nat>, options: seq<string>, e: Tracker) {
    AllOptions(options) && Says(parse, Given(options), e)
  }

  /** The values given for each option. */
  datatype Values4 = Values4(service: seq<string>, ttl: seq<string>, max: seq<string>, min: seq<string>)

  function Given(options: seq<string>): Values4 {
    Values4(Values(options, SERVICE), Values(options, TTL), Values(options, MAX_SAMPLES), Values(options, MIN_THRESHOLD))
  }

  ghost predicate Says(parse: string -> Option<nat>, v: Values4, e: Tracker) {
    && |v.service| <= 1 && e.service == LastOr(v.service)
    && SaysDuration(parse, v.ttl, 30000, e.ttlMs)
    && SaysNumber(v.max, 128, e.maxSamples) && e.maxSamples > 0
    && SaysNumber(v.min, 8, e.minSampleThreshold)
  }

  ghost predicate TrackerAccepted(t: Tables, parse: string -> Option<nat>, args: seq<string>) {
    && |args| >= 2 && PlainName(args[0]) && args[0] != "off" && args[0] !in TrackerNames(t)
    && (exists e :: TrackerSays(parse, args[1..], e))
    && var service := LastOr(Values(args[1..], SERVICE));
    && service != "" && !QuotedLiteral(service) && (Static(service) ==> |service| <= MAX_SERVICE_LEN)
  }

  /** One more option of a guard directive. */
  lemma GuardPush(options: seq<string>, i: nat)
    requires i < |options|
    ensures Values(options[..i + 1], "tracker=") == Values(options[..i], "tracker=") + Value(options[i], "tracker=")
    ensures Values(options[..i + 1], "threshold=") == Values(options[..i], "threshold=") + Value(options[i], "threshold=")
    ensures |Values(options[..i + 1], "tracker=")| <= |Values(options, "tracker=")|
    ensures |Values(options[..i + 1], "threshold=")| <= |Values(options, "threshold=")|
    ensures HasPrefix(options[i], "tracker=") ==> !HasPrefix(options[i], "threshold=")
    ensures Known(options[i], "tracker=", "threshold=") <==>
              HasPrefix(options[i], "tracker=") || HasPrefix(options[i], "threshold=")
  {
    ValuesPush(options, i, "tracker=");
    ValuesPush(options, i, "threshold=");
    ValuesGrow(options, i + 1, "tracker=");
    ValuesGrow(options, i + 1, "threshold=");
    if HasPrefix(options[i], "tracker=") {
      Exclusive(options[i], "tracker=", "threshold=", 1);
    }
  }

  lemma TrackerPush(options: seq<string>, i: nat)
    requires i < |options|
    ensures Values(options[..i + 1], SERVICE) == Values(options[..i], SERVICE) + Value(options[i], SERVICE)
    ensures Values(options[..i + 1], TTL) == Values(options[..i], TTL) + Value(options[i], TTL)
    ensures Values(options[..i + 1], MAX_SAMPLES) == Values(options[..i], MAX_SAMPLES) + Value(options[i], MAX_SAMPLES)
    ensures Values(options[..i + 1], MIN_THRESHOLD) == Values(options[..i], MIN_THRESHOLD) + Value(options[i], MIN_THRESHOLD)
    ensures HasPrefix(options[i], SERVICE) ==>
              !HasPrefix(options[i], TTL) && !HasPrefix(options[i], MAX_SAMPLES) && !HasPrefix(options[i], MIN_THRESHOLD)
    ensures HasPrefix(options[i], TTL) ==> !HasPrefix(options[i], MAX_SAMPLES) && !HasPrefix(options[i], MIN_THRESHOLD)
    ensures HasPrefix(options[i], MAX_SAMPLES) ==> !HasPrefix(options[i], MIN_THRESHOLD)
  {
    ValuesPush(options, i, SERVICE);
    ValuesPush(options, i, TTL);
    ValuesPush(options, i, MAX_SAMPLES);
    ValuesPush(options, i, MIN_THRESHOLD);
    var s := options[i];
    if HasPrefix(s, SERVICE) {
      Exclusive(s, SERVICE, TTL, 0);
      Exclusive(s, SERVICE, MAX_SAMPLES, 0);
      Exclusive(s, SERVICE, MIN_THRESHOLD, 0);
    } else if HasPrefix(s, TTL) {
      Exclusive(s, TTL, MAX_SAMPLES, 0);
      Exclusive(s, TTL, MIN_THRESHOLD, 0);
    } else if HasPrefix(s, MAX_SAMPLES) {
      Exclusive(s, MAX_SAMPLES, MIN_THRESHOLD, 1);
    }
  }

  function Value(s: string, p: string): seq<string> {
    if HasPrefix(s, p) then [s[|p|..]] else []
  }

  /** Options that say nothing cannot be completed into options that do. */
  lemma TrackerPrefix(parse: string -> Option<nat>, options: seq<string>, i: nat, e: Tracker) returns (e': Tracker)
    requires i < |options| && TrackerSays(parse, options, e)
    ensures TrackerSays(parse, options[..i + 1], e')
  {
    var part := options[..i + 1];
    ValuesGrow(options, i + 1, SERVICE);
    ValuesGrow(options, i + 1, TTL);
    ValuesGrow(options, i + 1, MAX_SAMPLES);
    ValuesGrow(options, i + 1, MIN_THRESHOLD);
    assert forall k | 0 <= k < |part| :: part[k] == options[k] && TrackerOption(options[k]);
    e' := Tracker(e.name, LastOr(Values(part, SERVICE)),
                      if Values(part, TTL) == [] then 30000 else e.ttlMs,
                      if Values(part, MAX_SAMPLES) == [] then 128 else e.maxSamples,
                      if Values(part, MIN_THRESHOLD) == [] then 8 else e.minSampleThreshold);
  }

  datatype Seen = Seen(service: bool, ttl: bool, max: bool, min: bool)

  ghost predicate SeenIn(options: seq<string>, seen: Seen) {
    && (seen.service <==> Values(options, SERVICE) != []) && (seen.ttl <==> Values(options, TTL) != [])
    && (seen.max <==> Values(options, MAX_SAMPLES) != []) && (seen.min <==> Values(options, MIN_THRESHOLD) != [])
  }

  /** The option is known, given for the first time, and has a proper value, which goes into `next`. */
  ghost predicate Taken(parse: string -> Option<nat>, s: string, seen: Seen, out: Tracker, next: Tracker) {
    if HasPrefix(s, SERVICE) then !seen.service && next == out.(service := s[|SERVICE|..])
    else if HasPrefix(s, TTL) then
      !seen.ttl && next == out.(ttlMs := next.ttlMs) && Duration(parse, s[|TTL|..]) == Some(next.ttlMs)
    else if HasPrefix(s, MAX_SAMPLES) then
      && !seen.max && next == out.(maxSamples := next.maxSamples) && next.maxSamples > 0
      && Numeric.DenotesU32(s[|MAX_SAMPLES|..], next.maxSamples)
    else
      && HasPrefix(s, MIN_THRESHOLD) && !seen.min && next == out.(minSampleThreshold := next.minSampleThreshold)
      && Numeric.DenotesU32(s[|MIN_THRESHOLD|..], next.minSampleThreshold)
  }

  lemma TakenSays(parse: string -> Option<nat>, options: seq<string>, i: nat, seen: Seen, out: Tracker, next: Tracker)
    requires i < |options| && TrackerSays(parse, options[..i], out) && SeenIn(options[..i], seen)
    requires Taken(parse, options[i], seen, out, next)
    ensures TrackerSays(parse, options[..i + 1], next)
  {
    TrackerPush(options, i);
    KnownOptions(options, i);
    SaysStep(parse, options[i], Given(options[..i]), Given(options[..i + 1]), seen, out, next);
  }

  lemma SaysStep(parse: string -> Option<nat>, s: string, v: Values4, w: Values4, seen: Seen, out: Tracker, next: Tracker)
    requires Says(parse, v, out) && Taken(parse, s, seen, out, next)
    requires (seen.service <==> v.service != []) && (seen.ttl <==> v.ttl != [])
    requires (seen.max <==> v.max != []) && (seen.min <==> v.min != [])
    requires w.service == v.service + Value(s, SERVICE) && w.ttl == v.ttl + Value(s, TTL)
    requires w.max == v.max + Value(s, MAX_SAMPLES) && w.min == v.min + Value(s, MIN_THRESHOLD)
    requires HasPrefix(s, SERVICE) ==> !HasPrefix(s, TTL) && !HasPrefix(s, MAX_SAMPLES) && !HasPrefix(s, MIN_THRESHOLD)
    requires HasPrefix(s, TTL) ==> !HasPrefix(s, MAX_SAMPLES) && !HasPrefix(s, MIN_THRESHOLD)
    requires HasPrefix(s, MAX_SAMPLES) ==> !HasPrefix(s, MIN_THRESHOLD)
    ensures Says(parse, w, next)
  {
  }

  lemma KnownOptions(options: seq<string>, i: nat)
    requires i < |options| && TrackerOption(options[i]) && AllOptions(options[..i])
    ensures AllOptions(options[..i + 1])
  {
    var part := options[..i + 1];
    forall k | 0 <= k < |part| ensures TrackerOption(part[k]) {
      assert k < i ==> TrackerOption(options[..i][k]);
    }
  }

  lemma SaysTaken(parse: string -> Option<nat>, options: seq<string>, i: nat, seen: Seen, out: Tracker, e: Tracker)
    returns (next: Tracker)
    requires i < |options| && TrackerSays(parse, options[..i], out) && SeenIn(options[..i], seen)
    requires TrackerSays(parse, options, e)
    ensures Taken(parse, options[i], seen, out, next)
  {
    var e' := TrackerPrefix(parse, options, i, e);
    TrackerPush(options, i);
    assert TrackerOption(options[i]);
    next := Pick(options[i], out, e');
    PickTaken(parse, options[i], Given(options[..i]), Given(options[..i + 1]), seen, out, e');
  }

  /** The value that `e` has for this option. */
  function Pick(s: string, out: Tracker, e: Tracker): Tracker {
    if HasPrefix(s, SERVICE) then out.(service := s[|SERVICE|..])
    else if HasPrefix(s, TTL) then out.(ttlMs := e.ttlMs)
    else if HasPrefix(s, MAX_SAMPLES) then out.(maxSamples := e.maxSamples)
    else out.(minSampleThreshold := e.minSampleThreshold)
  }

  lemma PickTaken(parse: string -> Option<nat>, s: string, v: Values4, w: Values4, seen: Seen, out: Tracker, e: Tracker)
    requires TrackerOption(s) && Says(parse, w, e)
    requires (seen.service <==> v.service != []) && (seen.ttl <==> v.ttl != [])
    requires (seen.max <==> v.max != []) && (seen.min <==> v.min != [])
    requires w.service == v.service + Value(s, SERVICE) && w.ttl == v.ttl + Value(s, TTL)
    requires w.max == v.max + Value(s, MAX_SAMPLES) && w.min == v.min + Value(s, MIN_THRESHOLD)
    ensures Taken(parse, s, seen, out, Pick(s, out, e))
  {
  }

  class MainConf {
    var zones: seq<Zone>
    var trackers: seq<Tracker>
    var guards: seq<Guard>
    var groups: seq<Group>
    var enabled: bool
    const duration: string -> Option<nat>

    constructor (duration: string -> Option<nat>)
      ensures T() == Tables([], [], [], []) && !enabled && this.duration == duration
    {
      this.duration := duration;
      zones, trackers, guards, groups, enabled := [], [], [], [], false;
    }

    function T(): (t: Tables)
      reads this
    {
      Tables(zones, trackers, guards, groups)
    }

    method ScanZone(options: seq<string>) returns (ok: bool, bucket: string, rate: string)
      ensures ok <==> AllKnown(options, "bucket=", "rate=")
      ensures ok ==> bucket == LastOr(Values(options, "bucket=")) && rate == LastOr(Values(options, "rate="))
    {
      bucket, rate := "", "";
      for i := 0 to |options|
        invariant bucket == LastOr(Values(options[..i], "bucket="))
        invariant rate == LastOr(Values(options[..i], "rate="))
        invariant forall k {:trigger Known(options[k], "bucket=", "rate=")} | 0 <= k < i :: Known(options[k], "bucket=", "rate=")
      {
        ValuesPush(options, i, "bucket=");
        ValuesPush(options, i, "rate=");
        assert Known(options[i], "bucket=", "rate=") <==> HasPrefix(options[i], "bucket=") || HasPrefix(options[i], "rate=");
        if HasPrefix(options[i], "bucket=") {
          Exclusive(options[i], "bucket=", "rate=", 0);
          bucket := options[i][7..];
        } else if HasPrefix(options[i], "rate=") {
          rate := options[i][5..];
        } else {
          return false, bucket, rate;
        }
      }
      assert options[..|options|] == options;
      return true, bucket, rate;
    }

    method AddZone(args: seq<string>) returns (ok: bool)
      requires args != []
      modifies `zones
      ensures ok <==> ZoneAccepted(old(T()), args)
      ensures zones == old(zones)
        + if ok then [Zone(args[0], LastOr(Values(args[1..], "bucket=")), LastOr(Values(args[1..], "rate=")))] else []
    {
      if !PlainName(args[0]) {
        return false;
      }
      var scanned, bucket, rate := ScanZone(args[1..]);
      if !scanned {
        return false;
      }
      if |bucket| == 0 || |rate| == 0 {
        return false;
      }
      if QuotedLiteral(bucket) {
        return false;
      }
      if Static(bucket) && |bucket| > MAX_BUCKET_LEN {
        return false;
      }
      if Static(rate) {
        var valid, limit, window := Numeric.ParseRate(rate, 0, 0);
        if !valid {
          return false;
        }
      }
      var found := Find(ZoneNames(T()), args[0]);
      if found.Some? {
        return false;
      }
      zones := zones + [Zone(args[0], bucket, rate)];
      return true;
    }

    /** Each option once at most. */
    method ScanGuard(options: seq<string>) returns (ok: bool, tracker: string, threshold: string)
      ensures ok <==> AllKnown(options, "tracker=", "threshold=")
                      && |Values(options, "tracker=")| <= 1 && |Values(options, "threshold=")| <= 1
      ensures ok ==> tracker == LastOr(Values(options, "tracker=")) && threshold == LastOr(Values(options, "threshold="))
    {
      tracker, threshold := "", "";
      var trackerSet, thresholdSet := false, false;
      for i := 0 to |options|
        invariant |Values(options[..i], "tracker=")| == (if trackerSet then 1 else 0)
        invariant |Values(options[..i], "threshold=")| == (if thresholdSet then 1 else 0)
        invariant tracker == LastOr(Values(options[..i], "tracker="))
        invariant threshold == LastOr(Values(options[..i], "threshold="))
        invariant forall k {:trigger Known(options[k], "tracker=", "threshold=")} | 0 <= k < i ::
                    Known(options[k], "tracker=", "threshold=")
      {
        GuardPush(options, i);
        if HasPrefix(options[i], "tracker=") {
          if trackerSet {
            return false, tracker, threshold;
          }
          trackerSet := true;
          tracker := options[i][8..];
        } else if HasPrefix(options[i], "threshold=") {
          if thresholdSet {
            return false, tracker, threshold;
          }
          thresholdSet := true;
          threshold := options[i][10..];
        } else {
          return false, tracker, threshold;
        }
      }
      assert options[..|options|] == options;
      return true, tracker, threshold;
    }

    method AddGuard(args: seq<string>) returns (ok: bool)
      requires args != []
      modifies `guards
      ensures ok <==> GuardAccepted(old(T()), duration, args)
      ensures guards == old(guards)
        + if ok then [Guard(args[0], Values(args[1..], "tracker=")[0], Values(args[1..], "threshold=")[0])] else []
    {
      if !PlainName(args[0]) {
        return false;
      }
      var scanned, tracker, threshold := ScanGuard(args[1..]);
      if !scanned {
        return false;
      }
      if |tracker| == 0 || |threshold| == 0 {
        return false;
      }
      var found := Find(TrackerNames(T()), tracker);
      if found.None? {
        return false;
      }
      if Static(threshold) && Duration(duration, threshold).None? {
        return false;
      }
      found := Find(GuardNames(T()), args[0]);
      if found.Some? {
        return false;
      }
      guards := guards + [Guard(args[0], tracker, threshold)];
      return true;
    }

    method ScanTracker(name: string, options: seq<string>) returns (e: Option<Tracker>)
      ensures e.Some? ==> e.value.name == name && TrackerSays(duration, options, e.value)
      ensures e.None? ==> forall t :: !TrackerSays(duration, options, t)
    {
      var out, seen := Tracker(name, "", 30000, 128, 8), Seen(false, false, false, false);
      for i := 0 to |options|
        invariant out.name == name && TrackerSays(duration, options[..i], out) && SeenIn(options[..i], seen)
      {
        var ok, next := TakeOption(options[i], seen, out);
        if !ok {
          forall t ensures !TrackerSays(duration, options, t) {
            if TrackerSays(duration, options, t) {
              var n := SaysTaken(duration, options, i, seen, out, t);
            }
          }
          return None;
        }
        TakenSays(duration, options, i, seen, out, next);
        TrackerPush(options, i);
        var s := options[i];
        out := next;
        seen := Seen(seen.service || HasPrefix(s, SERVICE), seen.ttl || HasPrefix(s, TTL),
                     seen.max || HasPrefix(s, MAX_SAMPLES), seen.min || HasPrefix(s, MIN_THRESHOLD));
      }
      assert options[..|options|] == options;
      return Some(out);
    }

    method TakeOption(s: string, seen: Seen, out: Tracker) returns (ok: bool, next: Tracker)
      ensures if ok then Taken(duration, s, seen, out, next) else forall n :: !Taken(duration, s, seen, out, n)
    {
      if HasPrefix(s, SERVICE) {
        return !seen.service, out.(service := s[|SERVICE|..]);
      }
      if HasPrefix(s, TTL) {
        var ttl := Duration(duration, s[|TTL|..]);
        if seen.ttl || ttl.None? {
          return false, out;
        }
        return true, out.(ttlMs := ttl.value);
      }
      if HasPrefix(s, MAX_SAMPLES) {
        var n := Numeric.ParseU32(s[|MAX_SAMPLES|..]);
        if seen.max || n.None? || n.value == 0 {
          return false, out;
        }
        return true, out.(maxSamples := n.value);
      }
      if HasPrefix(s, MIN_THRESHOLD) {
        var n := Numeric.ParseU32(s[|MIN_THRESHOLD|..]);
        if seen.min || n.None? {
          return false, out;
        }
        return true, out.(minSampleThreshold := n.value);
      }
      return false, out;
    }

    method AddTracker(args: seq<string>) returns (ok: bool)
      modifies `trackers
      ensures ok <==> TrackerAccepted(old(T()), duration, args)
      ensures if ok then |trackers| == |old(trackers)| + 1 && trackers[..|old(trackers)|] == old(trackers)
                         && trackers[|old(trackers)|].name == args[0]
                         && TrackerSays(duration, args[1..], trackers[|old(trackers)|])
              else trackers == old(trackers)
    {
      if |args| < 2 {
        return false;
      }
      if !PlainName(args[0]) {
        return false;
      }
      if args[0] == "off" {
        return false;
      }
      var e := ScanTracker(args[0], args[1..]);
      if e.None? {
        return false;
      }
      var service := e.value.service;
      if |service| == 0 {
        return false;
      }
      if QuotedLiteral(service) {
        return false;
      }
      if Static(service) && |service| > MAX_SERVICE_LEN {
        return false;
      }
      var found := Find(TrackerNames(T()), args[0]);
      if found.Some? {
        return false;
      }
      trackers := trackers + [e.value];
      return true;
    }

    method AddGroup(args: seq<string>) returns (ok: bool)
      modifies `groups
      ensures ok <==> GroupAccepted(old(T()), args)
      ensures ok ==> groups == old(groups) + [Group(args[0], Values(args[1..], "zone="))]
      ensures !ok ==> || groups == old(groups)
                      || exists i :: 0 <= i < |args| && groups == old(groups) + [Group(args[0], Values(args[1..][..i], "zone="))]
    {
      if |args| < 2 {
        return false;
      }
      if !PlainName(args[0]) {
        return false;
      }
      var found := Find(GroupNames(T()), args[0]);
      if found.Some? {
        return false;
      }
      ghost var t := T();
      groups := groups + [Group(args[0], [])];
      var n := |groups| - 1;
      var refs := args[1..];
      for i := 0 to |refs|
        invariant i < |args| && refs == args[1..]
        invariant zones == t.zones
        invariant groups == t.groups + [Group(args[0], Values(refs[..i], "zone="))]
        invariant forall k | 0 <= k < i :: HasPrefix(refs[k], "zone=") && refs[k] != "zone=" && refs[k][5..] in ZoneNames(t)
      {
        assert refs[i] == args[i + 1];
        if !HasPrefix(refs[i], "zone=") {
          return false;
        }
        var zone := refs[i][5..];
        if |zone| == 0 {
          return false;
        }
        found := Find(ZoneNames(T()), zone);
        if found.None? {
          return false;
        }
        ValuesPush(refs, i, "zone=");
        groups := groups[n := groups[n].(zones := groups[n].zones + [zone])];
      }
      assert refs[..|refs|] == refs;
      assert forall i | 1 <= i < |args| :: args[i] == refs[i - 1];
      return true;
    }
  }

  // ---- What growing tables keep ------------------------------------------------------------------

  /** Larger tables still resolve whatever resolved, and to the same entry. */
  lemma ResolvesForGood(a: Tables, b: Tables, r: Rule)
    requires Extends(a, b) && RuleResolves(a, r)
    ensures RuleResolves(b, r)
  {
    NamesExtend(a, b);
  }

  lemma NamesExtend(a: Tables, b: Tables)
    requires Extends(a, b)
    ensures ZoneNames(a) <= ZoneNames(b) && TrackerNames(a) <= TrackerNames(b)
    ensures GuardNames(a) <= GuardNames(b) && GroupNames(a) <= GroupNames(b)
    ensures forall z | z in ZoneNames(a) :: z in ZoneNames(b)
    ensures forall z | z in TrackerNames(a) :: z in TrackerNames(b)
    ensures forall z | z in GuardNames(a) :: z in GuardNames(b)
    ensures forall z | z in GroupNames(a) :: z in GroupNames(b)
  {
    assert forall i | 0 <= i < |a.zones| :: ZoneNames(b)[i] == ZoneNames(a)[i];
    assert forall i | 0 <= i < |a.trackers| :: TrackerNames(b)[i] == TrackerNames(a)[i];
    assert forall i | 0 <= i < |a.guards| :: GuardNames(b)[i] == GuardNames(a)[i];
    assert forall i | 0 <= i < |a.groups| :: GroupNames(b)[i] == GroupNames(a)[i];
  }

  lemma UniquePush(names: seq<string>, name: string)
    requires Unique(names) && name !in names
    ensures Unique(names + [name])
  {
  }

  lemma ZoneKeeps(t: Tables, z: Zone)
    requires Consistent(t) && z.name !in ZoneNames(t)
    ensures Consistent(t.(zones := t.zones + [z])) && Extends(t, t.(zones := t.zones + [z]))
  {
    var u := t.(zones := t.zones + [z]);
    NamesExtend(t, u);
    UniquePush(ZoneNames(t), z.name);
    assert ZoneNames(u) == ZoneNames(t) + [z.name];
    assert forall g | g in t.groups :: GroupResolves(t, g);
  }

  lemma TrackerKeeps(t: Tables, e: Tracker)
    requires Consistent(t) && e.name !in TrackerNames(t)
    ensures Consistent(t.(trackers := t.trackers + [e])) && Extends(t, t.(trackers := t.trackers + [e]))
  {
    var u := t.(trackers := t.trackers + [e]);
    NamesExtend(t, u);
    UniquePush(TrackerNames(t), e.name);
    assert TrackerNames(u) == TrackerNames(t) + [e.name];
    assert forall g | g in t.groups :: GroupResolves(t, g);
  }

  lemma GuardKeeps(t: Tables, g: Guard)
    requires Consistent(t) && g.name !in GuardNames(t) && g.tracker in TrackerNames(t)
    ensures Consistent(t.(guards := t.guards + [g])) && Extends(t, t.(guards := t.guards + [g]))
  {
    var u := t.(guards := t.guards + [g]);
    NamesExtend(t, u);
    UniquePush(GuardNames(t), g.name);
    assert GuardNames(u) == GuardNames(t) + [g.name];
    assert forall g | g in t.groups :: GroupResolves(t, g);
  }

  lemma GroupKeeps(t: Tables, g: Group)
    requires Consistent(t) && g.name !in GroupNames(t) && GroupResolves(t, g)
    ensures Consistent(t.(groups := t.groups + [g])) && Extends(t, t.(groups := t.groups + [g]))
  {
    var u := t.(groups := t.groups + [g]);
    NamesExtend(t, u);
    UniquePush(GroupNames(t), g.name);
    assert GroupNames(u) == GroupNames(t) + [g.name];
    assert forall g | g in t.groups :: GroupResolves(t, g);
  }

  lemma {:induction false} ValuesCome(args: seq<string>, p: string, v: string)
    requires v in Values(args, p)
    ensures exists i :: 0 <= i < |args| && HasPrefix(args[i], p) && args[i][|p|..] == v
  {
    var front, last := args[..|args| - 1], args[|args| - 1];
    if v in Values(front, p) {
      ValuesCome(front, p, v);
    } else {
      assert HasPrefix(last, p);
    }
  }

  lemma {:induction false} ValuesTotal(args: seq<string>, p: string)
    requires forall i | 0 <= i < |args| :: HasPrefix(args[i], p)
    ensures |Values(args, p)| == |args|
  {
    if args != [] {
      ValuesTotal(args[..|args| - 1], p);
    }
  }

  /** An accepted group directive adds a group that resolves. */
  lemma AcceptedGroupResolves(t: Tables, args: seq<string>)
    requires GroupAccepted(t, args)
    ensures GroupResolves(t, Group(args[0], Values(args[1..], "zone=")))
  {
    var refs := args[1..];
    forall i | 0 <= i < |refs| ensures HasPrefix(refs[i], "zone=") && refs[i][5..] in ZoneNames(t) {
      assert refs[i] == args[i + 1];
    }
    ValuesTotal(refs, "zone=");
    forall z | z in Values(refs, "zone=") ensures z in ZoneNames(t) {
      ValuesCome(refs, "zone=", z);
    }
  }

  // ---- Location contexts -------------------------------------------------------------------------

  /** rn_loc_conf_t; `enabled` is unset until a rule or a merge sets it. */
  datatype Loc = Loc(enabled: Option<bool>, rules: seq<Rule>, reportSet: bool, reportEnabled: bool,
                     reportTracker: string, labelSet: bool, labelText: string)

  const FreshLoc := Loc(None, [], false, false, "", false, "")

  /** What directives make of one context before it is merged. */
  ghost predicate Declared(t: Tables, mainEnabled: bool, l: Loc) {
    && l.enabled == (if l.rules == [] then None else Some(true))
    && Usable(t, mainEnabled, l)
  }

  /** Everything the context asks for exists, and the module is switched on if it asks for anything. */
  ghost predicate Usable(t: Tables, mainEnabled: bool, l: Loc) {
    && (forall r | r in l.rules :: RuleResolves(t, r))
    && (l.reportEnabled ==> l.reportSet && l.reportTracker in TrackerNames(t))
    && (l.rules != [] || l.reportEnabled ==> mainEnabled)
  }

  lemma UsableForGood(a: Tables, b: Tables, mainEnabled: bool, later: bool, l: Loc)
    requires Usable(a, mainEnabled, l) && Extends(a, b) && (mainEnabled ==> later)
    ensures Usable(b, later, l)
  {
    NamesExtend(a, b);
    forall r | r in l.rules ensures RuleResolves(b, r) {
      ResolvesForGood(a, b, r);
    }
  }

  predicate RuleOption(s: string) {
    HasPrefix(s, "zone=") || HasPrefix(s, "group=") || HasPrefix(s, "guard=")
  }

  ghost predicate RuleAccepted(t: Tables, args: seq<string>) {
    var zones, groups, guards := Values(args, "zone="), Values(args, "group="), Values(args, "guard=");
    && AllRuleOptions(args) && |zones| + |groups| <= 1 && args != []
    && (forall z | z in zones :: z != "" && z in ZoneNames(t))
    && (forall g | g in groups :: g != "" && g in GroupNames(t))
    && (forall g | g in guards :: g != "" && g in GuardNames(t))
  }

  function RuleOf(args: seq<string>): Rule {
    var zones, groups, guards := Values(args, "zone="), Values(args, "group="), Values(args, "guard=");
    if zones != [] then Rule(ZoneRule, zones[0], guards)
    else if groups != [] then Rule(GroupRule, groups[0], guards)
    else Rule(GuardOnly, "", guards)
  }

  ghost predicate GuardsKnown(t: Tables, guards: seq<string>) {
    forall g | g in guards :: g != "" && g in GuardNames(t)
  }

  lemma RuleOptionExclusive(s: string)
    ensures HasPrefix(s, "zone=") ==> !HasPrefix(s, "group=") && !HasPrefix(s, "guard=")
    ensures HasPrefix(s, "group=") ==> !HasPrefix(s, "guard=")
  {
    if HasPrefix(s, "zone=") {
      Exclusive(s, "zone=", "group=", 0);
      Exclusive(s, "zone=", "guard=", 0);
    }
    if HasPrefix(s, "group=") {
      Exclusive(s, "group=", "guard=", 1);
    }
  }

  predicate AllRuleOptions(args: seq<string>) {
    forall i {:trigger RuleOption(args[i])} | 0 <= i < |args| :: RuleOption(args[i])
  }

  /** Known options, at most one target, and guards that exist. */
  ghost predicate Scannable(t: Tables, args: seq<string>) {
    && AllRuleOptions(args) && |Values(args, "zone=")| + |Values(args, "group=")| <= 1
    && GuardsKnown(t, Values(args, "guard="))
  }

  ghost predicate OptionFits(t: Tables, args: seq<string>, i: nat)
    requires i < |args|
  {
    if HasPrefix(args[i], "guard=") then args[i] != "guard=" && args[i][6..] in GuardNames(t)
    else RuleOption(args[i]) && Values(args[..i], "zone=") == Values(args[..i], "group=") == []
  }

  lemma OptionsPush(args: seq<string>, i: nat)
    requires i < |args| && AllRuleOptions(args[..i]) && RuleOption(args[i])
    ensures AllRuleOptions(args[..i + 1])
  {
    var part := args[..i + 1];
    forall k | 0 <= k < |part| ensures RuleOption(part[k]) {
      assert k < i ==> RuleOption(args[..i][k]);
    }
  }

  lemma FitsScans(t: Tables, args: seq<string>, i: nat)
    requires i < |args| && Scannable(t, args[..i]) && OptionFits(t, args, i)
    ensures Scannable(t, args[..i + 1])
  {
    OptionsPush(args, i);
    RulePush(args, i);
    RuleOptionExclusive(args[i]);
    if HasPrefix(args[i], "guard=") {
      assert Value(args[i], "zone=") == Value(args[i], "group=") == [];
    } else {
      assert Value(args[i], "guard=") == [];
    }
  }

  lemma MisfitScansNot(t: Tables, args: seq<string>, i: nat)
    requires i < |args| && Scannable(t, args[..i]) && !OptionFits(t, args, i)
    ensures !Scannable(t, args)
  {
    RulePush(args, i);
    if HasPrefix(args[i], "guard=") {
      var guard, n := args[i][6..], |Values(args[..i], "guard=")|;
      assert Values(args[..i + 1], "guard=")[n] == guard;
      assert Values(args, "guard=")[n] == guard && guard in Values(args, "guard=");
      assert args[i] == "guard=" + guard;
    } else if RuleOption(args[i]) {
      RuleOptionExclusive(args[i]);
      assert |Values(args[..i + 1], "zone=")| + |Values(args[..i + 1], "group=")| == 2;
    }
  }

  lemma RulePush(args: seq<string>, i: nat)
    requires i < |args|
    ensures Values(args[..i + 1], "zone=") == Values(args[..i], "zone=") + Value(args[i], "zone=")
    ensures Values(args[..i + 1], "group=") == Values(args[..i], "group=") + Value(args[i], "group=")
    ensures Values(args[..i + 1], "guard=") == Values(args[..i], "guard=") + Value(args[i], "guard=")
    ensures Values(args[..i + 1], "zone=") <= Values(args, "zone=")
    ensures Values(args[..i + 1], "group=") <= Values(args, "group=")
    ensures Values(args[..i + 1], "guard=") <= Values(args, "guard=")
  {
    ValuesPush(args, i, "zone=");
    ValuesPush(args, i, "group=");
    ValuesPush(args, i, "guard=");
    ValuesGrow(args, i + 1, "zone=");
    ValuesGrow(args, i + 1, "group=");
    ValuesGrow(args, i + 1, "guard=");
  }

  class LocConf {
    var enabled: Option<bool>
    var rules: seq<Rule>
    var reportSet: bool
    var reportEnabled: bool
    var reportTracker: string
    var labelSet: bool
    var labelText: string

    constructor ()
      ensures L() == FreshLoc
    {
      enabled, rules := None, [];
      reportSet, reportEnabled, reportTracker := false, false, "";
      labelSet, labelText := false, "";
    }

    function L(): (l: Loc)
      reads this
    {
      Loc(enabled, rules, reportSet, reportEnabled, reportTracker, labelSet, labelText)
    }

    /** At most one target, and guards that exist. */
    static method ScanRule(t: Tables, args: seq<string>)
      returns (ok: bool, zone: Option<string>, group: Option<string>, guards: seq<string>)
      ensures ok <==> Scannable(t, args)
      ensures ok ==> Values(args, "zone=") == Listed(zone) && Values(args, "group=") == Listed(group)
                     && guards == Values(args, "guard=")
    {
      zone, group, guards := None, None, [];
      for i := 0 to |args|
        invariant Scannable(t, args[..i]) && guards == Values(args[..i], "guard=")
        invariant Values(args[..i], "zone=") == Listed(zone) && Values(args[..i], "group=") == Listed(group)
      {
        if OptionFits(t, args, i) {
          FitsScans(t, args, i);
        } else {
          MisfitScansNot(t, args, i);
        }
        RulePush(args, i);
        RuleOptionExclusive(args[i]);
        if HasPrefix(args[i], "zone=") {
          if group.Some? || zone.Some? {
            return false, zone, group, guards;
          }
          zone := Some(args[i][5..]);
        } else if HasPrefix(args[i], "group=") {
          if zone.Some? || group.Some? {
            return false, zone, group, guards;
          }
          group := Some(args[i][6..]);
        } else if HasPrefix(args[i], "guard=") {
          var guard := args[i][6..];
          if |guard| == 0 {
            return false, zone, group, guards;
          }
          var found := Find(GuardNames(t), guard);
          if found.None? {
            return false, zone, group, guards;
          }
          guards := guards + [guard];
        } else {
          return false, zone, group, guards;
        }
      }
      assert args[..|args|] == args;
      return true, zone, group, guards;
    }

    method AddRule(mcf: MainConf, args: seq<string>) returns (ok: bool)
      modifies `rules, `enabled, mcf`enabled
      ensures ok <==> RuleAccepted(mcf.T(), args)
      ensures ok ==> rules == old(rules) + [RuleOf(args)] && enabled == Some(true) && mcf.enabled
      ensures !ok ==> L() == old(L()) && mcf.enabled == old(mcf.enabled)
    {
      var scanned, zone, group, guards := ScanRule(mcf.T(), args);
      if !scanned {
        return false;
      }
      assert args != [] ==> RuleOption(args[|args| - 1]);
      if zone.None? && group.None? && |guards| == 0 {
        return false;
      }
      var rule;
      if zone.Some? {
        assert Values(args, "zone=")[0] == zone.value && zone.value in Values(args, "zone=");
        if |zone.value| == 0 {
          return false;
        }
        var found := Find(ZoneNames(mcf.T()), zone.value);
        if found.None? {
          return false;
        }
        rule := Rule(ZoneRule, zone.value, guards);
      } else if group.Some? {
        assert Values(args, "group=")[0] == group.value && group.value in Values(args, "group=");
        if |group.value| == 0 {
          return false;
        }
        var found := Find(GroupNames(mcf.T()), group.value);
        if found.None? {
          return false;
        }
        rule := Rule(GroupRule, group.value, guards);
      } else {
        rule := Rule(GuardOnly, "", guards);
      }
      rules := rules + [rule];
      enabled := Some(true);
      mcf.enabled := true;
      return true;
    }

    method SetReport(mcf: MainConf, value: string) returns (ok: bool)
      modifies `reportSet, `reportEnabled, `reportTracker, mcf`enabled
      ensures ok <==> !old(reportSet) && (value == "off" || value in TrackerNames(mcf.T()))
      ensures ok ==> L() == old(L()).(reportSet := true, reportEnabled := value != "off",
                                      reportTracker := if value == "off" then "" else value)
      ensures ok ==> mcf.enabled == (old(mcf.enabled) || value != "off")
    {
      if reportSet {
        return false;
      }
      reportSet := true;
      if value == "off" {
        reportEnabled, reportTracker := false, "";
        return true;
      }
      var found := Find(TrackerNames(mcf.T()), value);
      if found.None? {
        return false;
      }
      reportEnabled, reportTracker := true, value;
      mcf.enabled := true;
      return true;
    }

    method SetLabel(value: string) returns (ok: bool)
      modifies `labelSet, `labelText
      ensures ok <==> (Static(value) ==> |value| <= MAX_LABEL_LEN)
      ensures L() == if ok then old(L()).(labelSet := true, labelText := value) else old(L())
    {
      if Static(value) && |value| > MAX_LABEL_LEN {
        return false;
      }
      labelText := value;
      labelSet := true;
      return true;
    }

    /** Takes from the enclosing context what this one does not say. */
    method MergeFrom(prev: LocConf)
      modifies this
      ensures L() == Merge(old(prev.L()), old(L()))
    {
      if enabled.None? {
        enabled := if prev.enabled.None? then Some(false) else prev.enabled;
      }
      if rules == [] {
        rules := prev.rules;
      }
      if !reportSet && prev.reportSet {
        reportSet := true;
        reportEnabled := prev.reportEnabled;
        reportTracker := prev.reportTracker;
      }
      if !labelSet && prev.labelSet {
        labelText := prev.labelText;
        labelSet := prev.labelSet;
      }
    }
  }

  function Listed(v: Option<string>): seq<string> {
    if v.Some? then [v.value] else []
  }

  lemma AcceptedRuleResolves(t: Tables, args: seq<string>)
    requires RuleAccepted(t, args)
    ensures RuleResolves(t, RuleOf(args))
  {
    var zones, groups := Values(args, "zone="), Values(args, "group=");
    assert RuleOption(args[|args| - 1]);
    assert zones != [] ==> zones[0] in zones;
    assert groups != [] ==> groups[0] in groups;
  }

  /** The arguments at these increasing positions, and no others, start with `p`; `values` follow it. */
  ghost predicate InOrder(args: seq<string>, p: string, values: seq<string>, at: seq<nat>) {
    && |at| == |values|
    && (forall k | 0 <= k < |at| :: at[k] < |args| && args[at[k]] == p + values[k])
    && (forall j, k | 0 <= j < k < |at| :: at[j] < at[k])
    && (forall i | 0 <= i < |args| && p <= args[i] :: i in at)
  }

  lemma {:induction false} ValuesInOrder(args: seq<string>, p: string) returns (at: seq<nat>)
    ensures InOrder(args, p, Values(args, p), at)
  {
    at := [];
    if args != [] {
      var front, last := args[..|args| - 1], args[|args| - 1];
      at := ValuesInOrder(front, p);
      at := InOrderPush(front, last, p, at);
      assert args == front + [last];
    }
  }

  lemma InOrderPush(front: seq<string>, last: string, p: string, at0: seq<nat>) returns (at: seq<nat>)
    requires InOrder(front, p, Values(front, p), at0)
    ensures InOrder(front + [last], p, Values(front, p) + if HasPrefix(last, p) then [last[|p|..]] else [], at)
  {
    at := at0;
    if HasPrefix(last, p) {
      at := at0 + [|front|];
      InOrderMore(front, last, p, Values(front, p), at0);
    }
  }

  lemma InOrderMore(front: seq<string>, last: string, p: string, values: seq<string>, at: seq<nat>)
    requires InOrder(front, p, values, at) && HasPrefix(last, p)
    ensures InOrder(front + [last], p, values + [last[|p|..]], at + [|front|])
  {
    assert last == p + last[|p|..];
    forall i | 0 <= i < |front + [last]| && p <= (front + [last])[i] ensures i in at + [|front|] {
      assert i < |front| ==> i in at;
    }
  }

  /** Of an option given more than once the last value counts; one that is not given is empty. */
  lemma LastValueCounts(args: seq<string>, p: string)
    ensures forall i | 0 <= i < |args| && p <= args[i] && (forall j | i < j < |args| :: !(p <= args[j])) ::
              args[i] == p + LastOr(Values(args, p))
    ensures (forall i | 0 <= i < |args| :: !(p <= args[i])) ==> LastOr(Values(args, p)) == ""
  {
    var at := ValuesInOrder(args, p);
    var values := Values(args, p);
    forall i | 0 <= i < |args| && p <= args[i] && (forall j | i < j < |args| :: !(p <= args[j]))
      ensures args[i] == p + LastOr(values)
    {
      var k :| 0 <= k < |at| && at[k] == i;
      assert args[at[|at| - 1]] == p + values[|at| - 1];
    }
    if values != [] {
      assert args[at[0]] == p + values[0];
    }
  }

  /** An accepted rule is what its arguments say, for all three kinds: a zone or group rule names what
      its one target argument names, a rule without target is guard-only, and the guards are those of
      all `guard=` arguments in order. */
  lemma AcceptedRuleMeans(t: Tables, args: seq<string>)
    requires RuleAccepted(t, args)
    ensures
      var r := RuleOf(args);
      && (r.kind == ZoneRule <==> exists i | 0 <= i < |args| :: "zone=" <= args[i])
      && (r.kind == GroupRule <==> exists i | 0 <= i < |args| :: "group=" <= args[i])
      && (forall i | 0 <= i < |args| && ("zone=" <= args[i] || "group=" <= args[i]) ::
            args[i] == (if r.kind == ZoneRule then "zone=" else "group=") + r.name)
      && exists at :: InOrder(args, "guard=", r.guards, at)
  {
    var guards := ValuesInOrder(args, "guard=");
    TargetsMean(args);
  }

  lemma TargetsMean(args: seq<string>)
    requires |Values(args, "zone=")| + |Values(args, "group=")| <= 1
    ensures
      var r := RuleOf(args);
      && (r.kind == ZoneRule <==> exists i | 0 <= i < |args| :: "zone=" <= args[i])
      && (r.kind == GroupRule <==> exists i | 0 <= i < |args| :: "group=" <= args[i])
      && (forall i | 0 <= i < |args| && ("zone=" <= args[i] || "group=" <= args[i]) ::
            args[i] == (if r.kind == ZoneRule then "zone=" else "group=") + r.name)
  {
    OneValue(args, "zone=");
    OneValue(args, "group=");
  }

  lemma OneValue(args: seq<string>, p: string)
    requires |Values(args, p)| <= 1
    ensures Values(args, p) != [] <==> exists i | 0 <= i < |args| :: p <= args[i]
    ensures forall i | 0 <= i < |args| && p <= args[i] :: Values(args, p) != [] && args[i] == p + Values(args, p)[0]
  {
    var at := ValuesInOrder(args, p);
    forall i | 0 <= i < |args| && p <= args[i] ensures at != [] && i == at[0] {
      assert i in at;
    }
    if at != [] {
      assert args[at[0]] == p + Values(args, p)[0];
    }
  }

  // ---- Merging nested contexts -------------------------------------------------------------------

  function Merge(prev: Loc, conf: Loc): Loc {
    var report := !conf.reportSet && prev.reportSet;
    var labels := !conf.labelSet && prev.labelSet;
    Loc(if conf.enabled.Some? then conf.enabled else if prev.enabled.Some? then prev.enabled else Some(false),
        if conf.rules == [] then prev.rules else conf.rules,
        conf.reportSet || report,
        if report then prev.reportEnabled else conf.reportEnabled,
        if report then prev.reportTracker else conf.reportTracker,
        conf.labelSet || labels,
        if labels then prev.labelText else conf.labelText)
  }

  /** The outermost context first; each inner one is merged with the merged context around it. */
  function MergeChain(chain: seq<Loc>): Loc
    requires chain != []
  {
    var last := chain[|chain| - 1];
    if |chain| == 1 then last else Merge(MergeChain(chain[..|chain| - 1]), last)
  }

  /** The rule list of the innermost context that declares one. */
  function NearestRules(chain: seq<Loc>): seq<Rule> {
    if chain == [] then []
    else if chain[|chain| - 1].rules != [] then chain[|chain| - 1].rules
    else NearestRules(chain[..|chain| - 1])
  }

  /** The innermost context that says anything about reporting, or about the label. */
  function NearestReport(chain: seq<Loc>): Option<Loc> {
    if chain == [] then None
    else if chain[|chain| - 1].reportSet then Some(chain[|chain| - 1])
    else NearestReport(chain[..|chain| - 1])
  }

  function NearestLabel(chain: seq<Loc>): Option<Loc> {
    if chain == [] then None
    else if chain[|chain| - 1].labelSet then Some(chain[|chain| - 1])
    else NearestLabel(chain[..|chain| - 1])
  }

  /** After merging, admission is enabled exactly when a nonempty rule list is in effect, and it is
      the one of the nearest declaring context; so are the report setting and the label. */
  lemma {:induction false} MergedMeansNearest(t: Tables, mainEnabled: bool, chain: seq<Loc>)
    requires |chain| >= 1 && forall i | 0 <= i < |chain| :: Declared(t, mainEnabled, chain[i])
    ensures
      var m := MergeChain(chain);
      && m.rules == NearestRules(chain)
      && (m.enabled == Some(true) <==> NearestRules(chain) != [])
      && (|chain| >= 2 ==> m.enabled.Some?)
      && (match NearestReport(chain)
          case None => !m.reportSet && !m.reportEnabled
          case Some(l) => m.reportSet && m.reportEnabled == l.reportEnabled && m.reportTracker == l.reportTracker)
      && (match NearestLabel(chain)
          case None => !m.labelSet
          case Some(l) => m.labelSet && m.labelText == l.labelText)
      && Usable(t, mainEnabled, m)
  {
    var front := chain[..|chain| - 1];
    assert Declared(t, mainEnabled, chain[|chain| - 1]);
    if front != [] {
      MergedMeansNearest(t, mainEnabled, front);
    } else {
      assert NearestReport(front) == None && NearestLabel(front) == None && NearestRules(front) == [];
    }
  }

  // ---- Whole configurations ----------------------------------------------------------------------

  datatype Directive =
    | ZoneDirective(args: seq<string>)
    | TrackerDirective(args: seq<string>)
    | GuardDirective(args: seq<string>)
    | GroupDirective(args: seq<string>)
    | RuleDirective(context: nat, args: seq<string>)
    | ReportDirective(context: nat, value: string)
    | LabelDirective(context: nat, value: string)

  /** What the directives say about context `c`, in order. */
  function RulesGiven(ds: seq<Directive>, c: nat): seq<Rule> {
    if ds == [] then []
    else
      var d := ds[|ds| - 1];
      RulesGiven(ds[..|ds| - 1], c) + if d.RuleDirective? && d.context == c then [RuleOf(d.args)] else []
  }

  function ReportsGiven(ds: seq<Directive>, c: nat): seq<string> {
    if ds == [] then []
    else
      var d := ds[|ds| - 1];
      ReportsGiven(ds[..|ds| - 1], c) + if d.ReportDirective? && d.context == c then [d.value] else []
  }

  function LabelsGiven(ds: seq<Directive>, c: nat): seq<string> {
    if ds == [] then []
    else
      var d := ds[|ds| - 1];
      LabelsGiven(ds[..|ds| - 1], c) + if d.LabelDirective? && d.context == c then [d.value] else []
  }

  /** The context that says exactly this: all rules, the report, the last label. */
  function ContextOf(rules: seq<Rule>, reports: seq<string>, labels: seq<string>): Loc {
    var report := LastOr(reports);
    Loc(if rules == [] then None else Some(true), rules,
        reports != [], reports != [] && report != "off", if report == "off" then "" else report,
        labels != [], LastOr(labels))
  }

  function Said(ds: seq<Directive>, c: nat): Loc {
    ContextOf(RulesGiven(ds, c), ReportsGiven(ds, c), LabelsGiven(ds, c))
  }

  /** The entry that a directive of the main context adds to each table. */
  function ZoneGiven(d: Directive): seq<Zone> {
    if d.ZoneDirective? && d.args != []
    then [Zone(d.args[0], LastOr(Values(d.args[1..], "bucket=")), LastOr(Values(d.args[1..], "rate=")))] else []
  }

  function GuardGiven(d: Directive): seq<Guard> {
    if d.GuardDirective? && d.args != []
    then [Guard(d.args[0], LastOr(Values(d.args[1..], "tracker=")), LastOr(Values(d.args[1..], "threshold=")))] else []
  }

  function GroupGiven(d: Directive): seq<Group> {
    if d.GroupDirective? && d.args != [] then [Group(d.args[0], Values(d.args[1..], "zone="))] else []
  }

  function ZonesGiven(ds: seq<Directive>): seq<Zone> {
    if ds == [] then [] else ZonesGiven(ds[..|ds| - 1]) + ZoneGiven(ds[|ds| - 1])
  }

  function GuardsGiven(ds: seq<Directive>): seq<Guard> {
    if ds == [] then [] else GuardsGiven(ds[..|ds| - 1]) + GuardGiven(ds[|ds| - 1])
  }

  function GroupsGiven(ds: seq<Directive>): seq<Group> {
    if ds == [] then [] else GroupsGiven(ds[..|ds| - 1]) + GroupGiven(ds[|ds| - 1])
  }

  /** The arguments of the tracker directives. */
  function TrackersGiven(ds: seq<Directive>): seq<seq<string>> {
    if ds == [] then []
    else TrackersGiven(ds[..|ds| - 1]) + if ds[|ds| - 1].TrackerDirective? then [ds[|ds| - 1].args] else []
  }

  /** Each tracker is what one directive says, in order. */
  ghost predicate TrackersSaid(parse: string -> Option<nat>, trackers: seq<Tracker>, given: seq<seq<string>>) {
    |trackers| == |given| && forall k | 0 <= k < |given| :: TrackerSaid(parse, trackers[k], given[k])
  }

  ghost predicate TrackerSaid(parse: string -> Option<nat>, t: Tracker, args: seq<string>) {
    args != [] && t.name == args[0] && TrackerSays(parse, args[1..], t)
  }

  /** From `a` to `b` each table grew by exactly the entries that the directives give, in order. */
  ghost predicate Grown(parse: string -> Option<nat>, a: Tables, b: Tables, ds: seq<Directive>) {
    && b.zones == a.zones + ZonesGiven(ds)
    && b.guards == a.guards + GuardsGiven(ds)
    && b.groups == a.groups + GroupsGiven(ds)
    && a.trackers <= b.trackers && TrackersSaid(parse, b.trackers[|a.trackers|..], TrackersGiven(ds))
  }

  lemma GrownNothing(parse: string -> Option<nat>, a: Tables, d: Directive)
    requires d.RuleDirective? || d.ReportDirective? || d.LabelDirective?
    ensures Grown(parse, a, a, [d])
  {
    assert [d][..0] == [];
  }

  lemma GrownPush(parse: string -> Option<nat>, a: Tables, b: Tables, c: Tables, ds: seq<Directive>, i: nat)
    requires i < |ds| && Grown(parse, a, b, ds[..i]) && Grown(parse, b, c, [ds[i]])
    ensures Grown(parse, a, c, ds[..i + 1])
  {
    GivenPush(ds, i);
    var front := ds[..i];
    Regroup(a.zones, ZonesGiven(front), ZonesGiven([ds[i]]));
    Regroup(a.guards, GuardsGiven(front), GuardsGiven([ds[i]]));
    Regroup(a.groups, GroupsGiven(front), GroupsGiven([ds[i]]));
    TrackersPush(parse, a.trackers, b.trackers, c.trackers, TrackersGiven(front), TrackersGiven([ds[i]]));
  }

  lemma Regroup<X>(a: seq<X>, b: seq<X>, c: seq<X>)
    ensures a + b + c == a + (b + c)
  {
  }

  lemma GivenPush(ds: seq<Directive>, i: nat)
    requires i < |ds|
    ensures ZonesGiven(ds[..i + 1]) == ZonesGiven(ds[..i]) + ZonesGiven([ds[i]])
    ensures GuardsGiven(ds[..i + 1]) == GuardsGiven(ds[..i]) + GuardsGiven([ds[i]])
    ensures GroupsGiven(ds[..i + 1]) == GroupsGiven(ds[..i]) + GroupsGiven([ds[i]])
    ensures TrackersGiven(ds[..i + 1]) == TrackersGiven(ds[..i]) + TrackersGiven([ds[i]])
  {
    assert ds[..i + 1] == ds[..i] + [ds[i]];
    TablesGivenPush(ds[..i], ds[i]);
    TrackersGivenPush(ds[..i], ds[i]);
  }

  lemma TablesGivenPush(ds: seq<Directive>, d: Directive)
    ensures ZonesGiven(ds + [d]) == ZonesGiven(ds) + ZonesGiven([d])
    ensures GuardsGiven(ds + [d]) == GuardsGiven(ds) + GuardsGiven([d])
    ensures GroupsGiven(ds + [d]) == GroupsGiven(ds) + GroupsGiven([d])
  {
    assert (ds + [d])[..|ds|] == ds && [d][..0] == [];
    assert ZonesGiven([d]) == ZoneGiven(d) && GuardsGiven([d]) == GuardGiven(d) && GroupsGiven([d]) == GroupGiven(d);
  }

  lemma TrackersGivenPush(ds: seq<Directive>, d: Directive)
    ensures TrackersGiven(ds + [d]) == TrackersGiven(ds) + TrackersGiven([d])
  {
    assert (ds + [d])[..|ds|] == ds && [d][..0] == [];
  }

  lemma TrackersPush(parse: string -> Option<nat>, a: seq<Tracker>, b: seq<Tracker>, c: seq<Tracker>,
                     given: seq<seq<string>>, more: seq<seq<string>>)
    requires a <= b <= c && TrackersSaid(parse, b[|a|..], given) && TrackersSaid(parse, c[|b|..], more)
    ensures TrackersSaid(parse, c[|a|..], given + more)
  {
    assert c[|a|..] == b[|a|..] + c[|b|..];
    SaidAppend(parse, b[|a|..], c[|b|..], given, more);
  }

  lemma SaidAppend(parse: string -> Option<nat>, a: seq<Tracker>, b: seq<Tracker>, given: seq<seq<string>>, more: seq<seq<string>>)
    requires TrackersSaid(parse, a, given) && TrackersSaid(parse, b, more)
    ensures TrackersSaid(parse, a + b, given + more)
  {
    forall k | 0 <= k < |given + more| ensures TrackerSaid(parse, (a + b)[k], (given + more)[k]) {
      if k < |given| {
        assert TrackerSaid(parse, a[k], given[k]);
      } else {
        assert TrackerSaid(parse, b[k - |given|], more[k - |given|]);
      }
    }
  }

  /** Context `c` after one more directive. */
  function Obey(l: Loc, c: nat, d: Directive): Loc {
    if d.RuleDirective? && d.context == c then l.(rules := l.rules + [RuleOf(d.args)], enabled := Some(true))
    else if d.ReportDirective? && d.context == c then
      l.(reportSet := true, reportEnabled := d.value != "off", reportTracker := if d.value == "off" then "" else d.value)
    else if d.LabelDirective? && d.context == c then l.(labelSet := true, labelText := d.value)
    else l
  }

  lemma ContextObeys(rules: seq<Rule>, reports: seq<string>, labels: seq<string>, c: nat, d: Directive)
    ensures
      var mine := if d.RuleDirective? && d.context == c then [RuleOf(d.args)] else [];
      var report := if d.ReportDirective? && d.context == c then [d.value] else [];
      var text := if d.LabelDirective? && d.context == c then [d.value] else [];
      ContextOf(rules + mine, reports + report, labels + text) == Obey(ContextOf(rules, reports, labels), c, d)
  {
    assert rules + [] == rules && reports + [] == reports && labels + [] == labels;
  }

  lemma SaidPush(ds: seq<Directive>, i: nat, c: nat)
    requires i < |ds|
    ensures Said(ds[..i + 1], c) == Obey(Said(ds[..i], c), c, ds[i])
    ensures ReportsGiven(ds[..i + 1], c) == ReportsGiven(ds[..i], c)
              + if ds[i].ReportDirective? && ds[i].context == c then [ds[i].value] else []
  {
    var front := ds[..i];
    assert ds[..i + 1][..i] == front;
    ContextObeys(RulesGiven(front, c), ReportsGiven(front, c), LabelsGiven(front, c), c, ds[i]);
  }

  ghost predicate Good(mcf: MainConf, locs: seq<LocConf>)
    reads mcf, locs
  {
    && (forall i, j | 0 <= i < j < |locs| :: locs[i] != locs[j])
    && Consistent(mcf.T()) && forall i | 0 <= i < |locs| :: Declared(mcf.T(), mcf.enabled, locs[i].L())
  }

  /** A directive of the main context adds its entry to its table and leaves the other tables. */
  method ApplyMain(mcf: MainConf, d: Directive) returns (ok: bool)
    requires Consistent(mcf.T()) && !d.RuleDirective? && !d.ReportDirective? && !d.LabelDirective?
    modifies mcf
    ensures mcf.enabled == old(mcf.enabled)
    ensures ok ==> Consistent(mcf.T()) && Extends(old(mcf.T()), mcf.T())
    ensures ok ==> Grown(mcf.duration, old(mcf.T()), mcf.T(), [d])
  {
    match d {
      case ZoneDirective(args) => ok := ApplyZone(mcf, args);
      case TrackerDirective(args) => ok := ApplyTracker(mcf, args);
      case GuardDirective(args) => ok := ApplyGuard(mcf, args);
      case GroupDirective(args) => ok := ApplyGroup(mcf, args);
    }
  }

  method ApplyZone(mcf: MainConf, args: seq<string>) returns (ok: bool)
    requires Consistent(mcf.T())
    modifies mcf`zones
    ensures ok ==> Consistent(mcf.T()) && Grown(mcf.duration, old(mcf.T()), mcf.T(), [ZoneDirective(args)])
  {
    ghost var t := mcf.T();
    if args == [] {
      return false;
    }
    ok := mcf.AddZone(args);
    if ok {
      ZoneKeeps(t, mcf.zones[|mcf.zones| - 1]);
      assert [ZoneDirective(args)][..0] == [];
    }
  }

  method ApplyTracker(mcf: MainConf, args: seq<string>) returns (ok: bool)
    requires Consistent(mcf.T())
    modifies mcf`trackers
    ensures ok ==> Consistent(mcf.T()) && Grown(mcf.duration, old(mcf.T()), mcf.T(), [TrackerDirective(args)])
  {
    ghost var t := mcf.T();
    ok := mcf.AddTracker(args);
    if ok {
      ghost var n := |t.trackers|;
      assert mcf.trackers == t.trackers + [mcf.trackers[n]];
      TrackerKeeps(t, mcf.trackers[n]);
      assert [TrackerDirective(args)][..0] == [];
    }
  }

  method ApplyGuard(mcf: MainConf, args: seq<string>) returns (ok: bool)
    requires Consistent(mcf.T())
    modifies mcf`guards
    ensures ok ==> Consistent(mcf.T()) && Grown(mcf.duration, old(mcf.T()), mcf.T(), [GuardDirective(args)])
  {
    ghost var t := mcf.T();
    if args == [] {
      return false;
    }
    ok := mcf.AddGuard(args);
    if ok {
      GuardKeeps(t, mcf.guards[|mcf.guards| - 1]);
      assert [GuardDirective(args)][..0] == [];
    }
  }

  method ApplyGroup(mcf: MainConf, args: seq<string>) returns (ok: bool)
    requires Consistent(mcf.T())
    modifies mcf`groups
    ensures ok ==> Consistent(mcf.T()) && Grown(mcf.duration, old(mcf.T()), mcf.T(), [GroupDirective(args)])
  {
    ghost var t := mcf.T();
    ok := mcf.AddGroup(args);
    if ok {
      AcceptedGroupResolves(t, args);
      GroupKeeps(t, mcf.groups[|mcf.groups| - 1]);
      assert [GroupDirective(args)][..0] == [];
    }
  }

  /** Directives of a location context only change that context, and may switch the module on. */
  method ApplyContext(mcf: MainConf, loc: LocConf, d: Directive) returns (ok: bool)
    requires Declared(mcf.T(), mcf.enabled, loc.L())
    modifies mcf`enabled, loc
    ensures ok ==> Declared(mcf.T(), mcf.enabled, loc.L()) && (old(mcf.enabled) ==> mcf.enabled)
    ensures ok && (d.RuleDirective? || d.ReportDirective? || d.LabelDirective?) ==> loc.L() == Obey(old(loc.L()), d.context, d)
    ensures ok && d.ReportDirective? ==> !old(loc.reportSet)
  {
    match d {
      case RuleDirective(_, args) =>
        ok := loc.AddRule(mcf, args);
        if ok {
          AcceptedRuleResolves(mcf.T(), args);
        }
      case ReportDirective(_, value) =>
        ok := loc.SetReport(mcf, value);
      case LabelDirective(_, value) =>
        ok := loc.SetLabel(value);
      case _ =>
        return true;
    }
  }

  method Apply(mcf: MainConf, locs: seq<LocConf>, d: Directive) returns (ok: bool)
    requires Good(mcf, locs)
    modifies mcf, locs
    ensures ok ==> Good(mcf, locs) && Extends(old(mcf.T()), mcf.T())
    ensures ok ==> Grown(mcf.duration, old(mcf.T()), mcf.T(), [d])
    ensures ok ==> forall c | 0 <= c < |locs| :: locs[c].L() == Obey(old(locs[c].L()), c, d)
    ensures ok && d.ReportDirective? ==> d.context < |locs| && !old(locs[d.context].L()).reportSet
  {
    if d.RuleDirective? || d.ReportDirective? || d.LabelDirective? {
      if d.context >= |locs| {
        return false;
      }
      GrownNothing(mcf.duration, mcf.T(), d);
      ok := ApplyContext(mcf, locs[d.context], d);
    } else {
      ok := ApplyMain(mcf, d);
    }
    if ok {
      forall i | 0 <= i < |locs| && (d.RuleDirective? || d.ReportDirective? || d.LabelDirective? ==> i != d.context)
        ensures Declared(mcf.T(), mcf.enabled, locs[i].L()) && locs[i].L() == old(locs[i].L())
      {
        assert locs[i].L() == old(locs[i].L());
        UsableForGood(old(mcf.T()), mcf.T(), old(mcf.enabled), mcf.enabled, locs[i].L());
      }
    }
  }

  /** Any accepted sequence of directives, in any order and over any contexts. Each table then has grown
      by exactly the entries its directives give, in order, and a context that was fresh says exactly
      what its own directives gave it, with at most one report setting. */
  method Configure(mcf: MainConf, locs: seq<LocConf>, ds: seq<Directive>) returns (ok: bool)
    requires Good(mcf, locs)
    modifies mcf, locs
    ensures ok ==> Good(mcf, locs) && Extends(old(mcf.T()), mcf.T())
    ensures ok ==> Grown(mcf.duration, old(mcf.T()), mcf.T(), ds)
    ensures ok ==> forall c | 0 <= c < |locs| && old(locs[c].L()) == FreshLoc ::
                     locs[c].L() == Said(ds, c) && |ReportsGiven(ds, c)| <= 1
  {
    for i := 0 to |ds|
      invariant Good(mcf, locs) && Grown(mcf.duration, old(mcf.T()), mcf.T(), ds[..i])
      invariant forall c | 0 <= c < |locs| && old(locs[c].L()) == FreshLoc ::
                  locs[c].L() == Said(ds[..i], c) && |ReportsGiven(ds[..i], c)| <= 1
    {
      ghost var t := mcf.T();
      ok := Apply(mcf, locs, ds[i]);
      if !ok {
        return false;
      }
      GrownPush(mcf.duration, old(mcf.T()), t, mcf.T(), ds, i);
      forall c | 0 <= c < |locs| && old(locs[c].L()) == FreshLoc
        ensures locs[c].L() == Said(ds[..i + 1], c) && |ReportsGiven(ds[..i + 1], c)| <= 1
      {
        SaidPush(ds, i, c);
      }
    }
    assert ds[..|ds|] == ds;
    return true;
  }
}
