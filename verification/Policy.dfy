/**
 The request policy: replay schedules, their horizon, and their textual form.

 `ScheduleUnits` and `HorizonMs` are the program's 32-bit and 64-bit loops; `Exact` and
 `ExactHorizon` are the unbounded arithmetic they are proved to compute.
 */
module Policy {
  import opened Wrappers
  import opened Numeric

  const MAX_REPLAY_COUNT: nat := 65535

  datatype Kind = Fixed | Linear | Exponential | OtherKind

  /** r_ha_schedule_t; `growth` is the linear step or the exponential factor. */
  datatype Schedule = Schedule(kind: Kind, initial: u32, max: u32, growth: u32)

  datatype RequestPolicy = RequestPolicy(unitMs: u64, replayCount: u32, replayGap: Schedule, finalUnits: u32)

  // ----- Exact arithmetic ---------------------------------------------------------------------

  function Pow(b: nat, e: nat): nat {
    if e == 0 then 1 else b * Pow(b, e - 1)
  }

  function Min(a: nat, b: nat): nat {
    if a <= b then a else b
  }

  predicate WellFormed(s: Schedule) {
    && s.initial <= s.max
    && match s.kind
       case Fixed => true
       case Linear => s.growth >= 1
       case Exponential => s.growth >= 2
       case OtherKind => false
  }

  /** The units of a round, over unbounded numbers. */
  function Exact(s: Schedule, round: nat): nat {
    match s.kind
    case Fixed => s.initial
    case Linear => Min(s.max, s.initial + round * s.growth)
    case Exponential => Min(s.max, s.initial * Pow(s.growth, round))
    case OtherKind => 0
  }

  lemma {:induction false} PowGrows(b: nat, k: nat, n: nat)
    requires b >= 1 && k <= n
    ensures 1 <= Pow(b, k) <= Pow(b, n)
    decreases n
  {
    if k == n {
      if n > 0 { PowGrows(b, n - 1, n - 1); MulMonotone(1, b, Pow(b, n - 1)); }
    } else {
      PowGrows(b, k, n - 1);
      MulMonotone(1, b, Pow(b, n - 1));
    }
  }

  lemma MulMonotone(a: nat, b: nat, c: nat)
    requires a <= b
    ensures a * c <= b * c && c * a <= c * b
  {
  }

  /** A schedule never shrinks and never exceeds its maximum. */
  lemma ScheduleMonotone(s: Schedule, k: nat, n: nat)
    requires WellFormed(s) && k <= n
    ensures Exact(s, k) <= Exact(s, n) <= s.max
    ensures s.initial <= Exact(s, k)
  {
    match s.kind
    case Fixed =>
    case Linear => MulMonotone(k, n, s.growth);
    case Exponential =>
      PowGrows(s.growth, k, n);
      PowGrows(s.growth, 0, k);
      MulMonotone(Pow(s.growth, k), Pow(s.growth, n), s.initial);
      MulMonotone(1, Pow(s.growth, k), s.initial);
  }

  // ----- The saturating schedule ----------------------------------------------------------------

  /** `k` steps fit below the maximum exactly when `k` is at most the floor quotient. */
  lemma QuotientIsExact(k: nat, room: nat, step: nat)
    requires step >= 1
    ensures k <= room / step <==> k * step <= room
  {
    var q := room / step;
    assert q * step <= room < (q + 1) * step by {
      assert room == q * step + room % step;
    }
    if k <= q {
      MulMonotone(k, q, step);
    } else {
      MulMonotone(q + 1, k, step);
    }
  }

  /** Once a value has reached the maximum, more growth changes nothing below it. */
  lemma SaturatedStays(value: nat, max: nat, growth: nat, k: nat)
    requires value >= max && growth >= 1
    ensures Min(max, value * Pow(growth, k)) == max
  {
    PowGrows(growth, 0, k);
    MulMonotone(1, Pow(growth, k), value);
  }

  /** One saturating step of the exponential loop loses nothing. */
  lemma ExponentialStep(value: nat, max: nat, growth: nat, k: nat)
    requires growth >= 1 && k >= 1
    ensures value > max / growth ==> Min(max, value * Pow(growth, k)) == max
    ensures value * growth * Pow(growth, k - 1) == value * Pow(growth, k)
    ensures value <= max / growth ==> value * growth <= max
  {
    QuotientIsExact(value, max, growth);
    assert value * growth * Pow(growth, k - 1) == value * (growth * Pow(growth, k - 1));
    if value > max / growth {
      SaturatedStays(value * growth, max, growth, k - 1);
    }
  }

  /** The exponential loop: multiply and saturate, one round at a time. */
  method ExponentialUnits(initial: u32, max: u32, factor: u32, round: u32) returns (value: u32)
    requires factor >= 2 && initial <= max
    ensures value == Min(max, initial * Pow(factor, round))
  {
    value := initial;
    var left := round;
    while left > 0 && value < max
      invariant value <= max
      invariant Min(max, value * Pow(factor, left)) == Min(max, initial * Pow(factor, round))
    {
      ExponentialStep(value, max, factor, left);
      left := left - 1;
      if value > max / factor {
        value := max;
        SaturatedStays(value, max, factor, left);
      } else {
        value := value * factor;
      }
    }
    if left > 0 {
      SaturatedStays(value, max, factor, left);
    }
  }

  method ScheduleUnits(s: Schedule, round: u32) returns (r: Option<u32>)
    ensures r.Some? <==> WellFormed(s)
    ensures r.Some? ==> r.value == Exact(s, round)
  {
    if s.initial > s.max {
      return None;
    }
    var value := s.initial;
    match s.kind {
      case Fixed =>
      case Linear =>
        if s.growth == 0 {
          return None;
        }
        QuotientIsExact(round, s.max - value, s.growth);
        if round > (s.max - value) / s.growth {
          value := s.max;
        } else {
          value := value + round * s.growth;
        }
      case Exponential =>
        if s.growth < 2 {
          return None;
        }
        value := ExponentialUnits(s.initial, s.max, s.growth, round);
      case OtherKind => return None;
    }
    return Some(value);
  }

  // ----- The horizon ------------------------------------------------------------------------------

  /** The units of rounds 0..n-1. */
  function GapSum(s: Schedule, n: nat): nat {
    if n == 0 then 0 else GapSum(s, n - 1) + Exact(s, n - 1)
  }

  predicate ValidPolicy(p: RequestPolicy) {
    p.unitMs >= 1 && p.replayCount <= MAX_REPLAY_COUNT && p.replayGap.initial >= 1 && WellFormed(p.replayGap)
  }

  /** The documented horizon: the unit times the sum of all gaps and the final wait. */
  function ExactHorizon(p: RequestPolicy): nat {
    p.unitMs * (GapSum(p.replayGap, p.replayCount + 1) + p.finalUnits)
  }

  lemma {:induction false} GapSumGrows(s: Schedule, k: nat, n: nat)
    requires k <= n
    ensures GapSum(s, k) <= GapSum(s, n)
    decreases n
  {
    if k < n {
      GapSumGrows(s, k, n - 1);
    }
  }

  lemma GapSumPositive(s: Schedule, n: nat)
    requires WellFormed(s) && s.initial >= 1 && n >= 1
    ensures GapSum(s, n) >= 1
  {
    ScheduleMonotone(s, 0, 0);
    GapSumGrows(s, 1, n);
  }

  /** A total fits the quotient exactly when the product fits the limit. */
  lemma FitsExactly(total: nat, unit: nat, limit: nat)
    requires unit >= 1
    ensures total <= limit / unit <==> unit * total <= limit
  {
    QuotientIsExact(total, limit, unit);
    assert unit * total == total * unit;
  }

  /** The units of all gaps and the final wait, unless they exceed what fits. */
  method TotalUnits(p: RequestPolicy, maxUnits: u64) returns (r: Option<u64>)
    requires p.replayCount <= MAX_REPLAY_COUNT
    ensures r.Some? <==>
      WellFormed(p.replayGap) && GapSum(p.replayGap, p.replayCount + 1) + p.finalUnits <= maxUnits
    ensures r.Some? ==> r.value == GapSum(p.replayGap, p.replayCount + 1) + p.finalUnits
  {
    var totalUnits: u64 := 0;
    var round := 0;
    while round <= p.replayCount
      invariant 0 <= round <= p.replayCount + 1
      invariant round > 0 ==> WellFormed(p.replayGap)
      invariant totalUnits == GapSum(p.replayGap, round) <= maxUnits
    {
      var gap := ScheduleUnits(p.replayGap, round);
      if gap.None? {
        return None;
      }
      GapSumGrows(p.replayGap, round + 1, p.replayCount + 1);
      if gap.value > maxUnits - totalUnits {
        return None;
      }
      totalUnits := totalUnits + gap.value;
      round := round + 1;
    }
    if p.finalUnits > maxUnits - totalUnits {
      return None;
    }
    return Some(totalUnits + p.finalUnits);
  }

  lemma UnitFits(exact: nat, unit: nat, limit: nat)
    requires unit >= 1 && exact >= 1
    ensures unit * exact <= limit ==> unit <= limit
  {
    MulMonotone(1, exact, unit);
  }

  method HorizonMs(p: RequestPolicy, maxTtlMs: u32) returns (r: Option<u32>)
    ensures r.Some? <==> ValidPolicy(p) && ExactHorizon(p) <= maxTtlMs
    ensures r.Some? ==> r.value == ExactHorizon(p)
  {
    ghost var exact := GapSum(p.replayGap, p.replayCount + 1) + p.finalUnits;
    if ValidPolicy(p) {
      GapSumPositive(p.replayGap, p.replayCount + 1);
      UnitFits(exact, p.unitMs, maxTtlMs);
    }
    if p.unitMs == 0 || p.unitMs > maxTtlMs || p.replayCount > MAX_REPLAY_COUNT || p.replayGap.initial == 0 {
      return None;
    }
    FitsExactly(exact, p.unitMs, maxTtlMs);
    var totalUnits := TotalUnits(p, maxTtlMs / p.unitMs);
    if totalUnits.None? || totalUnits.value == 0 {
      return None;
    }
    var horizon := Scaled(totalUnits.value, p.unitMs, maxTtlMs);
    return Some(horizon);
  }

  /** The product of a total that fits the quotient. */
  method Scaled(total: u64, unit: u32, limit: u32) returns (r: u32)
    requires unit >= 1 && total <= limit / unit
    ensures r == unit * total
  {
    FitsExactly(total, unit, limit);
    Commutes(total, unit);
    return total * unit;
  }

  lemma Commutes(a: nat, b: nat)
    ensures a * b == b * a
  {
  }

  /** The directive checks the policy against the wire limit, the final check against the
      credential's limit; the second accepts exactly the policies the first accepted with a horizon
      within that limit, and both compute the same horizon. */
  method CheckTwice(p: RequestPolicy, dedupTtlMs: u32) returns (wire: Option<u32>, credential: Option<u32>)
    ensures wire.Some? <==> ValidPolicy(p) && ExactHorizon(p) <= U32_MAX
    ensures credential.Some? <==> wire.Some? && (dedupTtlMs == 0 || wire.value <= dedupTtlMs)
    ensures credential.Some? ==> credential == wire
  {
    wire := HorizonMs(p, U32_MAX);
    credential := HorizonMs(p, if dedupTtlMs == 0 then U32_MAX else dedupTtlMs);
  }

  // ----- The textual form -------------------------------------------------------------------------

  const FIXED: string := "fixed:"
  const LINEAR: string := "linear:"
  const EXPONENTIAL: string := "exponential:"

  /** `value` is a header and three numbers between colons. */
  ghost predicate ThreeNumbers(value: string, header: string, a: string, b: string, c: string, x: nat, y: nat, z: nat) {
    && value == header + a + ":" + b + ":" + c
    && DenotesU32(a, x) && DenotesU32(b, y) && DenotesU32(c, z)
  }

  /** The schedules the documentation lists, with their texts. */
  ghost predicate Denotes(value: string, s: Schedule, a: string, b: string, c: string) {
    match s.kind
    case Fixed => value == FIXED + a && DenotesU32(a, s.initial) && s.max == s.initial && s.growth == 0
    case Linear => ThreeNumbers(value, LINEAR, a, b, c, s.initial, s.growth, s.max) && WellFormed(s)
    case Exponential => ThreeNumbers(value, EXPONENTIAL, a, b, c, s.initial, s.growth, s.max) && WellFormed(s)
    case OtherKind => false
  }

  /** The position of the first colon, or the length. */
  ghost function ColonAt(s: string): (n: nat)
    ensures n <= |s| && (n < |s| ==> s[n] == ':')
  {
    if s == "" || s[0] == ':' then 0 else 1 + ColonAt(s[1..])
  }

  /** A digit string holds no colon, so the first colon after it is the one that ends it. */
  lemma {:induction false} ColonAfterDigits(a: string, rest: string)
    requires AllDigits(a)
    ensures ColonAt(a + rest) == |a| + ColonAt(rest)
    decreases |a|
  {
    if a == "" {
      assert a + rest == rest;
    } else {
      assert (a + rest)[0] == a[0];
      assert (a + rest)[1..] == a[1..] + rest;
      ColonAfterDigits(a[1..], rest);
    }
  }

  /** ngx_strlchr for ':' from `cursor`. */
  method FindColon(value: string, cursor: nat) returns (at: Option<nat>)
    requires cursor <= |value|
    ensures at == var n := ColonAt(value[cursor..]); if n < |value| - cursor then Some(cursor + n) else None
  {
    var i := cursor;
    while i < |value|
      invariant cursor <= i <= |value|
      invariant ColonAt(value[cursor..]) == i - cursor + ColonAt(value[i..])
    {
      if value[i] == ':' {
        return Some(i);
      }
      assert value[i..][1..] == value[i + 1..];
      i := i + 1;
    }
    return None;
  }

  /** A number, the colon that ends it, and what follows. */
  ghost predicate NumberThen(s: string, a: string, x: nat, rest: string) {
    DenotesU32(a, x) && s == a + ":" + rest
  }

  lemma NumberThenPositions(s: string, a: string, x: nat, rest: string)
    requires NumberThen(s, a, x, rest)
    ensures ColonAt(s) == |a| < |s| && a == s[..|a|] && rest == s[|a| + 1..]
  {
    assert s == a + (":" + rest);
    ColonAfterDigits(a, ":" + rest);
  }

  /** One number of a schedule, up to the next colon, which is skipped. */
  method ParseNumberBeforeColon(value: string, cursor: nat) returns (r: Option<u32>, next: nat)
    requires cursor <= |value|
    ensures cursor <= next <= |value|
    ensures r.Some? ==> exists a :: NumberThen(value[cursor..], a, r.value, value[next..])
    ensures forall a, x: nat, rest | NumberThen(value[cursor..], a, x, rest) ::
              r.Some? && r.value == x && value[next..] == rest
  {
    ghost var s := value[cursor..];
    forall a, x: nat, rest | NumberThen(s, a, x, rest)
      ensures ColonAt(s) == |a| < |s| && a == s[..ColonAt(s)] && rest == s[ColonAt(s) + 1..]
    {
      NumberThenPositions(s, a, x, rest);
    }
    if cursor >= |value| {
      return None, cursor;
    }
    var separator := FindColon(value, cursor);
    if separator.None? {
      return None, cursor;
    }
    assert s[..ColonAt(s)] == value[cursor..separator.value];
    assert s[ColonAt(s) + 1..] == value[separator.value + 1..];
    r := ParseU32(value[cursor..separator.value]);
    next := separator.value + 1;
    assert s == s[..ColonAt(s)] + ":" + value[next..];
    if r.Some? {
      assert NumberThen(s, s[..ColonAt(s)], r.value, value[next..]);
    }
  }

  /** The last number of a schedule: the rest of the text, which must hold no colon. */
  method ParseLastNumber(value: string, cursor: nat) returns (r: Option<u32>)
    requires cursor <= |value|
    ensures r.Some? ==> DenotesU32(value[cursor..], r.value)
    ensures forall x: nat | DenotesU32(value[cursor..], x) :: r.Some? && r.value == x
  {
    if cursor >= |value| {
      return None;
    }
    var separator := FindColon(value, cursor);
    if separator.Some? {
      assert value[cursor..][separator.value - cursor] == ':';
      return None;
    }
    r := ParseU32(value[cursor..]);
  }

  predicate StartsWith(value: string, header: string) {
    |value| > |header| && value[..|header|] == header
  }

  ghost predicate TwoNumbers(s: string, b: string, y: nat, c: string, z: nat) {
    NumberThen(s, b, y, c) && DenotesU32(c, z)
  }

  method ParseTwoNumbers(value: string, cursor: nat) returns (r: Option<(u32, u32)>)
    requires cursor <= |value|
    ensures r.Some? ==> exists b, c :: TwoNumbers(value[cursor..], b, r.value.0, c, r.value.1)
    ensures forall b, c, y: nat, z: nat | TwoNumbers(value[cursor..], b, y, c, z) ::
              r.Some? && r.value.0 == y && r.value.1 == z
  {
    var y, next := ParseNumberBeforeColon(value, cursor);
    if y.None? {
      return None;
    }
    var z := ParseLastNumber(value, next);
    if z.None? {
      return None;
    }
    ghost var b :| NumberThen(value[cursor..], b, y.value, value[next..]);
    assert TwoNumbers(value[cursor..], b, y.value, value[next..], z.value);
    return Some((y.value, z.value));
  }

  lemma ThreeNumbersParts(value: string, header: string, a: string, b: string, c: string, x: nat, y: nat, z: nat)
    requires ThreeNumbers(value, header, a, b, c, x, y, z)
    ensures NumberThen(value[|header|..], a, x, b + ":" + c) && TwoNumbers(b + ":" + c, b, y, c, z)
  {
    assert value[|header|..] == a + ":" + (b + ":" + c);
  }

  /** The three numbers after a header. */
  method ParseThreeNumbers(value: string, header: string) returns (r: Option<(u32, u32, u32)>)
    requires StartsWith(value, header)
    ensures r.Some? ==> exists a, b, c :: ThreeNumbers(value, header, a, b, c, r.value.0, r.value.1, r.value.2)
    ensures forall a, b, c, x: nat, y: nat, z: nat | ThreeNumbers(value, header, a, b, c, x, y, z) ::
              r.Some? && r.value.0 == x && r.value.1 == y && r.value.2 == z
  {
    ghost var rest0 := value[|header|..];
    forall a, b, c, x: nat, y: nat, z: nat | ThreeNumbers(value, header, a, b, c, x, y, z)
      ensures NumberThen(rest0, a, x, b + ":" + c) && TwoNumbers(b + ":" + c, b, y, c, z)
    {
      ThreeNumbersParts(value, header, a, b, c, x, y, z);
    }
    var x, next := ParseNumberBeforeColon(value, |header|);
    if x.None? {
      return None;
    }
    var yz := ParseTwoNumbers(value, next);
    if yz.None? {
      return None;
    }
    ghost var a :| NumberThen(rest0, a, x.value, value[next..]);
    ghost var b, c :| TwoNumbers(value[next..], b, yz.value.0, c, yz.value.1);
    assert value == header + rest0;
    assert value == header + a + ":" + b + ":" + c;
    assert ThreeNumbers(value, header, a, b, c, x.value, yz.value.0, yz.value.1);
    return Some((x.value, yz.value.0, yz.value.1));
  }

  /** Accepts exactly the documented texts, and reads from them exactly what they denote. */
  method ParsePolicySchedule(value: string) returns (r: Option<Schedule>)
    ensures r.Some? ==> exists a, b, c :: Denotes(value, r.value, a, b, c)
    ensures forall s, a, b, c | Denotes(value, s, a, b, c) :: r == Some(s)
  {
    HeadersDiffer(value);
    if StartsWith(value, FIXED) {
      var initial := ParseLastNumber(value, |FIXED|);
      if initial.None? {
        return None;
      }
      assert value == FIXED + value[|FIXED|..];
      var s := Schedule(Fixed, initial.value, initial.value, 0);
      assert Denotes(value, s, value[|FIXED|..], "", "");
      return Some(s);
    }
    if StartsWith(value, LINEAR) {
      var t := ParseThreeNumbers(value, LINEAR);
      if t.None? || t.value.1 == 0 || t.value.0 > t.value.2 {
        return None;
      }
      var s := Schedule(Linear, t.value.0, t.value.2, t.value.1);
      ghost var a, b, c :| ThreeNumbers(value, LINEAR, a, b, c, t.value.0, t.value.1, t.value.2);
      assert Denotes(value, s, a, b, c);
      return Some(s);
    }
    if StartsWith(value, EXPONENTIAL) {
      var t := ParseThreeNumbers(value, EXPONENTIAL);
      if t.None? || t.value.1 < 2 || t.value.0 > t.value.2 {
        return None;
      }
      var s := Schedule(Exponential, t.value.0, t.value.2, t.value.1);
      ghost var a, b, c :| ThreeNumbers(value, EXPONENTIAL, a, b, c, t.value.0, t.value.1, t.value.2);
      assert Denotes(value, s, a, b, c);
      return Some(s);
    }
    return None;
  }

  /** Every denoting text starts with the header of its kind and with no other. */
  lemma HeadersDiffer(value: string)
    ensures forall s, a, b, c | Denotes(value, s, a, b, c) ::
              && (s.kind.Fixed? ==> StartsWith(value, FIXED))
              && (s.kind.Linear? ==> StartsWith(value, LINEAR))
              && (s.kind.Exponential? ==> StartsWith(value, EXPONENTIAL))
              && (s.kind.Fixed? ==> a == value[|FIXED|..])
    ensures !(StartsWith(value, FIXED) && StartsWith(value, LINEAR))
    ensures !(StartsWith(value, FIXED) && StartsWith(value, EXPONENTIAL))
    ensures !(StartsWith(value, LINEAR) && StartsWith(value, EXPONENTIAL))
  {
    forall s, a, b, c | Denotes(value, s, a, b, c)
      ensures
        && (s.kind.Fixed? ==> StartsWith(value, FIXED))
        && (s.kind.Linear? ==> StartsWith(value, LINEAR))
        && (s.kind.Exponential? ==> StartsWith(value, EXPONENTIAL))
        && (s.kind.Fixed? ==> a == value[|FIXED|..])
    {
      var header := match s.kind case Fixed => FIXED case Linear => LINEAR case _ => EXPONENTIAL;
      assert value[..|header|] == header;
    }
    if StartsWith(value, FIXED) {
      assert value[..|FIXED|][0] == value[0];
    }
    if StartsWith(value, LINEAR) {
      assert value[..|LINEAR|][0] == value[0];
    }
    if StartsWith(value, EXPONENTIAL) {
      assert value[..|EXPONENTIAL|][0] == value[0];
    }
  }

  function PrintSchedule(s: Schedule): string {
    match s.kind
    case Fixed => FIXED + PrintDec(s.initial)
    case Linear => LINEAR + PrintDec(s.initial) + ":" + PrintDec(s.growth) + ":" + PrintDec(s.max)
    case Exponential => EXPONENTIAL + PrintDec(s.initial) + ":" + PrintDec(s.growth) + ":" + PrintDec(s.max)
    case OtherKind => ""
  }

  lemma ThreeNumbersUnique(value: string, header: string, a: string, b: string, c: string, x: nat, y: nat, z: nat,
                           a': string, b': string, c': string, x': nat, y': nat, z': nat)
    requires ThreeNumbers(value, header, a, b, c, x, y, z) && ThreeNumbers(value, header, a', b', c', x', y', z')
    ensures x == x' && y == y' && z == z'
  {
    var rest := value[|header|..];
    assert rest == a + ":" + (b + ":" + c) && rest == a' + ":" + (b' + ":" + c');
    NumberThenPositions(rest, a, x, b + ":" + c);
    NumberThenPositions(rest, a', x', b' + ":" + c');
    NumberThenPositions(b + ":" + c, b, y, c);
    NumberThenPositions(b' + ":" + c', b', y', c');
  }

  /** A text denotes at most one schedule. */
  lemma DenotesUnique(value: string, s: Schedule, a: string, b: string, c: string,
                      s': Schedule, a': string, b': string, c': string)
    requires Denotes(value, s, a, b, c) && Denotes(value, s', a', b', c')
    ensures s == s'
  {
    HeadersDiffer(value);
    if s.kind.Linear? {
      ThreeNumbersUnique(value, LINEAR, a, b, c, s.initial, s.growth, s.max, a', b', c', s'.initial, s'.growth, s'.max);
    } else if s.kind.Exponential? {
      ThreeNumbersUnique(value, EXPONENTIAL, a, b, c, s.initial, s.growth, s.max, a', b', c', s'.initial, s'.growth, s'.max);
    }
  }

  /** The printed text of a schedule denotes it and no other, so the parser gives it back. */
  lemma ScheduleRoundTrip(s: Schedule, s': Schedule, a: string, b: string, c: string)
    requires WellFormed(s) && (s.kind.Fixed? ==> s.growth == 0 && s.max == s.initial)
    ensures Denotes(PrintSchedule(s), s, PrintDec(s.initial), PrintDec(s.growth), PrintDec(s.max))
    ensures Denotes(PrintSchedule(s), s', a, b, c) ==> s' == s
  {
    if Denotes(PrintSchedule(s), s', a, b, c) {
      DenotesUnique(PrintSchedule(s), s, PrintDec(s.initial), PrintDec(s.growth), PrintDec(s.max), s', a, b, c);
    }
  }

  /** A schedule that the parser accepts never fails: every round has its units, between the first
      and the maximum, and no round has fewer than an earlier one. */
  lemma ParsedScheduleNeverFails(value: string, s: Schedule, a: string, b: string, c: string, k: nat, n: nat)
    requires Denotes(value, s, a, b, c) && k <= n
    ensures WellFormed(s) && s.initial <= Exact(s, k) <= Exact(s, n) <= s.max
  {
    ScheduleMonotone(s, k, n);
  }
}
