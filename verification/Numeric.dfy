/**
 The overflow-guarded decimal parsers, and what they accept.

 A 32-bit word is a natural number up to 2^32-1; every assignment to one is checked to stay in
 range, so no expression of the parsers wraps around. Bytes are characters.
 */
module Numeric {
  import opened Wrappers

  const U32_MAX: nat := 0xFFFF_FFFF
  const U64_MAX: nat := 0xFFFF_FFFF_FFFF_FFFF

  type u32 = n: nat | n <= U32_MAX
  type u64 = n: nat | n <= U64_MAX

  // ----- Decimal numbers ---------------------------------------------------------------------

  predicate IsDigit(c: char) {
    '0' <= c <= '9'
  }

  function Digit(c: char): (d: nat)
    requires IsDigit(c)
    ensures d < 10
  {
    c as int - '0' as int
  }

  ghost predicate AllDigits(s: string) {
    forall i | 0 <= i < |s| :: IsDigit(s[i])
  }

  /** The number a string of digits denotes. */
  ghost function DecValue(s: string): nat
    requires AllDigits(s)
    decreases |s|
  {
    if s == "" then 0 else DecValue(s[..|s| - 1]) * 10 + Digit(s[|s| - 1])
  }

  /** A nonempty digit string whose value fits 32 bits, and that value. */
  ghost predicate DenotesU32(s: string, n: nat) {
    s != "" && AllDigits(s) && DecValue(s) == n && n <= U32_MAX
  }

  lemma DecValuePush(s: string, c: char)
    requires AllDigits(s) && IsDigit(c)
    ensures AllDigits(s + [c]) && DecValue(s + [c]) == DecValue(s) * 10 + Digit(c)
  {
    assert (s + [c])[..|s|] == s;
  }

  ghost function Power10(n: nat): nat {
    if n == 0 then 1 else 10 * Power10(n - 1)
  }

  lemma {:induction false} DecValueConcat(a: string, b: string)
    requires AllDigits(a) && AllDigits(b)
    ensures AllDigits(a + b) && DecValue(a + b) == DecValue(a) * Power10(|b|) + DecValue(b)
    decreases |b|
  {
    if b == "" {
      assert a + b == a;
    } else {
      var front, last := b[..|b| - 1], b[|b| - 1];
      DecValueConcat(a, front);
      assert a + b == a + front + [last] && b == front + [last];
      DecValuePush(a + front, last);
      Regroup(DecValue(a), Power10(|front|), DecValue(front), Digit(last));
    }
  }

  lemma Regroup(a: nat, p: nat, b: nat, d: nat)
    ensures (a * p + b) * 10 + d == a * (10 * p) + (b * 10 + d)
  {
  }

  /** Digit strings are decimal: a digit, of character code 48 + d, with `|t|` digits after it counts
      ten to that power. */
  lemma DecimalPositions(s: string, c: char, d: nat, t: string)
    requires AllDigits(s) && AllDigits(t) && d < 10 && c as int == 48 + d
    ensures AllDigits(s + [c]) && AllDigits(s + [c] + t)
    ensures DecValue(s + [c] + t) == (10 * DecValue(s) + d) * Power10(|t|) + DecValue(t) && DecValue("") == 0
  {
    DecValuePush(s, c);
    assert DecValue(s + [c]) == 10 * DecValue(s) + d;
    DecValueConcat(s + [c], t);
  }

  /** A longer digit string denotes no smaller number. */
  lemma {:induction false} DecValuePrefix(s: string, i: nat)
    requires AllDigits(s) && i <= |s|
    ensures AllDigits(s[..i]) && DecValue(s[..i]) <= DecValue(s)
    decreases |s|
  {
    if i < |s| {
      var t := s[..|s| - 1];
      DecValuePrefix(t, i);
      assert t[..i] == s[..i];
    } else {
      assert s[..i] == s;
    }
  }

  /** One guarded step of a decimal loop: the guard fails exactly when the next value would not
      fit 32 bits. */
  lemma GuardIsExact(value: u32, digit: nat)
    requires digit < 10
    ensures value > (U32_MAX - digit) / 10 <==> value * 10 + digit > U32_MAX
  {
  }

  method ParseU32(data: string) returns (r: Option<u32>)
    ensures r.Some? ==> DenotesU32(data, r.value)
    ensures forall n: nat | DenotesU32(data, n) :: r.Some? && r.value == n
  {
    if |data| == 0 {
      return None;
    }
    var value: u32 := 0;
    var i := 0;
    while i < |data|
      invariant 0 <= i <= |data|
      invariant AllDigits(data[..i]) && value == DecValue(data[..i])
    {
      if !('0' <= data[i] <= '9') {
        return None;
      }
      var digit := data[i] as int - '0' as int;
      assert data[..i + 1] == data[..i] + [data[i]];
      DecValuePush(data[..i], data[i]);
      GuardIsExact(value, digit);
      if value > (U32_MAX - digit) / 10 {
        if AllDigits(data) { DecValuePrefix(data, i + 1); }
        return None;
      }
      value := value * 10 + digit;
      i := i + 1;
    }
    assert data[..i] == data;
    return Some(value);
  }

  // ----- Printing ----------------------------------------------------------------------------

  function DigitChar(d: nat): (c: char)
    requires d < 10
    ensures IsDigit(c) && Digit(c) == d
  {
    '0' + d as char
  }

  function PrintDec(n: nat): (s: string)
    ensures s != "" && AllDigits(s) && DecValue(s) == n
  {
    if n < 10 then
      DecValuePush("", DigitChar(n));
      assert "" + [DigitChar(n)] == [DigitChar(n)];
      [DigitChar(n)]
    else
      DecValuePush(PrintDec(n / 10), DigitChar(n % 10));
      PrintDec(n / 10) + [DigitChar(n % 10)]
  }

  // ----- Rates -------------------------------------------------------------------------------

  /** Milliseconds in one window unit; zero for a character that is no unit. */
  function UnitMs(c: char): nat {
    match c
    case 's' => 1000
    case 'm' => 60000
    case 'h' => 3600000
    case _ => 0
  }

  /** The window count; an empty or zero count is read as one. */
  ghost function WindowCount(ws: string): nat
    requires AllDigits(ws)
  {
    if DecValue(ws) == 0 then 1 else DecValue(ws)
  }

  /** `data` is `ds`, then "r/", then `ws`, then the unit. */
  ghost predicate RateShape(data: string, ds: string, ws: string, u: char) {
    AllDigits(ds) && AllDigits(ws) && UnitMs(u) > 0 && data == ds + "r/" + ws + [u]
  }

  /** The rates the grammar allows: at least one request, and a window that fits 32 bits. */
  ghost predicate DenotesRate(data: string, ds: string, ws: string, u: char, rate: nat, windowMs: nat) {
    && RateShape(data, ds, ws, u)
    && 1 <= rate <= U32_MAX && rate == DecValue(ds)
    && windowMs == WindowCount(ws) * UnitMs(u) && windowMs <= U32_MAX
  }

  /** The length of the longest run of digits at the front. */
  ghost function Run(s: string): (n: nat)
    ensures n <= |s| && AllDigits(s[..n]) && (n < |s| ==> !IsDigit(s[n]))
  {
    if s == "" || !IsDigit(s[0]) then 0 else
      var n := Run(s[1..]);
      assert s[..n + 1] == [s[0]] + s[1..][..n];
      n + 1
  }

  lemma {:induction false} RunIsUnique(s: string, t: string)
    requires AllDigits(t) && |t| <= |s| && s[..|t|] == t && (|t| < |s| ==> !IsDigit(s[|t|]))
    ensures Run(s) == |t|
  {
    if t != "" {
      assert s[0] == t[0];
      RunIsUnique(s[1..], t[1..]);
    }
  }

  /** What follows the "r/" of a rate whose count is a digit run. */
  ghost function AfterCount(data: string): string
    requires Run(data) + 2 <= |data|
  {
    data[Run(data) + 2..]
  }

  /** The two digit strings of a well-shaped string are the two runs the parser reads. */
  lemma ShapeIsRuns(data: string, ds: string, ws: string, u: char)
    requires RateShape(data, ds, ws, u)
    ensures Run(data) == |ds| && ds == data[..|ds|] && |ds| + 2 <= |data|
    ensures data[|ds|] == 'r' && data[|ds| + 1] == '/'
    ensures Run(AfterCount(data)) == |ws| && ws == AfterCount(data)[..|ws|]
    ensures AfterCount(data) == ws + [u]
  {
    RunIsUnique(data, ds);
    assert AfterCount(data) == ws + [u];
    RunIsUnique(AfterCount(data), ws);
  }

  /** A string has at most one such shape. */
  lemma ShapeIsUnique(data: string, ds: string, ws: string, u: char, ds': string, ws': string, u': char)
    requires RateShape(data, ds, ws, u) && RateShape(data, ds', ws', u')
    ensures ds == ds' && ws == ws' && u == u'
  {
    ShapeIsRuns(data, ds, ws, u);
    ShapeIsRuns(data, ds', ws', u');
  }

  /** One digit loop: the value of the longest run of digits from `start`, or failure when it does
      not fit 32 bits. The two loops of the rate parser are this one. */
  method DigitRun(data: string, start: nat) returns (ok: bool, value: u32, pos: nat)
    requires start <= |data|
    ensures ok ==> pos == start + Run(data[start..])
    ensures ok <==> DecValue(data[start..][..Run(data[start..])]) <= U32_MAX
    ensures ok ==> value == DecValue(data[start..][..Run(data[start..])])
  {
    ghost var s := data[start..];
    value := 0;
    pos := start;
    while pos < |data| && '0' <= data[pos] <= '9'
      invariant start <= pos <= |data|
      invariant AllDigits(s[..pos - start]) && value == DecValue(s[..pos - start])
      invariant pos - start <= Run(s)
    {
      var digit := data[pos] as int - '0' as int;
      assert s[..pos + 1 - start] == s[..pos - start] + [data[pos]];
      DecValuePush(s[..pos - start], data[pos]);
      GuardIsExact(value, digit);
      assert Run(s) < |s| ==> !IsDigit(s[Run(s)]);
      if value > (U32_MAX - digit) / 10 {
        DecValuePrefix(s[..Run(s)], pos + 1 - start);
        assert s[..Run(s)][..pos + 1 - start] == s[..pos + 1 - start];
        return false, 0, pos;
      }
      value := value * 10 + digit;
      pos := pos + 1;
    }
    RunIsUnique(s, s[..pos - start]);
    ok := true;
  }

  /** The window part: what follows "r/". */
  ghost predicate DenotesWindow(rest: string, ws: string, u: char, windowMs: nat) {
    && AllDigits(ws) && UnitMs(u) > 0 && rest == ws + [u]
    && windowMs == WindowCount(ws) * UnitMs(u) && windowMs <= U32_MAX
  }

  method ParseWindow(data: string, start: nat) returns (windowMs: Option<u32>)
    requires start <= |data|
    ensures windowMs.Some? ==> exists ws, u :: DenotesWindow(data[start..], ws, u, windowMs.value)
    ensures forall ws, u, x: nat | DenotesWindow(data[start..], ws, u, x) :: windowMs.Some? && windowMs.value == x
  {
    ghost var rest := data[start..];
    forall ws, u, x: nat | DenotesWindow(rest, ws, u, x)
      ensures |ws| == Run(rest) && |rest| == |ws| + 1 && ws == rest[..|ws|] && u == rest[|ws|]
      ensures DecValue(ws) <= U32_MAX && WindowCount(ws) * UnitMs(u) <= U32_MAX && UnitMs(u) > 0
    {
      RunIsUnique(rest, ws);
    }
    var ok, window, pos := DigitRun(data, start);
    if !ok {
      return None;
    }
    if window == 0 {
      window := 1;
    }
    if pos + 1 != |data| {
      return None;
    }
    var factor := UnitMs(data[pos]);
    if factor == 0 {
      return None;
    }
    WindowGuardIsExact(window, factor);
    if window > U32_MAX / factor {
      return None;
    }
    assert rest == rest[..Run(rest)] + [data[pos]];
    assert DenotesWindow(rest, rest[..Run(rest)], data[pos], window * factor);
    return Some(window * factor);
  }

  /** On failure the previous contents of the outputs, `rate0` and `window0`, are kept. */
  method ParseRate(data: string, rate0: u32, window0: u32) returns (ok: bool, rate: u32, windowMs: u32)
    ensures ok ==> exists ds, ws, u :: DenotesRate(data, ds, ws, u, rate, windowMs)
    ensures forall ds, ws, u, x: nat, y: nat | DenotesRate(data, ds, ws, u, x, y) :: ok && rate == x && windowMs == y
    ensures !ok ==> rate == rate0 && windowMs == window0
  {
    rate, windowMs := rate0, window0;
    assert data[0..] == data;
    forall ds, ws, u, x: nat, y: nat | DenotesRate(data, ds, ws, u, x, y)
      ensures |ds| == Run(data) && ds == data[..|ds|] && |ds| + 2 <= |data|
      ensures data[|ds|] == 'r' && data[|ds| + 1] == '/' && x == DecValue(ds) && 1 <= x <= U32_MAX
      ensures DenotesWindow(AfterCount(data), ws, u, y)
    {
      ShapeIsRuns(data, ds, ws, u);
    }
    var ok1, r, pos := DigitRun(data, 0);
    if !ok1 {
      return false, rate, windowMs;
    }
    if r == 0 || pos >= |data| || data[pos] != 'r' || pos + 1 >= |data| || data[pos + 1] != '/' {
      return false, rate, windowMs;
    }
    var w := ParseWindow(data, pos + 2);
    if w.None? {
      return false, rate, windowMs;
    }
    ghost var ws, u :| DenotesWindow(data[pos + 2..], ws, u, w.value);
    assert data == data[..pos] + "r/" + data[pos + 2..];
    assert data == data[..pos] + "r/" + ws + [u];
    assert DenotesRate(data, data[..pos], ws, u, r, w.value);
    return true, r, w.value;
  }

  lemma WindowGuardIsExact(w: nat, factor: nat)
    requires factor > 0
    ensures w > U32_MAX / factor <==> w * factor > U32_MAX
  {
    var q := U32_MAX / factor;
    assert q * factor <= U32_MAX < (q + 1) * factor by {
      assert U32_MAX == q * factor + U32_MAX % factor;
    }
    if w <= q {
      assert w * factor <= q * factor;
    } else {
      assert w * factor >= (q + 1) * factor;
    }
  }

  function PrintRate(rate: nat, count: nat, u: char): string {
    PrintDec(rate) + "r/" + PrintDec(count) + [u]
  }

  /** Printing a rate and parsing it gives the rate back, and nothing else can be read from it. */
  lemma RateRoundTrip(rate: nat, count: nat, u: char, ds: string, ws: string, u': char, x: nat, y: nat)
    requires 1 <= rate <= U32_MAX && 1 <= count && UnitMs(u) > 0 && count * UnitMs(u) <= U32_MAX
    ensures DenotesRate(PrintRate(rate, count, u), PrintDec(rate), PrintDec(count), u, rate, count * UnitMs(u))
    ensures DenotesRate(PrintRate(rate, count, u), ds, ws, u', x, y) ==> x == rate && y == count * UnitMs(u)
  {
    var data := PrintRate(rate, count, u);
    assert RateShape(data, PrintDec(rate), PrintDec(count), u);
    if DenotesRate(data, ds, ws, u', x, y) {
      ShapeIsUnique(data, PrintDec(rate), PrintDec(count), u, ds, ws, u');
    }
  }

  /** A window of n seconds is 1000 * n milliseconds, one of n minutes sixty times that, one of n hours
      sixty times that again, and there is no other unit. */
  lemma UnitsRelate(rate: nat, count: nat, c: char)
    requires 1 <= rate <= U32_MAX && 1 <= count && 3600000 * count <= U32_MAX
    ensures DenotesRate(PrintRate(rate, count, 's'), PrintDec(rate), PrintDec(count), 's', rate, 1000 * count)
    ensures DenotesRate(PrintRate(rate, count, 'm'), PrintDec(rate), PrintDec(count), 'm', rate, 60 * (1000 * count))
    ensures DenotesRate(PrintRate(rate, count, 'h'), PrintDec(rate), PrintDec(count), 'h', rate, 60 * (60 * (1000 * count)))
    ensures c !in "smh" ==>
      forall data, ds, ws, x: nat, y: nat :: !DenotesRate(data, ds, ws, c, x, y)
  {
    RateRoundTrip(rate, count, 's', "", "", 's', 0, 0);
    RateRoundTrip(rate, count, 'm', "", "", 's', 0, 0);
    RateRoundTrip(rate, count, 'h', "", "", 's', 0, 0);
  }

  /** A missing count is one unit. */
  lemma MissingCountIsOne(rate: nat, u: char, windowMs: nat)
    requires 1 <= rate <= U32_MAX && u in "smh"
    ensures DenotesRate(PrintDec(rate) + "r/" + [u], PrintDec(rate), "", u, rate, windowMs) <==>
              windowMs == if u == 's' then 1000 else if u == 'm' then 60000 else 3600000
  {
    assert PrintDec(rate) + "r/" + [u] == PrintDec(rate) + "r/" + "" + [u];
  }
}
