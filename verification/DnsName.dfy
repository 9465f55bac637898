/**
 The domain-name codec of the local test resolver: encoding a dotted name as length-prefixed labels,
 and decoding one that may use the compression pointers of section 4.1.4 of RFC 1035.

 The decoder follows the code where it departs from section 3.1 of RFC 1035: a length byte of
 64 to 191 is an ordinary label length.
 */
module DnsName {
  import opened Wrappers

  type Byte = b: int | 0 <= b < 256

  datatype Problem = ExceedsMessage | Loop | TruncatedPointer | TruncatedLabel | NotAscii | LabelTooLong

  datatype Decoded = Decoded(text: string, next: nat) | Invalid(problem: Problem)

  datatype Encoded = Encoded(bytes: seq<Byte>) | Rejected(problem: Problem)

  const JUMP_MIN: nat := 0xC0

  // ---- Text ------------------------------------------------------------------------------------

  predicate IsAscii(s: string) {
    forall i | 0 <= i < |s| :: s[i] as int < 128
  }

  predicate AllAscii(bytes: seq<Byte>) {
    forall i | 0 <= i < |bytes| :: bytes[i] < 128
  }

  function ToBytes(s: string): (r: seq<Byte>)
    requires IsAscii(s)
    ensures |r| == |s| && AllAscii(r)
  {
    seq(|s|, i requires 0 <= i < |s| => s[i] as int as Byte)
  }

  function ToText(bytes: seq<Byte>): (r: string)
    requires AllAscii(bytes)
    ensures |r| == |bytes| && IsAscii(r) && ToBytes(r) == bytes
  {
    var r := seq(|bytes|, i requires 0 <= i < |bytes| => bytes[i] as char);
    assert ToBytes(r) == bytes;
    r
  }

  function LowerChar(c: char): char {
    if 'A' <= c <= 'Z' then (c as int + 32) as char else c
  }

  function Lower(s: string): (r: string)
    ensures |r| == |s|
  {
    seq(|s|, i requires 0 <= i < |s| => LowerChar(s[i]))
  }

  function Join(labels: seq<string>): string {
    if labels == [] then "" else if |labels| == 1 then labels[0] else labels[0] + "." + Join(labels[1..])
  }

  function RStrip(s: string): string {
    if s != "" && s[|s| - 1] == '.' then RStrip(s[..|s| - 1]) else s
  }

  function Split(s: string): (r: seq<string>)
    ensures |r| >= 1
  {
    if s == "" then [""]
    else
      var rest := Split(s[1..]);
      if s[0] == '.' then [""] + rest else [[s[0]] + rest[0]] + rest[1..]
  }

  function NonEmpty(labels: seq<string>): seq<string> {
    if labels == [] then []
    else (if labels[0] == "" then [] else [labels[0]]) + NonEmpty(labels[1..])
  }

  function Labels(name: string): seq<string> {
    NonEmpty(Split(RStrip(name)))
  }

  lemma {:induction false} SplitDot(x: string, y: string)
    ensures Split(x + "." + y) == Split(x) + Split(y)
  {
    var s := x + "." + y;
    if x == "" {
      assert s[1..] == y;
    } else {
      assert s[1..] == x[1..] + "." + y;
      SplitDot(x[1..], y);
    }
  }

  lemma {:induction false} NonEmptyConcat(a: seq<string>, b: seq<string>)
    ensures NonEmpty(a + b) == NonEmpty(a) + NonEmpty(b)
  {
    if a == [] {
      assert a + b == b;
    } else {
      assert (a + b)[1..] == a[1..] + b;
      NonEmptyConcat(a[1..], b);
    }
  }

  lemma {:induction false} StripChangesNothing(s: string)
    ensures NonEmpty(Split(RStrip(s))) == NonEmpty(Split(s))
  {
    if s != "" && s[|s| - 1] == '.' {
      var t := s[..|s| - 1];
      assert s == t + "." + "";
      SplitDot(t, "");
      NonEmptyConcat(Split(t), [""]);
      StripChangesNothing(t);
    }
  }

  /** The labels of a name are its dot-free runs: a dot anywhere, also at an end or next to another
      dot, only separates. */
  lemma LabelsDot(x: string, y: string)
    ensures Labels(x + "." + y) == Labels(x) + Labels(y)
  {
    StripChangesNothing(x + "." + y);
    StripChangesNothing(x);
    StripChangesNothing(y);
    SplitDot(x, y);
    NonEmptyConcat(Split(x), Split(y));
  }

  lemma {:induction false} SplitWhole(x: string)
    requires '.' !in x
    ensures Split(x) == [x]
  {
    if x != "" {
      SplitWhole(x[1..]);
      assert x == [x[0]] + x[1..];
    }
  }

  lemma LabelsWhole(x: string)
    requires '.' !in x
    ensures Labels(x) == if x == "" then [] else [x]
  {
    StripChangesNothing(x);
    SplitWhole(x);
  }

  /** Joining puts one dot between the labels of two lists, and nothing around them. */
  lemma {:induction false} JoinDot(a: seq<string>, b: seq<string>, x: string)
    requires a != [] && b != []
    ensures Join(a + b) == Join(a) + "." + Join(b) && Join([x]) == x
    decreases |a|
  {
    if |a| == 1 {
      assert (a + b)[1..] == b;
    } else {
      assert (a + b)[1..] == a[1..] + b;
      JoinDot(a[1..], b, x);
    }
  }

  /** Splitting undoes joining. */
  lemma {:induction false} LabelsOfJoin(labels: seq<string>)
    requires forall i | 0 <= i < |labels| :: labels[i] != "" && '.' !in labels[i]
    ensures Labels(Join(labels)) == labels
    decreases |labels|
  {
    if labels == [] {
      LabelsWhole("");
    } else if |labels| == 1 {
      LabelsWhole(labels[0]);
    } else {
      LabelsOfJoin(labels[1..]);
      LabelsWhole(labels[0]);
      LabelsDot(labels[0], Join(labels[1..]));
    }
  }

  const CAPITALS := "ABCDEFGHIJKLMNOPQRSTUVWXYZ"
  const SMALL := "abcdefghijklmnopqrstuvwxyz"

  /** Lower-casing changes each of the 26 capital letters into its small letter, and no other character. */
  lemma LowerMeans(s: string, i: nat)
    requires i < |s|
    ensures |Lower(s)| == |s|
    ensures forall k | 0 <= k < |CAPITALS| && s[i] == CAPITALS[k] :: Lower(s)[i] == SMALL[k]
    ensures s[i] !in CAPITALS ==> Lower(s)[i] == s[i]
  {
    if 'A' <= s[i] <= 'Z' {
      assert CAPITALS[s[i] as int - 65] == s[i];
    }
  }

  /** Those two laws leave no choice: whatever keeps a dot-free name whole and splits at every dot is
      `Labels`. */
  lemma {:induction false} LabelsAreDetermined(split: string -> seq<string>, name: string)
    requires forall x: string :: '.' !in x ==> split(x) == if x == "" then [] else [x]
    requires forall x: string, y: string :: split(x + "." + y) == split(x) + split(y)
    ensures split(name) == Labels(name)
    decreases |name|
  {
    if '.' !in name {
      LabelsWhole(name);
    } else {
      var i :| 0 <= i < |name| && name[i] == '.';
      var x, y := name[..i], name[i + 1..];
      assert name == x + "." + y;
      LabelsDot(x, y);
      LabelsAreDetermined(split, x);
      LabelsAreDetermined(split, y);
    }
  }

  lemma {:induction false} LabelsAreClean(name: string)
    ensures forall l | l in Labels(name) :: l != "" && '.' !in l
  {
    StripChangesNothing(name);
    SplitIsClean(name);
    NonEmptyIsSubset(Split(name));
  }

  lemma {:induction false} SplitIsClean(s: string)
    ensures forall l | l in Split(s) :: '.' !in l
  {
    if s != "" {
      SplitIsClean(s[1..]);
      assert Split(s[1..])[0] in Split(s[1..]);
    }
  }

  lemma {:induction false} NonEmptyIsSubset(ls: seq<string>)
    ensures forall l | l in NonEmpty(ls) :: l in ls && l != ""
  {
    if ls != [] {
      NonEmptyIsSubset(ls[1..]);
    }
  }

  // ---- Encoding --------------------------------------------------------------------------------

  predicate Fits(text: string) {
    IsAscii(text) && |text| <= 255
  }

  predicate AllFit(labels: seq<string>) {
    forall i {:trigger Fits(labels[i])} | 0 <= i < |labels| :: Fits(labels[i])
  }

  function LabelBytes(text: string): seq<Byte>
    requires Fits(text)
  {
    [|text|] + ToBytes(text)
  }

  /** The labels on the wire, without the terminating zero byte. */
  function Wire(labels: seq<string>): seq<Byte>
    requires AllFit(labels)
  {
    if labels == [] then []
    else assert Fits(labels[0]); LabelBytes(labels[0]) + Wire(Tail(labels))
  }

  function Tail(labels: seq<string>): (r: seq<string>)
    requires labels != []
    ensures AllFit(labels) ==> AllFit(r)
  {
    assert forall i {:trigger Fits(labels[1..][i])} | 0 <= i < |labels| - 1 :: labels[1..][i] == labels[i + 1];
    labels[1..]
  }

  lemma {:induction false} WirePush(labels: seq<string>, text: string)
    requires AllFit(labels) && Fits(text)
    ensures AllFit(labels + [text]) && Wire(labels + [text]) == Wire(labels) + LabelBytes(text)
  {
    var all := labels + [text];
    assert forall i {:trigger Fits(all[i])} | 0 <= i < |all| :: all[i] == if i < |labels| then labels[i] else text;
    if labels == [] {
      assert Tail(all) == [];
    } else {
      assert Tail(all) == Tail(labels) + [text];
      WirePush(Tail(labels), text);
    }
  }

  lemma TakePush(labels: seq<string>, i: nat)
    requires i < |labels|
    ensures labels[..i + 1] == labels[..i] + [labels[i]]
  {
  }

  /** Encoding succeeds exactly when every label fits; otherwise the first label that does not
      names the problem. */
  ghost predicate Encodes(name: string, r: Encoded) {
    var ls := Labels(name);
    match r
    case Encoded(bytes) => AllFit(ls) && bytes == Wire(ls) + [0]
    case Rejected(p) =>
      exists i :: && 0 <= i < |ls| && !Fits(ls[i]) && AllFit(ls[..i])
                  && p == if IsAscii(ls[i]) then LabelTooLong else NotAscii
  }

  method EncodeName(name: string) returns (r: Encoded)
    ensures Encodes(name, r)
  {
    var labels := Labels(name);
    var encoded: seq<Byte> := [];
    for i := 0 to |labels|
      invariant AllFit(labels[..i]) && encoded == Wire(labels[..i])
    {
      TakePush(labels, i);
      if !IsAscii(labels[i]) {
        return Rejected(NotAscii);
      }
      if |labels[i]| > 255 {
        return Rejected(LabelTooLong);
      }
      WirePush(labels[..i], labels[i]);
      encoded := encoded + [|labels[i]|];
      encoded := encoded + ToBytes(labels[i]);
    }
    assert labels[..|labels|] == labels;
    return Encoded(encoded + [0]);
  }

  // ---- Decoding --------------------------------------------------------------------------------

  /** What the bytes at one offset say. */
  datatype Item = Stop(end: Ending) | Label(text: string, after: nat) | Jump(target: nat)

  datatype Ending = Root | Bad(problem: Problem)

  function ItemAt(message: seq<Byte>, offset: nat): (r: Item)
    ensures r.Label? ==> offset < r.after <= |message| && |r.text| < JUMP_MIN && IsAscii(r.text)
    ensures !r.Stop? ==> offset < |message|
  {
    if offset >= |message| then Stop(Bad(ExceedsMessage))
    else
      var length := message[offset];
      if length == 0 then Stop(Root)
      else if length >= JUMP_MIN then
        if offset + 1 >= |message| then Stop(Bad(TruncatedPointer))
        else Jump((length - JUMP_MIN) * 256 + message[offset + 1])
      else
        var end := offset + 1 + length;
        if end > |message| then Stop(Bad(TruncatedLabel))
        else if !AllAscii(message[offset + 1..end]) then Stop(Bad(NotAscii))
        else Label(ToText(message[offset + 1..end]), end)
  }

  /** The whole message, item by item. */
  ghost function Items(message: seq<Byte>): (r: Table)
    ensures |r| == |message|
    ensures forall o: nat {:trigger ItemAt(message, o)} | o < |message| :: r[o] == ItemAt(message, o)
  {
    var r := FirstItems(message, |message|);
    assert forall o: nat | o < |message| :: r[o] == ItemAt(message, o);
    r
  }

  ghost function FirstItems(message: seq<Byte>, n: nat): (r: seq<Item>)
    requires n <= |message|
    ensures |r| == n && forall o: nat {:trigger ItemAt(message, o)} | o < n :: r[o] == ItemAt(message, o)
  {
    if n == 0 then [] else FirstItems(message, n - 1) + [ItemAt(message, n - 1)]
  }

  ghost predicate Forward(items: seq<Item>) {
    forall o | 0 <= o < |items| && items[o].Label? :: o < items[o].after <= |items|
  }

  type Table = items: seq<Item> | Forward(items) witness []

  function Get(items: seq<Item>, offset: nat): Item {
    if offset < |items| then items[offset] else Stop(Bad(ExceedsMessage))
  }

  lemma GetIsItemAt(message: seq<Byte>, offset: nat)
    ensures Get(Items(message), offset) == ItemAt(message, offset)
  {
  }

  function Following(item: Item): nat
    requires !item.Stop?
  {
    if item.Label? then item.after else item.target
  }

  /** Following the items from `offset` stops after exactly `n` of them, at `end`. */
  ghost predicate StopsIn(items: Table, offset: nat, n: nat, end: Ending)
    decreases n
  {
    var item := Get(items, offset);
    if n == 0 then item == Stop(end)
    else !item.Stop? && StopsIn(items, Following(item), n - 1, end)
  }

  /** The labels among the first `n` items. */
  ghost function LabelsOn(items: Table, offset: nat, n: nat, end: Ending): seq<string>
    requires StopsIn(items, offset, n, end)
    decreases n
  {
    if n == 0 then []
    else
      var item := Get(items, offset);
      (if item.Label? then [item.text] else []) + LabelsOn(items, Following(item), n - 1, end)
  }

  /** Where the bytes of the name itself end: after its zero byte or after its first pointer. */
  function NextAfter(items: Table, offset: nat): (r: nat)
    ensures r > offset
    decreases |items| - offset
  {
    var item := Get(items, offset);
    if item.Label? then NextAfter(items, item.after)
    else if item.Jump? then offset + 2
    else offset + 1
  }

  /** The meaning of a name at an offset: a name is exactly what reaches a zero byte, a loop is
      exactly what never stops. */
  ghost predicate Denotes(message: seq<Byte>, offset: nat, r: Decoded) {
    Means(Items(message), offset, r)
  }

  ghost predicate Means(items: Table, offset: nat, r: Decoded)
  {
    match r
    case Decoded(text, next) =>
      && next == NextAfter(items, offset)
      && exists n: nat :: StopsIn(items, offset, n, Root) && text == Lower(Join(LabelsOn(items, offset, n, Root)))
    case Invalid(Loop) => forall n: nat, e :: !StopsIn(items, offset, n, e)
    case Invalid(p) => exists n: nat :: StopsIn(items, offset, n, Bad(p))
  }

  lemma {:induction false} StopsOnce(items: Table, offset: nat, n: nat, d: Ending, m: nat, e: Ending)
    requires StopsIn(items, offset, n, d) && StopsIn(items, offset, m, e)
    ensures n == m && d == e
    decreases n
  {
    if n > 0 && m > 0 {
      StopsOnce(items, Following(Get(items, offset)), n - 1, d, m - 1, e);
    }
  }

  /** Every offset of every message means at most one thing. */
  lemma DenotesUnique(message: seq<Byte>, offset: nat, a: Decoded, b: Decoded)
    requires Denotes(message, offset, a) && Denotes(message, offset, b)
    ensures a == b
  {
    var items := Items(message);
    if a != Invalid(Loop) && b != Invalid(Loop) {
      var d := if a.Decoded? then Root else Bad(a.problem);
      var e := if b.Decoded? then Root else Bad(b.problem);
      var n: nat :| StopsIn(items, offset, n, d) && (a.Decoded? ==> a.text == Lower(Join(LabelsOn(items, offset, n, d))));
      var m: nat :| StopsIn(items, offset, m, e) && (b.Decoded? ==> b.text == Lower(Join(LabelsOn(items, offset, m, e))));
      StopsOnce(items, offset, n, d, m, e);
    }
  }

  /** The offset reached after `k` items, if nothing stopped before. */
  ghost function Reached(items: Table, start: nat, k: nat): Option<nat> {
    if k == 0 then Some(start)
    else
      match Reached(items, start, k - 1)
      case None => None
      case Some(p) => if Get(items, p).Stop? then None else Some(Following(Get(items, p)))
  }

  /** The labels passed on the way there. */
  ghost function Taken(items: Table, start: nat, k: nat): seq<string>
    requires Reached(items, start, k).Some?
  {
    if k == 0 then []
    else
      var item := Get(items, Reached(items, start, k - 1).value);
      Taken(items, start, k - 1) + if item.Label? then [item.text] else []
  }

  /** What can be said from a reached offset can be said from the start. */
  lemma {:induction false} FromStart(items: Table, start: nat, k: nat, n: nat, e: Ending)
    requires Reached(items, start, k).Some? && StopsIn(items, Reached(items, start, k).value, n, e)
    ensures StopsIn(items, start, k + n, e)
    ensures LabelsOn(items, start, k + n, e)
         == Taken(items, start, k) + LabelsOn(items, Reached(items, start, k).value, n, e)
    decreases k
  {
    if k > 0 {
      FromStart(items, start, k - 1, n + 1, e);
    }
  }

  lemma {:induction false} StopsFromReached(items: Table, start: nat, k: nat, n: nat, e: Ending)
    requires Reached(items, start, k).Some? && StopsIn(items, start, n, e)
    ensures n >= k && StopsIn(items, Reached(items, start, k).value, n - k, e)
    decreases k
  {
    if k > 0 {
      StopsFromReached(items, start, k - 1, n, e);
    }
  }

  /** An offset reached twice is never left. */
  lemma RepeatNeverStops(items: Table, start: nat, i: nat, j: nat)
    requires i < j && Reached(items, start, i).Some? && Reached(items, start, i) == Reached(items, start, j)
    ensures forall n: nat, e :: !StopsIn(items, start, n, e)
  {
    forall n: nat, e | StopsIn(items, start, n, e) ensures false {
      StopsFromReached(items, start, i, n, e);
      StopsFromReached(items, start, j, n, e);
      StopsOnce(items, Reached(items, start, i).value, n - i, e, n - j, e);
    }
  }

  lemma StopMeans(items: Table, offset: nat, n: nat, labels: seq<string>, next: nat)
    requires StopsIn(items, offset, n, Root)
    requires LabelsOn(items, offset, n, Root) == labels && NextAfter(items, offset) == next
    ensures Means(items, offset, Decoded(Lower(Join(labels)), next))
  {
  }

  lemma {:induction false} NoItemIsALoop(message: seq<Byte>, offset: nat, n: nat, e: Ending)
    requires StopsIn(Items(message), offset, n, e)
    ensures e != Bad(Loop)
    decreases n
  {
    GetIsItemAt(message, offset);
    if n > 0 {
      NoItemIsALoop(message, Following(ItemAt(message, offset)), n - 1, e);
    }
  }

  /** Every offset of every message means something. */
  lemma DenotesSomething(message: seq<Byte>, offset: nat) returns (r: Decoded)
    ensures Denotes(message, offset, r)
  {
    var items := Items(message);
    if n: nat, e :| StopsIn(items, offset, n, e) {
      if e == Root {
        r := Decoded(Lower(Join(LabelsOn(items, offset, n, Root))), NextAfter(items, offset));
        StopMeans(items, offset, n, LabelsOn(items, offset, n, Root), NextAfter(items, offset));
      } else {
        NoItemIsALoop(message, offset, n, e);
        r := Invalid(e.problem);
      }
    } else {
      r := Invalid(Loop);
    }
  }

  /** The item reached ends the walk, or takes it one item further. */
  lemma ItemTaken(items: Table, start: nat, k: nat)
    requires Reached(items, start, k).Some?
    ensures
      match Get(items, Reached(items, start, k).value)
      case Stop(Root) => Means(items, start, Decoded(Lower(Join(Taken(items, start, k))), NextAfter(items, start)))
      case Stop(Bad(p)) => p != Loop ==> Means(items, start, Invalid(p))
      case Label(text, after) =>
        Reached(items, start, k + 1) == Some(after) && Taken(items, start, k + 1) == Taken(items, start, k) + [text]
      case Jump(target) =>
        Reached(items, start, k + 1) == Some(target) && Taken(items, start, k + 1) == Taken(items, start, k)
  {
    var item := Get(items, Reached(items, start, k).value);
    if item.Stop? {
      FromStart(items, start, k, 0, item.end);
      assert LabelsOn(items, start, k, item.end) == Taken(items, start, k);
      if item.end == Root {
        StopMeans(items, start, k, Taken(items, start, k), NextAfter(items, start));
      }
    }
  }

  method DecodeName(message: seq<Byte>, start: nat) returns (r: Decoded)
    ensures Denotes(message, start, r)
    ensures r.Decoded? ==> start < r.next <= |message|
  {
    var labels: seq<string> := [];
    var jumped := false;
    var next, offset := start, start;
    var seen: set<nat> := {};
    ghost var items := Items(message);
    ghost var k: nat := 0;
    ghost var reachedAt: map<nat, nat> := map[];
    while true
      invariant Reached(items, start, k) == Some(offset) && Taken(items, start, k) == labels
      invariant seen <= Below(|message|) && reachedAt.Keys == seen
      invariant forall o | o in seen :: reachedAt[o] < k && Reached(items, start, reachedAt[o]) == Some(o)
      invariant if jumped then next == NextAfter(items, start) && start < next <= |message|
                else start <= offset && NextAfter(items, start) == NextAfter(items, offset)
      decreases Below(|message|) - seen
    {
      GetIsItemAt(message, offset);
      ItemTaken(items, start, k);
      if offset >= |message| {
        return Invalid(ExceedsMessage);
      }
      if offset in seen {
        RepeatNeverStops(items, start, reachedAt[offset], k);
        return Invalid(Loop);
      }
      seen := seen + {offset};
      reachedAt := reachedAt[offset := k];
      k := k + 1;

      match ItemAt(message, offset) {
        case Stop(Root) =>
          if !jumped {
            next := offset + 1;
          }
          return Decoded(Lower(Join(labels)), next);
        case Stop(Bad(p)) =>
          return Invalid(p);
        case Jump(target) =>
          if !jumped {
            next := offset + 2;
          }
          offset := target;
          jumped := true;
        case Label(text, after) =>
          labels := labels + [text];
          offset := after;
      }
    }
  }

  ghost function Below(n: nat): (r: set<nat>)
    ensures forall o: nat :: o in r <==> o < n
  {
    if n == 0 then {} else Below(n - 1) + {n - 1}
  }

  // ---- Both directions -------------------------------------------------------------------------

  /** The bytes `part` stand in the message at `offset`. */
  ghost predicate At(message: seq<Byte>, offset: nat, part: seq<Byte>) {
    offset + |part| <= |message| && message[offset..offset + |part|] == part
  }

  /** A label that the decoder reads back as one. */
  predicate Plain(text: string) {
    text != "" && IsAscii(text) && |text| < JUMP_MIN
  }

  predicate AllPlain(labels: seq<string>) {
    forall i {:trigger Plain(labels[i])} | 0 <= i < |labels| :: Plain(labels[i])
  }

  lemma AtSplit(message: seq<Byte>, offset: nat, a: seq<Byte>, b: seq<Byte>)
    requires At(message, offset, a + b)
    ensures At(message, offset, a) && At(message, offset + |a|, b)
  {
    var got := message[offset..offset + |a + b|];
    assert message[offset..offset + |a|] == got[..|a|] == a;
    assert message[offset + |a|..offset + |a| + |b|] == got[|a|..] == b;
  }

  lemma LabelReadBack(message: seq<Byte>, offset: nat, text: string)
    requires Plain(text) && At(message, offset, LabelBytes(text))
    ensures Get(Items(message), offset) == Label(text, offset + 1 + |text|)
  {
    var part := LabelBytes(text);
    var got := message[offset..offset + |part|];
    assert message[offset] == got[0];
    assert message[offset + 1..offset + 1 + |text|] == got[1..] == ToBytes(text);
    assert ToText(ToBytes(text)) == text;
    GetIsItemAt(message, offset);
  }

  /** The items from `offset` to `past` are these labels. */
  ghost predicate Spells(items: Table, offset: nat, labels: seq<string>, past: nat)
    decreases |labels|
  {
    if labels == [] then offset == past
    else Get(items, offset).Label? && Get(items, offset).text == labels[0]
         && Spells(items, Get(items, offset).after, labels[1..], past)
  }

  lemma {:induction false} WireSpells(message: seq<Byte>, offset: nat, labels: seq<string>, past: nat)
    requires AllPlain(labels) && AllFit(labels) && At(message, offset, Wire(labels)) && past == offset + |Wire(labels)|
    ensures Spells(Items(message), offset, labels, past)
    decreases |labels|
  {
    if labels != [] {
      assert Plain(labels[0]);
      AtSplit(message, offset, LabelBytes(labels[0]), Wire(Tail(labels)));
      LabelReadBack(message, offset, labels[0]);
      TailPlain(labels);
      WireSpells(message, offset + |LabelBytes(labels[0])|, Tail(labels), past);
    }
  }

  lemma TailPlain(labels: seq<string>)
    requires AllPlain(labels) && labels != []
    ensures AllPlain(Tail(labels))
  {
    forall i | 0 <= i < |labels| - 1 ensures Plain(Tail(labels)[i]) {
      assert Plain(labels[i + 1]);
    }
  }

  /** Labels in front of any name prepend themselves to it. */
  lemma {:induction false} LabelsPrepend(items: Table, offset: nat, labels: seq<string>, past: nat,
                                         n: nat, e: Ending)
    requires Spells(items, offset, labels, past) && StopsIn(items, past, n, e)
    ensures StopsIn(items, offset, |labels| + n, e)
    ensures LabelsOn(items, offset, |labels| + n, e) == labels + LabelsOn(items, past, n, e)
    ensures NextAfter(items, offset) == NextAfter(items, past)
    decreases |labels|
  {
    if labels != [] {
      LabelsPrepend(items, Get(items, offset).after, labels[1..], past, n, e);
    }
  }

  lemma LabelsPrependMeaning(items: Table, offset: nat, labels: seq<string>, past: nat, n: nat,
                             all: seq<string>, next: nat)
    requires Spells(items, offset, labels, past) && StopsIn(items, past, n, Root)
    requires all == labels + LabelsOn(items, past, n, Root) && next == NextAfter(items, past)
    ensures Means(items, offset, Decoded(Lower(Join(all)), next))
  {
    LabelsPrepend(items, offset, labels, past, n, Root);
    StopMeans(items, offset, |labels| + n, all, next);
  }

  lemma RootOnly(items: Table, offset: nat)
    requires Get(items, offset) == Stop(Root)
    ensures StopsIn(items, offset, 0, Root) && LabelsOn(items, offset, 0, Root) == []
    ensures NextAfter(items, offset) == offset + 1
  {
  }

  lemma SpelledRoot(items: Table, offset: nat, labels: seq<string>, past: nat)
    requires Spells(items, offset, labels, past) && Get(items, past) == Stop(Root)
    ensures Means(items, offset, Decoded(Lower(Join(labels)), past + 1))
  {
    RootOnly(items, past);
    LabelsPrependMeaning(items, offset, labels, past, 0, labels, past + 1);
  }

  lemma SpelledJump(items: Table, offset: nat, labels: seq<string>, past: nat, target: nat, n: nat)
    requires Spells(items, offset, labels, past)
    requires Get(items, past) == Jump(target) && StopsIn(items, target, n, Root)
    ensures Means(items, offset, Decoded(Lower(Join(labels + LabelsOn(items, target, n, Root))), past + 2))
  {
    JumpOnly(items, past, target, n);
    LabelsPrependMeaning(items, offset, labels, past, n + 1, labels + LabelsOn(items, target, n, Root), past + 2);
  }

  lemma JumpOnly(items: Table, offset: nat, target: nat, n: nat)
    requires Get(items, offset) == Jump(target) && StopsIn(items, target, n, Root)
    ensures StopsIn(items, offset, n + 1, Root) && NextAfter(items, offset) == offset + 2
    ensures LabelsOn(items, offset, n + 1, Root) == LabelsOn(items, target, n, Root)
  {
  }

  lemma RootAt(message: seq<Byte>, offset: nat, a: seq<Byte>)
    requires At(message, offset, a + [0])
    ensures At(message, offset, a) && Get(Items(message), offset + |a|) == Stop(Root)
  {
    AtSplit(message, offset, a, [0]);
    var past := offset + |a|;
    assert message[past] == message[past..past + 1][0];
    GetIsItemAt(message, past);
  }

  lemma PointerAt(message: seq<Byte>, offset: nat, a: seq<Byte>, target: nat)
    requires target < 0x4000 && At(message, offset, a + Pointer(target))
    ensures At(message, offset, a) && Get(Items(message), offset + |a|) == Jump(target)
  {
    AtSplit(message, offset, a, Pointer(target));
    var past := offset + |a|;
    assert message[past] == message[past..past + 2][0] && message[past + 1] == message[past..past + 2][1];
    GetIsItemAt(message, past);
  }

  function Pointer(target: nat): seq<Byte>
    requires target < 0x4000
  {
    [JUMP_MIN + target / 256, target % 256]
  }

  lemma WireDecodes(message: seq<Byte>, offset: nat, labels: seq<string>, wire: seq<Byte>)
    requires AllPlain(labels) && AllFit(labels) && wire == Wire(labels) && At(message, offset, wire + [0])
    ensures Denotes(message, offset, Decoded(Lower(Join(labels)), offset + |wire| + 1))
  {
    var past := offset + |wire|;
    RootAt(message, offset, wire);
    WireSpells(message, offset, labels, past);
    SpelledRoot(Items(message), offset, labels, past);
  }

  lemma PlainLabels(name: string)
    requires forall i | 0 <= i < |Labels(name)| :: |Labels(name)[i]| < JUMP_MIN
    requires AllFit(Labels(name))
    ensures AllPlain(Labels(name))
  {
    LabelsAreClean(name);
    var ls := Labels(name);
    forall i | 0 <= i < |ls| ensures Plain(ls[i]) {
      assert ls[i] in ls && Fits(ls[i]);
    }
  }

  /** A label of 64 to 191 bytes, which section 3.1 of RFC 1035 does not allow, is read as one. */
  lemma OverlongLabelIsDecoded(text: string)
    requires IsAscii(text) && 64 <= |text| < JUMP_MIN
    ensures Denotes(LabelBytes(text) + [0], 0, Decoded(Lower(text), |text| + 2))
  {
    WirePush([], text);
    assert [] + [text] == [text];
    var wire := Wire([text]);
    assert wire == LabelBytes(text);
    assert At(wire + [0], 0, wire + [0]);
    WireDecodes(wire + [0], 0, [text], wire);
  }

  /** Decoding undoes encoding inside any surrounding bytes, up to lower-casing and to the empty
      labels, when no label is long enough to look like a pointer. */
  lemma RoundTrip(before: seq<Byte>, after: seq<Byte>, name: string, bytes: seq<Byte>)
    requires Encodes(name, Encoded(bytes)) && forall i | 0 <= i < |Labels(name)| :: |Labels(name)[i]| < JUMP_MIN
    ensures Denotes(before + bytes + after, |before|, Decoded(Lower(Join(Labels(name))), |before| + |bytes|))
  {
    PlainLabels(name);
    assert At(before + bytes + after, |before|, bytes);
    WireDecodes(before + bytes + after, |before|, Labels(name), Wire(Labels(name)));
  }

  /** Labels followed by a pointer to a name that stands anywhere in the message. */
  lemma PointerAppends(message: seq<Byte>, offset: nat, labels: seq<string>, wire: seq<Byte>, target: nat, n: nat)
    requires AllPlain(labels) && AllFit(labels) && wire == Wire(labels)
    requires target < 0x4000 && StopsIn(Items(message), target, n, Root)
    requires At(message, offset, wire + Pointer(target))
    ensures
      var text := Lower(Join(labels + LabelsOn(Items(message), target, n, Root)));
      Denotes(message, offset, Decoded(text, offset + |wire| + 2))
  {
    var mid := offset + |wire|;
    PointerAt(message, offset, wire, target);
    WireSpells(message, offset, labels, mid);
    SpelledJump(Items(message), offset, labels, mid, target, n);
  }

  /** A pointer alone is the name it points to; what follows it is two bytes on. */
  lemma PointerAlone(message: seq<Byte>, offset: nat, target: nat, text: string, next: nat)
    requires target < 0x4000 && At(message, offset, Pointer(target))
    requires Denotes(message, target, Decoded(text, next))
    ensures Denotes(message, offset, Decoded(text, offset + 2))
  {
    var items := Items(message);
    var n: nat :| StopsIn(items, target, n, Root) && text == Lower(Join(LabelsOn(items, target, n, Root)));
    assert [] + Pointer(target) == Pointer(target);
    PointerAt(message, offset, [], target);
    JumpOnly(items, offset, target, n);
    StopMeans(items, offset, n + 1, LabelsOn(items, target, n, Root), offset + 2);
  }

  // ---- Labels too long to survive ----------------------------------------------------------------

  /** No `JUMP_MIN` characters in a row without a dot. */
  ghost predicate ShortRuns(text: string) {
    forall i: nat | i + JUMP_MIN <= |text| :: DotFrom(text, i)
  }

  ghost predicate DotFrom(text: string, i: nat)
    requires i + JUMP_MIN <= |text|
  {
    exists j :: i <= j < i + JUMP_MIN && text[j] == '.'
  }

  lemma {:induction false} LabelsOnAreShort(message: seq<Byte>, offset: nat, n: nat, e: Ending)
    requires StopsIn(Items(message), offset, n, e)
    ensures forall l | l in LabelsOn(Items(message), offset, n, e) :: |l| < JUMP_MIN
    decreases n
  {
    if n > 0 {
      GetIsItemAt(message, offset);
      LabelsOnAreShort(message, Following(ItemAt(message, offset)), n - 1, e);
    }
  }

  lemma {:induction false} JoinRuns(ls: seq<string>)
    requires forall l | l in ls :: |l| < JUMP_MIN
    ensures ShortRuns(Join(ls))
  {
    if |ls| > 1 {
      var tail := Join(ls[1..]);
      JoinRuns(ls[1..]);
      forall i: nat | i + JUMP_MIN <= |Join(ls)|
        ensures DotFrom(Join(ls), i)
      {
        if i <= |ls[0]| {
          assert Join(ls)[|ls[0]|] == '.';
        } else {
          var k: nat := i - |ls[0]| - 1;
          assert DotFrom(tail, k);
          var j :| k <= j < k + JUMP_MIN && tail[j] == '.';
          assert Join(ls)[j + |ls[0]| + 1] == '.';
        }
      }
    }
  }

  lemma {:induction false} LongLabelShows(ls: seq<string>, i: nat)
    requires i < |ls| && '.' !in ls[i] && |ls[i]| >= JUMP_MIN
    ensures !ShortRuns(Join(ls))
  {
    if i == 0 {
      forall j | 0 <= j < JUMP_MIN ensures Join(ls)[j] != '.' {
        assert Join(ls)[j] == ls[0][j];
      }
      assert !DotFrom(Join(ls), 0);
    } else {
      var tail := Join(ls[1..]);
      LongLabelShows(ls[1..], i - 1);
      var k: nat :| k + JUMP_MIN <= |tail| && !DotFrom(tail, k);
      var d := |ls[0]| + 1;
      forall j | k + d <= j < k + d + JUMP_MIN ensures Join(ls)[j] != '.' {
        assert Join(ls)[j] == tail[j - d];
      }
      assert !DotFrom(Join(ls), k + d);
    }
  }

  lemma LowerRuns(text: string)
    ensures ShortRuns(Lower(text)) <==> ShortRuns(text)
  {
    assert forall j | 0 <= j < |text| :: Lower(text)[j] == '.' <==> text[j] == '.';
    assert forall i: nat | i + JUMP_MIN <= |text| :: DotFrom(Lower(text), i) <==> DotFrom(text, i);
  }

  /** The bound on labels in the round trip is exact: a name with a longer label is encoded without
      complaint, and nothing the decoder can return is that name. */
  lemma LongLabelNeverDecoded(name: string, message: seq<Byte>, offset: nat, r: Decoded)
    requires Denotes(message, offset, r) && exists i :: 0 <= i < |Labels(name)| && |Labels(name)[i]| >= JUMP_MIN
    ensures !(r.Decoded? && r.text == Lower(Join(Labels(name))))
  {
    var items := Items(message);
    if r.Decoded? {
      var n: nat :| StopsIn(items, offset, n, Root) && r.text == Lower(Join(LabelsOn(items, offset, n, Root)));
      LabelsOnAreShort(message, offset, n, Root);
      JoinRuns(LabelsOn(items, offset, n, Root));
      LowerRuns(Join(LabelsOn(items, offset, n, Root)));
      var ls := Labels(name);
      var i :| 0 <= i < |ls| && |ls[i]| >= JUMP_MIN;
      LabelsAreClean(name);
      assert ls[i] in ls;
      LongLabelShows(ls, i);
      LowerRuns(Join(ls));
    }
  }
}
