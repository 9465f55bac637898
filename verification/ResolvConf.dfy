/**
 One line of /etc/resolv.conf becomes an nginx resolver argument.

 `Parse` says what a line means; `Nameserver` is the program, which scans with an index and
 writes a bounded buffer in place.
 */
module ResolvConf {
  datatype Kind = NotNameserver | Inet | Inet6 | Unusable

  const DIRECTIVE: string := "nameserver"

  predicate IsBlank(c: char) {
    c == ' ' || c == '\t'
  }

  predicate EndsField(c: char) {
    IsBlank(c) || c == '\0' || c == '\r' || c == '\n' || c == '#' || c == ';'
  }

  // ----- What a line means -----------------------------------------------------------------------

  function SkipBlanks(s: string): (t: string)
    ensures |t| <= |s| && (t == "" || !IsBlank(t[0]))
  {
    if s != "" && IsBlank(s[0]) then SkipBlanks(s[1..]) else s
  }

  /** The first field: everything before the first character that ends a field. */
  function Field(s: string): (f: string)
    ensures |f| <= |s| && f == s[..|f|] && (|f| < |s| ==> EndsField(s[|f|]))
    ensures forall i | 0 <= i < |f| :: !EndsField(f[i])
  {
    if s == "" || EndsField(s[0]) then "" else [s[0]] + Field(s[1..])
  }

  /** The address of a nameserver line, or none if the line is another directive. */
  function Address(line: string): (r: (bool, string))
  {
    var s := SkipBlanks(line);
    if |s| < |DIRECTIVE| || s[..|DIRECTIVE|] != DIRECTIVE then (false, "")
    else
      var rest := s[|DIRECTIVE|..];
      if rest != "" && !EndsField(rest[0]) then (false, "") else (true, Field(SkipBlanks(rest)))
  }

  predicate Bracketed(a: string) {
    a != "" && a[0] == '['
  }

  /** The text nginx needs for a usable address: an IPv6 literal in brackets, anything else as is. */
  function Normal(a: string): (Kind, string) {
    if a == "" || '%' in a then (Unusable, a)
    else if Bracketed(a) then
      if |a| < 3 || a[|a| - 1] != ']' then (Unusable, a) else (Inet6, a)
    else if ':' in a then (Inet6, "[" + a + "]")
    else (Inet, a)
  }

  /** The longest prefix that leaves room for the terminating NUL. */
  function Fit(a: string, capacity: nat): string
    requires capacity >= 1
  {
    if |a| + 1 <= capacity then a else a[..capacity - 1]
  }

  function Parse(line: string, capacity: nat): (Kind, string)
    requires capacity >= 1
  {
    var (found, a) := Address(line);
    if !found then (NotNameserver, "")
    else
      var (kind, text) := Normal(a);
      if kind.Unusable? || |text| + 1 > capacity then (Unusable, Fit(a, capacity)) else (kind, text)
  }

  // ----- Idempotence -------------------------------------------------------------------------------

  lemma {:induction false} FieldOfClean(s: string)
    requires forall i | 0 <= i < |s| :: !EndsField(s[i])
    ensures Field(s) == s
    decreases |s|
  {
    if s != "" {
      FieldOfClean(s[1..]);
    }
  }

  lemma AddressOfClean(text: string)
    requires text != "" && forall i | 0 <= i < |text| :: !EndsField(text[i])
    ensures Address(DIRECTIVE + " " + text) == (true, text)
  {
    var line := DIRECTIVE + " " + text;
    assert line[0] == 'n';
    assert SkipBlanks(line) == line;
    assert line[..|DIRECTIVE|] == DIRECTIVE;
    assert line[|DIRECTIVE|..] == " " + text;
    assert (" " + text)[1..] == text;
    assert !EndsField(text[0]);
    assert SkipBlanks(text) == text;
    FieldOfClean(text);
  }

  /** A usable result is a fixed point: a nameserver line that holds it parses to the same kind and
      the same text in the same capacity. */
  lemma ParseIsIdempotent(line: string, capacity: nat)
    requires capacity >= 1
    requires Parse(line, capacity).0 in {Inet, Inet6}
    ensures
      var (kind, text) := Parse(line, capacity);
      Parse(DIRECTIVE + " " + text, capacity) == (kind, text)
  {
    var (kind, text) := Parse(line, capacity);
    var a := Address(line).1;
    assert forall i | 0 <= i < |a| :: !EndsField(a[i]);
    assert forall i | 0 <= i < |text| :: !EndsField(text[i]);
    AddressOfClean(text);
    NormalIsStable(a);
  }

  lemma NormalIsStable(a: string)
    requires Normal(a).0 in {Inet, Inet6}
    ensures Normal(Normal(a).1) == Normal(a)
  {
    var text := Normal(a).1;
    if !Bracketed(a) && ':' in a {
      assert text == "[" + a + "]";
      assert text[0] == '[' && text[|text| - 1] == ']' && |text| >= 3;
      assert '%' !in text;
    }
  }

  /** Whatever follows a field end after the address, such as a comment, does not matter. */
  lemma {:induction false} FieldIgnoresTail(s: string, t: string)
    requires t != "" && EndsField(t[0])
    ensures Field(s + t) == Field(s)
    decreases |s|
  {
    if s == "" {
      assert s + t == t;
    } else {
      assert (s + t)[1..] == s[1..] + t;
      FieldIgnoresTail(s[1..], t);
    }
  }

  lemma {:induction false} SkipBlanksKeepsTail(s: string, t: string)
    requires SkipBlanks(s) != ""
    ensures SkipBlanks(s + t) == SkipBlanks(s) + t
    decreases |s|
  {
    assert s != "";
    if IsBlank(s[0]) {
      assert (s + t)[1..] == s[1..] + t;
      SkipBlanksKeepsTail(s[1..], t);
    }
  }

  /** A line with an address means the same with indentation before it and a comment, a line end or
      any other field end and arbitrary text after it. */
  lemma ParseIgnoresSurroundings(indent: char, line: string, tail: string, capacity: nat)
    requires capacity >= 1 && IsBlank(indent)
    requires Address(line).0 && Address(line).1 != ""
    requires tail != "" && EndsField(tail[0])
    ensures Parse([indent] + line + tail, capacity) == Parse(line, capacity)
  {
    assert ([indent] + line + tail)[1..] == line + tail;
    var s := SkipBlanks(line);
    SkipBlanksKeepsTail(line, tail);
    assert (s + tail)[..|DIRECTIVE|] == s[..|DIRECTIVE|];
    var rest := s[|DIRECTIVE|..];
    assert (s + tail)[|DIRECTIVE|..] == rest + tail;
    assert SkipBlanks(rest) != "";
    SkipBlanksKeepsTail(rest, tail);
    FieldIgnoresTail(SkipBlanks(rest), tail);
  }

  // ----- Which lines, and which addresses ------------------------------------------------------------

  ghost predicate Blanks(s: string) {
    forall i | 0 <= i < |s| :: s[i] == ' ' || s[i] == '\t'
  }

  /** What ends the directive or the address: a blank, a line end, a comment or the end of the text. */
  ghost predicate Ends(tail: string) {
    tail == "" || tail[0] in " \t\0\r\n#;"
  }

  ghost predicate Unbroken(a: string) {
    forall i | 0 <= i < |a| :: a[i] !in " \t\0\r\n#;"
  }

  lemma {:induction false} SkipsBlanks(indent: string, s: string)
    requires Blanks(indent) && (s == "" || !IsBlank(s[0]))
    ensures SkipBlanks(indent + s) == s
    decreases |indent|
  {
    if indent == "" {
      assert indent + s == s;
    } else {
      assert (indent + s)[1..] == indent[1..] + s;
      SkipsBlanks(indent[1..], s);
    }
  }

  lemma FieldOf(a: string, tail: string)
    requires Unbroken(a) && Ends(tail)
    ensures Field(a + tail) == a
  {
    FieldOfClean(a);
    if tail == "" {
      assert a + tail == a;
    } else {
      FieldIgnoresTail(a, tail);
    }
  }

  lemma AddressOf(indent: string, gap: string, a: string, tail: string)
    requires Blanks(indent) && Blanks(gap) && gap != "" && a != "" && Unbroken(a) && Ends(tail)
    ensures Address(indent + "nameserver" + gap + a + tail) == (true, a)
  {
    var line := indent + "nameserver" + gap + a + tail;
    var rest := gap + (a + tail);
    assert line == indent + (DIRECTIVE + rest);
    SkipsBlanks(indent, DIRECTIVE + rest);
    assert (DIRECTIVE + rest)[|DIRECTIVE|..] == rest && rest[0] == gap[0];
    SkipsBlanks(gap, a + tail);
    FieldOf(a, tail);
  }

  /** Every line of the form indent, directive, gap, address, rest: an address with '%' is unusable; one
      with brackets around it, or a colon, is an IPv6 literal and comes out in brackets; any other is
      taken as it is; and one that does not fit with its terminator is unusable. */
  lemma AddressKinds(indent: string, gap: string, a: string, tail: string, capacity: nat)
    requires capacity >= 1
    requires Blanks(indent) && Blanks(gap) && gap != "" && a != "" && Unbroken(a) && Ends(tail)
    ensures
      var (kind, text) := Parse(indent + "nameserver" + gap + a + tail, capacity);
      && (kind == Inet <==> '%' !in a && a[0] != '[' && ':' !in a && |a| < capacity)
      && (kind == Inet6 <==>
            && '%' !in a
            && if a[0] == '[' then |a| >= 3 && a[|a| - 1] == ']' && |a| < capacity else ':' in a && |a| + 2 < capacity)
      && (kind == Unusable <==> kind != Inet && kind != Inet6)
      && (kind == Inet ==> text == a)
      && (kind == Inet6 ==> text == if a[0] == '[' then a else "[" + a + "]")
      && (kind == Unusable ==> text == if |a| < capacity then a else a[..capacity - 1])
  {
    AddressOf(indent, gap, a, tail);
  }

  /** A line with the directive and no address is unusable. */
  lemma NoAddress(indent: string, gap: string, tail: string, capacity: nat)
    requires capacity >= 1 && Blanks(indent) && Blanks(gap) && (tail == "" || tail[0] in "\0\r\n#;")
    ensures Parse(indent + "nameserver" + gap + tail, capacity) == (Unusable, "")
  {
    var rest := gap + tail;
    assert indent + "nameserver" + gap + tail == indent + (DIRECTIVE + rest);
    SkipsBlanks(indent, DIRECTIVE + rest);
    assert (DIRECTIVE + rest)[|DIRECTIVE|..] == rest;
    SkipsBlanks(gap, tail);
  }

  ghost predicate Directive(line: string, indent: string, rest: string) {
    Blanks(indent) && Ends(rest) && line == indent + "nameserver" + rest
  }

  /** A line is a nameserver line exactly if the word stands first, after blanks only, and ends there. */
  lemma NameserverLines(line: string, capacity: nat)
    requires capacity >= 1
    ensures Parse(line, capacity).0 != NotNameserver <==> exists indent, rest :: Directive(line, indent, rest)
  {
    if Address(line).0 {
      DirectiveFirst(line);
    }
    forall indent, rest | Directive(line, indent, rest) ensures Address(line).0 {
      DirectiveFound(line, indent, rest);
    }
  }

  lemma DirectiveFirst(line: string)
    requires Address(line).0
    ensures exists indent, rest :: Directive(line, indent, rest)
  {
    var s := SkipBlanks(line);
    var indent, rest := line[..|line| - |s|], s[|DIRECTIVE|..];
    Skipped(line);
    assert s == DIRECTIVE + rest;
    Regroup(indent, rest);
    assert Directive(line, indent, rest);
  }

  lemma Regroup(indent: string, rest: string)
    ensures indent + (DIRECTIVE + rest) == indent + "nameserver" + rest
  {
  }

  lemma DirectiveFound(line: string, indent: string, rest: string)
    requires Directive(line, indent, rest)
    ensures Address(line).0
  {
    assert line == indent + (DIRECTIVE + rest);
    SkipsBlanks(indent, DIRECTIVE + rest);
    assert (DIRECTIVE + rest)[|DIRECTIVE|..] == rest;
  }

  lemma {:induction false} Skipped(line: string)
    ensures var s := SkipBlanks(line); Blanks(line[..|line| - |s|]) && line == line[..|line| - |s|] + s
    decreases |line|
  {
    if line != "" && IsBlank(line[0]) {
      Skipped(line[1..]);
      var s := SkipBlanks(line);
      assert line[..|line| - |s|] == [line[0]] + line[1..][..|line| - 1 - |s|];
    }
  }

  // ----- The program ---------------------------------------------------------------------------------

  /** Copies an address, truncated to the capacity, and terminates it. */
  method Store(address: string, out: array<char>) returns (complete: bool, outLen: nat)
    requires out.Length >= 1
    modifies out
    ensures complete == (|address| + 1 <= out.Length)
    ensures outLen == |Fit(address, out.Length)| < out.Length
    ensures out[..outLen] == Fit(address, out.Length) && out[outLen] == '\0'
    ensures forall i | outLen < i < out.Length :: out[i] == old(out[i])
  {
    complete := |address| + 1 <= out.Length;
    outLen := |address|;
    if !complete {
      outLen := out.Length - 1;
    }
    forall i | 0 <= i < outLen {
      out[i] := address[i];
    }
    out[outLen] := '\0';
  }

  /** The position after any blanks from `p`. */
  method SkipBlanksFrom(line: string, p0: nat) returns (p: nat)
    requires p0 <= |line|
    ensures p0 <= p <= |line| && line[p..] == SkipBlanks(line[p0..])
  {
    p := p0;
    while p < |line| && IsBlank(line[p])
      invariant p0 <= p <= |line|
      invariant SkipBlanks(line[p0..]) == SkipBlanks(line[p..])
    {
      assert line[p..][1..] == line[p + 1..];
      p := p + 1;
    }
  }

  method FieldEnd(line: string, p0: nat) returns (p: nat)
    requires p0 <= |line|
    ensures p0 <= p <= |line| && line[p0..p] == Field(line[p0..])
  {
    p := p0;
    while p < |line| && !EndsField(line[p])
      invariant p0 <= p <= |line|
      invariant |Field(line[p0..])| == p - p0 + |Field(line[p..])|
    {
      assert line[p..][1..] == line[p + 1..];
      p := p + 1;
    }
    assert line[p0..][..p - p0] == line[p0..p];
  }

  lemma Slice(s: string, p: nat, n: nat)
    requires p + n <= |s|
    ensures s[p..][..n] == s[p..p + n] && s[p..][n..] == s[p + n..]
  {
    assert |s[p..]| == |s| - p;
    assert forall k | 0 <= k < n :: s[p..][..n][k] == s[p + k] == s[p..p + n][k];
  }

  /** The address of the line, found with one moving position. */
  method FindAddress(line: string) returns (found: bool, address: string)
    ensures (found, address) == Address(line)
  {
    var p := SkipBlanksFrom(line, 0);
    assert line[0..] == line;
    if |line| - p < |DIRECTIVE| {
      return false, "";
    }
    Slice(line, p, |DIRECTIVE|);
    if line[p..p + |DIRECTIVE|] != DIRECTIVE {
      return false, "";
    }
    p := p + |DIRECTIVE|;
    if p < |line| && !EndsField(line[p]) {
      return false, "";
    }
    p := SkipBlanksFrom(line, p);
    var start := p;
    p := FieldEnd(line, p);
    return true, line[start..p];
  }

  /** The buffer always holds a NUL-terminated text of the reported length, nothing is written
      beyond that NUL, and the result is what the line means. */
  method Nameserver(line: string, out: array<char>) returns (kind: Kind, outLen: nat)
    modifies out
    ensures out.Length == 0 ==> kind == NotNameserver && outLen == 0
    ensures out.Length > 0 ==>
              && outLen < out.Length && out[outLen] == '\0'
              && (kind, out[..outLen]) == Parse(line, out.Length)
              && forall i | outLen < i < out.Length :: out[i] == old(out[i])
  {
    if out.Length == 0 {
      return NotNameserver, 0;
    }
    out[0] := '\0';
    outLen := 0;
    var found, address := FindAddress(line);
    if !found {
      return NotNameserver, 0;
    }
    if |address| == 0 {
      return Unusable, 0;
    }
    if '%' in address {
      var _, n := Store(address, out);
      return Unusable, n;
    }
    var bracketed := address[0] == '[';
    if bracketed && (|address| < 3 || address[|address| - 1] != ']') {
      var _, n := Store(address, out);
      return Unusable, n;
    }
    if bracketed || ':' !in address {
      var complete, n := Store(address, out);
      if !complete {
        return Unusable, n;
      }
      return if bracketed then Inet6 else Inet, n;
    }
    if |address| + 3 > out.Length {
      var _, n := Store(address, out);
      return Unusable, n;
    }
    out[0] := '[';
    forall i | 0 <= i < |address| {
      out[i + 1] := address[i];
    }
    out[|address| + 1] := ']';
    out[|address| + 2] := '\0';
    outLen := |address| + 2;
    assert out[..outLen] == "[" + address + "]";
    return Inet6, outLen;
  }
}
