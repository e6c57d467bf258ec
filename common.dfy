/** String and sequence helpers shared by the whole model: the JavaScript
    string built-ins the application calls (trim, split, join, startsWith,
    includes, padStart, toLowerCase, a whitespace-run regex replace, integer
    interpolation and parseInt), written out so that their results can be
    reasoned about. */
module Common {

  datatype Option<T> = None | Some(value: T)

  /** The characters JavaScript's `\s` class and `String.prototype.trim` treat
      as white space (WhiteSpace and LineTerminator of ECMA-262). */
  predicate IsSpace(c: char) {
    c == ' ' || c == '\t' || c == '\n' || c == '\r' || c == '\U{000B}' || c == '\U{000C}'
    || c == '\U{00A0}' || c == '\U{1680}' || ('\U{2000}' <= c <= '\U{200A}')
    || c == '\U{2028}' || c == '\U{2029}' || c == '\U{202F}' || c == '\U{205F}'
    || c == '\U{3000}' || c == '\U{FEFF}'
  }

  predicate NoSpace(s: string) {
    forall i :: 0 <= i < |s| ==> !IsSpace(s[i])
  }

  /** Leading white space removed. */
  function TrimStart(s: string): (r: string)
    ensures |r| <= |s| && r == s[|s| - |r|..]
    ensures r == [] || !IsSpace(r[0])
    ensures s != [] && IsSpace(s[0]) ==> |r| < |s|
  {
    if s != [] && IsSpace(s[0]) then TrimStart(s[1..]) else s
  }

  /** Trailing white space removed. */
  function TrimEnd(s: string): (r: string)
    ensures |r| <= |s| && r == s[..|r|]
    ensures r == [] || !IsSpace(r[|r| - 1])
  {
    if s != [] && IsSpace(s[|s| - 1]) then TrimEnd(s[..|s| - 1]) else s
  }

  /** `String.prototype.trim`. */
  function Trim(s: string): (r: string)
    ensures r == [] || (!IsSpace(r[0]) && !IsSpace(r[|r| - 1]))
    ensures |r| <= |s|
  {
    TrimEnd(TrimStart(s))
  }

  /** `s.split(sep)` for a one-character separator: the pieces between the
      separators, always at least one. */
  function Split(s: string, sep: char): (parts: seq<string>)
    ensures |parts| >= 1
    decreases |s|
  {
    if s == [] then [""]
    else
      var prev := Split(s[..|s| - 1], sep);
      if s[|s| - 1] == sep then prev + [""]
      else prev[..|prev| - 1] + [prev[|prev| - 1] + [s[|s| - 1]]]
  }

  /** `parts.join(sep)`. */
  function Join(parts: seq<string>, sep: string): string
  {
    if |parts| == 0 then ""
    else if |parts| == 1 then parts[0]
    else Join(parts[..|parts| - 1], sep) + sep + parts[|parts| - 1]
  }

  /** Number of occurrences of `c` in `s`. */
  function Count(s: string, c: char): nat
  {
    if s == [] then 0 else Count(s[..|s| - 1], c) + (if s[|s| - 1] == c then 1 else 0)
  }

  lemma CountAppend(s: string, c: char, d: char)
    ensures Count(s + [d], c) == Count(s, c) + (if d == c then 1 else 0)
  {
    assert (s + [d])[..|s|] == s;
  }

  lemma {:induction false} CountConcat(a: string, b: string, c: char)
    ensures Count(a + b, c) == Count(a, c) + Count(b, c)
    decreases |b|
  {
    if b == [] {
      assert a + b == a;
    } else {
      var b' := b[..|b| - 1];
      assert (a + b)[..|a + b| - 1] == a + b';
      CountConcat(a, b', c);
    }
  }

  lemma JoinAppendChar(parts: seq<string>, sep: string, d: char)
    requires |parts| >= 1
    ensures Join(parts[..|parts| - 1] + [parts[|parts| - 1] + [d]], sep) == Join(parts, sep) + [d]
  {
    var n := |parts|;
    var q := parts[..n - 1] + [parts[n - 1] + [d]];
    assert q[..n - 1] == parts[..n - 1];
  }

  lemma JoinAppendPart(parts: seq<string>, sep: string, x: string)
    requires |parts| >= 1
    ensures Join(parts + [x], sep) == Join(parts, sep) + sep + x
  {
    assert (parts + [x])[..|parts|] == parts;
  }

  lemma SplitSnocSep(s: string, sep: char)
    ensures Split(s + [sep], sep) == Split(s, sep) + [""]
  {
    assert (s + [sep])[..|s|] == s;
  }
  lemma SplitSnocOther(s: string, c: char, sep: char)
    requires c != sep
    ensures var prev := Split(s, sep); Split(s + [c], sep) == prev[..|prev| - 1] + [prev[|prev| - 1] + [c]]
  {
    assert (s + [c])[..|s|] == s;
  }
  lemma ExtendLast(pa: seq<string>, pb: seq<string>, c: char)
    requires |pb| >= 1
    ensures var q := pa + pb; q[..|q| - 1] + [q[|q| - 1] + [c]] == pa + (pb[..|pb| - 1] + [pb[|pb| - 1] + [c]])
  {
    var q := pa + pb;
    assert q[..|q| - 1] == pa + pb[..|pb| - 1];
  }

  lemma {:induction false} SplitJoinText(s: string, sep: char)
    ensures Join(Split(s, sep), [sep]) == s
    decreases |s|
  {
    if s != [] {
      var p := s[..|s| - 1];
      var d := s[|s| - 1];
      SplitJoinText(p, sep);
      assert p + [d] == s;
      if d == sep {
        SplitSnocSep(p, sep);
        JoinAppendPart(Split(p, sep), [sep], "");
      } else {
        SplitSnocOther(p, d, sep);
        JoinAppendChar(Split(p, sep), [sep], d);
      }
    }
  }

  lemma {:induction false} SplitCount(s: string, sep: char)
    ensures |Split(s, sep)| == Count(s, sep) + 1
    decreases |s|
  {
    if s != [] {
      var p := s[..|s| - 1];
      var d := s[|s| - 1];
      SplitCount(p, sep);
      CountAppend(p, sep, d);
      assert p + [d] == s;
    }
  }

  lemma {:induction false} SplitPieces(s: string, sep: char)
    ensures forall k :: 0 <= k < |Split(s, sep)| ==> sep !in Split(s, sep)[k]
    decreases |s|
  {
    if s != [] {
      var p := s[..|s| - 1];
      var d := s[|s| - 1];
      SplitPieces(p, sep);
      assert p + [d] == s;
      if d == sep {
        SplitSnocSep(p, sep);
      } else {
        SplitSnocOther(p, d, sep);
        var prev := Split(p, sep);
        var r := Split(s, sep);
        assert forall k :: 0 <= k < |prev| - 1 ==> r[k] == prev[k];
      }
    }
  }

  /** Joining the pieces of a split with the separator gives the input back;
      no piece contains the separator, and there is one more piece than
      separators. */
  lemma SplitJoin(s: string, sep: char)
    ensures Join(Split(s, sep), [sep]) == s
    ensures |Split(s, sep)| == Count(s, sep) + 1
    ensures forall k :: 0 <= k < |Split(s, sep)| ==> sep !in Split(s, sep)[k]
  {
    SplitJoinText(s, sep);
    SplitCount(s, sep);
    SplitPieces(s, sep);
  }

  predicate StartsWith(s: string, prefix: string) {
    |prefix| <= |s| && s[..|prefix|] == prefix
  }

  /** `s.includes(sub)`. */
  predicate Contains(s: string, sub: string) {
    exists i | 0 <= i <= |s| - |sub| :: OccursAt(s, sub, i)
  }

  predicate OccursAt(s: string, sub: string, i: int) {
    0 <= i <= |s| - |sub| && s[i..i + |sub|] == sub
  }

  /** `xs.findIndex(x => x.includes(sub))`: the first index whose element
      contains `sub`, or -1. */
  function FindIndex(xs: seq<string>, sub: string): (r: int)
    ensures -1 <= r < |xs|
    ensures r >= 0 ==> Contains(xs[r], sub)
    ensures forall j :: 0 <= j < |xs| && (r == -1 || j < r) ==> !Contains(xs[j], sub)
  {
    if xs == [] then -1
    else if Contains(xs[0], sub) then 0
    else var r := FindIndex(xs[1..], sub); if r == -1 then -1 else r + 1
  }

  /** `s.padStart(2, '0')`. */
  function PadStart2(s: string): (r: string)
    ensures |r| == if |s| >= 2 then |s| else 2
    ensures r[|r| - |s|..] == s
    ensures forall i :: 0 <= i < |r| - |s| ==> r[i] == '0'
  {
    if |s| >= 2 then s else if |s| == 1 then "0" + s else "00"
  }

  /** ASCII letter case mapping, standing in for `toLowerCase`. */
  function LowerChar(c: char): char {
    if 'A' <= c <= 'Z' then (c as int + 32) as char else c
  }

  function ToLower(s: string): (r: string)
    ensures |r| == |s|
    ensures forall i :: 0 <= i < |s| ==> r[i] == LowerChar(s[i])
  {
    seq(|s|, i requires 0 <= i < |s| => LowerChar(s[i]))
  }

  /** `s.replace(/\s+/g, sep)`: every maximal run of white space becomes `sep`. */
  function ReplaceSpaceRuns(s: string, sep: string): (r: string)
    decreases |s|
  {
    if s == [] then []
    else if IsSpace(s[0]) then sep + ReplaceSpaceRuns(TrimStart(s), sep)
    else [s[0]] + ReplaceSpaceRuns(s[1..], sep)
  }

  /** With a separator that is not white space, no white space is left. */
  lemma {:induction false} ReplaceSpaceRunsNoSpace(s: string, sep: string)
    requires NoSpace(sep)
    ensures NoSpace(ReplaceSpaceRuns(s, sep))
    decreases |s|
  {
    if s != [] {
      if IsSpace(s[0]) {
        ReplaceSpaceRunsNoSpace(TrimStart(s), sep);
      } else {
        ReplaceSpaceRunsNoSpace(s[1..], sep);
      }
    }
  }

  lemma NoSpaceAppend(a: string, b: string)
    requires NoSpace(a) && NoSpace(b)
    ensures NoSpace(a + b)
  {
    forall i | 0 <= i < |a + b| ensures !IsSpace((a + b)[i]) {
      if i >= |a| {
        assert (a + b)[i] == b[i - |a|];
      }
    }
  }

  /** The separators the application puts in place of white space. */
  lemma SeparatorNoSpace(c: char)
    requires c == '-' || c == '.'
    ensures NoSpace([c])
  {
  }

  lemma LowerNoSpace(s: string)
    requires NoSpace(s)
    ensures NoSpace(ToLower(s))
  {
  }

  // ---- numbers as text ----

  function DigitChar(d: nat): char
    requires d < 10
  {
    ['0', '1', '2', '3', '4', '5', '6', '7', '8', '9'][d]
  }

  predicate IsDigit(c: char) { '0' <= c <= '9' }

  predicate AllDigits(s: string) { forall i :: 0 <= i < |s| ==> IsDigit(s[i]) }

  /** Decimal text of a natural number, as template interpolation prints it. */
  function NatToString(n: nat): (r: string)
    ensures |r| >= 1 && AllDigits(r)
    ensures n < 10 ==> |r| == 1
    ensures 10 <= n < 100 ==> |r| == 2
    ensures 1000 <= n < 10000 ==> |r| == 4
  {
    if n < 10 then [DigitChar(n)] else NatToString(n / 10) + [DigitChar(n % 10)]
  }

  function IntToString(n: int): (r: string)
    ensures |r| >= 1
  {
    if n >= 0 then NatToString(n) else "-" + NatToString(-n)
  }

  function DigitValue(c: char): nat
    requires IsDigit(c)
  {
    c as int - '0' as int
  }

  /** Value of a decimal digit string (most significant first). */
  function DigitsValue(s: string): nat
    requires AllDigits(s)
  {
    if s == [] then 0 else DigitsValue(s[..|s| - 1]) * 10 + DigitValue(s[|s| - 1])
  }

  predicate IsHexDigit(c: char) { IsDigit(c) || 'a' <= c <= 'f' || 'A' <= c <= 'F' }

  function HexValue(c: char): nat
    requires IsHexDigit(c)
  {
    if IsDigit(c) then DigitValue(c)
    else if 'a' <= c <= 'f' then c as int - 'a' as int + 10
    else c as int - 'A' as int + 10
  }

  /** A digit of base 16 when `hex`, of base 10 otherwise. */
  predicate DigitIn(c: char, hex: bool) {
    if hex then IsHexDigit(c) else IsDigit(c)
  }

  function DigitOf(c: char, hex: bool): nat
    requires DigitIn(c, hex)
  {
    if hex then HexValue(c) else DigitValue(c)
  }

  /** Length of the longest prefix of `s` made of digits of the base. */
  function PrefixLen(s: string, hex: bool): (n: nat)
    ensures n <= |s|
    ensures forall i :: 0 <= i < n ==> DigitIn(s[i], hex)
  {
    if s != [] && DigitIn(s[0], hex) then 1 + PrefixLen(s[1..], hex) else 0
  }

  /** One more digit after the value `v`. */
  function Shifted(v: nat, base: nat, d: nat): nat {
    v * base + d
  }

  function ValueIn(s: string, base: nat, hex: bool): nat
    requires forall i :: 0 <= i < |s| ==> DigitIn(s[i], hex)
  {
    if s == [] then 0
    else
      var init := s[..|s| - 1];
      assert forall i :: 0 <= i < |init| ==> init[i] == s[i];
      Shifted(ValueIn(init, base, hex), base, DigitOf(s[|s| - 1], hex))
  }

  /** `parseInt(s)` without a radix: leading white space, an optional sign, a
      `0x`/`0X` prefix selecting base 16, then the longest run of digits;
      `None` stands for NaN (no digits at all). */
  function ParseInt(s: string): Option<int>
  {
    var t := TrimStart(s);
    if t != [] && (t[0] == '-' || t[0] == '+') then
      match ParseUnsigned(t[1..])
      case None => None
      case Some(v) => Some(if t[0] == '-' then 0 - v else v)
    else
      match ParseUnsigned(t)
      case None => None
      case Some(v) => Some(v)
  }

  /** The unsigned part of `parseInt`: an optional hexadecimal prefix and the
      longest run of digits of that base. */
  function ParseUnsigned(u: string): Option<nat>
  {
    var hex := |u| >= 2 && u[0] == '0' && (u[1] == 'x' || u[1] == 'X');
    var body := if hex then u[2..] else u;
    var n := PrefixLen(body, hex);
    if n == 0 then None
    else
      assert forall i :: 0 <= i < n ==> body[..n][i] == body[i];
      Some(ValueIn(body[..n], if hex then 16 else 10, hex))
  }

  lemma {:induction false} ValueInDecimal(s: string)
    requires AllDigits(s)
    ensures ValueIn(s, 10, false) == DigitsValue(s)
    decreases |s|
  {
    if s != [] {
      ValueInDecimal(s[..|s| - 1]);
    }
  }

  lemma {:induction false} PrefixLenAllDigits(s: string)
    requires AllDigits(s)
    ensures PrefixLen(s, false) == |s|
    decreases |s|
  {
    if s != [] {
      PrefixLenAllDigits(s[1..]);
    }
  }

  /** On a non-empty string of decimal digits `parseInt` yields its value. */
  lemma ParseIntDigits(s: string)
    requires s != [] && AllDigits(s)
    ensures ParseInt(s) == Some(DigitsValue(s))
  {
    assert TrimStart(s) == s;
    assert !(s[0] == '-' || s[0] == '+');
    ParseUnsignedDigits(s);
  }

  lemma ParseUnsignedDigits(s: string)
    requires s != [] && AllDigits(s)
    ensures ParseUnsigned(s) == Some(DigitsValue(s))
  {
    assert !(|s| >= 2 && s[0] == '0' && (s[1] == 'x' || s[1] == 'X'));
    PrefixLenAllDigits(s);
    assert s[..|s|] == s;
    ValueInDecimal(s);
  }

  // ---- code-unit order on strings ----

  /** Lexicographic order by character code. */
  predicate StrLe(a: string, b: string)
  {
    if a == [] then true
    else if b == [] then false
    else if a[0] != b[0] then a[0] < b[0]
    else StrLe(a[1..], b[1..])
  }

  lemma {:induction false} StrLeTotal(a: string, b: string)
    ensures StrLe(a, b) || StrLe(b, a)
    decreases |a|
  {
    if a != [] && b != [] && a[0] == b[0] {
      StrLeTotal(a[1..], b[1..]);
    }
  }

  lemma {:induction false} StrLeTrans(a: string, b: string, c: string)
    requires StrLe(a, b) && StrLe(b, c)
    ensures StrLe(a, c)
    decreases |a|
  {
    if a != [] && b != [] && c != [] && a[0] == b[0] && b[0] == c[0] {
      StrLeTrans(a[1..], b[1..], c[1..]);
    }
  }

  lemma {:induction false} StrLeAntisym(a: string, b: string)
    requires StrLe(a, b) && StrLe(b, a)
    ensures a == b
    decreases |a|
  {
    if a != [] && b != [] {
      StrLeAntisym(a[1..], b[1..]);
      assert a == [a[0]] + a[1..];
      assert b == [b[0]] + b[1..];
    }
  }

  /** A common prefix does not change the order. */
  lemma {:induction false} StrLePrefix(p: string, a: string, b: string)
    requires StrLe(a, b)
    ensures StrLe(p + a, p + b)
    decreases |p|
  {
    if p == [] {
      assert p + a == a && p + b == b;
    } else {
      assert (p + a)[0] == p[0] == (p + b)[0];
      assert (p + a)[1..] == p[1..] + a;
      assert (p + b)[1..] == p[1..] + b;
      StrLePrefix(p[1..], a, b);
    }
  }

  /** Strings of the same length compare by their first differing position. */
  lemma {:induction false} StrLeAt(a: string, b: string, k: nat)
    requires |a| == |b| && k < |a| && a[..k] == b[..k] && a[k] < b[k]
    ensures StrLe(a, b) && a != b
    decreases k
  {
    if k > 0 {
      assert a[0] == a[..k][0] == b[..k][0] == b[0];
      assert a[1..][..k - 1] == a[1..k] == a[..k][1..];
      assert b[1..][..k - 1] == b[1..k] == b[..k][1..];
      StrLeAt(a[1..], b[1..], k - 1);
    }
  }

  lemma {:induction false} StrLeRefl(a: string)
    ensures StrLe(a, a)
    decreases |a|
  {
    if a != [] {
      StrLeRefl(a[1..]);
    }
  }
}
