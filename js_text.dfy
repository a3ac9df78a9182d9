/**
 * The JavaScript string primitives the request handler relies on, written out
 * over `seq<char>`: the global `&` replacement, the anchored `cmd_regex`,
 * `parseInt` with no radix, and the decimal text of an integral Number.
 */
module JsText {
  import opened Wrappers

  // ---------------------------------------------------------------------
  // s.replace(/&/g, 'and')
  // ---------------------------------------------------------------------

  /** Every `&` becomes the three letters `and`; every other character stays. */
  function ReplaceAmpersands(s: string): (r: string)
    ensures '&' !in r
    ensures '&' !in s ==> r == s
  {
    if s == [] then []
    else
      assert s == [s[0]] + s[1..];
      (if s[0] == '&' then "and" else [s[0]]) + ReplaceAmpersands(s[1..])
  }

  /** The replacement works character by character, so it distributes over concatenation. */
  lemma {:induction false} ReplaceAmpersandsAppend(a: string, b: string)
    ensures ReplaceAmpersands(a + b) == ReplaceAmpersands(a) + ReplaceAmpersands(b)
  {
    if a != [] {
      var head := if a[0] == '&' then "and" else [a[0]];
      assert (a + b)[0] == a[0];
      assert (a + b)[1..] == a[1..] + b;
      ReplaceAmpersandsAppend(a[1..], b);
      calc {
        ReplaceAmpersands(a + b);
        head + ReplaceAmpersands(a[1..] + b);
        head + (ReplaceAmpersands(a[1..]) + ReplaceAmpersands(b));
        (head + ReplaceAmpersands(a[1..])) + ReplaceAmpersands(b);
        ReplaceAmpersands(a) + ReplaceAmpersands(b);
      }
    } else {
      assert a + b == b;
    }
  }

  /** Each `&` grows the text by two characters. */
  lemma {:induction false} ReplaceAmpersandsLength(s: string)
    ensures |ReplaceAmpersands(s)| == |s| + 2 * multiset(s)['&']
  {
    if s != [] {
      ReplaceAmpersandsLength(s[1..]);
      assert s == [s[0]] + s[1..];
      assert multiset(s) == multiset([s[0]]) + multiset(s[1..]);
    }
  }

  /** Replacing twice is replacing once. */
  lemma ReplaceAmpersandsIdempotent(s: string)
    ensures ReplaceAmpersands(ReplaceAmpersands(s)) == ReplaceAmpersands(s)
  {
  }

  // ---------------------------------------------------------------------
  // s.replace(/^a-zA-Z0-9,._+:@%\/\- /g, '')
  //
  // The pattern has no brackets: it is a sequence of literal characters
  // anchored at position 0, except that `.` matches any one character other
  // than a line terminator and `_+` matches one or more underscores. With no
  // `m` flag `^` matches only at index 0, so at most one match is removed.
  // ---------------------------------------------------------------------

  /** The literal characters before the `.` of the pattern. */
  const CmdHead: string := "a-zA-Z0-9,"
  /** The literal characters after the `_+` of the pattern (`\/` is `/`, `\-` is `-`). */
  const CmdTail: string := ":@%/- "

  /** ECMAScript LineTerminator: the characters `.` does not match. */
  predicate IsLineTerminator(c: char) {
    c == '\n' || c == '\r' || c == '\U{2028}' || c == '\U{2029}'
  }

  /** ECMAScript WhiteSpace: TAB, VT, FF, ZWNBSP and the Unicode space separators. */
  predicate IsWhiteSpace(c: char) {
    c == '\t' || c == '\U{000B}' || c == '\U{000C}' || c == '\U{FEFF}'
    || c == ' ' || c == '\U{00A0}' || c == '\U{1680}' || ('\U{2000}' <= c <= '\U{200A}')
    || c == '\U{202F}' || c == '\U{205F}' || c == '\U{3000}'
  }

  /** A run of `k` underscores. */
  function Underscores(k: nat): (u: string)
    ensures |u| == k && forall i :: 0 <= i < k ==> u[i] == '_'
  {
    seq(k, _ => '_')
  }

  /** A string the whole pattern matches: head, the `.` character, `k` underscores, tail. */
  function CmdMatch(c: char, k: nat): string {
    CmdHead + [c] + Underscores(k) + CmdTail
  }

  /** `.` rejects line terminators and `_+` needs at least one underscore. */
  predicate IsCmdMatch(c: char, k: nat) {
    !IsLineTerminator(c) && k >= 1
  }

  /** Number of underscores at the start of `s` (the greedy `_+`). */
  function LeadingUnderscores(s: string): (n: nat)
    ensures n <= |s|
    ensures forall i :: 0 <= i < n ==> s[i] == '_'
    ensures n < |s| ==> s[n] != '_'
  {
    if s != [] && s[0] == '_' then 1 + LeadingUnderscores(s[1..]) else 0
  }

  /** Length of the pattern's match at index 0 of `s`, or 0 when it does not match there. */
  function CmdMatchLength(s: string): (n: nat)
    ensures n <= |s|
    ensures n == 0 || n >= |CmdHead| + 2 + |CmdTail|
  {
    if |s| > |CmdHead| && s[..|CmdHead|] == CmdHead && !IsLineTerminator(s[|CmdHead|]) then
      var k := LeadingUnderscores(s[|CmdHead| + 1..]);
      if k >= 1 && CmdTail <= s[|CmdHead| + 1 + k..] then |CmdHead| + 1 + k + |CmdTail| else 0
    else 0
  }

  /** The result of `replace(cmd_regex, '')`: `s` without its matched prefix, if any. */
  function StripCmdPrefix(s: string): (r: string)
    ensures |r| <= |s| && r == s[|s| - |r|..]
  {
    s[CmdMatchLength(s)..]
  }

  /** Text too short for the pattern, or not beginning with its first character, is left alone. */
  lemma StripCmdNeedsHead(t: string)
    requires |t| <= |CmdHead| || t[0] != CmdHead[0]
    ensures StripCmdPrefix(t) == t
  {
    if |t| > |CmdHead| {
      assert t[..|CmdHead|][0] == t[0];
    }
  }

  /** A match at the front is removed, and nothing after it is touched. */
  lemma StripCmdMatch(c: char, k: nat, t: string)
    requires IsCmdMatch(c, k)
    ensures StripCmdPrefix(CmdMatch(c, k) + t) == t
  {
    var s := CmdMatch(c, k) + t;
    var h := |CmdHead|;
    assert s[..h] == CmdHead;
    assert s[h] == c;
    var rest := s[h + 1..];
    assert rest == Underscores(k) + CmdTail + t;
    assert rest[k] == ':';
    assert LeadingUnderscores(rest) == k;
    assert s[h + 1 + k..] == CmdTail + t;
  }

  /** When the input changed, it was a match followed by the result: the converse of StripCmdMatch. */
  lemma StripCmdWitness(s: string) returns (c: char, k: nat)
    requires StripCmdPrefix(s) != s
    ensures IsCmdMatch(c, k) && s == CmdMatch(c, k) + StripCmdPrefix(s)
  {
    var h := |CmdHead|;
    var n := CmdMatchLength(s);
    c := s[h];
    k := LeadingUnderscores(s[h + 1..]);
    assert n == h + 1 + k + |CmdTail|;
    assert s[..n] == CmdMatch(c, k) by {
      assert s[..h] == CmdHead;
      assert s[h + 1..h + 1 + k] == Underscores(k);
      assert s[h + 1 + k..n] == CmdTail;
      assert s[..n] == s[..h] + [s[h]] + s[h + 1..h + 1 + k] + s[h + 1 + k..n];
    }
    assert s == s[..n] + s[n..];
  }

  /** `^` anchors at index 0 only: a doubled match loses its first copy and keeps the second. */
  lemma StripCmdOnlyOnce(c: char, k: nat, t: string)
    requires IsCmdMatch(c, k)
    ensures StripCmdPrefix(CmdMatch(c, k) + CmdMatch(c, k) + t) == CmdMatch(c, k) + t
  {
    assert CmdMatch(c, k) + CmdMatch(c, k) + t == CmdMatch(c, k) + (CmdMatch(c, k) + t);
    StripCmdMatch(c, k, CmdMatch(c, k) + t);
  }

  /** The pattern is no character class: shell metacharacters survive it. */
  lemma StripCmdKeepsShellText()
    ensures StripCmdPrefix("'; rm -rf ~; echo '") == "'; rm -rf ~; echo '"
  {
  }

  // ---------------------------------------------------------------------
  // parseInt(s) with no radix argument
  // ---------------------------------------------------------------------

  /** A digit of radix 10 or 16, either case for the letters. */
  predicate IsDigitIn(c: char, radix: nat) {
    ('0' <= c <= '9') || (radix == 16 && (('a' <= c <= 'f') || ('A' <= c <= 'F')))
  }

  function DigitValue(c: char): nat {
    if '0' <= c <= '9' then c as int - '0' as int
    else if 'a' <= c <= 'f' then c as int - 'a' as int + 10
    else if 'A' <= c <= 'F' then c as int - 'A' as int + 10
    else 0
  }

  /** The longest prefix of `s` made of radix digits. */
  function DigitPrefix(s: string, radix: nat): (r: string)
    ensures r <= s
    ensures forall i :: 0 <= i < |r| ==> IsDigitIn(r[i], radix)
    ensures |r| < |s| ==> !IsDigitIn(s[|r|], radix)
  {
    if s != [] && IsDigitIn(s[0], radix) then [s[0]] + DigitPrefix(s[1..], radix) else []
  }

  /** The value of a digit string, most significant digit first. */
  function DigitsValue(d: string, radix: nat): nat {
    if d == [] then 0 else DigitsValue(d[..|d| - 1], radix) * radix + DigitValue(d[|d| - 1])
  }

  /** The length of the run of WhiteSpace and LineTerminator characters at the front of `s`. */
  function LeadingBlanks(s: string): (n: nat)
    ensures n <= |s|
    ensures forall i :: 0 <= i < n ==> IsWhiteSpace(s[i]) || IsLineTerminator(s[i])
    ensures n < |s| ==> !IsWhiteSpace(s[n]) && !IsLineTerminator(s[n])
  {
    if s != [] && (IsWhiteSpace(s[0]) || IsLineTerminator(s[0])) then 1 + LeadingBlanks(s[1..]) else 0
  }

  /** Leading WhiteSpace and LineTerminator characters removed, and nothing else. */
  function TrimStart(s: string): (r: string)
    ensures r != [] ==> !IsWhiteSpace(r[0]) && !IsLineTerminator(r[0])
  {
    s[LeadingBlanks(s)..]
  }

  /** The digits a radix accepts at the front of `s`, read as a number; `None` when there are none. */
  function ParseDigits(s: string, radix: nat): Option<nat> {
    var d := DigitPrefix(s, radix);
    if d == [] then None else Some(DigitsValue(d, radix))
  }

  /** A `0x` or `0X` prefix, which switches parseInt to radix 16. */
  predicate HasHexPrefix(u: string) {
    |u| >= 2 && u[0] == '0' && (u[1] == 'x' || u[1] == 'X')
  }

  /** The unsigned part: hexadecimal after a `0x` prefix, decimal otherwise. */
  function ParseUnsigned(u: string): Option<nat> {
    if HasHexPrefix(u) then ParseDigits(u[2..], 16) else ParseDigits(u, 10)
  }

  /** After the white space: one optional sign, then the unsigned part. */
  function ParseSigned(t: string): Option<int> {
    if t == [] then ParseUnsigned(t)
    else if t[0] == '-' then
      match ParseUnsigned(t[1..])
      case None => None
      case Some(v) => Some(-(v as int))
    else if t[0] == '+' then ParseUnsigned(t[1..])
    else ParseUnsigned(t)
  }

  /** `parseInt(s)` with no radix: skip leading white space, then read a signed number. `None` is NaN. */
  function ParseInt(s: string): Option<int> {
    ParseSigned(TrimStart(s))
  }

  // ---------------------------------------------------------------------
  // `${n}` for an integral Number
  // ---------------------------------------------------------------------

  function DigitChar(d: nat): (c: char)
    requires d < 10
    ensures IsDigitIn(c, 10) && DigitValue(c) == d
  {
    ('0' as int + d) as char
  }

  /** Decimal digits of `n`, no leading zero. */
  function NatToDecimal(n: nat): (r: string)
    ensures r != []
    ensures forall i :: 0 <= i < |r| ==> IsDigitIn(r[i], 10)
    ensures r[0] == '0' ==> n == 0
  {
    if n < 10 then [DigitChar(n)] else NatToDecimal(n / 10) + [DigitChar(n % 10)]
  }

  /** Decimal text of an integer: a `-` before negative values (`${-0}` is "0"). */
  function IntToDecimal(n: int): (r: string)
    ensures r != [] && (r[0] == '-' || IsDigitIn(r[0], 10))
  {
    if n < 0 then "-" + NatToDecimal(-n) else NatToDecimal(n)
  }

  /** Reading the digits back gives the number. */
  lemma {:induction false} NatToDecimalValue(n: nat)
    ensures DigitsValue(NatToDecimal(n), 10) == n
  {
    var d := NatToDecimal(n);
    if n >= 10 {
      NatToDecimalValue(n / 10);
      assert d[..|d| - 1] == NatToDecimal(n / 10);
    }
  }

  /** A digit string followed by anything that is not a digit: exactly those digits are read. */
  lemma ParseDigitsPrefix(d: string, rest: string)
    requires d != [] && forall i :: 0 <= i < |d| ==> IsDigitIn(d[i], 10)
    requires rest == [] || !IsDigitIn(rest[0], 10)
    ensures ParseDigits(d + rest, 10) == Some(DigitsValue(d, 10))
  {
    DigitPrefixStopsAtNonDigit(d, rest);
  }

  /** The digit prefix of digits followed by a non-digit is those digits. */
  lemma {:induction false} DigitPrefixStopsAtNonDigit(d: string, rest: string)
    requires forall i :: 0 <= i < |d| ==> IsDigitIn(d[i], 10)
    requires rest == [] || !IsDigitIn(rest[0], 10)
    ensures DigitPrefix(d + rest, 10) == d
  {
    if d == [] {
      assert d + rest == rest;
    } else {
      assert (d + rest)[0] == d[0];
      assert (d + rest)[1..] == d[1..] + rest;
      DigitPrefixStopsAtNonDigit(d[1..], rest);
      assert d == [d[0]] + d[1..];
    }
  }

  /** parseInt of decimal digits followed by a non-digit reads exactly those digits. */
  lemma ParseIntDigitPrefix(d: string, rest: string)
    requires d != [] && forall i :: 0 <= i < |d| ==> IsDigitIn(d[i], 10)
    requires rest == [] || !IsDigitIn(rest[0], 10)
    requires d == "0" && rest != [] ==> rest[0] != 'x' && rest[0] != 'X'
    ensures ParseInt(d + rest) == Some(DigitsValue(d, 10))
  {
    var s := d + rest;
    assert s[0] == d[0];
    assert TrimStart(s) == s by {
      assert IsDigitIn(s[0], 10);
      assert LeadingBlanks(s) == 0;
    }
    assert !HasHexPrefix(s) by {
      if |s| >= 2 && s[0] == '0' && |d| >= 2 {
        assert s[1] == d[1];
      }
    }
    ParseDigitsPrefix(d, rest);
  }

  /** parseInt inverts the decimal text of every integer. */
  lemma ParseIntOfDecimal(n: int)
    ensures ParseInt(IntToDecimal(n)) == Some(n)
  {
    var m := if n < 0 then -n else n;
    var d := NatToDecimal(m);
    NatToDecimalValue(m);
    assert d + [] == d;
    ParseDigitsPrefix(d, []);
    assert !HasHexPrefix(d) by {
      if |d| >= 2 { assert IsDigitIn(d[1], 10); }
    }
    if n < 0 {
      var s := IntToDecimal(n);
      assert s == "-" + d;
      assert TrimStart(s) == s;
      assert s[1..] == d;
    } else {
      assert TrimStart(d) == d;
    }
  }

  /** parseInt finds no digits: NaN. */
  lemma ParseIntNaNExamples()
    ensures ParseInt("") == None
    ensures ParseInt("abc") == None
    ensures ParseInt("0x") == None
  {
    assert TrimStart("abc") == "abc";
    assert TrimStart("0x") == "0x";
  }

  /** Leading white space and a sign are skipped. */
  lemma ParseIntSignedExample()
    ensures ParseInt(" \t-7") == Some(-7)
  {
    assert TrimStart(" \t-7") == "-7";
    assert DigitPrefix("7", 10) == "7";
  }

  /** A `0x` prefix switches to hexadecimal. */
  lemma ParseIntHexExample()
    ensures ParseInt("0x1A") == Some(26)
  {
    assert TrimStart("0x1A") == "0x1A";
    assert DigitPrefix("1A", 16) == "1A";
    assert DigitsValue("1A", 16) == 26 by {
      assert "1A"[..1] == "1";
    }
  }
}
