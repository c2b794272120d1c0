/**
 Bounded integer parsing (safe_strtoint of shared/string-helpers.h, strtol and
 strtoul as the C standard defines them with 64-bit longs) and decimal printing.
 */
module Numbers {
  import opened Wrappers

  const TWO_31: int := 0x8000_0000
  const TWO_32: int := 0x1_0000_0000
  const TWO_63: int := 0x8000_0000_0000_0000
  const TWO_64: int := 0x1_0000_0000_0000_0000

  predicate IsInt32(v: int) { -TWO_31 <= v < TWO_31 }

  predicate IsSpace(c: char) {
    c == ' ' || c == '\t' || c == '\n' || c == '\r' || c == 11 as char || c == 12 as char
  }

  predicate IsDigit(c: char) { '0' <= c <= '9' }

  function DigitValue(c: char): nat
    requires IsDigit(c)
  {
    c as int - '0' as int
  }

  predicate AllDigits(s: string) { forall i :: 0 <= i < |s| ==> IsDigit(s[i]) }
  predicate AllSpaces(s: string) { forall i :: 0 <= i < |s| ==> IsSpace(s[i]) }

  /** The value of a digit string, most significant digit first. */
  function NatValue(s: string): nat
    requires AllDigits(s)
  {
    if s == [] then 0 else NatValue(s[..|s| - 1]) * 10 + DigitValue(s[|s| - 1])
  }

  // ---- strtol ------------------------------------------------------------------

  function SkipSpaces(s: string): (r: nat)
    ensures r <= |s| && AllSpaces(s[..r]) && (r < |s| ==> !IsSpace(s[r]))
  {
    if s == [] || !IsSpace(s[0]) then 0
    else
      var r := SkipSpaces(s[1..]);
      assert s[..r + 1] == [s[0]] + s[1..][..r];
      1 + r
  }

  function CountDigits(s: string): (r: nat)
    ensures r <= |s| && AllDigits(s[..r]) && (r < |s| ==> !IsDigit(s[r]))
  {
    if s == [] || !IsDigit(s[0]) then 0
    else
      var r := CountDigits(s[1..]);
      assert s[..r + 1] == [s[0]] + s[1..][..r];
      1 + r
  }

  /** What strtol and strtoul read: a sign, a magnitude, and where they stopped; no digits means nothing was read. */
  datatype Scan = Scan(negative: bool, digits: string, rest: string)

  function ScanInteger(s: string): (r: Scan)
    ensures AllDigits(r.digits)
  {
    ScanSigned(s[SkipSpaces(s)..])
  }

  function ScanSigned(t: string): (r: Scan)
    ensures AllDigits(r.digits)
  {
    var u := if t != [] && (t[0] == '-' || t[0] == '+') then t[1..] else t;
    var n := CountDigits(u);
    Scan(t != [] && t[0] == '-', u[..n], u[n..])
  }

  function WithSign(negative: bool, n: nat): int { if negative then 0 - n else n }

  function Signed(r: Scan): int
    requires AllDigits(r.digits)
  {
    WithSign(r.negative, NatValue(r.digits))
  }

  // ---- safe_strtoint --------------------------------------------------------------

  function ParseInt(s: string): Option<int> {
    var r := ScanInteger(s);
    if !(-TWO_63 <= Signed(r) < TWO_63) then None        // strtol sets ERANGE
    else if r.digits == [] || r.rest != [] then None      // EINVAL
    else if !IsInt32(Signed(r)) then None                 // ERANGE
    else Some(Signed(r))
  }

  /** The integer behind an out pointer. */
  class IntCell {
    var value: int

    constructor (value: int)
      ensures this.value == value
    {
      this.value := value;
    }
  }

  method SafeStrtoint(str: string, target: IntCell) returns (ok: bool)
    modifies target
    ensures ok == ParseInt(str).Some?
    ensures target.value == if ok then ParseInt(str).value else old(target.value)
  {
    var r := ScanInteger(str);
    var ret := Signed(r);
    if ret < -TWO_63 || ret >= TWO_63 {
      return false;
    }
    if r.digits == [] || r.rest != [] {
      return false;
    }
    if !IsInt32(ret) {
      return false;
    }
    target.value := ret;
    ok := true;
  }

  predicate IsSign(s: string) { s == "" || s == "+" || s == "-" }

  /** s is spaces, an optional sign, and at least one digit, and nothing else. */
  ghost predicate Spells(s: string, blank: string, sign: string, digits: string) {
    && s == blank + sign + digits
    && AllSpaces(blank) && IsSign(sign) && AllDigits(digits) && digits != []
  }

  lemma {:induction false} SkipsExactly(blank: string, t: string)
    requires AllSpaces(blank) && (t != [] ==> !IsSpace(t[0]))
    ensures SkipSpaces(blank + t) == |blank|
  {
    if blank == [] {
      assert blank + t == t;
    } else {
      assert (blank + t)[1..] == blank[1..] + t;
      SkipsExactly(blank[1..], t);
    }
  }

  lemma {:induction false} CountsExactly(digits: string, rest: string)
    requires AllDigits(digits) && (rest != [] ==> !IsDigit(rest[0]))
    ensures CountDigits(digits + rest) == |digits|
  {
    if digits == [] {
      assert digits + rest == rest;
    } else {
      assert (digits + rest)[1..] == digits[1..] + rest;
      CountsExactly(digits[1..], rest);
    }
  }

  lemma ScanOfSigned(sign: string, digits: string, rest: string)
    requires IsSign(sign) && AllDigits(digits) && digits != [] && (rest != [] ==> !IsDigit(rest[0]))
    ensures ScanSigned(sign + (digits + rest)) == Scan(sign == "-", digits, rest)
  {
    var u := digits + rest;
    var t := sign + u;
    CountsExactly(digits, rest);
    assert sign != "" ==> t[1..] == u;
    assert sign == "" ==> t == u;
    assert u[..|digits|] == digits && u[|digits|..] == rest;
  }

  lemma ScanOfSpelled(s: string, blank: string, sign: string, digits: string, rest: string)
    requires Spells(s, blank, sign, digits) && (rest != [] ==> !IsDigit(rest[0]))
    ensures ScanInteger(s + rest) == Scan(sign == "-", digits, rest)
  {
    var t := sign + (digits + rest);
    assert s + rest == blank + t;
    SkipsExactly(blank, t);
    assert (blank + t)[|blank|..] == t;
    ScanOfSigned(sign, digits, rest);
  }

  lemma SpelledByScan(s: string) returns (blank: string, sign: string)
    requires ScanInteger(s).digits != [] && ScanInteger(s).rest == []
    ensures Spells(s, blank, sign, ScanInteger(s).digits) && ScanInteger(s).negative == (sign == "-")
  {
    var k := SkipSpaces(s);
    var t := s[k..];
    blank := s[..k];
    var signed := t != [] && (t[0] == '-' || t[0] == '+');
    sign := if signed then [t[0]] else "";
    var u := if signed then t[1..] else t;
    var n := CountDigits(u);
    assert u == u[..n] + u[n..] && u[n..] == [];
    assert t == sign + u;
  }

  /** safe_strtoint accepts exactly optional blanks, an optional sign and digits, whose value fits 32 bits. */
  lemma AcceptsExactlySpelledInt32(s: string, v: int)
    ensures ParseInt(s) == Some(v)
       <==> IsInt32(v) && exists blank, sign, digits ::
              Spells(s, blank, sign, digits) && v == WithSign(sign == "-", NatValue(digits))
  {
    if ParseInt(s) == Some(v) {
      var blank, sign := SpelledByScan(s);
    }
    forall blank, sign, digits | IsInt32(v) && Spells(s, blank, sign, digits)
        && v == WithSign(sign == "-", NatValue(digits))
      ensures ParseInt(s) == Some(v)
    {
      ScanOfSpelled(s, blank, sign, digits, "");
      assert s + "" == s;
    }
  }

  // ---- printing -----------------------------------------------------------------------

  function DigitChar(d: nat): (c: char)
    requires d < 10
    ensures IsDigit(c) && DigitValue(c) == d
  {
    ('0' as int + d) as char
  }

  function NatText(n: nat): (s: string)
    ensures s != [] && AllDigits(s) && NatValue(s) == n
    decreases n
  {
    if n < 10 then
      assert [DigitChar(n)][..0] == [];
      [DigitChar(n)]
    else
      var s := NatText(n / 10) + [DigitChar(n % 10)];
      assert s[..|s| - 1] == NatText(n / 10);
      s
  }

  /** printf's "%d". */
  function Decimal(v: int): string {
    if v < 0 then "-" + NatText(-v) else NatText(v)
  }

  function Pow10(k: nat): nat { if k == 0 then 1 else 10 * Pow10(k - 1) }

  lemma {:induction false} NatTextLength(n: nat, k: nat)
    requires n < Pow10(k) && k > 0
    ensures |NatText(n)| <= k
    decreases k
  {
    if n >= 10 {
      NatTextLength(n / 10, k - 1);
    }
  }

  /** Every 32-bit decimal fits the eleven characters fdstr has room for. */
  lemma DecimalFits(v: int)
    requires IsInt32(v)
    ensures 1 <= |Decimal(v)| <= 11
  {
    assert Pow10(10) == 100 * (100 * (100 * (100 * (100 * Pow10(0)))));
    NatTextLength(if v < 0 then -v else v, 10);
  }

  lemma DecimalScans(v: int, rest: string)
    requires rest != [] ==> !IsDigit(rest[0])
    ensures ScanInteger(Decimal(v) + rest) == Scan(v < 0, NatText(if v < 0 then -v else v), rest)
  {
    var digits := NatText(if v < 0 then -v else v);
    var sign := if v < 0 then "-" else "";
    assert Decimal(v) == "" + sign + digits;
    ScanOfSpelled(Decimal(v), "", sign, digits, rest);
  }

  /** Parsing inverts printing for every 32-bit integer, and refuses the text of every other integer. */
  lemma ParseInvertsDecimal(v: int)
    ensures ParseInt(Decimal(v)) == if IsInt32(v) then Some(v) else None
  {
    DecimalScans(v, "");
    assert Decimal(v) + "" == Decimal(v);
  }

  /** Anything but a digit after the digits makes the parse fail. */
  lemma TrailingGarbageIsRefused(v: int, c: char, tail: string)
    requires !IsDigit(c)
    ensures ParseInt(Decimal(v) + ([c] + tail)) == None
  {
    DecimalScans(v, [c] + tail);
  }

  // ---- fdstr ------------------------------------------------------------------------------

  /** snprintf(buf, sizeof buf, "%d", v): at most size - 1 characters, then a NUL. */
  method PrintInto(buf: array<char>, v: int)
    requires buf.Length > 0
    modifies buf
    ensures var d := Decimal(v);
            var n := if |d| < buf.Length then |d| else buf.Length - 1;
            buf[..n] == d[..n] && buf[n] == '\0'
  {
    var d := Decimal(v);
    var i := 0;
    while i < |d| && i < buf.Length - 1
      invariant i <= |d| && i <= buf.Length - 1 && buf[..i] == d[..i]
    {
      buf[i] := d[i];
      i := i + 1;
    }
    buf[i] := '\0';
  }

  /** The C string held by a buffer. */
  function CString(buf: seq<char>): (s: string)
    ensures |s| <= |buf| && s == buf[..|s|]
  {
    if buf == [] || buf[0] == '\0' then [] else [buf[0]] + CString(buf[1..])
  }

  lemma {:induction false} CStringOf(text: string, tail: seq<char>)
    requires forall i :: 0 <= i < |text| ==> text[i] != '\0'
    ensures CString(text + ['\0'] + tail) == text
  {
    var b := text + ['\0'] + tail;
    if text != [] {
      assert b[1..] == text[1..] + ['\0'] + tail;
      CStringOf(text[1..], tail);
    }
  }

  /** fdstr_update_str1: the descriptor's text always fits str1 whole, so a child parses the same descriptor back. */
  method UpdateStr1(str1: array<char>, fd: int)
    requires str1.Length == 12 && IsInt32(fd)
    modifies str1
    ensures CString(str1[..]) == Decimal(fd)
    ensures ParseInt(CString(str1[..])) == Some(fd)
  {
    PrintInto(str1, fd);
    DecimalFits(fd);
    ghost var d := Decimal(fd);
    assert str1[..] == d + ['\0'] + str1[|d| + 1..];
    CStringOf(d, str1[|d| + 1..]);
    ParseInvertsDecimal(fd);
  }
}
