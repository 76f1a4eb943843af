/**
 * The string operations of Python that the post-processor's line matching
 * uses (`in`, `startswith`, `endswith`, `find`, slicing, `split`), the
 * `\d+` search of the marker lines, the text of a PA value, and the file-name
 * helper of the script.
 */
module Text {
  import opened Wrappers

  /** `p` occurs in `s` starting at index `i`. */
  predicate OccursAt(s: string, p: string, i: int)
  {
    0 <= i && i + |p| <= |s| && s[i..i + |p|] == p
  }

  /** `s.find(p, i)` for a start `i` inside `s`. */
  function FindFrom(s: string, p: string, i: nat): (r: int)
    requires i <= |s|
    decreases |s| - i
    ensures r == -1 || (i <= r && OccursAt(s, p, r))
    ensures r == -1 ==> forall k :: i <= k ==> !OccursAt(s, p, k)
    ensures r != -1 ==> forall k :: i <= k < r ==> !OccursAt(s, p, k)
  {
    if i + |p| > |s| then -1
    else if s[i..i + |p|] == p then i
    else FindFrom(s, p, i + 1)
  }

  /** `s.find(p)`: the first index where `p` occurs in `s`, or -1. */
  function Find(s: string, p: string): (r: int)
    ensures r == -1 <==> forall k :: !OccursAt(s, p, k)
    ensures r != -1 ==> OccursAt(s, p, r) && forall k :: 0 <= k < r ==> !OccursAt(s, p, k)
  {
    FindFrom(s, p, 0)
  }

  /** `p in s`. */
  predicate Contains(s: string, p: string)
  {
    Find(s, p) >= 0
  }

  /** A text occurs in any text that has it in the middle. */
  lemma ContainsMiddle(a: string, p: string, b: string)
    ensures Contains(a + p + b, p)
  {
    assert (a + p + b)[|a|..|a| + |p|] == p;
    assert OccursAt(a + p + b, p, |a|);
  }

  /** A text that has a character `s` lacks does not occur in `s`. */
  lemma AbsentChar(s: string, p: string, c: char)
    requires c in p && c !in s
    ensures !Contains(s, p)
  {
    var i :| 0 <= i < |p| && p[i] == c;
    forall k ensures !OccursAt(s, p, k) {
      if 0 <= k && k + |p| <= |s| {
        assert s[k + i] in s;
        assert s[k..k + |p|][i] == s[k + i] != p[i];
      }
    }
  }

  /** `s.startswith(p)`. */
  predicate StartsWith(s: string, p: string)
  {
    |p| <= |s| && s[..|p|] == p
  }

  /** `s.endswith(p)`. */
  predicate EndsWith(s: string, p: string)
  {
    |p| <= |s| && s[|s| - |p|..] == p
  }

  /** How Python turns a slice bound `i` into a position of a string of length `n`. */
  function SliceBound(i: int, n: nat): (r: nat)
    ensures r <= n
  {
    if i < 0 then (if i + n < 0 then 0 else i + n)
    else if i > n then n
    else i
  }

  /** `s[a:b]`, with negative bounds counted from the end and empty when they cross. */
  function Slice(s: string, a: int, b: int): (r: string)
    ensures |r| <= |s|
  {
    var lo, hi := SliceBound(a, |s|), SliceBound(b, |s|);
    if lo < hi then s[lo..hi] else ""
  }

  /** `s.split(' ')[0]`: the text before the first space. */
  function BeforeSpace(s: string): (r: string)
    ensures |r| <= |s| && r == s[..|r|]
    ensures forall k :: 0 <= k < |r| ==> r[k] != ' '
    ensures r == s || s[|r|] == ' '
  {
    var k := Find(s, " ");
    SpaceAt(s);
    if k < 0 then s else s[..k]
  }

  lemma SpaceAt(s: string)
    ensures forall j :: 0 <= j < |s| ==> (OccursAt(s, " ", j) <==> s[j] == ' ')
  {
    forall j | 0 <= j < |s|
      ensures OccursAt(s, " ", j) <==> s[j] == ' '
    {
      assert s[j..j + 1] == [s[j]];
    }
  }

  /** The characters that `str.split()` with no argument treats as whitespace. */
  predicate IsSpace(c: char)
  {
    c == ' ' || ('\t' <= c <= '\r') || ('\U{1C}' <= c <= '\U{1F}')
    || c == '\U{85}' || c == '\U{A0}' || c == '\U{1680}' || ('\U{2000}' <= c <= '\U{200A}')
    || c == '\U{2028}' || c == '\U{2029}' || c == '\U{202F}' || c == '\U{205F}' || c == '\U{3000}'
  }

  /** `s` without its trailing whitespace. */
  function TrimEnd(s: string): (r: string)
    ensures |r| <= |s| && r == s[..|r|]
    ensures r == [] || !IsSpace(r[|r| - 1])
    ensures forall k :: |r| <= k < |s| ==> IsSpace(s[k])
  {
    if s != [] && IsSpace(s[|s| - 1]) then TrimEnd(s[..|s| - 1]) else s
  }

  /** The longest suffix of `s` that holds no whitespace. */
  function TailToken(s: string): (r: string)
    ensures |r| <= |s| && r == s[|s| - |r|..]
    ensures forall k :: 0 <= k < |r| ==> !IsSpace(r[k])
    ensures |r| == |s| || IsSpace(s[|s| - |r| - 1])
  {
    if s != [] && !IsSpace(s[|s| - 1]) then TailToken(s[..|s| - 1]) + [s[|s| - 1]] else []
  }

  /** `s.split()[-1]`: the last whitespace-separated word, None where Python raises IndexError. */
  function LastToken(s: string): (r: Option<string>)
    ensures r.None? <==> forall k :: 0 <= k < |s| ==> IsSpace(s[k])
    ensures r.Some? ==> r.value != [] && forall k :: 0 <= k < |r.value| ==> !IsSpace(r.value[k])
  {
    var u := TrimEnd(s);
    var t := TailToken(u);
    TrimmedEmpty(s);
    if t == [] then None else Some(t)
  }

  /** Trimming leaves nothing exactly when every character is whitespace. */
  lemma TrimmedEmpty(s: string)
    ensures TrimEnd(s) == [] <==> forall k :: 0 <= k < |s| ==> IsSpace(s[k])
  {
    var u := TrimEnd(s);
    if u != [] {
      assert s[|u| - 1] == u[|u| - 1];
    }
  }

  predicate IsDigit(c: char)
  {
    '0' <= c <= '9'
  }

  function DigitValue(c: char): (d: nat)
    requires IsDigit(c)
    ensures d < 10
  {
    c as int - '0' as int
  }

  function DigitChar(d: nat): (c: char)
    requires d < 10
    ensures IsDigit(c) && DigitValue(c) == d
  {
    ('0' as int + d) as char
  }

  predicate AllDigits(s: string)
  {
    forall k :: 0 <= k < |s| ==> IsDigit(s[k])
  }

  /** The leading run of digits of `s`. */
  function DigitRun(s: string): (r: string)
    ensures |r| <= |s| && r == s[..|r|] && AllDigits(r)
    ensures |r| == |s| || !IsDigit(s[|r|])
  {
    if s != [] && IsDigit(s[0]) then [s[0]] + DigitRun(s[1..]) else []
  }

  /** The number a string of decimal digits denotes, as `int(ds)` reads it. */
  function DecimalValue(ds: string): nat
    requires AllDigits(ds)
  {
    if ds == [] then 0 else DecimalValue(ds[..|ds| - 1]) * 10 + DigitValue(ds[|ds| - 1])
  }

  /** `int(re.findall(r'\d+', s)[0])`: the first run of digits as a number, None where Python raises IndexError. */
  function FirstNumber(s: string): (r: Option<nat>)
    ensures r.None? <==> forall k :: 0 <= k < |s| ==> !IsDigit(s[k])
  {
    if s == [] then None
    else if IsDigit(s[0]) then Some(DecimalValue(DigitRun(s)))
    else FirstNumber(s[1..])
  }

  /** The decimal digits of `n` without leading zeros, as `str(n)` writes them. */
  function NatText(n: nat): (r: string)
    ensures r != [] && AllDigits(r)
  {
    if n < 10 then [DigitChar(n)] else NatText(n / 10) + [DigitChar(n % 10)]
  }

  /**
   * The fractional digits that `str` writes for `f` thousandths (`f < 1000`): trailing zeros
   * are dropped, but at least one digit is kept.
   */
  function FracText(f: nat): (r: string)
    requires f < 1000
    ensures 1 <= |r| <= 3 && AllDigits(r)
  {
    var d1, d2, d3 := f / 100, (f / 10) % 10, f % 10;
    if d2 == 0 && d3 == 0 then [DigitChar(d1)]
    else if d3 == 0 then [DigitChar(d1), DigitChar(d2)]
    else [DigitChar(d1), DigitChar(d2), DigitChar(d3)]
  }

  /**
   * `str(v)` of a PA value `v` held as `k` thousandths: an optional minus sign, the integer
   * part, a point and the fractional digits (`0.05`, `0.1`, `1.0`, `-0.005`).
   */
  function PaText(k: int): (r: string)
    ensures r != []
  {
    var a: nat := if k < 0 then -k else k;
    (if k < 0 then "-" else "") + UnsignedText(a)
  }

  /** The thousandths that 1 to 3 fractional digits denote. */
  function FracValue(fs: string): nat
    requires 1 <= |fs| <= 3 && AllDigits(fs)
  {
    DecimalValue(fs) * (if |fs| == 1 then 100 else if |fs| == 2 then 10 else 1)
  }

  /** Reads back an unsigned PA value written with at most three fractional digits, in thousandths. */
  function ParseUnsigned(s: string): (r: Option<nat>)
  {
    var ip := DigitRun(s);
    var rest := s[|ip|..];
    if ip == [] || rest == [] || rest[0] != '.' then None
    else
      var fs := rest[1..];
      if 1 <= |fs| <= 3 && AllDigits(fs) then Some(DecimalValue(ip) * 1000 + FracValue(fs)) else None
  }

  /** Reads back a PA value as `PaText` writes it, in thousandths. */
  function ParsePa(s: string): (r: Option<int>)
  {
    if s != [] && s[0] == '-' then
      match ParseUnsigned(s[1..])
      case None => None
      case Some(v) => Some(-(v as int))
    else
      match ParseUnsigned(s)
      case None => None
      case Some(v) => Some(v as int)
  }

  lemma {:induction false} DecimalValueOfNatText(n: nat)
    ensures DecimalValue(NatText(n)) == n
  {
    if n >= 10 {
      var t := NatText(n / 10) + [DigitChar(n % 10)];
      assert t[..|t| - 1] == NatText(n / 10);
      DecimalValueOfNatText(n / 10);
    }
  }

  lemma {:induction false} DigitRunOfDigits(ds: string, t: string)
    requires AllDigits(ds)
    requires t == [] || !IsDigit(t[0])
    ensures DigitRun(ds + t) == ds
  {
    if ds != [] {
      assert (ds + t)[1..] == ds[1..] + t;
      DigitRunOfDigits(ds[1..], t);
    } else {
      assert ds + t == t;
    }
  }

  lemma FracValueOfFracText(f: nat)
    requires f < 1000
    ensures FracValue(FracText(f)) == f
  {
    var d1, d2, d3 := f / 100, (f / 10) % 10, f % 10;
    assert f == 100 * d1 + 10 * d2 + d3;
    var c1, c2, c3 := DigitChar(d1), DigitChar(d2), DigitChar(d3);
    assert DecimalValue([c1]) == d1 by {
      assert [c1][..0] == [];
    }
    assert DecimalValue([c1, c2]) == 10 * d1 + d2 by {
      assert [c1, c2][..1] == [c1];
    }
    assert DecimalValue([c1, c2, c3]) == 100 * d1 + 10 * d2 + d3 by {
      assert [c1, c2, c3][..2] == [c1, c2];
    }
  }

  /** ParseUnsigned takes an integer part, a point and a fractional part back apart. */
  lemma ParseUnsignedParts(ip: string, fs: string)
    requires ip != [] && AllDigits(ip)
    requires 1 <= |fs| <= 3 && AllDigits(fs)
    ensures ParseUnsigned(ip + "." + fs) == Some(DecimalValue(ip) * 1000 + FracValue(fs))
  {
    var t := ['.'] + fs;
    var body := ip + t;
    assert ip + "." + fs == body;
    DigitRunOfDigits(ip, t);
    var rest := body[|DigitRun(body)|..];
    assert rest == t && rest[0] == '.' && rest[1..] == fs;
  }

  /** The unsigned part of a PA text, as `PaText` builds it. */
  function UnsignedText(a: nat): (r: string)
    ensures r != [] && IsDigit(r[0])
  {
    NatText(a / 1000) + "." + FracText(a % 1000)
  }

  lemma UnsignedRoundTrip(a: nat)
    ensures ParseUnsigned(UnsignedText(a)) == Some(a)
  {
    DecimalValueOfNatText(a / 1000);
    FracValueOfFracText(a % 1000);
    ParseUnsignedParts(NatText(a / 1000), FracText(a % 1000));
  }

  /** The PA text is read back as the same number of thousandths: `str` loses nothing. */
  lemma PaTextRoundTrip(k: int)
    ensures ParsePa(PaText(k)) == Some(k)
  {
    var a: nat := if k < 0 then -k else k;
    var body := UnsignedText(a);
    UnsignedRoundTrip(a);
    if k < 0 {
      assert PaText(k) == "-" + body;
      assert ("-" + body)[1..] == body;
    } else {
      assert PaText(k) == body;
    }
  }

  /** `remove_pp_extension`: drops a trailing `.pp` and leaves any other name alone. */
  function RemovePpExtension(filename: string): (r: string)
    ensures EndsWith(filename, ".pp") ==> r + ".pp" == filename
    ensures !EndsWith(filename, ".pp") ==> r == filename
  {
    if EndsWith(filename, ".pp") then filename[..|filename| - 3] else filename
  }
}
