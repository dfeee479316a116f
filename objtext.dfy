/** The JavaScript string operations the OBJ reader of pompiliu_test.js
    relies on: `trim`, `split` on a character, `split(/\s+/)` and `Number`
    on a string.  Strings are sequences of Unicode code points. */
module ObjText {

  /** The characters `trim` removes and `\s` matches: WhiteSpace and
      LineTerminator of ECMAScript (section 12.2 and 12.3 of ECMA-262). */
  predicate IsSpace(c: char)
  {
    var n := c as int;
    n == 0x09 || n == 0x0A || n == 0x0B || n == 0x0C || n == 0x0D || n == 0x20
    || n == 0xA0 || n == 0x1680 || (0x2000 <= n <= 0x200A) || n == 0x2028 || n == 0x2029
    || n == 0x202F || n == 0x205F || n == 0x3000 || n == 0xFEFF
  }

  predicate NoSpace(s: string)
  {
    forall k :: 0 <= k < |s| ==> !IsSpace(s[k])
  }

  // ----- trim -----

  /** The leading whitespace removed. */
  function TrimStart(s: string): (r: string)
    ensures |r| <= |s| && r == s[|s| - |r|..]
    ensures forall k :: 0 <= k < |s| - |r| ==> IsSpace(s[k])
    ensures r == [] || !IsSpace(r[0])
  {
    if s != [] && IsSpace(s[0]) then TrimStart(s[1..]) else s
  }

  /** The trailing whitespace removed. */
  function TrimEnd(s: string): (r: string)
    ensures |r| <= |s| && r == s[..|r|]
    ensures forall k :: |r| <= k < |s| ==> IsSpace(s[k])
    ensures r == [] || !IsSpace(r[|r| - 1])
  {
    if s != [] && IsSpace(s[|s| - 1]) then TrimEnd(s[..|s| - 1]) else s
  }

  /** `s.trim()`: the slice of s between its leading and its trailing
      whitespace, which begins and ends with a character that is not
      whitespace. */
  function Trim(s: string): (r: string)
    ensures r == [] || (!IsSpace(r[0]) && !IsSpace(r[|r| - 1]))
  {
    TrimEnd(TrimStart(s))
  }

  /** trim removes whitespace only: a string without whitespace at either end
      is its own trim, so trim is idempotent. */
  lemma TrimKeeps(s: string)
    requires s == [] || (!IsSpace(s[0]) && !IsSpace(s[|s| - 1]))
    ensures Trim(s) == s
  {
  }

  lemma TrimIdempotent(s: string)
    ensures Trim(Trim(s)) == Trim(s)
  {
    TrimKeeps(Trim(s));
  }

  /** trim keeps the characters between the first and the last one that is
      not whitespace. */
  lemma TrimBetween(a: string, m: string, b: string)
    requires forall k :: 0 <= k < |a| ==> IsSpace(a[k])
    requires forall k :: 0 <= k < |b| ==> IsSpace(b[k])
    requires m == [] || (!IsSpace(m[0]) && !IsSpace(m[|m| - 1]))
    requires m != [] || b == []
    ensures Trim(a + m + b) == m
  {
    assert a + m + b == a + (m + b);
    TrimStartSkips(a, m + b);
    TrimEndSkips(m, b);
  }

  lemma {:induction false} TrimStartSkips(a: string, x: string)
    requires forall k :: 0 <= k < |a| ==> IsSpace(a[k])
    requires x == [] || !IsSpace(x[0])
    ensures TrimStart(a + x) == x
    decreases |a|
  {
    if a != [] {
      assert (a + x)[1..] == a[1..] + x;
      TrimStartSkips(a[1..], x);
    }
  }

  lemma {:induction false} TrimEndSkips(x: string, b: string)
    requires forall k :: 0 <= k < |b| ==> IsSpace(b[k])
    requires x == [] || !IsSpace(x[|x| - 1])
    requires x != [] || b == []
    ensures TrimEnd(x + b) == x
    decreases |b|
  {
    if b != [] {
      var s := x + b;
      assert s[..|s| - 1] == x + b[..|b| - 1];
      TrimEndSkips(x, b[..|b| - 1]);
    }
  }

  // ----- split on a character -----

  /** `s.split(sep)` for a one-character separator: the pieces between the
      occurrences of sep, one more piece than there are separators. */
  function Split(s: string, sep: char): (r: seq<string>)
    ensures |r| >= 1
    ensures forall i :: 0 <= i < |r| ==> sep !in r[i]
    decreases |s|
  {
    if s == [] then [[]]
    else if s[0] == sep then [[]] + Split(s[1..], sep)
    else var r := Split(s[1..], sep); [[s[0]] + r[0]] + r[1..]
  }

  /** `parts.join(sep)` */
  function Join(parts: seq<string>, sep: char): string
    requires |parts| >= 1
  {
    if |parts| == 1 then parts[0] else parts[0] + [sep] + Join(parts[1..], sep)
  }

  /** Joining the pieces of a split gives the string back. */
  lemma {:induction false} JoinSplit(s: string, sep: char)
    ensures Join(Split(s, sep), sep) == s
    decreases |s|
  {
    if s != [] {
      JoinSplit(s[1..], sep);
      var r := Split(s[1..], sep);
      if s[0] != sep {
        var q := [[s[0]] + r[0]] + r[1..];
        if |r| > 1 {
          assert q[1..] == r[1..];
          assert Join(r, sep) == r[0] + [sep] + Join(r[1..], sep);
        }
      }
    }
  }

  /** Splitting a join of pieces without the separator gives the pieces back. */
  lemma {:induction false} SplitJoin(parts: seq<string>, sep: char)
    requires |parts| >= 1 && forall i :: 0 <= i < |parts| ==> sep !in parts[i]
    ensures Split(Join(parts, sep), sep) == parts
    decreases |parts|
  {
    if |parts| == 1 {
      SplitPlain(parts[0], sep);
    } else {
      SplitJoin(parts[1..], sep);
      SplitPrefix(parts[0], Join(parts[1..], sep), sep);
      assert [parts[0]] + parts[1..] == parts;
    }
  }

  /** A string without the separator is its own only piece. */
  lemma {:induction false} SplitPlain(p: string, sep: char)
    requires sep !in p
    ensures Split(p, sep) == [p]
    decreases |p|
  {
    if p != [] {
      SplitPlain(p[1..], sep);
      assert [p[0]] + p[1..] == p;
    }
  }

  /** The first piece ends at the first separator. */
  lemma {:induction false} SplitPrefix(p: string, rest: string, sep: char)
    requires sep !in p
    ensures Split(p + [sep] + rest, sep) == [p] + Split(rest, sep)
    decreases |p|
  {
    var s := p + [sep] + rest;
    if p == [] {
      assert s[1..] == rest;
    } else {
      assert s[1..] == p[1..] + [sep] + rest;
      SplitPrefix(p[1..], rest, sep);
      assert [p[0]] + p[1..] == p;
    }
  }

  // ----- split on whitespace runs -----

  /** `s.split(/\s+/)`: the pieces between the maximal runs of whitespace.
      A run at the start gives an empty first piece and a run at the end an
      empty last piece; the empty string gives one empty piece. */
  function Words(s: string): (r: seq<string>)
    ensures |r| >= 1
    ensures forall i :: 0 <= i < |r| ==> NoSpace(r[i])
    decreases |s|
  {
    if s == [] then [[]]
    else if IsSpace(s[0]) then [[]] + Words(TrimStart(s[1..]))
    else var r := Words(s[1..]); [[s[0]] + r[0]] + r[1..]
  }

  /** On a line that begins with a keyword and whitespace, the first piece is
      the keyword and the other pieces are those of the rest of the line. */
  lemma {:induction false} WordsAfterKeyword(kw: string, c: char, rest: string)
    requires kw != [] && NoSpace(kw) && IsSpace(c)
    ensures Words(kw + [c] + rest) == [kw] + Words(TrimStart(rest))
    decreases |kw|
  {
    var s := kw + [c] + rest;
    var w := Words(TrimStart(rest));
    assert s[0] == kw[0] && !IsSpace(s[0]);
    var t := s[1..];
    if |kw| == 1 {
      assert t == [c] + rest;
      WordsAtSpace(c, rest);
      assert kw[1..] == [];
    } else {
      assert t == kw[1..] + [c] + rest;
      WordsAfterKeyword(kw[1..], c, rest);
    }
    assert Words(t) == [kw[1..]] + w;
    WordsAtLetter(s, kw, w);
  }

  /** A leading whitespace character closes an empty first piece. */
  lemma WordsAtSpace(c: char, rest: string)
    requires IsSpace(c)
    ensures Words([c] + rest) == [[]] + Words(TrimStart(rest))
  {
    assert ([c] + rest)[1..] == rest;
  }

  /** A leading non-space character joins the first piece of the rest. */
  lemma WordsAtLetter(s: string, kw: string, w: seq<string>)
    requires s != [] && kw != [] && s[0] == kw[0] && !IsSpace(s[0])
    requires Words(s[1..]) == [kw[1..]] + w
    ensures Words(s) == [kw] + w
  {
    assert [kw[0]] + kw[1..] == kw;
  }

  /** A string with no whitespace at either end splits into non-empty pieces. */
  lemma {:induction false} WordsOfTrimmed(s: string)
    requires s != [] && !IsSpace(s[0]) && !IsSpace(s[|s| - 1])
    ensures forall i :: 0 <= i < |Words(s)| ==> Words(s)[i] != []
    decreases |s|
  {
    if |s| > 1 {
      var t := s[1..];
      if IsSpace(t[0]) {
        var u := TrimStart(t[1..]);
        assert u != [] && u[|u| - 1] == s[|s| - 1];
        WordsOfTrimmed(u);
        assert Words(t) == [[]] + Words(u);
      } else {
        WordsOfTrimmed(t);
      }
    }
  }

  // ----- Number(string) -----

  /** The result of `Number` on a string, or of subtracting 1 from it, as far
      as the index arithmetic of the unpacker tells numbers apart: a whole
      number, a whole number and a half (whole + 1/2), another number that is
      not whole, or NaN. */
  datatype Num = Int(value: int) | Half(whole: int) | Fraction | NaN

  predicate IsDigit(c: char)
  {
    '0' <= c <= '9'
  }

  predicate IsDigits(s: string)
  {
    forall k :: 0 <= k < |s| ==> IsDigit(s[k])
  }

  predicate IsZeros(s: string)
  {
    forall k :: 0 <= k < |s| ==> s[k] == '0'
  }

  /** The value of a string of decimal digits. */
  function DigitsValue(s: string): nat
    requires IsDigits(s)
  {
    if s == [] then 0
    else DigitsValue(s[..|s| - 1]) * 10 + (s[|s| - 1] as int - '0' as int)
  }

  /** The number whole.f, for the digits f after a decimal point. */
  function Decimal(whole: nat, f: string): Num
  {
    if IsZeros(f) then Int(whole)
    else if f[0] == '5' && IsZeros(f[1..]) then Half(whole)
    else Fraction
  }

  /** Reads t after the digits `seen`: more digits, then an optional decimal
      point followed by digits only, with at least one digit in all. */
  function Scan(seen: string, t: string): Num
    requires IsDigits(seen)
    decreases |t|
  {
    if t == [] then (if seen != [] then Int(DigitsValue(seen)) else NaN)
    else if IsDigit(t[0]) then Scan(seen + [t[0]], t[1..])
    else if t[0] == '.' && IsDigits(t[1..]) && (seen != [] || |t| > 1) then Decimal(DigitsValue(seen), t[1..])
    else NaN
  }

  /** `Number` on a spelling without sign or surrounding whitespace: one or
      more digits, or digits around one decimal point with at least one
      digit on either side.  Every other spelling is NaN here, including the
      exponent, radix-prefix and Infinity spellings `Number` would read. */
  function Unsigned(t: string): Num
  {
    Scan([], t)
  }

  /** Unary minus: -(w + 1/2) is (-w - 1) + 1/2. */
  function Negate(x: Num): Num
  {
    match x
    case Int(v) => Int(-v)
    case Half(w) => Half(-w - 1)
    case Fraction => Fraction
    case NaN => NaN
  }

  /** `Number(s)` for the decimal spellings: surrounding whitespace is
      ignored, an empty string is 0, and an optional sign is followed by an
      unsigned decimal. */
  function ToNumber(s: string): Num
  {
    var t := Trim(s);
    if t == [] then Int(0)
    else if t[0] == '-' then Negate(Unsigned(t[1..]))
    else if t[0] == '+' then Unsigned(t[1..])
    else Unsigned(t)
  }

  /** The exact value of the digits after a decimal point: 0.f */
  ghost function FractionValue(f: string): real
    requires IsDigits(f)
  {
    if f == [] then 0.0 else ((f[0] as int - '0' as int) as real + FractionValue(f[1..])) / 10.0
  }

  /** Decimal tells apart exactly what the fraction's value does: no
      fraction at all, exactly one half, or anything else. */
  lemma {:induction false} DecimalMeaning(whole: nat, f: string)
    requires IsDigits(f)
    ensures Decimal(whole, f) == Int(whole) <==> FractionValue(f) == 0.0
    ensures Decimal(whole, f) == Half(whole) <==> FractionValue(f) == 0.5
    ensures Decimal(whole, f) == Fraction <==> (FractionValue(f) != 0.0 && FractionValue(f) != 0.5)
  {
    FractionBounds(f);
    FractionZero(f);
    if f != [] {
      FractionBounds(f[1..]);
      FractionZero(f[1..]);
    }
  }

  lemma {:induction false} FractionBounds(f: string)
    requires IsDigits(f)
    ensures 0.0 <= FractionValue(f) < 1.0
    decreases |f|
  {
    if f != [] {
      FractionBounds(f[1..]);
    }
  }

  lemma {:induction false} FractionZero(f: string)
    requires IsDigits(f)
    ensures FractionValue(f) == 0.0 <==> IsZeros(f)
    decreases |f|
  {
    if f != [] {
      FractionBounds(f[1..]);
      FractionZero(f[1..]);
    }
  }

  /** The decimal spelling of n, as an OBJ file writes an index. */
  function NatText(n: nat): (r: string)
    ensures r != [] && IsDigits(r)
  {
    if n < 10 then [('0' as int + n) as char]
    else NatText(n / 10) + [('0' as int + n % 10) as char]
  }

  lemma {:induction false} NatTextValue(n: nat)
    ensures DigitsValue(NatText(n)) == n
  {
    var r := NatText(n);
    if n >= 10 {
      NatTextValue(n / 10);
      assert r[..|r| - 1] == NatText(n / 10);
    } else {
      assert r[..|r| - 1] == [];
    }
  }

  /** Number reads back the decimal spelling of every natural number, with or
      without a minus sign. */
  lemma NumberOfText(n: nat)
    ensures ToNumber(NatText(n)) == Int(n)
    ensures ToNumber(['-'] + NatText(n)) == Int(-(n as int))
  {
    NatTextValue(n);
    DigitsNumber(NatText(n));
  }

  lemma {:induction false} DigitsNumber(t: string)
    requires t != [] && IsDigits(t)
    ensures ToNumber(t) == Int(DigitsValue(t))
    ensures ToNumber(['-'] + t) == Int(-(DigitsValue(t) as int))
  {
    UnsignedDigits(t);
    TrimmedNumber(t);
    var m := ['-'] + t;
    assert m[1..] == t;
    TrimmedNumber(m);
  }

  lemma {:induction false} UnsignedDigits(t: string)
    requires t != [] && IsDigits(t)
    ensures Unsigned(t) == Int(DigitsValue(t))
  {
    ScanRun([], t, []);
    assert [] + t == t && t + [] == t;
  }

  /** Number reads n.f as the decimal whole.f with whole = n: with only zeros
      after the point that is n itself, as "1.0" is 1. */
  lemma {:induction false} NumberOfDecimal(n: nat, f: string)
    requires IsDigits(f)
    ensures ToNumber(NatText(n) + ['.'] + f) == Decimal(n, f)
    ensures IsZeros(f) ==> ToNumber(NatText(n) + ['.'] + f) == Int(n)
  {
    var r := NatText(n);
    var t := r + ['.'] + f;
    NatTextValue(n);
    assert t[0] == r[0] && !IsSpace(t[0]);
    assert !IsSpace(t[|t| - 1]) by {
      assert t[|t| - 1] == '.' || t[|t| - 1] == f[|f| - 1];
    }
    TrimmedNumber(t);
    DecimalParts(r, f);
  }

  /** A spelling with no whitespace at either end is read as it stands. */
  lemma {:induction false} TrimmedNumber(t: string)
    requires t != [] && !IsSpace(t[0]) && !IsSpace(t[|t| - 1])
    ensures ToNumber(t) == if t[0] == '-' then Negate(Unsigned(t[1..]))
                           else if t[0] == '+' then Unsigned(t[1..])
                           else Unsigned(t)
  {
    TrimKeeps(t);
  }

  /** Digits, a point and digits read as a decimal. */
  lemma {:induction false} DecimalParts(a: string, f: string)
    requires a != [] && IsDigits(a) && IsDigits(f)
    ensures Unsigned(a + ['.'] + f) == Decimal(DigitsValue(a), f)
  {
    ScanRun([], a, ['.'] + f);
    assert a + ['.'] + f == a + (['.'] + f) && [] + a == a;
    assert (['.'] + f)[1..] == f;
  }

  /** The scanner passes over a run of digits, collecting them. */
  lemma {:induction false} ScanRun(seen: string, a: string, rest: string)
    requires IsDigits(seen) && IsDigits(a)
    ensures IsDigits(seen + a) && Scan(seen, a + rest) == Scan(seen + a, rest)
    decreases |a|
  {
    if a == [] {
      assert seen + a == seen && a + rest == rest;
    } else {
      assert (a + rest)[0] == a[0] && (a + rest)[1..] == a[1..] + rest;
      assert seen + [a[0]] + a[1..] == seen + a;
      ScanRun(seen + [a[0]], a[1..], rest);
    }
  }

  lemma {:induction false} DigitsHaveNo(s: string, c: char)
    requires IsDigits(s) && !IsDigit(c)
    ensures c !in s
  {
  }
}
