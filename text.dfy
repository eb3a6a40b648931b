/**
 * The handful of Python string operations the label, printer and diagnostic
 * code relies on: `x or default`, slicing `s[:n]`, `in`, `startswith`,
 * `endswith`, `strip`, `upper`/`lower`, `split` on one character, `str(int)`,
 * `int(str)` and the `{n:06d}` format.
 */
module Text {
  import opened Wrappers

  /** Python's `s or fallback` on a string: the empty string is falsy. */
  function OrElse(s: string, fallback: string): (r: string)
    ensures s != "" ==> r == s
    ensures s == "" ==> r == fallback
  {
    if s != "" then s else fallback
  }

  /** Python's slice `s[:n]`: truncates, never pads and never fails. */
  function Take<T>(s: seq<T>, n: nat): (r: seq<T>)
    ensures |r| == if |s| <= n then |s| else n
    ensures r == s[..|r|]
  {
    if |s| <= n then s else s[..n]
  }

  predicate StartsWith<T(==)>(s: seq<T>, prefix: seq<T>)
  {
    |prefix| <= |s| && s[..|prefix|] == prefix
  }

  predicate EndsWith<T(==)>(s: seq<T>, suffix: seq<T>)
  {
    |suffix| <= |s| && s[|s| - |suffix|..] == suffix
  }

  /** `t` occurs in `s` starting at index `i`. */
  predicate OccursAt<T(==)>(s: seq<T>, t: seq<T>, i: nat)
  {
    i + |t| <= |s| && s[i..i + |t|] == t
  }

  /** Python's `t in s` for strings and byte strings. */
  predicate Contains<T(==)>(s: seq<T>, t: seq<T>)
  {
    exists i: nat | i <= |s| :: OccursAt(s, t, i)
  }

  /** A substring of a substring is a substring. */
  lemma ContainsTransitive<T>(s: seq<T>, t: seq<T>, u: seq<T>)
    requires Contains(s, t) && Contains(t, u)
    ensures Contains(s, u)
  {
    var i: nat :| i <= |s| && OccursAt(s, t, i);
    var j: nat :| j <= |t| && OccursAt(t, u, j);
    assert i + |t| <= |s| && s[i..i + |t|] == t;
    assert j + |u| <= |t| && t[j..j + |u|] == u;
    forall k | 0 <= k < |u| ensures s[i + j + k] == u[k] {
      assert u[k] == t[j..j + |u|][k] == t[j + k];
      assert t[j + k] == s[i..i + |t|][j + k];
    }
    assert s[i + j..i + j + |u|] == u;
    assert OccursAt(s, u, i + j);
  }

  /** Whatever starts a string occurs in it. */
  lemma PrefixContained<T>(s: seq<T>, t: seq<T>)
    requires StartsWith(s, t)
    ensures Contains(s, t)
  {
    assert OccursAt(s, t, 0);
  }

  /** A string that does not hold the character `c` contains no string holding `c`. */
  lemma NotContainsWithout<T>(s: seq<T>, t: seq<T>, c: T)
    requires c !in s
    requires c in t
    ensures !Contains(s, t)
  {
    var k :| 0 <= k < |t| && t[k] == c;
    forall i: nat | i <= |s| ensures !OccursAt(s, t, i) {
      if i + |t| <= |s| {
        assert s[i..i + |t|][k] == s[i + k];
        assert s[i + k] in s;
      }
    }
  }

  // ---------------------------------------------------------------------------
  // Whitespace and str.strip()

  /** Python's `str.isspace()` on one character. */
  predicate IsSpace(c: char)
  {
    c == ' ' || ('\t' <= c <= '\r') || ('\U{1c}' <= c <= '\U{1f}') ||
    c == '\U{85}' || c == '\U{a0}' || c == '\U{1680}' ||
    ('\U{2000}' <= c <= '\U{200a}') || c == '\U{2028}' || c == '\U{2029}' ||
    c == '\U{202f}' || c == '\U{205f}' || c == '\U{3000}'
  }

  function TrimStart(s: string): (r: string)
    ensures |r| <= |s| && r == s[|s| - |r|..]
    ensures r == "" || !IsSpace(r[0])
    ensures forall i :: 0 <= i < |s| - |r| ==> IsSpace(s[i])
  {
    if |s| > 0 && IsSpace(s[0]) then TrimStart(s[1..]) else s
  }

  function TrimEnd(s: string): (r: string)
    ensures |r| <= |s| && r == s[..|r|]
    ensures r == "" || !IsSpace(r[|r| - 1])
    ensures forall i :: |r| <= i < |s| ==> IsSpace(s[i])
  {
    if |s| > 0 && IsSpace(s[|s| - 1]) then TrimEnd(s[..|s| - 1]) else s
  }

  /** Python's `str.strip()` with no argument. */
  function Strip(s: string): (r: string)
    ensures |r| <= |s|
    ensures r == "" || (!IsSpace(r[0]) && !IsSpace(r[|r| - 1]))
  {
    TrimEnd(TrimStart(s))
  }

  /** A stripped field is empty exactly when the input was blank. */
  lemma StripEmptyIffBlank(s: string)
    ensures Strip(s) == "" <==> forall i :: 0 <= i < |s| ==> IsSpace(s[i])
  {
    var t := TrimStart(s);
    if Strip(s) == "" {
      assert t == "";
    } else {
      var r := Strip(s);
      assert !IsSpace(r[0]);
      assert r[0] == t[0] == s[|s| - |t|];
    }
  }

  /** Stripping leaves a string alone when neither end is white space. */
  lemma StripUnchanged(s: string)
    requires s != [] ==> !IsSpace(s[0]) && !IsSpace(s[|s| - 1])
    ensures Strip(s) == s
  {
  }

  // ---------------------------------------------------------------------------
  // Case mapping (ASCII letters only)

  function LowerChar(c: char): (r: char)
  {
    if 'A' <= c <= 'Z' then (c as int + 32) as char else c
  }

  function UpperChar(c: char): (r: char)
  {
    if 'a' <= c <= 'z' then (c as int - 32) as char else c
  }

  /** Python's `str.lower()` restricted to ASCII letters. */
  function Lower(s: string): (r: string)
    ensures |r| == |s|
    ensures forall i :: 0 <= i < |s| ==> r[i] == LowerChar(s[i])
  {
    if s == [] then [] else [LowerChar(s[0])] + Lower(s[1..])
  }

  /** Python's `str.upper()` restricted to ASCII letters. */
  function Upper(s: string): (r: string)
    ensures |r| == |s|
    ensures forall i :: 0 <= i < |s| ==> r[i] == UpperChar(s[i])
  {
    if s == [] then [] else [UpperChar(s[0])] + Upper(s[1..])
  }

  /** Upper-casing is idempotent, so comparing upper-cased strings is an equivalence. */
  lemma UpperIdempotent(s: string)
    ensures Upper(Upper(s)) == Upper(s)
  {
  }

  // ---------------------------------------------------------------------------
  // str.split(sep) on a single character and its inverse, sep.join(parts)

  /** Python's `s.split(sep)` for a one-character separator: never an empty list. */
  function Split(s: string, sep: char): (parts: seq<string>)
    ensures |parts| >= 1
    decreases |s|
  {
    if |s| == 0 then [""]
    else
      var rest := Split(s[1..], sep);
      if s[0] == sep then [""] + rest
      else [[s[0]] + rest[0]] + rest[1..]
  }

  /** Python's `sep.join(parts)`. */
  function Join(parts: seq<string>, sep: char): (s: string)
    ensures |parts| == 1 ==> s == parts[0]
    ensures |s| >= |parts| - 1
  {
    if |parts| == 0 then ""
    else if |parts| == 1 then parts[0]
    else parts[0] + [sep] + Join(parts[1..], sep)
  }

  /** No piece that split returns holds the separator. */
  lemma {:induction false} SplitPartsFree(s: string, sep: char)
    ensures forall k :: 0 <= k < |Split(s, sep)| ==> sep !in Split(s, sep)[k]
    decreases |s|
  {
    if |s| > 0 {
      SplitPartsFree(s[1..], sep);
    }
  }

  /** Joining what split returned gives back the original string. */
  lemma {:induction false} JoinSplit(s: string, sep: char)
    ensures Join(Split(s, sep), sep) == s
    decreases |s|
  {
    if |s| > 0 {
      hide Join;
      var rest := Split(s[1..], sep);
      JoinSplit(s[1..], sep);
      if s[0] == sep {
        JoinEmptyFirst(rest, sep);
      } else {
        JoinGrowFirst(s[0], rest, sep);
      }
      assert s == [s[0]] + s[1..];
    }
  }

  /** An empty first piece puts the separator in front of the rest of the join. */
  lemma JoinEmptyFirst(rest: seq<string>, sep: char)
    requires |rest| >= 1
    ensures Join([""] + rest, sep) == [sep] + Join(rest, sep)
  {
    assert ([""] + rest)[1..] == rest;
  }

  /** A character added in front of the first piece is added in front of the join. */
  lemma JoinGrowFirst(c: char, rest: seq<string>, sep: char)
    requires |rest| >= 1
    ensures Join([[c] + rest[0]] + rest[1..], sep) == [c] + Join(rest, sep)
  {
    var parts := [[c] + rest[0]] + rest[1..];
    if |rest| > 1 {
      assert parts[1..] == rest[1..];
      assert Join(parts, sep) == ([c] + rest[0]) + [sep] + Join(rest[1..], sep);
    }
  }

  /** Moving the first character of the first piece out of a join. */
  lemma JoinFirstChar(parts: seq<string>, sep: char)
    requires |parts| >= 1 && parts[0] != ""
    ensures Join(parts, sep) == [parts[0][0]] + Join([parts[0][1..]] + parts[1..], sep)
  {
    var q := [parts[0][1..]] + parts[1..];
    assert q[1..] == parts[1..];
    assert parts[0] == [parts[0][0]] + parts[0][1..];
  }

  /** Splitting a join of separator-free pieces gives back the pieces. */
  lemma {:induction false} SplitJoin(parts: seq<string>, sep: char)
    requires |parts| >= 1
    requires forall k :: 0 <= k < |parts| ==> sep !in parts[k]
    ensures Split(Join(parts, sep), sep) == parts
    decreases |Join(parts, sep)|
  {
    var s := Join(parts, sep);
    if parts[0] == "" {
      if |parts| == 1 {
      } else {
        var tail := parts[1..];
        assert s == [sep] + Join(tail, sep);
        assert s[1..] == Join(tail, sep);
        SplitJoin(tail, sep);
        assert parts == [""] + tail;
      }
    } else {
      var q := [parts[0][1..]] + parts[1..];
      JoinFirstChar(parts, sep);
      assert s == [parts[0][0]] + Join(q, sep);
      assert s[1..] == Join(q, sep);
      assert q[1..] == parts[1..];
      forall k | 0 <= k < |q| ensures sep !in q[k] {
        if k == 0 {
          assert forall c :: c in parts[0][1..] ==> c in parts[0];
        } else {
          assert q[k] == parts[k];
        }
      }
      SplitJoin(q, sep);
      assert parts[0][0] in parts[0];
      assert s[0] == parts[0][0] != sep;
      assert Split(s, sep) == [[parts[0][0]] + q[0]] + q[1..];
      assert [parts[0][0]] + q[0] == parts[0];
      assert parts == [parts[0]] + parts[1..];
    }
  }

  // ---------------------------------------------------------------------------
  // Decimal digits: str(n), int(s) and the {n:06d} format

  predicate IsDigit(c: char)
  {
    '0' <= c <= '9'
  }

  /** Python's `str.isdigit()` on ASCII: non-empty and digits only. */
  predicate IsDigitWord(s: string)
  {
    |s| > 0 && forall i :: 0 <= i < |s| ==> IsDigit(s[i])
  }

  function DigitChar(d: nat): (c: char)
    requires d < 10
    ensures IsDigit(c)
  {
    ('0' as int + d) as char
  }

  function DigitValue(c: char): (d: nat)
    requires IsDigit(c)
    ensures d < 10
  {
    c as int - '0' as int
  }

  /** Value of a string of decimal digits; leading zeros allowed. */
  function DigitsValue(s: string): nat
    requires forall i :: 0 <= i < |s| ==> IsDigit(s[i])
  {
    if s == [] then 0 else DigitsValue(s[..|s| - 1]) * 10 + DigitValue(s[|s| - 1])
  }

  /** Python's `str(n)` for a natural number. */
  function NatToString(n: nat): (s: string)
    ensures IsDigitWord(s)
    ensures |s| > 1 ==> s[0] != '0'
  {
    if n < 10 then [DigitChar(n)] else NatToString(n / 10) + [DigitChar(n % 10)]
  }

  /** Python's `str(n)` for an integer. */
  function IntToString(n: int): (s: string)
    ensures s != ""
  {
    if n < 0 then "-" + NatToString(-n) else NatToString(n)
  }

  /** Reading back a rendered natural number gives the number. */
  lemma {:induction false} NatToStringValue(n: nat)
    ensures DigitsValue(NatToString(n)) == n
  {
    if n >= 10 {
      NatToStringValue(n / 10);
      var s := NatToString(n);
      assert s[..|s| - 1] == NatToString(n / 10);
    }
  }

  /** Leading zeros do not change the value of a digit string. */
  lemma {:induction false} LeadingZerosValue(z: nat, s: string)
    requires forall i :: 0 <= i < |s| ==> IsDigit(s[i])
    ensures forall i :: 0 <= i < |Zeros(z) + s| ==> IsDigit((Zeros(z) + s)[i])
    ensures DigitsValue(Zeros(z) + s) == DigitsValue(s)
    decreases |s|
  {
    var t := Zeros(z) + s;
    assert forall i :: 0 <= i < |t| ==> IsDigit(t[i]) by {
      forall i | 0 <= i < |t| ensures IsDigit(t[i]) {
        if i < z { assert t[i] == Zeros(z)[i]; } else { assert t[i] == s[i - z]; }
      }
    }
    if s == [] {
      assert t == Zeros(z);
      ZerosValue(z);
    } else {
      LeadingZerosValue(z, s[..|s| - 1]);
      assert t[..|t| - 1] == Zeros(z) + s[..|s| - 1];
      assert t[|t| - 1] == s[|s| - 1];
    }
  }

  lemma {:induction false} ZerosValue(z: nat)
    ensures DigitsValue(Zeros(z)) == 0
  {
    if z > 0 {
      ZerosValue(z - 1);
      assert Zeros(z)[..z - 1] == Zeros(z - 1);
    }
  }

  function Zeros(z: nat): (r: string)
    ensures |r| == z && forall i :: 0 <= i < z ==> r[i] == '0'
  {
    if z == 0 then "" else Zeros(z - 1) + "0"
  }

  /** Left-pads a digit string with zeros to at least `width` characters. */
  function ZeroPad(s: string, width: nat): (r: string)
    ensures |r| == if |s| < width then width else |s|
    ensures r == Zeros(|r| - |s|) + s
  {
    if |s| < width then Zeros(width - |s|) + s else s
  }

  /** Python's `f"{n:06d}"`: width six including the sign, zero-filled after it. */
  function Format06d(n: int): (s: string)
    ensures |s| >= 6
  {
    if n < 0 then "-" + ZeroPad(NatToString(-n), 5) else ZeroPad(NatToString(n), 6)
  }

  /** Python's `int(s)` on decimal text: surrounding white space, an optional sign, ASCII digits. */
  function ParseInt(s: string): (r: Option<int>)
    ensures Strip(s) == "" ==> r.None?
  {
    var t := Strip(s);
    if t == "" then None
    else
      var negative := t[0] == '-';
      var body := if t[0] == '-' || t[0] == '+' then t[1..] else t;
      if IsDigitWord(body) then
        Some(if negative then -(DigitsValue(body) as int) else DigitsValue(body) as int)
      else None
  }

  lemma NotSpace(c: char)
    requires IsDigit(c) || c == '-'
    ensures !IsSpace(c)
  {
  }

  /** int() of a plain digit string is its value. */
  lemma ParseDigits(p: string)
    requires IsDigitWord(p)
    ensures ParseInt(p) == Some(DigitsValue(p) as int)
  {
    NotSpace(p[0]);
    NotSpace(p[|p| - 1]);
    StripUnchanged(p);
  }

  /** int() of a minus sign followed by digits is the negated value. */
  lemma ParseNegative(p: string)
    requires IsDigitWord(p)
    ensures ParseInt("-" + p) == Some(-(DigitsValue(p) as int))
  {
    var s := "-" + p;
    NotSpace(s[0]);
    assert s[|s| - 1] == p[|p| - 1];
    NotSpace(s[|s| - 1]);
    StripUnchanged(s);
    assert s[1..] == p;
  }

  /** int(str(n)) == n. */
  lemma IntToStringRoundTrip(n: int)
    ensures ParseInt(IntToString(n)) == Some(n)
  {
    hide ParseInt, Strip, DigitsValue;
    if n < 0 {
      NatToStringValue(-n);
      ParseNegative(NatToString(-n));
    } else {
      NatToStringValue(n);
      ParseDigits(NatToString(n));
    }
  }

  /** A zero-padded rendering of `m` is a digit string worth `m`. */
  lemma PaddedValue(m: nat, width: nat)
    ensures IsDigitWord(ZeroPad(NatToString(m), width))
    ensures DigitsValue(ZeroPad(NatToString(m), width)) == m
  {
    var d := NatToString(m);
    LeadingZerosValue(|ZeroPad(d, width)| - |d|, d);
    NatToStringValue(m);
  }

  /** int(f"{n:06d}") == n: the padded counter can be read back. */
  lemma Format06dRoundTrip(n: int)
    ensures ParseInt(Format06d(n)) == Some(n)
  {
    hide ParseInt, Strip, TrimStart, TrimEnd, NatToString, ZeroPad, Zeros, DigitsValue;
    if n < 0 {
      var p := ZeroPad(NatToString(-n), 5);
      assert DigitsValue(p) as int == -n && IsDigitWord(p) by {
        PaddedValue(-n, 5);
      }
      assert Format06d(n) == "-" + p;
      ParseNegative(p);
    } else {
      var p := ZeroPad(NatToString(n), 6);
      assert DigitsValue(p) as int == n && IsDigitWord(p) by {
        PaddedValue(n, 6);
      }
      assert Format06d(n) == p;
      ParseDigits(p);
    }
  }

  /** Distinct counters render as distinct padded numbers. */
  lemma Format06dInjective(n: int, m: int)
    requires n != m
    ensures Format06d(n) != Format06d(m)
  {
    Format06dRoundTrip(n);
    Format06dRoundTrip(m);
  }
}
