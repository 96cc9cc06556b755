/** String helpers with Python's semantics for the few `str` methods the
    reconciliation pipeline uses. Strings are sequences of Unicode scalar values. */
module Text {

  import opened Wrappers

  /** Python's `str.isspace()`: the characters `str.strip()` removes. */
  predicate IsSpace(c: char) {
    || ('\t' <= c <= '\r')
    || ('\U{1C}' <= c <= '\U{1F}')
    || c == ' ' || c == '\U{85}' || c == '\U{A0}' || c == '\U{1680}'
    || ('\U{2000}' <= c <= '\U{200A}')
    || c == '\U{2028}' || c == '\U{2029}' || c == '\U{202F}' || c == '\U{205F}' || c == '\U{3000}'
  }

  function TrimLeft(s: string): (r: string)
    ensures |r| <= |s| && r == s[|s| - |r|..]
    ensures r == [] || !IsSpace(r[0])
    ensures forall i :: 0 <= i < |s| - |r| ==> IsSpace(s[i])
  {
    if |s| > 0 && IsSpace(s[0]) then TrimLeft(s[1..]) else s
  }

  function TrimRight(s: string): (r: string)
    ensures |r| <= |s| && r == s[..|r|]
    ensures r == [] || !IsSpace(r[|r| - 1])
    ensures forall i :: |r| <= i < |s| ==> IsSpace(s[i])
  {
    if |s| > 0 && IsSpace(s[|s| - 1]) then TrimRight(s[..|s| - 1]) else s
  }

  /** Python's `str.strip()` with no argument. */
  function Strip(s: string): (r: string)
    ensures |r| <= |s|
    ensures r == [] || (!IsSpace(r[0]) && !IsSpace(r[|r| - 1]))
    ensures s == [] || (!IsSpace(s[0]) && !IsSpace(s[|s| - 1])) ==> r == s
    ensures forall x :: x in r ==> x in s
  {
    var l := TrimLeft(s);
    var r := TrimRight(l);
    forall x | x in r ensures x in s {
      var i :| 0 <= i < |r| && r[i] == x;
      assert l[i] == x;
      assert s[|s| - |l| + i] == x;
    }
    r
  }

  function LowerChar(c: char): char {
    if 'A' <= c <= 'Z' then (c as int + 32) as char else c
  }

  /** `str.lower()` restricted to ASCII letters. */
  function Lower(s: string): (r: string)
    ensures |r| == |s|
    ensures forall i :: 0 <= i < |s| ==> r[i] == LowerChar(s[i])
  {
    if s == [] then [] else [LowerChar(s[0])] + Lower(s[1..])
  }

  /** `s.replace(c, rep)` for a one-character pattern. */
  function Replace(s: string, c: char, rep: string): (r: string)
    ensures c !in rep ==> c !in r
    ensures forall x :: x in r ==> x in s || x in rep
    ensures forall x :: x != c && x in s ==> x in r
  {
    if s == [] then []
    else (if s[0] == c then rep else [s[0]]) + Replace(s[1..], c, rep)
  }

  lemma {:induction false} NoOccurrenceReplace(s: string, c: char, rep: string)
    requires c !in s
    ensures Replace(s, c, rep) == s
  {
    if s != [] {
      NoOccurrenceReplace(s[1..], c, rep);
      assert [s[0]] + s[1..] == s;
    }
  }

  lemma {:induction false} ReplaceAppend(a: string, b: string, c: char, rep: string)
    ensures Replace(a + b, c, rep) == Replace(a, c, rep) + Replace(b, c, rep)
  {
    if a != [] {
      assert (a + b)[1..] == a[1..] + b;
      ReplaceAppend(a[1..], b, c, rep);
    } else {
      assert a + b == b;
    }
  }

  /** `s.replace("  ", " ")`: one left-to-right pass over non-overlapping pairs. */
  function CollapsePairs(s: string): (r: string)
    ensures |r| <= |s|
    ensures forall x :: x in r ==> x in s
  {
    if |s| >= 2 && s[0] == ' ' && s[1] == ' ' then [' '] + CollapsePairs(s[2..])
    else if s == [] then []
    else [s[0]] + CollapsePairs(s[1..])
  }

  /** `s.split(c)`: the maximal runs between occurrences of `c`. */
  function Split(s: string, c: char): (parts: seq<string>)
    ensures |parts| >= 1
    ensures forall i :: 0 <= i < |parts| ==> c !in parts[i]
  {
    if s == [] then [[]]
    else if s[0] == c then [[]] + Split(s[1..], c)
    else
      var rest := Split(s[1..], c);
      [[s[0]] + rest[0]] + rest[1..]
  }

  function Count(s: string, c: char): nat {
    if s == [] then 0 else (if s[0] == c then 1 else 0) + Count(s[1..], c)
  }

  function Join(parts: seq<string>, c: char): string
    requires |parts| >= 1
  {
    if |parts| == 1 then parts[0] else parts[0] + [c] + Join(parts[1..], c)
  }

  function Spaces(n: nat): (r: string)
    ensures |r| == n && forall i :: 0 <= i < n ==> r[i] == ' '
  {
    if n == 0 then [] else [' '] + Spaces(n - 1)
  }

  /** Splitting yields one more part than there are separators. */
  lemma {:induction false} SplitCount(s: string, c: char)
    ensures |Split(s, c)| == Count(s, c) + 1
  {
    if s != [] {
      SplitCount(s[1..], c);
    }
  }

  /** A separator that occurs splits the string into at least two parts. */
  lemma SplitHasSeparator(s: string, c: char)
    ensures c in s <==> |Split(s, c)| >= 2
  {
    SplitCount(s, c);
    CountPositive(s, c);
  }

  lemma {:induction false} CountPositive(s: string, c: char)
    ensures c in s <==> Count(s, c) > 0
  {
    if s != [] {
      CountPositive(s[1..], c);
    }
  }

  /** Splitting loses nothing: joining the parts back gives the string. */
  lemma {:induction false} SplitJoin(s: string, c: char)
    ensures Join(Split(s, c), c) == s
  {
    if s != [] {
      SplitJoin(s[1..], c);
      var rest := Split(s[1..], c);
      if s[0] != c && |rest| > 1 {
        assert ([s[0]] + rest[0]) + [c] + Join(rest[1..], c) == [s[0]] + (rest[0] + [c] + Join(rest[1..], c));
      }
    }
  }

  /** Lowering letters commutes with turning dots into spaces. */
  lemma {:induction false} LowerReplaceCommute(s: string)
    ensures Lower(Replace(s, '.', " ")) == Replace(Lower(s), '.', " ")
  {
    if s != [] {
      LowerReplaceCommute(s[1..]);
      assert Lower(s)[1..] == Lower(s[1..]);
      LowerAppend((if s[0] == '.' then " " else [s[0]]), Replace(s[1..], '.', " "));
    }
  }

  lemma LowerAppend(a: string, b: string)
    ensures Lower(a + b) == Lower(a) + Lower(b)
  {
  }

  /** Lowering is idempotent. */
  lemma LowerIdempotent(s: string)
    ensures Lower(Lower(s)) == Lower(s)
  {
  }

  /** A run of `n` spaces becomes a run of `ceil(n / 2)` spaces. */
  lemma {:induction false} CollapseSpaces(n: nat)
    ensures CollapsePairs(Spaces(n)) == Spaces((n + 1) / 2)
  {
    if n >= 2 {
      assert Spaces(n)[2..] == Spaces(n - 2);
      CollapseSpaces(n - 2);
    } else if n == 1 {
      assert Spaces(1)[1..] == [];
    }
  }

  /** The pass restarts cleanly after a character that is not a space. */
  lemma {:induction false} CollapseAppend(a: string, b: string)
    requires a == [] || a[|a| - 1] != ' '
    ensures CollapsePairs(a + b) == CollapsePairs(a) + CollapsePairs(b)
  {
    if a != [] {
      if |a| >= 2 && a[0] == ' ' && a[1] == ' ' {
        assert (a + b)[2..] == a[2..] + b;
        CollapseAppend(a[2..], b);
        calc {
          CollapsePairs(a + b);
          [' '] + CollapsePairs(a[2..] + b);
          [' '] + (CollapsePairs(a[2..]) + CollapsePairs(b));
        }
      } else {
        assert (a + b)[1..] == a[1..] + b;
        assert (a + b)[0] == a[0];
        assert |a| == 1 ==> a[0] != ' ';
        CollapseAppend(a[1..], b);
        calc {
          CollapsePairs(a + b);
          [a[0]] + CollapsePairs(a[1..] + b);
          [a[0]] + (CollapsePairs(a[1..]) + CollapsePairs(b));
        }
      }
    } else {
      assert a + b == b;
    }
  }

  /** A pair of spaces after a character that is not a space becomes a single space. */
  lemma DoubleSpaceBecomesOne(a: string, b: string)
    requires a == [] || a[|a| - 1] != ' '
    ensures CollapsePairs(a + "  " + b) == CollapsePairs(a) + " " + CollapsePairs(b)
  {
    var tail := "  " + b;
    assert a + "  " + b == a + tail;
    CollapseAppend(a, tail);
    CollapsePairHead(b);
  }

  lemma CollapsePairHead(b: string)
    ensures CollapsePairs("  " + b) == " " + CollapsePairs(b)
  {
    var s := "  " + b;
    assert s[0] == ' ' && s[1] == ' ' && s[2..] == b;
  }

  /** The pass is not idempotent: four spaces become two, and only then one. */
  lemma CollapseNotIdempotent()
    ensures CollapsePairs("a    b") == "a  b"
    ensures CollapsePairs(CollapsePairs("a    b")) == "a b"
  {
    assert CollapsePairs("b") == "b";
    assert CollapsePairs(" b") == " b";
    assert CollapsePairs("  b") == " b";
    assert CollapsePairs("   b") == "  b";
    assert CollapsePairs("    b") == "  b";
    assert CollapsePairs("a    b") == "a  b";
    assert CollapsePairs("  b") == " b";
    assert CollapsePairs("a  b") == "a b";
  }

  predicate IsDigit(c: char) {
    '0' <= c <= '9'
  }

  predicate AllDigits(s: string) {
    forall i :: 0 <= i < |s| ==> IsDigit(s[i])
  }

  /** The value of a string of decimal digits. */
  function DigitsValue(s: string): (n: nat)
    requires AllDigits(s)
  {
    if s == [] then 0 else DigitsValue(s[..|s| - 1]) * 10 + (s[|s| - 1] as int - '0' as int)
  }

  function DigitChar(n: nat): (c: char)
    requires n < 10
    ensures IsDigit(c) && c as int - '0' as int == n
  {
    ('0' as int + n) as char
  }

  /** `str(n)` for a natural number: its decimal digits without leading zeros. */
  function NatToString(n: nat): (s: string)
    ensures s != [] && AllDigits(s)
    ensures |s| > 1 ==> s[0] != '0'
  {
    if n < 10 then [DigitChar(n)] else NatToString(n / 10) + [DigitChar(n % 10)]
  }

  /** Reading back the decimal digits of `n` gives `n`. */
  lemma {:induction false} NatToStringValue(n: nat)
    ensures DigitsValue(NatToString(n)) == n
  {
    if n >= 10 {
      NatToStringValue(n / 10);
      var s := NatToString(n);
      assert s[..|s| - 1] == NatToString(n / 10);
    }
  }

  function Pow10(k: nat): (p: nat)
    ensures p >= 1
  {
    if k == 0 then 1 else 10 * Pow10(k - 1)
  }

  /** The numeric text `pd.to_numeric` accepts here: an optional sign, then digits
      with at most one decimal point, and at least one digit. */
  function ParseDecimal(s: string): (r: Option<real>)
    ensures r.Some? ==> s != [] && Count(s, '.') <= 1
  {
    var neg := |s| > 0 && s[0] == '-';
    var body := if |s| > 0 && (s[0] == '-' || s[0] == '+') then s[1..] else s;
    var parts := Split(body, '.');
    SplitCount(body, '.');
    assert Count(s, '.') == Count(body, '.');
    var whole := parts[0];
    var frac := if |parts| == 2 then parts[1] else [];
    if |parts| <= 2 && |whole| + |frac| > 0 && AllDigits(whole) && AllDigits(frac) then
      var v := DigitsValue(whole) as real + DigitsValue(frac) as real / Pow10(|frac|) as real;
      Some(if neg then -v else v)
    else None
  }

  lemma SplitNoSeparator(s: string, c: char)
    requires c !in s
    ensures Split(s, c) == [s]
  {
    SplitCount(s, c);
    CountPositive(s, c);
    SplitJoin(s, c);
  }

  /** A string of digits reads as its value. */
  lemma ParseDigits(s: string)
    requires s != [] && AllDigits(s)
    ensures ParseDecimal(s) == Some(DigitsValue(s) as real)
  {
    assert s[0] != '-' && s[0] != '+' by { assert IsDigit(s[0]); }
    assert '.' !in s;
    SplitNoSeparator(s, '.');
  }

  /** `str(n)` reads back as `n`. */
  lemma ParseNatToString(n: nat)
    ensures ParseDecimal(NatToString(n)) == Some(n as real)
  {
    ParseDigits(NatToString(n));
    NatToStringValue(n);
  }

  /** Splitting three separator-free pieces joined by the separator gives them back. */
  lemma SplitThree(a: string, b: string, d: string, c: char)
    requires c !in a && c !in b && c !in d
    ensures Split(a + [c] + b + [c] + d, c) == [a, b, d]
  {
    SplitPrefix(a, b + [c] + d, c);
    assert a + [c] + b + [c] + d == a + [c] + (b + [c] + d);
    SplitPrefix(b, d, c);
    SplitNoSeparator(d, c);
  }

  lemma {:induction false} SplitPrefix(a: string, rest: string, c: char)
    requires c !in a
    ensures Split(a + [c] + rest, c) == [a] + Split(rest, c)
  {
    if a == [] {
      assert ([] + [c] + rest)[1..] == rest;
    } else {
      assert (a + [c] + rest)[1..] == a[1..] + [c] + rest;
      SplitPrefix(a[1..], rest, c);
      assert [a[0]] + a[1..] == a;
    }
  }
}
