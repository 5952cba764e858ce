/**
 * String helpers shared by the models: ASCII character classes, decimal
 * rendering of integers, substring search, splitting on a separator and
 * joining with one.  Strings are sequences of characters; no encoding is
 * modelled.
 */
module Text {
  import opened Wrappers

  predicate IsDigit(c: char) { '0' <= c <= '9' }
  predicate IsUpper(c: char) { 'A' <= c <= 'Z' }
  predicate IsLower(c: char) { 'a' <= c <= 'z' }

  predicate AllDigits(s: string) { forall i :: 0 <= i < |s| ==> IsDigit(s[i]) }

  /** ASCII upper-casing of one character; every other character is kept. */
  function ToUpper(c: char): (r: char)
    ensures IsLower(c) ==> IsUpper(r) && r as int == c as int - 32
    ensures !IsLower(c) ==> r == c
  {
    if IsLower(c) then (c as int - 32) as char else c
  }

  /** ASCII lower-casing of one character; every other character is kept. */
  function ToLower(c: char): (r: char)
    ensures IsUpper(c) ==> IsLower(r) && r as int == c as int + 32
    ensures !IsUpper(c) ==> r == c
  {
    if IsUpper(c) then (c as int + 32) as char else c
  }

  function Upper(s: string): (r: string)
    ensures |r| == |s|
    ensures forall i :: 0 <= i < |s| ==> r[i] == ToUpper(s[i])
  {
    if |s| == 0 then "" else [ToUpper(s[0])] + Upper(s[1..])
  }

  function Lower(s: string): (r: string)
    ensures |r| == |s|
    ensures forall i :: 0 <= i < |s| ==> r[i] == ToLower(s[i])
  {
    if |s| == 0 then "" else [ToLower(s[0])] + Lower(s[1..])
  }

  function DigitChar(d: nat): (c: char)
    requires d < 10
    ensures IsDigit(c) && c as int - '0' as int == d
  {
    ('0' as int + d) as char
  }

  /** Decimal rendering of a natural number, as Java's `String.valueOf` and PHP's string interpolation write it. */
  function NatToString(n: nat): (s: string)
    ensures |s| > 0 && AllDigits(s)
    ensures n < 10 <==> |s| == 1
    decreases n
  {
    if n < 10 then [DigitChar(n)] else NatToString(n / 10) + [DigitChar(n % 10)]
  }

  /** The value of a string of decimal digits (the empty string has value 0). */
  function DigitsValue(s: string): (n: nat)
    requires AllDigits(s)
    decreases |s|
  {
    if |s| == 0 then 0 else 10 * DigitsValue(s[..|s| - 1]) + (s[|s| - 1] as int - '0' as int)
  }

  lemma {:induction false} DigitsValueOfNatToString(n: nat)
    ensures DigitsValue(NatToString(n)) == n
    decreases n
  {
    if n >= 10 {
      var s := NatToString(n);
      assert s[..|s| - 1] == NatToString(n / 10);
      DigitsValueOfNatToString(n / 10);
    }
  }

  /** Rendering is injective: different numbers give different texts. */
  lemma NatToStringInjective(m: nat, n: nat)
    requires NatToString(m) == NatToString(n)
    ensures m == n
  {
    DigitsValueOfNatToString(m);
    DigitsValueOfNatToString(n);
  }

  /** `t` occurs in `s` starting at index `i`. */
  predicate OccursAt(s: string, t: string, i: nat)
  {
    i + |t| <= |s| && s[i..i + |t|] == t
  }

  predicate Contains(s: string, t: string)
  {
    exists i: nat :: i <= |s| && OccursAt(s, t, i)
  }

  /** The first index at or after `from` where `t` occurs in `s`. */
  function IndexFrom(s: string, t: string, from: nat): (r: Option<nat>)
    ensures r.Some? ==> from <= r.value && r.value + |t| <= |s|
    decreases |s| - from
  {
    if from + |t| > |s| then None
    else if s[from..from + |t|] == t then Some(from)
    else IndexFrom(s, t, from + 1)
  }

  /** IndexFrom finds the first occurrence at or after `from`, and None means there is none. */
  lemma {:induction false} IndexFromSpec(s: string, t: string, from: nat)
    ensures IndexFrom(s, t, from).Some? ==> OccursAt(s, t, IndexFrom(s, t, from).value)
    ensures IndexFrom(s, t, from).Some? ==> forall j: nat :: from <= j < IndexFrom(s, t, from).value ==> !OccursAt(s, t, j)
    ensures IndexFrom(s, t, from).None? ==> forall j: nat :: from <= j ==> !OccursAt(s, t, j)
    decreases |s| - from
  {
    if from + |t| <= |s| && s[from..from + |t|] != t {
      IndexFromSpec(s, t, from + 1);
    }
  }

  function IndexOf(s: string, t: string): (r: Option<nat>)
    ensures r.Some? ==> r.value + |t| <= |s|
  {
    IndexFrom(s, t, 0)
  }

  /** IndexOf finds an occurrence exactly when there is one, and then the first. */
  lemma IndexOfSpec(s: string, t: string)
    ensures IndexOf(s, t).Some? <==> Contains(s, t)
    ensures IndexOf(s, t).Some? ==> OccursAt(s, t, IndexOf(s, t).value)
    ensures IndexOf(s, t).Some? ==> forall j: nat :: j < IndexOf(s, t).value ==> !OccursAt(s, t, j)
  {
    IndexFromSpec(s, t, 0);
  }

  /** Java `String.replaceFirst` / `String.replace` for a literal pattern: the first occurrence of `t` is replaced. */
  function ReplaceFirst(s: string, t: string, r: string): string
  {
    match IndexOf(s, t)
    case None => s
    case Some(i) => s[..i] + r + s[i + |t|..]
  }

  /** Without an occurrence nothing is replaced; otherwise one occurrence is. */
  lemma ReplaceFirstSpec(s: string, t: string, r: string)
    ensures !Contains(s, t) ==> ReplaceFirst(s, t, r) == s
    ensures Contains(s, t) ==> exists i: nat :: OccursAt(s, t, i) && ReplaceFirst(s, t, r) == s[..i] + r + s[i + |t|..]
  {
    IndexOfSpec(s, t);
  }

  /** The occurrence replaced is the first one. */
  lemma ReplaceFirstAt(s: string, t: string, r: string, i: nat)
    requires OccursAt(s, t, i)
    requires forall j: nat :: j < i ==> !OccursAt(s, t, j)
    ensures ReplaceFirst(s, t, r) == s[..i] + r + s[i + |t|..]
  {
    IndexOfSpec(s, t);
    var k := IndexOf(s, t).value;
    assert !(k < i) && !(i < k);
  }

  /** `s` split at every occurrence of `c`, as PHP `explode` and JavaScript `split` do it: never empty. */
  function Split(s: string, c: char): (parts: seq<string>)
    ensures |parts| >= 1
    ensures forall k :: 0 <= k < |parts| ==> c !in parts[k]
    decreases |s|
  {
    if |s| == 0 then [""]
    else if s[0] == c then [""] + Split(s[1..], c)
    else var rest := Split(s[1..], c); [[s[0]] + rest[0]] + rest[1..]
  }

  /** The parts joined with `sep` between consecutive parts (PHP `implode`, Java `String.join`). */
  function Join(parts: seq<string>, sep: string): (s: string)
    decreases |parts|
  {
    if |parts| == 0 then ""
    else if |parts| == 1 then parts[0]
    else parts[0] + sep + Join(parts[1..], sep)
  }

  /** Joining one more part at the end appends the separator and the part. */
  lemma {:induction false} JoinSnoc(parts: seq<string>, x: string, sep: string)
    requires |parts| > 0
    ensures Join(parts + [x], sep) == Join(parts, sep) + sep + x
    decreases |parts|
  {
    if |parts| == 1 {
      assert parts + [x] == [parts[0], x];
    } else {
      assert (parts + [x])[1..] == parts[1..] + [x];
      JoinSnoc(parts[1..], x, sep);
    }
  }

  /** Joining one more part: the separator comes first unless the list was empty. */
  lemma JoinAppendOne(parts: seq<string>, x: string, sep: string)
    ensures Join(parts + [x], sep) == (if |parts| > 0 then Join(parts, sep) + sep else "") + x
  {
    if |parts| > 0 {
      JoinSnoc(parts, x, sep);
    } else {
      assert parts + [x] == [x];
    }
  }

  /** Splitting undoes joining when no part contains the separator. */
  lemma {:induction false} SplitJoin(parts: seq<string>, c: char)
    requires |parts| >= 1
    requires forall k :: 0 <= k < |parts| ==> c !in parts[k]
    ensures Split(Join(parts, [c]), c) == parts
    decreases |parts|, |parts[0]|
  {
    if |parts[0]| == 0 {
      if |parts| > 1 {
        assert Join(parts, [c]) == [c] + Join(parts[1..], [c]);
        SplitJoin(parts[1..], c);
      }
    } else {
      var p := parts[0];
      var tail := [p[1..]] + parts[1..];
      assert p[0] != c;
      assert Join(parts, [c]) == [p[0]] + Join(tail, [c]);
      SplitJoin(tail, c);
      var x := [p[0]] + Join(tail, [c]);
      assert x[1..] == Join(tail, [c]);
      assert Split(x, c) == [[p[0]] + p[1..]] + parts[1..];
      assert [p[0]] + p[1..] == p;
    }
  }

  /** Joining undoes splitting. */
  lemma {:induction false} JoinSplit(s: string, c: char)
    ensures Join(Split(s, c), [c]) == s
    decreases |s|
  {
    if |s| > 0 {
      JoinSplit(s[1..], c);
      var rest := Split(s[1..], c);
      if s[0] != c && |rest| > 1 {
        assert ([[s[0]] + rest[0]] + rest[1..])[1..] == rest[1..];
      }
    }
  }
  /** A string without the separator splits into itself alone. */
  lemma {:induction false} SplitAbsent(s: string, c: char)
    requires c !in s
    ensures Split(s, c) == [s]
    decreases |s|
  {
    if |s| > 0 {
      SplitAbsent(s[1..], c);
      assert [s[0]] + s[1..] == s;
    }
  }

  /** Splitting `x`, the separator and `y`, where `x` has no separator, gives `x` and then the parts of `y`. */
  lemma {:induction false} SplitAfterFirst(x: string, c: char, y: string)
    requires c !in x
    ensures Split(x + [c] + y, c) == [x] + Split(y, c)
    decreases |x|
  {
    if |x| == 0 {
      assert x + [c] + y == [c] + y;
      assert ([c] + y)[1..] == y;
    } else {
      SplitAfterFirst(x[1..], c, y);
      assert (x + [c] + y)[1..] == x[1..] + [c] + y;
      assert [x[0]] + x[1..] == x;
    }
  }

  /** Splitting `x`, the separator and `y`, where `y` has no separator, gives the parts of `x` and then `y`. */
  lemma {:induction false} SplitBeforeLast(x: string, c: char, y: string)
    requires c !in y
    ensures Split(x + [c] + y, c) == Split(x, c) + [y]
    decreases |x|
  {
    if |x| == 0 {
      assert x + [c] + y == [c] + y;
      assert ([c] + y)[1..] == y;
      SplitAbsent(y, c);
    } else {
      assert (x + [c] + y)[1..] == x[1..] + [c] + y;
      SplitBeforeLast(x[1..], c, y);
    }
  }

  // ---------------------------------------------------------------------
  // PHP string helpers
  // ---------------------------------------------------------------------

  /** PHP `empty()` on a string: the empty string and "0" are empty. */
  predicate PhpEmpty(s: string) { s == "" || s == "0" }

  /** The characters PHP `trim` strips: space, tab, newline, carriage return, NUL and vertical tab. */
  predicate IsTrimSpace(c: char)
  {
    c == ' ' || c == '\t' || c == '\n' || c == '\r' || c == '\0' || c as int == 11
  }

  function TrimLeft(s: string): (r: string)
    ensures |r| <= |s| && r == s[|s| - |r|..]
    ensures |r| == 0 || !IsTrimSpace(r[0])
    ensures forall i :: 0 <= i < |s| - |r| ==> IsTrimSpace(s[i])
  {
    if |s| > 0 && IsTrimSpace(s[0]) then TrimLeft(s[1..]) else s
  }

  function TrimRight(s: string): (r: string)
    ensures |r| <= |s| && r == s[..|r|]
    ensures |r| == 0 || !IsTrimSpace(r[|r| - 1])
    ensures forall i :: |r| <= i < |s| ==> IsTrimSpace(s[i])
  {
    if |s| > 0 && IsTrimSpace(s[|s| - 1]) then TrimRight(s[..|s| - 1]) else s
  }

  /** PHP `trim`: the white space at both ends removed. */
  function Trim(s: string): (r: string)
    ensures |r| <= |s|
    ensures |r| == 0 || (!IsTrimSpace(r[0]) && !IsTrimSpace(r[|r| - 1]))
  {
    TrimRight(TrimLeft(s))
  }

  /** PHP `str_replace(c, '', s)` for a one-character needle: every `c` removed, the rest kept in order. */
  function Remove(s: string, c: char): (r: string)
    ensures c !in r && |r| <= |s|
    ensures forall x :: x != c ==> (x in r <==> x in s)
  {
    if |s| == 0 then "" else (if s[0] == c then "" else [s[0]]) + Remove(s[1..], c)
  }

  /** Removing from a concatenation removes from each part. */
  lemma {:induction false} RemoveAppend(a: string, b: string, c: char)
    ensures Remove(a + b, c) == Remove(a, c) + Remove(b, c)
    decreases |a|
  {
    if |a| == 0 {
      assert a + b == b;
    } else {
      assert (a + b)[1..] == a[1..] + b;
      RemoveAppend(a[1..], b, c);
    }
  }

  lemma {:induction false} RemoveAbsent(s: string, c: char)
    requires c !in s
    ensures Remove(s, c) == s
  {
    if |s| > 0 {
      RemoveAbsent(s[1..], c);
    }
  }

  /** PHP `substr_count` for a one-character needle. */
  function Count(s: string, c: char): (n: nat)
    ensures n <= |s|
    ensures n == 0 <==> c !in s
  {
    if |s| == 0 then 0 else (if s[0] == c then 1 else 0) + Count(s[1..], c)
  }

  /** PHP `substr(s, 0, n)`. */
  function Take(s: string, n: nat): (r: string)
    ensures |r| <= n && |r| <= |s| && r == s[..|r|]
    ensures |s| <= n ==> r == s
  {
    if |s| <= n then s else s[..n]
  }

  /** PHP `substr(s, start)`: "" when the start is past the end. */
  function SubstrFrom(s: string, start: nat): (r: string)
    ensures start <= |s| ==> r == s[start..]
    ensures start > |s| ==> r == ""
  {
    if start <= |s| then s[start..] else ""
  }

  /** PHP `substr(s, start, len)` for a non-negative start and length. */
  function Substr(s: string, start: nat, len: nat): (r: string)
    ensures |r| <= len
    ensures start + len <= |s| ==> r == s[start..start + len]
  {
    Take(SubstrFrom(s, start), len)
  }

  /** PHP `substr(s, -n)`: the last `n` characters, or all of `s` when shorter. */
  function LastChars(s: string, n: nat): (r: string)
    ensures |r| == if |s| < n then |s| else n
    ensures r == s[|s| - |r|..]
  {
    if |s| <= n then s else s[|s| - n..]
  }

  // ---------------------------------------------------------------------
  // Zero padding
  // ---------------------------------------------------------------------

  function Pow10(n: nat): (p: nat)
    ensures p >= 1
  {
    if n == 0 then 1 else 10 * Pow10(n - 1)
  }

  function Zeros(n: nat): (z: string)
    ensures |z| == n && AllDigits(z)
  {
    if n == 0 then "" else Zeros(n - 1) + "0"
  }

  /** `sprintf('%0<width>d', …)` on the text of a natural number: zeros in front up to `width`, never truncated. */
  function ZeroPad(s: string, width: nat): (r: string)
    ensures |r| == if |s| < width then width else |s|
    ensures AllDigits(s) ==> AllDigits(r)
  {
    if |s| < width then Zeros(width - |s|) + s else s
  }

  /** A number written with `k` digits is below 10^k. */
  lemma {:induction false} DigitsValueBound(s: string)
    requires AllDigits(s)
    ensures DigitsValue(s) < Pow10(|s|)
    decreases |s|
  {
    if |s| > 0 {
      DigitsValueBound(s[..|s| - 1]);
    }
  }

  /** A number below 10^k, for k at least one, is written with at most `k` digits. */
  lemma {:induction false} NatToStringLength(n: nat, k: nat)
    requires k >= 1 && n < Pow10(k)
    ensures |NatToString(n)| <= k
    decreases n
  {
    if n >= 10 {
      assert k > 1;
      assert n / 10 < Pow10(k - 1);
      NatToStringLength(n / 10, k - 1);
    }
  }

  /** Leading zeros do not change the value. */
  lemma {:induction false} DigitsValueLeadingZeros(n: nat, s: string)
    requires AllDigits(s)
    ensures DigitsValue(Zeros(n) + s) == DigitsValue(s)
    decreases |s|, n
  {
    if |s| == 0 {
      assert Zeros(n) + s == Zeros(n);
      if n > 0 {
        assert Zeros(n)[..n - 1] == Zeros(n - 1);
        DigitsValueLeadingZeros(n - 1, "");
        assert Zeros(n - 1) + "" == Zeros(n - 1);
      }
    } else {
      assert (Zeros(n) + s)[..|Zeros(n) + s| - 1] == Zeros(n) + s[..|s| - 1];
      DigitsValueLeadingZeros(n, s[..|s| - 1]);
    }
  }

  /** Padding a number's text with zeros keeps its value. */
  lemma ZeroPadValue(n: nat, width: nat)
    ensures AllDigits(ZeroPad(NatToString(n), width))
    ensures DigitsValue(ZeroPad(NatToString(n), width)) == n
  {
    var s := NatToString(n);
    DigitsValueOfNatToString(n);
    if |s| < width {
      DigitsValueLeadingZeros(width - |s|, s);
    }
  }

  /** `n` decimal digits start at index `i` of `s`. */
  predicate DigitsAt(s: string, i: nat, n: nat)
  {
    i + n <= |s| && AllDigits(s[i..i + n])
  }

  /** PHP `strrev`: the characters in reverse order. */
  function Reverse(s: string): (r: string)
    ensures |r| == |s|
    ensures forall k :: 0 <= k < |s| ==> r[k] == s[|s| - 1 - k]
  {
    seq(|s|, k requires 0 <= k < |s| => s[|s| - 1 - k])
  }

  /** Reversing a concatenation reverses the parts and swaps them. */
  lemma ReverseAppend(a: string, b: string)
    ensures Reverse(a + b) == Reverse(b) + Reverse(a)
  {
    assert forall k :: 0 <= k < |b| ==> Reverse(a + b)[k] == Reverse(b)[k];
    assert forall k :: |b| <= k < |a| + |b| ==> Reverse(a + b)[k] == Reverse(a)[k - |b|];
  }

  lemma ReverseReverse(s: string)
    ensures Reverse(Reverse(s)) == s
  {
  }

  /** The length of the run of decimal digits at the start of `s`. */
  function DigitRun(s: string): (n: nat)
    ensures n <= |s| && AllDigits(s[..n])
    ensures n < |s| ==> !IsDigit(s[n])
    decreases |s|
  {
    if |s| > 0 && IsDigit(s[0]) then
      var m := DigitRun(s[1..]);
      assert s[..1 + m] == [s[0]] + s[1..][..m];
      1 + m
    else 0
  }

  /** The digit run of an all-digit string is the whole string. */
  lemma {:induction false} DigitRunPrefix(s: string)
    requires AllDigits(s)
    ensures DigitRun(s) == |s|
    decreases |s|
  {
    if |s| > 0 {
      DigitRunPrefix(s[1..]);
    }
  }


  /** Every character of a trimmed string is a character of the string. */
  lemma TrimChars(s: string, c: char)
    requires c !in s
    ensures c !in Trim(s)
  {
    var l := TrimLeft(s);
    assert l == s[|s| - |l|..];
    assert Trim(s) == l[..|Trim(s)|];
  }

  /** `s` with one more part `x`: the separator first only when `s` is not empty. */
  function AppendPart(s: string, c: char, x: string): (r: string)
    ensures s == "" ==> r == x
    ensures s != "" ==> r == s + [c] + x
  {
    if s != "" then s + [c] + x else x
  }

  /** The parts before stay, in order, and the new part comes last. */
  lemma SplitAppendPart(s: string, c: char, x: string)
    requires c !in x
    ensures Split(AppendPart(s, c, x), c) == if s == "" then [x] else Split(s, c) + [x]
  {
    if s == "" {
      SplitAbsent(x, c);
    } else {
      SplitBeforeLast(s, c, x);
    }
  }
}
