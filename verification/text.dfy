/** String and sequence helpers mirroring the JavaScript built-ins that the
    chart and query code relies on: the decimal rendering of a whole number,
    `indexOf`, `substring`, `join`, and the first match of the regular
    expression `/(\d+)/`. `Split` is not one of them: it stands in for the
    feature service reading back the id list, as the partner of the `join`
    that builds the query filter. */
module Text {

  datatype Option<+T> = None | Some(value: T)

  predicate IsDigit(c: char) {
    '0' <= c <= '9'
  }

  predicate AllDigits(s: string) {
    forall k :: 0 <= k < |s| ==> IsDigit(s[k])
  }

  predicate NoDigits(s: string) {
    forall k :: 0 <= k < |s| ==> !IsDigit(s[k])
  }

  lemma NoDigitsConcat(a: string, b: string)
    requires NoDigits(a) && NoDigits(b)
    ensures NoDigits(a + b)
  {
    forall k | 0 <= k < |a + b|
      ensures !IsDigit((a + b)[k])
    {
      if k < |a| {
        assert (a + b)[k] == a[k];
      } else {
        assert (a + b)[k] == b[k - |a|];
      }
    }
  }

  function DigitValue(c: char): (d: nat)
    requires IsDigit(c)
    ensures d < 10
  {
    c as int - '0' as int
  }

  function DigitChar(d: nat): (c: char)
    requires d < 10
    ensures IsDigit(c) && DigitValue(c) == d
  {
    (d + '0' as int) as char
  }

  /** How a template literal prints a whole, non-negative Number:
      decimal digits, no sign, no leading zero. */
  function NatToDecimal(n: nat): (s: string)
    ensures |s| > 0 && AllDigits(s)
    ensures s[0] == '0' <==> n == 0
    decreases n
  {
    if n < 10 then [DigitChar(n)] else NatToDecimal(n / 10) + [DigitChar(n % 10)]
  }

  /** The value of a string of decimal digits, as `parseInt` reads it. */
  function ParseDecimal(s: string): (v: nat)
    requires AllDigits(s)
    ensures v == 0 <==> forall k :: 0 <= k < |s| ==> s[k] == '0'
  {
    if |s| == 0 then 0
    else
      var init := s[..|s| - 1];
      assert forall k :: 0 <= k < |init| ==> init[k] == s[k];
      ParseDecimal(init) * 10 + DigitValue(s[|s| - 1])
  }

  /** Reading back a printed count gives the count. */
  lemma {:induction false} ParseNatToDecimal(n: nat)
    ensures ParseDecimal(NatToDecimal(n)) == n
    decreases n
  {
    if n >= 10 {
      var s := NatToDecimal(n);
      assert s[..|s| - 1] == NatToDecimal(n / 10);
      ParseNatToDecimal(n / 10);
    }
  }

  /** Position of the first `x` in `xs`, or -1: `Array.prototype.indexOf`,
      and `String.prototype.indexOf` for a one-character needle. */
  function IndexOf<T(==)>(xs: seq<T>, x: T): (i: int)
    ensures -1 <= i < |xs|
    ensures i == -1 <==> x !in xs
    ensures 0 <= i ==> xs[i] == x && x !in xs[..i]
  {
    if |xs| == 0 then -1
    else if xs[0] == x then 0
    else
      var j := IndexOf(xs[1..], x);
      assert xs == [xs[0]] + xs[1..];
      if j < 0 then -1
      else
        assert xs[..j + 1] == [xs[0]] + xs[1..][..j];
        j + 1
  }

  predicate OccursAt<T(==)>(s: seq<T>, t: seq<T>, i: int) {
    0 <= i && i + |t| <= |s| && s[i..i + |t|] == t
  }

  ghost predicate Contains<T>(s: seq<T>, t: seq<T>) {
    exists i :: OccursAt(s, t, i)
  }

  lemma OccursShift<T>(s: seq<T>, t: seq<T>, i: int)
    requires |s| > 0 && i >= 1
    ensures OccursAt(s, t, i) <==> OccursAt(s[1..], t, i - 1)
  {
    if i + |t| <= |s| {
      var a, b := s[i..i + |t|], s[1..][i - 1..i - 1 + |t|];
      assert forall m :: 0 <= m < |t| ==> a[m] == b[m];
      assert a == b;
    }
  }

  /** Position of the first occurrence of `t` in `s`, or -1:
      `String.prototype.indexOf` with a string needle. */
  function IndexOfSub<T(==)>(s: seq<T>, t: seq<T>): (i: int)
    ensures -1 <= i
    ensures i == -1 <==> !Contains(s, t)
    ensures 0 <= i ==> OccursAt(s, t, i) && forall k :: 0 <= k < i ==> !OccursAt(s, t, k)
    decreases |s|
  {
    if |t| > |s| then
      assert forall k :: !OccursAt(s, t, k);
      -1
    else if s[..|t|] == t then
      assert OccursAt(s, t, 0);
      0
    else
      var j := IndexOfSub(s[1..], t);
      assert forall k :: k >= 1 ==> (OccursAt(s, t, k) <==> OccursAt(s[1..], t, k - 1)) by {
        forall k | k >= 1 {
          OccursShift(s, t, k);
        }
      }
      if j < 0 then
        assert forall k :: !OccursAt(s, t, k) by {
          forall k ensures !OccursAt(s, t, k) {
            if k >= 1 {
              assert !OccursAt(s[1..], t, k - 1);
            }
          }
        }
        -1
      else
        assert forall k :: 0 <= k < j + 1 ==> !OccursAt(s, t, k) by {
          forall k | 0 <= k < j + 1 ensures !OccursAt(s, t, k) {
            if k >= 1 {
              assert !OccursAt(s[1..], t, k - 1);
            }
          }
        }
        assert OccursAt(s, t, j + 1);
        j + 1
  }

  function Clamp(i: int, n: nat): (r: nat)
    ensures r <= n
  {
    if i < 0 then 0 else if i > n then n else i
  }

  /** `s.substring(start, end)`: both ends are clamped into the string and
      swapped when the first exceeds the second. */
  function Substring(s: string, start: int, end: int): (r: string)
    ensures |r| <= |s|
    ensures 0 <= start <= end <= |s| ==> r == s[start..end]
    ensures 0 <= end <= start <= |s| ==> r == s[end..start]
    ensures 0 <= start <= |s| <= end ==> r == s[start..]
    ensures end < 0 && 0 <= start <= |s| ==> r == s[..start]
  {
    var a := Clamp(start, |s|);
    var b := Clamp(end, |s|);
    if a <= b then s[a..b] else s[b..a]
  }

  /** Number of occurrences of `c` in `s`. */
  function Occurrences(s: string, c: char): nat {
    if |s| == 0 then 0 else Occurrences(s[..|s| - 1], c) + (if s[|s| - 1] == c then 1 else 0)
  }

  lemma {:induction false} OccurrencesConcat(a: string, b: string, c: char)
    ensures Occurrences(a + b, c) == Occurrences(a, c) + Occurrences(b, c)
    decreases |b|
  {
    if |b| > 0 {
      assert (a + b)[..|a + b| - 1] == a + b[..|b| - 1];
      OccurrencesConcat(a, b[..|b| - 1], c);
    } else {
      assert a + b == a;
    }
  }

  lemma {:induction false} OccurrencesAbsent(s: string, c: char)
    requires c !in s
    ensures Occurrences(s, c) == 0
    decreases |s|
  {
    if |s| > 0 {
      OccurrencesAbsent(s[..|s| - 1], c);
    }
  }

  /** `parts.join(sep)`: the pieces in order with one separator between
      neighbours, so a join of separator-free pieces holds one separator
      fewer than it has pieces. */
  function Join(parts: seq<string>, sep: char): (r: string)
    ensures |parts| == 0 ==> r == ""
    ensures |parts| > 0 ==> parts[0] <= r
    ensures |parts| > 0 && (forall k :: 0 <= k < |parts| ==> sep !in parts[k]) ==>
              Occurrences(r, sep) == |parts| - 1
  {
    if |parts| == 0 then ""
    else
      assert sep !in parts[0] ==> Occurrences(parts[0], sep) == 0 by {
        if sep !in parts[0] {
          OccurrencesAbsent(parts[0], sep);
        }
      }
      if |parts| == 1 then parts[0]
      else
        var rest := Join(parts[1..], sep);
        assert forall k :: 0 <= k < |parts[1..]| ==> parts[1..][k] == parts[k + 1];
        assert Occurrences(parts[0] + [sep] + rest, sep) == Occurrences(parts[0], sep) + 1 + Occurrences(rest, sep) by {
          OccurrencesConcat(parts[0], [sep], sep);
          OccurrencesConcat(parts[0] + [sep], rest, sep);
          assert [sep][..0] == [];
        }
        parts[0] + [sep] + rest
  }

  /** `s.split(sep)`: the pieces between separators, never an empty list. */
  function Split(s: string, sep: char): (parts: seq<string>)
    ensures |parts| >= 1
    ensures forall k :: 0 <= k < |parts| ==> sep !in parts[k]
    ensures Join(parts, sep) == s
  {
    if |s| == 0 then [""]
    else
      var rest := Split(s[1..], sep);
      if s[0] == sep then
        JoinEmptyFirst(rest, sep);
        assert s == [sep] + s[1..];
        [""] + rest
      else
        JoinExtendFirst(s[0], rest, sep);
        assert s == [s[0]] + s[1..];
        [[s[0]] + rest[0]] + rest[1..]
  }

  /** An empty first piece leaves only its separator in the join. */
  lemma JoinEmptyFirst(parts: seq<string>, sep: char)
    requires |parts| > 0
    ensures Join([""] + parts, sep) == [sep] + Join(parts, sep)
  {
    assert ([""] + parts)[1..] == parts;
  }

  /** Prepending a character to the first piece prepends it to the join. */
  lemma JoinExtendFirst(c: char, parts: seq<string>, sep: char)
    requires |parts| > 0
    ensures Join([[c] + parts[0]] + parts[1..], sep) == [c] + Join(parts, sep)
  {
    var longer := [[c] + parts[0]] + parts[1..];
    assert longer[1..] == parts[1..];
  }

  lemma {:induction false} SplitNoSeparator(s: string, sep: char)
    requires sep !in s
    ensures Split(s, sep) == [s]
    decreases |s|
  {
    if |s| > 0 {
      SplitNoSeparator(s[1..], sep);
    }
  }

  lemma {:induction false} SplitAfterPiece(a: string, b: string, sep: char)
    requires sep !in a
    ensures Split(a + [sep] + b, sep) == [a] + Split(b, sep)
    decreases |a|
  {
    var s := a + [sep] + b;
    if |a| == 0 {
      assert s[1..] == b;
    } else {
      assert s[1..] == a[1..] + [sep] + b;
      SplitAfterPiece(a[1..], b, sep);
      assert [s[0]] + a[1..] == a;
    }
  }

  /** Splitting a joined list on a separator that no piece contains gives
      back the list, in order and with repeats. */
  lemma {:induction false} SplitJoin(parts: seq<string>, sep: char)
    requires |parts| >= 1
    requires forall k :: 0 <= k < |parts| ==> sep !in parts[k]
    ensures Split(Join(parts, sep), sep) == parts
    decreases |parts|
  {
    if |parts| == 1 {
      SplitNoSeparator(parts[0], sep);
    } else {
      SplitJoin(parts[1..], sep);
      SplitAfterPiece(parts[0], Join(parts[1..], sep), sep);
      assert [parts[0]] + parts[1..] == parts;
    }
  }

  /** The longest prefix of `s` made of digits. */
  function DigitPrefix(s: string): (d: string)
    ensures d <= s && AllDigits(d)
    ensures |d| == |s| || !IsDigit(s[|d|])
  {
    if |s| == 0 || !IsDigit(s[0]) then "" else [s[0]] + DigitPrefix(s[1..])
  }

  /** Position of the first digit of `s`, or -1. */
  function FirstDigitIndex(s: string): (i: int)
    ensures -1 <= i < |s|
    ensures i == -1 <==> NoDigits(s)
    ensures 0 <= i ==> IsDigit(s[i]) && NoDigits(s[..i])
  {
    if |s| == 0 then -1
    else if IsDigit(s[0]) then 0
    else
      var j := FirstDigitIndex(s[1..]);
      if j < 0 then -1
      else
        assert s[..j + 1] == [s[0]] + s[1..][..j];
        j + 1
  }

  /** `i` starts the leftmost maximal run of digits in `s`, and that run is `d`. */
  ghost predicate IsFirstRun(s: string, i: int, d: string) {
    && 0 <= i && i + |d| <= |s|
    && NoDigits(s[..i])
    && |d| > 0 && AllDigits(d)
    && s[i..i + |d|] == d
    && (i + |d| == |s| || !IsDigit(s[i + |d|]))
  }

  /** What `s.match(/(\d+)/)` yields: the leftmost maximal run of digits,
      or nothing (JavaScript's `null`) when `s` has no digit. */
  function FirstDigitRun(s: string): (r: Option<string>)
    ensures r.None? <==> NoDigits(s)
    ensures r.Some? ==> exists i :: IsFirstRun(s, i, r.value)
  {
    var i := FirstDigitIndex(s);
    if i < 0 then None
    else
      FirstRunAt(s, i);
      Some(DigitPrefix(s[i..]))
  }

  lemma FirstRunAt(s: string, i: nat)
    requires i < |s| && IsDigit(s[i]) && NoDigits(s[..i])
    ensures IsFirstRun(s, i, DigitPrefix(s[i..]))
  {
    var d := DigitPrefix(s[i..]);
    assert d[0] == s[i];
    assert s[i..][..|d|] == d;
    assert s[i..i + |d|] == d;
  }

  lemma {:induction false} DigitPrefixOfRun(d: string, rest: string)
    requires AllDigits(d)
    requires |rest| == 0 || !IsDigit(rest[0])
    ensures DigitPrefix(d + rest) == d
    decreases |d|
  {
    if |d| > 0 {
      assert (d + rest)[1..] == d[1..] + rest;
      DigitPrefixOfRun(d[1..], rest);
      assert [d[0]] + d[1..] == d;
    }
  }

  lemma {:induction false} FirstDigitAfterPrefix(p: string, x: string)
    requires NoDigits(p)
    requires |x| > 0 && IsDigit(x[0])
    ensures FirstDigitIndex(p + x) == |p|
    decreases |p|
  {
    if |p| > 0 {
      assert (p + x)[1..] == p[1..] + x;
      FirstDigitAfterPrefix(p[1..], x);
    }
  }

  /** A run of digits behind a digit-free prefix and before a non-digit is
      what `/(\d+)/` finds. */
  lemma FirstRunAfterPrefix(p: string, d: string, rest: string)
    requires NoDigits(p)
    requires |d| > 0 && AllDigits(d)
    requires |rest| == 0 || !IsDigit(rest[0])
    ensures FirstDigitRun(p + d + rest) == Some(d)
  {
    var s := p + d + rest;
    assert s == p + (d + rest);
    FirstDigitAfterPrefix(p, d + rest);
    assert s[|p|..] == d + rest;
    DigitPrefixOfRun(d, rest);
  }
}
