/** The parts of Go's `strings` and `strconv` packages the core relies on:
    Split, SplitN(_, _, 2), Join, Contains, ToLower (ASCII), Itoa/`%d` and Atoi. */
module GoStrings {
  import opened Wrappers

  /** strings.Split(s, string(sep)): the pieces between occurrences of `sep`. */
  function Split(s: string, sep: char): (parts: seq<string>)
    ensures |parts| >= 1
    ensures forall k :: 0 <= k < |parts| ==> sep !in parts[k]
    decreases |s|
  {
    if s == [] then [""]
    else
      var rest := Split(s[1..], sep);
      if s[0] == sep then [""] + rest
      else [[s[0]] + rest[0]] + rest[1..]
  }

  /** strings.Join(parts, sep). */
  function Join(parts: seq<string>, sep: string): string
  {
    if |parts| == 0 then ""
    else if |parts| == 1 then parts[0]
    else parts[0] + sep + Join(parts[1..], sep)
  }

  /** Number of occurrences of `c` in `s`. */
  function Count(s: string, c: char): nat
  {
    if s == [] then 0 else (if s[0] == c then 1 else 0) + Count(s[1..], c)
  }

  lemma {:induction false} SplitLength(s: string, sep: char)
    ensures |Split(s, sep)| == Count(s, sep) + 1
    decreases |s|
  {
    if s != [] { SplitLength(s[1..], sep); }
  }

  /** Joining the pieces with the separator gives back the string. */
  lemma {:induction false} JoinSplit(s: string, sep: char)
    ensures Join(Split(s, sep), [sep]) == s
    decreases |s|
  {
    if s != [] {
      var rest := Split(s[1..], sep);
      JoinSplit(s[1..], sep);
      if s[0] == sep {
        assert Split(s, sep) == [""] + rest;
        if |rest| == 1 {
          assert Join(Split(s, sep), [sep]) == "" + [sep] + rest[0];
        } else {
          assert Join(Split(s, sep), [sep]) == "" + [sep] + Join(rest, [sep]);
        }
      } else {
        var parts := Split(s, sep);
        assert parts == [[s[0]] + rest[0]] + rest[1..];
        if |rest| == 1 {
          assert Join(parts, [sep]) == [s[0]] + rest[0];
        } else {
          assert Join(rest, [sep]) == rest[0] + [sep] + Join(rest[1..], [sep]);
          assert parts[1..] == rest[1..];
          assert Join(parts, [sep]) == [s[0]] + rest[0] + [sep] + Join(rest[1..], [sep]);
        }
      }
    }
  }

  /** Splitting at a first piece free of the separator. */
  lemma {:induction false} SplitPrefix(p: string, sep: char, rest: string)
    requires sep !in p
    ensures Split(p + [sep] + rest, sep) == [p] + Split(rest, sep)
    decreases |p|
  {
    if p == [] {
      assert p + [sep] + rest == [sep] + rest;
      assert ([sep] + rest)[1..] == rest;
    } else {
      var s := p + [sep] + rest;
      assert s[0] == p[0] && s[1..] == p[1..] + [sep] + rest;
      SplitPrefix(p[1..], sep, rest);
      assert [p[0]] + p[1..] == p;
    }
  }

  /** A string without the separator is one piece. */
  lemma {:induction false} SplitNone(p: string, sep: char)
    requires sep !in p
    ensures Split(p, sep) == [p]
    decreases |p|
  {
    if p != [] {
      SplitNone(p[1..], sep);
      assert [p[0]] + p[1..] == p;
    }
  }

  /** Splitting separator-free pieces joined by the separator gives the pieces back. */
  lemma {:induction false} SplitJoin(parts: seq<string>, sep: char)
    requires |parts| >= 1
    requires forall k :: 0 <= k < |parts| ==> sep !in parts[k]
    ensures Split(Join(parts, [sep]), sep) == parts
    decreases |parts|
  {
    if |parts| == 1 {
      SplitNone(parts[0], sep);
    } else {
      SplitJoin(parts[1..], sep);
      assert Join(parts, [sep]) == parts[0] + [sep] + Join(parts[1..], [sep]);
      SplitPrefix(parts[0], sep, Join(parts[1..], [sep]));
      assert [parts[0]] + parts[1..] == parts;
    }
  }

  /** Index of the first occurrence of `c` in `s`, or |s| when there is none. */
  function IndexOf(s: string, c: char): (i: nat)
    ensures i <= |s|
    ensures i < |s| ==> s[i] == c
    ensures forall k :: 0 <= k < i ==> s[k] != c
    ensures i == |s| <==> c !in s
  {
    if s == [] then 0
    else if s[0] == c then 0
    else 1 + IndexOf(s[1..], c)
  }

  /** strings.SplitN(s, string(sep), 2): split at the first separator only. */
  function SplitN2(s: string, sep: char): (parts: seq<string>)
    ensures 1 <= |parts| <= 2
    ensures |parts| == 1 <==> sep !in s
    ensures |parts| == 1 ==> parts[0] == s
    ensures |parts| == 2 ==> sep !in parts[0] && s == parts[0] + [sep] + parts[1]
  {
    var i := IndexOf(s, sep);
    if i == |s| then [s] else [s[..i], s[i + 1..]]
  }

  /** Splitting a joined pair at its first separator gives the pair back. */
  lemma SplitN2Join(head: string, sep: char, rest: string)
    requires sep !in head
    ensures SplitN2(head + [sep] + rest, sep) == [head, rest]
  {
    var s := head + [sep] + rest;
    assert s[|head|] == sep;
    assert s[..|head|] == head;
    assert s[|head| + 1..] == rest;
  }

  /** strings.Contains(s, string(c)). */
  predicate Contains(s: string, c: char)
  {
    c in s
  }

  function LowerChar(c: char): char
  {
    if 'A' <= c <= 'Z' then (c as int + 32) as char else c
  }

  /** strings.ToLower, restricted to ASCII letters. */
  function ToLower(s: string): (r: string)
    ensures |r| == |s|
    ensures forall k :: 0 <= k < |s| ==> r[k] == LowerChar(s[k])
  {
    if s == [] then [] else [LowerChar(s[0])] + ToLower(s[1..])
  }

  function DigitChar(d: nat): char
    requires d < 10
  {
    "0123456789"[d]
  }

  predicate IsDigit(c: char)
  {
    '0' <= c <= '9'
  }

  function DigitValue(c: char): nat
    requires IsDigit(c)
  {
    c as int - '0' as int
  }

  /** Decimal digits of a natural number, most significant first (`%d`). */
  function NatToString(n: nat): (s: string)
    ensures |s| >= 1
    ensures forall k :: 0 <= k < |s| ==> IsDigit(s[k])
  {
    if n < 10 then [DigitChar(n)] else NatToString(n / 10) + [DigitChar(n % 10)]
  }

  /** strconv.Itoa / fmt's `%d`. */
  function FormatInt(n: int): (s: string)
    ensures |s| >= 1
  {
    if n < 0 then "-" + NatToString(-n) else NatToString(n)
  }

  /** Value of a string of decimal digits. */
  function DigitsValue(s: string): nat
    requires forall k :: 0 <= k < |s| ==> IsDigit(s[k])
  {
    if s == [] then 0 else DigitsValue(s[..|s| - 1]) * 10 + DigitValue(s[|s| - 1])
  }

  const MinInt64: int := -0x8000_0000_0000_0000
  const MaxInt64: int := 0x7FFF_FFFF_FFFF_FFFF

  datatype NumError = ErrSyntax(input: string) | ErrRange(input: string)

  predicate AllDigits(s: string)
  {
    forall k :: 0 <= k < |s| ==> IsDigit(s[k])
  }

  const MaxUint64: int := 0xFFFF_FFFF_FFFF_FFFF

  /** The length of the run of digits `s` starts with. */
  function DigitRun(s: string): (j: nat)
    ensures j <= |s| && AllDigits(s[..j]) && (j < |s| ==> !IsDigit(s[j]))
  {
    if s == [] || !IsDigit(s[0]) then 0
    else
      var j := 1 + DigitRun(s[1..]);
      assert s[..j] == [s[0]] + s[1..][..j - 1];
      j
  }

  /** strconv.Atoi on a 64-bit platform: an optional sign, then the digits are read left to
      right as a uint64. The first digit that takes the value past 2^64 - 1 is a range error,
      even when a non-digit follows. Otherwise a non-digit, or no digit at all, is a syntax
      error, and the value must fit in an int64. */
  function Atoi(s: string): (r: Result<int, NumError>)
    ensures r.Success? ==> MinInt64 <= r.value <= MaxInt64
    ensures s == [] ==> r == Failure(ErrSyntax(s))
    ensures r.Success? ==> exists k :: 0 <= k < |s| && IsDigit(s[k])
  {
    if s == [] then Failure(ErrSyntax(s))
    else
      var neg := s[0] == '-';
      var body := if s[0] == '-' || s[0] == '+' then s[1..] else s;
      var j := DigitRun(body);
      if DigitsValue(body[..j]) > MaxUint64 then Failure(ErrRange(s))
      else if body == [] || j < |body| then Failure(ErrSyntax(s))
      else
        assert body[..j] == body;
        var dv: int := DigitsValue(body);
        var v := if neg then -dv else dv;
        assert IsDigit(body[0]) && body[0] == s[|s| - |body|];
        if v < MinInt64 || MaxInt64 < v then Failure(ErrRange(s)) else Success(v)
  }

  /** A longer run of digits has at least the value of its prefix. */
  lemma {:induction false} DigitsValuePrefix(s: string, k: nat)
    requires AllDigits(s) && k <= |s|
    ensures AllDigits(s[..k]) && DigitsValue(s[..k]) <= DigitsValue(s)
    decreases |s|
  {
    assert AllDigits(s[..k]) by {
      forall i | 0 <= i < k ensures IsDigit(s[..k][i]) {
        assert s[..k][i] == s[i];
      }
    }
    if k < |s| {
      var n := |s| - 1;
      assert AllDigits(s[..n]) by {
        forall i | 0 <= i < n ensures IsDigit(s[..n][i]) {
          assert s[..n][i] == s[i];
        }
      }
      DigitsValuePrefix(s[..n], k);
      assert s[..n][..k] == s[..k];
      assert DigitsValue(s) == DigitsValue(s[..n]) * 10 + DigitValue(s[n]);
      assert DigitsValue(s[..n]) <= DigitsValue(s[..n]) * 10;
    } else {
      assert s[..k] == s;
    }
  }

  /** Digits whose value already exceeds 2^64 - 1 make Atoi a range error, whatever follows
      them: the overflow is found before a later non-digit. */
  lemma AtoiOverflowFirst(s: string, k: nat)
    requires 0 < k <= |s| && AllDigits(s[..k]) && DigitsValue(s[..k]) > MaxUint64
    ensures Atoi(s) == Failure(ErrRange(s))
  {
    assert IsDigit(s[..k][0]);
    var j := DigitRun(s);
    assert s[..j][..k] == s[..k];
    DigitsValuePrefix(s[..j], k);
  }

  lemma {:induction false} DigitsOfNat(n: nat)
    ensures DigitsValue(NatToString(n)) == n
  {
    var s := NatToString(n);
    if n >= 10 {
      DigitsOfNat(n / 10);
      assert s[..|s| - 1] == NatToString(n / 10);
    }
  }

  /** Atoi reads back what %d printed, for every int64. */
  lemma AtoiFormatInt(n: int)
    requires MinInt64 <= n <= MaxInt64
    ensures Atoi(FormatInt(n)) == Success(n)
  {
    var d := NatToString(if n < 0 then -n else n);
    DigitsOfNat(if n < 0 then -n else n);
    assert d[0] != '-' && d[0] != '+' by { assert IsDigit(d[0]); }
    assert DigitRun(d) == |d|;
    assert d[..|d|] == d;
    if n < 0 {
      assert FormatInt(n)[1..] == d;
    }
  }

  /** A character other than a digit (or a leading sign) makes Atoi fail. */
  lemma AtoiRejectsNonDigit(s: string, k: nat)
    requires 0 < k < |s| && !IsDigit(s[k])
    ensures Atoi(s).Failure?
  {
    if s[0] == '-' || s[0] == '+' {
      assert s[1..][k - 1] == s[k];
    }
  }
}
