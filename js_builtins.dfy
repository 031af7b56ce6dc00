/**
 * The JavaScript built-ins that the browser's pure code relies on, stated over
 * Dafny sequences: String.prototype.split and Array.prototype.join with the
 * separator "/", Array.prototype.slice, find and findIndex, the padding idiom
 * Array(n).fill(" ").join(""), and Number.prototype.toString for integers.
 */
module JsBuiltins {
  import opened Wrappers

  function Max(a: int, b: int): int
  {
    if a < b then b else a
  }

  // ---------------------------------------------------------------------------
  // split("/") and join("/")
  // ---------------------------------------------------------------------------

  /** The index of the first `c` in `s`. */
  function IndexOf(s: string, c: char): (i: nat)
    requires c in s
    ensures i < |s| && s[i] == c && c !in s[..i]
  {
    if s[0] == c then 0
    else
      var j := IndexOf(s[1..], c);
      assert s[..j + 1] == [s[0]] + s[1..][..j];
      j + 1
  }

  /** `s.split("/")`: the '/'-free pieces between separators, in order; never empty. */
  function Split(s: string): (parts: seq<string>)
    ensures |parts| >= 1
    ensures forall i :: 0 <= i < |parts| ==> '/' !in parts[i]
    ensures '/' in s <==> |parts| >= 2
    decreases |s|
  {
    if '/' !in s then [s]
    else
      var i := IndexOf(s, '/');
      [s[..i]] + Split(s[i + 1..])
  }

  /** `parts.join("/")`; the empty array joins to "". */
  function Join(parts: seq<string>): string
  {
    if |parts| == 0 then ""
    else if |parts| == 1 then parts[0]
    else parts[0] + "/" + Join(parts[1..])
  }

  /** Joining the pieces of a split gives back the string. */
  lemma {:induction false} JoinSplit(s: string)
    ensures Join(Split(s)) == s
    decreases |s|
  {
    if '/' in s {
      var i := IndexOf(s, '/');
      var rest := s[i + 1..];
      JoinSplit(rest);
      var parts := Split(s);
      assert parts == [s[..i]] + Split(rest);
      assert parts[1..] == Split(rest);
      assert s == s[..i] + "/" + rest;
    }
  }

  // ---------------------------------------------------------------------------
  // slice
  // ---------------------------------------------------------------------------

  /** `s.slice(start)`: a negative start counts from the end; out-of-range values are clamped. */
  function SliceFrom<T>(s: seq<T>, start: int): (r: seq<T>)
    ensures |r| <= |s| && r == s[|s| - |r|..]
    ensures 0 <= start <= |s| ==> r == s[start..]
  {
    if start < 0 then s[Max(0, |s| + start)..]
    else if start <= |s| then s[start..]
    else []
  }

  /** `s.slice(0, end)`: a negative end counts from the end; out-of-range values are clamped. */
  function SliceTo<T>(s: seq<T>, end: int): (r: seq<T>)
    ensures |r| <= |s| && r == s[..|r|]
    ensures 0 <= end <= |s| ==> r == s[..end]
    ensures end < 0 ==> |r| == Max(0, |s| + end)
  {
    if end < 0 then s[..Max(0, |s| + end)]
    else if end <= |s| then s[..end]
    else s
  }

  // ---------------------------------------------------------------------------
  // find and findIndex
  // ---------------------------------------------------------------------------

  /** The linear search behind find and findIndex: the first index at or after `from` whose element satisfies `p`, or -1. */
  function FirstIndex<T>(s: seq<T>, p: (T, int) -> bool, from: nat): (r: int)
    requires from <= |s|
    ensures r == -1 || from <= r < |s|
    ensures r == -1 <==> forall i :: from <= i < |s| ==> !p(s[i], i)
    ensures r != -1 ==> p(s[r], r) && forall i :: from <= i < r ==> !p(s[i], i)
    decreases |s| - from
  {
    if from == |s| then -1
    else if p(s[from], from) then from
    else FirstIndex(s, p, from + 1)
  }

  /** `s.find((x, i) => p(x, i))`: the first element satisfying `p`, or undefined. */
  function Find<T>(s: seq<T>, p: (T, int) -> bool): Option<T>
  {
    var i := FirstIndex(s, p, 0);
    if i == -1 then None else Some(s[i])
  }

  /** `s.findIndex(x => q(x))`. */
  function FindIndex<T>(s: seq<T>, q: T -> bool): (r: int)
    ensures -1 <= r < |s|
    ensures r == -1 <==> forall i :: 0 <= i < |s| ==> !q(s[i])
    ensures r != -1 ==> q(s[r]) && forall i :: 0 <= i < r ==> !q(s[i])
  {
    FirstIndex(s, (x, _) => q(x), 0)
  }

  // ---------------------------------------------------------------------------
  // padding and integer toString
  // ---------------------------------------------------------------------------

  /** `Array(n).fill(" ").join("")`. */
  function Spaces(n: nat): (r: string)
    ensures |r| == n && forall i :: 0 <= i < n ==> r[i] == ' '
  {
    seq(n, _ => ' ')
  }

  predicate IsDigit(c: char)
  {
    '0' <= c <= '9'
  }

  function DigitChar(d: int): char
    requires 0 <= d < 10
  {
    ('0' as int + d) as char
  }

  function DigitValue(c: char): int
  {
    c as int - '0' as int
  }

  /** The decimal digits of `n`, most significant first, without leading zeros. */
  function Digits(n: nat): (r: string)
    ensures |r| >= 1
    ensures forall i :: 0 <= i < |r| ==> IsDigit(r[i])
    ensures n > 0 ==> r[0] != '0'
    decreases n
  {
    if n < 10 then [DigitChar(n)] else Digits(n / 10) + [DigitChar(n % 10)]
  }

  /** `n.toString()` for an integer value. */
  function DecimalString(n: int): string
  {
    if n < 0 then "-" + Digits(-n) else Digits(n)
  }

  /** The value of a string of decimal digits (the inverse of Digits). */
  function ParseDigits(s: string): int
  {
    if |s| == 0 then 0 else 10 * ParseDigits(s[..|s| - 1]) + DigitValue(s[|s| - 1])
  }

  /** The value of an optionally signed decimal string (the inverse of DecimalString). */
  function ParseDecimal(s: string): int
  {
    if |s| > 0 && s[0] == '-' then -ParseDigits(s[1..]) else ParseDigits(s)
  }

  lemma {:induction false} ParseDigitsOfDigits(n: nat)
    ensures ParseDigits(Digits(n)) == n
    decreases n
  {
    if n >= 10 {
      ParseDigitsOfDigits(n / 10);
      var s := Digits(n);
      assert s[..|s| - 1] == Digits(n / 10);
    }
  }

  /** toString is injective on integers: its decimal text reads back as the same value. */
  lemma DecimalRoundTrip(n: int)
    ensures ParseDecimal(DecimalString(n)) == n
  {
    if n < 0 {
      ParseDigitsOfDigits(-n);
      assert DecimalString(n)[1..] == Digits(-n);
    } else {
      ParseDigitsOfDigits(n);
      assert IsDigit(Digits(n)[0]);
    }
  }
}
