/** The few pieces of Python's runtime that the plugin relies on: optional
    values, exceptions, `str.lower`, `int(str)` with its whitespace skipping, `str(int)` and
    `str.join`. */
module PyBase {

  datatype Option<+T> = None | Some(value: T) {
    function GetOr(default: T): T {
      match this
      case Some(v) => v
      case None => default
    }
  }

  /** The exceptions the modelled code can raise. */
  datatype PyError =
    | ValueError(literal: string)
    | TypeError
    | NameError(name: string)

  /** Unpacking a sequence of `width` items into `expected` names. */
  function UnpackError(width: nat, expected: nat): PyError
    requires width != expected
  {
    if width < expected then ValueError("not enough values to unpack")
    else ValueError("too many values to unpack")
  }

  /** The outcome of a Python call: a returned value or a raised exception. */
  datatype Try<+T> = Return(value: T) | Raise(error: PyError)

  // ----- str.lower -----

  function LowerChar(c: char): char {
    if 'A' <= c <= 'Z' then (c as int + 32) as char else c
  }

  /** `str.lower`, restricted to the ASCII letters: no capital letter is
      left, and every other character stays where it was. */
  function Lower(s: string): (r: string)
    ensures |r| == |s|
    ensures forall i :: 0 <= i < |r| ==> !('A' <= r[i] <= 'Z')
    ensures forall i :: 0 <= i < |s| && !('A' <= s[i] <= 'Z') ==> r[i] == s[i]
  {
    seq(|s|, i requires 0 <= i < |s| => LowerChar(s[i]))
  }

  /** Lower-casing twice is lower-casing once. */
  lemma LowerIdempotent(s: string)
    ensures Lower(Lower(s)) == Lower(s)
  {
    var once := Lower(s);
    forall i | 0 <= i < |s| ensures Lower(once)[i] == once[i] {
      assert !('A' <= once[i] <= 'Z');
    }
  }

  /** Two strings that differ only in the case of ASCII letters lower to
      the same string: "Started", "STARTED" and "started" all compare equal. */
  lemma LowerIgnoresCase(s: string, t: string)
    requires |s| == |t|
    requires forall i :: 0 <= i < |s| ==> LowerChar(s[i]) == LowerChar(t[i])
    ensures Lower(s) == Lower(t)
  {
    forall i | 0 <= i < |s| ensures Lower(s)[i] == Lower(t)[i] {
      assert Lower(s)[i] == LowerChar(s[i]) && Lower(t)[i] == LowerChar(t[i]);
    }
  }

  // ----- int(str) and str(int) -----

  predicate IsDigit(c: char) { '0' <= c <= '9' }

  predicate AllDigits(s: string) {
    forall i :: 0 <= i < |s| ==> IsDigit(s[i])
  }

  /** The ASCII characters `int()` skips around a number: space, tab, line
      feed, carriage return, vertical tab and form feed. The separators
      0x1C to 0x1F, which `str.strip` would remove, are not among them. */
  predicate IsSpace(c: char) {
    c == ' ' || c == '\t' || c == '\n' || c == '\r' || c == '\U{B}' || c == '\U{C}'
  }

  function StripLeft(s: string): (r: string)
    ensures |r| <= |s| && r == s[|s| - |r|..]
    ensures r == [] || !IsSpace(r[0])
  {
    if |s| > 0 && IsSpace(s[0]) then StripLeft(s[1..]) else s
  }

  function StripRight(s: string): (r: string)
    ensures |r| <= |s| && r == s[..|r|]
    ensures r == [] || !IsSpace(r[|r| - 1])
  {
    if |s| > 0 && IsSpace(s[|s| - 1]) then StripRight(s[..|s| - 1]) else s
  }

  /** The whitespace `int()` skips on both sides of the number. */
  function Strip(s: string): string {
    StripRight(StripLeft(s))
  }

  function DigitValue(c: char): nat
    requires IsDigit(c)
  {
    c as int - '0' as int
  }

  function DigitChar(d: nat): (c: char)
    requires d < 10
    ensures IsDigit(c) && DigitValue(c) == d
  {
    ('0' as int + d) as char
  }

  /** The value of a string of decimal digits, most significant first. */
  function DigitsValue(ds: string): nat
    requires AllDigits(ds)
  {
    if ds == [] then 0 else 10 * DigitsValue(ds[..|ds| - 1]) + DigitValue(ds[|ds| - 1])
  }

  /** The shortest decimal spelling of `n`. */
  function NatToDigits(n: nat): (ds: string)
    ensures AllDigits(ds) && |ds| > 0
    ensures |ds| > 1 ==> ds[0] != '0'
  {
    if n < 10 then [DigitChar(n)] else NatToDigits(n / 10) + [DigitChar(n % 10)]
  }

  /** `str(n)` for an int. */
  function IntToString(n: int): (s: string)
    ensures |s| > 0 && !IsSpace(s[0]) && !IsSpace(s[|s| - 1])
  {
    if n < 0 then "-" + NatToDigits(-n) else NatToDigits(n)
  }

  /** `int(s)` for a str: surrounding whitespace, an optional sign and at
      least one decimal digit; anything else raises ValueError. */
  function ParseInt(s: string): (r: Try<int>)
    ensures r.Raise? ==> r.error == ValueError(s)
  {
    var t := Strip(s);
    if IsIntLiteral(t) then Return(LiteralValue(t)) else Raise(ValueError(s))
  }

  /** A sign followed by digits, or digits alone. */
  predicate IsIntLiteral(t: string) {
    || (|t| > 1 && (t[0] == '-' || t[0] == '+') && AllDigits(t[1..]))
    || (|t| > 0 && AllDigits(t))
  }

  function LiteralValue(t: string): int
    requires IsIntLiteral(t)
  {
    if AllDigits(t) then DigitsValue(t)
    else
      var magnitude: int := DigitsValue(t[1..]);
      if t[0] == '-' then -magnitude else magnitude
  }

  /** A literal holds only digits and signs. */
  lemma LiteralChars(t: string, j: nat)
    requires j < |t| && IsIntLiteral(t)
    ensures IsDigit(t[j]) || t[j] == '+' || t[j] == '-'
  {
    if !AllDigits(t) && j > 0 {
      assert t[1..][j - 1] == t[j];
    }
  }

  lemma {:induction false} DigitsRoundTrip(n: nat)
    ensures DigitsValue(NatToDigits(n)) == n
  {
    if n >= 10 {
      var ds := NatToDigits(n);
      assert ds[..|ds| - 1] == NatToDigits(n / 10);
      DigitsRoundTrip(n / 10);
    }
  }

  lemma StripUnpadded(s: string)
    requires |s| > 0 && !IsSpace(s[0]) && !IsSpace(s[|s| - 1])
    ensures Strip(s) == s
  {
  }

  /** Whitespace that `Strip` removes is only ever at the ends: a
      character that is not whitespace survives. */
  lemma StripKeeps(s: string, i: nat)
    requires i < |s| && !IsSpace(s[i])
    ensures var d := |s| - |StripLeft(s)|;
      d <= i < d + |Strip(s)| && Strip(s)[i - d] == s[i]
  {
    var l := StripLeft(s);
    var d := |s| - |l|;
    StripLeftRemovesSpaces(s, i);
    assert l[i - d] == s[i];
    StripRightRemovesSpaces(l, i - d);
  }

  lemma {:induction false} StripLeftRemovesSpaces(s: string, i: nat)
    requires i < |s| && !IsSpace(s[i])
    ensures |s| - |StripLeft(s)| <= i
  {
    if IsSpace(s[0]) {
      StripLeftRemovesSpaces(s[1..], i - 1);
    }
  }

  lemma {:induction false} StripRightRemovesSpaces(s: string, i: nat)
    requires i < |s| && !IsSpace(s[i])
    ensures i < |StripRight(s)|
  {
    if IsSpace(s[|s| - 1]) {
      StripRightRemovesSpaces(s[..|s| - 1], i);
    }
  }

  /** `int()` of a string holding a character that is neither a digit, a
      sign nor whitespace raises ValueError: "n/a" is not a number. */
  lemma ParseIntRejects(s: string, i: nat)
    requires i < |s| && !IsDigit(s[i]) && !IsSpace(s[i]) && s[i] != '+' && s[i] != '-'
    ensures ParseInt(s) == Raise(ValueError(s))
  {
    StripKeeps(s, i);
    var t := Strip(s);
    if IsIntLiteral(t) {
      LiteralChars(t, i - (|s| - |StripLeft(s)|));
    }
  }

  /** `int()` does not skip a file separator: "\x1c5" raises ValueError. */
  lemma ParseIntSeparator()
    ensures ParseInt("\U{1C}5") == Raise(ValueError("\U{1C}5"))
  {
    ParseIntRejects("\U{1C}5", 0);
  }

  /** `int()` of a non-empty string of digits is its decimal value. */
  lemma ParseIntDigits(ds: string)
    requires |ds| > 0 && AllDigits(ds)
    ensures ParseInt(ds) == Return(DigitsValue(ds))
  {
    StripUnpadded(ds);
  }

  /** `int()` of a minus sign followed by digits is the negated value. */
  lemma ParseIntNegative(ds: string)
    requires |ds| > 0 && AllDigits(ds)
    ensures ParseInt("-" + ds) == Return(-(DigitsValue(ds) as int))
  {
    var s := "-" + ds;
    assert s[0] == '-' && s[1..] == ds && s[|s| - 1] == ds[|ds| - 1];
    StripUnpadded(s);
    NegativeLiteral(s);
    assert ParseInt(s) == Return(LiteralValue(s));
  }

  lemma NegativeLiteral(t: string)
    requires |t| > 1 && t[0] == '-' && AllDigits(t[1..])
    ensures IsIntLiteral(t) && LiteralValue(t) == -(DigitsValue(t[1..]) as int)
  {
    assert !IsDigit(t[0]);
  }

  /** `int(str(n)) == n` */
  lemma IntRoundTrip(n: int)
    ensures ParseInt(IntToString(n)) == Return(n)
  {
    if n < 0 {
      ParseIntNegative(NatToDigits(-n));
      DigitsRoundTrip(-n);
    } else {
      ParseIntDigits(NatToDigits(n));
      DigitsRoundTrip(n);
    }
  }

  // ----- str.join -----

  /** `sep.join(xs)` */
  function Join(sep: string, xs: seq<string>): (r: string)
    ensures |r| == TotalLength(xs) + (if xs == [] then 0 else |sep| * (|xs| - 1))
    ensures |xs| > 0 ==> r[..|xs[0]|] == xs[0]
  {
    if xs == [] then "" else if |xs| == 1 then xs[0] else xs[0] + sep + Join(sep, xs[1..])
  }

  /** The summed length of the strings. */
  function TotalLength(xs: seq<string>): nat {
    if xs == [] then 0 else |xs[0]| + TotalLength(xs[1..])
  }

  /** Where the k-th name starts in the joined string: after the names
      before it, each followed by a separator. */
  function NameOffset(sep: string, xs: seq<string>, k: nat): nat
    requires k <= |xs|
  {
    if k == 0 then 0 else |xs[0]| + |sep| + NameOffset(sep, xs[1..], k - 1)
  }

  /** The k-th name stands in the joined string at its offset. */
  lemma {:induction false} JoinPlacesNames(sep: string, xs: seq<string>, k: nat)
    requires k < |xs|
    ensures var o := NameOffset(sep, xs, k);
      o + |xs[k]| <= |Join(sep, xs)| && Join(sep, xs)[o..o + |xs[k]|] == xs[k]
  {
    if k > 0 {
      var rest := xs[1..];
      var tail := Join(sep, rest);
      JoinPlacesNames(sep, rest, k - 1);
      var o' := NameOffset(sep, rest, k - 1);
      var n := |xs[k]|;
      assert rest[k - 1] == xs[k];
      var head := xs[0] + sep;
      assert Join(sep, xs) == head + tail;
      SliceAfterPrefix(head, tail, o', o' + n);
    }
  }

  lemma SliceAfterPrefix(p: string, q: string, i: nat, j: nat)
    requires i <= j <= |q|
    ensures (p + q)[|p| + i..|p| + j] == q[i..j]
  {
  }
}
