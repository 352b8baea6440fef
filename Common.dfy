/** Values shared by every component: optional values, identities, timestamps,
    and the text helpers the React handlers use on form input. */
module Common {

  datatype Option<T> = None | Some(value: T) {
    /** `x ?? d` */
    function GetOr(default: T): T {
      match this
      case Some(v) => v
      case None => default
    }
  }

  datatype Result<T> = Success(value: T) | Failure(message: string)

  /** An octet of a digest (`Uint8Array` element). */
  type Byte = b: int | 0 <= b < 256

  /** The authenticated identity handed out by the auth service. */
  type UserId = string

  /** An instant as the backend stores it: its ISO-8601 text together with
      the millisecond count since the epoch that the text denotes. */
  datatype Timestamp = Timestamp(iso: string, millis: int)

  /** The browser's reading of a `datetime-local` text: the instant, or
      `None` for an Invalid Date, whose `toISOString()` throws `RangeError`. */
  type DateParser = string -> Option<Timestamp>

  /** `new Date(text).toISOString()`: an empty text is always an Invalid Date;
      any other text is read by `parse`. */
  function ParseDate(parse: DateParser, text: string): (r: Option<Timestamp>)
    ensures text == "" ==> r.None?
  {
    if text == "" then None else parse(text)
  }

  const SecondMs := 1000
  const MinuteMs := 1000 * 60
  const HourMs := 1000 * 60 * 60

  /** Milliseconds per hour times cents per dollar: a duration of `ms`
      milliseconds at `cents` cents an hour earns `ms * cents / EarningsScale`
      dollars. */
  const EarningsScale := 1000 * 60 * 60 * 100

  /** `text || null` as the handlers write it before an insert or update. */
  function OrNull(s: string): (r: Option<string>)
    ensures r.None? <==> s == ""
    ensures r.Some? ==> r.value == s
  {
    if s == "" then None else Some(s)
  }

  /** `err.message || fallback` */
  function MessageOr(message: string, fallback: string): (r: string)
    ensures message != "" ==> r == message
    ensures message == "" ==> r == fallback
  {
    if message != "" then message else fallback
  }

  predicate IsDigit(c: char) { '0' <= c <= '9' }

  predicate AllDigits(s: string) {
    forall i :: 0 <= i < |s| ==> IsDigit(s[i])
  }

  /** `value.replace(/\D/g, '')`: keeps the decimal digits, in order. */
  function StripNonDigits(s: string): (r: string)
    ensures AllDigits(r) && |r| <= |s|
    ensures r == s <==> AllDigits(s)
  {
    if s == [] then []
    else
      var rest := StripNonDigits(s[1..]);
      assert AllDigits(s) ==> AllDigits(s[1..]) by {
        if AllDigits(s) {
          forall i | 0 <= i < |s[1..]| ensures IsDigit(s[1..][i]) { assert s[1..][i] == s[i + 1]; }
        }
      }
      if IsDigit(s[0]) then
        assert AllDigits([s[0]] + rest) by {
          forall i | 0 <= i < |[s[0]] + rest| ensures IsDigit(([s[0]] + rest)[i]) {
            if i > 0 { assert ([s[0]] + rest)[i] == rest[i - 1]; }
          }
        }
        assert [s[0]] + rest == s ==> rest == s[1..] by {
          if [s[0]] + rest == s { assert s[1..] == ([s[0]] + rest)[1..]; }
        }
        [s[0]] + rest
      else
        assert !AllDigits(s) by { assert !IsDigit(s[0]); }
        rest
  }

  /** The browser's `maxLength` limit on an input: at most the first `n` characters. */
  function Take(s: string, n: nat): (r: string)
    ensures |r| <= n && |r| <= |s|
    ensures r == s[..|r|]
    ensures |s| <= n ==> r == s
  {
    if |s| <= n then s else s[..n]
  }

  /** The value a numeric input holds after typing `raw` into it:
      `maxLength={n}` and `onChange={e => set(e.target.value.replace(/\D/g, ''))}`. */
  function DigitInput(raw: string, maxLength: nat): (r: string)
    ensures AllDigits(r) && |r| <= maxLength
    ensures AllDigits(raw) && |raw| <= maxLength ==> r == raw
  {
    StripNonDigits(Take(raw, maxLength))
  }

  function DigitChar(d: nat): (c: char)
    requires d < 10
    ensures IsDigit(c) && c as int - '0' as int == d
  {
    ('0' as int + d) as char
  }

  /** Decimal text of a natural number, as `String(n)` or `n.toString()` give it. */
  function NatToString(n: nat): (s: string)
    ensures 1 <= |s| && AllDigits(s)
    decreases n
  {
    if n < 10 then [DigitChar(n)]
    else
      var prefix := NatToString(n / 10);
      var s := prefix + [DigitChar(n % 10)];
      assert forall i | 0 <= i < |s| :: IsDigit(s[i]) by {
        forall i | 0 <= i < |s| ensures IsDigit(s[i]) {
          if i < |prefix| { assert s[i] == prefix[i]; }
        }
      }
      s
  }

  function Pow10(k: nat): (p: nat)
    ensures p >= 1
  {
    if k == 0 then 1 else 10 * Pow10(k - 1)
  }

  /** A number with exactly `k` decimal digits prints as `k` characters. */
  lemma {:induction false} NatToStringLength(n: nat, k: nat)
    requires 1 <= k && Pow10(k - 1) <= n < Pow10(k)
    ensures |NatToString(n)| == k
    decreases k
  {
    if k == 1 {
      assert n < 10;
    } else {
      assert n >= 10 by { assert Pow10(k - 1) == 10 * Pow10(k - 2); }
      assert Pow10(k - 2) <= n / 10 < Pow10(k - 1) by {
        assert Pow10(k - 1) == 10 * Pow10(k - 2);
        assert Pow10(k) == 10 * Pow10(k - 1);
      }
      NatToStringLength(n / 10, k - 1);
    }
  }

  /** Decimal text of an integer, with a leading '-' when negative (`String(n)`). */
  function IntToString(n: int): (s: string)
    ensures 1 <= |s|
    ensures n >= 0 ==> s == NatToString(n)
    ensures n < 0 ==> s == "-" + NatToString(-n)
  {
    if n >= 0 then NatToString(n) else "-" + NatToString(-n)
  }

  /** `s.padStart(width, pad)` */
  function PadStart(s: string, width: nat, pad: char): (r: string)
    ensures |r| == if |s| >= width then |s| else width
    ensures r[|r| - |s|..] == s
    ensures forall i :: 0 <= i < |r| - |s| ==> r[i] == pad
  {
    if |s| >= width then s else seq(width - |s|, _ => pad) + s
  }

  /** JavaScript's `a % b` for a positive divisor: the remainder takes the sign of `a`. */
  function JsRem(a: int, b: int): (r: int)
    requires b > 0
    ensures a >= 0 ==> 0 <= r < b && r == a % b
    ensures a < 0 ==> -b < r <= 0 && r == -((-a) % b)
  {
    if a >= 0 then a % b else -((-a) % b)
  }

  /** `array.filter(keep)`: the elements that pass, in their original order.
      It recurses on the last element so that it unfolds the way the
      rows arrive (see `FilterSnoc`). */
  function Filter<T(==,!new)>(s: seq<T>, keep: T -> bool): (r: seq<T>)
    ensures |r| <= |s|
    ensures forall x :: x in r <==> x in s && keep(x)
    ensures (forall i :: 0 <= i < |s| ==> keep(s[i])) ==> r == s
    decreases |s|
  {
    if s == [] then []
    else
      var init, last := s[..|s| - 1], s[|s| - 1];
      assert s == init + [last];
      assert forall i :: 0 <= i < |init| ==> init[i] == s[i];
      var rest := Filter(init, keep);
      if keep(last) then rest + [last] else rest
  }

  /** Filtering one more element adds it at the end exactly when it passes. */
  lemma FilterSnoc<T(!new)>(s: seq<T>, x: T, keep: T -> bool)
    ensures Filter(s + [x], keep) == Filter(s, keep) + (if keep(x) then [x] else [])
  {
    assert (s + [x])[..|s|] == s;
  }

  /** Sequences whose elements are pairwise different. */
  predicate Distinct<T(==)>(s: seq<T>) {
    forall i, j :: 0 <= i < j < |s| ==> s[i] != s[j]
  }

  /** Filtering a list of distinct values leaves them distinct. */
  lemma {:induction false} FilterDistinct<T(!new)>(s: seq<T>, keep: T -> bool)
    ensures Distinct(s) ==> Distinct(Filter(s, keep))
    decreases |s|
  {
    if s != [] && Distinct(s) {
      var init, last := s[..|s| - 1], s[|s| - 1];
      assert s == init + [last];
      assert Distinct(init) && last !in init;
      FilterDistinct(init, keep);
    }
  }

  /** A SQL `UPDATE ... WHERE`: every element that matches is replaced by its
      updated version; the others stay, in place. */
  function UpdateWhere<T>(s: seq<T>, matches: T -> bool, update: T -> T): (r: seq<T>)
    ensures |r| == |s|
    ensures forall i :: 0 <= i < |s| ==> r[i] == if matches(s[i]) then update(s[i]) else s[i]
  {
    seq(|s|, i requires 0 <= i < |s| => if matches(s[i]) then update(s[i]) else s[i])
  }

  /** The digits of a decimal text read back as a number. */
  function DecimalValue(s: string): nat
    requires AllDigits(s)
  {
    if s == [] then 0
    else
      var init := s[..|s| - 1];
      assert AllDigits(init) by {
        forall i | 0 <= i < |init| ensures IsDigit(init[i]) { assert init[i] == s[i]; }
      }
      10 * DecimalValue(init) + (s[|s| - 1] as int - '0' as int)
  }

  /** Appending a digit to a decimal text multiplies its value by ten and adds the digit. */
  lemma DecimalValueSnoc(s: string, c: char)
    requires AllDigits(s) && IsDigit(c)
    ensures AllDigits(s + [c])
    ensures DecimalValue(s + [c]) == 10 * DecimalValue(s) + (c as int - '0' as int)
  {
    assert (s + [c])[..|s + [c]| - 1] == s;
  }

  /** `x.toFixed(2)` picks the integer `k` for which `k / 100 - x` is closest to
      zero, the larger one on a tie. For `x = n / d` with `n >= 0` that is the
      number of hundredths rounded half up. */
  function RoundedHundredths(n: nat, d: int): (k: nat)
    requires d > 0
    ensures 2 * d * k <= 200 * n + d < 2 * d * (k + 1)
  {
    var a, b := 200 * n + d, 2 * d;
    assert a == b * (a / b) + a % b;
    assert b * (a / b) == 2 * d * (a / b) && b * (a / b + 1) == 2 * d * (a / b + 1);
    a / b
  }

  /** The characters a number written with a sign and a decimal point is made of. */
  predicate NumberChars(s: string) {
    forall i :: 0 <= i < |s| ==> s[i] == '-' || s[i] == '.' || IsDigit(s[i])
  }

  /** `k` hundredths written with two decimals: the whole part, '.', two digits. */
  function Hundredths(k: nat): (r: string)
    ensures |r| >= 4 && r[|r| - 3] == '.' && IsDigit(r[0])
    ensures NumberChars(r)
  {
    var whole := NatToString(k / 100);
    var r := whole + "." + [DigitChar(k % 100 / 10), DigitChar(k % 10)];
    assert forall i :: 0 <= i < |whole| ==> r[i] == whole[i];
    r
  }

  /** The digits of `Hundredths(k)`, the point left out, denote `k`. */
  lemma HundredthsValue(k: nat)
    ensures var r := Hundredths(k);
      AllDigits(r[..|r| - 3] + r[|r| - 2..]) && DecimalValue(r[..|r| - 3] + r[|r| - 2..]) == k
  {
    var whole := NatToString(k / 100);
    var tenths, hundredths := DigitChar(k % 100 / 10), DigitChar(k % 10);
    var r := Hundredths(k);
    assert r == whole + "." + [tenths, hundredths];
    assert r[..|r| - 3] + r[|r| - 2..] == whole + [tenths] + [hundredths];
    DecimalValueSnoc(whole, tenths);
    DecimalValueSnoc(whole + [tenths], hundredths);
    DecimalValueOfNatToString(k / 100);
  }

  /** `(n / d).toFixed(2)` on the exact quotient: the sign of a negative
      quotient, then its rounded magnitude with two decimals. A negative
      quotient that rounds to zero still prints as "-0.00". */
  function Fixed2(n: int, d: int): (r: string)
    requires d > 0
    ensures |r| >= 4 && r[|r| - 3] == '.'
    ensures (r[0] == '-') == (n < 0)
    ensures NumberChars(r)
  {
    var u := Hundredths(RoundedHundredths(if n < 0 then -n else n, d));
    if n < 0 then
      var r := "-" + u;
      assert forall i :: 1 <= i < |r| ==> r[i] == u[i - 1];
      r
    else u
  }

  /** The text of `Fixed2(n, d)` reads back as the rounded magnitude of
      `n / d`: with the sign and the point left out, its digits denote it. */
  lemma Fixed2Value(n: int, d: int)
    requires d > 0
    ensures var r := Fixed2(n, d);
      var digits := (if n < 0 then r[1..|r| - 3] else r[..|r| - 3]) + r[|r| - 2..];
      AllDigits(digits) && DecimalValue(digits) == RoundedHundredths(if n < 0 then -n else n, d)
  {
    var k := RoundedHundredths(if n < 0 then -n else n, d);
    var u := Hundredths(k);
    HundredthsValue(k);
    var r := Fixed2(n, d);
    if n < 0 {
      assert r == "-" + u;
      SignedSlices(u);
    } else {
      assert r == u;
    }
    assert (if n < 0 then r[1..|r| - 3] else r[..|r| - 3]) + r[|r| - 2..] == u[..|u| - 3] + u[|u| - 2..];
  }

  lemma SignedSlices(u: string)
    requires |u| >= 3
    ensures var r := "-" + u;
      r[1..|r| - 3] == u[..|u| - 3] && r[|r| - 2..] == u[|u| - 2..]
  {
  }

  /** `String(n)` can be read back: its digits denote `n`. */
  lemma {:induction false} DecimalValueOfNatToString(n: nat)
    ensures DecimalValue(NatToString(n)) == n
    decreases n
  {
    var s := NatToString(n);
    if n >= 10 {
      DecimalValueOfNatToString(n / 10);
      assert s[..|s| - 1] == NatToString(n / 10);
    }
  }
}
