/** Byte strings, decimal printing and parsing, and line splitting.

A Go string is a sequence of bytes; here it is a Dafny `string` whose every `char` stands
for one byte. */
module Text {
  const TWO_63 := 0x8000_0000_0000_0000
  const TWO_64 := 0x1_0000_0000_0000_0000

  /** What a 64-bit signed variable holds after the exact result `x` is stored in it. */
  function Wrap64(x: int): (r: int)
    ensures -TWO_63 <= r < TWO_63
    ensures -TWO_63 <= x < TWO_63 ==> r == x
    decreases if -TWO_63 <= x < TWO_63 then 0 else if x < 0 then -x else x
  {
    if x < -TWO_63 then Wrap64(x + TWO_64)
    else if x >= TWO_63 then Wrap64(x - TWO_64)
    else x
  }

  lemma {:induction false} WrapShift(x: int, q: int)
    ensures Wrap64(x + q * TWO_64) == Wrap64(x)
    decreases if q < 0 then -q else q
  {
    if q > 0 {
      WrapShift(x, q - 1);
      WrapOnce(x + (q - 1) * TWO_64);
    } else if q < 0 {
      WrapShift(x, q + 1);
      WrapOnce(x + q * TWO_64);
    }
  }

  lemma {:induction false} WrapOnce(x: int)
    ensures Wrap64(x + TWO_64) == Wrap64(x)
  {
  }

  lemma {:induction false} WrapQuotient(x: int) returns (q: int)
    ensures Wrap64(x) == x + q * TWO_64
    decreases if -TWO_63 <= x < TWO_63 then 0 else if x < 0 then -x else x
  {
    if x < -TWO_63 {
      q := WrapQuotient(x + TWO_64);
      q := q + 1;
    } else if x >= TWO_63 {
      q := WrapQuotient(x - TWO_64);
      q := q - 1;
    } else {
      q := 0;
    }
  }

  /** Wrapping after every addition is wrapping once at the end. */
  lemma WrapAdd(x: int, y: int)
    ensures Wrap64(Wrap64(x) + y) == Wrap64(x + y)
    ensures Wrap64(Wrap64(x) + Wrap64(y)) == Wrap64(x + y)
  {
    var p := WrapQuotient(x);
    var q := WrapQuotient(y);
    WrapShift(x + y, p);
    assert Wrap64(x) + Wrap64(y) == x + y + (p + q) * TWO_64;
    WrapShift(x + y, p + q);
  }

  /** 64-bit addition of two variables that hold the wrapped values of `a` and `b`. */
  method Add64(x: int, y: int, ghost a: int, ghost b: int) returns (z: int)
    requires x == Wrap64(a) && y == Wrap64(b)
    ensures z == Wrap64(a + b)
  {
    WrapAdd(a, b);
    z := Wrap64(x + y);
  }

  lemma WrapMulAdd(x: int, y: int)
    ensures Wrap64(Wrap64(x) * 10 + y) == Wrap64(x * 10 + y)
  {
    var q := WrapQuotient(x);
    WrapShift(x * 10 + y, q * 10);
  }

  function Repeat(c: char, n: nat): (s: string)
    ensures |s| == n && forall i :: 0 <= i < n ==> s[i] == c
  {
    seq(n, _ => c)
  }

  predicate StartsWith(s: string, c: char) {
    |s| > 0 && s[0] == c
  }

  predicate Contains(s: string, sub: string) {
    exists i :: 0 <= i <= |s| - |sub| && sub <= s[i..]
  }

  // ---------------------------------------------------------------- decimal numbers

  predicate IsDigit(c: char) {
    '0' <= c <= '9'
  }

  predicate AllDigits(s: string) {
    forall i :: 0 <= i < |s| ==> IsDigit(s[i])
  }

  function DigitValue(c: char): (d: int)
    requires IsDigit(c)
    ensures 0 <= d < 10
  {
    c as int - '0' as int
  }

  function DigitChar(d: int): (c: char)
    requires 0 <= d < 10
    ensures IsDigit(c) && DigitValue(c) == d
  {
    ('0' as int + d) as char
  }

  /** The number a string of digits denotes. */
  function DecValue(s: string): nat
    requires AllDigits(s)
  {
    if s == "" then 0 else DecValue(s[..|s| - 1]) * 10 + DigitValue(s[|s| - 1])
  }

  /** Decimal digits without leading zeros, as `%d` prints a non-negative number. */
  function Dec(n: nat): (s: string)
    ensures |s| >= 1 && AllDigits(s)
  {
    if n < 10 then [DigitChar(n)] else Dec(n / 10) + [DigitChar(n % 10)]
  }

  /** `%d`. */
  function FormatInt(n: int): string {
    if n < 0 then "-" + Dec(-n) else Dec(n)
  }

  /** `%0wd`: zeros go after the sign; a number that is too wide is not cut. */
  function ZeroPad(n: int, w: nat): (s: string)
    ensures |s| >= w
  {
    if n < 0 then
      var d := Dec(-n);
      if |d| + 1 >= w then "-" + d else "-" + Repeat('0', w - 1 - |d|) + d
    else
      var d := Dec(n);
      if |d| >= w then d else Repeat('0', w - |d|) + d
  }

  function Pow10(n: nat): (p: nat)
    ensures p >= 1
  {
    if n == 0 then 1 else 10 * Pow10(n - 1)
  }

  lemma {:induction false} DecValueConcat(a: string, b: string)
    requires AllDigits(a) && AllDigits(b)
    ensures AllDigits(a + b)
    ensures DecValue(a + b) == DecValue(a) * Pow10(|b|) + DecValue(b)
  {
    if b == "" {
      assert a + b == a;
    } else {
      var b' := b[..|b| - 1];
      assert (a + b)[..|a + b| - 1] == a + b';
      DecValueConcat(a, b');
      assert (a + b)[|a + b| - 1] == b[|b| - 1];
      ShiftTen(DecValue(a), Pow10(|b'|), DecValue(b'));
    }
  }

  lemma ShiftTen(x: int, p: int, y: int)
    ensures (x * p + y) * 10 == x * (10 * p) + y * 10
  {
  }

  lemma {:induction false} DecValueBound(s: string)
    requires AllDigits(s)
    ensures DecValue(s) < Pow10(|s|)
  {
    if s != "" {
      DecValueBound(s[..|s| - 1]);
    }
  }

  lemma {:induction false} DecValueZeros(n: nat)
    ensures AllDigits(Repeat('0', n)) && DecValue(Repeat('0', n)) == 0
  {
    if n > 0 {
      DecValueZeros(n - 1);
      assert Repeat('0', n)[..n - 1] == Repeat('0', n - 1);
    }
  }

  /** Printing then reading a number gives it back. */
  lemma {:induction false} DecRoundTrip(n: nat)
    ensures DecValue(Dec(n)) == n
  {
    if n >= 10 {
      DecRoundTrip(n / 10);
      assert Dec(n)[..|Dec(n)| - 1] == Dec(n / 10);
    }
  }

  /** `Dec` fits in `w` places exactly for the numbers below ten to the `w`. */
  lemma {:induction false} DecWidth(n: nat, w: nat)
    requires w >= 1
    ensures |Dec(n)| <= w <==> n < Pow10(w)
  {
    if w == 1 {
    } else if n >= 10 {
      DecWidth(n / 10, w - 1);
    } else {
      Pow10AtLeast(w);
    }
  }

  lemma {:induction false} Pow10AtLeast(w: nat)
    requires w >= 1
    ensures Pow10(w) >= 10
  {
    if w > 1 {
      Pow10AtLeast(w - 1);
    }
  }

  /** A non-negative number padded to `w` places: digits only, the same number, and no wider
      than `w` exactly when it is below ten to the `w`. */
  lemma ZeroPadMeaning(n: nat, w: nat)
    requires w >= 1
    ensures AllDigits(ZeroPad(n, w)) && DecValue(ZeroPad(n, w)) == n
    ensures |ZeroPad(n, w)| == w <==> n < Pow10(w)
  {
    DecRoundTrip(n);
    DecWidth(n, w);
    var d := Dec(n);
    if |d| < w {
      DecValueZeros(w - |d|);
      DecValueConcat(Repeat('0', w - |d|), d);
    }
  }

  /** The value `parseInt` returns: zero (and an error) as soon as a byte is not a digit. */
  function ParsedInt(s: string): int {
    if AllDigits(s) then Wrap64(DecValue(s)) else 0
  }

  method ParseInt(s: string) returns (n: int, ok: bool)
    ensures ok == AllDigits(s)
    ensures n == ParsedInt(s)
    ensures n == if AllDigits(s) then Wrap64(DecValue(s)) else 0
  {
    n := 0;
    var i := 0;
    while i < |s|
      invariant 0 <= i <= |s|
      invariant AllDigits(s[..i]) && n == Wrap64(DecValue(s[..i]))
    {
      if s[i] < '0' || s[i] > '9' {
        return 0, false;
      }
      assert s[..i + 1][..i] == s[..i];
      WrapMulAdd(DecValue(s[..i]), DigitValue(s[i]));
      n := Wrap64(n * 10 + DigitValue(s[i]));
      i := i + 1;
    }
    assert s[..|s|] == s;
    ok := true;
  }

  /** A field of at most eighteen digits cannot wrap. */
  lemma ParsedShort(s: string)
    requires |s| <= 18 && AllDigits(s)
    ensures ParsedInt(s) == DecValue(s) < Pow10(|s|)
  {
    DecValueBound(s);
    Pow10Mono(|s|, 18);
    Pow10Eighteen();
  }

  lemma Pow10Eighteen()
    ensures Pow10(6) == 1_000_000
    ensures Pow10(10) == 10_000_000_000
    ensures Pow10(12) == 1_000_000_000_000
    ensures Pow10(18) == 1_000_000_000_000_000_000
  {
    assert Pow10(3) == 1000;
    assert Pow10(6) == 1_000_000;
    assert Pow10(9) == 1_000_000_000;
    assert Pow10(12) == 1_000_000_000_000;
    assert Pow10(15) == 1_000_000_000_000_000;
  }

  lemma {:induction false} Pow10Mono(m: nat, n: nat)
    requires m <= n
    ensures Pow10(m) <= Pow10(n)
    decreases n - m
  {
    if m < n {
      Pow10Mono(m + 1, n);
    }
  }

  /** Reading back only the first `w` places of a padded number. */
  function FieldRead(n: int, w: nat): int {
    ParsedInt(ZeroPad(n, w)[..w])
  }

  /** The field gives the number back exactly when the number fits; a wider one reads short. */
  lemma FieldReadMeaning(n: nat, w: nat)
    requires 1 <= w <= 18
    ensures AllDigits(ZeroPad(n, w)[..w])
    ensures n < Pow10(w) ==> FieldRead(n, w) == n
    ensures n >= Pow10(w) ==> FieldRead(n, w) < n
    ensures 0 <= FieldRead(n, w) < Pow10(w)
  {
    ZeroPadMeaning(n, w);
    ParsedShort(ZeroPad(n, w)[..w]);
    if n < Pow10(w) {
      assert ZeroPad(n, w)[..w] == ZeroPad(n, w);
    }
  }

  /** A number `extra` places too wide for its field reads as its leading digits. */
  lemma FieldReadWide(n: nat, w: nat, extra: nat)
    requires 1 <= w <= 18 && extra > 0 && Pow10(w + extra - 1) <= n < Pow10(w + extra)
    ensures ZeroPad(n, w) == Dec(n) && |Dec(n)| == w + extra
    ensures FieldRead(n, w) == n / Pow10(extra)
    ensures DecValue(Dec(n)[w..]) == n % Pow10(extra)
  {
    var d := Dec(n);
    DecWidth(n, w + extra);
    DecWidth(n, w + extra - 1);
    SplitDigits(d, w, n, extra);
    ParsedShort(d[..w]);
  }

  lemma {:induction false} SplitDigits(d: string, w: nat, n: nat, extra: nat)
    requires d == Dec(n) && |d| == w + extra
    ensures DecValue(d[..w]) == n / Pow10(extra) && DecValue(d[w..]) == n % Pow10(extra)
  {
    var high, low := d[..w], d[w..];
    DecRoundTrip(n);
    assert d == high + low;
    DecValueConcat(high, low);
    DecValueBound(low);
    QuotientUnique(n, Pow10(extra), DecValue(high), DecValue(low));
  }

  lemma QuotientUnique(n: nat, m: nat, q: nat, r: nat)
    requires 0 <= r < m && n == q * m + r
    ensures n / m == q && n % m == r
  {
    var q' := n / m;
    assert q' * m <= n < q' * m + m;
    if q > q' {
      MulMono(q' + 1, q, m);
    } else if q < q' {
      MulMono(q + 1, q', m);
    }
  }

  lemma MulMono(x: int, y: int, m: nat)
    requires x <= y
    ensures x * m <= y * m
  {
  }

  // ---------------------------------------------------------------- lines

  predicate NoNewline(s: string) {
    forall i :: 0 <= i < |s| ==> s[i] != '\n'
  }

  /** `strings.TrimRight(s, "\n")`. */
  function TrimNewlines(s: string): string {
    if s != "" && s[|s| - 1] == '\n' then TrimNewlines(s[..|s| - 1]) else s
  }

  /** `strings.Split(s, "\n")`; never empty. */
  function Split(s: string): (lines: seq<string>)
    ensures |lines| >= 1
  {
    if s == "" then [""]
    else if s[0] == '\n' then [""] + Split(s[1..])
    else var rest := Split(s[1..]); [[s[0]] + rest[0]] + rest[1..]
  }

  /** Every line followed by a newline. */
  function Unlines(lines: seq<string>): string {
    if lines == [] then "" else Unlines(lines[..|lines| - 1]) + lines[|lines| - 1] + "\n"
  }

  lemma {:induction false} UnlinesConcat(a: seq<string>, b: seq<string>)
    ensures Unlines(a + b) == Unlines(a) + Unlines(b)
  {
    if b == [] {
      assert a + b == a;
    } else {
      var b' := b[..|b| - 1];
      assert (a + b)[..|a + b| - 1] == a + b';
      UnlinesConcat(a, b');
    }
  }

  lemma {:induction false} SplitSingle(line: string)
    requires NoNewline(line)
    ensures Split(line) == [line]
  {
    if line != "" {
      SplitSingle(line[1..]);
      assert [line[0]] + line[1..] == line;
    }
  }

  lemma TailOfJoin(x: string, y: string)
    requires x != ""
    ensures (x + "\n" + y)[0] == x[0] && (x + "\n" + y)[1..] == x[1..] + "\n" + y
  {
  }

  /** Splitting at a newline splits both sides. */
  lemma {:induction false} SplitTwo(x: string, y: string)
    ensures Split(x + "\n" + y) == Split(x) + Split(y)
  {
    if x == "" {
      assert (x + "\n" + y)[1..] == y;
    } else {
      TailOfJoin(x, y);
      SplitTwo(x[1..], y);
    }
  }

  /** The pieces all lines fall into, one line after the other. */
  function SplitAll(lines: seq<string>): seq<string> {
    if lines == [] then [] else Split(lines[0]) + SplitAll(lines[1..])
  }

  lemma {:induction false} SplitAllConcat(a: seq<string>, b: seq<string>)
    ensures SplitAll(a + b) == SplitAll(a) + SplitAll(b)
  {
    if a == [] {
      assert a + b == b;
    } else {
      assert (a + b)[1..] == a[1..] + b;
      SplitAllConcat(a[1..], b);
    }
  }

  lemma {:induction false} SplitAllClean(lines: seq<string>)
    requires forall i :: 0 <= i < |lines| ==> NoNewline(lines[i])
    ensures SplitAll(lines) == lines
  {
    if lines != [] {
      SplitSingle(lines[0]);
      SplitAllClean(lines[1..]);
      assert lines == [lines[0]] + lines[1..];
    }
  }

  lemma {:induction false} SplitUnlines(init: seq<string>, last: string)
    ensures Split(Unlines(init) + last) == SplitAll(init) + Split(last)
  {
    if init == [] {
      assert Unlines(init) + last == last;
    } else {
      var rest := Unlines(init[1..]) + last;
      assert init == [init[0]] + init[1..];
      UnlinesConcat([init[0]], init[1..]);
      assert Unlines([init[0]]) == Unlines([]) + init[0] + "\n";
      assert Unlines(init) + last == init[0] + "\n" + rest;
      SplitTwo(init[0], rest);
      SplitUnlines(init[1..], last);
    }
  }

  /** Joining any lines into a text and splitting it again gives the pieces of each line, as long
      as the last line is not empty and free of newlines. */
  lemma SplitJoin(init: seq<string>, last: string)
    requires last != "" && NoNewline(last)
    ensures Split(TrimNewlines(Unlines(init + [last]))) == SplitAll(init) + [last]
    ensures (forall i :: 0 <= i < |init| ==> NoNewline(init[i])) ==> SplitAll(init) == init
  {
    assert (init + [last])[..|init|] == init;
    TrimLast(Unlines(init), last);
    SplitUnlines(init, last);
    SplitSingle(last);
    if forall i :: 0 <= i < |init| ==> NoNewline(init[i]) {
      SplitAllClean(init);
    }
  }

  lemma Regroup(a: seq<string>, b: seq<string>, c: seq<string>)
    ensures a + b + c == a + (b + c)
  {
  }

  /** Only the lines in front need splitting when those at the end hold no newline. */
  lemma SplitBefore(before: seq<string>, lines: seq<string>)
    requires lines != [] && lines[|lines| - 1] != "" && forall i :: 0 <= i < |lines| ==> NoNewline(lines[i])
    ensures Split(TrimNewlines(Unlines(before + lines))) == SplitAll(before) + lines
  {
    var init, last := lines[..|lines| - 1], lines[|lines| - 1];
    assert lines == init + [last];
    Regroup(before, init, [last]);
    SplitJoin(before + init, last);
    SplitAllConcat(before, init);
    SplitAllClean(init);
    Regroup(SplitAll(before), init, [last]);
  }

  lemma TrimLast(a: string, last: string)
    requires last != "" && NoNewline(last)
    ensures TrimNewlines(a + last + "\n") == a + last
  {
    assert (a + last)[|a + last| - 1] == last[|last| - 1];
    TrimOne(a + last);
  }

  lemma TrimOne(body: string)
    requires body != "" && body[|body| - 1] != '\n'
    ensures TrimNewlines(body + "\n") == body
  {
    assert (body + "\n")[..|body|] == body;
  }
}
