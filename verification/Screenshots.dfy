/** The file names of the screenshots: the frame number in decimal, padded with zeros to a width
    of five. */
module Screenshots {

  const WIDTH := 5
  const PREFIX := "/screenshot_"
  const SUFFIX := ".png"

  function Digit(d: nat): char
    requires d < 10
  {
    ('0' as int + d) as char
  }

  /** A number as a stream prints it. */
  function Decimal(n: nat): (s: string)
    ensures s != ""
  {
    if n < 10 then [Digit(n)] else Decimal(n / 10) + [Digit(n % 10)]
  }

  function Zeros(n: nat): (s: string)
    ensures |s| == n
  {
    seq(n, _ => '0')
  }

  /** What the fill character and the width make of it. */
  function Padded(n: nat): (s: string)
    ensures |s| >= WIDTH
  {
    var s := Decimal(n);
    if |s| < WIDTH then Zeros(WIDTH - |s|) + s else s
  }

  function FileName(path: string, n: nat): string {
    path + PREFIX + Padded(n) + SUFFIX
  }

  /* ---------- Reading a name back ---------- */

  predicate Numeral(s: string) {
    forall i :: 0 <= i < |s| ==> '0' <= s[i] <= '9'
  }

  function Value(s: string): nat
    requires Numeral(s)
  {
    if s == "" then 0
    else
      var most := s[..|s| - 1];
      Value(most) * 10 + (s[|s| - 1] as int - '0' as int)
  }

  lemma {:induction false} DecimalValue(n: nat)
    ensures Numeral(Decimal(n)) && Value(Decimal(n)) == n
  {
    var s := Decimal(n);
    if n < 10 {
      assert s[..0] == "";
    } else {
      DecimalValue(n / 10);
      assert s[..|s| - 1] == Decimal(n / 10);
    }
  }

  lemma {:induction false} ZerosValue(k: nat, s: string)
    requires Numeral(s)
    ensures Numeral(Zeros(k) + s) && Value(Zeros(k) + s) == Value(s)
    decreases k + |s|
  {
    var z := Zeros(k) + s;
    if s != "" {
      ZerosValue(k, s[..|s| - 1]);
      assert z[..|z| - 1] == Zeros(k) + s[..|s| - 1];
    } else if k > 0 {
      ZerosValue(k - 1, s);
      assert z[..|z| - 1] == Zeros(k - 1) + s;
    }
  }

  /** The number can be read back from its padded form. */
  lemma PaddedValue(n: nat)
    ensures Numeral(Padded(n)) && Value(Padded(n)) == n
  {
    DecimalValue(n);
    var s := Decimal(n);
    if |s| < WIDTH {
      ZerosValue(WIDTH - |s|, s);
    }
  }

  /** Different frames go to different files. */
  lemma NamesDiffer(path: string, a: nat, b: nat)
    ensures FileName(path, a) == FileName(path, b) <==> a == b
  {
    PaddedValue(a);
    PaddedValue(b);
    var x, y := FileName(path, a), FileName(path, b);
    if x == y {
      var start := |path + PREFIX|;
      assert x[start..|x| - |SUFFIX|] == Padded(a);
      assert y[start..|y| - |SUFFIX|] == Padded(b);
    }
  }

  /* ---------- The order of names ---------- */

  /** The order in which a directory listing shows two names. */
  predicate Before(a: string, b: string) {
    if b == "" then false
    else if a == "" then true
    else a[0] < b[0] || (a[0] == b[0] && Before(a[1..], b[1..]))
  }

  lemma {:induction false} BeforeCommonStart(p: string, a: string, b: string)
    ensures Before(p + a, p + b) <==> Before(a, b)
  {
    if p == "" {
      assert p + a == a && p + b == b;
    } else {
      BeforeCommonStart(p[1..], a, b);
      assert (p + a)[1..] == p[1..] + a && (p + b)[1..] == p[1..] + b;
    }
  }

  lemma {:induction false} BeforeSameLength(a: string, b: string, x: string, y: string)
    requires |a| == |b|
    ensures Before(a + x, b + y) <==> Before(a, b) || (a == b && Before(x, y))
  {
    if a == "" {
      assert a + x == x && b + y == y;
    } else {
      BeforeSameLength(a[1..], b[1..], x, y);
      assert (a + x)[1..] == a[1..] + x && (b + y)[1..] == b[1..] + y;
      assert a == [a[0]] + a[1..] && b == [b[0]] + b[1..];
    }
  }

  lemma {:induction false} NotBeforeItself(a: string)
    ensures !Before(a, a)
  {
    if a == "" {
    } else {
      NotBeforeItself(a[1..]);
    }
  }

  /** Numerals of one length are ordered as their values are, and determined by them. */
  lemma {:induction false} OrderIsValue(a: string, b: string)
    requires Numeral(a) && Numeral(b) && |a| == |b|
    ensures Before(a, b) <==> Value(a) < Value(b)
    ensures a == b <==> Value(a) == Value(b)
  {
    if a == "" {
    } else {
      var a', b' := a[..|a| - 1], b[..|b| - 1];
      var x, y := a[|a| - 1], b[|b| - 1];
      OrderIsValue(a', b');
      assert a == a' + [x] && b == b' + [y];
      BeforeSameLength(a', b', [x], [y]);
    }
  }

  lemma DecimalLength(n: nat)
    ensures |Decimal(n)| <= WIDTH <==> n <= 99999
  {
    DecimalSize(n, 4);
  }

  function Power(k: nat): (p: nat)
    ensures p > 0
  {
    if k == 0 then 1 else 10 * Power(k - 1)
  }

  lemma {:induction false} DecimalSize(n: nat, k: nat)
    ensures |Decimal(n)| <= k + 1 <==> n < Power(k + 1)
  {
    if k == 0 {
      assert Power(1) == 10;
    } else if n < 10 {
      assert Power(k + 1) == 10 * Power(k);
    } else {
      DecimalSize(n / 10, k - 1);
      assert Power(k + 1) == 10 * Power(k);
    }
  }

  /** Up to 99999 the order of the file names is the order of the frames. */
  lemma NamesInOrder(path: string, a: nat, b: nat)
    requires a <= 99999 && b <= 99999
    ensures Before(FileName(path, a), FileName(path, b)) <==> a < b
  {
    PaddedValue(a);
    PaddedValue(b);
    DecimalLength(a);
    DecimalLength(b);
    var x, y := Padded(a), Padded(b);
    OrderIsValue(x, y);
    BeforeSameLength(x, y, SUFFIX, SUFFIX);
    NotBeforeItself(SUFFIX);
    BeforeCommonStart(path + PREFIX, x + SUFFIX, y + SUFFIX);
    assert FileName(path, a) == path + PREFIX + (x + SUFFIX);
    assert FileName(path, b) == path + PREFIX + (y + SUFFIX);
  }

  predicate InOrder(path: string, a: nat, b: nat) {
    Before(FileName(path, a), FileName(path, b))
  }

  /** And that is as far as it goes: the frames 0 to last come in order exactly when last has no
      more than five digits. */
  lemma OrderedExactly(path: string, last: nat)
    ensures (forall a: nat, b: nat :: a < b <= last ==> InOrder(path, a, b)) <==> last <= 99999
  {
    if last <= 99999 {
      forall a: nat, b: nat | a < b <= last
        ensures InOrder(path, a, b)
      {
        NamesInOrder(path, a, b);
      }
    } else {
      OutOfOrder(path);
    }
  }

  function Leading(n: nat): (d: nat)
    ensures d < 10
  {
    if n < 10 then n else Leading(n / 10)
  }

  lemma {:induction false} FirstDigit(n: nat)
    ensures Decimal(n)[0] == Digit(Leading(n))
  {
    if n >= 10 {
      FirstDigit(n / 10);
    }
  }

  /** The name of the frame 100000 comes before the name of the frame 99999. */
  lemma OutOfOrder(path: string)
    ensures !InOrder(path, 99999, 100000)
  {
    var x, y := Padded(99999), Padded(100000);
    FirstDigit(99999);
    FirstDigit(100000);
    assert Leading(99999) == 9 && Leading(100000) == 1;
    DecimalLength(99999);
    BeforeCommonStart(path + PREFIX, x + SUFFIX, y + SUFFIX);
    assert FileName(path, 99999) == path + PREFIX + (x + SUFFIX);
    assert FileName(path, 100000) == path + PREFIX + (y + SUFFIX);
  }
}
