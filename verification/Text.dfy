/**
 The strings that data_structure/list.c builds: what scnprintf leaves in a buffer, and the
 decimal digits of "%u".
 */
module Text {
  import opened Modular

  /** What fits a buffer of `size` bytes besides the terminating NUL. */
  function Cut(s: string, size: nat): (r: string)
    requires size > 0
    ensures |r| < size && r <= s
    ensures |s| < size ==> r == s
    ensures |s| >= size ==> |r| == size - 1
  {
    if |s| < size then s else s[..size - 1]
  }

  /** Filling a buffer piece by piece is cutting the whole text once. */
  lemma CutAppend(s: string, piece: string, size: nat)
    requires size > 0
    ensures Cut(s, size) + Cut(piece, size - |Cut(s, size)|) == Cut(s + piece, size)
  {
    var room := size - |Cut(s, size)|;
    if |s| >= size {
      assert Cut(piece, room) == "";
      assert (s + piece)[..size - 1] == s[..size - 1];
    } else if |piece| >= room {
      assert (s + piece)[..size - 1] == s + piece[..room - 1];
    }
  }

  predicate NoNul(s: string) {
    forall i | 0 <= i < |s| :: s[i] != '\0'
  }

  /** scnprintf(buf + at, size, ..) of an already formatted text; the result is the number of
      characters stored before the NUL, 0 when there is no room even for that. */
  method Scnprintf(buf: array<char>, at: nat, size: nat, text: string) returns (n: nat)
    requires at + size <= buf.Length
    modifies buf
    ensures size == 0 ==> n == 0 && buf[..] == old(buf[..])
    ensures size > 0 ==> n == |Cut(text, size)| && buf[at + n] == '\0'
    ensures size > 0 ==> buf[..at + n] == old(buf[..at]) + Cut(text, size)
    ensures buf[at + size..] == old(buf[at + size..])
  {
    n := 0;
    if size == 0 {
      return;
    }
    ghost var before := buf[..at];
    while n < |text| && n + 1 < size
      invariant 0 <= n <= |text| && n < size
      invariant buf[..at + n] == before + text[..n]
      invariant buf[at + size..] == old(buf[at + size..])
    {
      buf[at + n] := text[n];
      assert buf[..at + n + 1] == buf[..at + n] + [text[n]];
      n := n + 1;
    }
    buf[at + n] := '\0';
    assert text[..n] == Cut(text, size);
  }

  /** The C string at the start of a buffer. */
  method CString(buf: array<char>, ghost len: nat) returns (s: string)
    requires len < buf.Length && buf[len] == '\0' && forall i | 0 <= i < len :: buf[i] != '\0'
    ensures s == buf[..len]
  {
    var n := 0;
    while buf[n] != '\0'
      invariant 0 <= n <= len
      decreases len - n
    {
      n := n + 1;
    }
    s := buf[..n];
  }

  // ---------- decimal digits

  function Digit(d: nat): (c: char)
    requires d < 10
    ensures '0' <= c <= '9' && Value(c) == d
  {
    '0' + d as char
  }

  function Value(c: char): nat
    requires '0' <= c <= '9'
  {
    c as nat - '0' as nat
  }

  function Decimal(n: nat): (s: string)
    ensures |s| >= 1 && forall i | 0 <= i < |s| :: '0' <= s[i] <= '9'
  {
    if n < 10 then [Digit(n)] else Decimal(n / 10) + [Digit(n % 10)]
  }

  function Number(s: string): nat
    requires forall i | 0 <= i < |s| :: '0' <= s[i] <= '9'
  {
    if s == [] then 0 else 10 * Number(s[..|s| - 1]) + Value(s[|s| - 1])
  }

  lemma {:induction false} NumberOfDecimal(n: nat)
    ensures Number(Decimal(n)) == n
  {
    var s := Decimal(n);
    if n >= 10 {
      assert s[..|s| - 1] == Decimal(n / 10);
      NumberOfDecimal(n / 10);
    }
  }

  function Pow10(k: nat): (p: nat)
    ensures p >= 1
  {
    if k == 0 then 1 else 10 * Pow10(k - 1)
  }

  lemma DivideTwice(n: nat, p: nat)
    requires p >= 1
    ensures n / 10 / p == n / (10 * p)
  {
    var q, r := n / 10 / p, n / 10 % p;
    assert n / 10 == p * q + r;
    assert n == 10 * (p * q + r) + n % 10;
    assert 10 * (p * q) == (10 * p) * q;
    assert n == (10 * p) * q + (10 * r + n % 10);
    QuotientIs(n, 10 * p, q, 10 * r + n % 10);
  }

  lemma QuotientIs(n: nat, a: nat, q: nat, r: nat)
    requires a >= 1 && r < a && n == a * q + r
    ensures n / a == q
  {
    var q', r' := n / a, n % a;
    assert n == a * q' + r';
    if q < q' {
      AtLeastOneMore(a, q, q');
    } else if q' < q {
      AtLeastOneMore(a, q', q);
    }
  }

  /** The j-th digit from the right is the j-th decimal digit ... */
  lemma {:induction false} DigitAt(n: nat, j: nat)
    requires j < |Decimal(n)|
    ensures Decimal(n)[|Decimal(n)| - 1 - j] == '0' + (n / Pow10(j) % 10) as char
    decreases j
  {
    if j > 0 {
      assert n >= 10;
      DigitAt(n / 10, j - 1);
      DivideTwice(n, Pow10(j - 1));
    }
  }

  /** ... and there is no leading zero. */
  lemma {:induction false} NoLeadingZero(n: nat)
    requires n > 0
    ensures Decimal(n)[0] != '0'
  {
    if n >= 10 { NoLeadingZero(n / 10); }
  }

  lemma {:induction false} DecimalLength(n: nat, k: nat)
    requires k >= 1 && n < Pow10(k)
    ensures |Decimal(n)| <= k
  {
    if n >= 10 {
      DecimalLength(n / 10, k - 1);
    }
  }

  // ---------- the names of the users

  const MAX_USERNAME_LENGTH: nat := 32

  function Formatted(i: nat): string {
    "username#" + Decimal(i)
  }

  /** What init stores in `username`. */
  function UserName(i: nat): string {
    Cut(Formatted(i), MAX_USERNAME_LENGTH)
  }

  /** Every unsigned 32-bit number gives a name that fits its buffer uncut. */
  lemma NameFits(i: nat)
    requires i < 0x1_0000_0000
    ensures UserName(i) == Formatted(i) && |UserName(i)| <= 19
  {
    assert Pow10(10) == 10_000_000_000 by {
      assert Pow10(5) == 100_000;
      assert Pow10(10) == 100_000 * Pow10(5);
    }
    DecimalLength(i, 10);
  }

  /** Different numbers give different names. */
  lemma NamesAreUnique(i: nat, j: nat)
    requires i < 0x1_0000_0000 && j < 0x1_0000_0000
    ensures UserName(i) == UserName(j) <==> i == j
  {
    NameFits(i);
    NameFits(j);
    if UserName(i) == UserName(j) {
      assert Formatted(i)[9..] == Decimal(i) && Formatted(j)[9..] == Decimal(j);
      NumberOfDecimal(i);
      NumberOfDecimal(j);
    }
  }
}
