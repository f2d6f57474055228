/**
 Text as the service sees it: Go's byte-wise string order, decimal rendering of an int64, and
 the pre-image of the request fingerprint.
 */
module Text {

  /** Go's `a < b` on strings. */
  predicate Less(a: string, b: string) {
    if |b| == 0 then false
    else if |a| == 0 then true
    else a[0] < b[0] || (a[0] == b[0] && Less(a[1..], b[1..]))
  }

  lemma {:induction false} LessIsIrreflexive(a: string)
    ensures !Less(a, a)
  {
    if |a| > 0 {
      LessIsIrreflexive(a[1..]);
    }
  }

  lemma {:induction false} LessIsTransitive(a: string, b: string, c: string)
    requires Less(a, b) && Less(b, c)
    ensures Less(a, c)
  {
    if |a| > 0 && a[0] == b[0] == c[0] {
      LessIsTransitive(a[1..], b[1..], c[1..]);
    }
  }

  lemma {:induction false} LessIsTotal(a: string, b: string)
    ensures Less(a, b) || a == b || Less(b, a)
  {
    if |a| > 0 && |b| > 0 && a[0] == b[0] {
      LessIsTotal(a[1..], b[1..]);
      assert a == [a[0]] + a[1..] && b == [b[0]] + b[1..];
    }
  }

  /** What the comparison means: at the first difference, `b` goes on or has the greater character. */
  lemma {:induction false} LessIsByFirstDifference(a: string, b: string)
    ensures Less(a, b) <==> exists k: nat :: k <= |a| && DiffersUpwards(a, b, k)
  {
    if Less(a, b) {
      if |a| == 0 || a[0] < b[0] {
        assert DiffersUpwards(a, b, 0);
      } else {
        LessIsByFirstDifference(a[1..], b[1..]);
        var k: nat :| k <= |a[1..]| && DiffersUpwards(a[1..], b[1..], k);
        assert a[..k + 1] == [a[0]] + a[1..][..k] && b[..k + 1] == [b[0]] + b[1..][..k];
        assert DiffersUpwards(a, b, k + 1);
      }
    } else if k: nat :| k <= |a| && DiffersUpwards(a, b, k) {
      if k > 0 {
        assert a[0] == a[..k][0] == b[..k][0] == b[0];
        assert a[1..][..k - 1] == a[..k][1..] == b[..k][1..] == b[1..][..k - 1];
        assert DiffersUpwards(a[1..], b[1..], k - 1);
        LessIsByFirstDifference(a[1..], b[1..]);
      }
    }
  }

  predicate DiffersUpwards(a: string, b: string, k: nat)
    requires k <= |a|
  {
    k < |b| && a[..k] == b[..k] && (k == |a| || a[k] < b[k])
  }

  /** `fmt.Sprintf("%d", n)` for a non-negative number. */
  function Digits(n: nat): (s: string)
    ensures |s| > 0 && forall i | 0 <= i < |s| :: '0' <= s[i] <= '9'
  {
    var last := ['0' + (n % 10) as char];
    if n < 10 then last else Digits(n / 10) + last
  }

  /** `fmt.Sprintf("%d", n)`. */
  function Decimal(n: int): string {
    if n < 0 then "-" + Digits(-n) else Digits(n)
  }

  /** The number a string of digits stands for. */
  function Value(s: string): int {
    if s == "" then 0 else 10 * Value(s[..|s| - 1]) + (s[|s| - 1] as int - '0' as int)
  }

  lemma {:induction false} DigitsStandForTheNumber(n: nat)
    ensures Value(Digits(n)) == n
    ensures n > 0 ==> Digits(n)[0] != '0'
  {
    var s := Digits(n);
    if n < 10 {
      assert s[..0] == "";
    } else {
      DigitsStandForTheNumber(n / 10);
      assert s[..|s| - 1] == Digits(n / 10);
    }
  }

  lemma {:induction false} DigitsAreInjective(m: nat, n: nat)
    requires Digits(m) == Digits(n)
    ensures m == n
  {
    var dm, dn := Digits(m), Digits(n);
    assert dm[|dm| - 1] == '0' + (m % 10) as char;
    assert dn[|dn| - 1] == '0' + (n % 10) as char;
    if m >= 10 && n >= 10 {
      assert Digits(m / 10) == dm[..|dm| - 1] == dn[..|dn| - 1] == Digits(n / 10);
      DigitsAreInjective(m / 10, n / 10);
    }
  }

  lemma DecimalIsInjective(m: int, n: int)
    requires Decimal(m) == Decimal(n)
    ensures m == n
  {
    assert (Decimal(m)[0] == '-') == (m < 0) && (Decimal(n)[0] == '-') == (n < 0);
    if m < 0 && n < 0 {
      assert Digits(-m) == Decimal(m)[1..] == Decimal(n)[1..] == Digits(-n);
      DigitsAreInjective(-m, -n);
    } else if m >= 0 && n >= 0 {
      DigitsAreInjective(m, n);
    }
  }

  /** What `Fingerprint` hashes; SHA-256 is taken to be collision-free, so the model keeps the pre-image. */
  function Fingerprint(from: string, to: string, amount: int): string {
    "v1|" + (from + "|" + (to + "|" + Decimal(amount)))
  }

  /** The text that is hashed, in full. */
  lemma FingerprintReads(from: string, to: string, amount: int)
    ensures amount >= 0 ==> Fingerprint(from, to, amount) == "v1|" + from + "|" + to + "|" + Digits(amount)
    ensures amount < 0 ==> Fingerprint(from, to, amount) == "v1|" + from + "|" + to + "|-" + Digits(-amount)
  {
    assert "|-" == "|" + "-";
  }

  /** Cutting at the first separator is unambiguous when the left part has none. */
  lemma FirstFieldIsDetermined(a: string, x: string, b: string, y: string)
    requires '|' !in a && '|' !in b
    requires a + "|" + x == b + "|" + y
    ensures a == b && x == y
  {
    var s, t := a + "|" + x, b + "|" + y;
    assert s[|a|] == '|' && t[|b|] == '|';
    assert forall i | 0 <= i < |a| :: s[i] == a[i];
    assert forall i | 0 <= i < |b| :: t[i] == b[i];
    assert a == s[..|a|] && b == t[..|b|];
    assert x == s[|a| + 1..] && y == t[|b| + 1..];
  }

  lemma SamePrefix(p: string, x: string, y: string)
    requires p + x == p + y
    ensures x == y
  {
    assert x == (p + x)[|p|..] && y == (p + y)[|p|..];
  }

  /**
   Two requests whose wallet ids carry no separator have equal fingerprints exactly when they
   name the same source text, destination text and amount.
   */
  lemma FingerprintIsInjective(from: string, to: string, amount: int, from': string, to': string, amount': int)
    requires '|' !in from && '|' !in to && '|' !in from' && '|' !in to'
    ensures Fingerprint(from, to, amount) == Fingerprint(from', to', amount')
       <==> (from == from' && to == to' && amount == amount')
  {
    if Fingerprint(from, to, amount) == Fingerprint(from', to', amount') {
      var r, r' := to + "|" + Decimal(amount), to' + "|" + Decimal(amount');
      SamePrefix("v1|", from + "|" + r, from' + "|" + r');
      FirstFieldIsDetermined(from, r, from', r');
      FirstFieldIsDetermined(to, Decimal(amount), to', Decimal(amount'));
      DecimalIsInjective(amount, amount');
    }
  }

  /** Without the side condition two different requests can collide. */
  lemma SeparatorsInIdsCollide()
    ensures Fingerprint("a|b", "c", 1) == Fingerprint("a", "b|c", 1)
  {
    var tail := "|" + Decimal(1);
    assert "a|b" + "|" + ("c" + tail) == "a" + "|" + ("b|c" + tail);
  }
}
