/** The in-memory store's ids ("task-%d", "lease-%d") and Go's order on strings. */
module Strings {
  function Digit(n: nat): char
    requires n < 10
  {
    '0' + n as char
  }

  /** `%d` of a non-negative number. */
  function Decimal(n: nat): (s: string)
    ensures s != ""
  {
    if n < 10 then [Digit(n)] else Decimal(n / 10) + [Digit(n % 10)]
  }

  /** What a string of digits stands for. */
  function ValueOf(s: string): int {
    if s == [] then 0 else 10 * ValueOf(s[..|s| - 1]) + (s[|s| - 1] as int - '0' as int)
  }

  /** It is digits only, without leading zeros, and stands for the number. */
  lemma {:induction false} DecimalSays(n: nat)
    ensures ValueOf(Decimal(n)) == n
    ensures forall i :: 0 <= i < |Decimal(n)| ==> '0' <= Decimal(n)[i] <= '9'
    ensures Decimal(n)[0] == '0' <==> n == 0
  {
    if n >= 10 {
      DecimalSays(n / 10);
      assert Decimal(n)[..|Decimal(n)| - 1] == Decimal(n / 10);
    } else {
      assert [Digit(n)][..0] == [];
    }
  }

  function TaskId(n: nat): string { "task-" + Decimal(n) }

  function LeaseToken(n: nat): string { "lease-" + Decimal(n) }

  lemma {:induction false} DecimalIsInjective(a: nat, b: nat)
    requires Decimal(a) == Decimal(b)
    ensures a == b
  {
    var s := Decimal(a);
    assert s[|s| - 1] == Digit(a % 10) == Digit(b % 10);
    if a >= 10 && b >= 10 {
      assert Decimal(a / 10) == s[..|s| - 1] == Decimal(b / 10);
      DecimalIsInjective(a / 10, b / 10);
    }
  }

  lemma IdsAreInjective(a: nat, b: nat)
    ensures TaskId(a) == TaskId(b) ==> a == b
    ensures LeaseToken(a) == LeaseToken(b) ==> a == b
    ensures LeaseToken(a) != ""
    ensures "task-" <= TaskId(a) && "lease-" <= LeaseToken(a)
  {
    assert TaskId(a)[5..] == Decimal(a) && TaskId(b)[5..] == Decimal(b);
    assert LeaseToken(a)[6..] == Decimal(a) && LeaseToken(b)[6..] == Decimal(b);
    if Decimal(a) == Decimal(b) {
      DecimalIsInjective(a, b);
    }
  }

  /** Lexicographic order, as `<` on Go strings. */
  predicate LexLess(a: string, b: string) {
    b != [] && (a == [] || a[0] < b[0] || (a[0] == b[0] && LexLess(a[1..], b[1..])))
  }

  /** `a` is a proper prefix of `b`, or has the smaller character where the two
      first differ. */
  ghost predicate ComesBefore(a: string, b: string) {
    exists i :: DiffersAt(a, b, i)
  }

  ghost predicate DiffersAt(a: string, b: string, i: int) {
    0 <= i <= |a| && i < |b| && a[..i] == b[..i] && (i == |a| || a[i] < b[i])
  }

  lemma {:induction false} LexLessSays(a: string, b: string)
    ensures LexLess(a, b) <==> ComesBefore(a, b)
  {
    if b != [] && a != [] && a[0] == b[0] {
      LexLessSays(a[1..], b[1..]);
      if i :| DiffersAt(a[1..], b[1..], i) {
        assert a[..i + 1] == [a[0]] + a[1..][..i] && b[..i + 1] == [b[0]] + b[1..][..i];
        assert DiffersAt(a, b, i + 1);
      }
      if i :| DiffersAt(a, b, i) {
        assert i > 0 && a[1..][..i - 1] == a[..i][1..] && b[1..][..i - 1] == b[..i][1..];
        assert DiffersAt(a[1..], b[1..], i - 1);
      }
    } else {
      if i :| DiffersAt(a, b, i) {
        if i > 0 {
          SameStart(a, b, i);
        }
      }
      if LexLess(a, b) {
        assert DiffersAt(a, b, 0);
      }
    }
  }

  lemma SameStart(a: string, b: string, i: int)
    requires DiffersAt(a, b, i) && i > 0
    ensures a != [] && b != [] && a[0] == b[0]
  {
    assert a[..i][0] == b[..i][0];
  }

  lemma {:induction false} LexLessIsTotal(a: string, b: string)
    ensures a == b <==> !LexLess(a, b) && !LexLess(b, a)
    ensures !(LexLess(a, b) && LexLess(b, a))
  {
    if a != [] && b != [] && a[0] == b[0] {
      LexLessIsTotal(a[1..], b[1..]);
      assert a == [a[0]] + a[1..] && b == [b[0]] + b[1..];
    }
  }

  lemma {:induction false} LexLessIsTransitive(a: string, b: string, c: string)
    requires LexLess(a, b) && LexLess(b, c)
    ensures LexLess(a, c)
  {
    if a != [] && a[0] == b[0] == c[0] {
      LexLessIsTransitive(a[1..], b[1..], c[1..]);
    }
  }
}
