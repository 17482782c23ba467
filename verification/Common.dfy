/** What several modules share: optional values, sequences of addresses, sums, and a little arithmetic. */
module Common {
  datatype Option<+V> = None | Some(value: V)

  const TWO_64: nat := 0x1_0000_0000_0000_0000

  // ----- sequences of addresses or numbers -----

  // The k-th element, or null outside.
  function At(s: seq<nat>, k: int): nat { if 0 <= k < |s| then s[k] else 0 }

  ghost predicate Distinct(s: seq<nat>) { forall i, j :: 0 <= i < j < |s| ==> s[i] != s[j] }

  lemma Differ(s: seq<nat>, i: nat, j: nat)
    requires Distinct(s) && i < |s| && j < |s| && i != j
    ensures s[i] != s[j]
  {
    if i < j { } else { }
  }

  function Without<T>(s: seq<T>, j: nat): seq<T>
    requires j < |s|
  {
    s[..j] + s[j + 1..]
  }

  lemma WithoutAt<T>(s: seq<T>, j: nat)
    requires j < |s|
    ensures |Without(s, j)| == |s| - 1
    ensures forall k :: 0 <= k < |s| - 1 ==> Without(s, j)[k] == s[if k < j then k else k + 1]
  {
  }

  lemma HasFirst(q: seq<nat>)
    ensures q == [] || q[0] in q
  {
  }

  lemma InWithout(s: seq<nat>, j: nat, c: nat)
    requires j < |s| && Distinct(s)
    ensures c in Without(s, j) <==> c in s && c != s[j]
  {
    var t := Without(s, j);
    if c in s && c != s[j] {
      var k :| 0 <= k < |s| && s[k] == c;
      assert t[if k < j then k else k - 1] == c;
    }
    if c in t {
      var k :| 0 <= k < |t| && t[k] == c;
      Differ(s, if k < j then k else k + 1, j);
    }
  }

  lemma WithoutDistinct(s: seq<nat>, j: nat)
    requires j < |s| && Distinct(s)
    ensures Distinct(Without(s, j))
  {
    var t := Without(s, j);
    forall a, b | 0 <= a < b < |t| ensures t[a] != t[b] {
      Differ(s, if a < j then a else a + 1, if b < j then b else b + 1);
    }
  }

  // ----- counting -----

  ghost function Elements(s: seq<nat>): set<nat> { set x | x in s }

  lemma {:induction false} DistinctCount(s: seq<nat>)
    requires Distinct(s)
    ensures |Elements(s)| == |s|
  {
    if s != [] {
      var t := s[..|s| - 1];
      DistinctCount(t);
      assert Elements(s) == Elements(t) + {s[|s| - 1]};
    }
  }

  lemma SubsetCount<T>(a: set<T>, b: set<T>)
    requires a <= b
    ensures |a| <= |b|
    ensures |a| == |b| ==> a == b
  {
    assert b == a + (b - a);
  }

  lemma OneApart<T>(a: set<T>, b: set<T>, t: T)
    requires forall x :: x != t ==> (x in a <==> x in b)
    ensures |b| == |a| + (if t in b then 1 else 0) - (if t in a then 1 else 0)
  {
    var c := a - {t};
    assert c == b - {t};
    assert a == if t in a then c + {t} else c;
    assert b == if t in b then c + {t} else c;
  }

  // ----- sums -----

  function Sum(s: seq<nat>): nat {
    if s == [] then 0 else s[0] + Sum(s[1..])
  }

  lemma {:induction false} SumSnoc(s: seq<nat>, x: nat)
    ensures Sum(s + [x]) == Sum(s) + x
  {
    if s == [] {
      assert s + [x] == [x] && [x][1..] == [];
    } else {
      assert (s + [x])[1..] == s[1..] + [x];
      SumSnoc(s[1..], x);
    }
  }

  lemma {:induction false} SumUpdate(s: seq<nat>, i: nat, x: nat)
    requires i < |s|
    ensures Sum(s[i := x]) == Sum(s) - s[i] + x && Sum(s) >= s[i]
  {
    if i > 0 {
      assert s[i := x][1..] == s[1..][i - 1 := x];
      SumUpdate(s[1..], i - 1, x);
    }
  }

  lemma {:induction false} SumWithout(s: seq<nat>, j: nat)
    requires j < |s|
    ensures Sum(Without(s, j)) == Sum(s) - s[j]
  {
    if j > 0 {
      assert Without(s, j)[1..] == Without(s[1..], j - 1);
      SumWithout(s[1..], j - 1);
    } else {
      assert Without(s, 0) == s[1..];
    }
  }

  lemma {:induction false} SumZero(s: seq<nat>, i: nat)
    requires Sum(s) == 0 && i < |s|
    ensures s[i] == 0
  {
    if i > 0 { SumZero(s[1..], i - 1); }
  }

  lemma {:induction false} ZeroSum(s: seq<nat>)
    requires forall i :: 0 <= i < |s| ==> s[i] == 0
    ensures Sum(s) == 0
  {
    if s != [] { ZeroSum(s[1..]); }
  }

  // ----- arithmetic -----

  lemma Times(a: nat, b: nat, d: nat)
    ensures a <= b ==> a * d <= b * d
  {
  }

  // Arithmetic of size_t.
  function Wrap(x: int): int { x % TWO_64 }

  lemma WrapStep(x: int)
    ensures Wrap(Wrap(x) + 1) == Wrap(x + 1) && Wrap(Wrap(x) - 1) == Wrap(x - 1)
  {
    var q, r := x / TWO_64, x % TWO_64;
    assert x == q * TWO_64 + r;
    if r == TWO_64 - 1 { assert x + 1 == (q + 1) * TWO_64; } else { assert x + 1 == q * TWO_64 + (r + 1); }
    if r == 0 { assert x - 1 == (q - 1) * TWO_64 + (TWO_64 - 1); } else { assert x - 1 == q * TWO_64 + (r - 1); }
  }

  function Quotient(n: nat, d: nat): nat
    requires d > 0
  {
    n / d
  }

  lemma QuotientFacts(n: nat, d: nat, q: nat)
    requires d > 0
    ensures q * d <= n <==> q <= Quotient(n, d)
  {
    var p := n / d;
    assert p * d <= n < (p + 1) * d;
    Times(q, p, d);
    Times(p + 1, q, d);
  }

  lemma Between(k: int, n: nat, d: int)
    requires n > 0 && k * n == d && 0 - n < d < n
    ensures k == 0
  {
    assert k >= 1 ==> k * n >= n;
    assert k <= -1 ==> k * n <= 0 - n;
  }

  // The remainder is the one number below n that leaves a multiple of n.
  lemma ModIs(x: nat, n: nat, q: nat, r: nat)
    requires n > 0 && r < n && x == q * n + r
    ensures x % n == r
  {
    var p, s := x / n, x % n;
    assert p * n + s == q * n + r;
    assert (p - q) * n == r - s;
    Between(p - q, n, r - s);
  }

  lemma MultipleAgain(a: nat, n: nat, i: nat)
    requires n > 0 && a % n == 0
    ensures (a + i * n) % n == 0
  {
    var q := a / n;
    assert a == q * n;
    assert a + i * n == (q + i) * n;
    ModIs(a + i * n, n, q + i, 0);
  }
}
