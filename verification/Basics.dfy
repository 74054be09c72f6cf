/** Values shared by every component of the model. */
module Basics {

  datatype Option<+T> = None | Some(value: T)

  /** What a call answers: a value, or the error it raises. */
  datatype Outcome<+T, +E> = Ok(value: T) | Err(error: E)

  /**
   * SHA-256 over canonical JSON.  The digest of a record is the record under a
   * constructor of its own, so two digests agree exactly when the records do.
   * A digest read from a file may also be no record's digest at all.
   */
  datatype Digest<+T> = Sha256(preimage: T) | Unmatched(text: string)

  /** A stored record together with the digest written beside it. */
  datatype Sealed<+T> = Sealed(body: T, sha: Digest<T>)

  function Seal<T>(body: T): Sealed<T> {
    Sealed(body, Sha256(body))
  }

  predicate Intact<T(==)>(s: Sealed<T>) {
    s.sha == Sha256(s.body)
  }
}

/** Upper and lower case of the letters A to Z. */
module AsciiText {

  function UpperChar(c: char): char {
    if 'a' <= c <= 'z' then (c as int - 32) as char else c
  }

  function LowerChar(c: char): char {
    if 'A' <= c <= 'Z' then (c as int + 32) as char else c
  }

  function Upper(s: string): string {
    seq(|s|, i requires 0 <= i < |s| => UpperChar(s[i]))
  }

  function Lower(s: string): string {
    seq(|s|, i requires 0 <= i < |s| => LowerChar(s[i]))
  }

  const DIGITS := "0123456789"
  const SMALL := "abcdefghijklmnopqrstuvwxyz"
  const CAPITAL := "ABCDEFGHIJKLMNOPQRSTUVWXYZ"

  /** The ranges are the characters spelled out. */
  lemma ClassesExactly(c: char)
    ensures '0' <= c <= '9' <==> c in DIGITS
    ensures 'a' <= c <= 'z' <==> c in SMALL
    ensures 'A' <= c <= 'Z' <==> c in CAPITAL
  {
  }

  predicate IsLetterOrDigit(c: char) {
    c in DIGITS || c in SMALL || c in CAPITAL
  }

  /** The letters change to their partners, and nothing else changes. */
  lemma CaseExactly(c: char, d: nat)
    ensures d < 26 ==> LowerChar(CAPITAL[d]) == SMALL[d] && UpperChar(SMALL[d]) == CAPITAL[d]
    ensures !('A' <= c <= 'Z') ==> LowerChar(c) == c
    ensures !('a' <= c <= 'z') ==> UpperChar(c) == c
  {
    assert d < 26 ==> SMALL[d] == 'a' + d as char && CAPITAL[d] == 'A' + d as char;
  }
}

/** Sums over finite maps, independent of the order in which keys are visited. */
module MapSums {

  ghost function Sum<K(!new)>(m: map<K, nat>): nat
    decreases |m|
  {
    if m == map[] then 0
    else
      var k :| k in m;
      m[k] + Sum(m - {k})
  }

  lemma {:induction false} SumWithout<K(!new)>(m: map<K, nat>, k: K)
    requires k in m
    ensures Sum(m) == m[k] + Sum(m - {k})
    decreases |m|
  {
    var j :| j in m && Sum(m) == m[j] + Sum(m - {j});
    if j != k {
      SumWithout(m - {j}, k);
      SumWithout(m - {k}, j);
      assert m - {j} - {k} == m - {k} - {j};
    }
  }

  lemma SumUpdate<K(!new)>(m: map<K, nat>, k: K, v: nat)
    ensures Sum(m[k := v]) == v + Sum(m - {k})
  {
    SumWithout(m[k := v], k);
    assert m[k := v] - {k} == m - {k};
  }

  lemma SumInsert<K(!new)>(m: map<K, nat>, k: K, v: nat)
    requires k !in m
    ensures Sum(m[k := v]) == v + Sum(m)
  {
    SumUpdate(m, k, v);
    assert m - {k} == m;
  }

  /** A map that adds two others key by key has the sum of their sums. */
  lemma {:induction false} SumPlus<K(!new)>(a: map<K, nat>, b: map<K, nat>, c: map<K, nat>)
    requires a.Keys == b.Keys == c.Keys
    requires forall k :: k in c ==> c[k] == a[k] + b[k]
    ensures Sum(c) == Sum(a) + Sum(b)
    decreases |c|
  {
    if c != map[] {
      var k :| k in c;
      SumWithout(a, k);
      SumWithout(b, k);
      SumWithout(c, k);
      SumPlus(a - {k}, b - {k}, c - {k});
    }
  }

  /** Keys that only carry zeros do not matter. */
  lemma {:induction false} SumZeros<K(!new)>(small: map<K, nat>, big: map<K, nat>)
    requires small.Keys <= big.Keys
    requires forall k :: k in small ==> small[k] == big[k]
    requires forall k :: k in big && k !in small ==> big[k] == 0
    ensures Sum(small) == Sum(big)
    decreases |big|
  {
    var extra := big.Keys - small.Keys;
    if extra == {} {
      assert small == big;
    } else {
      var k :| k in extra;
      SumWithout(big, k);
      SumZeros(small, big - {k});
    }
  }
}
