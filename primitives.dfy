/**
 * Value types shared by every module: optionals, results, byte strings,
 * timestamps, the 32-bit integers Core Data stores, and the string
 * renderings Swift's string interpolation produces for them.
 */
module Primitives {

  datatype Option<+T> = None | Some(value: T) {
    /** Swift's `??`: the wrapped value, or `other` when absent. */
    function OrElse(other: T): T {
      if Some? then value else other
    }
  }

  datatype Result<+T, +E> = Success(value: T) | Failure(error: E)

  /** Foundation `Data`. */
  type Bytes = seq<bv8>

  /** Foundation `Date`, kept as an ordered time stamp: only order and equality matter. */
  type Date = int

  /** Swift `Int32`. */
  newtype Int32 = x: int | -0x8000_0000 <= x < 0x8000_0000

  /** `Int32(x)` traps unless this holds. */
  predicate FitsInt32(x: int) {
    -0x8000_0000 <= x < 0x8000_0000
  }

  /** `Int32(x)` for a value that fits. */
  function ToInt32(x: int): (r: Int32)
    requires FitsInt32(x)
    ensures r as int == x
  {
    x as Int32
  }

  predicate IsDigit(c: char) {
    '0' <= c <= '9'
  }

  /** Decimal rendering of a natural number, as `"\(n)"` prints it. */
  function NatToString(n: nat): (s: string)
    ensures |s| >= 1
    ensures forall i :: 0 <= i < |s| ==> IsDigit(s[i])
    ensures n > 0 ==> s[0] != '0'
  {
    var d := "0123456789"[n % 10];
    if n < 10 then [d] else NatToString(n / 10) + [d]
  }

  /** Decimal rendering of an integer, with a leading '-' when negative. */
  function IntToString(i: int): (s: string)
    ensures |s| >= 1
    ensures (s[0] == '-') == (i < 0)
  {
    if i < 0 then "-" + NatToString(-i) else NatToString(i)
  }

  /** `"\(b)"` for a Bool. */
  function BoolToString(b: bool): string {
    if b then "true" else "false"
  }

  /** Swift's `lowercased()` restricted to ASCII letters; other characters are kept. */
  function LowerAscii(s: string): (r: string)
    ensures |r| == |s|
    ensures forall i :: 0 <= i < |s| ==> r[i] == (if 'A' <= s[i] <= 'Z' then (s[i] as int + 32) as char else s[i])
  {
    if s == [] then []
    else [if 'A' <= s[0] <= 'Z' then (s[0] as int + 32) as char else s[0]] + LowerAscii(s[1..])
  }

  predicate Distinct<T(==)>(s: seq<T>) {
    forall i, j :: 0 <= i < j < |s| ==> s[i] != s[j]
  }

  /** Lists a finite set in some order, each element once: how an engine hands back what it holds. */
  method ListOf<T(==)>(s: set<T>) returns (r: seq<T>)
    ensures Distinct(r)
    ensures |r| == |s|
    ensures forall x :: x in r <==> x in s
  {
    r := [];
    var rest := s;
    while rest != {}
      invariant rest <= s
      invariant forall x :: x in r <==> x in s && x !in rest
      invariant Distinct(r)
      invariant |r| + |rest| == |s|
      decreases |rest|
    {
      var x :| x in rest;
      r := r + [x];
      rest := rest - {x};
    }
  }

  /** No two keys of the map hold the same value. */
  predicate Injective<K, V(==)>(m: map<K, V>) {
    forall k1, k2 :: k1 in m && k2 in m && k1 != k2 ==> m[k1] != m[k2]
  }

  /** Lists the values a dictionary holds, one per key, in some order (`Array(dict.values)`). */
  method ListValues<K(==), V(==)>(m: map<K, V>) returns (r: seq<V>)
    ensures |r| == |m|
    ensures forall x :: x in r <==> x in m.Values
    ensures Injective(m) ==> Distinct(r)
  {
    var keys := ListOf(m.Keys);
    r := seq(|keys|, i requires 0 <= i < |keys| => m[keys[i]]);
    forall x | x in m.Values ensures x in r {
      var k :| k in m && m[k] == x;
      var i :| 0 <= i < |keys| && keys[i] == k;
      assert r[i] == x;
    }
  }
}
