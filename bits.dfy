/** Unsigned integers as bit vectors stored least-significant bit first, the
    layout of the `bits` vector of the UInt8 ... UInt128 gadgets. */
module Bits {

  /** The field value, 0 or 1, that a boolean wire holds. */
  function BitValue(b: bool): nat {
    if b then 1 else 0
  }

  /** The unsigned integer a bit vector denotes; bits[0] is the least
      significant bit. */
  function Value(bits: seq<bool>): nat {
    if |bits| == 0 then 0 else BitValue(bits[0]) + 2 * Value(bits[1..])
  }

  /** Two vectors of one width that denote the same integer are the same
      vector: the binary numeral of a fixed width is unique. */
  lemma {:induction false} ValueInjective(a: seq<bool>, b: seq<bool>)
    requires |a| == |b|
    requires Value(a) == Value(b)
    ensures a == b
  {
    if |a| > 0 {
      assert a[0] == b[0] && Value(a[1..]) == Value(b[1..]);
      ValueInjective(a[1..], b[1..]);
      assert a == [a[0]] + a[1..] && b == [b[0]] + b[1..];
    }
  }

  /** Putting one more bit below a vector: the new value is that bit plus twice
      the old value. */
  lemma ValuePrepend(x: bool, s: seq<bool>)
    ensures Value([x] + s) == BitValue(x) + 2 * Value(s)
  {
    assert ([x] + s)[1..] == s;
  }

  /** The top k bits of a and of b are the same. */
  predicate TopEqual(a: seq<bool>, b: seq<bool>, k: nat)
    requires k <= |a| == |b|
  {
    a[|a| - k..] == b[|b| - k..]
  }

  /** The top k bits of a, read as an unsigned integer, are at most those of
      b. */
  predicate TopAtMost(a: seq<bool>, b: seq<bool>, k: nat)
    requires k <= |a| == |b|
  {
    Value(a[|a| - k..]) <= Value(b[|b| - k..])
  }

  /** Putting one more bit x below A and y below B: the results are equal iff
      the new bits and the old vectors are, and while A and B tie the new bits
      decide "<=", otherwise A and B do. */
  lemma {:induction false} ComparePrepend(x: bool, y: bool, A: seq<bool>, B: seq<bool>)
    requires |A| == |B|
    ensures ([x] + A == [y] + B) == (x == y && A == B)
    ensures (Value([x] + A) <= Value([y] + B))
         == if A == B then BitValue(x) <= BitValue(y) else Value(A) <= Value(B)
  {
    ValuePrepend(x, A);
    ValuePrepend(y, B);
    if [x] + A == [y] + B {
      assert ([x] + A)[0] == x && ([x] + A)[1..] == A;
      assert ([y] + B)[0] == y && ([y] + B)[1..] == B;
    }
    if A != B && Value(A) == Value(B) {
      ValueInjective(A, B);
    }
  }

  /** One step of a most-significant-first scan: extending the top i bits of
      both operands by the next bit down. */
  lemma TopStep(a: seq<bool>, b: seq<bool>, i: nat)
    requires |a| == |b| && i < |a|
    ensures TopEqual(a, b, i + 1) == (a[|a| - i - 1] == b[|a| - i - 1] && TopEqual(a, b, i))
    ensures TopAtMost(a, b, i + 1)
         == if TopEqual(a, b, i)
            then BitValue(a[|a| - i - 1]) <= BitValue(b[|a| - i - 1])
            else TopAtMost(a, b, i)
  {
    var n := |a|;
    assert a[n - i - 1..] == [a[n - i - 1]] + a[n - i..];
    assert b[n - i - 1..] == [b[n - i - 1]] + b[n - i..];
    ComparePrepend(a[n - i - 1], b[n - i - 1], a[n - i..], b[n - i..]);
  }

  /** Over the whole width, "<=" and not all bits equal is "<". */
  lemma {:induction false} StrictFromTop(a: seq<bool>, b: seq<bool>)
    requires |a| == |b|
    ensures (TopAtMost(a, b, |a|) && !TopEqual(a, b, |a|)) == (Value(a) < Value(b))
  {
    assert a[0..] == a && b[0..] == b;
    if Value(a) == Value(b) {
      ValueInjective(a, b);
    }
  }

  /** Nothing scanned yet: the empty prefixes tie. */
  lemma TopEmpty(a: seq<bool>, b: seq<bool>)
    requires |a| == |b|
    ensures TopEqual(a, b, 0) && TopAtMost(a, b, 0)
  {
  }

  /** The order of two vectors of one width is fixed by their most significant
      differing bit j: a is below b exactly when that bit is set in b. */
  lemma {:induction false} MostSignificantDifference(a: seq<bool>, b: seq<bool>, j: nat)
    requires |a| == |b| && j < |a|
    requires a[j] != b[j]
    requires a[j + 1..] == b[j + 1..]
    ensures (Value(a) < Value(b)) == b[j]
    ensures Value(a) != Value(b)
  {
    if j == 0 {
      assert a[1..] == b[1..];
    } else {
      assert a[1..][j - 1] == a[j] && b[1..][j - 1] == b[j];
      assert a[1..][j..] == a[j + 1..] && b[1..][j..] == b[j + 1..];
      MostSignificantDifference(a[1..], b[1..], j - 1);
    }
  }
}
