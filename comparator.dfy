/** The comparator gadget for unsigned integers held as bit vectors: strict
    less-than evaluated bit by bit from the most significant end, and the
    three relations derived from it by swapping operands and negating. One
    width-generic model stands for the per-width copies (UInt8 ... UInt128). */
module Comparator {
  import opened Results
  import opened Bits
  import opened ConstraintSystems
  import opened Booleans

  /** The scope of the closing gate, opened once per comparison. */
  const FinalGate: Name := Plain("false if all equal")

  /** The five scopes opened for the bit at scan position i (i = 0 is the
      most significant bit), in the order the gates are called. */
  function BitGates(i: nat): seq<Name> {
    [ Indexed("not a and b", i), Indexed("a XOR b", i), Indexed("less or equal", i),
      Indexed("select bit", i), Indexed("accumulate equal", i) ]
  }

  /** The scopes opened for the top k bits, five per bit. */
  function PerBitGates(k: nat): (g: seq<Name>)
    ensures |g| == 5 * k
  {
    if k == 0 then [] else PerBitGates(k - 1) + BitGates(k - 1)
  }

  /** Every scope a comparison of width w opens, in order. It depends on the
      width only, never on the bit values: 5 * w + 1 gate calls, the closing
      gate last. */
  function Schedule(w: nat): (s: seq<Name>)
    ensures |s| == 5 * w + 1
    ensures s[5 * w] == FinalGate
  {
    PerBitGates(w) + [FinalGate]
  }

  /** The gates of scan position i sit at positions 5 * i ... 5 * i + 4 of the
      schedule. */
  lemma {:induction false} ScheduleAt(w: nat, i: nat)
    requires i < w
    ensures Schedule(w)[5 * i..5 * i + 5] == BitGates(i)
  {
    PerBitGatesAt(w, i);
    assert Schedule(w)[5 * i..5 * i + 5] == PerBitGates(w)[5 * i..5 * i + 5];
  }

  lemma {:induction false} PerBitGatesAt(k: nat, i: nat)
    requires i < k
    ensures PerBitGates(k)[5 * i..5 * i + 5] == BitGates(i)
  {
    var front := PerBitGates(k - 1);
    assert PerBitGates(k) == front + BitGates(k - 1);
    if i < k - 1 {
      PerBitGatesAt(k - 1, i);
      assert 5 * i + 5 <= |front|;
      assert (front + BitGates(k - 1))[5 * i..5 * i + 5] == front[5 * i..5 * i + 5];
    } else {
      assert |front| == 5 * i;
      assert (front + BitGates(k - 1))[5 * i..5 * i + 5] == BitGates(k - 1);
    }
  }

  /** Every scope name of one comparison is different from every other: the
      five tags differ, and the gates of different bits carry different
      indices. */
  lemma {:induction false} ScheduleDistinct(w: nat)
    ensures Distinct(Schedule(w))
  {
    PerBitGatesDistinct(w);
  }

  /** The per-bit scopes are pairwise different, and each carries the scan
      position of its bit. */
  lemma {:induction false} PerBitGatesDistinct(k: nat)
    ensures Distinct(PerBitGates(k))
    ensures forall j :: 0 <= j < 5 * k ==> PerBitGates(k)[j].Indexed? && PerBitGates(k)[j].index < k
  {
    if k > 0 {
      PerBitGatesDistinct(k - 1);
      var front: seq<Name>, last: seq<Name> := PerBitGates(k - 1), BitGates(k - 1);
      assert PerBitGates(k) == front + last;
      forall j | 0 <= j < 5 * k
        ensures (front + last)[j].Indexed? && (front + last)[j].index < k
      {
        if j < |front| {
          assert (front + last)[j] == front[j];
        }
      }
      forall i, j | 0 <= i < j < |front + last|
        ensures (front + last)[i] != (front + last)[j]
      {
        if j < |front| {
          assert (front + last)[i] == front[i] && (front + last)[j] == front[j];
        } else if i < |front| {
          assert (front + last)[i] == front[i];
        }
      }
    }
  }

  /** On a system that refuses only repeated names, a comparison whose scopes
      are all new to it completes and appends exactly its 5 * w + 1 scopes. */
  lemma ComparisonCompletesOnFreshScopes(log: seq<Name>, w: nat)
    requires forall n :: n in Schedule(w) ==> n !in log
    ensures Run(RejectDuplicates, log, Schedule(w)) == Trace(log + Schedule(w), None)
  {
    ScheduleDistinct(w);
    FreshNamesComplete(log, Schedule(w));
  }

  /** What the scan carries from one bit to the next: `result` says the top
      bits seen so far of the left operand are <= those of the right one,
      `allEqual` that they all tie. */
  datatype Scan = Scan(result: bool, allEqual: bool)

  /** The five gates of the bit at scan position i, holding x in the left
      and y in the right operand: the bit's own "<=" verdict is adopted while
      every higher bit has tied, and the tie flag is narrowed. */
  method ScanBit(cs: ConstraintSystem, i: nat, x: bool, y: bool, acc: Scan) returns (r: Result<Scan, SynthesisError>)
    modifies cs
    ensures var t := Run(cs.admit, old(cs.log), BitGates(i));
            && cs.log == t.log
            && (t.failure.Some? ==> r == Failure(t.failure.value))
            && (t.failure.None? ==> r == Success(Scan(if acc.allEqual then !x || y else acc.result,
                                                     acc.allEqual && x == y)))
  {
    ghost var rest := BitGates(i);
    ghost var outcome := Run(cs.admit, cs.log, rest);

    RunHead(cs.admit, cs.log, rest);
    var less :- And(cs, Indexed("not a and b", i), !x, y);
    rest := rest[1..];

    RunHead(cs.admit, cs.log, rest);
    var notEqual :- Xor(cs, Indexed("a XOR b", i), x, y);
    var equal := !notEqual;
    rest := rest[1..];

    RunHead(cs.admit, cs.log, rest);
    var lessOrEqual :- Or(cs, Indexed("less or equal", i), less, equal);
    rest := rest[1..];

    RunHead(cs.admit, cs.log, rest);
    var result :- ConditionallySelect(cs, Indexed("select bit", i), acc.allEqual, lessOrEqual, acc.result);
    rest := rest[1..];

    RunHead(cs.admit, cs.log, rest);
    var allEqual :- And(cs, Indexed("accumulate equal", i), acc.allEqual, equal);

    r := Success(Scan(result, allEqual));
  }

  /** The scan over all bits, most significant first, as the `for` loop of
      less_than runs it: it opens the per-bit scopes in order and, when none
      is refused, ends with `result` telling whether a <= b and `allEqual`
      whether a == b. The first refused gate ends it with that gate's error. */
  method ScanBits(cs: ConstraintSystem, a: seq<bool>, b: seq<bool>) returns (r: Result<Scan, SynthesisError>)
    requires |a| == |b|
    modifies cs
    ensures var t := Run(cs.admit, old(cs.log), PerBitGates(|a|));
            && cs.log == t.log
            && (t.failure.Some? ==> r == Failure(t.failure.value))
            && (t.failure.None? ==> r == Success(Scan(Value(a) <= Value(b), a == b)))
  {
    var w := |a|;
    ghost var G := PerBitGates(w);
    ghost var outcome := Run(cs.admit, cs.log, G);
    var acc := Scan(true, true);
    TopEmpty(a, b);
    for i := 0 to w
      invariant Run(cs.admit, cs.log, G[5 * i..]) == outcome
      invariant acc.allEqual == TopEqual(a, b, i)
      invariant acc.result == TopAtMost(a, b, i)
    {
      var x, y := a[w - 1 - i], b[w - 1 - i];
      assert Run(cs.admit, cs.log, G[5 * i..])
          == var t := Run(cs.admit, cs.log, BitGates(i));
             if t.failure.Some? then t else Run(cs.admit, t.log, G[5 * (i + 1)..])
      by {
        PerBitGatesAt(w, i);
        assert G[5 * i..] == BitGates(i) + G[5 * i + 5..];
        RunAppend(cs.admit, cs.log, BitGates(i), G[5 * i + 5..]);
      }
      TopStep(a, b, i);
      acc :- ScanBit(cs, i, x, y, acc);
    }
    assert G[5 * w..] == [];
    assert a[0..] == a && b[0..] == b;
    r := Success(acc);
  }

  /** What a comparison of width w leaves behind when the relation it
      evaluates holds exactly when `holds` does: it has issued the gates of
      Schedule(w) until the first refusal, and returns either that refusal's
      error, unchanged, or the verdict. */
  ghost predicate Compared(admit: Admission, before: seq<Name>, after: seq<Name>, w: nat,
                           r: Result<bool, SynthesisError>, holds: bool)
  {
    var t := Run(admit, before, Schedule(w));
    && after == t.log
    && (t.failure.Some? ==> r == Failure(t.failure.value))
    && (t.failure.None? ==> r == Success(holds))
  }

  /** Strict less-than of two unsigned integers of one width: the scan of
      ScanBits, then one closing AND with "not all equal" that turns "<="
      into "<". Every gate error is returned at once and unchanged. */
  method LessThan(cs: ConstraintSystem, a: seq<bool>, b: seq<bool>) returns (r: Result<bool, SynthesisError>)
    requires |a| == |b|
    modifies cs
    ensures Compared(cs.admit, old(cs.log), cs.log, |a|, r, Value(a) < Value(b))
  {
    RunAppend(cs.admit, cs.log, PerBitGates(|a|), [FinalGate]);
    var acc :- ScanBits(cs, a, b);
    var result :- And(cs, FinalGate, acc.result, !acc.allEqual);
    if Value(a) == Value(b) {
      ValueInjective(a, b);
    }
    r := Success(result);
  }

  /** greater_than is less_than with the operands swapped. */
  method GreaterThan(cs: ConstraintSystem, a: seq<bool>, b: seq<bool>) returns (r: Result<bool, SynthesisError>)
    requires |a| == |b|
    modifies cs
    ensures Compared(cs.admit, old(cs.log), cs.log, |a|, r, Value(a) > Value(b))
  {
    r := LessThan(cs, b, a);
  }

  /** less_than_or_equal is the negation of greater_than; the negation opens
      no scope. */
  method LessThanOrEqual(cs: ConstraintSystem, a: seq<bool>, b: seq<bool>) returns (r: Result<bool, SynthesisError>)
    requires |a| == |b|
    modifies cs
    ensures Compared(cs.admit, old(cs.log), cs.log, |a|, r, Value(a) <= Value(b))
  {
    var isGt :- GreaterThan(cs, a, b);
    r := Success(!isGt);
  }

  /** greater_than_or_equal is less_than_or_equal with the operands swapped. */
  method GreaterThanOrEqual(cs: ConstraintSystem, a: seq<bool>, b: seq<bool>) returns (r: Result<bool, SynthesisError>)
    requires |a| == |b|
    modifies cs
    ensures Compared(cs.admit, old(cs.log), cs.log, |a|, r, Value(a) >= Value(b))
  {
    r := LessThanOrEqual(cs, b, a);
  }

  /** For operands of one width exactly one of "a < b", "a == b" (bit for
      bit) and "a > b" holds, so less_than and greater_than are never both
      true and both are false exactly on equal operands. */
  lemma {:induction false} Trichotomy(a: seq<bool>, b: seq<bool>)
    requires |a| == |b|
    ensures !(Value(a) < Value(b) && Value(a) > Value(b))
    ensures a == b <==> !(Value(a) < Value(b)) && !(Value(a) > Value(b))
  {
    if Value(a) == Value(b) {
      ValueInjective(a, b);
    }
  }

  // The 8-bit cases, each on a fresh constraint system that refuses only
  // repeated scope names, so that every comparison completes.

  const Byte0: seq<bool> := [false, false, false, false, false, false, false, false]
  const Byte1: seq<bool> := [true, false, false, false, false, false, false, false]
  const Byte100: seq<bool> := [false, false, true, false, false, true, true, false]
  const Byte128: seq<bool> := [false, false, false, false, false, false, false, true]
  const Byte200: seq<bool> := [false, false, false, true, false, false, true, true]
  const Byte255: seq<bool> := [true, true, true, true, true, true, true, true]

  method ZeroBelowOne() {
    ComparisonCompletesOnFreshScopes([], 8);
    var cs := new ConstraintSystem(RejectDuplicates);
    var r := LessThan(cs, Byte0, Byte1);
    assert r == Success(true);
  }

  method MaxNotBelowItself() {
    ComparisonCompletesOnFreshScopes([], 8);
    var cs := new ConstraintSystem(RejectDuplicates);
    var r := LessThan(cs, Byte255, Byte255);
    assert r == Success(false);
  }

  method MaxNotBelowZero() {
    ComparisonCompletesOnFreshScopes([], 8);
    var cs := new ConstraintSystem(RejectDuplicates);
    var r := LessThan(cs, Byte255, Byte0);
    assert r == Success(false);
  }

  method ZeroBelowMax() {
    ComparisonCompletesOnFreshScopes([], 8);
    var cs := new ConstraintSystem(RejectDuplicates);
    var r := LessThan(cs, Byte0, Byte255);
    assert r == Success(true);
  }

  method HalfAtLeastItself() {
    ComparisonCompletesOnFreshScopes([], 8);
    var cs := new ConstraintSystem(RejectDuplicates);
    var r := GreaterThanOrEqual(cs, Byte128, Byte128);
    assert r == Success(true);
  }

  method TwoHundredNotAtMostOneHundred() {
    ComparisonCompletesOnFreshScopes([], 8);
    var cs := new ConstraintSystem(RejectDuplicates);
    var r := LessThanOrEqual(cs, Byte200, Byte100);
    assert r == Success(false);
  }

  /** A second comparison on the same system opens the same scope names
      again; the first one, "not a and b [0]", is refused, and that error is
      what the comparison returns. */
  method ReusedSystemRefusesSecondComparison() {
    ComparisonCompletesOnFreshScopes([], 8);
    var cs := new ConstraintSystem(RejectDuplicates);
    var r := LessThan(cs, Byte0, Byte1);
    assert [] + Schedule(8) == Schedule(8);
    ScheduleAt(8, 0);
    assert Schedule(8)[0] == Indexed("not a and b", 0) && Schedule(8)[0] in cs.log;
    RunHead(RejectDuplicates, cs.log, Schedule(8));
    r := LessThan(cs, Byte0, Byte1);
    assert r == Failure(DuplicateName(Indexed("not a and b", 0)));
  }
}
