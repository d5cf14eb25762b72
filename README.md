# Comparator gadget for unsigned integers — a Dafny model

This project models the comparator gadget of `gadgets/src/bits/comparator.rs`:
strict less-than between two unsigned integers that live in a constraint
system as vectors of boolean wires (least-significant bit first), and the three
relations derived from it (greater-than, less-or-equal, greater-or-equal).

`less_than` scans the two bit vectors from the most significant bit down. For
every bit it calls five boolean gates, each under its own constraint-system
scope named after the gate and the scan position: `not a and b [i]`,
`a XOR b [i]`, `less or equal [i]`, `select bit [i]`, `accumulate equal [i]`.
It carries `result` (the bits seen so far of the left operand are `<=` those of
the right one) and `all_equal` (they tie), and ends with one more gate,
`false if all equal`, that turns `<=` into `<`. Every gate call may fail; the
`?` after it returns that error at once.

Files and modules:

- `results.dfy` — `Results`: `Option`, and `Result` made failure-compatible so
  that Dafny's `:-` plays the part of `?`.
- `bits.dfy` — `Bits`: `Value`, the unsigned integer an LSB-first vector
  denotes, and the facts the scan rests on (uniqueness of the binary numeral,
  one scan step, the most significant differing bit decides).
- `constraint_system.dfy` — `ConstraintSystems`: the constraint system as the
  comparator sees it, a class whose `log` holds the scope names it has
  accepted, with an acceptance rule `admit` that may refuse a gate with a
  `SynthesisError`; `Run`, the outcome of issuing a sequence of gates with
  `?` after each, and its lemmas.
- `boolean.dfy` — `Booleans`: the AND, OR, XOR and conditional-select gates as
  ideal boolean operations that open a scope and may be refused. NOT is `!`:
  it opens no scope.
- `comparator.dfy` — `Comparator`: the scope names a comparison opens
  (`Schedule`), the scan (`ScanBit` for one bit, `ScanBits` for the `for`
  loop), `LessThan`, the derived `GreaterThan`, `LessThanOrEqual`,
  `GreaterThanOrEqual`, and the 8-bit cases as small client methods.

The contracts of the comparison methods all have one shape (`Compared`): the
gates of `Schedule(|a|)` are issued in order until the first refusal, the log
grows by exactly the accepted ones, and the method returns the refusal's error
unchanged or, when no gate was refused, the relation between `Value(a)` and
`Value(b)`. `Schedule(w)` depends on the width only, never on the bit values.

## Model

| member | source | states |
|---|---|---|
| `Comparator.LessThan` | gadgets/src/bits/comparator.rs:41-74 | for equal-length vectors: if no gate is refused the result is `Ok(Value(a) < Value(b))` and the log grows by all `5·W + 1` scopes; otherwise it is the first refusing gate's error, unchanged, and the log holds exactly the gates accepted before it |
| `Comparator.ScanBits` | gadgets/src/bits/comparator.rs:43-69 | the loop, seeded with `true, true` and run MSB to LSB, ends with `result == (Value(a) <= Value(b))` and `all_equal == (a == b)`, having opened the `5·W` per-bit scopes in order; the first refused gate ends it with that error |
| `Comparator.ScanBit` | gadgets/src/bits/comparator.rs:54-68 | one iteration: `result` becomes the bit's own `<=` verdict (`!x` or `y`) while all higher bits tied and is left unchanged once they differ; `all_equal` is narrowed by `x == y`; its five scopes are opened in call order, stopping at a refusal |
| `Bits.TopEmpty` | gadgets/src/bits/comparator.rs:43-44 | the seeds `true, true` are the verdicts "equal" and "`<=`" on zero scanned bits |
| `Bits.TopStep` | gadgets/src/bits/comparator.rs:47-68 | loop invariant step: the top `i+1` bits tie iff the new bits and the top `i` bits tie; their `<=` verdict is the new bits' when the top `i` tie, else the old verdict |
| `Bits.ComparePrepend` | gadgets/src/bits/comparator.rs:54-65 | putting one more bit below each of two equal-width vectors: the results are equal iff the new bits and the old vectors are; their `<=` verdict is the new bits' while the old vectors tie, else the old vectors' |
| `Bits.MostSignificantDifference` | gadgets/src/bits/comparator.rs:65-68 | the order of two equal-width vectors is fixed at their most significant differing bit `j`: `Value(a) < Value(b)` iff `b[j]`, and the values differ |
| `Bits.StrictFromTop` | gadgets/src/bits/comparator.rs:71 | over the whole width, "`<=` and not all bits equal" is exactly `Value(a) < Value(b)`, so the closing AND yields strict less-than and equal inputs give false |
| `Bits.ValueInjective` | gadgets/src/bits/comparator.rs:71 | two equal-width vectors with the same value are the same vector (why only the all-equal case must be corrected) |
| `Comparator.PerBitGates` | gadgets/src/bits/comparator.rs:55-68 | the scan over `k` bits opens exactly five scopes per bit, `5·k` in all |
| `Comparator.Schedule` | gadgets/src/bits/comparator.rs:55-71 | a comparison of width `w` opens `5·w + 1` scopes, the closing `false if all equal` last |
| `Comparator.ScheduleAt` | gadgets/src/bits/comparator.rs:55-68 | positions `5i … 5i+4` of the schedule are the five gates of scan position `i`, in the order they are called |
| `Comparator.PerBitGatesDistinct` | gadgets/src/bits/comparator.rs:55-68 | the per-bit scope names are pairwise different and each embeds the scan position of its bit |
| `Comparator.ScheduleDistinct` | gadgets/src/bits/comparator.rs:55-71 | no scope name of one comparison repeats |
| `Comparator.ComparisonCompletesOnFreshScopes` | gadgets/src/bits/comparator.rs:55-71 | on a system that refuses only repeated names, a comparison whose names are new to it is never refused and appends exactly its schedule |
| `ConstraintSystems.RunAppendsPrefix` | gadgets/src/bits/comparator.rs:55-71 | a run of gates with `?` after each only appends, and appends a prefix of the gates: all of them exactly when none failed |
| `ConstraintSystems.RunStopsAtFirstRefusal` | gadgets/src/bits/comparator.rs:55-71 | the first refused gate ends the run: the gates before it are logged, none after it, and its error is returned unchanged |
| `ConstraintSystems.RunCompletes` | gadgets/src/bits/comparator.rs:55-71 | a run completes iff every gate in turn is accepted |
| `ConstraintSystems.RunAppend` | gadgets/src/bits/comparator.rs:47-71 | running the per-bit gates then the closing gate is one run; the second part runs only if the first completed |
| `ConstraintSystems.FreshNamesComplete` | gadgets/src/bits/comparator.rs:55-71 | under duplicate rejection, pairwise-distinct names new to the log are all accepted |
| `ConstraintSystems.ConstraintSystem.Open` | gadgets/src/bits/comparator.rs:55 | opening a scope: the system's rule decides; on acceptance the name is appended, on refusal the log is unchanged and the error returned |
| `Booleans.And` | gadgets/src/bits/comparator.rs:55 | AND gate: refused with the system's error and no log change, or logged and returning `x && y` |
| `Booleans.Xor` | gadgets/src/bits/comparator.rs:58 | XOR gate: refused, or logged and returning `x != y` |
| `Booleans.Or` | gadgets/src/bits/comparator.rs:62 | OR gate: refused, or logged and returning `x` or `y` |
| `Booleans.ConditionallySelect` | gadgets/src/bits/comparator.rs:65 | select gate: refused, or logged and returning `if cond then first else second` |
| `Comparator.GreaterThan` | gadgets/src/bits/comparator.rs:23-25 | same gates and log as `less_than(b, a)`; on success `Ok(Value(a) > Value(b))` |
| `Comparator.LessThanOrEqual` | gadgets/src/bits/comparator.rs:27-30 | the negation of greater-than, opening no extra scope: on success `Ok(Value(a) <= Value(b))`, in particular true for `x, x`; errors pass through unchanged |
| `Comparator.GreaterThanOrEqual` | gadgets/src/bits/comparator.rs:32-34 | less-or-equal with operands swapped: on success `Ok(Value(a) >= Value(b))` |
| `Comparator.Trichotomy` | gadgets/src/bits/comparator.rs:23-25 | for equal-width operands less-than and greater-than are never both true, and both are false exactly when the operands are equal bit for bit |

## Left out

- The R1CS side of every gate: variable allocation, the constraints each
  boolean gate records, their field encoding and the finite-field arithmetic
  (`Field`, `PrimeField`). Gates are ideal boolean operations on Dafny `bool`,
  and input wires are taken to hold 0 or 1.
- The number of constraints: the model counts gate calls (scopes opened),
  `5·W + 1` per comparison. The boolean gadget records fewer constraints when
  an operand is a constant (the seeds `true, true` in the first iteration);
  that short-cut lives inside the gadget and is not part of this model.
- Where a `SynthesisError` comes from. The constraint system is given an
  acceptance rule `admit` (any rule on the log and the new name); the model
  shows how the comparator propagates whatever it reports. `RejectDuplicates`
  is one such rule, used to state that the comparison's own names never clash.
- Nested namespace paths: a scope name is modelled relative to the constraint
  system handed in; how `cs.ns` prefixes it with the caller's path is not
  modelled.
- The state of the constraint system after a refused gate: the model leaves
  the log as it was before that gate; the real system may keep partial
  records and offers no rollback.
- The traits `EvaluateLtGadget` and `ComparatorGadget` and the macro that
  implements them for `UInt8` … `UInt128`: one width-generic set of methods
  over `seq<bool>` stands for all widths, with `|a| == |b|` required (the
  operands have the same type in the source; `zip` would silently truncate
  vectors of different lengths).
- Scope names embed the scan position `i` (0 for the most significant bit,
  as `enumerate` after `rev` counts), not the bit's own index in `bits`.
