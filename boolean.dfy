/** The boolean gates of the boolean wire gadget, treated as ideal: each one
    opens its own scope in the constraint system, may be refused there, and
    otherwise returns the exact boolean result. Negation is free (no scope,
    no constraint) and is written `!`. */
module Booleans {
  import opened Results
  import opened ConstraintSystems

  method And(cs: ConstraintSystem, name: Name, x: bool, y: bool) returns (r: Result<bool, SynthesisError>)
    modifies cs
    ensures GateCalled(cs.admit, old(cs.log), cs.log, name, r, x && y)
  {
    var e := cs.Open(name);
    r := if e.Some? then Failure(e.value) else Success(x && y);
  }

  method Or(cs: ConstraintSystem, name: Name, x: bool, y: bool) returns (r: Result<bool, SynthesisError>)
    modifies cs
    ensures GateCalled(cs.admit, old(cs.log), cs.log, name, r, x || y)
  {
    var e := cs.Open(name);
    r := if e.Some? then Failure(e.value) else Success(x || y);
  }

  method Xor(cs: ConstraintSystem, name: Name, x: bool, y: bool) returns (r: Result<bool, SynthesisError>)
    modifies cs
    ensures GateCalled(cs.admit, old(cs.log), cs.log, name, r, x != y)
  {
    var e := cs.Open(name);
    r := if e.Some? then Failure(e.value) else Success(x != y);
  }

  /** `cond ? first : second` as a constrained boolean. */
  method ConditionallySelect(cs: ConstraintSystem, name: Name, cond: bool, first: bool, second: bool)
    returns (r: Result<bool, SynthesisError>)
    modifies cs
    ensures GateCalled(cs.admit, old(cs.log), cs.log, name, r, if cond then first else second)
  {
    var e := cs.Open(name);
    r := if e.Some? then Failure(e.value) else Success(if cond then first else second);
  }
}
