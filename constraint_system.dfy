/** The constraint system a gadget writes into, reduced to what the
    comparator can observe of it: the scope names it opens, in order, and
    whether the system accepts each one. Variable allocation and the
    constraints themselves are not part of this model. */
module ConstraintSystems {
  import opened Results

  /** A scope name passed to `cs.ns`: `Indexed(tag, i)` stands for the
      formatted string "tag [i]", `Plain(tag)` for a fixed string. */
  datatype Name = Indexed(tag: string, index: nat) | Plain(tag: string)

  /** The error a constraint system may report. Which of them occurs, and
      when, is decided by the system, never by a gadget. */
  datatype SynthesisError = AssignmentMissing | DuplicateName(name: Name) | Unsatisfiable

  /** How a constraint system answers a gate opened under `name` when it has
      already accepted the gates in the log: None accepts it. */
  type Admission = (seq<Name>, Name) -> Option<SynthesisError>

  /** What a run of gate calls leaves behind: the accepted names and the
      error that stopped it, if any. */
  datatype Trace = Trace(log: seq<Name>, failure: Option<SynthesisError>)

  /** The outcome of issuing the gates `names` one after the other, each
      failing one ending the run at once, as `?` does. */
  function Run(admit: Admission, log: seq<Name>, names: seq<Name>): Trace
    decreases |names|
  {
    if names == [] then Trace(log, None)
    else match admit(log, names[0])
      case Some(e) => Trace(log, Some(e))
      case None => Run(admit, log + [names[0]], names[1..])
  }

  /** A run only appends to the log, and what it appends is a prefix of the
      names issued: all of them exactly when no gate failed. */
  lemma {:induction false} RunAppendsPrefix(admit: Admission, log: seq<Name>, names: seq<Name>)
    ensures var t := Run(admit, log, names);
            && |log| <= |t.log| <= |log| + |names|
            && t.log == log + names[..|t.log| - |log|]
            && (t.failure.None? <==> |t.log| == |log| + |names|)
    decreases |names|
  {
    if names != [] && admit(log, names[0]).None? {
      RunAppendsPrefix(admit, log + [names[0]], names[1..]);
      var t := Run(admit, log, names);
      assert names[..|t.log| - |log|] == [names[0]] + names[1..][..|t.log| - |log| - 1];
    }
  }

  /** The first gate call of a run. */
  lemma RunHead(admit: Admission, log: seq<Name>, names: seq<Name>)
    requires names != []
    ensures Run(admit, log, names)
         == match admit(log, names[0])
            case Some(e) => Trace(log, Some(e))
            case None => Run(admit, log + [names[0]], names[1..])
  {
  }

  /** Issuing two runs back to back is one run: the second starts from the
      log the first left, and only if the first completed. */
  lemma {:induction false} RunAppend(admit: Admission, log: seq<Name>, first: seq<Name>, second: seq<Name>)
    ensures Run(admit, log, first + second)
         == var t := Run(admit, log, first);
            if t.failure.Some? then t else Run(admit, t.log, second)
    decreases |first|
  {
    if first == [] {
      assert first + second == second;
    } else {
      assert (first + second)[0] == first[0];
      assert (first + second)[1..] == first[1..] + second;
      RunAppend(admit, log + [first[0]], first[1..], second);
    }
  }

  /** The first gate the system refuses ends the run: every gate before it is
      in the log, none after it is, and its error is reported unchanged. */
  lemma {:induction false} RunStopsAtFirstRefusal(admit: Admission, log: seq<Name>, names: seq<Name>, k: nat)
    requires k < |names|
    requires forall j :: 0 <= j < k ==> admit(log + names[..j], names[j]).None?
    requires admit(log + names[..k], names[k]).Some?
    ensures Run(admit, log, names) == Trace(log + names[..k], admit(log + names[..k], names[k]))
    decreases k
  {
    assert names[..0] == [];
    assert log + names[..0] == log;
    if k > 0 {
      var log' := log + [names[0]];
      forall j | 0 <= j < k - 1
        ensures admit(log' + names[1..][..j], names[1..][j]).None?
      {
        assert log' + names[1..][..j] == log + names[..j + 1];
      }
      assert log' + names[1..][..k - 1] == log + names[..k];
      RunStopsAtFirstRefusal(admit, log', names[1..], k - 1);
    }
  }

  /** A run completes exactly when the system accepts each of its gates in
      turn. */
  lemma {:induction false} RunCompletes(admit: Admission, log: seq<Name>, names: seq<Name>)
    ensures Run(admit, log, names).failure.None?
        <==> forall j :: 0 <= j < |names| ==> admit(log + names[..j], names[j]).None?
    decreases |names|
  {
    if names != [] {
      var log' := log + [names[0]];
      assert log + names[..0] == log;
      RunCompletes(admit, log', names[1..]);
      forall j | 0 < j < |names|
        ensures log + names[..j] == log' + names[1..][..j - 1]
      {
      }
    }
  }

  /** No name occurs twice. */
  predicate Distinct(names: seq<Name>) {
    forall i, j :: 0 <= i < j < |names| ==> names[i] != names[j]
  }

  /** A system that refuses a scope name it has seen before, as a test
      constraint system refuses a duplicate path. */
  function RejectDuplicates(log: seq<Name>, name: Name): Option<SynthesisError> {
    if name in log then Some(DuplicateName(name)) else None
  }

  /** Under duplicate rejection, distinct names that are new to the log are
      all accepted. */
  lemma {:induction false} FreshNamesComplete(log: seq<Name>, names: seq<Name>)
    requires Distinct(names)
    requires forall n :: n in names ==> n !in log
    ensures Run(RejectDuplicates, log, names) == Trace(log + names, None)
    decreases |names|
  {
    if names != [] {
      var log' := log + [names[0]];
      forall n | n in names[1..] ensures n !in log' {
        var i :| 0 <= i < |names[1..]| && names[1..][i] == n;
        assert names[i + 1] == n;
      }
      assert Distinct(names[1..]) by {
        forall i, j | 0 <= i < j < |names[1..]| ensures names[1..][i] != names[1..][j] {
          assert names[i + 1] != names[j + 1];
        }
      }
      FreshNamesComplete(log', names[1..]);
      assert log' + names[1..] == log + names;
    }
  }

  /** A constraint system that gates are opened in; `log` lists the scope
      names it has accepted, in order, and `admit` is its rule for accepting
      the next one. */
  class ConstraintSystem {
    const admit: Admission
    var log: seq<Name>

    constructor (admit: Admission)
      ensures this.admit == admit && log == []
    {
      this.admit := admit;
      log := [];
    }

    /** Opens the scope `name` for one gate; on acceptance the name joins the
        log, on refusal nothing changes and the error is returned. */
    method Open(name: Name) returns (e: Option<SynthesisError>)
      modifies this
      ensures e == admit(old(log), name)
      ensures log == if e.None? then old(log) + [name] else old(log)
    {
      e := admit(log, name);
      if e.None? {
        log := log + [name];
      }
    }
  }

  /** What a gate call under `name` that would compute `value` did to the
      log, going from `before` to `after`, and what it returned. */
  ghost predicate GateCalled(admit: Admission, before: seq<Name>, after: seq<Name>, name: Name,
                             r: Result<bool, SynthesisError>, value: bool)
  {
    match admit(before, name)
    case Some(e) => after == before && r == Failure(e)
    case None => after == before + [name] && r == Success(value)
  }
}
