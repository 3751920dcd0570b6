/**
 * Stand-in for the validator package the data layer calls into: a validator
 * holds a map from field name to message, `Check(ok, key, message)` records
 * the message when `ok` is false, `AddError` keeps the first message recorded
 * for a key, and `Valid` holds while the map is empty.
 *
 * A validation routine is a fixed sequence of `Check` calls; it is described
 * here by the sequence of evaluated conditions it passes to `Check`, and its
 * effect on the error map by `ApplyChecks`.
 */
module Validation {

  /** The arguments of one `v.Check(ok, key, message)` call. */
  datatype Condition = Condition(ok: bool, key: string, message: string)

  /** The error map after `AddError(key, message)`: the first message for a key wins. */
  function Added(errors: map<string, string>, key: string, message: string): map<string, string> {
    if key in errors then errors else errors[key := message]
  }

  /** The error map after one `Check` call. */
  function Record(errors: map<string, string>, c: Condition): map<string, string> {
    if c.ok then errors else Added(errors, c.key, c.message)
  }

  /** The error map after the `Check` calls of `checks`, made in order. */
  function ApplyChecks(errors: map<string, string>, checks: seq<Condition>): map<string, string>
    decreases |checks|
  {
    if checks == [] then errors
    else Record(ApplyChecks(errors, checks[..|checks| - 1]), checks[|checks| - 1])
  }

  /** The keys of the checks in `checks` that fail. */
  function FailedKeys(checks: seq<Condition>): set<string> {
    set c | c in checks && !c.ok :: c.key
  }

  /** The failing keys of two runs of checks are those of either run. */
  lemma FailedKeysConcat(first: seq<Condition>, second: seq<Condition>)
    ensures FailedKeys(first + second) == FailedKeys(first) + FailedKeys(second)
  {
    forall c | c in first + second ensures c in first || c in second {
    }
  }

  /** Making one more check is recording it on the map the earlier checks left. */
  lemma ApplyOneMore(errors: map<string, string>, checks: seq<Condition>, c: Condition)
    ensures ApplyChecks(errors, checks + [c]) == Record(ApplyChecks(errors, checks), c)
  {
    assert (checks + [c])[..|checks|] == checks;
  }

  /** A run of checks may be split anywhere: the second part continues from the map the first left. */
  lemma {:induction false} ApplyConcat(errors: map<string, string>, first: seq<Condition>, second: seq<Condition>)
    ensures ApplyChecks(errors, first + second) == ApplyChecks(ApplyChecks(errors, first), second)
    decreases |second|
  {
    if second == [] {
      assert first + second == first;
    } else {
      var init, last := second[..|second| - 1], second[|second| - 1];
      assert second == init + [last];
      assert first + second == (first + init) + [last];
      ApplyOneMore(errors, first + init, last);
      ApplyConcat(errors, first, init);
      ApplyOneMore(ApplyChecks(errors, first), init, last);
    }
  }

  /** After a run of checks, a key carries an error iff it had one before or one of its checks failed. */
  lemma {:induction false} KeysRecorded(errors: map<string, string>, checks: seq<Condition>)
    ensures ApplyChecks(errors, checks).Keys == errors.Keys + FailedKeys(checks)
    decreases |checks|
  {
    if checks == [] {
      assert FailedKeys(checks) == {};
    } else {
      var init, last := checks[..|checks| - 1], checks[|checks| - 1];
      assert checks == init + [last];
      KeysRecorded(errors, init);
      assert FailedKeys(checks) == FailedKeys(init) + (if last.ok then {} else {last.key}) by {
        forall c | c in checks ensures c in init || c == last {
        }
      }
    }
  }

  /** A check never overwrites a message already recorded. */
  lemma {:induction false} EntriesKept(errors: map<string, string>, checks: seq<Condition>, key: string)
    requires key in errors
    ensures key in ApplyChecks(errors, checks) && ApplyChecks(errors, checks)[key] == errors[key]
    decreases |checks|
  {
    if checks != [] {
      EntriesKept(errors, checks[..|checks| - 1], key);
    }
  }

  /** The validator's error map, updated in place by `AddError` and `Check`. */
  class Validator {
    var errors: map<string, string>

    /** `validator.New()`: no errors yet. */
    constructor ()
      ensures errors == map[]
    {
      errors := map[];
    }

    /** `v.Valid()`: no field has an error. */
    predicate Valid()
      reads this
      ensures Valid() <==> errors == map[]
    {
      |errors| == 0
    }

    method AddError(key: string, message: string)
      modifies this
      ensures errors == Added(old(errors), key, message)
      ensures key in errors
    {
      if key !in errors {
        errors := errors[key := message];
      }
    }

    method Check(ok: bool, key: string, message: string)
      modifies this
      ensures errors == Record(old(errors), Condition(ok, key, message))
    {
      if !ok {
        AddError(key, message);
      }
    }
  }
}
