/**
 The transaction guard over a fixed list of target objects, and the
 transactional method wrapper that restores its receiver when the wrapped
 call raises.
 */
module Transactions {
  import opened Values
  import opened Memento

  /** Holds one restore action per target; commit re-captures, rollback restores. */
  class Transaction {
    const deep: bool
    const targets: seq<Obj>
    var states: seq<Snapshot>

    /** One snapshot per target, in target order, taken with the guard's copy mode
        at one moment (so repeated targets agree). */
    ghost predicate Valid()
      reads this
    {
      && |states| == |targets|
      && (forall i :: 0 <= i < |targets| ==> states[i].target == targets[i] && states[i].deep == deep)
      && Consistent(states)
    }

    /** Stores the copy mode and the targets, then commits at once. */
    constructor (deep: bool, targets: seq<Obj>)
      ensures Valid()
      ensures this.deep == deep && this.targets == targets
      ensures states == Captures(targets, deep)
    {
      this.deep := deep;
      this.targets := targets;
      new;
      Commit();
    }

    /** Discards the previous snapshots and captures every target's current state. */
    method Commit()
      modifies this
      ensures Valid()
      ensures states == Captures(targets, deep)
    {
      states := Captures(targets, deep);
      CapturesConsistent(targets, deep);
    }

    /** Invokes every stored restore action in target order. The snapshots are left
        as they are, so the effect is the same every time. */
    method Rollback()
      requires Valid()
      modifies targets
      ensures Valid()
      ensures forall t :: t in targets ==> t.fields == Replay(old(t.fields), t, states)
      ensures forall i :: 0 <= i < |targets| ==> targets[i].fields == states[i].state
    {
      var i := 0;
      while i < |states|
        invariant 0 <= i <= |states|
        invariant forall t :: t in targets ==> t.fields == Replay(old(t.fields), t, states[..i])
      {
        var s := states[i];
        Restore(s);
        assert states[..i + 1][..i] == states[..i];
        i := i + 1;
      }
      assert states[..i] == states;
      forall k | 0 <= k < |targets| ensures targets[k].fields == states[k].state {
        ReplayConsistent(old(targets[k].fields), states, k);
      }
    }
  }

  /** The `@Transactional` wrapper applied to a call of `op` on `obj`. The call is
      given as a function from the receiver's field map on entry to its field map
      when the call returned or raised, and how it ended.
      Either the call's whole effect stays or none of it does, and the result or the
      error of the call is passed through unchanged. */
  method Transactional<R>(obj: Obj, op: Fields -> Outcome<R>) returns (r: Result<R>)
    modifies obj
    ensures r == op(old(obj.fields)).result
    ensures r.Ok? ==> obj.fields == op(old(obj.fields)).fields
    ensures r.Err? ==> obj.fields == old(obj.fields)
  {
    var state := Capture(obj, false);
    var out := op(obj.fields);
    obj.fields := out.fields;
    match out.result
    case Ok(v) =>
      r := Ok(v);
    case Err(e) =>
      Restore(state);
      r := Err(e);
  }
}
