/**
 Snapshot capture and restore. An object is its field map (Python's `__dict__`);
 a memento is the restore action `memento(obj, deep)` returns: the object it
 belongs to and the copy of the field map taken at capture time.
 */
module Memento {
  import opened Values

  /** Any object whose field map the mechanism snapshots and restores. */
  class Obj {
    var fields: Fields

    constructor (fields: Fields)
      ensures this.fields == fields
    {
      this.fields := fields;
    }
  }

  /** The restore action returned by `memento`: it resets `target` to `state`.
      `deep` records which copy produced `state`; with immutable values the
      shallow and the deep copy hold the same map. */
  datatype Snapshot = Snapshot(target: Obj, state: Fields, deep: bool)

  /** `memento(obj, deep)`: copy the whole field map. Reads `obj` and changes nothing. */
  function Capture(obj: Obj, deep: bool): (m: Snapshot)
    reads obj
    ensures m.target == obj && m.state == obj.fields && m.deep == deep
  {
    Snapshot(obj, obj.fields, deep)
  }

  /** Invoking the restore action: clear the field map, then refill it from the copy.
      Afterwards the map is exactly the captured one, whatever happened since capture:
      fields added later are gone and fields deleted later are back. */
  method Restore(s: Snapshot)
    modifies s.target
    ensures s.target.fields == s.state
  {
    s.target.fields := map[];
    s.target.fields := s.target.fields + s.state;
  }

  /** One snapshot per object, in order, all taken from the current state. */
  function Captures(ts: seq<Obj>, deep: bool): (r: seq<Snapshot>)
    reads ts
    ensures |r| == |ts|
    ensures forall i :: 0 <= i < |ts| ==>
      r[i].target == ts[i] && r[i].state == ts[i].fields && r[i].deep == deep
  {
    if ts == [] then [] else [Capture(ts[0], deep)] + Captures(ts[1..], deep)
  }

  // ---------------------------------------------------------------------------
  // What invoking a list of restore actions in order does to one object.

  /** Some snapshot in `ss` belongs to `t`. */
  ghost predicate Names(ss: seq<Snapshot>, t: Obj)
  {
    exists i :: 0 <= i < |ss| && ss[i].target == t
  }

  /** The field map `t` has after the restore actions `ss` run one after another,
      first to last, when it had `f` before them. */
  ghost function Replay(f: Fields, t: Obj, ss: seq<Snapshot>): (r: Fields)
  {
    if ss == [] then f
    else if ss[|ss| - 1].target == t then ss[|ss| - 1].state
    else Replay(f, t, ss[..|ss| - 1])
  }

  /** An object no snapshot names keeps its field map. */
  lemma {:induction false} ReplayUntargeted(f: Fields, t: Obj, ss: seq<Snapshot>)
    requires !Names(ss, t)
    ensures Replay(f, t, ss) == f
  {
    if ss != [] {
      var prefix := ss[..|ss| - 1];
      assert !Names(prefix, t) by {
        forall i | 0 <= i < |prefix| ensures prefix[i].target != t {
          assert prefix[i] == ss[i];
        }
      }
      ReplayUntargeted(f, t, prefix);
    }
  }

  /** For an object some snapshot names, the result does not depend on the state
      the object was in before the restore actions ran. */
  lemma {:induction false} ReplayLastWins(f1: Fields, f2: Fields, t: Obj, ss: seq<Snapshot>)
    requires Names(ss, t)
    ensures Replay(f1, t, ss) == Replay(f2, t, ss)
  {
    var prefix := ss[..|ss| - 1];
    if ss[|ss| - 1].target != t {
      var i :| 0 <= i < |ss| && ss[i].target == t;
      assert prefix[i] == ss[i];
      ReplayLastWins(f1, f2, t, prefix);
    }
  }

  /** The snapshot of `t` that comes last in the list decides the map `t` ends with. */
  lemma {:induction false} ReplayLast(f: Fields, t: Obj, ss: seq<Snapshot>, j: nat)
    requires j < |ss| && ss[j].target == t
    requires forall k :: j < k < |ss| ==> ss[k].target != t
    ensures Replay(f, t, ss) == ss[j].state
  {
    if j < |ss| - 1 {
      var prefix := ss[..|ss| - 1];
      assert prefix[j] == ss[j];
      forall k | j < k < |prefix| ensures prefix[k].target != t {
        assert prefix[k] == ss[k];
      }
      ReplayLast(f, t, prefix, j);
    }
  }

  /** Invoking the same restore actions twice has the effect of invoking them once. */
  lemma {:induction false} ReplayIdempotent(f: Fields, t: Obj, ss: seq<Snapshot>)
    ensures Replay(Replay(f, t, ss), t, ss) == Replay(f, t, ss)
  {
    if Names(ss, t) {
      ReplayLastWins(Replay(f, t, ss), f, t, ss);
    } else {
      ReplayUntargeted(f, t, ss);
      ReplayUntargeted(Replay(f, t, ss), t, ss);
    }
  }

  /** Snapshots of the same object agree, as they do when all were taken at one moment. */
  ghost predicate Consistent(ss: seq<Snapshot>)
  {
    forall i, j :: 0 <= i < |ss| && 0 <= j < |ss| && ss[i].target == ss[j].target ==>
      ss[i].state == ss[j].state
  }

  /** Restoring a consistent list of snapshots puts every named object back to its snapshot. */
  lemma {:induction false} ReplayConsistent(f: Fields, ss: seq<Snapshot>, i: nat)
    requires Consistent(ss)
    requires i < |ss|
    ensures Replay(f, ss[i].target, ss) == ss[i].state
  {
    var prefix := ss[..|ss| - 1];
    if ss[|ss| - 1].target != ss[i].target {
      assert prefix[i] == ss[i];
      assert Consistent(prefix) by {
        forall a, b | 0 <= a < |prefix| && 0 <= b < |prefix| && prefix[a].target == prefix[b].target
          ensures prefix[a].state == prefix[b].state
        {
          assert prefix[a] == ss[a] && prefix[b] == ss[b];
        }
      }
      ReplayConsistent(f, prefix, i);
    }
  }

  /** Snapshots taken together are consistent, even when an object is listed twice. */
  lemma CapturesConsistent(ts: seq<Obj>, deep: bool)
    ensures Consistent(Captures(ts, deep))
  {
  }
}
