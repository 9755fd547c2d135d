/**
 The demonstration entity `NumObj` (one field, `value`), its two methods, and the
 two scenarios of the demonstration, with the values it shows recorded in order.
 */
module NumObjDemo {
  import opened Values
  import opened Memento
  import opened Transactions

  /** `NumObj(value)`: an object whose only field is `value`. */
  method NewNumObj(value: Value) returns (obj: Obj)
    ensures fresh(obj)
    ensures obj.fields == map["value" := value]
  {
    obj := new Obj(map["value" := value]);
  }

  /** `obj.name += rhs`, in place. */
  method AddTo(obj: Obj, name: string, rhs: Value) returns (r: Result<()>)
    modifies obj
    ensures Outcome(obj.fields, r) == AugAdd(old(obj.fields), name, rhs)
  {
    if name !in obj.fields {
      return Err(AttributeError(name));
    }
    var sum := Plus(obj.fields[name], rhs);
    match sum
    case Ok(v) =>
      obj.fields := obj.fields[name := v];
      r := Ok(());
    case Err(e) =>
      r := Err(e);
  }

  /** `NumObj.increment`: `self.value += 1`. */
  method Increment(obj: Obj) returns (r: Result<()>)
    modifies obj
    ensures Outcome(obj.fields, r) == AugAdd(old(obj.fields), "value", Int(1))
  {
    r := AddTo(obj, "value", Int(1));
  }

  /** The body of `do_stuff` on a field map: set `value` to the string "1111", then
      increment, which cannot add an int to a str. Whatever the field map was, the
      body raises that TypeError, having already replaced `value`. */
  function DoStuffBody(f: Fields): (out: Outcome<()>)
    ensures out.result == Err(TypeError("str", "int"))
    ensures out.fields == f["value" := Str("1111")]
  {
    AugAdd(f["value" := Str("1111")], "value", Int(1))
  }

  /** `NumObj.do_stuff`, a transactional method: the error reaches the caller and
      the object is as it was before the call. */
  method DoStuff(obj: Obj) returns (r: Result<()>)
    modifies obj
    ensures r == Err(TypeError("str", "int"))
    ensures obj.fields == old(obj.fields)
  {
    r := Transactional(obj, DoStuffBody);
  }

  /** Incrementing an object whose only field is the int `n`. */
  lemma IncrementInt(n: int)
    ensures AugAdd(map["value" := Int(n)], "value", Int(1)) == Outcome(map["value" := Int(n + 1)], Ok(()))
  {
  }

  /** The first part of the demonstration: a transaction over the object, three
      increments, a commit, three more increments, then `value += 'x'`, which raises;
      the handler rolls the transaction back. `shown` lists the `value` of the object
      every time this part displays it; `rolledBack` says the handler ran. */
  method TransactionScenario() returns (numObj: Obj, shown: seq<Value>, rolledBack: bool)
    ensures fresh(numObj)
    ensures numObj.fields == map["value" := Int(2)]
    ensures shown == [Int(-1), Int(0), Int(1), Int(2), Int(3), Int(4), Int(5), Int(2)]
    ensures rolledBack
  {
    numObj := NewNumObj(Int(-1));
    shown := [numObj.fields["value"]];
    var transaction := new Transaction(true, [numObj]);
    var failure: Result<()> := Ok(());
    label attempt: {
      for i := 0 to 3
        invariant numObj.fields == map["value" := Int(i - 1)]
        invariant |shown| == i + 1 && forall k :: 0 <= k < |shown| ==> shown[k] == Int(k - 1)
        modifies numObj
      {
        IncrementInt(i - 1);
        var r := Increment(numObj);
        if r.Err? {
          failure := r;
          break attempt;
        }
        shown := shown + [numObj.fields["value"]];
      }
      transaction.Commit();
      for i := 0 to 3
        invariant numObj.fields == map["value" := Int(i + 2)]
        invariant |shown| == i + 4 && forall k :: 0 <= k < |shown| ==> shown[k] == Int(k - 1)
        modifies numObj
      {
        IncrementInt(i + 2);
        var r := Increment(numObj);
        if r.Err? {
          failure := r;
          break attempt;
        }
        shown := shown + [numObj.fields["value"]];
      }
      failure := AddTo(numObj, "value", Str("x"));
    }
    assert failure == Err(TypeError("int", "str"));
    assert transaction.states == [Snapshot(numObj, map["value" := Int(2)], true)];
    assert shown == [Int(-1), Int(0), Int(1), Int(2), Int(3), Int(4), Int(5)] by {
      assert |shown| == 7;
      assert shown[0] == Int(-1) && shown[1] == Int(0) && shown[2] == Int(1) && shown[3] == Int(2);
      assert shown[4] == Int(3) && shown[5] == Int(4) && shown[6] == Int(5);
    }
    rolledBack := false;
    if failure.Err? {
      transaction.Rollback();
      rolledBack := true;
    }
    shown := shown + [numObj.fields["value"]];
  }

  /** The second part of the demonstration: `do_stuff` on the object raises, the
      handler reports it, and the object is displayed again. */
  method DoStuffScenario(numObj: Obj) returns (shown: Value, doStuff: Result<()>)
    requires "value" in numObj.fields
    modifies numObj
    ensures doStuff == Err(TypeError("str", "int"))
    ensures numObj.fields == old(numObj.fields)
    ensures "value" in numObj.fields && shown == numObj.fields["value"]
  {
    doStuff := DoStuff(numObj);
    shown := numObj.fields["value"];
  }

  /** The whole demonstration. `shown` lists the `value` of the object every time the
      demonstration displays it; `rolledBack` says the transaction's rollback ran;
      `doStuff` is what `do_stuff` raised. */
  method Demonstration() returns (shown: seq<Value>, rolledBack: bool, doStuff: Result<()>)
    ensures shown == [Int(-1), Int(0), Int(1), Int(2), Int(3), Int(4), Int(5), Int(2), Int(2)]
    ensures rolledBack
    ensures doStuff == Err(TypeError("str", "int"))
  {
    var numObj;
    numObj, shown, rolledBack := TransactionScenario();
    var last;
    last, doStuff := DoStuffScenario(numObj);
    shown := shown + [last];
  }
}
