/** The process statuses the commerce service accepts, exposed as
    `AccountProcess.statuses`. */
module ProcessStatuses {

  import opened JsValues

  datatype Status = Pending | Processing | Success | Error {

    /** The string that is sent for this status. */
    function Value(): string {
      match this
      case Pending => "pending"
      case Processing => "processing"
      case Success => "success"
      case Error => "error"
    }
  }

  /** `Object.values(processStatuses)`, in the table's order. */
  const Values: seq<JsValue> := [Str("pending"), Str("processing"), Str("success"), Str("error")]

  /** `list.includes(v)`, scanning from the front. SameValueZero, the comparison
      `includes` uses, agrees with equality on the primitive (string) lists
      searched here. */
  predicate Includes(list: seq<JsValue>, v: JsValue) {
    list != [] && (list[0] == v || Includes(list[1..], v))
  }

  /** The scan finds `v` exactly when `v` is an element of the list. */
  lemma {:induction false} IncludesIff(list: seq<JsValue>, v: JsValue)
    ensures Includes(list, v) <==> v in list
  {
    if list != [] {
      IncludesIff(list[1..], v);
      assert list == [list[0]] + list[1..];
    }
  }

  /** `Object.values(processStatuses).includes(v)`. */
  predicate IsStatusValue(v: JsValue) {
    Includes(Values, v)
  }

  /** A value is a valid status exactly when it is the string of one of the
      statuses; every other value, such as `'testing'`, is not. */
  lemma IsStatusValueIff(v: JsValue)
    ensures IsStatusValue(v) <==> exists st: Status :: v == Str(st.Value())
  {
    IncludesIff(Values, v);
    if IsStatusValue(v) {
      if v == Values[0] { assert v == Str(Pending.Value()); }
      else if v == Values[1] { assert v == Str(Processing.Value()); }
      else if v == Values[2] { assert v == Str(Success.Value()); }
      else { assert v == Str(Error.Value()); }
    }
  }

  /** The statuses' strings are pairwise different. */
  lemma ValuesDistinct(a: Status, b: Status)
    ensures a.Value() == b.Value() <==> a == b
  {
  }
}
