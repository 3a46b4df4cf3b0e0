/** A longhand property whose own class is not part of this model, as a
    shorthand sees it: a cell that keeps the last value its validator
    accepted. */
module Longhands {
  import opened Values

  class Longhand {
    const kind: LonghandKind
    /** The last accepted value; None while nothing was assigned. */
    var value: Option<Value>

    constructor (kind: LonghandKind)
      ensures this.kind == kind && value == None
    {
      this.kind := kind;
      value := None;
    }

    /** The `Value` setter: runs the longhand's validator and keeps the value
        only if the validator accepts it. */
    method SetValue(h: Helpers, v: Value) returns (ok: bool)
      modifies this
      ensures ok <==> h.accepts(kind, v)
      ensures value == if ok then Some(v) else old(value)
    {
      ok := h.accepts(kind, v);
      if ok {
        value := Some(v);
      }
    }
  }
}
