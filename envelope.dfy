/** The `{state, msg, data}` reply envelope of the conversion endpoint. */
module Envelope {
  import opened Wrappers

  /** The message the envelope is created with, before any branch has run. */
  const Placeholder := "服务端错误"

  /**
   The envelope as the handler builds it: a record whose fields are
   overwritten step by step. `data` is `None` where the Go handler leaves
   the field nil (JSON `null`).
   */
  class Data {
    var state: string
    var msg: string
    var data: Option<string>

    /** A fresh envelope: failure state, placeholder message, no data. */
    constructor ()
      ensures state == "1" && msg == Placeholder && data == None
    {
      state := "1";
      msg := Placeholder;
      data := None;
    }
  }

  /** The envelope's final field values, which are what gets serialised. */
  datatype Reply = Reply(state: string, msg: string, data: Option<string>)

  /** A finished envelope: state is "0" or "1", and "0" exactly when data is set. */
  predicate WellFormed(r: Reply)
  {
    && (r.state == "0" || r.state == "1")
    && (r.state == "0" <==> r.data.Some?)
  }
}
