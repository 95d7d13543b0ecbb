/** Failure-compatible wrappers shared by every module of the model. */
module Wrappers {

  /** A database object id, as the routes compare it: its string form. */
  type Id = string

  /** A value that may be absent: JavaScript's `undefined`/`null` on one side, a value on the other. */
  datatype Option<T> = None | Some(value: T) {
    function GetOr(default: T): T {
      if Some? then value else default
    }
  }

  /** JavaScript truthiness of an optional string: present and non-empty. */
  predicate Truthy(o: Option<string>) {
    o.Some? && o.value != []
  }

  /** A route's HTTP reply: the status code and the message the client sees. */
  datatype Reply = Reply(status: nat, message: string) {
    predicate IsSuccess() { 200 <= status < 300 }
  }

  /** A reply together with the data the route sends back, if any. */
  datatype Answer<T> = Answer(reply: Reply, data: Option<T>)
}
