/** The exceptions the client can raise, as values. */
module Exceptions {

  import Wrappers

  /** A value stored in the context of a ContextedException. */
  datatype ContextValue = IntValue(i: int) | StringValue(s: string) | NullValue

  datatype Exception =
    /** java.lang.IllegalArgumentException */
    | IllegalArgument(message: string)
    /** org.apache.commons.lang3.exception.ContextedException: a message and
        the labelled context values, in the order they were set */
    | Contexted(message: string, context: seq<(string, ContextValue)>)
    /** org.json.JSONException raised by getString for a member that is
        absent or not a string */
    | JsonNotString(key: string)
    /** org.json.JSONException raised when the body is not a JSON object */
    | JsonSyntax
    /** java.io.IOException raised by the connection */
    | IOError

  /** The value of the first context entry labelled `name`, as
      ContextedException.getFirstContextValue gives it; None when there is none. */
  function ContextLookup(ctx: seq<(string, ContextValue)>, name: string): (r: Wrappers.Option<ContextValue>)
    ensures r.Some? <==> exists k :: 0 <= k < |ctx| && ctx[k].0 == name
    ensures r.Some? ==> exists k :: 0 <= k < |ctx| && ctx[k] == (name, r.value) &&
                                   forall j :: 0 <= j < k ==> ctx[j].0 != name
  {
    if |ctx| == 0 then Wrappers.None
    else if ctx[0].0 == name then Wrappers.Some(ctx[0].1)
    else ContextLookup(ctx[1..], name)
  }
}
