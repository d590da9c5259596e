/**
 * Values shared by every part of the model: the JSON value shape of
 * src/types.ts, the error record the structured chats return, and the few
 * JavaScript runtime notions the clients rely on (a call that may throw, a
 * promise that settles, the global JSON object).
 */
module Types {

  datatype Option<T> = None | Some(value: T)

  /**
   * AnyValue: null, a string, a number, a boolean, an array or an object
   * (AnyObject, a string-keyed dictionary). Numbers are kept as integers:
   * nothing in the model does arithmetic on them.
   */
  datatype Json =
    | JNull
    | JString(str: string)
    | JNumber(num: int)
    | JBool(b: bool)
    | JArray(items: seq<Json>)
    | JObject(fields: map<string, Json>)

  /** A synchronous library call inside a try block: the value it returned, or what it threw. */
  datatype Attempt<T> = Returned(value: T) | Threw(exception: Json)

  /** A settled promise: resolved with a value, or rejected with an error message. */
  datatype Settled<T> = Resolved(value: T) | Rejected(reason: string)

  /**
   * The global JSON object, a foreign library: `parse` may throw, and
   * `stringify` is the four-space-indented form every caller uses.
   */
  datatype JsonLib = JsonLib(parse: string -> Attempt<Json>, stringify: Json -> string)

  /**
   * LLM_Error: a type tag ('parse' for every failure the chats produce
   * themselves, 'schema' for a schema the translator rejects), the raw value
   * that failed, and the exception that was caught.
   */
  datatype LlmError<V> = LlmError(kind: string, value: V, cause: Json)

  const PARSE_KIND := "parse"
  const SCHEMA_KIND := "schema"
}
