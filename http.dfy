/**
 * What every handler shares: the flat query string, and the split of a
 * handler into the checks it makes before touching storage and the storage
 * call it then issues.
 */
module Http {
  import opened Wrappers
  import opened JsonValues

  /** `req.query`: flat string keys to string values. */
  type Query = map<string, string>

  function Param(q: Query, k: string): Option<string> {
    if k in q then Some(q[k]) else None
  }

  /** `String(req.query?.k ?? d)`: the default only when the key is missing. */
  function ParamOr(q: Query, k: string, d: string): string {
    if k in q then q[k] else d
  }

  /** `req.query?.k` as the JSON value a helper such as `parseBool` receives. */
  function QueryValue(q: Query, k: string): Option<Json> {
    if k in q then Some(JStr(q[k])) else None
  }

  /**
   * A handler either answers with an error status before any storage call
   * (`Reject`), or goes on to issue the storage call described by `call`.
   */
  datatype Step<T> = Reject(status: nat, message: string) | Proceed(call: T)

  /**
   * The id guard at the top of every get-by-id, update and delete handler:
   * an id that is not a valid ObjectId is answered with 400 "Invalid id".
   * `isId` stands for `mongoose.Types.ObjectId.isValid`.
   */
  function RequireValidId(id: string, isId: Json -> bool): (r: Step<string>)
    ensures r.Reject? <==> !isId(JStr(id))
    ensures r.Reject? ==> r.status == 400 && r.message == "Invalid id"
    ensures r.Proceed? ==> r.call == id
  {
    if !isId(JStr(id)) then Reject(400, "Invalid id") else Proceed(id)
  }
}
