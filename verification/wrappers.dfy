/** Optional values: a JavaScript property that may be `undefined` or `null`. */
module Wrappers {

  datatype Option<+T> = None | Some(value: T) {

    /** The `??` operator: the value when present, otherwise `default`. */
    function GetOr(default: T): T {
      match this
      case Some(v) => v
      case None => default
    }
  }
}

/**
 * The external data store (a Supabase table) seen as an oracle: for a list of
 * filters it either fails (an error reply or a thrown exception) or returns rows.
 */
module Store {

  datatype Reply<+R> = Failure(message: string) | Rows(rows: seq<R>)
}
