/** Optional values, for the source's `dict.get`, missing keys and absent tokens. */
module Wrappers {
  datatype Option<+T> = None | Some(value: T)
}

/** What both handlers share: the row type of the table store and the handler's outcome. */
module Lambda {
  /** A record as the table store and the CSV reader see it: column name to string value. */
  type Row = map<string, string>

  /** The dictionary a handler returns: `{'statusCode': ..., 'body': ...}`. */
  datatype Response = Response(statusCode: int, body: string)

  /** A handler either returns a response or lets an exception escape to the platform. */
  datatype Outcome = Returned(response: Response) | Raised(error: string)

  const StatusOk := 200
}
