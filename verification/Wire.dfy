// The messages the proxy moves around, as the protocol library hands them over.
module Wire {
  type Byte = b: int | 0 <= b < 256
  type Bytes = seq<Byte>

  datatype Option<+T> = None | Some(value: T)

  // A Bind parameter: its format code (1 is binary) and its value, None for NULL.
  datatype Param = Param(format: int, value: Option<Bytes>)

  datatype ParseMsg = ParseMsg(statement: string, query: string, types: seq<int>)

  datatype BindMsg = BindMsg(statement: string, params: seq<Param>, resultFormats: seq<int>)

  // A frontend message. `Ignored` stands for every event the loop does not act on, and for an
  // empty queue entry.
  datatype Msg =
    | Ignored
    | Parse(parse: ParseMsg)
    | Bind(bind: BindMsg)
    | Execute
    | Sync
    | Query(sql: string)
    | Terminate

  // A cached prepared statement.
  datatype Prepared = Prepared(name: string, query: string, types: seq<int>, slot: int)

  // The verified client identity. `slot` is the Bind parameter to overwrite, negative when unset.
  datatype Identity = Identity(router: Bytes, group: string, slot: int)
}
