/** Identifiers and small datatypes shared by every module. */
module Types {

  datatype Option<+T> = None | Some(value: T)

  datatype Result<+T, +E> = Ok(value: T) | Err(error: E)

  // Identifiers are opaque tokens: the program only compares them.
  datatype Peer = Peer(name: string)
  datatype MsgId = MsgId(hex: string)
  datatype CommandId = CommandId(hex: string)

  function Max(x: real, y: real): real {
    if x >= y then x else y
  }

  function Abs(x: real): real {
    if x >= 0.0 then x else -x
  }
}
