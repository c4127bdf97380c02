/** Values shared by the connection engine and the example applications. */
module Wire {

  /** An optional value; `None` also stands for a nil map or a failed decode. */
  datatype Option<+T> = None | Some(value: T)

  /** One octet of a stream or a JSON text. */
  newtype Byte = x: int | 0 <= x < 256

  /** The envelope every stream carries: a type discriminator and the raw
      payload, still undecoded (Go's `json.RawMessage`). */
  datatype Message = Message(msgType: string, data: seq<Byte>)
}
