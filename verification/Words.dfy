/** Machine words and optional values, shared by all parts of the model. */
module Words {

  const U8: nat := 0x100
  const U32: nat := 0x1_0000_0000

  type Word = w: nat | w < 0x1_0000_0000

  datatype Option<+T> = None | Some(value: T)
}
