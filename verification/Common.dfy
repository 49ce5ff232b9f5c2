/** Small shared vocabulary: optional values and bytes. */
module Common {
  datatype Option<+T> = None | Some(value: T)

  /** 2^32, the number of values of a 32-bit word. */
  const TWO_32 := 0x1_0000_0000

  type Byte = b: int | 0 <= b < 256

  type Mac = m: seq<Byte> | |m| == 6 witness [0, 0, 0, 0, 0, 0]

  lemma Associative<T>(a: seq<T>, b: seq<T>, c: seq<T>)
    ensures (a + b) + c == a + (b + c)
  {
  }
}
