// The fixed-width integers of the program, as subsets of the mathematical integers.
module CTypes {
  type uint8 = i: int | 0 <= i < 0x100
  type int8 = i: int | -0x80 <= i < 0x80
  type uint16 = i: int | 0 <= i < 0x1_0000
  type uint64 = i: int | 0 <= i < 0x1_0000_0000_0000_0000

  // The contents of a std::string, octet by octet.
  type Bytes = seq<uint8>

  datatype Option<+T> = None | Some(value: T)

  // Narrowing of an int to int8_t: the representative modulo 2^8 in [-128, 128).
  function ToInt8(i: int): (r: int8)
    ensures (r - i) % 0x100 == 0
  {
    if i % 0x100 < 0x80 then i % 0x100 else i % 0x100 - 0x100
  }

  // Narrowing of an int to uint8_t or unsigned char.
  function ToUint8(i: int): (r: uint8)
    ensures (r - i) % 0x100 == 0
  {
    i % 0x100
  }

  lemma Int8Octet(c: int8)
    ensures ToInt8(ToUint8(c)) == c
  {
  }
}
