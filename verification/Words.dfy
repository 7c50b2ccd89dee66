/** Fixed-width unsigned integers of the C sources, and the byte-order conversion both halves of uIP use. */
module Words {
  type u8 = x: int | 0 <= x < 0x100
  type u16 = x: int | 0 <= x < 0x1_0000
  type u32 = x: int | 0 <= x < 0x1_0000_0000

  /** Assignment to a u8_t, u16_t or u32 variable keeps the low bits. */
  function Wrap8(x: int): u8 { x % 0x100 }

  function Wrap16(x: int): u16 { x % 0x1_0000 }

  function Wrap32(x: int): u32 { x % 0x1_0000_0000 }

  /** The 16-bit quantity whose high byte is `hi` and low byte `lo`. */
  function Word(hi: u8, lo: u8): u16 { hi as int * 0x100 + lo as int }

  function Swap16(x: u16): u16 { Word(x % 0x100, x / 0x100) }

  /** HTONS: the identity on a big-endian CPU, a byte swap on a little-endian one. */
  function Htons(bigEndian: bool, x: u16): u16 { if bigEndian then x else Swap16(x) }

  lemma HtonsTwice(bigEndian: bool, x: u16)
    ensures Htons(bigEndian, Htons(bigEndian, x)) == x
  {
    var hi, lo := x / 0x100, x % 0x100;
    assert x == hi * 0x100 + lo;
    assert (lo * 0x100 + hi) / 0x100 == lo && (lo * 0x100 + hi) % 0x100 == hi;
  }

  datatype Option<+T> = None | Some(value: T)
}
