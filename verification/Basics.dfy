/** Values and small functions shared by the component models. */
module Basics {

  datatype Option<+T> = None | Some(value: T)

  type Byte = b: int | 0 <= b < 256

  /** Largest value of Rust's `u64`; `saturating_add` stops here. */
  const U64_MAX: nat := 0xffff_ffff_ffff_ffff

  function SaturatingAdd(a: nat, b: nat): (r: nat)
  {
    if a + b <= U64_MAX then a + b else U64_MAX
  }

  function Min(a: int, b: int): (r: int)
  {
    if a <= b then a else b
  }

  function Max(a: int, b: int): (r: int)
  {
    if a <= b then b else a
  }

  function HexValue(c: char): Option<nat>
  {
    if '0' <= c <= '9' then Some(c as int - '0' as int)
    else if 'a' <= c <= 'f' then Some(c as int - 'a' as int + 10)
    else if 'A' <= c <= 'F' then Some(c as int - 'A' as int + 10)
    else None
  }

  /** The character of a four-digit escape; surrogates are not characters of their own. */
  function Hex4(s: string): Option<char>
    requires |s| == 4
  {
    var a, b, c, d := HexValue(s[0]), HexValue(s[1]), HexValue(s[2]), HexValue(s[3]);
    if a.None? || b.None? || c.None? || d.None? then None
    else
      var n := a.value * 4096 + b.value * 256 + c.value * 16 + d.value;
      if n < 0xd800 || 0xe000 <= n < 0x10000 then Some(n as char) else None
  }
}
