/** Bytes, as Go's `[]byte` holds them, and the ASCII codes the logger writes. */
module Bytes {
  newtype byte = x: int | 0 <= x < 256

  const Space: byte := 0x20   // ' '
  const Bang: byte := 0x21    // '!'
  const LetterD: byte := 0x44 // 'D'
  const LetterE: byte := 0x45 // 'E'
  const LetterI: byte := 0x49 // 'I'
  const LetterW: byte := 0x57 // 'W'
}
