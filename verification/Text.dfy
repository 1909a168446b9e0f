/** Byte lengths: strings are sequences of characters, but the shell's code measures some of
    them in the bytes of their UTF-8 form. */
module Text {
  function Utf8Len(c: char): nat {
    if c as int < 0x80 then 1 else if c as int < 0x800 then 2 else if c as int < 0x1_0000 then 3 else 4
  }

  /** The byte offset of the `n`th character. */
  function Offset(text: string, n: nat): nat
    requires n <= |text|
  {
    if n == 0 then 0 else Offset(text, n - 1) + Utf8Len(text[n - 1])
  }

  function ByteLen(text: string): nat {
    Offset(text, |text|)
  }
}
