/**
 * Types shared by every part of the buoy firmware model: fixed-width
 * integers, the status codes the vendor drivers return, and the entries
 * of the message log the firmware writes to the PC console.
 */
module Common {

  type u8 = x: int | 0 <= x < 0x100
  type u16 = x: int | 0 <= x < 0x1_0000
  type u32 = x: int | 0 <= x < 0x1_0000_0000
  type i16 = x: int | -0x8000 <= x < 0x8000

  /** The vendor status codes the core distinguishes; every other code is ErrOther. */
  datatype Status =
    | Ok
    | Busy
    | ErrBadFormat
    | ErrOverflow
    | ErrBadData
    | ErrDenied
    | ErrProtocol
    | ErrPacketCollision
    | ErrNoMemory
    | ErrOther(code: int)

  /** MC3416_ERROR: the status the accelerometer driver returns when the chip is not recognised. */
  const Mc3416Error: Status := ErrOther(1)

  datatype Option<T> = None | Some(value: T)

  /**
   * The value printed after a key in a console line. Floating-point text
   * formatting is not modelled: a number is kept as the real it prints.
   * Indeterminate is a value read from an uninitialised variable.
   */
  datatype Value =
    | Bit(on: bool)
    | Num(x: real)
    | Count(n: int)
    | Hex(n: int)
    | Code(status: Status)
    | Indeterminate

  /** One message sent to a console: literal text, or a key followed by a value. */
  datatype Msg = Text(text: string) | Field(key: string, value: Value)

  /** C's conversion of an int to a 16-bit unsigned type. */
  function Wrap16(x: int): (r: u16)
    ensures (r - x) % 0x1_0000 == 0
  {
    x % 0x1_0000
  }

  /** Reading a 16-bit pattern as a two's complement int16_t. */
  function AsI16(w: u16): (r: i16)
    ensures Wrap16(r) == w
    ensures r >= 0 <==> w < 0x8000
  {
    if w < 0x8000 then w else w - 0x1_0000
  }

  /** C's conversion of an int to int16_t (two's complement wrap-around). */
  function ToI16(x: int): (r: i16)
    ensures (r - x) % 0x1_0000 == 0
    ensures -0x8000 <= x < 0x8000 ==> r == x
  {
    AsI16(Wrap16(x))
  }

  /** The bit pattern of a byte; masks are computed on it. */
  function Bits(x: u8): bv8
  {
    x as bv8
  }

  /** The byte a bit pattern stands for. */
  function Byte(v: bv8): (r: u8)
    ensures Bits(r) == v
  {
    v as int
  }

  /**
   * The 8 bytes a board loads for the next SPI transfer: zeros, eight
   * dashes, a number printed right-aligned with the given decimals
   * ("%*.2f"), or an integer ("%*d").
   */
  datatype Word = Blank | Dashes | Decimal(x: real, places: nat) | Integer(n: int)

  /** n words of an SPI read-out: those of ws, then dashes. */
  function Padded(ws: seq<Word>, n: nat): (r: seq<Word>)
    ensures |r| == n
    ensures forall j :: 0 <= j < n ==> r[j] == (if j < |ws| then ws[j] else Dashes)
    decreases n
  {
    if n == 0 then []
    else if ws == [] then [Dashes] + Padded([], n - 1)
    else [ws[0]] + Padded(ws[1..], n - 1)
  }

  /** The first of n padded words, and the n - 1 after it. */
  lemma PaddedStep(ws: seq<Word>, n: nat)
    requires n > 0
    ensures Padded(ws, n) == [if ws == [] then Dashes else ws[0]] + Padded(if ws == [] then [] else ws[1..], n - 1)
  {
  }

  /** The `(b) ? 1 : 0` the firmware prints for a pin level. */
  function Flag(b: bool): int
  {
    if b then 1 else 0
  }

  /**
   * A piece of code as the source has it, or with a defect corrected: the
   * serial line assembler's full-buffer check, the GUI's name for Main power.
   */
  datatype Variant = AsWritten | Fixed

  // ------------------------------------------------------------ sequences

  lemma Assoc<T>(a: seq<T>, b: seq<T>, c: seq<T>)
    ensures a + b + c == a + (b + c)
  {
  }

  lemma DropDrop<T>(s: seq<T>, a: nat, b: nat)
    requires a + b <= |s|
    ensures s[a..][b..] == s[a + b..]
  {
  }

  lemma UpdateAtSplit<T>(a: seq<T>, b: seq<T>, v: T)
    requires |b| > 0
    ensures (a + b)[|a| := v] == a + [v] + b[1..]
  {
  }
}
