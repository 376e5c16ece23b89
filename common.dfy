// Shared vocabulary of the emulator model: 16-bit addresses, the optional
// values Go expresses with nil, the caller-supplied destination byte of a
// read (Go's `*uint8`), and the error values every component can return.
module Common {

  /** A Go `uint16`. Arithmetic on addresses wraps explicitly with `Wrap16`. */
  type u16 = x: int | 0 <= x < 0x10000

  /** A Go `uint8` (a byte) as a number. */
  type u8 = x: int | 0 <= x < 256

  /** A Go `uint32`. */
  type u32 = x: int | 0 <= x < 0x1_0000_0000

  /** Truncation of an `int` to a Go `uint16`. */
  function Wrap16(x: int): (r: u16)
    ensures 0 <= x < 0x10000 ==> r == x
  {
    x % 0x10000
  }

  /**
   * Truncation of an `int` to a Go `uint8`; also an address reduced
   * modulo 256 (Go's `% 256` on a `uint16`).
   */
  function Wrap8(x: int): (r: u8)
    ensures 0 <= x < 256 ==> r == x
  {
    x % 256
  }

  datatype Option<T> = None | Some(value: T)

  /** A Go `(T, error)` pair where exactly one side is meaningful. */
  datatype Result<T> = Ok(value: T) | Err(error: Error)

  /**
   * The destination of a component read: Go passes a `*uint8` that may be
   * nil. A read returns the new content of the destination.
   */
  datatype Ptr = Nil | Cell(value: u8)

  /**
   * Every error a component, the bus, the CPU or the cartridge loader can
   * return. `RuntimePanic` stands for a Go run-time panic (index out of
   * range, integer division by zero, nil dereference): the source does not
   * return an error there, it aborts.
   */
  datatype Error =
    | RamNullBuffer | RamReadOutOfRange | RamWriteOutOfRange
    | RomNullBuffer | RomReadOutOfRange | RomWrite
    | MirrorOutOfRange | MirrorReadBeyondReach | MirrorWriteBeyondReach
    | DanglingMirror
    | NoComponent
    | InvalidOpcode | NoHandler | Unimplemented
    | InvalidSignature | HeaderReadFailed | PrgReadFailed | ChrReadFailed
    | UnsupportedMapper
    | RuntimePanic

  /** Outcome of a read: the error (if any), the destination, the new state. */
  datatype Loaded<S> = Loaded(err: Option<Error>, out: Ptr, state: S)

  /** Outcome of a write: the error (if any) and the new state. */
  datatype Stored<S> = Stored(err: Option<Error>, state: S)

  /** An offset below the modulus is its own remainder. */
  lemma ModSmall(x: int, y: int)
    requires 0 <= x < y
    ensures x % y == x
  {
  }

  /** Wrapping before or after adding `d` makes no difference. */
  lemma Wrap16Add(x: int, d: int)
    ensures Wrap16(Wrap16(x) + d) == Wrap16(x + d)
  {
  }

  /** Subtracting a wrapped value wraps like subtracting the value. */
  lemma Wrap16Sub(x: int, d: int)
    ensures Wrap16(x - Wrap16(d)) == Wrap16(x - d)
  {
  }

  /** Go's `x++` on a `uint8`. */
  function Inc8(x: u8): (r: u8) {
    if x == 255 then 0 else x + 1
  }

  /** Go's `x--` on a `uint8`. */
  function Dec8(x: u8): (r: u8) {
    if x == 0 then 255 else x - 1
  }

  /** Go's `x + 1` on a `uint16`. */
  function Inc16(x: u16): (r: u16) {
    if x == 0xffff then 0 else x + 1
  }

  /** `Inc16` truncates the exact successor. */
  lemma Inc16Wrap(x: u16)
    ensures Inc16(x) == Wrap16(x as int + 1)
  {
  }

  /** Both are truncations of the exact result, and each undoes the other. */
  lemma IncDec8(x: u8)
    ensures Inc8(x) == Wrap8(x as int + 1) && Dec8(x) == Wrap8(x as int - 1)
    ensures Inc8(Dec8(x)) == x && Dec8(Inc8(x)) == x
  {
  }

  /** Go's `a & b` on two bytes. */
  function BitAnd(a: u8, b: u8): (r: u8) {
    ((a as bv8) & (b as bv8)) as int
  }

  /** Go's `a | b` on two bytes. */
  function BitOr(a: u8, b: u8): (r: u8) {
    ((a as bv8) | (b as bv8)) as int
  }

  /** Conversion of a byte's bits to a number and back is the identity. */
  lemma IntByte(b: bv8)
    ensures (b as int) as bv8 == b
    ensures 0 <= b as int < 256
  {
  }
}
