// The PPU's timing core: a dot counter that walks 341 dots per scanline and
// 89342 dots per screen, asks the video backend to draw the visible dots,
// raises the vertical-blank status bit on entering vertical blank and asks
// the backend to flush once per screen. The backend is an event trace.
module Ppu {
  import opened Common
  import PpuRegisters

  /** Dots per scanline. */
  const DotsPerLine: nat := 341

  /** Dots per screen; the dot counter wraps to 0 here. */
  const DotsPerScreen: nat := 89342

  /** Number of colours in the PPU's palette (one black entry, then 64). */
  const PaletteLength: nat := 65

  /** A `DrawNESPixel` call: the dot's coordinates and the palette entry used. */
  datatype Draw = Draw(x: int, y: int, palette: nat)

  /**
   * Everything `Execute` touches: the registers (for the status bit), the
   * dot counter with the coordinates last derived from it, and what the
   * video backend has been asked to do so far.
   */
  datatype State = State(regs: PpuRegisters.Registers, clock: u32, x: int, y: int,
                         draws: seq<Draw>, flushes: nat)

  /** `EnteredVBlank`: the dot that starts vertical blank. */
  predicate EnteredVBlank(x: int, y: int) {
    y == 241 && x == 1
  }

  /** `IsVBlank`: the post-render and vertical-blank lines, 240 to 260. */
  predicate IsVBlank(y: int) {
    y >= 240 && y != 261
  }

  /** `IsHBlank`: dots 257 to 320 of a line. */
  predicate IsHBlank(x: int) {
    257 <= x <= 320
  }

  /** The palette entry a dot is drawn with: its line number modulo 64. */
  function PaletteIndex(clock: u32): (i: nat)
    ensures i < 64
  {
    (clock / DotsPerLine) % 0x40
  }

  /** Go's `pixel_clock++` on a `uint32`. */
  function Inc32(x: u32): (r: u32) {
    if x == 0xffff_ffff then 0 else x + 1
  }

  /** A fresh PPU: registers as created, counter at 0, nothing drawn. */
  function Initial(): (s: State)
    ensures s.clock == 0 && s.draws == [] && s.flushes == 0
    ensures s.regs == PpuRegisters.Initial()
  {
    State(PpuRegisters.Initial(), 0, 0, 0, [], 0)
  }

  /** The pixel decision of one tick, at the coordinates already derived. */
  function Render(s: State): (s': State)
    ensures s' == s.(regs := s'.regs, draws := s'.draws)
    ensures s.draws <= s'.draws && |s'.draws| <= |s.draws| + 1
    ensures s'.draws != s.draws ==> s'.regs == s.regs
  {
    if !IsVBlank(s.y) then
      if IsHBlank(s.x) then s
      else s.(draws := s.draws + [Draw(s.x, s.y, PaletteIndex(s.clock))])
    else if EnteredVBlank(s.x, s.y) then
      s.(regs := PpuRegisters.SetStatusBits(s.regs, PpuRegisters.StatusInVBlank))
    else s
  }

  /** The counter step of one tick: advance, and at the end of the screen wrap and flush. */
  function Advance(s: State): (s': State)
    ensures s' == s.(clock := s'.clock, flushes := s'.flushes)
    ensures s'.clock < DotsPerScreen
    ensures s'.flushes == s.flushes || (s'.flushes == s.flushes + 1 && s'.clock == 0)
  {
    var c := Inc32(s.clock);
    if c >= DotsPerScreen then s.(clock := 0, flushes := s.flushes + 1)
    else s.(clock := c)
  }

  /** One round of `Execute`'s loop. */
  function Tick(s: State): (s': State)
    ensures s'.x == s.clock % DotsPerLine && s'.y == s.clock / DotsPerLine
    ensures s'.clock < DotsPerScreen
    ensures s.draws <= s'.draws && |s'.draws| <= |s.draws| + 1
    ensures s.flushes <= s'.flushes <= s.flushes + 1
  {
    Advance(Render(s.(x := s.clock % DotsPerLine, y := s.clock / DotsPerLine)))
  }

  /** `Execute(ticks)`: `ticks` rounds; a negative count runs none. */
  function Run(s: State, ticks: int): (s': State)
    ensures ticks <= 0 ==> s' == s
    ensures ticks > 0 ==> s'.clock < DotsPerScreen
    ensures |s'.draws| <= |s.draws| + if ticks > 0 then ticks else 0
    decreases ticks
  {
    if ticks <= 0 then s else Run(Tick(s), ticks - 1)
  }

  /** The counter stays below one screen, advances by one and wraps to 0. */
  lemma TickClock(s: State)
    requires s.clock < DotsPerScreen
    ensures Tick(s).clock < DotsPerScreen
    ensures Tick(s).clock == (s.clock + 1) % DotsPerScreen
    ensures Tick(s).flushes == s.flushes + (s.clock + 1) / DotsPerScreen
  {
  }

  /** The coordinates a tick derives lie on the screen: x in [0, 340], y in [0, 261]. */
  lemma TickCoordinates(s: State)
    requires s.clock < DotsPerScreen
    ensures 0 <= Tick(s).x <= 340 && 0 <= Tick(s).y <= 261
    ensures Tick(s).x == s.clock % DotsPerLine && Tick(s).y == s.clock / DotsPerLine
  {
  }

  /**
   * A tick asks for a dot exactly when its line is visible or the pre-render
   * line and its dot is outside 257-320; that dot carries the tick's
   * coordinates and a palette entry inside the palette.
   */
  lemma TickDraws(s: State)
    ensures var x := s.clock % DotsPerLine; var y := s.clock / DotsPerLine;
      && ((y < 240 || y == 261) && !(257 <= x <= 320) ==>
            Tick(s).draws == s.draws + [Draw(x, y, PaletteIndex(s.clock))])
      && (!((y < 240 || y == 261) && !(257 <= x <= 320)) ==> Tick(s).draws == s.draws)
    ensures forall d :: d in Tick(s).draws && d !in s.draws ==> d.palette < PaletteLength
  {
  }

  /**
   * The vertical-blank bit is set on the tick at line 241, dot 1; no other
   * tick changes the status register, and no tick changes the other registers.
   */
  lemma TickStatus(s: State)
    ensures s.clock == 241 * DotsPerLine + 1 ==>
      Tick(s).regs == PpuRegisters.SetStatusBits(s.regs, PpuRegisters.StatusInVBlank)
    ensures s.clock != 241 * DotsPerLine + 1 ==> Tick(s).regs == s.regs
  {
    var x := s.clock % DotsPerLine;
    var y := s.clock / DotsPerLine;
    if EnteredVBlank(x, y) {
      assert s.clock == 241 * DotsPerLine + 1;
    }
  }

  /** Adding one screen of dots moves neither the remainder nor more than one quotient. */
  lemma ScreenShift(k: int)
    requires k >= 0
    ensures (DotsPerScreen + k) % DotsPerScreen == k % DotsPerScreen
    ensures (DotsPerScreen + k) / DotsPerScreen == 1 + k / DotsPerScreen
  {
  }

  /**
   * `Execute(n)` from counter c ends at (c + n) mod 89342 and flushes once
   * for every screen boundary crossed, ⌊(c + n) / 89342⌋ times.
   */
  lemma {:induction false} RunClock(s: State, n: nat)
    requires s.clock < DotsPerScreen
    ensures Run(s, n).clock == (s.clock + n) % DotsPerScreen
    ensures Run(s, n).flushes == s.flushes + (s.clock + n) / DotsPerScreen
    decreases n
  {
    if n > 0 {
      var t := Tick(s);
      TickClock(s);
      RunClock(t, n - 1);
      if s.clock + 1 == DotsPerScreen {
        ScreenShift(n - 1);
      }
    }
  }

  /** One full screen of ticks from dot 0 flushes once and comes back to dot 0. */
  lemma FullScreen(s: State)
    requires s.clock == 0
    ensures Run(s, DotsPerScreen).clock == 0
    ensures Run(s, DotsPerScreen).flushes == s.flushes + 1
  {
    RunClock(s, DotsPerScreen);
  }

  /** Ticks only ever add events: earlier draws stay as they were. */
  lemma {:induction false} RunKeepsDraws(s: State, n: int)
    ensures s.draws <= Run(s, n).draws
    ensures s.flushes <= Run(s, n).flushes
    decreases n
  {
    if n > 0 {
      RunKeepsDraws(Tick(s), n - 1);
    }
  }

  /** The PPU object: its bus-visible registers, the dot counter and the backend's trace. */
  class PictureUnit {
    var regs: PpuRegisters.Registers
    var pixelClock: u32
    var pixelX: int
    var pixelY: int
    var draws: seq<Draw>
    var flushes: nat

    function Snapshot(): (s: State)
      reads this
    {
      State(regs, pixelClock, pixelX, pixelY, draws, flushes)
    }

    /** `New`: the registers of a fresh PPU and a counter at 0. */
    constructor ()
      ensures Snapshot() == Initial()
    {
      regs := PpuRegisters.Initial();
      pixelClock, pixelX, pixelY := 0, 0, 0;
      draws, flushes := [], 0;
    }

    /** `SetStatusBits`. */
    method SetStatusBits(bits: bv8)
      modifies this
      ensures Snapshot() == old(Snapshot()).(regs := PpuRegisters.SetStatusBits(old(regs), bits))
    {
      regs := regs.(status := regs.status | bits);
    }

    /** `ClearStatusBits`. */
    method ClearStatusBits(bits: bv8)
      modifies this
      ensures Snapshot() == old(Snapshot()).(regs := PpuRegisters.ClearStatusBits(old(regs), bits))
    {
      regs := regs.(status := regs.status & !bits);
    }

    /** `Execute(ticks)`: always reports success. */
    method Execute(ticks: int) returns (err: Option<Error>)
      modifies this
      ensures err == None
      ensures Snapshot() == Run(old(Snapshot()), ticks)
    {
      ghost var goal := Run(Snapshot(), ticks);
      var i := 0;
      while i < ticks
        invariant i <= ticks || ticks <= 0
        invariant Run(Snapshot(), ticks - i) == goal
        decreases ticks - i
      {
        DoTick();
        i := i + 1;
      }
      err := None;
    }

    /** One round of `Execute`'s loop. */
    method DoTick()
      modifies this
      ensures Snapshot() == Tick(old(Snapshot()))
    {
      pixelX := pixelClock % DotsPerLine;
      pixelY := pixelClock / DotsPerLine;
      if !IsVBlank(pixelY) {
        if !IsHBlank(pixelX) {
          draws := draws + [Draw(pixelX, pixelY, PaletteIndex(pixelClock))];
        }
      } else if EnteredVBlank(pixelX, pixelY) {
        SetStatusBits(PpuRegisters.StatusInVBlank);
      }
      pixelClock := Inc32(pixelClock);
      if pixelClock >= DotsPerScreen {
        pixelClock := 0;
        flushes := flushes + 1;
      }
    }

    /** `Read` from the CPU bus: only a read of 0x2002 changes anything. */
    method Read(addr: u16, p: Ptr) returns (err: Option<Error>, out: Ptr)
      modifies this
      ensures Loaded(err, out, regs) == PpuRegisters.Read(old(regs), addr, p)
      ensures Snapshot() == old(Snapshot()).(regs := regs)
    {
      err, out := None, p;
      if addr in {PpuRegisters.PpuCtl, PpuRegisters.PpuMask, PpuRegisters.PpuStatus} && p.Nil? {
        return Some(RuntimePanic), p;
      }
      if addr == PpuRegisters.PpuCtl {
        out := Cell(regs.ctl as int);
      } else if addr == PpuRegisters.PpuMask {
        out := Cell(regs.mask as int);
      } else if addr == PpuRegisters.PpuStatus {
        out := Cell(regs.status as int);
        ClearStatusBits(PpuRegisters.StatusInVBlank);
      }
    }

    /** `Write` from the CPU bus: a no-op that reports success. */
    method Write(addr: u16, v: u8) returns (err: Option<Error>)
      ensures err == None
    {
      err := None;
    }
  }
}
