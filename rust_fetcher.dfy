/** The background fetcher of the rust/ tree (rust/src/io/ppu/fetcher.rs):
    a five-state cycle that so far only counts time. Every state but Push
    waits two ticks before moving on; Push moves on at once. Its FIFO is
    initialised and never touched. */
module RustFetcher {
  import opened Bits

  datatype ColorIndex = Zero | One | Two | Three

  datatype Pixel = Pixel(color: ColorIndex, usesObp1: bool)

  datatype FetcherMode = GetTileId | GetTileLow | GetTileHigh | Sleep | Push

  /** `PixelFifo::new()`: sixteen pixels of colour 0 on OBP1. */
  function NewFifo(): (q: seq<Pixel>)
    ensures |q| == 16
    ensures forall i :: 0 <= i < |q| ==> q[i] == Pixel(Zero, true)
  {
    seq(16, _ => Pixel(Zero, true))
  }

  /** The state after a state has done its work. */
  function Next(m: FetcherMode): FetcherMode
  {
    match m
    case GetTileId => GetTileLow
    case GetTileLow => GetTileHigh
    case GetTileHigh => Sleep
    case Sleep => Push
    case Push => GetTileId
  }

  /** The cycle has period five and visits every state. */
  lemma NextCycles(m: FetcherMode)
    ensures Next(Next(Next(Next(Next(m))))) == m
    ensures m != Next(m) && m != Next(Next(m)) && m != Next(Next(Next(m))) && m != Next(Next(Next(Next(m))))
  {
  }

  datatype FetcherRegs = FetcherRegs(mode: FetcherMode, tick: u32)

  /** `step`: the tick count goes up; below two it only waits, except in
      Push; otherwise it goes back to 0 and the state moves on. The `+ 1`
      would overflow only from 0xFFFF_FFFF, which the tick never reaches. */
  function FetcherStep(f: FetcherRegs): (r: FetcherRegs)
    requires f.tick < 0xFFFF_FFFF
    ensures f.tick + 1 < 2 && f.mode != Push ==> r == FetcherRegs(f.mode, f.tick + 1)
    ensures f.tick + 1 >= 2 || f.mode == Push ==> r == FetcherRegs(Next(f.mode), 0)
  {
    var tick := f.tick + 1;
    if tick < 2 && f.mode != Push then f.(tick := tick)
    else FetcherRegs(Next(f.mode), 0)
  }

  /** n steps. */
  function Steps(f: FetcherRegs, n: nat): (r: FetcherRegs)
    requires f.tick < 2
    ensures r.tick < 2
  {
    if n == 0 then f else FetcherStep(Steps(f, n - 1))
  }

  lemma {:induction false} StepsAdd(f: FetcherRegs, a: nat, b: nat)
    requires f.tick < 2
    ensures Steps(f, a + b) == Steps(Steps(f, a), b)
  {
    if b > 0 {
      StepsAdd(f, a, b - 1);
    }
  }

  /** From the start of a state, every state but Push lasts two steps and
      Push one. */
  lemma StateLength(m: FetcherMode)
    ensures m != Push ==> (Steps(FetcherRegs(m, 0), 1) == FetcherRegs(m, 1)
      && Steps(FetcherRegs(m, 0), 2) == FetcherRegs(Next(m), 0))
    ensures m == Push ==> Steps(FetcherRegs(m, 0), 1) == FetcherRegs(GetTileId, 0)
  {
  }

  /** A whole fetch cycle from GetTileID takes nine steps (2 + 2 + 2 + 2 + 1)
      and returns to the state `new` leaves. */
  lemma CycleTakesNineSteps()
    ensures Steps(FetcherRegs(GetTileId, 0), 9) == FetcherRegs(GetTileId, 0)
    ensures forall n :: 0 < n < 9 ==> Steps(FetcherRegs(GetTileId, 0), n) != FetcherRegs(GetTileId, 0)
  {
    var f := FetcherRegs(GetTileId, 0);
    StateLength(GetTileId);
    StateLength(GetTileLow);
    StateLength(GetTileHigh);
    StateLength(Sleep);
    StateLength(Push);
    StepsAdd(f, 2, 2);
    StepsAdd(f, 4, 2);
    StepsAdd(f, 6, 2);
    StepsAdd(f, 8, 1);
    StepsAdd(f, 2, 1);
    StepsAdd(f, 4, 1);
    StepsAdd(f, 6, 1);
  }

  class Fetcher {
    var fifo: seq<Pixel>
    var mode: FetcherMode
    var tick: u32

    function Regs(): FetcherRegs
      reads this
    {
      FetcherRegs(mode, tick)
    }

    /** Between steps the tick count is 0 or 1. */
    predicate Valid()
      reads this
    {
      tick < 2
    }

    constructor ()
      ensures Valid() && fifo == NewFifo() && Regs() == FetcherRegs(GetTileId, 0)
    {
      fifo := NewFifo();
      mode := GetTileId;
      tick := 0;
    }

    method Step()
      requires Valid()
      modifies this`mode, this`tick
      ensures Valid()
      ensures Regs() == FetcherStep(old(Regs()))
    {
      tick := tick + 1;
      if tick < 2 && mode != Push {
        return;
      }
      tick := 0;
      match mode {
        case GetTileId => mode := GetTileLow;
        case GetTileLow => mode := GetTileHigh;
        case GetTileHigh => mode := Sleep;
        case Sleep => mode := Push;
        case Push => mode := GetTileId;
      }
    }
  }
}
