/** The 16-slot pixel FIFO of the PPU (src/io/ppu/pixel.rs; src/io/ppu.rs
    carries a copy with the same code). A fixed array is used as a ring:
    `head` is the oldest pixel, `tail` the next free slot, `len` the count. */
module PixelFifo {
  import opened Bits

  const Capacity := 16

  /** A pixel in the FIFO: its 2-bit colour index and the palette it uses
      (0 BGP, 1 OBP0, 2 OBP1). */
  datatype Pixel = Pixel(color: u8, paletteRegister: u8, bgPriority: bool, isSprite: bool)

  /** `Pixel::default()`. */
  const DefaultPixel := Pixel(0, 0, false, false)

  // The queue as a value: what a push and a pop do to the pixels held.

  /** `push` on the pixels held: refused when 16 are held. */
  function Pushed(q: seq<Pixel>, p: Pixel): (r: (seq<Pixel>, bool))
    requires |q| <= Capacity
    ensures r.1 <==> |q| < Capacity
    ensures r.0 == if |q| < Capacity then q + [p] else q
  {
    if |q| == Capacity then (q, false) else (q + [p], true)
  }

  /** `pop` on the pixels held: the oldest, or None when empty. */
  function Popped(q: seq<Pixel>): (r: (seq<Pixel>, Option<Pixel>))
    ensures q == [] <==> r.1.None?
    ensures q != [] ==> q == [r.1.value] + r.0
  {
    if q == [] then (q, None) else (q[1..], Some(q[0]))
  }

  /** Pushing each pixel of ps in turn. */
  function PushAll(q: seq<Pixel>, ps: seq<Pixel>): (r: seq<Pixel>)
    requires |q| <= Capacity
    ensures |r| <= Capacity
    decreases |ps|
  {
    if ps == [] then q else PushAll(Pushed(q, ps[0]).0, ps[1..])
  }

  /** Popping n pixels in turn: the pixels that come out and what is left. */
  function PopN(q: seq<Pixel>, n: nat): (seq<Pixel>, seq<Pixel>)
  {
    if n == 0 then ([], q)
    else
      var (rest, p) := Popped(q);
      var (out, left) := PopN(rest, n - 1);
      (if p.Some? then [p.value] + out else out, left)
  }

  /** While the FIFO has room, pushing ps appends them in order. */
  lemma {:induction false} PushAllAppends(q: seq<Pixel>, ps: seq<Pixel>)
    requires |q| + |ps| <= Capacity
    ensures PushAll(q, ps) == q + ps
    decreases |ps|
  {
    if ps != [] {
      PushAllAppends(q + [ps[0]], ps[1..]);
      assert q + [ps[0]] + ps[1..] == q + ps;
    }
  }

  /** Popping n pixels returns the n oldest, in order. */
  lemma {:induction false} PopNTakesOldest(q: seq<Pixel>, n: nat)
    requires n <= |q|
    ensures PopN(q, n) == (q[..n], q[n..])
  {
    if n > 0 {
      PopNTakesOldest(q[1..], n - 1);
      assert [q[0]] + q[1..][..n - 1] == q[..n];
    }
  }

  /** First in, first out: pixels pushed into an empty FIFO (at most 16 of
      them) come out in the order they went in, leaving it empty. */
  lemma FirstInFirstOut(ps: seq<Pixel>)
    requires |ps| <= Capacity
    ensures PopN(PushAll([], ps), |ps|) == (ps, [])
  {
    var empty: seq<Pixel> := [];
    PushAllAppends(empty, ps);
    assert empty + ps == ps;
    PopNTakesOldest(ps, |ps|);
    assert ps[..|ps|] == ps && ps[|ps|..] == [];
  }

  /** A full FIFO refuses a push and an empty one yields nothing; neither
      changes what is held. */
  lemma FullAndEmptyUnchanged(q: seq<Pixel>, p: Pixel)
    ensures |q| == Capacity ==> Pushed(q, p) == (q, false)
    ensures q == [] ==> Popped(q) == ([], None)
  {
  }

  // The queue object.

  /** The slot k places after slot h, wrapping once at the end of the ring:
      what `(h + k) % 16` is for h, k < 16. */
  function Slot(h: nat, k: nat): nat
  {
    if h + k < Capacity then h + k else h + k - Capacity
  }

  /** An index below twice the capacity wraps at most once. */
  lemma WrapOnce(h: nat, k: nat)
    requires h + k < 2 * Capacity
    ensures (h + k) % Capacity == Slot(h, k)
  {
  }

  /** The ring `d` holds the pixels `q`, oldest in slot `h`, the next ones
      in the slots after it, wrapping at the end. */
  ghost predicate Holds(d: seq<Pixel>, h: nat, q: seq<Pixel>)
    decreases |q|
  {
    |d| == Capacity && h < Capacity && |q| <= Capacity
    && (q != [] ==> q[0] == d[h] && Holds(d, Slot(h, 1), q[1..]))
  }

  /** Writing the slot after the last pixel held appends to what is held. */
  lemma {:induction false} HoldsAfterPush(d: seq<Pixel>, h: nat, q: seq<Pixel>, p: Pixel)
    requires Holds(d, h, q) && |q| < Capacity
    ensures Holds(d[Slot(h, |q|) := p], h, q + [p])
    decreases |q|
  {
    if q == [] {
      assert (q + [p])[1..] == [];
    } else {
      HoldsAfterPush(d, Slot(h, 1), q[1..], p);
      assert (q + [p])[1..] == q[1..] + [p];
    }
  }

  class PixelQueue {
    var data: array<Pixel>
    var head: nat
    var tail: nat
    var len: nat
    /** The pixels held, oldest first. */
    ghost var contents: seq<Pixel>

    ghost predicate Valid()
      reads this, data
    {
      data.Length == Capacity && tail == Slot(head, len)
      && len == |contents| && Holds(data[..], head, contents)
    }

    constructor ()
      ensures Valid() && fresh(data) && contents == []
    {
      data := new Pixel[Capacity](_ => DefaultPixel);
      head, tail, len := 0, 0, 0;
      contents := [];
    }

    method Push(pixel: Pixel) returns (pushed: bool)
      requires Valid()
      modifies this, data
      ensures Valid() && data == old(data)
      ensures (contents, pushed) == Pushed(old(contents), pixel)
    {
      if len == Capacity {
        pushed := false;
      } else {
        ghost var d, q := data[..], contents;
        HoldsAfterPush(d, head, q, pixel);
        WrapOnce(tail, 1);
        data[tail] := pixel;
        assert data[..] == d[tail := pixel];
        tail := (tail + 1) % Capacity;
        len := len + 1;
        contents := q + [pixel];
        pushed := true;
      }
    }

    method Pop() returns (pixel: Option<Pixel>)
      requires Valid()
      modifies this
      ensures Valid() && data == old(data)
      ensures (contents, pixel) == Popped(old(contents))
    {
      if len == 0 {
        pixel := None;
      } else {
        pixel := Some(data[head]);
        assert contents[0] == data[..][head];
        WrapOnce(head, 1);
        head := (head + 1) % Capacity;
        len := len - 1;
        contents := contents[1..];
      }
    }

    function Len(): (n: nat)
      requires Valid()
      reads this, data
      ensures n == |contents| && n <= Capacity
    {
      len
    }

    method Clear()
      requires Valid()
      modifies this
      ensures Valid() && data == old(data) && contents == []
    {
      head, tail, len := 0, 0, 0;
      contents := [];
    }
  }
}
