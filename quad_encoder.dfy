/**
 * Quadrature encoder decoding (QuadEncoder). Each edge on channel A or
 * channel B runs a handler that samples both pin levels and moves a
 * signed 32-bit count by one; `read` converts the count to radians.
 * The handlers are modelled as sequential calls that receive the two
 * sampled pin levels as parameters.
 */
module Quadrature {
  import MathLib

  const Int32Min: int := -0x8000_0000
  const Int32Max: int := 0x7FFF_FFFF

  /** The levels of the A and B pins as sampled by a handler. */
  datatype Levels = Levels(a: bool, b: bool)

  /** The count after the channel-A handler sees `l`: up on equal levels, down otherwise. */
  function StepA(counts: int, l: Levels): int {
    if l.a == l.b then counts + 1 else counts - 1
  }

  /** The count after the channel-B handler sees `l`: the mirror of StepA. */
  function StepB(counts: int, l: Levels): int {
    if l.a == l.b then counts - 1 else counts + 1
  }

  /** Position of a level pair on the Gray cycle AB = 00, 10, 11, 01. */
  function Phase(l: Levels): (p: int)
    ensures 0 <= p < 4
  {
    if !l.a && !l.b then 0
    else if l.a && !l.b then 1
    else if l.a && l.b then 2
    else 3
  }

  /** A legal quadrature edge toggles exactly one channel. */
  predicate OneToggle(from: Levels, to: Levels) {
    (from.a != to.a) != (from.b != to.b)
  }

  /** The count after the edge from -> to, handled by the channel that toggled. */
  function Edge(counts: int, from: Levels, to: Levels): int
    requires OneToggle(from, to)
  {
    if from.a != to.a then StepA(counts, to) else StepB(counts, to)
  }

  /**
   * Every legal edge moves the count by exactly one: down when the
   * edge advances along the cycle 00 -> 10 -> 11 -> 01 -> 00, up when
   * it goes the other way.
   */
  lemma EdgeDirection(counts: int, from: Levels, to: Levels)
    requires OneToggle(from, to)
    ensures Phase(to) == (Phase(from) + 1) % 4 || Phase(from) == (Phase(to) + 1) % 4
    ensures Phase(to) == (Phase(from) + 1) % 4 ==> Edge(counts, from, to) == counts - 1
    ensures Phase(from) == (Phase(to) + 1) % 4 ==> Edge(counts, from, to) == counts + 1
  {
  }

  /** The count after a run of edges starting from the levels `start`. */
  function Walk(counts: int, start: Levels, path: seq<Levels>): int
    requires Legal(start, path)
    decreases |path|
  {
    if path == [] then counts
    else Walk(Edge(counts, start, path[0]), path[0], path[1..])
  }

  /** Every step of the path toggles exactly one channel. */
  predicate Legal(start: Levels, path: seq<Levels>)
    decreases |path|
  {
    path == [] || (OneToggle(start, path[0]) && Legal(path[0], path[1..]))
  }

  /** Every step of the path advances one place along the Gray cycle. */
  predicate Forward(start: Levels, path: seq<Levels>)
    decreases |path|
  {
    path == [] || (Phase(path[0]) == (Phase(start) + 1) % 4 && Forward(path[0], path[1..]))
  }

  /** Every step of the path goes back one place along the Gray cycle. */
  predicate Backward(start: Levels, path: seq<Levels>)
    decreases |path|
  {
    path == [] || (Phase(start) == (Phase(path[0]) + 1) % 4 && Backward(path[0], path[1..]))
  }

  /** Neighbouring places on the Gray cycle differ in exactly one channel. */
  lemma NeighboursToggleOne(from: Levels, to: Levels)
    requires Phase(to) == (Phase(from) + 1) % 4 || Phase(from) == (Phase(to) + 1) % 4
    ensures OneToggle(from, to)
  {
  }

  /** Turning one way for n edges lowers the count by exactly n. */
  lemma {:induction false} WalkForward(counts: int, start: Levels, path: seq<Levels>)
    requires Forward(start, path)
    ensures Legal(start, path)
    ensures Walk(counts, start, path) == counts - |path|
    decreases |path|
  {
    if path != [] {
      NeighboursToggleOne(start, path[0]);
      EdgeDirection(counts, start, path[0]);
      WalkForward(counts - 1, path[0], path[1..]);
    }
  }

  /** Turning the other way for n edges raises the count by exactly n. */
  lemma {:induction false} WalkBackward(counts: int, start: Levels, path: seq<Levels>)
    requires Backward(start, path)
    ensures Legal(start, path)
    ensures Walk(counts, start, path) == counts + |path|
    decreases |path|
  {
    if path != [] {
      NeighboursToggleOne(start, path[0]);
      EdgeDirection(counts, start, path[0]);
      WalkBackward(counts + 1, path[0], path[1..]);
    }
  }

  /** One full turn 00 -> 10 -> 11 -> 01 -> 00 counts -4; the reverse turn counts +4. */
  lemma GrayCycle(counts: int)
    ensures var s00, s10, s11, s01 := Levels(false, false), Levels(true, false), Levels(true, true), Levels(false, true);
      Legal(s00, [s10, s11, s01, s00]) && Walk(counts, s00, [s10, s11, s01, s00]) == counts - 4 &&
      Legal(s00, [s01, s11, s10, s00]) && Walk(counts, s00, [s01, s11, s10, s00]) == counts + 4
  {
    var s00, s10, s11, s01 := Levels(false, false), Levels(true, false), Levels(true, true), Levels(false, true);
    assert Forward(s01, [s00]);
    assert Forward(s11, [s01, s00]);
    assert Forward(s10, [s11, s01, s00]);
    assert Forward(s00, [s10, s11, s01, s00]);
    WalkForward(counts, s00, [s10, s11, s01, s00]);
    assert Backward(s10, [s00]);
    assert Backward(s11, [s10, s00]);
    assert Backward(s01, [s11, s10, s00]);
    assert Backward(s00, [s01, s11, s10, s00]);
    WalkBackward(counts, s00, [s01, s11, s10, s00]);
  }

  /** Encoder state: the pins it samples, the signed 32-bit count and the radians per count. */
  class QuadEncoder {
    const pinA: nat
    const pinB: nat
    var counts: int
    var radPerCnt: real

    /** The count fits the source's int32_t field. */
    predicate Valid()
      reads this
    {
      Int32Min <= counts <= Int32Max
    }

    /** The wheel angle the current count stands for. */
    function Angle(): real
      reads this
    {
      counts as real * radPerCnt
    }

    constructor (pinA: nat, pinB: nat, cntsPerRev: real)
      requires cntsPerRev != 0.0
      ensures Valid()
      ensures this.pinA == pinA && this.pinB == pinB
      ensures counts == 0 && radPerCnt == 2.0 * MathLib.Pi / cntsPerRev
      ensures Angle() == 0.0
    {
      this.pinA := pinA;
      this.pinB := pinB;
      counts := 0;
      radPerCnt := 2.0 * MathLib.Pi / cntsPerRev;
    }

    /** Channel-A edge handler, given the levels it reads from pin A and pin B. */
    method InterruptA(readA: bool, readB: bool)
      requires Valid()
      requires readA == readB ==> counts < Int32Max
      requires readA != readB ==> counts > Int32Min
      modifies this`counts
      ensures Valid()
      ensures counts == StepA(old(counts), Levels(readA, readB))
      ensures counts == old(counts) + 1 || counts == old(counts) - 1
    {
      if readA == readB {
        counts := counts + 1;
      } else {
        counts := counts - 1;
      }
    }

    /** Channel-B edge handler: the mirror of InterruptA. */
    method InterruptB(readA: bool, readB: bool)
      requires Valid()
      requires readA == readB ==> counts > Int32Min
      requires readA != readB ==> counts < Int32Max
      modifies this`counts
      ensures Valid()
      ensures counts == StepB(old(counts), Levels(readA, readB))
      ensures counts == old(counts) + 1 || counts == old(counts) - 1
    {
      if readA == readB {
        counts := counts - 1;
      } else {
        counts := counts + 1;
      }
    }

    /** Resets the count, so the angle reads zero. */
    method Zero()
      modifies this`counts
      ensures counts == 0 && Valid()
      ensures Angle() == 0.0
    {
      counts := 0;
    }

    /** The current angle in radians: the count times radians per count. */
    method Read() returns (angle: real)
      ensures angle == Angle()
    {
      angle := counts as real * radPerCnt;
    }
  }
}
