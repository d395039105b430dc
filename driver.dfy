/**
 * The animation frame: every firework of the population is drawn and then
 * updated, in population order, and the population is replaced by the
 * updated fireworks (`fireworks.map((firework, index) => { draw(...);
 * return update(...); })`). Draws are consumed in that same order: the
 * fly-trail jitter of firework 0, its update, the jitter of firework 1, ...
 */
module Driver {
  import opened Particles
  import opened Simulation
  import opened Render

  /** The configuration the class component fixes for its population. */
  const MaxFireworks: nat := 5
  const MaxSparks: nat := 50

  /** The next population and the cursor after the frame. */
  datatype Frame = Frame(fireworks: seq<Firework>, next: nat)

  /**
   * The cursor when firework k of the population is reached: each earlier
   * firework has used its drawing draws and then its update draws.
   */
  function CursorAt(width: real, height: real, pop: seq<Firework>, rnd: nat -> real, at: nat, k: nat): nat
    requires k <= |pop|
    decreases k
  {
    if k == 0 then at
    else
      var fw := pop[k - 1];
      var drawn := CursorAt(width, height, pop, rnd, at, k - 1) + DrawDraws(fw);
      drawn + UpdateDraws(fw, rnd, drawn)
  }

  /** Firework k after the frame: drawn first, then updated. */
  function Successor(width: real, height: real, pop: seq<Firework>, rnd: nat -> real, at: nat, k: nat): Stepped
    requires k < |pop|
  {
    Update(width, height, pop[k], rnd, CursorAt(width, height, pop, rnd, at, k) + DrawDraws(pop[k]))
  }

  /** Firework k hands the cursor on to firework k + 1. */
  lemma CursorStep(width: real, height: real, pop: seq<Firework>, rnd: nat -> real, at: nat, k: nat)
    requires k < |pop|
    ensures Successor(width, height, pop, rnd, at, k)
      == Update(width, height, pop[k], rnd, CursorAt(width, height, pop, rnd, at, k) + DrawDraws(pop[k]))
    ensures CursorAt(width, height, pop, rnd, at, k + 1) == Successor(width, height, pop, rnd, at, k).next
  {
  }

  /**
   * A frame reads at most 17 draws per firework before firework k: 15
   * jitter draws and at most 2 update draws each.
   */
  lemma {:induction false} CursorBounds(width: real, height: real, pop: seq<Firework>,
                                        rnd: nat -> real, at: nat, k: nat)
    requires k <= |pop|
    ensures at <= CursorAt(width, height, pop, rnd, at, k) <= at + (FlySquares + 2) * k
    decreases k
  {
    if k > 0 {
      CursorBounds(width, height, pop, rnd, at, k - 1);
    }
  }

  /**
   * Young explosions use no draw in a frame: they are drawn without jitter
   * and their update short-circuits before `Math.random()`.
   */
  lemma {:induction false} YoungExplosionsDrawNothing(width: real, height: real, pop: seq<Firework>,
                                                      rnd: nat -> real, at: nat, k: nat)
    requires k <= |pop|
    requires forall j :: 0 <= j < k ==> pop[j].phase == Explode && pop[j].age <= RelaunchAge
    ensures CursorAt(width, height, pop, rnd, at, k) == at
    decreases k
  {
    if k > 0 {
      YoungExplosionsDrawNothing(width, height, pop, rnd, at, k - 1);
    }
  }

  /** The successors of the first n fireworks, in order. */
  function Successors(width: real, height: real, pop: seq<Firework>, rnd: nat -> real, at: nat, n: nat): (r: seq<Firework>)
    requires n <= |pop|
    ensures |r| == n
    ensures forall k :: 0 <= k < n ==> r[k] == Successor(width, height, pop, rnd, at, k).firework
  {
    seq(n, (k: int) requires 0 <= k < n => Successor(width, height, pop, rnd, at, k).firework)
  }

  /** One more successor. */
  lemma SuccessorsSnoc(width: real, height: real, pop: seq<Firework>, rnd: nat -> real, at: nat, n: nat)
    requires n < |pop|
    ensures Successors(width, height, pop, rnd, at, n + 1)
      == Successors(width, height, pop, rnd, at, n) + [Successor(width, height, pop, rnd, at, n).firework]
  {
  }

  /** One more firework's commands. */
  lemma FramePaintSnoc(width: real, height: real, pop: seq<Firework>, rnd: nat -> real, at: nat, k: nat)
    requires k < |pop|
    ensures FramePaint(width, height, pop, rnd, at, k + 1)
      == FramePaint(width, height, pop, rnd, at, k) + DrawCommands(pop[k], k, rnd, CursorAt(width, height, pop, rnd, at, k))
  {
  }

  /**
   * Firework k is drawn at the cursor CursorAt(k), then updated: the frame
   * gains its successor, its commands and its cursor.
   */
  lemma FrameStep(width: real, height: real, pop: seq<Firework>, rnd: nat -> real, at: nat, k: nat,
                  c: nat)
    requires k < |pop| && c == CursorAt(width, height, pop, rnd, at, k) + DrawDraws(pop[k])
    ensures var s := Update(width, height, pop[k], rnd, c);
      && Successors(width, height, pop, rnd, at, k + 1) == Successors(width, height, pop, rnd, at, k) + [s.firework]
      && CursorAt(width, height, pop, rnd, at, k + 1) == s.next
    ensures FramePaint(width, height, pop, rnd, at, k + 1)
      == FramePaint(width, height, pop, rnd, at, k) + DrawCommands(pop[k], k, rnd, CursorAt(width, height, pop, rnd, at, k))
  {
    var s := Update(width, height, pop[k], rnd, c);
    assert Successors(width, height, pop, rnd, at, k + 1) == Successors(width, height, pop, rnd, at, k) + [s.firework] by {
      SuccessorsSnoc(width, height, pop, rnd, at, k);
    }
    assert CursorAt(width, height, pop, rnd, at, k + 1) == s.next by {
      CursorStep(width, height, pop, rnd, at, k);
    }
    FramePaintSnoc(width, height, pop, rnd, at, k);
  }

  /** One frame over a population: each firework replaced by its successor, in order. */
  function Advance(width: real, height: real, pop: seq<Firework>, rnd: nat -> real, at: nat): (r: Frame)
    ensures |r.fireworks| == |pop|
    ensures forall k :: 0 <= k < |pop| ==> r.fireworks[k].sparks == pop[k].sparks
  {
    Frame(Successors(width, height, pop, rnd, at, |pop|), CursorAt(width, height, pop, rnd, at, |pop|))
  }

  /** The commands the first n fireworks paint, in population order. */
  function FramePaint(width: real, height: real, pop: seq<Firework>, rnd: nat -> real, at: nat, n: nat): (r: seq<Paint>)
    requires n <= |pop|
    ensures |r| == PaintCount(pop[..n])
    decreases n
  {
    if n == 0 then []
    else
      assert pop[..n][..n - 1] == pop[..n - 1];
      FramePaint(width, height, pop, rnd, at, n - 1)
        + DrawCommands(pop[n - 1], n - 1, rnd, CursorAt(width, height, pop, rnd, at, n - 1))
  }

  /** Squares painted for a population: 15 per flying firework, 10 per spark of an exploded one. */
  function PaintCount(pop: seq<Firework>): nat
  {
    if |pop| == 0 then 0
    else
      var fw := pop[|pop| - 1];
      PaintCount(pop[..|pop| - 1]) + (if fw.phase == Fly then FlySquares else TrailSquares * |fw.sparks|)
  }

  /** A population whose every firework satisfies the invariant. */
  predicate AllConsistent(width: real, height: real, maxSparks: nat, pop: seq<Firework>)
  {
    forall k :: 0 <= k < |pop| ==> Consistent(width, height, maxSparks, pop[k])
  }

  /** A frame keeps the invariant of every firework, whatever the (uniform) draws. */
  lemma AdvanceKeepsConsistent(width: real, height: real, maxSparks: nat,
                               pop: seq<Firework>, rnd: nat -> real, at: nat)
    requires Uniform(rnd) && width > 0.0
    requires AllConsistent(width, height, maxSparks, pop)
    ensures AllConsistent(width, height, maxSparks, Advance(width, height, pop, rnd, at).fireworks)
  {
    forall k | 0 <= k < |pop|
      ensures Consistent(width, height, maxSparks, Successor(width, height, pop, rnd, at, k).firework)
    {
      UpdateKeepsConsistent(width, height, maxSparks, pop[k], rnd,
                            CursorAt(width, height, pop, rnd, at, k) + DrawDraws(pop[k]));
    }
  }

  /** The first population is consistent. */
  lemma GeneratedAreConsistent(width: real, height: real, maxFireworks: nat, maxSparks: nat,
                               rnd: nat -> real, at: nat)
    requires Uniform(rnd) && width > 0.0
    ensures AllConsistent(width, height, maxSparks,
                          GenerateFireworks(width, height, maxFireworks, maxSparks, rnd, at))
  {
    GeneratedAreFresh(width, height, maxFireworks, maxSparks, rnd, at);
  }

  /**
   * The mounted component: its canvas, the canvas size, the random stream
   * with the cursor of the next draw, and the current population.
   */
  class Show {
    const context: Canvas
    const width: real
    const height: real
    const maxSparks: nat
    const rnd: nat -> real
    var fireworks: seq<Firework>
    var cursor: nat

    /** What every frame keeps: a uniform stream, a visible canvas and consistent fireworks. */
    ghost predicate Valid()
      reads this
    {
      Uniform(rnd) && width > 0.0 && AllConsistent(width, height, maxSparks, fireworks)
    }

    /** Mounting: the first population comes from the factory. */
    constructor (context: Canvas, width: real, height: real, maxFireworks: nat, maxSparks: nat,
                 rnd: nat -> real)
      ensures this.context == context && this.width == width && this.height == height
      ensures this.maxSparks == maxSparks && this.rnd == rnd
      ensures fireworks == GenerateFireworks(width, height, maxFireworks, maxSparks, rnd, 0)
      ensures cursor == FireworkDraws(maxSparks) * maxFireworks
      ensures |fireworks| == maxFireworks
      ensures Uniform(rnd) && width > 0.0 ==> Valid()
    {
      this.context := context;
      this.width := width;
      this.height := height;
      this.maxSparks := maxSparks;
      this.rnd := rnd;
      fireworks := GenerateFireworks(width, height, maxFireworks, maxSparks, rnd, 0);
      cursor := FireworkDraws(maxSparks) * maxFireworks;
      new;
      if Uniform(rnd) && width > 0.0 {
        GeneratedAreConsistent(width, height, maxFireworks, maxSparks, rnd, 0);
      }
    }

    /**
     * One frame (`explode`): draws every firework then updates it, in
     * order, and replaces the population by the updated fireworks.
     */
    method Explode()
      modifies this, context
      ensures var f := Advance(width, height, old(fireworks), rnd, old(cursor));
        fireworks == f.fireworks && cursor == f.next
      ensures context.painted == old(context.painted)
        + FramePaint(width, height, old(fireworks), rnd, old(cursor), |old(fireworks)|)
      ensures old(Valid()) ==> Valid()
    {
      var next, at := DrawAndUpdate(context, width, height, fireworks, rnd, cursor);
      if Valid() {
        AdvanceKeepsConsistent(width, height, maxSparks, fireworks, rnd, cursor);
      }
      fireworks, cursor := next, at;
    }
  }

  /**
   * The `map` callback: firework `index` is drawn on the canvas with the
   * draws from `at` on, then updated.
   */
  method DrawThenUpdate(context: Canvas, width: real, height: real, pop: seq<Firework>,
                        rnd: nat -> real, start: nat, index: nat, at: nat)
    returns (s: Stepped)
    requires index < |pop| && at == CursorAt(width, height, pop, rnd, start, index)
    modifies context
    ensures Successors(width, height, pop, rnd, start, index + 1)
      == Successors(width, height, pop, rnd, start, index) + [s.firework]
    ensures s.next == CursorAt(width, height, pop, rnd, start, index + 1)
    ensures context.painted == old(context.painted) + DrawCommands(pop[index], index, rnd, at)
  {
    var drawnAt := Draw(context, pop[index], index, rnd, at);
    s := Update(width, height, pop[index], rnd, drawnAt);
    FrameStep(width, height, pop, rnd, start, index, drawnAt);
  }

  /**
   * The body of a frame, `fireworks.map((firework, index) => ...)`: each
   * firework is drawn on the canvas and then updated, in population order,
   * on the draws from `start` on.
   */
  method DrawAndUpdate(context: Canvas, width: real, height: real, pop: seq<Firework>,
                       rnd: nat -> real, start: nat)
    returns (next: seq<Firework>, at: nat)
    modifies context
    ensures next == Advance(width, height, pop, rnd, start).fireworks
    ensures at == Advance(width, height, pop, rnd, start).next
    ensures context.painted == old(context.painted) + FramePaint(width, height, pop, rnd, start, |pop|)
  {
    ghost var base := context.painted;
    next, at := [], start;
    var index := 0;
    while index < |pop|
      invariant 0 <= index <= |pop|
      invariant next == Successors(width, height, pop, rnd, start, index)
      invariant at == CursorAt(width, height, pop, rnd, start, index)
      invariant context.painted == base + FramePaint(width, height, pop, rnd, start, index)
    {
      AppendAssoc(base, FramePaint(width, height, pop, rnd, start, index), DrawCommands(pop[index], index, rnd, at));
      FramePaintSnoc(width, height, pop, rnd, start, index);
      var s := DrawThenUpdate(context, width, height, pop, rnd, start, index, at);
      next := next + [s.firework];
      at := s.next;
      index := index + 1;
    }
  }

  /** The class component's show: five fireworks of fifty sparks on its own canvas. */
  method Mount(context: Canvas, width: real, height: real, rnd: nat -> real) returns (show: Show)
    ensures fresh(show)
    ensures show.context == context && show.maxSparks == MaxSparks
    ensures show.width == width && show.height == height && show.rnd == rnd
    ensures |show.fireworks| == MaxFireworks && show.cursor == FireworkDraws(MaxSparks) * MaxFireworks
    ensures show.fireworks == GenerateFireworks(width, height, MaxFireworks, MaxSparks, rnd, 0)
    ensures Uniform(rnd) && width > 0.0 ==> show.Valid()
  {
    show := new Show(context, width, height, MaxFireworks, MaxSparks, rnd);
  }

  /**
   * On a 800 x 500 canvas with all draws 0, the one firework starts at
   * column 0 on the bottom edge, flying, and one update lifts it to
   * y = 490 and detonates it (0 < 0.001).
   */
  lemma ZeroDrawsDetonate()
    ensures var pop := GenerateFireworks(800.0, 500.0, 1, 1, ((k: nat) => 0.0), 0);
      && |pop| == 1
      && pop[0].x == 0 && pop[0].y == 500.0 && pop[0].phase == Fly
      && var after := Update(800.0, 500.0, pop[0], ((k: nat) => 0.0), FireworkDraws(1)).firework;
      after.y == 490.0 && after.phase == Explode
  {
  }

  /**
   * With all draws 0.999 the firework never detonates early: it climbs 10
   * per update, is still flying at y = 190 after 31 updates, and the next
   * update (from y < 200) detonates it at y = 180.
   */
  lemma HighDrawsClimbToApex()
    ensures var rnd := ((k: nat) => 0.999);
      var fw := GenerateFireworks(800.0, 500.0, 1, 1, rnd, 0)[0];
      && Iterate(800.0, 500.0, fw, rnd, 0, 1).firework.y == 490.0
      && Iterate(800.0, 500.0, fw, rnd, 0, 1).firework.phase == Fly
      && Iterate(800.0, 500.0, fw, rnd, 0, 31).firework.y == 190.0
      && Iterate(800.0, 500.0, fw, rnd, 0, 31).firework.phase == Fly
      && Iterate(800.0, 500.0, fw, rnd, 0, 32).firework.y == 180.0
      && Iterate(800.0, 500.0, fw, rnd, 0, 32).firework.phase == Explode
  {
    var rnd := ((k: nat) => 0.999);
    var fw := GenerateFireworks(800.0, 500.0, 1, 1, rnd, 0)[0];
    assert fw == NewFirework(800.0, 500.0, 1, rnd, 0);
    assert fw.phase == Fly && fw.y == 500.0;
    FlightRises(800.0, 500.0, fw, rnd, 0, 1);
    FlightRises(800.0, 500.0, fw, rnd, 0, 31);
    var apex := Iterate(800.0, 500.0, fw, rnd, 0, 31);
    IterateSplit(800.0, 500.0, fw, rnd, 0, 31, 1);
    assert Update(800.0, 500.0, apex.firework, rnd, apex.next).firework.phase == Explode;
  }
}
