/**
 * The frame renderer `draw`, with its helpers `fill` and `toRGBA`.
 *
 * The drawing surface is abstract. One `fill` (begin a path, set the fill
 * colour, add a square of side `Radius`, fill it) is one `Paint` command,
 * and a `Canvas` records the commands issued to it, in order. The colour is
 * kept as its four numbers rather than as the `rgba(...)` text.
 */
module Render {
  import opened Repeat
  import opened Particles

  datatype Option<T> = None | Some(value: T)

  const Radius: int := 4
  /** Squares of the rising trail of a flying firework. */
  const FlySquares: nat := 15
  /** Squares of the trail of one spark of an explosion. */
  const TrailSquares: nat := 10

  datatype Rgba = Rgba(r: int, g: int, b: int, a: int)

  /** One filled square: its corner, its side and its colour. */
  datatype Paint = Paint(x: real, y: real, side: int, color: Rgba)

  function Channels(c: Rgba): seq<int>
  {
    [c.r, c.g, c.b, c.a]
  }

  /**
   * `toRGBA(...colors)` in src/Fireworks.tsx: the given channels in order,
   * each one not given taking its default (0, 0, 0 and alpha 1); channels
   * past the fourth are ignored.
   */
  function ToRgba(colors: seq<int>): (c: Rgba)
    ensures 4 <= |colors| ==> Channels(c) == colors[..4]
    ensures |colors| < 4 ==>
      Channels(c)[..|colors|] == colors && Channels(c)[|colors|..] == [0, 0, 0, 1][|colors|..]
  {
    Rgba(
      if 0 < |colors| then colors[0] else 0,
      if 1 < |colors| then colors[1] else 0,
      if 2 < |colors| then colors[2] else 0,
      if 3 < |colors| then colors[3] else 1)
  }

  /**
   * `toRGBA(...colors)` in src/index.js, where only `b` and `a` have
   * defaults: with fewer than two channels the text has an empty channel
   * field, which the canvas rejects; the model writes `None`. Otherwise it
   * is the colour of `ToRgba`.
   */
  function ToRgbaLegacy(colors: seq<int>): (c: Option<Rgba>)
    ensures c.Some? <==> 2 <= |colors|
    ensures c.Some? ==> c.value == ToRgba(colors)
  {
    if |colors| < 2 then None
    else Some(Rgba(colors[0], colors[1], if 2 < |colors| then colors[2] else 0, if 3 < |colors| then colors[3] else 1))
  }

  /** The command `fill(ctx, x, y, colors)` issues. */
  function Square(x: real, y: real, colors: seq<int>): Paint
  {
    Paint(x, y, Radius, ToRgba(colors))
  }

  /**
   * v * n for a counter n, by repeated addition. Positions multiply reals
   * by tick and square counters; written this way the solver sees no
   * product of two unknowns.
   */
  function Scale(v: real, n: nat): real
  {
    if n == 0 then 0.0 else Scale(v, n - 1) + v
  }

  lemma {:induction false} ScaleIsProduct(v: real, n: nat)
    ensures Scale(v, n) == v * (n as real)
  {
    if n > 0 { ScaleIsProduct(v, n - 1); }
  }

  /** The column of square i of a rising trail: the firework's, jittered by the draw `d`. */
  function FlyX(x: int, d: real, i: nat): real
  {
    x as real + Scale(d, i) - Scale(0.5, i)
  }

  /** The row of square i of a rising trail: i squares below the firework. */
  function FlyY(y: real, i: nat): real
  {
    y + (i * Radius) as real
  }

  /** Square i of the rising trail of firework number `index`; `d` is its jitter draw. */
  function FlySquare(fw: Firework, index: nat, i: nat, d: real): (p: Paint)
    ensures p.side == Radius && p.y == fw.y + (i * Radius) as real
    ensures p.color == Rgba(index * 50, i * 17, 0, 1)
  {
    Square(FlyX(fw.x, d, i), FlyY(fw.y, i), [index * 50, i * 17])
  }

  lemma FlyXNear(x: int, d: real, i: nat)
    requires DrawOk(d)
    ensures x as real - (i as real) / 2.0 <= FlyX(x, d, i) <= x as real + (i as real) / 2.0
  {
    ScaleIsProduct(d, i);
    ScaleIsProduct(0.5, i);
    var w := i as real;
    assert 0.0 <= d * w <= w by {
      assert w - d * w == (1.0 - d) * w;
    }
  }

  /** The rising trail of firework number `index`, square i jittered by the draw rnd(at + i). */
  function FlyTrail(fw: Firework, index: nat, rnd: nat -> real, at: nat): (r: seq<Paint>)
    ensures |r| == FlySquares
    ensures forall i :: 0 <= i < FlySquares ==> r[i] == FlySquare(fw, index, i, rnd(at + i))
  {
    Times(FlySquares, (i: nat) => FlySquare(fw, index, i, rnd(at + i)))
  }

  /** The fade of square i of every spark trail of an explosion of age `age`. */
  function Fade(age: nat, i: nat): int
  {
    i * 20 - age * 2
  }

  /** Where spark `s` is `trailAge` ticks into the explosion: it drifts and droops. */
  function TrailX(fw: Firework, s: Spark, trailAge: nat): real
  {
    fw.x as real + Scale(s.vx, trailAge)
  }

  function TrailY(fw: Firework, s: Spark, trailAge: nat): real
  {
    var droop := Scale(s.weight, trailAge);
    fw.y + Scale(s.vy, trailAge) + droop * droop
  }

  /**
   * The channels of a trail square. `Math.floor` of a flag times the fade
   * is the product itself, both being integers.
   */
  function TrailColors(s: Spark, fade: int): seq<int>
  {
    [s.red * fade, s.green * fade, s.blue * fade]
  }

  /**
   * Where spark `s` is `trailAge` ticks into the explosion, written as
   * products: x + vx * trailAge and y + vy * trailAge + (weight * trailAge)^2.
   */
  lemma TrailCorner(fw: Firework, s: Spark, trailAge: nat)
    ensures var t := trailAge as real;
      && TrailX(fw, s, trailAge) == fw.x as real + s.vx * t
      && TrailY(fw, s, trailAge) == fw.y + s.vy * t + (s.weight * t) * (s.weight * t)
  {
    ScaleIsProduct(s.vx, trailAge);
    ScaleIsProduct(s.vy, trailAge);
    ScaleIsProduct(s.weight, trailAge);
  }

  /**
   * Square i of the trail of spark `s`: at the spark's position age + i
   * ticks into the explosion, opaque, each channel its flag times the fade.
   */
  function TrailSquare(fw: Firework, s: Spark, i: nat): (p: Paint)
    ensures p.x == TrailX(fw, s, fw.age + i) && p.y == TrailY(fw, s, fw.age + i)
    ensures p.side == Radius
    ensures var fade := Fade(fw.age, i);
      p.color == Rgba(s.red * fade, s.green * fade, s.blue * fade, 1)
  {
    var trailAge := fw.age + i;
    Square(TrailX(fw, s, trailAge), TrailY(fw, s, trailAge), TrailColors(s, Fade(fw.age, i)))
  }

  /** The trail of one spark, square 0 first. */
  function Trail(fw: Firework, s: Spark): (r: seq<Paint>)
    ensures |r| == TrailSquares
    ensures forall i :: 0 <= i < TrailSquares ==> r[i] == TrailSquare(fw, s, i)
  {
    Times(TrailSquares, (i: nat) => TrailSquare(fw, s, i))
  }

  /** The trails of `sparks`, spark after spark. */
  function SparkTrails(fw: Firework, sparks: seq<Spark>): (r: seq<Paint>)
    ensures |r| == TrailSquares * |sparks|
  {
    if |sparks| == 0 then []
    else SparkTrails(fw, sparks[..|sparks| - 1]) + Trail(fw, sparks[|sparks| - 1])
  }

  lemma SparkTrailsSnoc(fw: Firework, sparks: seq<Spark>, j: nat)
    requires j < |sparks|
    ensures SparkTrails(fw, sparks[..j + 1]) == SparkTrails(fw, sparks[..j]) + Trail(fw, sparks[j])
  {
    assert sparks[..j + 1][..j] == sparks[..j];
  }

  /** Position k of a sequence of blocks of `TrailSquares` is in block k / 10, at k % 10. */
  lemma InBlock(k: nat, m: nat)
    requires TrailSquares * m <= k < TrailSquares * (m + 1)
    ensures k / TrailSquares == m && k % TrailSquares == k - TrailSquares * m
  {
  }

  /** The trails are spark-major: square k is square k % 10 of spark k / 10. */
  lemma {:induction false} SparkTrailsAt(fw: Firework, sparks: seq<Spark>, k: nat)
    requires k < TrailSquares * |sparks|
    ensures SparkTrails(fw, sparks)[k] == TrailSquare(fw, sparks[k / TrailSquares], k % TrailSquares)
  {
    var m := |sparks| - 1;
    var prev := SparkTrails(fw, sparks[..m]);
    if k < |prev| {
      SparkTrailsAt(fw, sparks[..m], k);
    } else {
      InBlock(k, m);
    }
  }

  /** The draws `draw` uses: one jitter per square of a rising trail, none for an explosion. */
  function DrawDraws(fw: Firework): nat
  {
    if fw.phase == Fly then FlySquares else 0
  }

  /**
   * The commands `draw(ctx, fw, index)` issues, the jitter of square i of a
   * rising trail being the draw rnd(at + i). In src/Fireworks.tsx the test is
   * `phase === "fly"` and in src/index.js `phase === "explode"`: with two
   * phases they take the same branch.
   */
  function DrawCommands(fw: Firework, index: nat, rnd: nat -> real, at: nat): (r: seq<Paint>)
    ensures fw.phase == Fly ==>
      && |r| == FlySquares
      && forall i :: 0 <= i < FlySquares ==>
        && r[i].side == Radius
        && r[i].y == fw.y + (i * Radius) as real
        && r[i].color == Rgba(index * 50, i * 17, 0, 1)
    ensures fw.phase == Explode ==> |r| == TrailSquares * |fw.sparks|
  {
    if fw.phase == Fly then
      FlyTrail(fw, index, rnd, at)
    else
      SparkTrails(fw, fw.sparks)
  }

  /**
   * An explosion is drawn spark after spark, ten squares each: square k is
   * square k % 10 of the trail of spark k / 10.
   */
  lemma ExplodeOrder(fw: Firework, index: nat, rnd: nat -> real, at: nat, k: nat)
    requires fw.phase == Explode && k < TrailSquares * |fw.sparks|
    ensures DrawCommands(fw, index, rnd, at)[k] == TrailSquare(fw, fw.sparks[k / TrailSquares], k % TrailSquares)
  {
    SparkTrailsAt(fw, fw.sparks, k);
  }

  /** A channel of a trail square: the fade where the spark's flag is on, 0 where it is off. */
  function Gate(flag: int, fade: int): int
  {
    if flag == 0 then 0 else fade
  }

  lemma GateIsProduct(flag: int, fade: int)
    requires Flag(flag)
    ensures flag * fade == Gate(flag, fade)
  {
  }

  /**
   * In an explosion every square is opaque, and each of its channels is 0
   * or the fade `i*20 - age*2` according to the spark's flag for it.
   */
  lemma ExplodeColours(fw: Firework, index: nat, rnd: nat -> real, at: nat, k: nat)
    requires fw.phase == Explode && k < TrailSquares * |fw.sparks|
    requires forall s :: s in fw.sparks ==> SparkInRange(s)
    ensures var p, s, fade := DrawCommands(fw, index, rnd, at)[k], fw.sparks[k / TrailSquares], Fade(fw.age, k % TrailSquares);
      p.side == Radius && p.color == Rgba(Gate(s.red, fade), Gate(s.green, fade), Gate(s.blue, fade), 1)
  {
    var s, i := fw.sparks[k / TrailSquares], k % TrailSquares;
    var fade := Fade(fw.age, i);
    ExplodeOrder(fw, index, rnd, at, k);
    assert DrawCommands(fw, index, rnd, at)[k].color == ToRgba(TrailColors(s, fade));
    assert SparkInRange(s);
    GateIsProduct(s.red, fade);
    GateIsProduct(s.green, fade);
    GateIsProduct(s.blue, fade);
  }

  /** Square i of a rising trail lies within i/2 of the firework's column, given a draw in [0, 1). */
  lemma FlyJitter(fw: Firework, index: nat, rnd: nat -> real, at: nat, i: nat)
    requires fw.phase == Fly && i < FlySquares && DrawOk(rnd(at + i))
    ensures var p := DrawCommands(fw, index, rnd, at)[i];
      fw.x as real - (i as real) / 2.0 <= p.x <= fw.x as real + (i as real) / 2.0
  {
    assert DrawCommands(fw, index, rnd, at)[i].x == FlyX(fw.x, rnd(at + i), i);
    FlyXNear(fw.x, rnd(at + i), i);
  }

  /** An explosion is drawn the same whatever its index and whatever the draws. */
  lemma ExplodeIgnoresDraws(fw: Firework, index: nat, rnd: nat -> real, at: nat,
                            index': nat, rnd': nat -> real, at': nat)
    requires fw.phase == Explode
    ensures DrawCommands(fw, index, rnd, at) == DrawCommands(fw, index', rnd', at')
  {
  }

  /**
   * The renderer of src/index.js paints what the one of src/Fireworks.tsx
   * paints: it always passes two channels (rising trail) or three (spark
   * trail), so its `toRGBA` never produces an `undefined` channel and its
   * defaults agree with the other's.
   */
  lemma LegacyColoursAgree(index: nat, i: nat, s: Spark, fade: int)
    ensures ToRgbaLegacy([index * 50, i * 17]) == Some(Rgba(index * 50, i * 17, 0, 1))
    ensures ToRgbaLegacy(TrailColors(s, fade)) == Some(ToRgba(TrailColors(s, fade)))
  {
  }

  /** The surface: the paint commands issued to it so far. */
  class Canvas {
    var painted: seq<Paint>

    constructor ()
      ensures painted == []
    {
      painted := [];
    }
  }

  /** The prefix of `cmds` one longer than `cmds[..i]`. */
  lemma Prefix(cmds: seq<Paint>, i: nat, p: Paint)
    requires i < |cmds| && cmds[i] == p
    ensures cmds[..i + 1] == cmds[..i] + [p]
  {
  }

  lemma AppendAssoc(a: seq<Paint>, b: seq<Paint>, c: seq<Paint>)
    ensures a + b + c == a + (b + c)
  {
  }

  /** `fill(ctx, x, y, colors)`: one square more on the surface. */
  method Fill(ctx: Canvas, x: real, y: real, colors: seq<int>)
    modifies ctx
    ensures ctx.painted == old(ctx.painted) + [Square(x, y, colors)]
  {
    ctx.painted := ctx.painted + [Square(x, y, colors)];
  }

  /** The `times(15, ...)` loop of `draw` for a flying firework. */
  method DrawFlight(ctx: Canvas, fw: Firework, index: nat, rnd: nat -> real, at: nat)
    modifies ctx
    ensures ctx.painted == old(ctx.painted) + FlyTrail(fw, index, rnd, at)
  {
    ghost var cmds := FlyTrail(fw, index, rnd, at);
    var i := 0;
    while i < FlySquares
      invariant 0 <= i <= FlySquares
      invariant ctx.painted == old(ctx.painted) + cmds[..i]
    {
      Fill(ctx, FlyX(fw.x, rnd(at + i), i), FlyY(fw.y, i), [index * 50, i * 17]);
      Prefix(cmds, i, FlySquare(fw, index, i, rnd(at + i)));
      i := i + 1;
    }
    assert cmds[..FlySquares] == cmds;
  }

  /** The `times(10, ...)` loop of `draw` for one spark of an explosion. */
  method DrawTrail(ctx: Canvas, fw: Firework, spark: Spark)
    modifies ctx
    ensures ctx.painted == old(ctx.painted) + Trail(fw, spark)
  {
    ghost var cmds := Trail(fw, spark);
    var i := 0;
    while i < TrailSquares
      invariant 0 <= i <= TrailSquares
      invariant ctx.painted == old(ctx.painted) + cmds[..i]
    {
      var trailAge := fw.age + i;
      var fade := Fade(fw.age, i);
      Fill(ctx, TrailX(fw, spark, trailAge), TrailY(fw, spark, trailAge), TrailColors(spark, fade));
      Prefix(cmds, i, TrailSquare(fw, spark, i));
      i := i + 1;
    }
    assert cmds[..TrailSquares] == cmds;
  }

  /** The `sparks.forEach(...)` loop of `draw` for an exploded firework. */
  method DrawExplosion(ctx: Canvas, fw: Firework)
    modifies ctx
    ensures ctx.painted == old(ctx.painted) + SparkTrails(fw, fw.sparks)
  {
    var j := 0;
    while j < |fw.sparks|
      invariant 0 <= j <= |fw.sparks|
      invariant ctx.painted == old(ctx.painted) + SparkTrails(fw, fw.sparks[..j])
    {
      DrawTrail(ctx, fw, fw.sparks[j]);
      SparkTrailsSnoc(fw, fw.sparks, j);
      AppendAssoc(old(ctx.painted), SparkTrails(fw, fw.sparks[..j]), Trail(fw, fw.sparks[j]));
      j := j + 1;
    }
    assert fw.sparks[..|fw.sparks|] == fw.sparks;
  }

  /**
   * `draw(ctx, fw, index)`: issues `DrawCommands` in order, and returns the
   * cursor past the draws it used.
   */
  method Draw(ctx: Canvas, fw: Firework, index: nat, rnd: nat -> real, at: nat) returns (next: nat)
    modifies ctx
    ensures ctx.painted == old(ctx.painted) + DrawCommands(fw, index, rnd, at)
    ensures next == at + DrawDraws(fw)
  {
    if fw.phase == Fly {
      DrawFlight(ctx, fw, index, rnd, at);
      next := at + FlySquares;
    } else {
      DrawExplosion(ctx, fw);
      next := at;
    }
  }
}
