/**
 * The particle data model and the particle factory: `initFirework`,
 * `generateSparks` and `generateFireworks`.
 *
 * `Math.random()` is not ambient here. Every operation that draws reads
 * an explicit stream `rnd: nat -> real` starting at a cursor `at`, and
 * uses exactly the draws the original code makes, in the order it makes
 * them. That a draw lies in [0, 1) is a hypothesis of the lemmas
 * (`Uniform`), not a precondition of the operations.
 */
module Particles {
  import opened Repeat

  datatype Phase = Fly | Explode

  /** One trail of an explosion; `red`, `green`, `blue` are on/off flags. */
  datatype Spark = Spark(vx: real, vy: real, weight: real, red: int, green: int, blue: int)

  /** What `initFirework` returns: a firework without its sparks. */
  datatype Launch = Launch(x: int, y: real, age: nat, phase: Phase)

  datatype Firework = Firework(x: int, y: real, age: nat, phase: Phase, sparks: seq<Spark>)

  /** Draws used by one spark: two magnitudes, two signs, a weight, three flags. */
  const SparkDraws: nat := 8

  /** Draws used by one firework of a population of fireworks with `maxSparks` sparks each. */
  function FireworkDraws(maxSparks: nat): nat
  {
    1 + SparkDraws * maxSparks
  }

  /** A value `Math.random()` can return. */
  predicate DrawOk(d: real)
  {
    0.0 <= d < 1.0
  }

  /** Every draw of the stream is a value `Math.random()` can return. */
  ghost predicate Uniform(rnd: nat -> real)
  {
    forall k :: DrawOk(rnd(k))
  }

  function Abs(v: real): real
  {
    if v < 0.0 then -v else v
  }

  predicate Flag(f: int)
  {
    f == 0 || f == 1
  }

  /** The ranges the factory promises for every spark. */
  predicate SparkInRange(s: Spark)
  {
    && 0.5 <= Abs(s.vx) < 5.5
    && 0.5 <= Abs(s.vy) < 5.5
    && 0.03 <= s.weight < 0.33
    && Flag(s.red) && Flag(s.green) && Flag(s.blue)
  }

  /** A fresh firework at the bottom edge, at a column chosen by the draw `d`. */
  function InitFirework(width: real, height: real, d: real): (r: Launch)
    ensures r.y == height && r.age == 0 && r.phase == Fly
    ensures DrawOk(d) && width > 0.0 ==> 0 <= r.x && (r.x as real) < width
  {
    Launch((d * width).Floor, height, 0, Fly)
  }

  /** The firework `{...launch, sparks}`. */
  function Attach(l: Launch, sparks: seq<Spark>): Firework
  {
    Firework(l.x, l.y, l.age, l.phase, sparks)
  }

  /** One spark from the draws rnd(at), ..., rnd(at + 7). */
  function NewSpark(rnd: nat -> real, at: nat): (s: Spark)
    ensures (forall k | at <= k < at + SparkDraws :: DrawOk(rnd(k))) ==>
      && SparkInRange(s)
      && (s.vx < 0.0 <==> rnd(at + 2) > 0.5)
      && (s.vy < 0.0 <==> rnd(at + 3) > 0.5)
  {
    var vx := rnd(at) * 5.0 + 0.5;
    var vy := rnd(at + 1) * 5.0 + 0.5;
    Spark(
      if rnd(at + 2) > 0.5 then -vx else vx,
      if rnd(at + 3) > 0.5 then -vy else vy,
      rnd(at + 4) * 0.3 + 0.03,
      (rnd(at + 5) * 2.0).Floor,
      (rnd(at + 6) * 2.0).Floor,
      (rnd(at + 7) * 2.0).Floor)
  }

  /** `maxSparks` sparks; spark i uses the i-th block of `SparkDraws` draws. */
  function GenerateSparks(maxSparks: nat, rnd: nat -> real, at: nat): (r: seq<Spark>)
    ensures |r| == maxSparks
    ensures forall i :: 0 <= i < maxSparks ==> r[i] == NewSpark(rnd, at + SparkDraws * i)
  {
    Times(maxSparks, (i: nat) => NewSpark(rnd, at + SparkDraws * i))
  }

  /** `{...initFirework(width, height), sparks: generateSparks(maxSparks)}`: the column is drawn first. */
  function NewFirework(width: real, height: real, maxSparks: nat, rnd: nat -> real, at: nat): (r: Firework)
    ensures r.y == height && r.age == 0 && r.phase == Fly
    ensures r.x == InitFirework(width, height, rnd(at)).x
    ensures r.sparks == GenerateSparks(maxSparks, rnd, at + 1) && |r.sparks| == maxSparks
  {
    Attach(InitFirework(width, height, rnd(at)), GenerateSparks(maxSparks, rnd, at + 1))
  }

  /**
   * `maxFireworks` fireworks; firework j uses the j-th block of
   * `FireworkDraws(maxSparks)` draws.
   */
  function GenerateFireworks(width: real, height: real, maxFireworks: nat, maxSparks: nat,
                             rnd: nat -> real, at: nat): (r: seq<Firework>)
    ensures |r| == maxFireworks
    ensures forall j :: 0 <= j < maxFireworks ==>
      r[j] == NewFirework(width, height, maxSparks, rnd, at + FireworkDraws(maxSparks) * j)
  {
    Times(maxFireworks, (j: nat) => NewFirework(width, height, maxSparks, rnd, at + FireworkDraws(maxSparks) * j))
  }

  /** Every spark drawn from a uniform stream lies in the promised ranges. */
  lemma SparksInRange(maxSparks: nat, rnd: nat -> real, at: nat)
    requires Uniform(rnd)
    ensures forall s :: s in GenerateSparks(maxSparks, rnd, at) ==> SparkInRange(s)
  {
    var r := GenerateSparks(maxSparks, rnd, at);
    forall s | s in r ensures SparkInRange(s) {
      var i :| 0 <= i < |r| && r[i] == s;
      var base := at + SparkDraws * i;
      assert forall k | base <= k < base + SparkDraws :: DrawOk(rnd(k));
    }
  }

  /** A firework just made by the factory: at the bottom edge, flying, age 0. */
  predicate Fresh(width: real, height: real, maxSparks: nat, fw: Firework)
  {
    && 0 <= fw.x && (fw.x as real) < width
    && fw.y == height && fw.age == 0 && fw.phase == Fly
    && |fw.sparks| == maxSparks
    && forall s :: s in fw.sparks ==> SparkInRange(s)
  }

  /** From a uniform stream and a positive width, a new firework is fresh. */
  lemma NewFireworkFresh(width: real, height: real, maxSparks: nat, rnd: nat -> real, at: nat)
    requires Uniform(rnd) && width > 0.0
    ensures Fresh(width, height, maxSparks, NewFirework(width, height, maxSparks, rnd, at))
  {
    assert DrawOk(rnd(at));
    SparksInRange(maxSparks, rnd, at + 1);
  }

  /**
   * From a uniform stream and a positive width, every generated firework is
   * fresh, has `maxSparks` sparks and all of them are in range.
   */
  lemma GeneratedAreFresh(width: real, height: real, maxFireworks: nat, maxSparks: nat,
                          rnd: nat -> real, at: nat)
    requires Uniform(rnd) && width > 0.0
    ensures forall j :: 0 <= j < maxFireworks ==>
      Fresh(width, height, maxSparks, GenerateFireworks(width, height, maxFireworks, maxSparks, rnd, at)[j])
  {
    forall j | 0 <= j < maxFireworks
      ensures Fresh(width, height, maxSparks, GenerateFireworks(width, height, maxFireworks, maxSparks, rnd, at)[j])
    {
      NewFireworkFresh(width, height, maxSparks, rnd, at + FireworkDraws(maxSparks) * j);
    }
  }
}
