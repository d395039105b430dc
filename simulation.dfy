/**
 * The per-tick state machine `update` over one firework, with the
 * invariant it keeps and what repeated ticks do.
 *
 * A flying firework moves 10 units up the surface per tick (its `y` drops)
 * and detonates on a rare draw or above y = 200. An exploded firework ages
 * by one per tick and, once older than 100 ticks, is relaunched with
 * probability 0.05 by `initFirework`. The relaunched firework keeps the
 * spark set it had: `initFirework` returns no sparks and is spread over
 * the old firework.
 */
module Simulation {
  import opened Particles

  /** The next value of a firework and the cursor after the draws it used. */
  datatype Stepped = Stepped(firework: Firework, next: nat)

  const Ascent: real := 10.0
  const ApexY: real := 200.0
  const DetonationChance: real := 0.001
  const RelaunchAge: nat := 100
  const RelaunchChance: real := 0.05

  /**
   * The draws one tick uses: one for a flight (the detonation draw), none
   * for a young explosion, one for an old explosion that stays, and two
   * for one that is relaunched (the relaunch draw and the new column).
   */
  function UpdateDraws(fw: Firework, rnd: nat -> real, at: nat): nat
  {
    if fw.phase == Fly then 1
    else if fw.age <= RelaunchAge then 0
    else if rnd(at) < RelaunchChance then 2
    else 1
  }

  /**
   * One tick of one firework. A flying firework always draws once (the
   * detonation draw comes before `||`); an exploded one draws only when it
   * is older than `RelaunchAge`, and once more for the column on relaunch.
   */
  function Update(width: real, height: real, fw: Firework, rnd: nat -> real, at: nat): (r: Stepped)
    ensures r.firework.sparks == fw.sparks
    ensures r.next == at + UpdateDraws(fw, rnd, at)
  {
    if fw.phase == Explode then
      if fw.age > RelaunchAge then
        if rnd(at) < RelaunchChance then
          Stepped(Attach(InitFirework(width, height, rnd(at + 1)), fw.sparks), at + 2)
        else
          Stepped(fw.(age := fw.age + 1), at + 1)
      else
        Stepped(fw.(age := fw.age + 1), at)
    else
      var phase := if rnd(at) < DetonationChance || fw.y < ApexY then Explode else fw.phase;
      Stepped(fw.(y := fw.y - Ascent, phase := phase), at + 1)
  }

  /**
   * The four cases of `update`: a flight rises 10 and detonates on a rare
   * draw or above y = 200; a young explosion only ages and draws nothing;
   * an old explosion is relaunched from the bottom edge on a 5% draw and
   * otherwise only ages.
   */
  lemma UpdateCases(width: real, height: real, fw: Firework, rnd: nat -> real, at: nat)
    ensures var r := Update(width, height, fw, rnd, at);
      && (fw.phase == Fly ==>
            && r.firework.y == fw.y - Ascent
            && r.firework.x == fw.x && r.firework.age == fw.age
            && (r.firework.phase == Explode <==> rnd(at) < DetonationChance || fw.y < ApexY)
            && r.next == at + 1)
      && (fw.phase == Explode && fw.age <= RelaunchAge ==>
            r.firework == fw.(age := fw.age + 1) && r.next == at)
      && (fw.phase == Explode && RelaunchAge < fw.age && rnd(at) < RelaunchChance ==>
            && r.firework.phase == Fly && r.firework.age == 0 && r.firework.y == height
            && r.firework.x == InitFirework(width, height, rnd(at + 1)).x
            && r.next == at + 2)
      && (fw.phase == Explode && RelaunchAge < fw.age && RelaunchChance <= rnd(at) ==>
            r.firework == fw.(age := fw.age + 1) && r.next == at + 1)
  {
  }

  /**
   * What holds of every firework of the animation at every tick: its
   * column is on the surface, its spark set has the configured size and
   * range, it never flies below y = 190 unless it was just launched, a
   * flying firework has age 0, and an exploded one went up at least once.
   */
  predicate Consistent(width: real, height: real, maxSparks: nat, fw: Firework)
  {
    && 0 <= fw.x && (fw.x as real) < width
    && |fw.sparks| == maxSparks
    && (forall s :: s in fw.sparks ==> SparkInRange(s))
    && fw.y <= height
    && (fw.phase == Fly ==> fw.age == 0 && (fw.y == height || ApexY - Ascent <= fw.y))
    && (fw.phase == Explode ==> fw.y <= height - Ascent)
  }

  /** A firework the factory makes satisfies the invariant. */
  lemma FreshIsConsistent(width: real, height: real, maxSparks: nat, fw: Firework)
    requires Fresh(width, height, maxSparks, fw)
    ensures Consistent(width, height, maxSparks, fw)
  {
  }

  /** `update` keeps the invariant, whatever the (uniform) draws. */
  lemma UpdateKeepsConsistent(width: real, height: real, maxSparks: nat, fw: Firework,
                              rnd: nat -> real, at: nat)
    requires Uniform(rnd) && width > 0.0
    requires Consistent(width, height, maxSparks, fw)
    ensures Consistent(width, height, maxSparks, Update(width, height, fw, rnd, at).firework)
  {
  }

  /**
   * The only phase changes: fly to explode, and explode back to a firework
   * that is flying again from the bottom edge with age 0.
   */
  lemma PhaseChanges(width: real, height: real, fw: Firework, rnd: nat -> real, at: nat)
    ensures var after := Update(width, height, fw, rnd, at).firework;
      && (fw.phase == Fly && after.phase == Explode ==> after.y == fw.y - Ascent && after.age == fw.age)
      && (fw.phase == Explode && after.phase == Fly ==> after.age == 0 && after.y == height)
      && (fw.phase == Explode && after.phase == Explode ==> after.age == fw.age + 1 && after.y == fw.y)
  {
  }

  /**
   * `n` successive updates of one firework on consecutive draws, threading
   * the cursor. In an animation frame a flying firework's update draw
   * follows its 15 drawing draws and other fireworks' draws come between
   * its updates; this function leaves those out.
   */
  function Iterate(width: real, height: real, fw: Firework, rnd: nat -> real, at: nat, n: nat): (r: Stepped)
    ensures r.firework.sparks == fw.sparks
    ensures at <= r.next <= at + 2 * n
    decreases n
  {
    if n == 0 then Stepped(fw, at)
    else
      var s := Update(width, height, fw, rnd, at);
      Iterate(width, height, s.firework, rnd, s.next, n - 1)
  }

  /**
   * A young explosion stays an explosion: over k updates that bring its age
   * to at most 101 it only ages, one per update, and consumes no draw.
   */
  lemma {:induction false} YoungExplosionHolds(width: real, height: real, fw: Firework,
                                               rnd: nat -> real, at: nat, k: nat)
    requires fw.phase == Explode && fw.age + k <= RelaunchAge + 1
    ensures Iterate(width, height, fw, rnd, at, k) == Stepped(fw.(age := fw.age + k), at)
    decreases k
  {
    if k > 0 {
      var s := Update(width, height, fw, rnd, at);
      YoungExplosionHolds(width, height, s.firework, rnd, s.next, k - 1);
    }
  }

  /**
   * Over n updates on consecutive draws, while no detonation draw fires
   * (each draw >= 0.001) and y >= 200 before each update (y - 10n >= 190
   * at the start), the firework keeps flying and y drops by exactly 10 per
   * update, one draw each.
   */
  lemma {:induction false} FlightRises(width: real, height: real, fw: Firework,
                                       rnd: nat -> real, at: nat, n: nat)
    requires fw.phase == Fly
    requires forall k :: at <= k < at + n ==> DetonationChance <= rnd(k)
    requires ApexY - Ascent <= fw.y - Ascent * (n as real)
    ensures Iterate(width, height, fw, rnd, at, n) ==
      Stepped(fw.(y := fw.y - Ascent * (n as real)), at + n)
    decreases n
  {
    if n > 0 {
      assert DetonationChance <= rnd(at);
      var s := Update(width, height, fw, rnd, at);
      assert s.firework == fw.(y := fw.y - Ascent);
      FlightRises(width, height, s.firework, rnd, s.next, n - 1);
    }
  }

  /**
   * A flight ends: a flying firework of age 0 with y < 200 + 10(n-1) has
   * exploded after n updates, for 1 <= n <= 102, whatever the draws. The
   * bound on n keeps a relaunch (possible only after age 100) out of reach.
   */
  lemma {:induction false} FlightEnds(width: real, height: real, fw: Firework,
                                      rnd: nat -> real, at: nat, n: nat)
    requires fw.phase == Fly && fw.age == 0
    requires 1 <= n <= RelaunchAge + 2
    requires fw.y < ApexY + Ascent * ((n - 1) as real)
    ensures Iterate(width, height, fw, rnd, at, n).firework.phase == Explode
    decreases n
  {
    var s := Update(width, height, fw, rnd, at);
    if s.firework.phase == Explode {
      YoungExplosionHolds(width, height, s.firework, rnd, s.next, n - 1);
    } else {
      FlightEnds(width, height, s.firework, rnd, s.next, n - 1);
    }
  }

  /** m + n updates are m updates followed by n updates. */
  lemma {:induction false} IterateSplit(width: real, height: real, fw: Firework,
                                        rnd: nat -> real, at: nat, m: nat, n: nat)
    ensures var first := Iterate(width, height, fw, rnd, at, m);
      Iterate(width, height, fw, rnd, at, m + n) == Iterate(width, height, first.firework, rnd, first.next, n)
    decreases m
  {
    if m > 0 {
      var s := Update(width, height, fw, rnd, at);
      IterateSplit(width, height, s.firework, rnd, s.next, m - 1, n);
    }
  }
}
