/**
 * The per-frame particle pipeline as functions on values: batch emission
 * below capacity, the keep/remove filter, and the integration step that
 * advances each surviving particle by one frame.
 *
 * A particle holds vector values: the integration step builds its new
 * vectors from clones, so no particle shares a vector object with another
 * once it has been advanced (see `Vectors.MoveVectors`).
 */
module Particles {
  import opened Vectors

  /** Margin by which the canvas is enlarged on every side for the visibility test. */
  const THRESHOLD: real := 100.0

  datatype Particle = Particle(location: Point, speed: Point, life: real, size: real)

  /** Current size of the drawing surface. */
  datatype Canvas = Canvas(width: real, height: real)

  /** The tunable parameters of one particle system, read afresh by each update. */
  datatype Settings = Settings(
    maxParticles: int,
    particleLife: real,
    particleSize: real,
    creationRate: int,
    gravityRate: real,
    scatter: real)

  /** Settings an update can run with: the life setting is a divisor. */
  predicate Usable(s: Settings)
  {
    s.particleLife != 0.0
  }

  /** The particle lies strictly inside the canvas enlarged by `THRESHOLD` on all four sides. */
  predicate IsVisible(p: Particle, c: Canvas)
  {
    p.location.y < c.height + THRESHOLD &&
    p.location.y > -THRESHOLD &&
    p.location.x < c.width + THRESHOLD &&
    p.location.x > -THRESHOLD
  }

  predicate IsParticleAlive(p: Particle)
  {
    p.life >= 0.0
  }

  /** The filter's keep predicate: a particle is dropped only when it is both invisible and dead. */
  predicate Keep(p: Particle, c: Canvas)
  {
    IsVisible(p, c) || IsParticleAlive(p)
  }

  /** The particles that survive the filter, in their original order. */
  function Cull(ps: seq<Particle>, c: Canvas): (r: seq<Particle>)
    ensures |r| <= |ps|
    ensures forall p :: p in r <==> p in ps && Keep(p, c)
  {
    if ps == [] then []
    else (if Keep(ps[0], c) then [ps[0]] else []) + Cull(ps[1..], c)
  }

  /** How many particles one update emits: the whole batch when below capacity, otherwise none. */
  function EmissionCount(population: nat, s: Settings): nat
  {
    if population < s.maxParticles && s.creationRate > 0 then s.creationRate else 0
  }

  /** The `i`-th particle of a batch: it draws samples `2i` and `2i + 1` of the stream for its speed. */
  function NewParticle(i: nat, origin: Point, s: Settings, rand: Stream): Particle
  {
    Particle(origin, RandomPoint(-s.scatter, s.scatter, rand(2 * i), rand(2 * i + 1)), s.particleLife, s.particleSize)
  }

  /** The batch of the first `n` emitted particles, in emission order. */
  function Emitted(n: nat, origin: Point, s: Settings, rand: Stream): (r: seq<Particle>)
    ensures |r| == n
    ensures forall i :: 0 <= i < n ==>
      r[i].location == origin && r[i].life == s.particleLife && r[i].size == s.particleSize &&
      Between(r[i].speed.x, -s.scatter, s.scatter) && Between(r[i].speed.y, -s.scatter, s.scatter)
  {
    if n == 0 then [] else Emitted(n - 1, origin, s, rand) + [NewParticle(n - 1, origin, s, rand)]
  }

  /**
   * Every emitted speed component has magnitude at most `|scatter|`, also
   * for a negative scatter setting, where the sampled range is inverted.
   */
  lemma {:induction false} EmittedSpeedBound(n: nat, origin: Point, s: Settings, rand: Stream)
    ensures var e := Emitted(n, origin, s, rand);
            forall i :: 0 <= i < n ==> Abs(e[i].speed.x) <= Abs(s.scatter) && Abs(e[i].speed.y) <= Abs(s.scatter)
  {
    var e := Emitted(n, origin, s, rand);
    forall i | 0 <= i < n
      ensures Abs(e[i].speed.x) <= Abs(s.scatter) && Abs(e[i].speed.y) <= Abs(s.scatter)
    {
      SymmetricBound(e[i].speed.x, s.scatter);
      SymmetricBound(e[i].speed.y, s.scatter);
    }
  }

  /** The drift drawn for the particle that consumes stream positions `k` and `k + 1`. */
  function Drift(s: Settings, rand: Stream, k: nat): Point
  {
    RandomPoint(-s.gravityRate, s.gravityRate, rand(k), rand(k + 1))
  }

  /** The larger of two reals. */
  function Max(a: real, b: real): (m: real)
    ensures m >= a && m >= b && (m == a || m == b)
  {
    if a >= b then a else b
  }

  /**
   * Advances one particle by one frame with the given drift sample: life
   * first, then speed, size from the system's current settings, and location
   * from the new speed.
   */
  function Step(p: Particle, drift: Point, s: Settings): Particle
    requires Usable(s)
  {
    var life := p.life - 1.0;
    var speed := Plus(p.speed, drift);
    var size := Max(0.0, s.particleSize * (life / s.particleLife));
    var location := Plus(p.location, speed);
    Particle(location, speed, life, size)
  }

  /**
   * `q` is what one frame makes of `p`: life down by exactly one, speed
   * changed by a drift whose components lie between `-gravityRate` and
   * `gravityRate`, location moved by the new speed, and a non-negative size
   * computed from the new life and the system's current size and life
   * settings only.
   */
  predicate Successor(p: Particle, q: Particle, s: Settings)
    requires Usable(s)
  {
    q.life == p.life - 1.0 &&
    Between(q.speed.x - p.speed.x, -s.gravityRate, s.gravityRate) &&
    Between(q.speed.y - p.speed.y, -s.gravityRate, s.gravityRate) &&
    q.location == Plus(p.location, q.speed) &&
    q.size >= 0.0 &&
    q.size >= s.particleSize * (q.life / s.particleLife) &&
    (q.size == 0.0 || q.size == s.particleSize * (q.life / s.particleLife))
  }

  /** The step with a drift drawn from `[-gravityRate, gravityRate]` is a successor. */
  lemma StepIsSuccessor(p: Particle, drift: Point, s: Settings)
    requires Usable(s)
    requires Between(drift.x, -s.gravityRate, s.gravityRate) && Between(drift.y, -s.gravityRate, s.gravityRate)
    ensures Successor(p, Step(p, drift, s), s)
  {
    var q := Step(p, drift, s);
    assert q.speed.x - p.speed.x == drift.x;
    assert q.speed.y - p.speed.y == drift.y;
  }

  /**
   * The map of the update: every particle advanced by one frame, in order;
   * the `j`-th particle draws its drift from stream positions `k + 2j` and
   * `k + 2j + 1`.
   */
  function Integrate(ps: seq<Particle>, s: Settings, rand: Stream, k: nat): (r: seq<Particle>)
    requires Usable(s)
    ensures |r| == |ps|
    ensures forall j :: 0 <= j < |ps| ==> r[j] == Step(ps[j], Drift(s, rand, k + 2 * j), s)
  {
    if ps == [] then []
    else [Step(ps[0], Drift(s, rand, k), s)] + Integrate(ps[1..], s, rand, k + 2)
  }

  /**
   * The particle list after one update: the batch is appended (when the
   * population is below capacity), the filter runs on the enlarged list, and
   * the survivors are advanced. Emission draws the first samples of the
   * stream, the drifts the ones after.
   */
  function NextParticles(ps: seq<Particle>, s: Settings, origin: Point, c: Canvas, rand: Stream): seq<Particle>
    requires Usable(s)
  {
    var n := EmissionCount(|ps|, s);
    Integrate(Cull(ps + Emitted(n, origin, s, rand), c), s, rand, 2 * n)
  }

  /** The filter distributes over concatenation: it keeps the relative order of what it keeps. */
  lemma {:induction false} CullAppend(a: seq<Particle>, b: seq<Particle>, c: Canvas)
    ensures Cull(a + b, c) == Cull(a, c) + Cull(b, c)
  {
    if a == [] {
      assert a + b == b;
    } else {
      assert (a + b)[1..] == a[1..] + b;
      CullAppend(a[1..], b, c);
    }
  }

  /** A list all of whose particles are kept passes the filter unchanged. */
  lemma {:induction false} CullKeepsAll(ps: seq<Particle>, c: Canvas)
    requires forall i :: 0 <= i < |ps| ==> Keep(ps[i], c)
    ensures Cull(ps, c) == ps
  {
    if ps != [] {
      CullKeepsAll(ps[1..], c);
      assert [ps[0]] + ps[1..] == ps;
    }
  }

  /** Every advanced particle is a successor of the particle it came from. */
  lemma IntegrateSuccessors(ps: seq<Particle>, s: Settings, rand: Stream, k: nat)
    requires Usable(s)
    ensures |Integrate(ps, s, rand, k)| == |ps|
    ensures forall j :: 0 <= j < |ps| ==> Successor(ps[j], Integrate(ps, s, rand, k)[j], s)
  {
    var r := Integrate(ps, s, rand, k);
    forall j | 0 <= j < |ps|
      ensures Successor(ps[j], r[j], s)
    {
      StepIsSuccessor(ps[j], Drift(s, rand, k + 2 * j), s);
    }
  }

  /**
   * One update, stated whole. The batch has `creationRate` particles below
   * capacity and none at or above it; the result is the survivors of the old
   * list followed by the survivors of the batch, advanced in that order.
   */
  lemma NextParticlesShape(ps: seq<Particle>, s: Settings, origin: Point, c: Canvas, rand: Stream)
    requires Usable(s)
    ensures |ps| >= s.maxParticles ==> EmissionCount(|ps|, s) == 0
    ensures |ps| < s.maxParticles && s.creationRate >= 0 ==> EmissionCount(|ps|, s) == s.creationRate
    ensures var n := EmissionCount(|ps|, s);
            NextParticles(ps, s, origin, c, rand) ==
            Integrate(Cull(ps, c) + Cull(Emitted(n, origin, s, rand), c), s, rand, 2 * n)
  {
    var n := EmissionCount(|ps|, s);
    CullAppend(ps, Emitted(n, origin, s, rand), c);
  }

  /** Advancing a concatenation advances each part in place: the second part's particles follow the first's. */
  lemma IntegrateAppend(a: seq<Particle>, b: seq<Particle>, s: Settings, rand: Stream, k: nat)
    requires Usable(s)
    ensures var r := Integrate(a + b, s, rand, k);
            |r| == |a| + |b| &&
            (forall j :: 0 <= j < |a| ==> Successor(a[j], r[j], s)) &&
            (forall j :: 0 <= j < |b| ==> Successor(b[j], r[|a| + j], s))
  {
    IntegrateSuccessors(a + b, s, rand, k);
    var r := Integrate(a + b, s, rand, k);
    forall j | 0 <= j < |a|
      ensures Successor(a[j], r[j], s)
    {
      assert (a + b)[j] == a[j];
    }
    forall j | 0 <= j < |b|
      ensures Successor(b[j], r[|a| + j], s)
    {
      assert (a + b)[|a| + j] == b[j];
    }
  }

  /**
   * A particle is removed exactly when it is invisible and dead; so every
   * particle that is visible or still alive (life >= 0) goes on to the
   * next frame, where its life is one lower.
   */
  lemma {:induction false} SurvivorRule(ps: seq<Particle>, s: Settings, origin: Point, c: Canvas, rand: Stream, p: Particle)
    requires Usable(s)
    requires p in ps
    ensures p in Cull(ps, c) <==> !(!IsVisible(p, c) && p.life < 0.0)
    ensures Keep(p, c) ==> exists j :: 0 <= j < |NextParticles(ps, s, origin, c, rand)| &&
                                     Successor(p, NextParticles(ps, s, origin, c, rand)[j], s)
  {
    if Keep(p, c) {
      var n := EmissionCount(|ps|, s);
      var a, b := Cull(ps, c), Cull(Emitted(n, origin, s, rand), c);
      NextParticlesShape(ps, s, origin, c, rand);
      IntegrateAppend(a, b, s, rand, 2 * n);
      assert p in a;
      var j :| 0 <= j < |a| && a[j] == p;
      assert Successor(p, NextParticles(ps, s, origin, c, rand)[j], s);
    }
  }

  /** With a non-negative life setting every emitted particle is alive, so the whole batch survives its first filter. */
  lemma {:induction false} BatchSurvives(n: nat, origin: Point, s: Settings, c: Canvas, rand: Stream)
    requires s.particleLife >= 0.0
    ensures Cull(Emitted(n, origin, s, rand), c) == Emitted(n, origin, s, rand)
  {
    CullKeepsAll(Emitted(n, origin, s, rand), c);
  }

  /**
   * The population stays within `maxParticles + creationRate - 1` once it
   * is: the filter never adds, and a batch is emitted only below capacity.
   */
  lemma {:induction false} PopulationBound(ps: seq<Particle>, s: Settings, origin: Point, c: Canvas, rand: Stream)
    requires Usable(s)
    requires |ps| <= s.maxParticles + s.creationRate - 1
    ensures |NextParticles(ps, s, origin, c, rand)| <= s.maxParticles + s.creationRate - 1
  {
    var n := EmissionCount(|ps|, s);
    var e := Emitted(n, origin, s, rand);
    assert |Cull(ps + e, c)| <= |ps| + n;
  }

  /**
   * A system with capacity 5, batch 5 and life 2, started empty: the batch
   * is emitted and decremented in the same update, so the lives after the
   * first three updates are 1, 0 and -1, with all five particles kept (a
   * particle at life 0 is still alive).
   */
  lemma {:induction false} LifeScenario(s: Settings, origin: Point, c: Canvas,
                                        t1: seq<Particle>, t2: seq<Particle>, t3: seq<Particle>,
                                        r1: Stream, r2: Stream, r3: Stream)
    requires s.maxParticles == 5 && s.creationRate == 5 && s.particleLife == 2.0
    requires t1 == NextParticles([], s, origin, c, r1)
    requires t2 == NextParticles(t1, s, origin, c, r2)
    requires t3 == NextParticles(t2, s, origin, c, r3)
    ensures |t1| == 5 && |t2| == 5 && |t3| == 5
    ensures forall i :: 0 <= i < 5 ==> t1[i].life == 1.0 && t2[i].life == 0.0 && t3[i].life == -1.0
  {
    FirstUpdate(s, origin, c, r1);
    AgingUpdate(t1, 1.0, s, origin, c, r2);
    AgingUpdate(t2, 0.0, s, origin, c, r3);
  }

  /**
   * Started empty below capacity, one update leaves exactly the batch, each
   * a frame older and with its size already recomputed from the lowered life.
   */
  lemma {:induction false} FirstUpdate(s: Settings, origin: Point, c: Canvas, rand: Stream)
    requires Usable(s) && s.particleLife >= 0.0 && 0 < s.maxParticles && 0 <= s.creationRate
    ensures var r := NextParticles([], s, origin, c, rand);
            |r| == s.creationRate &&
            forall i :: 0 <= i < |r| ==>
              r[i].life == s.particleLife - 1.0 &&
              r[i].size == Max(0.0, s.particleSize * ((s.particleLife - 1.0) / s.particleLife))
  {
    var n := s.creationRate;
    var e := Emitted(n, origin, s, rand);
    BatchSurvives(n, origin, s, c, rand);
    assert [] + e == e;
    var r := NextParticles([], s, origin, c, rand);
    assert r == Integrate(e, s, rand, 2 * n);
    IntegrateSuccessors(e, s, rand, 2 * n);
    forall i | 0 <= i < |r|
      ensures r[i].life == s.particleLife - 1.0 &&
              r[i].size == Max(0.0, s.particleSize * ((s.particleLife - 1.0) / s.particleLife))
    {
      FreshSuccessor(e[i], r[i], s);
    }
  }

  /** The successor of a particle still at the configured life: one unit older, with the size that life gives. */
  lemma FreshSuccessor(p: Particle, q: Particle, s: Settings)
    requires Usable(s) && Successor(p, q, s) && p.life == s.particleLife
    ensures q.life == s.particleLife - 1.0
    ensures q.size == Max(0.0, s.particleSize * ((s.particleLife - 1.0) / s.particleLife))
  {
    var f := s.particleSize * ((s.particleLife - 1.0) / s.particleLife);
    assert q.life == s.particleLife - 1.0;
    assert s.particleSize * (q.life / s.particleLife) == f;
    assert q.size == 0.0 || q.size == f;
  }

  /** With life 2 and size 24, a new particle's size after its first update is 12. */
  lemma {:induction false} FirstSizeScenario(s: Settings, origin: Point, c: Canvas, rand: Stream)
    requires s.particleLife == 2.0 && s.particleSize == 24.0 && 0 < s.maxParticles && 0 <= s.creationRate
    ensures var r := NextParticles([], s, origin, c, rand);
            forall i :: 0 <= i < |r| ==> r[i].size == 12.0
  {
    FirstUpdate(s, origin, c, rand);
    assert s.particleSize * ((s.particleLife - 1.0) / s.particleLife) == 12.0;
  }

  /**
   * A batch emitted with a negative life setting is dead from the start; at
   * an origin outside the visible area it is removed in the update that
   * emits it.
   */
  lemma {:induction false} DeadBatchDropped(s: Settings, origin: Point, c: Canvas, rand: Stream)
    requires s.particleLife < 0.0
    requires !(origin.y < c.height + THRESHOLD && origin.y > -THRESHOLD &&
               origin.x < c.width + THRESHOLD && origin.x > -THRESHOLD)
    ensures NextParticles([], s, origin, c, rand) == []
  {
    var n := EmissionCount(0, s);
    var e := Emitted(n, origin, s, rand);
    CullDropsAll(e, c);
    assert [] + e == e;
  }

  /**
   * At or above capacity, a list of particles that all have the same
   * non-negative life is kept whole, and every particle loses one unit.
   */
  lemma {:induction false} AgingUpdate(ps: seq<Particle>, life: real, s: Settings, origin: Point, c: Canvas, rand: Stream)
    requires Usable(s) && |ps| >= s.maxParticles && life >= 0.0
    requires forall i :: 0 <= i < |ps| ==> ps[i].life == life
    ensures var r := NextParticles(ps, s, origin, c, rand);
            |r| == |ps| && forall i :: 0 <= i < |r| ==> r[i].life == life - 1.0
  {
    FullUpdate(ps, s, origin, c, rand);
    CullKeepsAll(ps, c);
  }

  /** At or above capacity nothing is emitted: the update advances the survivors of the filter only. */
  lemma {:induction false} FullUpdate(ps: seq<Particle>, s: Settings, origin: Point, c: Canvas, rand: Stream)
    requires Usable(s) && |ps| >= s.maxParticles
    ensures NextParticles(ps, s, origin, c, rand) == Integrate(Cull(ps, c), s, rand, 0)
  {
    assert EmissionCount(|ps|, s) == 0;
    assert ps + Emitted(0, origin, s, rand) == ps;
  }

  /**
   * At or above capacity, an update keeps exactly the particles the filter
   * keeps; when every particle is invisible and dead, none is left. In the
   * scenario above, the fourth update therefore keeps exactly the visible
   * particles of life -1.
   */
  lemma {:induction false} ExpiryUpdate(ps: seq<Particle>, s: Settings, origin: Point, c: Canvas, rand: Stream)
    requires Usable(s) && |ps| >= s.maxParticles
    ensures |NextParticles(ps, s, origin, c, rand)| == |Cull(ps, c)|
    ensures (forall i :: 0 <= i < |ps| ==> !IsVisible(ps[i], c) && ps[i].life < 0.0) ==>
            NextParticles(ps, s, origin, c, rand) == []
  {
    FullUpdate(ps, s, origin, c, rand);
    if forall i :: 0 <= i < |ps| ==> !IsVisible(ps[i], c) && ps[i].life < 0.0 {
      CullDropsAll(ps, c);
    }
  }

  /** A list of invisible, dead particles is emptied by the filter. */
  lemma {:induction false} CullDropsAll(ps: seq<Particle>, c: Canvas)
    requires forall i :: 0 <= i < |ps| ==> !IsVisible(ps[i], c) && ps[i].life < 0.0
    ensures Cull(ps, c) == []
  {
    if ps != [] {
      CullDropsAll(ps[1..], c);
    }
  }
}
