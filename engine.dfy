/**
 * The stateful part of the particle engine: a `ParticleSystem` that owns its
 * particle list and is updated once per frame, and the `World` that holds
 * the registered systems, the shared pointer position, and the one
 * controllable system whose live parameters the wheel adjusts.
 */
module Engine {
  import opened Vectors
  import opened Particles

  datatype Option<T> = None | Some(value: T)

  /**
   * A configuration entry read with `||`: an absent entry or a zero falls
   * back to the default, so the result is zero only when the default is.
   */
  function OrDefault<T(==)>(entry: Option<T>, zero: T, default: T): (r: T)
    ensures r == zero ==> default == zero
    ensures entry.Some? && entry.value != zero ==> r == entry.value
    ensures entry.None? || entry.value == zero ==> r == default
  {
    if entry.Some? && entry.value != zero then entry.value else default
  }

  /** The configuration a particle system is created with; every entry is optional. */
  datatype Config = Config(
    location: Option<Vec2>,
    maxParticles: Option<int>,
    particleLife: Option<real>,
    particleSize: Option<real>,
    creationRate: Option<int>,
    gravityRate: Option<real>,
    scatter: Option<real>,
    controllable: bool)

  /**
   * The value a live parameter takes after a wheel step: the wheel delta,
   * divided by the parameter's divisor, is subtracted, and the result never
   * falls below the floor.
   */
  function WheelAdjusted(value: real, delta: real, divisor: real, floor: real): (r: real)
    requires divisor != 0.0
    ensures r >= floor && r >= value - delta / divisor
    ensures r == floor || r == value - delta / divisor
  {
    Max(floor, value - delta / divisor)
  }

  /**
   * A wheel delta of 100 lowers a life setting of 60 to 50; a delta of 1000
   * stops at the floor of 1 instead of going negative.
   */
  lemma WheelScenario()
    ensures WheelAdjusted(60.0, 100.0, 10.0, 1.0) == 50.0
    ensures WheelAdjusted(60.0, 1000.0, 10.0, 1.0) == 1.0
  {
  }

  /** The live parameter a wheel event adjusts. */
  datatype Target = ScatterTarget | SizeTarget | LifeTarget

  /**
   * The wheel dispatch: shift routes to scatter, alt also routes to scatter,
   * and no modifier routes to life. The size parameter is never chosen.
   */
  function Route(shiftKey: bool, altKey: bool): (t: Target)
    ensures t != SizeTarget
    ensures t == ScatterTarget <==> shiftKey || altKey
    ensures t == LifeTarget <==> !shiftKey && !altKey
  {
    if shiftKey then ScatterTarget
    else if altKey then ScatterTarget
    else LifeTarget
  }

  /**
   * The index at which `splice(index, 1)` starts on a list of length `len`:
   * a negative index counts from the end (and stops at 0), a large index
   * stops at the end.
   */
  function SpliceStart(len: nat, index: int): (k: nat)
    ensures k <= len
    ensures 0 <= index <= len ==> k == index
    ensures index < 0 && len + index >= 0 ==> k == len + index
    ensures len + index < 0 ==> k == 0
    ensures index > len ==> k == len
  {
    if index < 0 then (if len + index < 0 then 0 else len + index)
    else if index < len then index else len
  }

  /** The list left by `splice(index, 1)`: at most one element is removed, the rest keep their order. */
  function SpliceOne<T>(s: seq<T>, index: int): (r: seq<T>)
    ensures s != [] && index < |s| ==> |r| == |s| - 1
    ensures s == [] || index >= |s| ==> r == s
    ensures var k := SpliceStart(|s|, index);
            k < |s| ==> r == s[..k] + s[k + 1..] && multiset(r) + multiset{s[k]} == multiset(s)
  {
    var k := SpliceStart(|s|, index);
    if k < |s| then
      assert s == s[..k] + [s[k]] + s[k + 1..];
      s[..k] + s[k + 1..]
    else s
  }

  /** Removing at the last index, or at -1, undoes an append. */
  lemma {:induction false} SpliceUndoesPush<T>(s: seq<T>, x: T)
    ensures SpliceOne(s + [x], |s|) == s
    ensures SpliceOne(s + [x], -1) == s
  {
    assert (s + [x])[..|s|] == s;
    assert (s + [x])[|s| + 1..] == [];
  }

  /**
   * The vector part of the integration step run on objects: vectors holding
   * the particle's speed, location and drift are moved with `MoveVectors`,
   * and the two new objects hold exactly the speed and location of `Step`.
   */
  method AdvanceVectors(p: Particle, drift: Point, s: Particles.Settings) returns (speed: Vec2, location: Vec2)
    requires Usable(s)
    ensures speed != location
    ensures speed.Value() == Step(p, drift, s).speed
    ensures location.Value() == Step(p, drift, s).location
  {
    var oldSpeed := new Vec2(p.speed.x, p.speed.y);
    var oldLocation := new Vec2(p.location.x, p.location.y);
    var d := new Vec2(drift.x, drift.y);
    speed, location := MoveVectors(oldSpeed, oldLocation, d);
  }

  class ParticleSystem {
    var particles: seq<Particle>
    const world: World
    const location: Vec2
    const maxParticles: int
    var particleLife: real
    var particleSize: real
    const creationRate: int
    const gravityRate: real
    var scatter: real

    /** The life setting is a divisor in every update, so it is never zero. */
    ghost predicate Valid()
      reads this`particleLife
    {
      particleLife != 0.0
    }

    function Settings(): (s: Particles.Settings)
      reads this`particleLife, this`particleSize, this`scatter
    {
      Particles.Settings(maxParticles, particleLife, particleSize, creationRate, gravityRate, scatter)
    }

    /**
     * A new, empty system. Each parameter is the configured one unless it is
     * missing or zero. The location is the configured vector object, or a new
     * one at the canvas centre; a controllable system instead shares the
     * world's pointer vector and becomes the world's controllable system.
     */
    constructor (config: Config, world: World)
      modifies world`controllable
      ensures Valid()
      ensures particles == [] && this.world == world
      ensures maxParticles == OrDefault(config.maxParticles, 0, 300)
      ensures particleLife == OrDefault(config.particleLife, 0.0, 60.0)
      ensures particleSize == OrDefault(config.particleSize, 0.0, 24.0)
      ensures creationRate == OrDefault(config.creationRate, 0, 3)
      ensures gravityRate == OrDefault(config.gravityRate, 0.0, -0.5)
      ensures scatter == OrDefault(config.scatter, 0.0, 1.3)
      ensures config.controllable ==> location == world.mouse && world.controllable == this
      ensures !config.controllable ==> world.controllable == old(world.controllable)
      ensures !config.controllable && config.location.Some? ==> location == config.location.value
      ensures !config.controllable && config.location.None? ==>
        fresh(location) && location.Value() == Point(world.canvasWidth / 2.0, world.canvasHeight / 2.0)
    {
      particles := [];
      this.world := world;
      if config.controllable {
        location := world.mouse;
      } else if config.location.Some? {
        location := config.location.value;
      } else {
        location := new Vec2(world.canvasWidth / 2.0, world.canvasHeight / 2.0);
      }
      maxParticles := OrDefault(config.maxParticles, 0, 300);
      particleLife := OrDefault(config.particleLife, 0.0, 60.0);
      particleSize := OrDefault(config.particleSize, 0.0, 24.0);
      creationRate := OrDefault(config.creationRate, 0, 3);
      gravityRate := OrDefault(config.gravityRate, 0.0, -0.5);
      scatter := OrDefault(config.scatter, 0.0, 1.3);
      new;
      if config.controllable {
        world.controllable := this;
      }
    }

    /** The particle list one update from now, drawing the update's samples from `rand`. */
    ghost function Next(rand: Stream): seq<Particle>
      requires Valid()
      reads this`particles, this`particleLife, this`particleSize, this`scatter, location, world`canvasWidth, world`canvasHeight
    {
      NextParticles(particles, Settings(), location.Value(), Canvas(world.canvasWidth, world.canvasHeight), rand)
    }

    method AddParticle(p: Particle)
      modifies this`particles
      ensures particles == old(particles) + [p]
    {
      particles := particles + [p];
    }

    /**
     * One frame: when the population is below capacity a batch of
     * `creationRate` particles is appended, all at the location's current
     * value; then the filter and the integration step run on the whole list.
     * `rand` supplies the samples the update draws, in order.
     */
    method Update(rand: Stream)
      requires Valid()
      modifies this`particles
      ensures particles == old(Next(rand))
    {
      var origin := location.Value();
      var n := EmissionCount(|particles|, Settings());
      if |particles| < maxParticles {
        var i := 0;
        while i < creationRate
          invariant 0 <= i && (i == 0 || i <= creationRate)
          invariant particles == old(particles) + Emitted(i, origin, Settings(), rand)
        {
          AddParticle(NewParticle(i, origin, Settings(), rand));
          i := i + 1;
        }
        assert i == n;
      } else {
        assert particles == old(particles) + Emitted(n, origin, Settings(), rand);
      }
      particles := Integrate(Cull(particles, Canvas(world.canvasWidth, world.canvasHeight)), Settings(), rand, 2 * n);
    }
  }

  class World {
    var canvasWidth: real
    var canvasHeight: real
    var objects: seq<ParticleSystem>
    var controllable: ParticleSystem?
    const mouse: Vec2

    /** Every registered system, and the controllable one, can be updated. */
    ghost predicate Valid()
      reads this, objects`particleLife, controllable
    {
      (forall i :: 0 <= i < |objects| ==> objects[i].Valid()) &&
      (controllable != null ==> controllable.Valid())
    }

    /** A world over a canvas of the given size, with no systems and the pointer at the centre. */
    constructor (width: real, height: real)
      ensures Valid()
      ensures canvasWidth == width && canvasHeight == height
      ensures objects == [] && controllable == null
      ensures fresh(mouse) && mouse.Value() == Point(width / 2.0, height / 2.0)
    {
      canvasWidth := width;
      canvasHeight := height;
      objects := [];
      controllable := null;
      mouse := new Vec2(width / 2.0, height / 2.0);
    }

    /** Scatter of the controllable system: lowered by a hundredth of the delta, never below 0. */
    method UpdateParticleScatter(delta: real)
      requires Valid()
      modifies controllable
      ensures Valid()
      ensures controllable != null ==>
        controllable.scatter == WheelAdjusted(old(controllable.scatter), delta, 100.0, 0.0) &&
        controllable.particleLife == old(controllable.particleLife) &&
        controllable.particleSize == old(controllable.particleSize) &&
        controllable.particles == old(controllable.particles)
    {
      if controllable != null {
        controllable.scatter := WheelAdjusted(controllable.scatter, delta, 100.0, 0.0);
      }
    }

    /** Particle size of the controllable system: lowered by a hundredth of the delta, never below 0. */
    method UpdateParticleSize(delta: real)
      requires Valid()
      modifies controllable
      ensures Valid()
      ensures controllable != null ==>
        controllable.particleSize == WheelAdjusted(old(controllable.particleSize), delta, 100.0, 0.0) &&
        controllable.particleLife == old(controllable.particleLife) &&
        controllable.scatter == old(controllable.scatter) &&
        controllable.particles == old(controllable.particles)
    {
      if controllable != null {
        controllable.particleSize := WheelAdjusted(controllable.particleSize, delta, 100.0, 0.0);
      }
    }

    /** Particle life of the controllable system: lowered by a tenth of the delta, never below 1. */
    method UpdateParticleLife(delta: real)
      requires Valid()
      modifies controllable
      ensures Valid()
      ensures controllable != null ==>
        controllable.particleLife == WheelAdjusted(old(controllable.particleLife), delta, 10.0, 1.0) &&
        controllable.particleLife >= 1.0 &&
        controllable.particleSize == old(controllable.particleSize) &&
        controllable.scatter == old(controllable.scatter) &&
        controllable.particles == old(controllable.particles)
    {
      if controllable != null {
        controllable.particleLife := WheelAdjusted(controllable.particleLife, delta, 10.0, 1.0);
      }
    }

    /** A wheel event adjusts the parameter `Route` picks; the particle size is never touched. */
    method HandleMouseWheel(shiftKey: bool, altKey: bool, wheelDelta: real)
      requires Valid()
      modifies controllable
      ensures Valid()
      ensures controllable != null ==>
        controllable.scatter == (if Route(shiftKey, altKey) == ScatterTarget
                                 then WheelAdjusted(old(controllable.scatter), wheelDelta, 100.0, 0.0)
                                 else old(controllable.scatter)) &&
        controllable.particleLife == (if Route(shiftKey, altKey) == LifeTarget
                                      then WheelAdjusted(old(controllable.particleLife), wheelDelta, 10.0, 1.0)
                                      else old(controllable.particleLife)) &&
        controllable.particleSize == old(controllable.particleSize) &&
        controllable.particles == old(controllable.particles)
    {
      if shiftKey {
        UpdateParticleScatter(wheelDelta);
      } else if altKey {
        UpdateParticleScatter(wheelDelta);
      } else {
        UpdateParticleLife(wheelDelta);
      }
    }

    method AddObject(o: ParticleSystem)
      requires Valid() && o.Valid()
      modifies this`objects
      ensures Valid()
      ensures objects == old(objects) + [o]
    {
      objects := objects + [o];
    }

    method RemoveObject(index: int)
      requires Valid()
      modifies this`objects
      ensures Valid()
      ensures objects == SpliceOne(old(objects), index)
    {
      objects := SpliceOne(objects, index);
    }

    /**
     * Updates every registered system, in list order; the `i`-th system draws
     * its samples from `rand(i)`. When no system is registered twice, each
     * one's particle list is exactly one update further on.
     */
    method Update(rand: nat -> Stream)
      requires Valid()
      modifies objects`particles
      ensures Valid()
      ensures Distinct(objects) ==> forall i :: 0 <= i < |objects| ==> objects[i].particles == old(objects[i].Next(rand(i)))
    {
      var objs := objects;
      var i := 0;
      // the new particle lists of the systems updated so far
      ghost var after: seq<seq<Particle>> := [];
      ghost var distinct := Distinct(objs);
      while i < |objs|
        invariant 0 <= i <= |objs| && |after| == i && objs == objects
        invariant Valid()
        invariant distinct ==> forall k {:trigger rand(k)} :: 0 <= k < i ==> after[k] == old(objs[k].Next(rand(k)))
        invariant distinct ==> forall k :: 0 <= k < i ==> objs[k].particles == after[k]
        invariant distinct ==> forall k :: i <= k < |objs| ==> objs[k].particles == old(objs[k].particles)
      {
        if distinct {
          NextUnchanged(objs[i]);
        }
        objs[i].Update(rand(i));
        after := after + [objs[i].particles];
        i := i + 1;
      }
    }
  }

  /** A system whose state is as it was gives the same next particle list. */
  twostate lemma NextUnchanged(o: ParticleSystem)
    requires old(o.Valid()) && unchanged(o, o.location, o.world)
    ensures o.Valid() && forall rand :: o.Next(rand) == old(o.Next(rand))
  {
  }

  /** No object occurs twice in the list. */
  predicate Distinct<T(==)>(s: seq<T>)
  {
    forall i, j :: 0 <= i < j < |s| ==> s[i] != s[j]
  }
}
