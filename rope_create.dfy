/**
 * Rope creation: the component that lays out the rope's particles on a
 * straight line and wires them into a fresh rope and solver.
 */
module Rope {
  import opened Vectors

  /**
   * The fields of a line particle that rope creation sets. Rotation and
   * scale, which it also sets, are not part of this model.
   */
  datatype ApexLineParticle = ApexLineParticle(index: int, mass: real, previousPosition: Vec3, nowPosition: Vec3)

  /**
   * The visual proxy instantiated for one particle: its name (the decimal
   * text of the index, kept here as the index itself) and its position.
   */
  datatype Element = Element(name: int, position: Vec3)

  /**
   * A `List<ApexLineParticle>`: an object, so that the rope and the solver
   * can hold the same list.
   */
  class ParticleList {
    var items: seq<ApexLineParticle>

    constructor ()
      ensures items == []
    {
      items := [];
    }
  }

  /** The solver component; only the fields rope creation assigns. */
  class ApexSolver {
    var particles: ParticleList?
    var stiffness: real
    var damping: real

    constructor ()
      ensures particles == null
    {
      particles := null;
      stiffness, damping := 0.0, 0.0;
    }
  }

  /** The rope component: its solver, its particle list and its proxy list. */
  class ApexRope {
    var solver: ApexSolver?
    var particles: ParticleList?
    var elements: seq<Element>

    constructor ()
      ensures solver == null && particles == null && elements == []
    {
      solver := null;
      particles, elements := null, [];
    }
  }

  /** Where particle `i` goes: `first + i * (stepSize * stepDirect)`. */
  function ParticlePosition(first: Vec3, stepSize: real, stepDirect: Vec3, i: int): Vec3
  {
    Add(first, Scale(i as real, Scale(stepSize, stepDirect)))
  }

  /** The particle list after the first `n` rounds of the layout loop. */
  function Particles(first: Vec3, stepSize: real, stepDirect: Vec3, mass: real, n: int): seq<ApexLineParticle>
    decreases n
  {
    if n <= 0 then []
    else
      var pos := ParticlePosition(first, stepSize, stepDirect, n - 1);
      Particles(first, stepSize, stepDirect, mass, n - 1) + [ApexLineParticle(n - 1, mass, pos, pos)]
  }

  /** The proxy list after the first `n` rounds of the layout loop. */
  function Elements(first: Vec3, stepSize: real, stepDirect: Vec3, n: int): seq<Element>
    decreases n
  {
    if n <= 0 then []
    else Elements(first, stepSize, stepDirect, n - 1) + [Element(n - 1, ParticlePosition(first, stepSize, stepDirect, n - 1))]
  }

  /**
   * The layout holds `n` particles (none when `n <= 0`), and the one at list
   * position `i` has index `i`, the shared mass, and starts at rest at
   * `first + i * (stepSize * stepDirect)`.
   */
  lemma {:induction false} ParticlesAt(first: Vec3, stepSize: real, stepDirect: Vec3, mass: real, n: int)
    ensures var ps := Particles(first, stepSize, stepDirect, mass, n);
      && |ps| == (if n <= 0 then 0 else n)
      && forall i :: 0 <= i < |ps| ==>
           && ps[i].index == i
           && ps[i].mass == mass
           && ps[i].nowPosition == ParticlePosition(first, stepSize, stepDirect, i)
           && ps[i].previousPosition == ps[i].nowPosition
    decreases n
  {
    if n > 0 {
      ParticlesAt(first, stepSize, stepDirect, mass, n - 1);
    }
  }

  /**
   * The proxy list holds one element per particle: element `i` is named
   * after particle `i`'s index and sits at its position.
   */
  lemma {:induction false} ElementsMatchParticles(first: Vec3, stepSize: real, stepDirect: Vec3, mass: real, n: int)
    ensures var ps := Particles(first, stepSize, stepDirect, mass, n);
      var es := Elements(first, stepSize, stepDirect, n);
      && |es| == |ps|
      && forall i :: 0 <= i < |es| ==> es[i].name == ps[i].index && es[i].position == ps[i].nowPosition
    decreases n
  {
    if n > 0 {
      ElementsMatchParticles(first, stepSize, stepDirect, mass, n - 1);
      ParticlesAt(first, stepSize, stepDirect, mass, n);
    }
  }

  /** The particles are listed in strictly increasing index order. */
  lemma ParticlesOrdered(first: Vec3, stepSize: real, stepDirect: Vec3, mass: real, n: int)
    ensures var ps := Particles(first, stepSize, stepDirect, mass, n);
      forall i, j :: 0 <= i < j < |ps| ==> ps[i].index < ps[j].index
  {
    ParticlesAt(first, stepSize, stepDirect, mass, n);
  }

  /** Consecutive particles are exactly one step `stepSize * stepDirect` apart. */
  lemma ParticlesEvenlySpaced(first: Vec3, stepSize: real, stepDirect: Vec3, mass: real, n: int)
    ensures var ps := Particles(first, stepSize, stepDirect, mass, n);
      forall i :: 0 <= i < |ps| - 1 ==>
        Sub(ps[i + 1].nowPosition, ps[i].nowPosition) == Scale(stepSize, stepDirect)
  {
    ParticlesAt(first, stepSize, stepDirect, mass, n);
  }

  /** The creator component with its configuration fields. */
  class ApexRopeCreate {
    var useSelfPosition: bool
    var firstParticlePosition: Vec3
    var particleCount: int
    var stepSize: real
    var stepDirect: Vec3
    /** Whether `obj`, the template each proxy is instantiated from, is set. */
    var hasObj: bool
    var mass: real
    var stiffness: real
    var damping: real
    /** `transform.position`: where the component's own object is in the scene. */
    var selfPosition: Vec3

    /** A creator with the field initialisers' values, on an object at `selfPosition`. */
    constructor (selfPosition: Vec3)
      ensures !useSelfPosition && firstParticlePosition == Zero
      ensures particleCount == 10 && stepSize == 1.2 && stepDirect == Left
      ensures !hasObj && mass == 1.0 && stiffness == 0.5 && damping == 0.5
      ensures this.selfPosition == selfPosition
    {
      useSelfPosition, firstParticlePosition := false, Zero;
      particleCount, stepSize, stepDirect := 10, 1.2, Left;
      hasObj := false;
      mass, stiffness, damping := 1.0, 0.5, 0.5;
      this.selfPosition := selfPosition;
    }

    /**
     * Makes sure a proxy template exists, replaces the first position by the
     * object's own when `useSelfPosition` is set, then builds the rope.
     */
    method Start() returns (rope: ApexRope, solver: ApexSolver)
      modifies this`hasObj, this`firstParticlePosition
      ensures hasObj
      ensures firstParticlePosition == if useSelfPosition then selfPosition else old(firstParticlePosition)
      ensures fresh(rope) && fresh(solver) && rope.solver == solver
      ensures rope.particles != null && fresh(rope.particles)
      ensures rope.particles.items == Particles(firstParticlePosition, stepSize, stepDirect, mass, particleCount)
      ensures rope.elements == Elements(firstParticlePosition, stepSize, stepDirect, particleCount)
      ensures solver.particles == rope.particles
      ensures solver.stiffness == stiffness && solver.damping == damping
    {
      if !hasObj {
        hasObj := true;
      }
      if useSelfPosition {
        firstParticlePosition := selfPosition;
      }
      rope, solver := InitRope();
    }

    /**
     * Adds a rope and a solver, lays out `particleCount` particles and their
     * proxies, and hands the rope's own particle list object (shared, not
     * copied), the stiffness and the damping to the solver.
     */
    method InitRope() returns (rope: ApexRope, solver: ApexSolver)
      ensures fresh(rope) && fresh(solver) && rope.solver == solver
      ensures rope.particles != null && fresh(rope.particles)
      ensures rope.particles.items == Particles(firstParticlePosition, stepSize, stepDirect, mass, particleCount)
      ensures rope.elements == Elements(firstParticlePosition, stepSize, stepDirect, particleCount)
      ensures solver.particles == rope.particles
      ensures solver.stiffness == stiffness && solver.damping == damping
    {
      rope := new ApexRope();
      solver := new ApexSolver();
      rope.solver := solver;
      var particles := new ParticleList();
      rope.particles := particles;
      rope.elements := [];

      var i := 0;
      while i < particleCount
        invariant 0 <= i && (i <= particleCount || i == 0)
        invariant rope.solver == solver && rope.particles == particles
        invariant particles.items == Particles(firstParticlePosition, stepSize, stepDirect, mass, i)
        invariant rope.elements == Elements(firstParticlePosition, stepSize, stepDirect, i)
      {
        var particlePosition := Add(firstParticlePosition, Scale(i as real, Scale(stepSize, stepDirect)));
        var element := Element(i, particlePosition);
        var p := ApexLineParticle(i, mass, particlePosition, particlePosition);
        rope.elements := rope.elements + [element];
        particles.items := particles.items + [p];
        i := i + 1;
      }

      solver.particles := rope.particles;
      solver.stiffness := stiffness;
      solver.damping := damping;
    }
  }
}
