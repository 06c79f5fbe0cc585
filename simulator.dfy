/**
 * The per-tick schedule of the rope simulator.
 *
 * A tick schedules one force/prediction stage followed by `iterCount` rounds of
 * (distance relaxation, final/pin constraint). Every stage waits for the one
 * scheduled just before it. The job kernels themselves are not modelled: a
 * stage records which job it runs, with which scalar parameters, over how
 * many items and after which earlier stage.
 */
module Simulator {
  import opened Vectors

  /** How a stage fans out: `ScheduleParallel` with a batch size, or `Schedule` on one worker. */
  datatype Dispatch = Parallel(batchSize: nat) | Sequential

  /** The job a stage runs, with the scalar parameters it is given. */
  datatype Job =
    | SimulateForceExtJob(dt: real, gravity: Vec3, globalForce: Vec3, airDrag: real, damping: real)
      /** The coefficient `d` is `1 / denominator`. */
    | DistanceConstraintJob(restLength: real, stiffness: real, denominator: int)
    | FinalConstraintJob

  /** One scheduled stage; `predecessor` is the chain position it waits for, -1 for none. */
  datatype Stage = Stage(job: Job, length: nat, dispatch: Dispatch, predecessor: int)

  /**
   * A job handle stands for the chain of stages it completes: its last stage
   * and, through the dependencies, every stage before it. A freshly
   * constructed handle has an empty chain.
   */
  datatype JobHandle = JobHandle(chain: seq<Stage>)

  const DistanceRestLength: real := 1.2
  const DistanceStiffness: real := 0.5
  const ForceBatchSize: nat := 64

  /** The correction coefficient `d` a distance stage with this denominator uses. */
  function Coefficient(denominator: int): real
    requires denominator != 0
  {
    1.0 / denominator as real
  }

  /** Schedules a stage that waits for `depend`: it goes after every stage of `depend`. */
  function ScheduleAfter(depend: JobHandle, job: Job, length: nat, dispatch: Dispatch): JobHandle
  {
    JobHandle(depend.chain + [Stage(job, length, dispatch, |depend.chain| - 1)])
  }

  /** The number of outer iterations a `for (i = 0; i < iterCount; i++)` loop runs. */
  function Rounds(iterCount: int): nat
  {
    if iterCount > 0 then iterCount else 0
  }

  // ---------------------------------------------------------------------------
  // Reference description of a tick, written position by position.
  // ---------------------------------------------------------------------------

  /**
   * Stage `j` of the constraint part of a tick that follows `base` earlier
   * stages: even offsets are the distance stage of outer iteration `j / 2`,
   * odd offsets its pin stage.
   */
  function ConstraintStage(iterCount: int, particles: nat, links: nat, base: nat, j: nat): Stage
  {
    if j % 2 == 0 then
      Stage(DistanceConstraintJob(DistanceRestLength, DistanceStiffness, iterCount - j / 2),
            links, Sequential, base + j - 1)
    else
      Stage(FinalConstraintJob, particles, Sequential, base + j - 1)
  }

  /** Stage `k` of a whole tick: the force stage first, then the constraint part. */
  function TickStage(force: Job, iterCount: int, particles: nat, links: nat, k: nat): Stage
  {
    if k == 0 then Stage(force, particles, Parallel(ForceBatchSize), -1)
    else ConstraintStage(iterCount, particles, links, 1, k - 1)
  }

  /** The whole chain one tick schedules. */
  function TickChain(force: Job, iterCount: int, particles: nat, links: nat): seq<Stage>
  {
    seq(1 + 2 * Rounds(iterCount), k requires 0 <= k => TickStage(force, iterCount, particles, links, k))
  }

  /**
   * A tick is one force stage followed by `iterCount` (distance, pin) pairs:
   * its length is `1 + 2 * iterCount`, the force stage comes first and only
   * first, and after it distance and pin stages alternate.
   */
  lemma TickChainShape(force: Job, iterCount: int, particles: nat, links: nat)
    requires force.SimulateForceExtJob?
    ensures var c := TickChain(force, iterCount, particles, links);
      && |c| == 1 + 2 * Rounds(iterCount)
      && c[0] == Stage(force, particles, Parallel(ForceBatchSize), -1)
      && (forall k :: 1 <= k < |c| ==>
            && !c[k].job.SimulateForceExtJob?
            && (c[k].job.DistanceConstraintJob? <==> k % 2 == 1)
            && (c[k].job.FinalConstraintJob? <==> k % 2 == 0))
  {
  }

  /** With `iterCount <= 0` the tick is the force stage alone: no distance or pin stage runs. */
  lemma ZeroIterationsOnlyForce(force: Job, iterCount: int, particles: nat, links: nat)
    requires iterCount <= 0
    ensures TickChain(force, iterCount, particles, links) == [Stage(force, particles, Parallel(ForceBatchSize), -1)]
  {
  }

  /** Every stage waits for the one just before it; the first waits for nothing. */
  lemma TickChainDependencies(force: Job, iterCount: int, particles: nat, links: nat)
    ensures var c := TickChain(force, iterCount, particles, links);
      forall k :: 0 <= k < |c| ==> c[k].predecessor == k - 1
  {
  }

  /**
   * Every distance stage uses rest length 1.2 and stiffness 0.5 and runs
   * over the links; the force and pin stages run over the particles.
   */
  lemma TickChainFanOut(force: Job, iterCount: int, particles: nat, links: nat)
    requires force.SimulateForceExtJob?
    ensures var c := TickChain(force, iterCount, particles, links);
      forall k :: 0 <= k < |c| ==>
        if c[k].job.DistanceConstraintJob? then
          && c[k].job.restLength == DistanceRestLength
          && c[k].job.stiffness == DistanceStiffness
          && c[k].length == links
          && c[k].dispatch == Sequential
        else
          c[k].length == particles
  {
  }

  /**
   * The distance stage of outer iteration `i` (chain position `2 * i + 1`)
   * has denominator `iterCount - i`, which lies in `1..iterCount` and so is
   * never zero.
   */
  lemma TickChainDenominators(force: Job, iterCount: int, particles: nat, links: nat)
    ensures var c := TickChain(force, iterCount, particles, links);
      forall k :: 0 <= k < |c| && k % 2 == 1 ==>
        && c[k].job == DistanceConstraintJob(DistanceRestLength, DistanceStiffness, iterCount - (k - 1) / 2)
        && 1 <= c[k].job.denominator <= iterCount
  {
  }

  /** Of two positive denominators the larger gives the smaller coefficient. */
  lemma CoefficientDecreasing(a: int, b: int)
    requires 1 <= b < a
    ensures Coefficient(a) < Coefficient(b)
  {
    var ra, rb := a as real, b as real;
    assert Coefficient(a) * ra == 1.0;
    assert Coefficient(b) * rb == 1.0;
    assert Coefficient(a) * rb < Coefficient(a) * ra;
  }

  /**
   * The coefficient `d` strictly grows from one outer iteration to the next,
   * and the last distance stage of a tick has `d == 1`.
   */
  lemma TickChainCoefficients(force: Job, iterCount: int, particles: nat, links: nat)
    ensures var c := TickChain(force, iterCount, particles, links);
      && (forall p, q :: 0 <= p < q < |c| && p % 2 == 1 && q % 2 == 1 ==>
            Coefficient(c[p].job.denominator) < Coefficient(c[q].job.denominator))
      && (iterCount > 0 ==> c[|c| - 2].job.DistanceConstraintJob? && Coefficient(c[|c| - 2].job.denominator) == 1.0)
  {
    var c := TickChain(force, iterCount, particles, links);
    TickChainDenominators(force, iterCount, particles, links);
    forall p, q | 0 <= p < q < |c| && p % 2 == 1 && q % 2 == 1
      ensures Coefficient(c[p].job.denominator) < Coefficient(c[q].job.denominator)
    {
      CoefficientDecreasing(c[p].job.denominator, c[q].job.denominator);
    }
  }

  /** The handle after `k` rounds of the constraint loop, starting from `depend`. */
  function ConstraintRounds(depend: JobHandle, iterCount: int, particles: nat, links: nat, k: nat): JobHandle
  {
    if k == 0 then depend
    else
      var h := ConstraintRounds(depend, iterCount, particles, links, k - 1);
      var d := ScheduleAfter(h, DistanceConstraintJob(DistanceRestLength, DistanceStiffness, iterCount - (k - 1)),
                             links, Sequential);
      ScheduleAfter(d, FinalConstraintJob, particles, Sequential)
  }

  /**
   * `k` rounds of the constraint loop keep the stages of `depend` and add
   * `2 * k` stages, which are the constraint part of the reference tick.
   */
  lemma {:induction false} ConstraintRoundsStages(depend: JobHandle, iterCount: int, particles: nat, links: nat, k: nat)
    ensures var c := ConstraintRounds(depend, iterCount, particles, links, k).chain;
      && |c| == |depend.chain| + 2 * k
      && c[..|depend.chain|] == depend.chain
      && forall p :: |depend.chain| <= p < |c| ==>
           c[p] == ConstraintStage(iterCount, particles, links, |depend.chain|, p - |depend.chain|)
  {
    if k > 0 {
      ConstraintRoundsStages(depend, iterCount, particles, links, k - 1);
      var b := |depend.chain|;
      var prev := ConstraintRounds(depend, iterCount, particles, links, k - 1).chain;
      var c := ConstraintRounds(depend, iterCount, particles, links, k).chain;
      var dist := Stage(DistanceConstraintJob(DistanceRestLength, DistanceStiffness, iterCount - (k - 1)),
                        links, Sequential, |prev| - 1);
      var fin := Stage(FinalConstraintJob, particles, Sequential, |prev|);
      assert c == prev + [dist] + [fin];
      assert c[..b] == depend.chain by {
        assert c[..b] == prev[..b];
      }
      forall p | b <= p < |c|
        ensures c[p] == ConstraintStage(iterCount, particles, links, b, p - b)
      {
        var j := p - b;
        if p < |prev| {
          assert c[p] == prev[p];
        } else if p == |prev| {
          assert j == 2 * (k - 1) && j % 2 == 0 && j / 2 == k - 1;
          assert c[p] == dist;
        } else {
          assert j == 2 * (k - 1) + 1 && j % 2 == 1;
          assert c[p] == fin;
        }
      }
    }
  }

  // ---------------------------------------------------------------------------
  // The simulator object.
  // ---------------------------------------------------------------------------

  class ApexRopeSimulator {
    /** `nowPosition.Length`: the number of particles. */
    var particleCount: nat
    /** `doubleConnect.Length`: the number of distance links. */
    var linkCount: nat

    var useForce: bool
    var useDistanceConstraint: bool
    var useColliderConstraint: bool

    var gravity: Vec3
    var globalForce: Vec3
    var airDrag: real
    var damping: real

    /** The source's `iterator` field: the number of outer iterations per tick. */
    var iterCount: int

    var jobHandle: JobHandle
    /** Job-system state, not a field of the simulator: the stages behind `jobHandle` nobody has waited for yet. */
    ghost var pending: seq<Stage>

    /** A simulator with the field initialisers' values, over buffers of the given lengths. */
    constructor (particleCount: nat, linkCount: nat)
      ensures this.particleCount == particleCount && this.linkCount == linkCount
      ensures useForce && useDistanceConstraint && useColliderConstraint
      ensures gravity == Vec3(0.0, -9.81, 0.0) && globalForce == Zero
      ensures airDrag == 0.2 && damping == 0.5 && iterCount == 10
      ensures jobHandle == JobHandle([]) && pending == []
    {
      this.particleCount := particleCount;
      this.linkCount := linkCount;
      useForce, useDistanceConstraint, useColliderConstraint := true, true, true;
      gravity := Vec3(0.0, -9.81, 0.0);
      globalForce := Zero;
      airDrag, damping := 0.2, 0.5;
      iterCount := 10;
      jobHandle := JobHandle([]);
      pending := [];
    }

    /** Schedules one pin stage over the particles, after `depend`. */
    function DoFinalConstraintJobs(depend: JobHandle): (h: JobHandle)
      reads this
      ensures |h.chain| == |depend.chain| + 1 && h.chain[..|depend.chain|] == depend.chain
      ensures h.chain[|depend.chain|] == Stage(FinalConstraintJob, particleCount, Sequential, |depend.chain| - 1)
    {
      ScheduleAfter(depend, FinalConstraintJob, particleCount, Sequential)
    }

    /**
     * Schedules the distance stage of outer iteration `iterIndex` over the
     * links, after `depend`; for an index of the loop in `DoConstraintJobs`
     * the coefficient's denominator lies in `1..iterCount`.
     */
    function DoDistanceConstraintJobs(depend: JobHandle, iterIndex: int): (h: JobHandle)
      reads this
      ensures |h.chain| == |depend.chain| + 1 && h.chain[..|depend.chain|] == depend.chain
      ensures h.chain[|depend.chain|] ==
        Stage(DistanceConstraintJob(DistanceRestLength, DistanceStiffness, iterCount - iterIndex),
              linkCount, Sequential, |depend.chain| - 1)
      ensures 0 <= iterIndex < iterCount ==> 1 <= h.chain[|depend.chain|].job.denominator <= iterCount
    {
      ScheduleAfter(depend, DistanceConstraintJob(DistanceRestLength, DistanceStiffness, iterCount - iterIndex),
                    linkCount, Sequential)
    }

    /** The force stage: a single stage with no predecessor, over the particles in batches of 64. */
    function DoForceJobs(dt: real): (h: JobHandle)
      reads this
      ensures h.chain == [Stage(SimulateForceExtJob(dt, gravity, globalForce, airDrag, damping),
                                particleCount, Parallel(ForceBatchSize), -1)]
    {
      ScheduleAfter(JobHandle([]), SimulateForceExtJob(dt, gravity, globalForce, airDrag, damping),
                    particleCount, Parallel(ForceBatchSize))
    }

    /** All constraint rounds of one tick, chained after `depend`. */
    method DoConstraintJobs(depend: JobHandle) returns (r: JobHandle)
      ensures r == ConstraintRounds(depend, iterCount, particleCount, linkCount, Rounds(iterCount))
    {
      var jobDepend := depend;
      var i := 0;
      while i < iterCount
        invariant 0 <= i <= Rounds(iterCount)
        invariant jobDepend == ConstraintRounds(depend, iterCount, particleCount, linkCount, i)
      {
        jobDepend := DoDistanceConstraintJobs(jobDepend, i);
        jobDepend := DoFinalConstraintJobs(jobDepend);
        i := i + 1;
      }
      r := jobDepend;
    }

    /**
     * Schedules one tick and stores its handle. The chain depends only on the
     * iteration count, the buffer lengths, `dt` and the force parameters: the
     * feature switches are never consulted and nothing is scheduled between
     * the force stage and the first distance stage. Only the handle (and the
     * outstanding work behind it) changes.
     */
    method Step(dt: real)
      modifies this`jobHandle, this`pending
      ensures jobHandle.chain ==
        TickChain(SimulateForceExtJob(dt, gravity, globalForce, airDrag, damping), iterCount, particleCount, linkCount)
      ensures pending == jobHandle.chain
    {
      var handle := DoForceJobs(dt);
      handle := DoConstraintJobs(handle);
      ConstraintRoundsStages(DoForceJobs(dt), iterCount, particleCount, linkCount, Rounds(iterCount));
      jobHandle := handle;
      pending := handle.chain;
    }

    /** Waits for the stored handle: afterwards no scheduled work is outstanding. */
    method Complete()
      modifies this`pending
      ensures pending == []
    {
      pending := [];
    }
  }
}
